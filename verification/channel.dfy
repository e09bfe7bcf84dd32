/** What a channel state is and what each of its operations does to it
    (src/channel_state), on values.  ChannelStates.ChannelState carries these
    operations out in place. */
module Channels {
  import opened Wrappers
  import opened Chain
  import opened Referees

  const U64_LIMIT: nat := 0x1_0000_0000_0000_0000
  const MAX_NONCE_GAP: nat := 1000
  const MAX_PROPOSALS: nat := 100

  datatype ChannelError =
    | NoSuchGame
    | NoSuchProposal
    | InsufficientBalance
    | Underflow
    | WrongTurn
    | NoPotato
    | OwnProposal
    | WrongParity
    | NonceTooLow
    | NonceTooFar
    | BadAmount
    | BadTimeout
    | TooManyProposals
    | MoveTooLarge
    | SlashOffChain
    | RefereeFailed(error: RefereeError)
    | BadUnrollSignature
    | BadChannelSignature
    | UnknownUnroll
    | UnrollFromTheFuture
    | ConditionsMismatch
    | NoPreemption
    | DuplicateKey

  function Lift<T>(r: Result<T, RefereeError>): Result<T, ChannelError> {
    match r
    case Ok(v) => Ok(v)
    case Err(e) => Err(RefereeFailed(e))
  }

  function CheckedSub(a: nat, b: nat): Result<nat, ChannelError> {
    if b <= a then Ok(a - b) else Err(Underflow)
  }

  function RemoveAt<T>(s: seq<T>, i: nat): (r: seq<T>)
    requires i < |s|
    ensures |r| == |s| - 1
    ensures forall k :: 0 <= k < |r| ==> r[k] == if k < i then s[k] else s[k + 1]
  {
    s[..i] + s[i + 1..]
  }

  // ---------------------------------------------------------------------------
  // Games
  // ---------------------------------------------------------------------------

  datatype LiveGame = LiveGame(
    gameId: nat,
    lastPh: PuzzleHash,
    referee: Referee,
    myContribution: nat,
    theirContribution: nat)
  {
    function Amount(): nat { referee.fixed.amount }
    predicate IsMyTurn() { referee.MyTurn? }
  }

  datatype ProposedGame = ProposedGame(
    gameId: nat,
    groupId: nat,
    initialPh: PuzzleHash,
    referee: Referee,
    myContribution: nat,
    theirContribution: nat)

  datatype CachedRedo =
    | CachedAcceptSettlement(
        gameId: nat, puzzleHash: PuzzleHash, liveGame: LiveGame, atStake: nat, ourShare: nat, finished: bool)
    | CachedSendMove(
        gameId: nat, matchPuzzleHash: PuzzleHash, puzzleHash: PuzzleHash, amount: nat, stateNumber: nat,
        savedReferee: Referee, savedLastPh: PuzzleHash)
    | CachedProposalAccepted(gameId: nat)

  /** Position of the first game with this id. */
  function LivePosition(games: seq<LiveGame>, id: nat): (r: Option<nat>)
    ensures r.Some? ==> r.value < |games| && games[r.value].gameId == id
    ensures r.None? ==> forall g <- games :: g.gameId != id
  {
    if games == [] then None
    else if games[0].gameId == id then Some(0)
    else
      match LivePosition(games[1..], id)
      case None => None
      case Some(i) => Some(i + 1)
  }

  function ProposalPosition(proposals: seq<ProposedGame>, id: nat): (r: Option<nat>)
    ensures r.Some? ==> r.value < |proposals| && proposals[r.value].gameId == id
    ensures r.None? ==> forall p <- proposals :: p.gameId != id
  {
    if proposals == [] then None
    else if proposals[0].gameId == id then Some(0)
    else
      match ProposalPosition(proposals[1..], id)
      case None => None
      case Some(i) => Some(i + 1)
  }

  // ---------------------------------------------------------------------------
  // Unroll coins
  // ---------------------------------------------------------------------------

  datatype UnrollInputs = UnrollInputs(
    myRewardPh: PuzzleHash,
    theirRewardPh: PuzzleHash,
    myBalance: nat,
    theirBalance: nat,
    coins: seq<(PuzzleHash, nat)>,
    timeout: nat)

  datatype UnrollOutcome = UnrollOutcome(
    timeoutConditions: seq<Condition>,
    baseConditions: seq<Condition>,
    stateNumber: nat,
    signature: Signature)

  datatype UnrollCoin = UnrollCoin(startedWithPotato: bool, stateNumber: nat, outcome: UnrollOutcome)

  datatype StateUpdateSignatures = StateUpdateSignatures(channelHalf: Signature, unrollHalf: Signature)

  const NO_SIGNATURES: StateUpdateSignatures := StateUpdateSignatures(DefaultSignature, DefaultSignature)

  /** A full unroll record: the coin with our half, and the peer's halves. */
  datatype UnrollRecord = UnrollRecord(coin: UnrollCoin, signatures: StateUpdateSignatures)

  /** The compact record kept for every state ever sent or received. */
  datatype HistoricalUnroll = HistoricalUnroll(
    stateNumber: nat, conditionsHash: ConditionsHash, timeoutConditions: seq<Condition>)

  datatype ChannelIdentity = ChannelIdentity(
    myChannelKey: PublicKey,
    theirChannelKey: PublicKey,
    myUnrollKey: PublicKey,
    theirUnrollKey: PublicKey,
    myRefereeKey: PublicKey,
    theirRefereeKey: PublicKey,
    rewardPh: PuzzleHash,
    theirRewardPh: PuzzleHash,
    theirPayoutSignature: Signature,
    unrollTimeout: nat,
    refereeModHash: Hash,
    channelCoin: CoinString)
  {
    function UnrollKey(): AggregateKey { Aggregate(myUnrollKey, theirUnrollKey) }

    function ChannelKey(): AggregateKey { Aggregate(myChannelKey, theirChannelKey) }

    function MyPayoutSignature(): Signature { HalfSignature(myRefereeKey, None, PayoutMessage(rewardPh)) }

    function GameContext(start: GameStartInfo): RefereeFixedContext {
      RefereeFixedContext(
        refereeModHash, myRefereeKey, theirRefereeKey, rewardPh, theirRewardPh,
        MyPayoutSignature(), theirPayoutSignature, start.timeout, start.amount, start.gameId)
    }
  }

  function CoinConditions(coins: seq<(PuzzleHash, nat)>): seq<Condition> {
    seq(|coins|, i requires 0 <= i < |coins| => CreateCoin(coins[i].0, coins[i].1))
  }

  /** Conditions an unroll creates: the state number, both rewards with those of
      the side that started with the potato first, then one coin per live game. */
  function BaseConditions(startedWithPotato: bool, stateNumber: nat, inputs: UnrollInputs): seq<Condition> {
    var ours := CreateCoin(inputs.myRewardPh, inputs.myBalance);
    var theirs := CreateCoin(inputs.theirRewardPh, inputs.theirBalance);
    [Rem(stateNumber)] + (if startedWithPotato then [ours, theirs] else [theirs, ours]) + CoinConditions(inputs.coins)
  }

  function WithTimelock(timeout: nat, conditions: seq<Condition>): seq<Condition> {
    if timeout > 0 then [AssertHeightRelative(timeout)] + conditions else conditions
  }

  function UpdatedUnroll(id: ChannelIdentity, startedWithPotato: bool, stateNumber: nat, inputs: UnrollInputs): UnrollCoin {
    var base := BaseConditions(startedWithPotato, stateNumber, inputs);
    UnrollCoin(startedWithPotato, stateNumber, UnrollOutcome(
      WithTimelock(inputs.timeout, base), base, stateNumber,
      HalfSignature(id.myUnrollKey, Some(id.UnrollKey()), UnrollMessage(base))))
  }

  /** Our half plus the given half is a valid aggregate signature exactly when
      the given half is the peer's for the same message and aggregate key. */
  predicate VerifiesWithOurHalf(half: Signature, theirKey: PublicKey, key: AggregateKey, message: Message) {
    half == HalfSignature(theirKey, Some(key), message)
  }

  predicate VerifyUnroll(id: ChannelIdentity, coin: UnrollCoin, half: Signature) {
    VerifiesWithOurHalf(half, id.theirUnrollKey, id.UnrollKey(), UnrollMessage(coin.outcome.baseConditions))
  }

  function UnrollPuzzleHash(id: ChannelIdentity, coin: UnrollCoin): PuzzleHash {
    UnrollPh(id.UnrollKey(), coin.outcome.stateNumber, ConditionsHash(coin.outcome.timeoutConditions))
  }

  function ChannelSpendConditions(id: ChannelIdentity, coin: UnrollCoin): seq<Condition> {
    [CreateCoin(UnrollPuzzleHash(id, coin), id.channelCoin.amount)]
  }

  function ChannelMessageFor(id: ChannelIdentity, conditions: seq<Condition>): Message {
    ChannelMessage(IdOf(id.channelCoin), conditions)
  }

  function OurChannelHalf(id: ChannelIdentity, conditions: seq<Condition>): Signature {
    HalfSignature(id.myChannelKey, Some(id.ChannelKey()), ChannelMessageFor(id, conditions))
  }

  predicate VerifyChannel(id: ChannelIdentity, conditions: seq<Condition>, half: Signature) {
    VerifiesWithOurHalf(half, id.theirChannelKey, id.ChannelKey(), ChannelMessageFor(id, conditions))
  }

  function HistoricalOf(coin: UnrollCoin): HistoricalUnroll {
    HistoricalUnroll(
      coin.stateNumber, ConditionsHash(coin.outcome.timeoutConditions), coin.outcome.timeoutConditions)
  }

  // ---------------------------------------------------------------------------
  // The channel
  // ---------------------------------------------------------------------------

  datatype Channel = Channel(
    id: ChannelIdentity,
    myOut: nat,
    theirOut: nat,
    myAllocated: nat,
    theirAllocated: nat,
    havePotato: bool,
    cached: seq<CachedRedo>,
    stateNumber: nat,
    myNextNonce: nat,
    theirNextNonce: nat,
    latestSent: UnrollRecord,
    latestReceived: Option<UnrollRecord>,
    unrollMap: map<PuzzleHash, HistoricalUnroll>,
    live: seq<LiveGame>,
    pending: seq<LiveGame>,
    proposed: seq<ProposedGame>)
  {
    predicate IsOurNonce(gameId: nat) { gameId % 2 == myNextNonce % 2 }
  }

  function GameCoins(games: seq<LiveGame>): (r: seq<(PuzzleHash, nat)>)
    ensures |r| == |games|
    ensures forall i :: 0 <= i < |games| ==> r[i] == (games[i].lastPh, games[i].Amount())
  {
    seq(|games|, i requires 0 <= i < |games| => (games[i].lastPh, games[i].Amount()))
  }

  function CurrentInputs(ch: Channel): UnrollInputs {
    UnrollInputs(
      ch.id.rewardPh, ch.id.theirRewardPh, ch.myOut, ch.theirOut, GameCoins(ch.live), ch.id.unrollTimeout)
  }

  function NewChannel(id: ChannelIdentity, weStartWithPotato: bool, myContribution: nat, theirContribution: nat)
    : Result<Channel, ChannelError>
  {
    var _ :- Require(id.theirChannelKey != id.myChannelKey, DuplicateKey);
    var _ :- Require(id.theirUnrollKey != id.myUnrollKey, DuplicateKey);
    var _ :- Require(id.unrollTimeout > 0, BadTimeout);
    var inputs := UnrollInputs(id.rewardPh, id.theirRewardPh, myContribution, theirContribution, [], id.unrollTimeout);
    var coin := UpdatedUnroll(id, weStartWithPotato, 0, inputs);
    Ok(Channel(
      id, myContribution, theirContribution, 0, 0, weStartWithPotato, [], 0,
      if weStartWithPotato then 0 else 1, if weStartWithPotato then 1 else 0,
      UnrollRecord(coin, NO_SIGNATURES), None,
      map[UnrollPuzzleHash(id, coin) := HistoricalOf(coin)], [], [], []))
  }

  function InitialSignatures(ch: Channel): StateUpdateSignatures {
    StateUpdateSignatures(
      OurChannelHalf(ch.id, ChannelSpendConditions(ch.id, ch.latestSent.coin)),
      ch.latestSent.coin.outcome.signature)
  }

  function StoreInitialPeerSignatures(ch: Channel, signatures: StateUpdateSignatures): Result<Channel, ChannelError> {
    var _ :- Require(VerifyUnroll(ch.id, ch.latestSent.coin, signatures.unrollHalf), BadUnrollSignature);
    var conditions := ChannelSpendConditions(ch.id, ch.latestSent.coin);
    var _ :- Require(VerifyChannel(ch.id, conditions, signatures.channelHalf), BadChannelSignature);
    Ok(ch.(latestReceived := Some(UnrollRecord(ch.latestSent.coin, signatures))))
  }

  // --- Sending and receiving a state -----------------------------------------

  function UpdateCachedUnrollState(ch: Channel): (Channel, StateUpdateSignatures) {
    var number := ch.stateNumber + 1;
    var coin := UpdatedUnroll(ch.id, ch.latestSent.coin.startedWithPotato, number, CurrentInputs(ch));
    var next := ch.(
      stateNumber := number,
      latestSent := UnrollRecord(coin, NO_SIGNATURES),
      unrollMap := ch.unrollMap[UnrollPuzzleHash(ch.id, coin) := HistoricalOf(coin)],
      havePotato := false);
    (next, StateUpdateSignatures(OurChannelHalf(ch.id, ChannelSpendConditions(ch.id, coin)), coin.outcome.signature))
  }

  /** The record the receiver stores once both halves verify. */
  function ReceivedPotato(ch: Channel, signatures: StateUpdateSignatures): Result<Channel, ChannelError> {
    var number := ch.stateNumber + 1;
    var coin := UpdatedUnroll(ch.id, ch.latestSent.coin.startedWithPotato, number, CurrentInputs(ch));
    var _ :- Require(VerifyUnroll(ch.id, coin, signatures.unrollHalf), BadUnrollSignature);
    var _ :- Require(VerifyChannel(ch.id, ChannelSpendConditions(ch.id, coin), signatures.channelHalf), BadChannelSignature);
    Ok(ch.(
      pending := [],
      stateNumber := number,
      latestReceived := Some(UnrollRecord(coin, signatures)),
      unrollMap := ch.unrollMap[UnrollPuzzleHash(ch.id, coin) := HistoricalOf(coin)],
      havePotato := true))
  }

  function OnlySettlements(cached: seq<CachedRedo>): seq<CachedRedo> {
    if cached == [] then []
    else (if cached[0].CachedAcceptSettlement? then [cached[0]] else []) + OnlySettlements(cached[1..])
  }

  function WithoutSettlements(cached: seq<CachedRedo>): seq<CachedRedo> {
    if cached == [] then []
    else (if cached[0].CachedAcceptSettlement? then [] else [cached[0]]) + WithoutSettlements(cached[1..])
  }

  /** Settlements reported to the user once the potato has come back: the game,
      our share, and whether the game was over. */
  function SettlementReports(cached: seq<CachedRedo>): seq<(nat, nat, bool)> {
    if cached == [] then []
    else
      (if cached[0].CachedAcceptSettlement? then [(cached[0].gameId, cached[0].ourShare, cached[0].finished)] else [])
      + SettlementReports(cached[1..])
  }

  function VerifyReceivedBatch(ch: Channel, signatures: StateUpdateSignatures): Result<Channel, ChannelError> {
    var next :- ReceivedPotato(ch, signatures);
    Ok(next.(cached := OnlySettlements(ch.cached)))
  }

  function DrainSettlements(ch: Channel): Channel {
    ch.(cached := WithoutSettlements(ch.cached))
  }

  // --- Proposals --------------------------------------------------------------

  function ProposalOf(ch: Channel, start: GameStartInfo, groupId: nat): ProposedGame {
    var referee := NewReferee(ch.id.GameContext(start), start, ch.stateNumber);
    ProposedGame(
      start.gameId, groupId, referee.OutcomePuzzleHash(), referee, start.myContribution, start.theirContribution)
  }

  function SendProposeGame(ch: Channel, start: GameStartInfo, groupId: nat): Channel {
    ch.(proposed := ch.proposed + [ProposalOf(ch, start, groupId)])
  }

  function ApplyReceivedProposal(ch: Channel, start: GameStartInfo, groupId: nat): Result<Channel, ChannelError> {
    var nonce := start.gameId;
    var _ :- Require(nonce % 2 == ch.theirNextNonce % 2, WrongParity);
    var _ :- Require(nonce >= ch.theirNextNonce, NonceTooLow);
    var _ :- Require(nonce <= ch.theirNextNonce + MAX_NONCE_GAP, NonceTooFar);
    var sum := start.myContribution + start.theirContribution;
    var _ :- Require(sum < U64_LIMIT && start.amount == sum, BadAmount);
    var _ :- Require(start.timeout > 0, BadTimeout);
    var _ :- Require(|ch.proposed| < MAX_PROPOSALS, TooManyProposals);
    Ok(ch.(theirNextNonce := nonce + 2, proposed := ch.proposed + [ProposalOf(ch, start, groupId)]))
  }

  function AcceptProposalInner(ch: Channel, id: nat): Result<Channel, ChannelError> {
    var at := ProposalPosition(ch.proposed, id);
    if at.None? then Err(NoSuchProposal)
    else
      var p := ch.proposed[at.value];
      if p.myContribution > ch.myOut || p.theirContribution > ch.theirOut then Err(InsufficientBalance)
      else
        Ok(ch.(
          proposed := RemoveAt(ch.proposed, at.value),
          myAllocated := ch.myAllocated + p.myContribution,
          theirAllocated := ch.theirAllocated + p.theirContribution,
          myOut := ch.myOut - p.myContribution,
          theirOut := ch.theirOut - p.theirContribution,
          live := ch.live + [LiveGame(p.gameId, p.initialPh, p.referee, p.myContribution, p.theirContribution)]))
  }

  function SendAcceptProposal(ch: Channel, id: nat): Result<Channel, ChannelError> {
    var next :- AcceptProposalInner(ch, id);
    Ok(next.(cached := next.cached + [CachedProposalAccepted(id)]))
  }

  function ApplyReceivedAcceptProposal(ch: Channel, id: nat): Result<Channel, ChannelError> {
    if ch.IsOurNonce(id) then AcceptProposalInner(ch, id) else Err(OwnProposal)
  }

  /** Cancelling is the same whether it is sent or received. */
  function CancelProposal(ch: Channel, id: nat): Result<Channel, ChannelError> {
    match ProposalPosition(ch.proposed, id)
    case None => Err(NoSuchProposal)
    case Some(i) => Ok(ch.(proposed := RemoveAt(ch.proposed, i)))
  }

  // --- Moves ------------------------------------------------------------------

  function SendMove(clvm: Clvm, ch: Channel, id: nat, readable: Program, entropy: Bytes)
    : Result<(Channel, GameMoveDetails), ChannelError>
  {
    var at := LivePosition(ch.live, id);
    if at.None? then Err(NoSuchGame)
    else
      var game := ch.live[at.value];
      var (referee, wire) :- Lift(MyTurnMakeMove(clvm, game.referee, readable, entropy, ch.stateNumber));
      var moved := game.(referee := referee, lastPh := referee.OutcomePuzzleHash());
      var redo := CachedSendMove(
        id, wire.puzzleHashForUnroll, wire.puzzleHashForUnroll, wire.details.basic.moverShare, ch.stateNumber,
        referee, moved.lastPh);
      Ok((ch.(live := ch.live[at.value := moved], cached := ch.cached + [redo]), wire.details))
  }

  function ApplyReceivedMove(clvm: Clvm, ch: Channel, id: nat, details: GameMoveDetails)
    : Result<(Channel, TheirTurnMoveResult), ChannelError>
  {
    var at := LivePosition(ch.live, id);
    if at.None? then Err(NoSuchGame)
    else
      var game := ch.live[at.value];
      var _ :- Require(details.basic.moverShare <= game.Amount(), BadAmount);
      var _ :- Require(|details.basic.moveMade| <= game.referee.MaxMoveSize(), MoveTooLarge);
      var (next, out) :- Lift(TheirTurnMoveOffChain(clvm, game.referee, details, ch.stateNumber));
      if out.slash.Some? || next.None? then Err(SlashOffChain)
      else
        var moved := game.(referee := next.value, lastPh := next.value.OutcomePuzzleHash());
        Ok((ch.(live := ch.live[at.value := moved]), out))
  }

  // --- Settlements ------------------------------------------------------------

  function SendAcceptSettlement(ch: Channel, id: nat): Result<(Channel, nat), ChannelError> {
    var _ :- Require(ch.havePotato, NoPotato);
    var at := LivePosition(ch.live, id);
    if at.None? then Err(NoSuchGame)
    else
      var game := ch.live[at.value];
      var _ :- Require(game.IsMyTurn(), WrongTurn);
      var myAllocated :- CheckedSub(ch.myAllocated, game.myContribution);
      var theirAllocated :- CheckedSub(ch.theirAllocated, game.theirContribution);
      var share :- Lift(game.referee.OurCurrentShare());
      var rest :- CheckedSub(game.Amount(), share);
      var redo := CachedAcceptSettlement(id, game.lastPh, game, game.Amount(), share, game.referee.IsGameOver());
      Ok((
        ch.(
          live := RemoveAt(ch.live, at.value),
          myAllocated := myAllocated,
          theirAllocated := theirAllocated,
          pending := ch.pending + [game],
          myOut := ch.myOut + share,
          theirOut := ch.theirOut + rest,
          cached := ch.cached + [redo]),
        share))
  }

  /** What a settlement that fails leaves: nothing has happened up to the turn
      check; after it the game is taken out of the live ones, and its stakes out
      of the allocated balances, before the share is paid. */
  function AfterFailedSettlement(ch: Channel, id: nat): Channel {
    var at := LivePosition(ch.live, id);
    if !ch.havePotato || at.None? || !ch.live[at.value].IsMyTurn() then ch
    else
      var game := ch.live[at.value];
      var taken := ch.(live := RemoveAt(ch.live, at.value));
      if game.myContribution > ch.myAllocated then taken
      else if game.theirContribution > ch.theirAllocated then
        taken.(myAllocated := ch.myAllocated - game.myContribution)
      else
        var released := taken.(
          myAllocated := ch.myAllocated - game.myContribution, theirAllocated := ch.theirAllocated - game.theirContribution);
        match game.referee.OurCurrentShare()
        case Err(_) => released
        case Ok(share) => released.(pending := ch.pending + [game], myOut := ch.myOut + share)
  }

  function ApplyReceivedAcceptSettlement(ch: Channel, id: nat): Result<(Channel, nat), ChannelError> {
    var at := LivePosition(ch.live, id);
    if at.None? then Err(NoSuchGame)
    else
      var game := ch.live[at.value];
      var _ :- Require(!game.IsMyTurn(), WrongTurn);
      var share :- Lift(game.referee.OurCurrentShare());
      var rest :- CheckedSub(game.Amount(), share);
      var myAllocated :- CheckedSub(ch.myAllocated, game.myContribution);
      var theirAllocated :- CheckedSub(ch.theirAllocated, game.theirContribution);
      Ok((
        ch.(
          live := RemoveAt(ch.live, at.value),
          myAllocated := myAllocated,
          theirAllocated := theirAllocated,
          pending := ch.pending + [game],
          myOut := ch.myOut + share,
          theirOut := ch.theirOut + rest),
        share))
  }

  function AfterFailedReceivedSettlement(ch: Channel, id: nat): Channel {
    var at := LivePosition(ch.live, id);
    if at.None? || ch.live[at.value].IsMyTurn() then ch
    else
      var game := ch.live[at.value];
      var share := game.referee.OurCurrentShare();
      if share.Err? || share.value > game.Amount() || game.myContribution > ch.myAllocated then ch
      else ch.(myAllocated := ch.myAllocated - game.myContribution)
  }

  // --- Unrolls seen on chain --------------------------------------------------

  /** Newest full record with the other parity and the peer's signature. */
  function PreemptionSource(ch: Channel, oldNumber: nat): Option<UnrollRecord> {
    if Eligible(ch.latestSent, oldNumber) then Some(ch.latestSent)
    else if ch.latestReceived.Some? && Eligible(ch.latestReceived.value, oldNumber) then ch.latestReceived
    else None
  }

  predicate Eligible(record: UnrollRecord, oldNumber: nat) {
    record.coin.stateNumber % 2 != oldNumber % 2 && record.signatures.unrollHalf != DefaultSignature
  }

  /** First created coin that is one of our unrolls. */
  function ResolveUnroll(ch: Channel, conditions: seq<Condition>): Result<(nat, ConditionsHash), ChannelError> {
    if conditions == [] then Err(UnknownUnroll)
    else if conditions[0].CreateCoin? && conditions[0].ph in ch.unrollMap then
      var info := ch.unrollMap[conditions[0].ph];
      Ok((info.stateNumber, info.conditionsHash))
    else ResolveUnroll(ch, conditions[1..])
  }

  datatype UnrollSpend = UnrollSpend(
    puzzle: PuzzleHash,
    solution: seq<Condition>,
    signatures: multiset<Signature>,
    timeout: bool,
    stateNumber: nat)

  ghost predicate HasHistorical(ch: Channel, number: nat) {
    exists ph :: ph in ch.unrollMap && ch.unrollMap[ph].stateNumber == number
  }

  /** Any stored entry with this number; ChannelHistory shows there is only one. */
  ghost function HistoricalFor(ch: Channel, number: nat): HistoricalUnroll
    requires HasHistorical(ch, number)
  {
    var ph :| ph in ch.unrollMap && ch.unrollMap[ph].stateNumber == number;
    ch.unrollMap[ph]
  }

  ghost function TimeoutUnrollSpend(ch: Channel, number: nat, hash: ConditionsHash): Result<UnrollSpend, ChannelError> {
    if !HasHistorical(ch, number) then Err(UnknownUnroll)
    else
      var info := HistoricalFor(ch, number);
      if info.conditionsHash != hash then Err(ConditionsMismatch)
      else
        Ok(UnrollSpend(
          UnrollPh(ch.id.UnrollKey(), number, hash), info.timeoutConditions, multiset{}, true, number))
  }

  function PreemptionUnrollSpend(ch: Channel, number: nat, hash: ConditionsHash): Result<UnrollSpend, ChannelError> {
    match PreemptionSource(ch, number)
    case None => Err(NoPreemption)
    case Some(source) =>
      Ok(UnrollSpend(
        UnrollPh(ch.id.UnrollKey(), number, hash), source.coin.outcome.baseConditions,
        multiset{source.coin.outcome.signature, source.signatures.unrollHalf}, false, number))
  }

  ghost function ChannelCoinSpent(ch: Channel, byMyself: bool, conditions: seq<Condition>): Result<UnrollSpend, ChannelError> {
    var (number, hash) :- ResolveUnroll(ch, conditions);
    if byMyself || number == ch.stateNumber then TimeoutUnrollSpend(ch, number, hash)
    else if number > ch.stateNumber then Err(UnrollFromTheFuture)
    else if PreemptionSource(ch, number).Some? then PreemptionUnrollSpend(ch, number, hash)
    else TimeoutUnrollSpend(ch, number, hash)
  }

  datatype UnrollOutlook = Preempted(spend: UnrollSpend) | WaitForTimeout | Unrecoverable

  ghost function ClassifyUnroll(ch: Channel, conditions: seq<Condition>, onChainNumber: nat): UnrollOutlook {
    match ChannelCoinSpent(ch, false, conditions)
    case Ok(spend) => if spend.timeout then WaitForTimeout else Preempted(spend)
    case Err(_) => if HasHistorical(ch, onChainNumber) then WaitForTimeout else Unrecoverable
  }

  // --- Matching unroll coins to games ------------------------------------------

  datatype OnChainGameState = OnChainGameState(
    gameId: nat,
    puzzleHash: PuzzleHash,
    ourTurn: bool,
    stateNumber: nat,
    timeoutClaimArmed: bool,
    gameTimeout: nat,
    gameFinished: bool)

  /** First unmatched live game whose latest hash and amount are those of the coin. */
  function FindLatest(live: seq<LiveGame>, matched: set<nat>, ph: PuzzleHash, amount: nat): (r: Option<LiveGame>)
    ensures r.Some? ==>
              r.value in live && r.value.gameId !in matched && r.value.lastPh == ph && r.value.Amount() == amount
    ensures r.None? ==> forall g <- live :: g.gameId in matched || g.lastPh != ph || g.Amount() != amount
  {
    if live == [] then None
    else if live[0].gameId !in matched && live[0].lastPh == ph && live[0].Amount() == amount then Some(live[0])
    else FindLatest(live[1..], matched, ph, amount)
  }

  function FindLiveWithAmount(live: seq<LiveGame>, id: nat, amount: nat): (r: Option<LiveGame>)
    ensures r.Some? ==> r.value in live && r.value.gameId == id && r.value.Amount() == amount
    ensures r.None? ==> forall g <- live :: g.gameId != id || g.Amount() != amount
  {
    if live == [] then None
    else if live[0].gameId == id && live[0].Amount() == amount then Some(live[0])
    else FindLiveWithAmount(live[1..], id, amount)
  }

  predicate RedoMatches(entry: CachedRedo, matched: set<nat>, ph: PuzzleHash) {
    entry.CachedSendMove? && entry.matchPuzzleHash == ph && entry.gameId !in matched
  }

  /** Live game of the first cached move that was made from the coin. */
  function FindRedo(cached: seq<CachedRedo>, live: seq<LiveGame>, matched: set<nat>, ph: PuzzleHash, amount: nat)
    : (r: Option<LiveGame>)
    ensures r.Some? ==>
              && r.value in live && r.value.Amount() == amount && r.value.gameId !in matched
              && exists e <- cached :: RedoMatches(e, matched, ph) && e.gameId == r.value.gameId
    ensures r.None? ==>
              forall e <- cached, g <- live :: RedoMatches(e, matched, ph) && g.gameId == e.gameId ==> g.Amount() != amount
  {
    if cached == [] then None
    else
      var here :=
        if RedoMatches(cached[0], matched, ph) then FindLiveWithAmount(live, cached[0].gameId, amount) else None;
      if here.Some? then here else FindRedo(cached[1..], live, matched, ph, amount)
  }

  function FindPending(pending: seq<LiveGame>, ph: PuzzleHash, amount: nat): (r: Option<LiveGame>)
    ensures r.Some? ==> r.value in pending && r.value.lastPh == ph && r.value.Amount() == amount
    ensures r.None? ==> forall g <- pending :: g.lastPh != ph || g.Amount() != amount
  {
    if pending == [] then None
    else if pending[0].lastPh == ph && pending[0].Amount() == amount then Some(pending[0])
    else FindPending(pending[1..], ph, amount)
  }

  datatype CoinMatch = CoinMatch(state: OnChainGameState, live: bool)

  /** How one coin is matched, given the games matched so far. */
  function MatchCoin(ch: Channel, matched: set<nat>, ph: PuzzleHash, amount: nat): Option<CoinMatch> {
    var latest := FindLatest(ch.live, matched, ph, amount);
    if latest.Some? then
      var g := latest.value;
      Some(CoinMatch(
        OnChainGameState(
          g.gameId, ph, g.IsMyTurn(), ch.stateNumber, false, g.referee.fixed.timeout, g.referee.IsGameOver()),
        true))
    else
      var redo := FindRedo(ch.cached, ch.live, matched, ph, amount);
      if redo.Some? then
        var g := redo.value;
        Some(CoinMatch(
          OnChainGameState(
            g.gameId, ph, true, ch.stateNumber, false, g.referee.fixed.timeout, g.referee.IsGameOver()),
          true))
      else
        var pending := FindPending(ch.pending, ph, amount);
        if pending.Some? then
          var g := pending.value;
          Some(CoinMatch(
            OnChainGameState(g.gameId, ph, true, ch.stateNumber, true, g.referee.fixed.timeout, false), false))
        else None
  }

  function MatchCoinsFrom(
    ch: Channel, unrollCoin: CoinID, coins: seq<(PuzzleHash, nat)>, matched: set<nat>,
    found: map<CoinString, OnChainGameState>) : map<CoinString, OnChainGameState>
  {
    if coins == [] then found
    else
      var (ph, amount) := coins[0];
      match MatchCoin(ch, matched, ph, amount)
      case None => MatchCoinsFrom(ch, unrollCoin, coins[1..], matched, found)
      case Some(m) =>
        MatchCoinsFrom(
          ch, unrollCoin, coins[1..],
          if m.live then matched + {m.state.gameId} else matched,
          found[CoinString(unrollCoin, ph, amount) := m.state])
  }

  function SetStateForCoins(ch: Channel, unrollCoin: CoinID, coins: seq<(PuzzleHash, nat)>): map<CoinString, OnChainGameState> {
    MatchCoinsFrom(ch, unrollCoin, coins, {}, map[])
  }
}

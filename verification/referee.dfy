/** The referee turn machine (src/referee): each side of a game keeps its own
    my-turn or their-turn state and curries puzzle arguments from it. */
module Referees {
  import opened Wrappers
  import opened Chain

  // ---------------------------------------------------------------------------
  // Moves, puzzle arguments and the fixed context
  // ---------------------------------------------------------------------------

  datatype GameMoveStateInfo = GameMoveStateInfo(
    moveMade: Bytes,
    moverShare: nat,
    maxMoveSize: nat,
    maxMoveSizeRaw: Bytes)

  datatype GameMoveDetails = GameMoveDetails(
    basic: GameMoveStateInfo,
    validationInfo: ValidationInfoHash,
    validationProgramHash: Option<Hash>)

  datatype StateUpdateProgram = StateUpdateProgram(program: Program, hash: Hash)

  function ValidationInfoOf(validator: StateUpdateProgram, state: Program): Hash {
    InfoHash(validator.hash, TreeHash(state))
  }

  datatype RefereePuzzleArgs = RefereePuzzleArgs(
    mover: PublicKey,
    waiter: PublicKey,
    timeout: nat,
    amount: nat,
    nonce: nat,
    gameMove: GameMoveDetails,
    validator: StateUpdateProgram,
    previousValidationInfo: ValidationInfoHash,
    modHash: Hash)
  {
    function Swap(): RefereePuzzleArgs {
      this.(mover := waiter, waiter := mover)
    }

    /** The list that is curried: validator and its hash are not part of it. */
    function Curried(): CurriedReferee {
      CurriedReferee(
        mover, waiter, timeout, amount, modHash, nonce,
        gameMove.basic.moveMade, gameMove.basic.maxMoveSizeRaw,
        gameMove.validationInfo, CanonicalAtom(gameMove.basic.moverShare), previousValidationInfo)
    }
  }

  datatype RefereeFixedContext = RefereeFixedContext(
    modHash: Hash,
    myKey: PublicKey,
    theirKey: PublicKey,
    rewardPh: PuzzleHash,
    theirRewardPh: PuzzleHash,
    myPayoutSignature: Signature,
    theirPayoutSignature: Signature,
    timeout: nat,
    amount: nat,
    nonce: nat)
  {
    function PuzzleHashOf(args: RefereePuzzleArgs): PuzzleHash {
      RefereePh(modHash, args.Curried())
    }
  }

  /** Big-endian bytes of n without leading zeros. */
  function BigEndian(n: nat): Bytes {
    if n == 0 then [] else BigEndian(n / 256) + [(n % 256) as byte]
  }

  /** Canonical signed CLVM atom of a non-negative integer. */
  function CanonicalAtom(n: nat): Bytes {
    var be := BigEndian(n);
    if be != [] && be[0] >= 128 then [0] + be else be
  }

  // ---------------------------------------------------------------------------
  // Game handlers, validators and factories: CLVM programs, kept abstract
  // ---------------------------------------------------------------------------

  datatype GameHandler = MyTurnHandler(program: Program) | TheirTurnHandler(program: Program)

  datatype Evidence = Evidence(program: Program)

  const NIL_PROGRAM: Program := Program([0x80])
  const NIL_EVIDENCE: Evidence := Evidence(NIL_PROGRAM)

  datatype MyTurnInputs = MyTurnInputs(
    readableMove: Program,
    amount: nat,
    lastMoverShare: nat,
    entropy: Bytes,
    state: Program)

  datatype MyTurnResult = MyTurnResult(
    moveBytes: Bytes,
    outgoing: StateUpdateProgram,
    incoming: StateUpdateProgram,
    maxMoveSize: nat,
    moverShare: nat,
    waitingHandler: Option<GameHandler>)

  datatype TheirTurnInputs = TheirTurnInputs(
    amount: nat,
    preState: Program,
    state: Program,
    lastMove: Bytes,
    lastMoverShare: nat,
    newMove: GameMoveDetails)

  datatype TheirTurnResult = TheirTurnResult(
    readableMove: Program,
    slashEvidence: seq<Evidence>,
    moverShare: nat,
    nextHandler: Option<GameHandler>,
    message: Bytes)

  datatype RefereeError =
    | NotMyTurn
    | NotTheirTurn
    | GameOver
    | MoveTooLong
    | ValidationRejected
    | MoveRejected(tag: Bytes)
    | ProgramFailed
    | ShareExceedsAmount

  /** A validator's verdict: a new state, or nil, which makes the move slashable. */
  datatype Verdict = Accepted(state: Program) | Slashable

  /** One record returned by a proposal factory, oriented to the proposer. */
  datatype FactoryGame = FactoryGame(
    senderContribution: nat,
    receiverContribution: nat,
    amount: nat,
    senderGoesFirst: bool,
    validatorHash: Hash,
    initialMove: Bytes,
    initialMaxMoveSize: nat,
    initialState: Program,
    initialMoverShare: nat,
    myTurnHandler: Program,
    theirTurnHandler: Program,
    validator: Program)

  /** What running CLVM programs returns; any such functions will do. */
  datatype Clvm = Clvm(
    myTurn: (GameHandler, MyTurnInputs) -> Result<MyTurnResult, RefereeError>,
    theirTurn: (GameHandler, TheirTurnInputs) -> Result<TheirTurnResult, RefereeError>,
    validate: (StateUpdateProgram, CurriedReferee, Program, Evidence) -> Result<Verdict, RefereeError>,
    factory: (Program, Program) -> Result<seq<FactoryGame>, RefereeError>,
    message: (Referee, Bytes) -> Result<Program, RefereeError>)

  datatype GameStartInfo = GameStartInfo(
    gameId: nat,
    amount: nat,
    handler: GameHandler,
    timeout: nat,
    myContribution: nat,
    theirContribution: nat,
    validator: StateUpdateProgram,
    initialState: Program,
    initialMove: Bytes,
    initialMaxMoveSize: nat,
    initialMoverShare: nat)

  // ---------------------------------------------------------------------------
  // Referee states
  // ---------------------------------------------------------------------------

  /** Kept so that our last move can be replayed on chain. */
  datatype MoveSpend = MoveSpend(
    state: Program,
    validator: StateUpdateProgram,
    newMove: GameMoveDetails,
    beforeArgs: RefereePuzzleArgs,
    afterArgs: RefereePuzzleArgs)

  datatype Referee =
    | MyTurn(
        fixed: RefereeFixedContext,
        handler: Option<GameHandler>,
        state: Program,
        createThisCoin: RefereePuzzleArgs,
        spendThisCoin: RefereePuzzleArgs,
        moveSpend: Option<MoveSpend>,
        stateNumber: nat)
    | TheirTurn(
        fixed: RefereeFixedContext,
        handler: Option<GameHandler>,
        state: Program,
        createThisCoin: RefereePuzzleArgs,
        spendThisCoin: RefereePuzzleArgs,
        moveSpend: Option<MoveSpend>,
        stateNumber: nat,
        theirValidator: StateUpdateProgram,
        slashValidator: StateUpdateProgram,
        slashState: Program)
  {
    predicate IsGameOver() { handler.None? }

    function MaxMoveSize(): nat { spendThisCoin.gameMove.basic.maxMoveSize }

    /** Puzzle hash of the coin the last agreed state creates. */
    function OutcomePuzzleHash(): PuzzleHash { fixed.PuzzleHashOf(spendThisCoin) }

    /** Puzzle hash of the coin the last move spends. */
    function OnChainPuzzleHash(): PuzzleHash { fixed.PuzzleHashOf(createThisCoin) }

    function OurCurrentShare(): Result<nat, RefereeError> {
      var moverShare := spendThisCoin.gameMove.basic.moverShare;
      if MyTurn? then Ok(moverShare)
      else if moverShare <= fixed.amount then Ok(fixed.amount - moverShare)
      else Err(ShareExceedsAmount)
    }
  }

  // ---------------------------------------------------------------------------
  // Initial setup
  // ---------------------------------------------------------------------------

  function InitialArgs(fixed: RefereeFixedContext, start: GameStartInfo): RefereePuzzleArgs {
    var myTurn := start.handler.MyTurnHandler?;
    RefereePuzzleArgs(
      if myTurn then fixed.myKey else fixed.theirKey,
      if myTurn then fixed.theirKey else fixed.myKey,
      fixed.timeout, fixed.amount, fixed.nonce,
      GameMoveDetails(
        GameMoveStateInfo(
          start.initialMove, start.initialMoverShare,
          start.initialMaxMoveSize, CanonicalAtom(start.initialMaxMoveSize)),
        KnownInfo(ValidationInfoOf(start.validator, start.initialState)),
        Some(start.validator.hash)),
      start.validator, InitialInfo, fixed.modHash)
  }

  function NewReferee(fixed: RefereeFixedContext, start: GameStartInfo, stateNumber: nat): Referee {
    var args := InitialArgs(fixed, start);
    if start.handler.MyTurnHandler? then
      MyTurn(fixed, Some(start.handler), start.initialState, args, args, None, stateNumber)
    else
      TheirTurn(
        fixed, Some(start.handler), start.initialState, args, args, None, stateNumber,
        start.validator, start.validator, start.initialState)
  }

  // ---------------------------------------------------------------------------
  // Making a move
  // ---------------------------------------------------------------------------

  datatype GameMoveWireData = GameMoveWireData(puzzleHashForUnroll: PuzzleHash, details: GameMoveDetails)

  function MoveDetails(result: MyTurnResult, state: Program): GameMoveDetails {
    GameMoveDetails(
      GameMoveStateInfo(
        result.moveBytes, result.moverShare, result.maxMoveSize, CanonicalAtom(result.maxMoveSize)),
      if result.waitingHandler.Some? then KnownInfo(ValidationInfoOf(result.outgoing, state)) else NoInfo,
      if result.waitingHandler.Some? then Some(result.outgoing.hash) else None)
  }

  function ArgsAfterMyMove(r: Referee, details: GameMoveDetails, validator: StateUpdateProgram): RefereePuzzleArgs {
    r.spendThisCoin.(
      mover := r.fixed.theirKey,
      waiter := r.fixed.myKey,
      gameMove := details,
      validator := validator,
      previousValidationInfo := r.spendThisCoin.gameMove.validationInfo)
  }

  /** State after our move; a terminal move keeps the state but must not be
      immediately slashable. */
  function StateAfterMyMove(clvm: Clvm, r: Referee, result: MyTurnResult, args: RefereePuzzleArgs)
    : Result<Program, RefereeError>
  {
    var verdict := clvm.validate(result.outgoing, args.Swap().Curried(), r.state, NIL_EVIDENCE);
    if result.waitingHandler.Some? then
      var v :- verdict;
      if v.Accepted? then Ok(v.state) else Err(ValidationRejected)
    else if verdict == Ok(Slashable) then Err(ValidationRejected)
    else Ok(r.state)
  }

  function MyTurnMakeMove(clvm: Clvm, r: Referee, readable: Program, entropy: Bytes, stateNumber: nat)
    : Result<(Referee, GameMoveWireData), RefereeError>
  {
    var _ :- Require(r.MyTurn?, NotMyTurn);
    var _ :- Require(r.handler.Some?, GameOver);
    var args := r.spendThisCoin;
    var result :- clvm.myTurn(
      r.handler.value,
      MyTurnInputs(readable, r.fixed.amount, args.gameMove.basic.moverShare, entropy, r.state));
    var _ :- Require(|result.moveBytes| <= args.gameMove.basic.maxMoveSize, MoveTooLong);
    var details := MoveDetails(result, r.state);
    var newArgs := ArgsAfterMyMove(r, details, result.outgoing);
    var newState :- StateAfterMyMove(clvm, r, result, newArgs);
    var moveSpend := MoveSpend(r.state, result.outgoing, details, args, newArgs);
    var next := TheirTurn(
      r.fixed, result.waitingHandler, newState, args, newArgs, Some(moveSpend), stateNumber,
      result.incoming, result.outgoing, r.state);
    Ok((next, GameMoveWireData(r.fixed.PuzzleHashOf(args), details)))
  }

  // ---------------------------------------------------------------------------
  // Receiving a move
  // ---------------------------------------------------------------------------

  datatype TheirTurnMoveResult = TheirTurnMoveResult(
    puzzleHashForUnroll: Option<PuzzleHash>,
    readableMove: Program,
    moverShare: nat,
    message: Bytes,
    slash: Option<Evidence>)

  function ArgsAfterTheirMove(r: Referee, details: GameMoveDetails, validator: StateUpdateProgram): RefereePuzzleArgs {
    r.spendThisCoin.(
      mover := r.fixed.myKey,
      waiter := r.fixed.theirKey,
      gameMove := details,
      validator := validator,
      previousValidationInfo := r.spendThisCoin.gameMove.validationInfo)
  }

  /** First offered evidence that makes the validator call the move slashable. */
  function FirstSlash(clvm: Clvm, validator: StateUpdateProgram, curried: CurriedReferee, state: Program, offered: seq<Evidence>)
    : Option<Evidence>
  {
    if offered == [] then None
    else if clvm.validate(validator, curried, state, offered[0]) == Ok(Slashable) then Some(offered[0])
    else FirstSlash(clvm, validator, curried, state, offered[1..])
  }

  function SlashResult(readable: Program, moverShare: nat, message: Bytes, evidence: Evidence): TheirTurnMoveResult {
    TheirTurnMoveResult(None, readable, moverShare, message, Some(evidence))
  }

  function TheirTurnMoveOffChain(clvm: Clvm, r: Referee, details: GameMoveDetails, stateNumber: nat)
    : Result<(Option<Referee>, TheirTurnMoveResult), RefereeError>
  {
    var _ :- Require(r.TheirTurn?, NotTheirTurn);
    var _ :- Require(r.handler.Some?, GameOver);
    var newArgs := ArgsAfterTheirMove(r, details, r.theirValidator);
    var curried := newArgs.Swap().Curried();
    var verdict := clvm.validate(r.theirValidator, curried, r.state, NIL_EVIDENCE);
    if verdict == Ok(Slashable) then
      Ok((None, SlashResult(NIL_PROGRAM, details.basic.moverShare, [], NIL_EVIDENCE)))
    else if details.validationInfo != NoInfo && verdict.Err? then
      Err(verdict.error)
    else
      var newState := if details.validationInfo == NoInfo then NIL_PROGRAM else verdict.value.state;
      var result :- clvm.theirTurn(
        r.handler.value,
        TheirTurnInputs(
          r.fixed.amount, r.state, newState, details.basic.moveMade, details.basic.moverShare,
          details.(validationProgramHash := Some(r.theirValidator.hash))));
      match FirstSlash(clvm, r.theirValidator, curried, r.state, result.slashEvidence)
      case Some(evidence) =>
        Ok((None, SlashResult(result.readableMove, result.moverShare, result.message, evidence)))
      case None =>
        var next := MyTurn(
          r.fixed, result.nextHandler, newState, r.spendThisCoin, newArgs, r.moveSpend, stateNumber);
        Ok((Some(next), TheirTurnMoveResult(
          Some(r.fixed.PuzzleHashOf(r.spendThisCoin)),
          result.readableMove, result.moverShare, result.message, None)))
  }

  // ---------------------------------------------------------------------------
  // Timeout spend
  // ---------------------------------------------------------------------------

  /** The referee coin spend that claims a timeout: the curried puzzle, the two
      payout hashes of the solution, and the signatures summed into one. */
  datatype TimeoutSpend = TimeoutSpend(
    puzzle: PuzzleHash,
    moverPayout: Option<PuzzleHash>,
    waiterPayout: Option<PuzzleHash>,
    signatures: multiset<Signature>)

  function SignaturesFor(signature: Signature, share: nat): multiset<Signature> {
    if share > 0 then multiset{signature} else multiset{}
  }

  function TimeoutSpendFor(fixed: RefereeFixedContext, args: RefereePuzzleArgs): Result<Option<TimeoutSpend>, RefereeError> {
    var moverShare := args.gameMove.basic.moverShare;
    if moverShare > fixed.amount then Err(ShareExceedsAmount)
    else
      var waiterShare := fixed.amount - moverShare;
      var iAmMover := args.mover == fixed.myKey;
      var moverPh := if iAmMover then fixed.rewardPh else fixed.theirRewardPh;
      var waiterPh := if iAmMover then fixed.theirRewardPh else fixed.rewardPh;
      var myShare := if iAmMover then moverShare else waiterShare;
      var theirShare := if iAmMover then waiterShare else moverShare;
      if fixed.amount == 0 then Ok(None)
      else
        Ok(Some(TimeoutSpend(
          fixed.PuzzleHashOf(args),
          if moverShare > 0 then Some(moverPh) else None,
          if waiterShare > 0 then Some(waiterPh) else None,
          SignaturesFor(fixed.myPayoutSignature, myShare) + SignaturesFor(fixed.theirPayoutSignature, theirShare))))
  }

  /** Applies to the coin the game has now: the outcome of the last move when
      that is the coin given, otherwise the coin that move spends. */
  function TimeoutTransaction(r: Referee, coinPh: PuzzleHash): Result<Option<TimeoutSpend>, RefereeError> {
    TimeoutSpendFor(r.fixed, ArgsOfCoin(r, coinPh))
  }

  function ArgsOfCoin(r: Referee, coinPh: PuzzleHash): RefereePuzzleArgs {
    if coinPh == r.OutcomePuzzleHash() && coinPh != r.OnChainPuzzleHash() then r.spendThisCoin else r.createThisCoin
  }

  // ---------------------------------------------------------------------------
  // The two sides agree
  // ---------------------------------------------------------------------------

  /** The same game seen from both sides. */
  ghost predicate MirroredContext(a: RefereeFixedContext, b: RefereeFixedContext) {
    && a.modHash == b.modHash
    && a.myKey == b.theirKey && a.theirKey == b.myKey
    && a.rewardPh == b.theirRewardPh && a.theirRewardPh == b.rewardPh
    && a.myPayoutSignature == b.theirPayoutSignature && a.theirPayoutSignature == b.myPayoutSignature
    && a.timeout == b.timeout && a.amount == b.amount && a.nonce == b.nonce
  }

  /** Arguments that belong to this context, with the two keys as mover and waiter. */
  ghost predicate ArgsOf(fixed: RefereeFixedContext, args: RefereePuzzleArgs) {
    && args.timeout == fixed.timeout && args.amount == fixed.amount
    && args.nonce == fixed.nonce && args.modHash == fixed.modHash
    && ((args.mover == fixed.myKey && args.waiter == fixed.theirKey)
        || (args.mover == fixed.theirKey && args.waiter == fixed.myKey))
  }

  ghost predicate ValidReferee(r: Referee) {
    && ArgsOf(r.fixed, r.spendThisCoin) && ArgsOf(r.fixed, r.createThisCoin)
    && r.spendThisCoin.mover == (if r.MyTurn? then r.fixed.myKey else r.fixed.theirKey)
  }

  /** Opposite turns over equal curried argument lists, for the coin the last
      agreed state creates and for the coin before it. */
  ghost predicate Agree(a: Referee, b: Referee) {
    && MirroredContext(a.fixed, b.fixed)
    && ValidReferee(a) && ValidReferee(b)
    && a.MyTurn? == b.TheirTurn?
    && a.spendThisCoin.Curried() == b.spendThisCoin.Curried()
    && a.createThisCoin.Curried() == b.createThisCoin.Curried()
    && SameNumbers(a.spendThisCoin, b.spendThisCoin) && SameNumbers(a.createThisCoin, b.createThisCoin)
  }

  /** The numbers of a move: equal on both sides, and encoded canonically. */
  ghost predicate SameNumbers(a: RefereePuzzleArgs, b: RefereePuzzleArgs) {
    && a.gameMove.basic.moverShare == b.gameMove.basic.moverShare
    && a.gameMove.basic.maxMoveSize == b.gameMove.basic.maxMoveSize
    && a.gameMove.basic.maxMoveSizeRaw == b.gameMove.basic.maxMoveSizeRaw == CanonicalAtom(a.gameMove.basic.maxMoveSize)
  }

  lemma AgreeSymmetric(a: Referee, b: Referee)
    ensures Agree(a, b) <==> Agree(b, a)
  {
    hide CanonicalAtom;
  }

  /** Both starts come from the same proposal, one for each side of it. */
  ghost predicate MirroredStart(a: GameStartInfo, b: GameStartInfo) {
    && a.gameId == b.gameId && a.amount == b.amount && a.timeout == b.timeout
    && a.myContribution == b.theirContribution && a.theirContribution == b.myContribution
    && a.validator.hash == b.validator.hash
    && a.initialState == b.initialState && a.initialMove == b.initialMove
    && a.initialMaxMoveSize == b.initialMaxMoveSize && a.initialMoverShare == b.initialMoverShare
    && a.handler.MyTurnHandler? == b.handler.TheirTurnHandler?
  }

  lemma NewRefereesAgree(
    fa: RefereeFixedContext, fb: RefereeFixedContext, sa: GameStartInfo, sb: GameStartInfo, na: nat, nb: nat)
    requires MirroredContext(fa, fb) && MirroredStart(sa, sb)
    ensures Agree(NewReferee(fa, sa, na), NewReferee(fb, sb, nb))
  {
  }

  /** A move the mover produced and the waiter accepted keeps the two sides in
      agreement, and the wire data carries the hash of the coin it spends. */
  lemma MoveKeepsAgreement(
    clvm: Clvm, a: Referee, b: Referee, readable: Program, entropy: Bytes, na: nat, nb: nat)
    requires Agree(a, b)
    requires MyTurnMakeMove(clvm, a, readable, entropy, na).Ok?
    requires
      var wire := MyTurnMakeMove(clvm, a, readable, entropy, na).value.1;
      TheirTurnMoveOffChain(clvm, b, wire.details, nb).Ok?
    ensures
      var (a', wire) := MyTurnMakeMove(clvm, a, readable, entropy, na).value;
      var (b', out) := TheirTurnMoveOffChain(clvm, b, wire.details, nb).value;
      && a'.TheirTurn?
      && wire.puzzleHashForUnroll == a.OutcomePuzzleHash()
      && (out.slash.None? ==> b'.Some? && b'.value.MyTurn? && Agree(a', b'.value))
  {
  }

  // ---------------------------------------------------------------------------
  // Whole games
  // ---------------------------------------------------------------------------

  datatype Turn = Turn(readable: Program, entropy: Bytes, makerNumber: nat, takerNumber: nat)

  /** Both referees after playing the turns, or None as soon as a side refuses
      a move or calls it slashable. */
  function Play(clvm: Clvm, a: Referee, b: Referee, turns: seq<Turn>): Option<(Referee, Referee)>
    decreases |turns|
  {
    if turns == [] then Some((a, b))
    else
      var t := turns[0];
      var maker := if a.MyTurn? then a else b;
      var taker := if a.MyTurn? then b else a;
      match MyTurnMakeMove(clvm, maker, t.readable, t.entropy, t.makerNumber)
      case Err(_) => None
      case Ok((maker', wire)) =>
        match TheirTurnMoveOffChain(clvm, taker, wire.details, t.takerNumber)
        case Err(_) => None
        case Ok((next, out)) =>
          if next.None? then None
          else if a.MyTurn? then Play(clvm, maker', next.value, turns[1..])
          else Play(clvm, next.value, maker', turns[1..])
  }

  lemma {:induction false} PlayKeepsAgreement(clvm: Clvm, a: Referee, b: Referee, turns: seq<Turn>)
    requires Agree(a, b)
    ensures Play(clvm, a, b, turns).Some? ==>
              Agree(Play(clvm, a, b, turns).value.0, Play(clvm, a, b, turns).value.1)
    decreases |turns|
  {
    if turns != [] && Play(clvm, a, b, turns).Some? {
      var t := turns[0];
      var maker, taker := if a.MyTurn? then a else b, if a.MyTurn? then b else a;
      AgreeSymmetric(a, b);
      MoveKeepsAgreement(clvm, maker, taker, t.readable, t.entropy, t.makerNumber, t.takerNumber);
      var (maker', wire) := MyTurnMakeMove(clvm, maker, t.readable, t.entropy, t.makerNumber).value;
      var next := TheirTurnMoveOffChain(clvm, taker, wire.details, t.takerNumber).value.0;
      AgreeSymmetric(maker', next.value);
      if a.MyTurn? {
        PlayKeepsAgreement(clvm, maker', next.value, turns[1..]);
      } else {
        PlayKeepsAgreement(clvm, next.value, maker', turns[1..]);
      }
    }
  }

  lemma SumCommutes(a: Signature, shareA: nat, b: Signature, shareB: nat)
    ensures SignaturesFor(a, shareA) + SignaturesFor(b, shareB) == SignaturesFor(b, shareB) + SignaturesFor(a, shareA)
  {
  }

  lemma TimeoutSpendsAgree(
    fa: RefereeFixedContext, fb: RefereeFixedContext, argsA: RefereePuzzleArgs, argsB: RefereePuzzleArgs)
    requires MirroredContext(fa, fb) && fa.myKey != fa.theirKey
    requires ArgsOf(fa, argsA) && argsA.Curried() == argsB.Curried()
    requires argsA.gameMove.basic.moverShare == argsB.gameMove.basic.moverShare
    ensures TimeoutSpendFor(fa, argsA) == TimeoutSpendFor(fb, argsB)
  {
    var moverShare := argsA.gameMove.basic.moverShare;
    if moverShare <= fa.amount {
      var waiterShare := fa.amount - moverShare;
      SumCommutes(fa.myPayoutSignature, moverShare, fa.theirPayoutSignature, waiterShare);
      SumCommutes(fa.myPayoutSignature, waiterShare, fa.theirPayoutSignature, moverShare);
    }
    assert argsA.mover == fa.myKey <==> argsB.mover != fb.myKey;
  }

  /** What agreement gives: equal puzzle hashes, shares that add up to the game
      amount, and the same timeout spend whoever builds it. */
  lemma AgreementMeans(a: Referee, b: Referee, coinPh: PuzzleHash)
    requires Agree(a, b)
    requires a.fixed.myKey != a.fixed.theirKey
    ensures a.OutcomePuzzleHash() == b.OutcomePuzzleHash()
    ensures a.OnChainPuzzleHash() == b.OnChainPuzzleHash()
    ensures a.spendThisCoin.gameMove.basic.moverShare <= a.fixed.amount ==>
              && a.OurCurrentShare().Ok? && b.OurCurrentShare().Ok?
              && a.OurCurrentShare().value + b.OurCurrentShare().value == a.fixed.amount
    ensures TimeoutTransaction(a, coinPh) == TimeoutTransaction(b, coinPh)
  {
    TimeoutSpendsAgree(a.fixed, b.fixed, a.spendThisCoin, b.spendThisCoin);
    TimeoutSpendsAgree(a.fixed, b.fixed, a.createThisCoin, b.createThisCoin);
  }

  /** Every game of accepted moves, of any length, from any mirrored proposal. */
  lemma RefereesAgreeForWholeGame(
    clvm: Clvm, fa: RefereeFixedContext, fb: RefereeFixedContext, sa: GameStartInfo, sb: GameStartInfo,
    na: nat, nb: nat, turns: seq<Turn>, coinPh: PuzzleHash)
    requires MirroredContext(fa, fb) && MirroredStart(sa, sb) && fa.myKey != fa.theirKey
    requires Play(clvm, NewReferee(fa, sa, na), NewReferee(fb, sb, nb), turns).Some?
    ensures
      var (a, b) := Play(clvm, NewReferee(fa, sa, na), NewReferee(fb, sb, nb), turns).value;
      && a.spendThisCoin.Curried() == b.spendThisCoin.Curried()
      && a.OutcomePuzzleHash() == b.OutcomePuzzleHash()
      && TimeoutTransaction(a, coinPh) == TimeoutTransaction(b, coinPh)
      && (a.spendThisCoin.gameMove.basic.moverShare <= fa.amount ==>
            && a.OurCurrentShare().Ok? && b.OurCurrentShare().Ok?
            && a.OurCurrentShare().value + b.OurCurrentShare().value == fa.amount)
  {
    var a0, b0 := NewReferee(fa, sa, na), NewReferee(fb, sb, nb);
    NewRefereesAgree(fa, fb, sa, sb, na, nb);
    PlayKeepsAgreement(clvm, a0, b0, turns);
    PlayKeepsContext(clvm, a0, b0, turns);
    var (a, b) := Play(clvm, a0, b0, turns).value;
    AgreementMeans(a, b, coinPh);
  }

  lemma {:induction false} PlayKeepsContext(clvm: Clvm, a: Referee, b: Referee, turns: seq<Turn>)
    ensures
      var end := Play(clvm, a, b, turns);
      end.Some? ==> end.value.0.fixed == a.fixed && end.value.1.fixed == b.fixed
    decreases |turns|
  {
    if turns != [] && Play(clvm, a, b, turns).Some? {
      var t := turns[0];
      var maker, taker := if a.MyTurn? then a else b, if a.MyTurn? then b else a;
      var (maker', wire) := MyTurnMakeMove(clvm, maker, t.readable, t.entropy, t.makerNumber).value;
      var next := TheirTurnMoveOffChain(clvm, taker, wire.details, t.takerNumber).value.0;
      if a.MyTurn? {
        PlayKeepsContext(clvm, maker', next.value, turns[1..]);
      } else {
        PlayKeepsContext(clvm, next.value, maker', turns[1..]);
      }
    }
  }
}

/** One peer of the off-chain potato protocol (src/session_phases/mod.rs), on
    values.  OffChainPhases.OffChainPhase carries these steps out in place. */
module OffChainPeers {
  import opened Wrappers
  import opened Chain
  import opened Referees
  import opened Channels

  // ---------------------------------------------------------------------------
  // Actions and messages
  // ---------------------------------------------------------------------------

  datatype PotatoState = Absent | Requested | Present

  datatype GameProposal = GameProposal(gameType: nat, timeout: nat, parameters: Program)

  datatype WireGameSpec = WireGameSpec(
    gameId: nat,
    amount: nat,
    senderContribution: nat,
    receiverContribution: nat,
    senderGoesFirst: bool,
    validatorHash: Hash,
    initialMove: Bytes,
    initialMaxMoveSize: nat,
    initialState: Program,
    initialMoverShare: nat)

  datatype WireGroup = WireGroup(start: GameProposal, members: seq<WireGameSpec>, groupId: nat)

  /** What the local side has asked for and not yet sent. */
  datatype GameAction =
    | QueuedMove(gameId: nat, readable: Program, entropy: Bytes)
    | QueuedSettlement(gameId: nat)
    | QueuedShutdown
    | QueuedGroup(games: seq<GameStartInfo>, wire: WireGroup)
    | QueuedAccept(gameId: nat)
    | QueuedCancel(gameId: nat)
    | QueuedSilentCancel(gameId: nat)

  datatype BatchAction =
    | ProposeGroup(wire: WireGroup)
    | AcceptProposal(gameId: nat)
    | CancelledProposal(gameId: nat)
    | Move(gameId: nat, details: GameMoveDetails)
    | AcceptSettlement(gameId: nat, amount: nat)

  datatype Shutdown = Shutdown(signature: Signature, conditions: seq<Condition>)

  datatype PeerMessage =
    | Batch(actions: seq<BatchAction>, signatures: StateUpdateSignatures, shutdown: Option<Shutdown>)
    | RequestPotato
    | GameMessage(gameId: nat, bytes: Bytes)
    | CleanShutdownComplete

  type Factories = map<nat, Option<Program>>

  datatype Peer = Peer(
    initiator: bool,
    potato: PotatoState,
    queue: seq<GameAction>,
    peerWants: bool,
    ch: Channel,
    factories: Factories,
    pendingShutdown: bool,
    closed: bool)

  datatype PeerError =
    | ChannelFailed(error: ChannelError)
    | UnknownGameType
    | FactoryFailed
    | BadGroup
    | MissingProposal
    | OwnProposalAccepted
    | PartialGroup
    | GamesActive
    | ShutdownMismatch
    | PotatoNotHeld
    | DoublePotato
    | UnexpectedMessage

  function LiftChannel<T>(r: Result<T, ChannelError>): Result<T, PeerError> {
    match r
    case Ok(v) => Ok(v)
    case Err(e) => Err(ChannelFailed(e))
  }

  // ---------------------------------------------------------------------------
  // Proposal groups
  // ---------------------------------------------------------------------------

  function FactoryGames(clvm: Clvm, factories: Factories, start: GameProposal): Result<seq<FactoryGame>, PeerError> {
    var _ :- Require(start.gameType in factories, UnknownGameType);
    var program := factories[start.gameType];
    var _ :- Require(program.Some?, FactoryFailed);
    match clvm.factory(program.value, start.parameters)
    case Ok(games) => Ok(games)
    case Err(_) => Err(FactoryFailed)
  }

  function GameStart(game: FactoryGame, id: nat, timeout: nat, senderSide: bool): GameStartInfo {
    var myTurn := senderSide == game.senderGoesFirst;
    GameStartInfo(
      id, game.amount,
      if myTurn then MyTurnHandler(game.myTurnHandler) else TheirTurnHandler(game.theirTurnHandler),
      timeout,
      if senderSide then game.senderContribution else game.receiverContribution,
      if senderSide then game.receiverContribution else game.senderContribution,
      StateUpdateProgram(game.validator, game.validatorHash),
      game.initialState, game.initialMove, game.initialMaxMoveSize, game.initialMoverShare)
  }

  function WireSpec(game: FactoryGame, id: nat): WireGameSpec {
    WireGameSpec(
      id, game.amount, game.senderContribution, game.receiverContribution, game.senderGoesFirst,
      game.validatorHash, game.initialMove, game.initialMaxMoveSize, game.initialState, game.initialMoverShare)
  }

  /** Our group: consecutive nonces from `first`, in the order of the factory. */
  function OurStarts(games: seq<FactoryGame>, first: nat, timeout: nat): (r: seq<GameStartInfo>)
    ensures |r| == |games|
  {
    seq(|games|, i requires 0 <= i < |games| => GameStart(games[i], first + 2 * i, timeout, true))
  }

  function OurMembers(games: seq<FactoryGame>, first: nat): (r: seq<WireGameSpec>)
    ensures |r| == |games|
  {
    seq(|games|, i requires 0 <= i < |games| => WireSpec(games[i], first + 2 * i))
  }

  predicate DistinctMembers(members: seq<WireGameSpec>) {
    forall i, j :: 0 <= i < j < |members| ==> members[i].gameId != members[j].gameId
  }

  /** Structure of a received group: one member per factory game, distinct
      identifiers, and the first of them naming the group. */
  predicate WellFormedGroup(wire: WireGroup, expected: nat) {
    && |wire.members| == expected && expected > 0
    && DistinctMembers(wire.members)
    && wire.groupId == wire.members[0].gameId
  }

  /** The receiver's starts, once every member equals what its own factory says. */
  function Hydrate(clvm: Clvm, factories: Factories, wire: WireGroup): Result<seq<GameStartInfo>, PeerError> {
    var games :- FactoryGames(clvm, factories, wire.start);
    var _ :- Require(WellFormedGroup(wire, |games|), BadGroup);
    var _ :- Require(
               forall i :: 0 <= i < |games| ==> wire.members[i] == WireSpec(games[i], wire.members[i].gameId), BadGroup);
    Ok(seq(|games|, i requires 0 <= i < |games| =>
      GameStart(games[i], wire.members[i].gameId, wire.start.timeout, false)))
  }

  function SendGroup(ch: Channel, games: seq<GameStartInfo>, groupId: nat): Channel {
    if games == [] then ch
    else
      var last := |games| - 1;
      SendProposeGame(SendGroup(ch, games[..last], groupId), games[last], groupId)
  }

  function ApplyGroup(ch: Channel, games: seq<GameStartInfo>, groupId: nat): Result<Channel, ChannelError> {
    if games == [] then Ok(ch)
    else
      var last := |games| - 1;
      var next :- ApplyGroup(ch, games[..last], groupId);
      ApplyReceivedProposal(next, games[last], groupId)
  }

  function MembersOf(proposals: seq<ProposedGame>, groupId: nat): seq<nat> {
    if proposals == [] then []
    else (if proposals[0].groupId == groupId then [proposals[0].gameId] else []) + MembersOf(proposals[1..], groupId)
  }

  function GroupMembers(ch: Channel, id: nat): Option<seq<nat>> {
    match ProposalPosition(ch.proposed, id)
    case None => None
    case Some(i) => Some(MembersOf(ch.proposed, ch.proposed[i].groupId))
  }

  predicate GroupNamedWhole(ch: Channel, id: nat, ids: seq<nat>) {
    var members := GroupMembers(ch, id);
    && members.Some?
    && (|members.value| > 1 ==> forall k :: 0 <= k < |members.value| ==> members.value[k] in ids)
  }

  predicate WholeGroups(ch: Channel, ids: seq<nat>) {
    forall i :: 0 <= i < |ids| ==> GroupNamedWhole(ch, ids[i], ids)
  }

  // ---------------------------------------------------------------------------
  // Draining the queue into a batch
  // ---------------------------------------------------------------------------

  function GameIsMyTurn(ch: Channel, id: nat): Option<bool> {
    match LivePosition(ch.live, id)
    case Some(i) => Some(ch.live[i].IsMyTurn())
    case None =>
      match ProposalPosition(ch.proposed, id)
      case Some(i) => Some(ch.proposed[i].referee.MyTurn?)
      case None => None
  }

  /** Payout of a clean shutdown: our reward and theirs, when not zero. */
  function ShutdownConditions(ch: Channel): seq<Condition> {
    (if ch.myOut != 0 then [CreateCoin(ch.id.rewardPh, ch.myOut)] else [])
    + (if ch.theirOut != 0 then [CreateCoin(ch.id.theirRewardPh, ch.theirOut)] else [])
  }

  datatype Draining = Draining(ch: Channel, batch: seq<BatchAction>, deferred: seq<GameAction>, shutdown: Option<Shutdown>)

  function DrainMove(clvm: Clvm, st: Draining, action: GameAction): Result<Draining, PeerError>
    requires action.QueuedMove?
  {
    if GameIsMyTurn(st.ch, action.gameId) != Some(true) then Ok(st.(deferred := st.deferred + [action]))
    else
      match SendMove(clvm, st.ch, action.gameId, action.readable, action.entropy)
      case Ok((ch, details)) => Ok(st.(ch := ch, batch := st.batch + [Move(action.gameId, details)]))
      case Err(e) => if e.RefereeFailed? && e.error.MoveRejected? then Ok(st) else Err(ChannelFailed(e))
  }

  /** Accepting without the balance for it cancels instead. */
  function DrainAccept(st: Draining, id: nat): Result<Draining, PeerError> {
    var at := ProposalPosition(st.ch.proposed, id);
    var _ :- Require(at.Some?, MissingProposal);
    var _ :- Require(!st.ch.IsOurNonce(id), OwnProposalAccepted);
    var p := st.ch.proposed[at.value];
    if p.myContribution > st.ch.myOut || p.theirContribution > st.ch.theirOut then DrainCancel(st, id)
    else
      var ch :- LiftChannel(SendAcceptProposal(st.ch, id));
      Ok(st.(ch := ch, batch := st.batch + [AcceptProposal(id)]))
  }

  function DrainCancel(st: Draining, id: nat): Result<Draining, PeerError> {
    var ch :- LiftChannel(CancelProposal(st.ch, id));
    Ok(st.(ch := ch, batch := st.batch + [CancelledProposal(id)]))
  }

  function DrainShutdown(st: Draining): Result<Draining, PeerError> {
    var _ :- Require(st.ch.live == [], GamesActive);
    var conditions := ShutdownConditions(st.ch);
    Ok(st.(
      ch := st.ch.(proposed := []),
      shutdown := Some(Shutdown(OurChannelHalf(st.ch.id, conditions), conditions))))
  }

  function DrainAction(clvm: Clvm, st: Draining, action: GameAction): Result<Draining, PeerError> {
    match action
    case QueuedMove(_, _, _) => DrainMove(clvm, st, action)
    case QueuedSettlement(id) =>
      var (ch, amount) :- LiftChannel(SendAcceptSettlement(st.ch, id));
      Ok(st.(ch := ch, batch := st.batch + [AcceptSettlement(id, amount)]))
    case QueuedGroup(games, wire) =>
      Ok(st.(ch := SendGroup(st.ch, games, wire.groupId), batch := st.batch + [ProposeGroup(wire)]))
    case QueuedAccept(id) => DrainAccept(st, id)
    case QueuedCancel(id) => DrainCancel(st, id)
    case QueuedSilentCancel(id) => DrainCancel(st, id)
    case QueuedShutdown => DrainShutdown(st)
  }

  /** A drain that failed: the channel as the items before left it and the
      failing one changed it, the queue behind that one, and the batch that was
      being packed, which is lost together with the moves put back for later.
      `before` is the channel the failing item found. */
  datatype Failure = Failure(
    ch: Channel, queue: seq<GameAction>, item: GameAction, lost: seq<BatchAction>, before: Channel, error: PeerError)

  /** Only a settlement can fail part of the way. */
  function AfterFailure(ch: Channel, item: GameAction): Channel {
    if item.QueuedSettlement? then AfterFailedSettlement(ch, item.gameId) else ch
  }

  /** Items are taken from the front, one after the other. */
  function DrainAll(clvm: Clvm, ch: Channel, queue: seq<GameAction>): Result<Draining, Failure> {
    if queue == [] then Ok(Draining(ch, [], [], None))
    else
      var last := |queue| - 1;
      match DrainAll(clvm, ch, queue[..last])
      case Err(f) => Err(f.(queue := f.queue + [queue[last]]))
      case Ok(st) =>
        match DrainAction(clvm, st, queue[last])
        case Ok(next) => Ok(next)
        case Err(e) => Err(Failure(AfterFailure(st.ch, queue[last]), [], queue[last], st.batch, st.ch, e))
  }

  /** What a failed drain leaves of the peer. */
  datatype Stopped = Stopped(peer: Peer, item: Option<GameAction>, error: PeerError)
  {
    /** A failed move or settlement is reported as that action's failure. */
    predicate IsActionFailed() { item.Some? && CanFailAlone(item.value) }
  }

  predicate CanFailAlone(item: GameAction) { item.QueuedMove? || item.QueuedSettlement? }

  /** Drains the queue; sends the batch when there is anything in it. */
  function DrainQueueIntoBatch(clvm: Clvm, p: Peer): Result<(Peer, seq<PeerMessage>), Stopped> {
    if !p.potato.Present? then Err(Stopped(p, None, PotatoNotHeld))
    else
      match DrainAll(clvm, p.ch, p.queue)
      case Err(f) => Err(Stopped(AfterFailedDrain(p, f), Some(f.item), f.error))
      case Ok(st) =>
        var drained := p.(ch := st.ch, queue := st.deferred);
        if st.batch == [] && st.shutdown.None? then Ok((drained, []))
        else
          var (ch, signatures) := UpdateCachedUnrollState(st.ch);
          Ok((
            drained.(
              ch := ch,
              potato := Absent,
              pendingShutdown := p.pendingShutdown || st.shutdown.Some?),
            [Batch(st.batch, signatures, st.shutdown)]))
  }

  function AfterFailedDrain(p: Peer, f: Failure): Peer { p.(ch := f.ch, queue := f.queue) }

  function SendEmptyPotato(p: Peer): (Peer, seq<PeerMessage>) {
    var (ch, signatures) := UpdateCachedUnrollState(p.ch);
    (p.(ch := ch, potato := Absent), [Batch([], signatures, None)])
  }

  // ---------------------------------------------------------------------------
  // Receiving a batch
  // ---------------------------------------------------------------------------

  function ApplyAction(clvm: Clvm, factories: Factories, ch: Channel, action: BatchAction): Result<Channel, PeerError> {
    match action
    case ProposeGroup(wire) =>
      if wire.start.gameType !in factories then Ok(ch)
      else
        var games :- Hydrate(clvm, factories, wire);
        LiftChannel(ApplyGroup(ch, games, wire.groupId))
    case AcceptProposal(id) => LiftChannel(ApplyReceivedAcceptProposal(ch, id))
    case CancelledProposal(id) => LiftChannel(CancelProposal(ch, id))
    case Move(id, details) =>
      var (next, _) :- LiftChannel(ApplyReceivedMove(clvm, ch, id, details));
      Ok(next)
    case AcceptSettlement(id, _) =>
      var (next, _) :- LiftChannel(ApplyReceivedAcceptSettlement(ch, id));
      Ok(next)
  }

  function ApplyActions(clvm: Clvm, factories: Factories, ch: Channel, actions: seq<BatchAction>): Result<Channel, PeerError> {
    if actions == [] then Ok(ch)
    else
      var last := |actions| - 1;
      var next :- ApplyActions(clvm, factories, ch, actions[..last]);
      ApplyAction(clvm, factories, next, actions[last])
  }

  function WithoutGroups(queue: seq<GameAction>): seq<GameAction> {
    if queue == [] then []
    else (if queue[0].QueuedGroup? then [] else [queue[0]]) + WithoutGroups(queue[1..])
  }

  function WithoutShutdown(queue: seq<GameAction>): seq<GameAction> {
    if queue == [] then []
    else (if queue[0].QueuedShutdown? then [] else [queue[0]]) + WithoutShutdown(queue[1..])
  }

  predicate FinishedForUs(ch: Channel, id: nat) {
    var at := LivePosition(ch.live, id);
    at.Some? && ch.live[at.value].IsMyTurn() && ch.live[at.value].referee.IsGameOver()
  }

  /** An incoming group supersedes our queued ones; a finished game settles. */
  function QueueAfterAction(ch: Channel, queue: seq<GameAction>, action: BatchAction): seq<GameAction> {
    match action
    case ProposeGroup(_) => WithoutGroups(queue)
    case Move(id, _) => if FinishedForUs(ch, id) then queue + [QueuedSettlement(id)] else queue
    case _ => queue
  }

  /** `ch` is the channel before the actions. */
  function QueueAfterActions(clvm: Clvm, factories: Factories, ch: Channel, queue: seq<GameAction>, actions: seq<BatchAction>)
    : seq<GameAction>
  {
    if actions == [] then queue
    else
      var last := |actions| - 1;
      var before := QueueAfterActions(clvm, factories, ch, queue, actions[..last]);
      match ApplyActions(clvm, factories, ch, actions)
      case Ok(next) => QueueAfterAction(next, before, actions[last])
      case Err(_) => before
  }

  /** Messages a game's own handler sends back on a move. */
  function Replies(clvm: Clvm, factories: Factories, ch: Channel, actions: seq<BatchAction>): seq<PeerMessage> {
    if actions == [] then []
    else
      var last := |actions| - 1;
      var before := Replies(clvm, factories, ch, actions[..last]);
      match ApplyActions(clvm, factories, ch, actions[..last])
      case Ok(prior) => before + ReplyTo(clvm, prior, actions[last])
      case Err(_) => before
  }

  function ReplyTo(clvm: Clvm, ch: Channel, action: BatchAction): seq<PeerMessage> {
    if !action.Move? then []
    else
      match ApplyReceivedMove(clvm, ch, action.gameId, action.details)
      case Ok((_, out)) => if out.message != [] then [GameMessage(action.gameId, out.message)] else []
      case Err(_) => []
  }

  function AcceptedIds(actions: seq<BatchAction>): seq<nat> {
    if actions == [] then []
    else (if actions[0].AcceptProposal? then [actions[0].gameId] else []) + AcceptedIds(actions[1..])
  }

  function CancelledIds(actions: seq<BatchAction>): seq<nat> {
    if actions == [] then []
    else (if actions[0].CancelledProposal? then [actions[0].gameId] else []) + CancelledIds(actions[1..])
  }

  predicate HasNewGame(actions: seq<BatchAction>) {
    exists i :: 0 <= i < |actions| && (actions[i].ProposeGroup? || actions[i].AcceptProposal?)
  }

  predicate HasSettlement(actions: seq<BatchAction>) {
    exists i :: 0 <= i < |actions| && actions[i].AcceptSettlement?
  }

  function QueueAfterBatch(clvm: Clvm, p: Peer, actions: seq<BatchAction>): seq<GameAction> {
    var queue := QueueAfterActions(clvm, p.factories, p.ch, p.queue, actions);
    if HasNewGame(actions) then WithoutShutdown(queue) else queue
  }

  /** The channel after a batch's actions, all of them or an error. */
  function ApplyBatch(clvm: Clvm, p: Peer, actions: seq<BatchAction>): Result<Channel, PeerError> {
    var _ :- Require(WholeGroups(p.ch, AcceptedIds(actions)), PartialGroup);
    var _ :- Require(WholeGroups(p.ch, CancelledIds(actions)), PartialGroup);
    ApplyActions(clvm, p.factories, p.ch, actions)
  }

  /** A batch that ends the channel: the payout must be the one we expect. */
  function CloseCleanly(p: Peer, ch: Channel, shutdown: Shutdown): Result<(Peer, seq<PeerMessage>), PeerError> {
    var _ :- Require(ch.live == [], GamesActive);
    var _ :- Require(multiset(shutdown.conditions) == multiset(ShutdownConditions(ch)), ShutdownMismatch);
    var _ :- Require(
               VerifyChannel(ch.id, shutdown.conditions, shutdown.signature), ChannelFailed(BadChannelSignature));
    Ok((
      p.(ch := DrainSettlements(ch.(proposed := [])), queue := [], potato := Present, closed := true),
      if ch.myOut == 0 then [] else [CleanShutdownComplete]))
  }

  /** The potato arrives with a verified state. */
  function ReceivePotato(clvm: Clvm, p: Peer, actions: seq<BatchAction>, signatures: StateUpdateSignatures)
    : Result<Peer, PeerError>
  {
    var applied :- ApplyBatch(clvm, p, actions);
    var received :- LiftChannel(VerifyReceivedBatch(applied, signatures));
    var ch := DrainSettlements(received);
    var queue := QueueAfterBatch(clvm, p, actions);
    var finish := HasSettlement(actions) && ch.theirOut == 0 && ch.live == [];
    Ok(p.(ch := ch, potato := Present, queue := if finish then queue + [QueuedShutdown] else queue))
  }

  /** What happens with a potato just received: our own work first, then the
      peer's request, then the answer to a settlement.  A move or settlement of
      ours that fails is reported, and the potato kept, with what the drain had
      done by then; any other failure is an error. */
  function UsePotato(clvm: Clvm, p: Peer, sendBack: bool): Result<(Peer, seq<PeerMessage>), PeerError> {
    match DrainQueueIntoBatch(clvm, p)
    case Err(stop) => if stop.IsActionFailed() then Ok((stop.peer, [])) else Err(stop.error)
    case Ok((next, out)) =>
      if out != [] then Ok((next, out))
      else if next.peerWants then Ok(SendEmptyPotato(next.(peerWants := false)))
      else if sendBack then Ok(SendEmptyPotato(next))
      else Ok((next, []))
  }

  function ProcessBatch(clvm: Clvm, p: Peer, m: PeerMessage): Result<(Peer, seq<PeerMessage>), PeerError>
    requires m.Batch?
  {
    var replies := Replies(clvm, p.factories, p.ch, m.actions);
    match m.shutdown
    case Some(shutdown) =>
      var ch :- ApplyBatch(clvm, p, m.actions);
      var (next, out) :- CloseCleanly(p, ch, shutdown);
      Ok((next, replies + out))
    case None =>
      var received :- ReceivePotato(clvm, p, m.actions, m.signatures);
      var (next, out) :- UsePotato(clvm, received, HasSettlement(m.actions));
      Ok((next, replies + out))
  }

  function ProcessGameMessage(clvm: Clvm, p: Peer, m: PeerMessage): Result<Peer, PeerError>
    requires m.GameMessage?
  {
    var at := LivePosition(p.ch.live, m.gameId);
    var _ :- Require(at.Some?, ChannelFailed(NoSuchGame));
    var game := p.ch.live[at.value];
    var _ :- Require(!game.IsMyTurn(), ChannelFailed(WrongTurn));
    var _ :- LiftChannel(Lift(clvm.message(game.referee, m.bytes)));
    Ok(p)
  }

  function ProcessMessage(clvm: Clvm, p: Peer, m: PeerMessage): Result<(Peer, seq<PeerMessage>), PeerError> {
    if p.pendingShutdown then
      match m
      case CleanShutdownComplete => Ok((p.(closed := true, queue := []), []))
      case RequestPotato => Ok((p, []))
      case _ => Err(UnexpectedMessage)
    else
      match m
      case RequestPotato =>
        if p.potato.Present? then Ok(SendEmptyPotato(p.(peerWants := false))) else Ok((p.(peerWants := true), []))
      case Batch(_, _, _) =>
        if p.potato.Present? then Err(DoublePotato) else ProcessBatch(clvm, p, m)
      case GameMessage(_, _) =>
        var next :- ProcessGameMessage(clvm, p, m);
        Ok((next, []))
      case CleanShutdownComplete => Ok((p, []))
  }

  // ---------------------------------------------------------------------------
  // Local requests
  // ---------------------------------------------------------------------------

  function SendPotatoRequestIfNeeded(p: Peer): (Peer, seq<PeerMessage>) {
    if p.potato.Absent? then (p.(potato := Requested), [RequestPotato]) else (p, [])
  }

  function DoGameAction(p: Peer, action: GameAction): (Peer, seq<PeerMessage>) {
    SendPotatoRequestIfNeeded(p.(queue := p.queue + [action]))
  }

  function DoGameActions(p: Peer, actions: seq<GameAction>): (Peer, seq<PeerMessage>)
    decreases |actions|
  {
    if actions == [] then (p, [])
    else
      var (next, out) := DoGameAction(p, actions[0]);
      var (end, more) := DoGameActions(next, actions[1..]);
      (end, out + more)
  }

  predicate PeerProposalPending(ch: Channel) {
    exists i :: 0 <= i < |ch.proposed| && !ch.IsOurNonce(ch.proposed[i].gameId)
  }

  /** A proposal withdraws a queued shutdown; while one of the peer's is open it
      only uses up a nonce. */
  function ProposeGames(clvm: Clvm, p: Peer, start: GameProposal): (Peer, seq<PeerMessage>) {
    var q := p.(queue := WithoutShutdown(p.queue));
    var first := q.ch.myNextNonce;
    if PeerProposalPending(q.ch) then (q.(ch := q.ch.(myNextNonce := first + 2)), [])
    else
      match FactoryGames(clvm, q.factories, start)
      case Err(_) => (q, [])
      case Ok(games) =>
        if games == [] then (q, [])
        else
          var group := QueuedGroup(
                         OurStarts(games, first, start.timeout), WireGroup(start, OurMembers(games, first), first));
          DoGameAction(q.(ch := q.ch.(myNextNonce := first + 2 * |games|)), group)
  }

  function Contributions(proposals: seq<ProposedGame>, groupId: nat): (nat, nat) {
    if proposals == [] then (0, 0)
    else
      var (mine, theirs) := Contributions(proposals[1..], groupId);
      if proposals[0].groupId == groupId then
        (proposals[0].myContribution + mine, proposals[0].theirContribution + theirs)
      else (mine, theirs)
  }

  function ForEach(ids: seq<nat>, action: nat -> GameAction): seq<GameAction> {
    seq(|ids|, i requires 0 <= i < |ids| => action(ids[i]))
  }

  /** Accepts or cancels the whole group: it is cancelled silently when either
      side lacks the balance for all of it. */
  function AcceptProposals(p: Peer, id: nat): (Peer, seq<PeerMessage>) {
    match ProposalPosition(p.ch.proposed, id)
    case None => (p, [])
    case Some(i) =>
      var groupId := p.ch.proposed[i].groupId;
      var (mine, theirs) := Contributions(p.ch.proposed, groupId);
      var short := mine > p.ch.myOut || theirs > p.ch.theirOut;
      DoGameActions(
        p, ForEach(
          MembersOf(p.ch.proposed, groupId), (gid: nat) => if short then QueuedSilentCancel(gid) else QueuedAccept(gid)))
  }

  function CancelProposals(p: Peer, id: nat): (Peer, seq<PeerMessage>) {
    match GroupMembers(p.ch, id)
    case None => (p, [])
    case Some(ids) => DoGameActions(p, ForEach(ids, (gid: nat) => QueuedCancel(gid)))
  }

  datatype Request =
    | Propose(start: GameProposal)
    | Accept(gameId: nat)
    | Cancel(gameId: nat)
    | MakeMove(gameId: nat, readable: Program, entropy: Bytes)
    | Settle(gameId: nat)
    | ShutDown
    | Flush

  /** Flushing the queue: whatever fails is reported, and the session goes on
      with what the drain had done by then. */
  function FlushPendingActions(clvm: Clvm, p: Peer): (Peer, seq<PeerMessage>) {
    if !p.potato.Present? || p.queue == [] then (p, [])
    else
      match DrainQueueIntoBatch(clvm, p)
      case Ok(sent) => sent
      case Err(stop) => (stop.peer, [])
  }

  function HandleRequest(clvm: Clvm, p: Peer, r: Request): (Peer, seq<PeerMessage>) {
    match r
    case Propose(start) => ProposeGames(clvm, p, start)
    case Accept(id) => AcceptProposals(p, id)
    case Cancel(id) => CancelProposals(p, id)
    case MakeMove(id, readable, entropy) => DoGameAction(p, QueuedMove(id, readable, entropy))
    case Settle(id) => DoGameAction(p, QueuedSettlement(id))
    case ShutDown => DoGameAction(p, QueuedShutdown)
    case Flush => FlushPendingActions(clvm, p)
  }
}

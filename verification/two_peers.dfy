/** Two peers and the two FIFO queues between them: what holds in every state
    that any sequence of local requests and deliveries can reach. */
module TwoPeers {
  import opened Wrappers
  import opened Chain
  import opened Referees
  import opened Channels
  import opened ChannelMoney
  import opened ChannelHistory
  import opened ChannelGames
  import opened OffChainPeers
  import opened PeerInvariants
  import opened MirroredViews
  import opened FailedDrains
  import opened VouchedProposals
  import opened Potato

  // ---------------------------------------------------------------------------
  // The system
  // ---------------------------------------------------------------------------

  /** What failed drains have done so far: whether one of them left something
      undone that only its own side knows of, and by how much those of each side
      have paid out more than a game held. */
  datatype Lapses = Lapses(strayed: bool, excessA: nat, excessB: nat)

  const NO_LAPSES: Lapses := Lapses(false, 0, 0)

  /** `ab` and `ba` are the messages on their way; `sentByA` and `sentByB` log
      the state number of every batch a side has sent. */
  datatype System = System(
    a: Peer, b: Peer,
    ab: seq<PeerMessage>, ba: seq<PeerMessage>,
    sentByA: seq<nat>, sentByB: seq<nat>,
    lapses: Lapses)

  function Flip(s: System): System {
    System(
      s.b, s.a, s.ba, s.ab, s.sentByB, s.sentByA, Lapses(s.lapses.strayed, s.lapses.excessB, s.lapses.excessA))
  }

  datatype Event = Deliver | Ask(request: Request)

  datatype SidedEvent = OnA(event: Event) | OnB(event: Event)

  function Logged(out: seq<PeerMessage>, p: Peer): seq<nat> {
    if Batches(out) > 0 then [p.ch.stateNumber] else []
  }

  /** The system once its first side has become `p` and sent `out`. */
  function After(s: System, p: Peer, out: seq<PeerMessage>): System {
    s.(a := p, ab := s.ab + out, sentByA := s.sentByA + Logged(out, p))
  }

  /** The lapses once the first side, being `p`, has drained its queue. */
  function AfterDrain(clvm: Clvm, l: Lapses, p: Peer): Lapses {
    match DrainAll(clvm, p.ch, p.queue)
    case Ok(_) => l
    case Err(f) => Lapses(l.strayed || !Undone(p.ch, f), l.excessA + Excess(f), l.excessB)
  }

  /** The peer as it is when the request makes it drain its queue. */
  function DrainOfRequest(p: Peer, r: Request): Option<Peer> {
    if r.Flush? && p.potato.Present? && p.queue != [] then Some(p) else None
  }

  /** A batch taken in is followed by a drain. */
  function DrainOfDelivery(clvm: Clvm, p: Peer, m: PeerMessage): Option<Peer> {
    if p.pendingShutdown || !m.Batch? || m.shutdown.Some? then None
    else
      match ReceivePotato(clvm, p, m.actions, m.signatures)
      case Ok(received) => Some(received)
      case Err(_) => None
  }

  function DrainOf(clvm: Clvm, s: System, e: Event): Option<Peer> {
    match e
    case Deliver => if s.ba == [] then None else DrainOfDelivery(clvm, s.a, s.ba[0])
    case Ask(r) => DrainOfRequest(s.a, r)
  }

  function AfterAsking(clvm: Clvm, l: Lapses, p: Peer, r: Request): Lapses {
    match DrainOfRequest(p, r)
    case Some(q) => AfterDrain(clvm, l, q)
    case None => l
  }

  function AfterDelivery(clvm: Clvm, l: Lapses, p: Peer, m: PeerMessage): Lapses {
    match DrainOfDelivery(clvm, p, m)
    case Some(q) => AfterDrain(clvm, l, q)
    case None => l
  }

  /** A run ends when a side closes the channel, or when it refuses a message
      and goes on chain; a drain that fails is no end of it unless something
      other than a move or settlement fails after a batch was taken in. */
  function StepA(clvm: Clvm, s: System, e: Event): Option<System> {
    if s.a.closed || s.b.closed then None
    else
      match e
      case Deliver =>
        if s.ba == [] then None
        else
          (match ProcessMessage(clvm, s.a, s.ba[0])
           case Ok((p, out)) =>
             Some(After(s.(ba := s.ba[1..], lapses := AfterDelivery(clvm, s.lapses, s.a, s.ba[0])), p, out))
           case Err(_) => None)
      case Ask(r) =>
        var (p, out) := HandleRequest(clvm, s.a, r);
        Some(After(s.(lapses := AfterAsking(clvm, s.lapses, s.a, r)), p, out))
  }

  function Step(clvm: Clvm, s: System, e: SidedEvent): Option<System> {
    match e
    case OnA(event) => StepA(clvm, s, event)
    case OnB(event) =>
      match StepA(clvm, Flip(s), event)
      case Some(next) => Some(Flip(next))
      case None => None
  }

  function Run(clvm: Clvm, s: System, events: seq<SidedEvent>): Option<System>
    decreases |events|
  {
    if events == [] then Some(s)
    else
      match Step(clvm, s, events[0])
      case Some(next) => Run(clvm, next, events[1..])
      case None => None
  }

  function StartPeer(initiator: bool, ch: Channel, factories: Factories): Peer {
    Peer(initiator, if initiator then Present else Absent, [], false, ch, factories, false, false)
  }

  /** Both sides after the handshake: the initiator holds the potato, but its
      channel state was told that the other side starts with it. */
  function Start(
    idA: ChannelIdentity, idB: ChannelIdentity, contributionA: nat, contributionB: nat,
    factoriesA: Factories, factoriesB: Factories) : Result<System, ChannelError>
  {
    var newA :- NewChannel(idA, false, contributionA, contributionB);
    var newB :- NewChannel(idB, true, contributionB, contributionA);
    var a :- StoreInitialPeerSignatures(newA, InitialSignatures(newB));
    var b :- StoreInitialPeerSignatures(newB, InitialSignatures(newA));
    Ok(System(StartPeer(true, a, factoriesA), StartPeer(false, b, factoriesB), [], [], [], [], NO_LAPSES))
  }

  // ---------------------------------------------------------------------------
  // The invariant
  // ---------------------------------------------------------------------------

  function LastCoins(ch: Channel): seq<(PuzzleHash, nat)> {
    if ch.latestReceived.Some? then GameCoinsOf(ch.latestReceived.value.coin.outcome.baseConditions) else []
  }

  /** Only the initiator sends odd states. */
  ghost predicate RightParity(p: Peer, n: nat) {
    n % 2 == (if p.initiator then 1 else 0)
  }

  /** The channel's own potato flag is right from the first exchange on. */
  ghost predicate FlagOk(p: Peer) {
    && (p.ch.stateNumber > 0 ==> (p.ch.havePotato <==> p.potato.Present?))
    && (p.ch.stateNumber == 0 ==> (p.potato.Present? <==> p.initiator))
    && (p.ch.stateNumber > 0 ==> RightParity(p, SentParity(p.ch)))
  }

  ghost predicate RecordsOk(ch: Channel) {
    History(ch) && Alternates(ch) && CoinsOfDistinctGames(LastCoins(ch))
  }

  ghost predicate PeerOk(p: Peer, total: nat) {
    && SenderOk(p.ch, total, LastCoins(p.ch), QueuedIds(p.queue))
    && RecordsOk(p.ch)
    && GroupsOk(p.queue)
    && FlagOk(p)
  }

  ghost predicate LogOk(p: Peer, sent: seq<nat>) {
    forall i :: 0 <= i < |sent| ==> 1 <= sent[i] <= p.ch.stateNumber && RightParity(p, sent[i])
  }

  /** A batch on its way from `a` to `b`: if `b` applies its actions the views
      are mirrored again, and its signatures are those of the mirrored state. */
  ghost predicate InFlight(clvm: Clvm, a: Peer, b: Peer, m: PeerMessage)
    requires m.Batch?
  {
    && (ApplyActions(clvm, b.factories, b.ch, m.actions).Ok? ==>
          Linked(a.ch, ApplyActions(clvm, b.factories, b.ch, m.actions).value, QueuedIds(a.queue)))
    && a.ch.stateNumber == b.ch.stateNumber + 1
    && SignsCurrent(a.ch, m.signatures)
    && (m.shutdown.Some? ==> ShutdownIsCurrent(a.ch, m.shutdown.value))
  }

  ghost predicate SignsCurrent(ch: Channel, signatures: StateUpdateSignatures) {
    var coin := UpdatedUnroll(ch.id, ch.latestSent.coin.startedWithPotato, ch.stateNumber, CurrentInputs(ch));
    && ch.latestSent.coin == coin
    && signatures == StateUpdateSignatures(OurChannelHalf(ch.id, ChannelSpendConditions(ch.id, coin)), coin.outcome.signature)
  }

  ghost predicate ShutdownIsCurrent(ch: Channel, shutdown: Shutdown) {
    && ch.live == []
    && shutdown == Shutdown(OurChannelHalf(ch.id, ShutdownConditions(ch)), ShutdownConditions(ch))
  }

  ghost predicate FlightOk(clvm: Clvm, a: Peer, b: Peer, ab: seq<PeerMessage>, strayed: bool) {
    && (Batches(ab) == 1 ==>
          && (!strayed ==> InFlight(clvm, a, b, FirstBatch(ab)))
          && WiresOk(a.ch, QueuedIds(a.queue), FirstBatch(ab).actions))
    && (a.pendingShutdown ==> Batches(ab) == 1 && FirstBatch(ab).shutdown.Some?)
  }

  /** What holds of each side's proposals whatever the views: the other side
      expects only what is still to be sent, and has checked what it holds. */
  ghost predicate ProposalsOkBetween(a: Peer, b: Peer, ba: seq<PeerMessage>) {
    && Behind(b.ch.theirNextNonce, a.ch, QueuedIds(a.queue))
    && b.ch.theirNextNonce % 2 == a.ch.myNextNonce % 2
    && Vouched(a.ch, b.ch)
    && (Batches(ba) == 1 ==> AcceptsVouched(a.ch, FirstBatch(ba).actions))
  }

  ghost predicate AtRest(s: System) {
    Mirror(s.a.ch, s.b.ch) && s.a.ch.stateNumber == s.b.ch.stateNumber
  }

  /** Everything that is stated once for each side. */
  ghost predicate SideOk(clvm: Clvm, s: System, total: nat) {
    && PeerOk(s.a, total + s.lapses.excessA)
    && LogOk(s.a, s.sentByA)
    && ProposalsOkBetween(s.a, s.b, s.ba)
    && FlightOk(clvm, s.a, s.b, s.ab, s.lapses.strayed)
  }

  /** The invariant of a system in which neither side has closed; the views
      mirror each other as long as no failed drain has led them astray. */
  ghost predicate Inv(clvm: Clvm, s: System, total: nat) {
    && s.a.initiator != s.b.initiator
    && PotatoInv(s.a.potato, s.b.potato, s.ab, s.ba)
    && SideOk(clvm, s, total) && SideOk(clvm, Flip(s), total)
    && (Batches(s.ab) + Batches(s.ba) == 0 && !s.lapses.strayed ==> AtRest(s))
    && (!s.lapses.strayed ==> s.lapses == NO_LAPSES)
  }

  lemma InvSymmetric(clvm: Clvm, s: System, total: nat)
    ensures Inv(clvm, s, total) <==> Inv(clvm, Flip(s), total)
  {
    hide SideOk;
    assert Flip(Flip(s)) == s;
    PotatoInvSymmetric(s.a.potato, s.b.potato, s.ab, s.ba);
    MirrorSymmetric(s.a.ch, s.b.ch);
  }

  // ---------------------------------------------------------------------------
  // The start
  // ---------------------------------------------------------------------------

  lemma StartedChannel(id: ChannelIdentity, start: bool, mine: nat, theirs: nat, signatures: StateUpdateSignatures)
    requires NewChannel(id, start, mine, theirs).Ok?
    requires StoreInitialPeerSignatures(NewChannel(id, start, mine, theirs).value, signatures).Ok?
    ensures
      var ch := StoreInitialPeerSignatures(NewChannel(id, start, mine, theirs).value, signatures).value;
      SenderOk(ch, mine + theirs, LastCoins(ch), []) && RecordsOk(ch) && ch.stateNumber == 0
  {
    hide History, Alternates, UpdatedUnroll, VerifyUnroll, VerifyChannel, UnrollPuzzleHash, HistoricalOf, Money, Sound, CoinsOk,
         Fresh, CoinsOfDistinctGames;
    InitialHistory(id, start, mine, theirs, signatures);
    NewChannelMoney(id, start, mine, theirs);
    var ch := StoreInitialPeerSignatures(NewChannel(id, start, mine, theirs).value, signatures).value;
    var inputs := UnrollInputs(id.rewardPh, id.theirRewardPh, mine, theirs, [], id.unrollTimeout);
    assert LastCoins(ch) == [] by {
      UnrollCreatesGameCoins(start, 0, inputs);
      assert UpdatedUnroll(id, start, 0, inputs).outcome.baseConditions == BaseConditions(start, 0, inputs) by {
        UnrollHasConditions(id, start, inputs);
      }
    }
    assert Money(ch, mine + theirs) by { SignedKeepsMoney(NewChannel(id, start, mine, theirs).value, ch, mine + theirs); }
    NothingYet(ch);
  }

  lemma UnrollHasConditions(id: ChannelIdentity, start: bool, inputs: UnrollInputs)
    ensures UpdatedUnroll(id, start, 0, inputs).outcome.baseConditions == BaseConditions(start, 0, inputs)
  {
  }

  lemma SignedKeepsMoney(ch: Channel, next: Channel, total: nat)
    requires Money(ch, total) && next == ch.(latestReceived := next.latestReceived)
    ensures Money(next, total)
  {
  }

  lemma NothingYet(ch: Channel)
    requires ch.live == [] && ch.pending == [] && ch.proposed == [] && ch.cached == []
    requires ch.myNextNonce % 2 != ch.theirNextNonce % 2
    ensures Sound(ch) && CoinsOk(ch, []) && Fresh(ch, []) && CoinsOfDistinctGames([])
  {
  }

  lemma StartKeepsInv(
    clvm: Clvm, idA: ChannelIdentity, idB: ChannelIdentity, ca: nat, cb: nat, fa: Factories, fb: Factories)
    requires MirroredIdentity(idA, idB)
    requires Start(idA, idB, ca, cb, fa, fb).Ok?
    ensures Inv(clvm, Start(idA, idB, ca, cb, fa, fb).value, ca + cb)
  {
    hide SenderOk, RecordsOk, UnrollPuzzleHash, HistoricalOf, VerifyUnroll, VerifyChannel, OurChannelHalf;
    hide Fresh, GameCoinsOf;
    var s := Start(idA, idB, ca, cb, fa, fb).value;
    var newA, newB := NewChannel(idA, false, ca, cb).value, NewChannel(idB, true, cb, ca).value;
    StartedChannel(idA, false, ca, cb, InitialSignatures(newB));
    StartedChannel(idB, true, cb, ca, InitialSignatures(newA));
  }

  /** The handshake goes through exactly when the keys differ and the unroll
      timeout is positive: each side accepts the other's initial signatures. */
  lemma StartSucceedsIff(idA: ChannelIdentity, idB: ChannelIdentity, ca: nat, cb: nat, fa: Factories, fb: Factories)
    requires MirroredIdentity(idA, idB)
    ensures Start(idA, idB, ca, cb, fa, fb).Ok? <==>
              && idA.myChannelKey != idB.myChannelKey && idA.myUnrollKey != idB.myUnrollKey
              && idA.unrollTimeout > 0
  {
    hide Aggregate;
    SharedKeys(idA, idB);
  }
}

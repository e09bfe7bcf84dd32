/** Sending and receiving the potato keeps the invariant of the system, and so
    does every step of every run. */
module TwoPeerBatches {
  import opened Wrappers
  import opened Chain
  import opened Referees
  import opened Channels
  import opened ChannelMoney
  import opened ChannelHistory
  import opened ChannelGames
  import opened OffChainPeers
  import opened PeerInvariants
  import opened MirroredViews
  import opened FailedDrains
  import opened VouchedProposals
  import opened Potato
  import opened TwoPeers
  import opened TwoPeerSteps

  // ---------------------------------------------------------------------------
  // Sending a batch
  // ---------------------------------------------------------------------------

  /** The sender's channel and queue once a batch is ready to be signed. */
  ghost predicate Packed(clvm: Clvm, s: System, p: Peer, m: PeerMessage, total: nat)
    requires m.Batch?
  {
    && p == s.a.(ch := p.ch, queue := p.queue, peerWants := p.peerWants, pendingShutdown := p.pendingShutdown)
    && SenderOk(p.ch, total + s.lapses.excessA, LastCoins(s.a.ch), QueuedIds(p.queue))
    && SameRecords(s.a.ch, p.ch) && p.ch.theirNextNonce == s.a.ch.theirNextNonce
    && GroupsOk(p.queue)
    && Behind(s.b.ch.theirNextNonce, p.ch, QueuedIds(p.queue))
    && WiresOk(p.ch, QueuedIds(p.queue), m.actions)
    && Vouched(p.ch, s.b.ch) && Vouched(s.b.ch, p.ch) && AcceptsVouched(s.b.ch, m.actions)
    && (!s.lapses.strayed && ApplyActions(clvm, s.b.factories, s.b.ch, m.actions).Ok? ==>
          Linked(p.ch, ApplyActions(clvm, s.b.factories, s.b.ch, m.actions).value, QueuedIds(p.queue)))
    && (m.shutdown.Some? ==> ShutdownIsCurrent(p.ch, m.shutdown.value))
    && (p.pendingShutdown ==> m.shutdown.Some?)
    && m.signatures == UpdateCachedUnrollState(p.ch).1
  }

  /** The peer after signing and sending. */
  function Sent(p: Peer): Peer {
    p.(ch := UpdateCachedUnrollState(p.ch).0, potato := Absent)
  }

  lemma SigningKeepsSender(ch: Channel, total: nat, coins: seq<(PuzzleHash, nat)>, ids: seq<nat>)
    requires SenderOk(ch, total, coins, ids)
    ensures SenderOk(UpdateCachedUnrollState(ch).0, total, coins, ids)
  {
    hide UpdatedUnroll, UnrollPuzzleHash;
    var next := UpdateCachedUnrollState(ch).0;
    assert KnownIds(next) == KnownIds(ch);
    forall ph, amount | CoinKnown(ch, ph, amount)
      ensures CoinKnown(next, ph, amount)
    {
    }
  }

  lemma SigningKeepsPeer(p0: Peer, p: Peer, total: nat)
    requires PeerOk(p0, total) && p0.potato.Present? && p.initiator == p0.initiator
    requires SenderOk(p.ch, total, LastCoins(p0.ch), QueuedIds(p.queue)) && SameRecords(p0.ch, p.ch) && GroupsOk(p.queue)
    ensures PeerOk(Sent(p), total) && Sent(p).ch.stateNumber == p0.ch.stateNumber + 1
    ensures RightParity(Sent(p), p0.ch.stateNumber + 1)
  {
    hide SenderOk, History, Alternates, GroupsOk, CoinsOfDistinctGames, SameRecords, UpdateCachedUnrollState, GameCoinsOf;
    RecordsCarryHistory(p0.ch, p.ch);
    PotatoFieldsSame(p0.ch, p.ch);
    SendKeepsHistory(p.ch);
    SigningKeepsSender(p.ch, total, LastCoins(p0.ch), QueuedIds(p.queue));
    SigningFields(p.ch);
  }

  lemma PotatoFieldsSame(a: Channel, b: Channel)
    requires SameRecords(a, b)
    ensures a.stateNumber == b.stateNumber && a.havePotato == b.havePotato && a.latestReceived == b.latestReceived
  {
  }

  lemma SigningFields(ch: Channel)
    ensures
      var next := UpdateCachedUnrollState(ch).0;
      && next.stateNumber == ch.stateNumber + 1 && !next.havePotato && next.latestReceived == ch.latestReceived
  {
  }

  lemma SigningKeepsLinked(a: Channel, b: Channel, ids: seq<nat>)
    requires Linked(a, b, ids)
    ensures Linked(UpdateCachedUnrollState(a).0, b, ids)
  {
    hide UpdatedUnroll, UnrollPuzzleHash, MirroredGames, MirroredProposals, HashesOk, NonceDiscipline;
    assert KnownIds(UpdateCachedUnrollState(a).0) == KnownIds(a);
    FewerIdsKeepNonces(a, UpdateCachedUnrollState(a).0);
    FewerIdsStayFresh(a, UpdateCachedUnrollState(a).0, ids);
    assert UpdatedUnroll(a.id, a.latestSent.coin.startedWithPotato, a.stateNumber + 1, CurrentInputs(a)).startedWithPotato
           == a.latestSent.coin.startedWithPotato by {
      StartNeverChanges(a.id, a.latestSent.coin.startedWithPotato, a.stateNumber + 1, CurrentInputs(a));
    }
    assert HashesOk(UpdateCachedUnrollState(a).0) by { SigningKeepsHashes(a); }
  }

  lemma SigningKeepsHashes(ch: Channel)
    requires HashesOk(ch)
    ensures HashesOk(UpdateCachedUnrollState(ch).0)
  {
  }

  lemma StartNeverChanges(id: ChannelIdentity, started: bool, number: nat, inputs: UnrollInputs)
    ensures UpdatedUnroll(id, started, number, inputs).startedWithPotato == started
  {
  }

  lemma SigningSignsCurrent(ch: Channel)
    ensures SignsCurrent(UpdateCachedUnrollState(ch).0, UpdateCachedUnrollState(ch).1)
  {
    StartNeverChanges(ch.id, ch.latestSent.coin.startedWithPotato, ch.stateNumber + 1, CurrentInputs(ch));
  }

  lemma SentBatchInFlight(clvm: Clvm, s: System, p: Peer, m: PeerMessage, total: nat)
    requires m.Batch? && Packed(clvm, s, p, m, total) && AtRest(s) && !s.lapses.strayed
    ensures InFlight(clvm, Sent(p), s.b, m)
  {
    hide WiresOk, Vouched, AcceptsVouched, SenderOk, Linked, Mirror, ApplyActions, GroupsOk, Behind, SignsCurrent, QueuedIds, UpdatedUnroll,
         ShutdownConditions;
    SigningSignsCurrent(p.ch);
    SigningFields(p.ch);
    if ApplyActions(clvm, s.b.factories, s.b.ch, m.actions).Ok? {
      SigningKeepsLinked(
        p.ch, ApplyActions(clvm, s.b.factories, s.b.ch, m.actions).value, QueuedIds(p.queue));
    }
    if m.shutdown.Some? {
      ShutdownStaysCurrent(p.ch, m.shutdown.value);
    }
  }

  lemma ShutdownStaysCurrent(ch: Channel, shutdown: Shutdown)
    requires ShutdownIsCurrent(ch, shutdown)
    ensures ShutdownIsCurrent(UpdateCachedUnrollState(ch).0, shutdown)
  {
  }

  lemma GrowingLogOk(p0: Peer, p: Peer, sent: seq<nat>)
    requires LogOk(p0, sent) && p.initiator == p0.initiator && p.ch.stateNumber == p0.ch.stateNumber + 1
    requires RightParity(p, p.ch.stateNumber)
    ensures LogOk(p, sent) && LogOk(p, sent + [p.ch.stateNumber])
  {
  }

  lemma SigningKeepsProposals(ch: Channel)
    ensures
      var next := UpdateCachedUnrollState(ch).0;
      && next.proposed == ch.proposed && next.myNextNonce == ch.myNextNonce && next.theirNextNonce == ch.theirNextNonce
  {
  }

  lemma SentProposalsOk(clvm: Clvm, s: System, p: Peer, m: PeerMessage, total: nat)
    requires m.Batch? && Packed(clvm, s, p, m, total)
    requires ProposalsOkBetween(s.a, s.b, s.ba) && ProposalsOkBetween(s.b, s.a, s.ab) && Batches(s.ab) == Batches(s.ba) == 0
    ensures ProposalsOkBetween(Sent(p), s.b, s.ba) && ProposalsOkBetween(s.b, Sent(p), s.ab + [m])
    ensures WiresOk(Sent(p).ch, QueuedIds(p.queue), m.actions)
  {
    hide SenderOk, WiresOk, UpdateCachedUnrollState, Linked, ApplyActions, QueuedIds, GroupsOk, ShutdownIsCurrent;
    SigningKeepsProposals(p.ch);
    BatchesOfAppend(s.ab, [m]);
    WiresStayOk(p.ch, Sent(p).ch, QueuedIds(p.queue), QueuedIds(p.queue), m.actions);
  }

  lemma SendBatchKeepsInv(clvm: Clvm, s: System, p: Peer, m: PeerMessage, total: nat)
    requires m.Batch? && Inv(clvm, s, total) && s.a.potato.Present? && Packed(clvm, s, p, m, total)
    ensures Inv(clvm, After(s, Sent(p), [m]), total)
  {
    hide PeerOk, LogOk, InFlight, Mirror, Linked, SenderOk, RightParity, ApplyActions, GroupsOk, ProposalsOkBetween,
         WiresOk, Vouched, AcceptsVouched;
    var next := After(s, Sent(p), [m]);
    SendBatch(s.a.potato, s.b.potato, s.ab, s.ba, m);
    SigningKeepsPeer(s.a, p, total + s.lapses.excessA);
    SentProposalsOk(clvm, s, p, m, total);
    if !s.lapses.strayed {
      SentBatchInFlight(clvm, s, p, m, total);
    }
    GrowingLogOk(s.a, Sent(p), s.sentByA);
    BatchesOfAppend(s.ab, [m]);
    assert Logged([m], Sent(p)) == [Sent(p).ch.stateNumber];
  }

  lemma DrainedIsPacked(clvm: Clvm, s: System, st: Draining, m: PeerMessage, total: nat)
    requires Inv(clvm, s, total) && s.a.potato.Present? && DrainAll(clvm, s.a.ch, s.a.queue) == Ok(st)
    requires m == Batch(st.batch, UpdateCachedUnrollState(st.ch).1, st.shutdown)
    ensures
      var p := s.a.(ch := st.ch, queue := st.deferred, pendingShutdown := s.a.pendingShutdown || st.shutdown.Some?);
      Packed(clvm, s, p, m, total)
  {
    hide Inv, SenderOk, Mirror, ApplyActions, DrainAll, UpdateCachedUnrollState, ShutdownIsCurrent, Linked, AtRest,
         WiresOk, Vouched, AcceptsVouched;
    SideParts(clvm, s, total);
    var coins := LastCoins(s.a.ch);
    assert s.a.queue + [] == s.a.queue;
    NoGroupsAfter(clvm, s.a.ch, s.a.queue, total + s.lapses.excessA, coins);
    DrainedProposals(clvm, s, st, total);
    RestIsLinked(clvm, s, total);
    if !s.lapses.strayed {
      DrainAllInStep(clvm, s.b.factories, s.a.ch, s.b.ch, s.a.queue, [], total + s.lapses.excessA, coins);
    }
    DrainKeepsTheirNonce(clvm, s.a.ch, s.a.queue);
  }

  /** What a drain makes of the proposals on both sides. */
  lemma DrainedProposals(clvm: Clvm, s: System, st: Draining, total: nat)
    requires Inv(clvm, s, total) && DrainAll(clvm, s.a.ch, s.a.queue) == Ok(st)
    ensures WiresOk(st.ch, [], st.batch)
    ensures Vouched(st.ch, s.b.ch) && Vouched(s.b.ch, st.ch) && AcceptsVouched(s.b.ch, st.batch)
  {
    hide Inv, SenderOk, DrainAll, Vouched, AcceptsVouched, WiresOk, AcceptsOld, Counts, KeepsGames, MovesStand,
         OurTurnsUntouched, OldOrQueued, KnownIds, QueuedIds, GroupsOk;
    SideParts(clvm, s, total);
    OtherSideParts(clvm, s, total);
    var ids := QueuedIds(s.a.queue);
    var coins := LastCoins(s.a.ch);
    assert s.a.queue + [] == s.a.queue;
    assert QueuedIds([]) == [] by { NoGroupsNoIds([]); }
    QueueIsFresh(s.a.ch, total + s.lapses.excessA, coins, ids);
    assert Distinct(KnownIds(s.a.ch)) by { SoundIsDistinct(s.a.ch); }
    assert AllOurs(s.a.ch, ids);
    DrainTracks(clvm, s.a.ch, ids, s.a.queue, [], total + s.lapses.excessA, coins);
    DrainVouches(clvm, s.a.ch, ids, s.a.queue, [], total + s.lapses.excessA, coins);
    DrainedStaysVouched(s.a.ch, ids, st.ch, s.b.ch);
    OthersStayVouched(s.a.ch, ids, st.ch, s.b.ch);
    AcceptedAreVouched(s.a.ch, s.b.ch, st.batch);
  }

  lemma SideParts(clvm: Clvm, s: System, total: nat)
    requires Inv(clvm, s, total)
    ensures SenderOk(s.a.ch, total + s.lapses.excessA, LastCoins(s.a.ch), QueuedIds(s.a.queue)) && GroupsOk(s.a.queue)
    ensures Behind(s.b.ch.theirNextNonce, s.a.ch, QueuedIds(s.a.queue))
    ensures s.b.ch.theirNextNonce % 2 == s.a.ch.myNextNonce % 2 && Vouched(s.a.ch, s.b.ch) && Vouched(s.b.ch, s.a.ch)
  {
    hide SenderOk, RecordsOk, FlagOk, LogOk, FlightOk, PotatoInv, AtRest, Behind, Vouched, AcceptsVouched;
  }

  lemma OtherSideParts(clvm: Clvm, s: System, total: nat)
    requires Inv(clvm, s, total)
    ensures NonceDiscipline(s.b.ch) && OpposedNonces(s.b.ch)
  {
    hide HashesOk, TheirProposalsAddUp, Money, CoinsOk, Fresh, RecordsOk, FlagOk, LogOk, FlightOk, PotatoInv, AtRest,
         ProposalsOkBetween, KnownIds;
  }

  lemma RestIsLinked(clvm: Clvm, s: System, total: nat)
    requires Inv(clvm, s, total) && s.a.potato.Present?
    ensures !s.lapses.strayed ==> AtRest(s) && Linked(s.a.ch, s.b.ch, QueuedIds(s.a.queue))
    ensures !s.a.pendingShutdown && Batches(s.ab) == Batches(s.ba) == 0
  {
    hide HashesOk, NonceDiscipline, Money, CoinsOk, RecordsOk, FlagOk, LogOk, Mirror, InFlight, Vouched, AcceptsVouched,
         WiresOk;
  }

  lemma NoGroupsAfter(clvm: Clvm, ch: Channel, queue: seq<GameAction>, total: nat, coins: seq<(PuzzleHash, nat)>)
    requires SenderOk(ch, total, coins, QueuedIds(queue)) && DrainAll(clvm, ch, queue).Ok?
    ensures
      var st := DrainAll(clvm, ch, queue).value;
      && SenderOk(st.ch, total, coins, QueuedIds(st.deferred)) && SameRecords(ch, st.ch)
      && GroupsOk(st.deferred) && QueuedIds(st.deferred) == []
      && (st.shutdown.Some? ==> ShutdownIsCurrent(st.ch, st.shutdown.value))
  {
    hide SenderOk, DrainAll, SameRecords;
    assert queue + [] == queue;
    DrainAllLeaves(clvm, ch, queue, [], total, coins);
    NoGroupsNoIds(DrainAll(clvm, ch, queue).value.deferred);
  }

  lemma {:induction false} DrainKeepsTheirNonce(clvm: Clvm, ch: Channel, queue: seq<GameAction>)
    requires DrainAll(clvm, ch, queue).Ok?
    ensures DrainAll(clvm, ch, queue).value.ch.theirNextNonce == ch.theirNextNonce
    decreases |queue|
  {
    if queue != [] {
      var last := |queue| - 1;
      DrainKeepsTheirNonce(clvm, ch, queue[..last]);
      ActionKeepsTheirNonce(clvm, DrainAll(clvm, ch, queue[..last]).value, queue[last]);
    }
  }

  lemma ActionKeepsTheirNonce(clvm: Clvm, st: Draining, action: GameAction)
    requires DrainAction(clvm, st, action).Ok?
    ensures DrainAction(clvm, st, action).value.ch.theirNextNonce == st.ch.theirNextNonce
  {
    hide MyTurnMakeMove;
    if action.QueuedGroup? {
      GroupKeepsTheirNonce(st.ch, action.games, action.wire.groupId);
    }
  }

  lemma {:induction false} GroupKeepsTheirNonce(ch: Channel, games: seq<GameStartInfo>, groupId: nat)
    ensures SendGroup(ch, games, groupId).theirNextNonce == ch.theirNextNonce
    decreases |games|
  {
    if games != [] {
      GroupKeepsTheirNonce(ch, games[..|games| - 1], groupId);
    }
  }

  lemma {:induction false} NothingPackedNothingChanged(clvm: Clvm, ch: Channel, queue: seq<GameAction>)
    requires DrainAll(clvm, ch, queue).Ok?
    ensures
      var st := DrainAll(clvm, ch, queue).value;
      st.batch == [] && st.shutdown.None? ==> st.ch == ch
    decreases |queue|
  {
    hide SendMove, SendAcceptSettlement, SendAcceptProposal, CancelProposal, SendGroup;
    if queue != [] {
      NothingPackedNothingChanged(clvm, ch, queue[..|queue| - 1]);
    }
  }

  lemma DeferredChangesQueue(clvm: Clvm, p: Peer, total: nat)
    requires PeerOk(p, total) && DrainAll(clvm, p.ch, p.queue).Ok?
    requires DrainAll(clvm, p.ch, p.queue).value.ch == p.ch
    ensures QueueChanged(p, p.(queue := DrainAll(clvm, p.ch, p.queue).value.deferred))
  {
    hide Sound, Money, CoinsOk, RecordsOk, FlagOk, DrainAll;
    NoGroupsAfter(clvm, p.ch, p.queue, total, LastCoins(p.ch));
  }

  lemma DrainKeepsInv(clvm: Clvm, s: System, total: nat)
    requires Inv(clvm, s, total) && DrainQueueIntoBatch(clvm, s.a).Ok?
    ensures
      var (p, out) := DrainQueueIntoBatch(clvm, s.a).value;
      && Inv(clvm, After(s, p, out), total)
      && (out == [] ==> p == s.a.(queue := p.queue)) && (out != [] ==> |out| == 1 && out[0].Batch?)
  {
    hide PeerOk, PotatoInv, AtRest, QueueChanged, FlightOk, ProposalsOkBetween, LogOk, DrainAll, Packed,
         UpdateCachedUnrollState;
    var st := DrainAll(clvm, s.a.ch, s.a.queue).value;
    var (p, out) := DrainQueueIntoBatch(clvm, s.a).value;
    if out == [] {
      NothingPackedNothingChanged(clvm, s.a.ch, s.a.queue);
      DeferredChangesQueue(clvm, s.a, total + s.lapses.excessA);
      QueueChangeKeepsInv(clvm, s, p, total);
      assert s.ab + [] == s.ab && s.sentByA + [] == s.sentByA;
    } else {
      var ready := s.a.(ch := st.ch, queue := st.deferred, pendingShutdown := s.a.pendingShutdown || st.shutdown.Some?);
      DrainedIsPacked(clvm, s, st, out[0], total);
      SendBatchKeepsInv(clvm, s, ready, out[0], total);
    }
  }

  lemma EmptyPotatoKeepsInv(clvm: Clvm, s: System, total: nat)
    requires Inv(clvm, s, total) && s.a.potato.Present?
    ensures
      var (p, out) := SendEmptyPotato(s.a);
      Inv(clvm, After(s, p, out), total)
  {
    hide Inv, Linked, Mirror, UpdateCachedUnrollState, SenderOk, Vouched, GroupsOk, QueuedIds;
    var m := SendEmptyPotato(s.a).1[0];
    SideParts(clvm, s, total);
    RestIsLinked(clvm, s, total);
    assert ApplyActions(clvm, s.b.factories, s.b.ch, []) == Ok(s.b.ch);
    assert AcceptedIds([]) == [];
    assert Packed(clvm, s, s.a, m, total);
    SendBatchKeepsInv(clvm, s, s.a, m, total);
  }

  // ---------------------------------------------------------------------------
  // A drain that fails
  // ---------------------------------------------------------------------------

  /** The proposals on both sides after a failed drain. */
  lemma FailedDrainProposals(clvm: Clvm, s: System, f: Failure, total: nat)
    requires Inv(clvm, s, total) && DrainAll(clvm, s.a.ch, s.a.queue) == Err(f)
    requires Batches(s.ab) == Batches(s.ba) == 0
    ensures ProposalsOkBetween(AfterFailedDrain(s.a, f), s.b, s.ba) && ProposalsOkBetween(s.b, AfterFailedDrain(s.a, f), s.ab)
  {
    hide Inv, SenderOk, DrainAll, Vouched, AcceptsVouched, Counts, KeepsGames, MovesStand, OurTurnsUntouched, OldOrQueued,
         KnownIds, QueuedIds, GroupsOk, Excess, Overpays;
    SideParts(clvm, s, total);
    OtherSideParts(clvm, s, total);
    InvSymmetric(clvm, s, total);
    SideParts(clvm, Flip(s), total);
    var ids := QueuedIds(s.a.queue);
    var coins := LastCoins(s.a.ch);
    FailureKeeps(clvm, s.a.ch, s.a.queue, total + s.lapses.excessA, coins);
    QueueIsFresh(s.a.ch, total + s.lapses.excessA, coins, ids);
    QueueSuffix(clvm, s.a.ch, s.a.queue);
    SameProposals(s.a.ch, ids, f);
    DrainedStaysVouched(s.a.ch, ids, f.ch, s.b.ch);
    OthersStayVouched(s.a.ch, ids, f.ch, s.b.ch);
    FailureKeepsTheirNonce(clvm, s.a.ch, s.a.queue);
    assert Behind(s.b.ch.theirNextNonce, f.ch, QueuedIds(f.queue)) by {
      forall i | 0 <= i < |QueuedIds(f.queue)|
        ensures s.b.ch.theirNextNonce <= QueuedIds(f.queue)[i]
      {
        assert QueuedIds(f.queue)[i] in ids;
        var j :| 0 <= j < |ids| && ids[j] == QueuedIds(f.queue)[i];
      }
    }
  }

  lemma SameProposals(ch: Channel, ids: seq<nat>, f: Failure)
    requires OldOrQueued(ch, ids, f.before) && f.ch.proposed == f.before.proposed
    ensures OldOrQueued(ch, ids, f.ch)
  {
  }

  lemma QueueSuffix(clvm: Clvm, ch: Channel, queue: seq<GameAction>)
    requires DrainAll(clvm, ch, queue).Err?
    ensures forall x :: x in QueuedIds(DrainAll(clvm, ch, queue).error.queue) ==> x in QueuedIds(queue)
  {
    hide DrainAll, DrainAction, AfterFailure, QueuedIds;
    var done := FailureSplits(clvm, ch, queue);
    var f := DrainAll(clvm, ch, queue).error;
    QueuedIdsOfAppend(done + [f.item], f.queue);
  }

  lemma FailureKeepsTheirNonce(clvm: Clvm, ch: Channel, queue: seq<GameAction>)
    requires DrainAll(clvm, ch, queue).Err?
    ensures DrainAll(clvm, ch, queue).error.before.theirNextNonce == ch.theirNextNonce
  {
    hide DrainAll, DrainAction, AfterFailure;
    var done := FailureSplits(clvm, ch, queue);
    DrainKeepsTheirNonce(clvm, ch, done);
  }

  lemma FailedPeerOk(clvm: Clvm, p: Peer, f: Failure, total: nat)
    requires PeerOk(p, total) && DrainAll(clvm, p.ch, p.queue) == Err(f)
    ensures PeerOk(AfterFailedDrain(p, f), total + Excess(f))
    ensures SameRecords(p.ch, f.ch)
  {
    hide SenderOk, DrainAll, History, Alternates, CoinsOfDistinctGames, Tracks, GroupsOk, Excess, Overpays, QueuedIds,
         GameCoinsOf;
    FailureKeeps(clvm, p.ch, p.queue, total, LastCoins(p.ch));
    RecordsCarryHistory(p.ch, f.ch);
  }

  /** A drain that fails keeps the invariant; the views mirror each other still
      when it has undone what it carried out. */
  lemma FailedDrainKeepsInv(clvm: Clvm, s: System, total: nat)
    requires Inv(clvm, s, total) && s.a.potato.Present? && DrainAll(clvm, s.a.ch, s.a.queue).Err?
    ensures
      var p := AfterFailedDrain(s.a, DrainAll(clvm, s.a.ch, s.a.queue).error);
      Inv(clvm, s.(a := p, lapses := AfterDrain(clvm, s.lapses, s.a)), total)
  {
    hide PeerOk, ProposalsOkBetween, DrainAll, Mirror, InFlight, WiresOk, Undone, Excess, QueuedIds, Linked, SameRecords;
    var f := DrainAll(clvm, s.a.ch, s.a.queue).error;
    RestIsLinked(clvm, s, total);
    FailedPeerOk(clvm, s.a, f, total + s.lapses.excessA);
    FailedDrainProposals(clvm, s, f, total);
    FailedNumbers(s.a.ch, f.ch);
    if !s.lapses.strayed {
      SideParts(clvm, s, total);
      FailedDrainMirrorsIff(
        clvm, s.a.ch, s.a.queue, s.b.ch, total + s.lapses.excessA, LastCoins(s.a.ch));
      if Undone(s.a.ch, f) {
        UndoneHasNoExcess(s.a.ch, f);
      }
    }
  }

  lemma UndoneHasNoExcess(ch: Channel, f: Failure)
    requires Undone(ch, f)
    ensures Excess(f) == 0
  {
  }

  lemma FailedNumbers(ch: Channel, after: Channel)
    requires SameRecords(ch, after)
    ensures after.stateNumber == ch.stateNumber
  {
  }

  // ---------------------------------------------------------------------------
  // Receiving a batch
  // ---------------------------------------------------------------------------

  /** A batch only ever removes groups from the queue, all of them at once. */
  ghost predicate QueueReduced(before: seq<GameAction>, after: seq<GameAction>) {
    && (GroupsOk(before) ==> GroupsOk(after))
    && (QueuedIds(after) == QueuedIds(before) || QueuedIds(after) == [])
  }

  lemma ReducedTransitive(a: seq<GameAction>, b: seq<GameAction>, c: seq<GameAction>)
    requires QueueReduced(a, b) && QueueReduced(b, c)
    ensures QueueReduced(a, c)
  {
    hide GroupsOk, QueuedIds;
  }

  lemma AddedActionReduces(queue: seq<GameAction>, action: GameAction)
    requires !action.QueuedGroup?
    ensures QueueReduced(queue, queue + [action])
  {
    hide GroupOk;
    QueuedIdsOfAppend(queue, [action]);
    assert QueuedIds([action]) == [];
    assert GroupOk(action) by { OthersOk(action); }
  }

  lemma OthersOk(action: GameAction)
    requires !action.QueuedGroup?
    ensures GroupOk(action)
  {
  }

  lemma WithoutGroupsReduces(queue: seq<GameAction>)
    ensures QueueReduced(queue, WithoutGroups(queue))
  {
    WithoutGroupsHasNoIds(queue);
  }

  lemma {:induction false} ActionsReduceQueue(
    clvm: Clvm, factories: Factories, ch: Channel, queue: seq<GameAction>, actions: seq<BatchAction>)
    ensures QueueReduced(queue, QueueAfterActions(clvm, factories, ch, queue, actions))
    decreases |actions|
  {
    hide QueueReduced, ApplyActions, FinishedForUs;
    if actions == [] {
      assert QueueReduced(queue, queue) by { SameQueueReduced(queue); }
    } else {
      var last := |actions| - 1;
      var before := QueueAfterActions(clvm, factories, ch, queue, actions[..last]);
      var after := QueueAfterActions(clvm, factories, ch, queue, actions);
      ActionsReduceQueue(clvm, factories, ch, queue, actions[..last]);
      if after != before {
        if actions[last].ProposeGroup? {
          WithoutGroupsReduces(before);
        } else {
          AddedActionReduces(before, QueuedSettlement(actions[last].gameId));
        }
        ReducedTransitive(queue, before, after);
      }
    }
  }

  lemma SameQueueReduced(queue: seq<GameAction>)
    ensures QueueReduced(queue, queue)
  {
  }

  lemma ReceivedQueueReduced(clvm: Clvm, p: Peer, actions: seq<BatchAction>, finish: bool)
    ensures
      var queue := QueueAfterBatch(clvm, p, actions);
      QueueReduced(p.queue, if finish then queue + [QueuedShutdown] else queue)
  {
    hide QueueReduced, QueueAfterActions, HasNewGame;
    var q0 := QueueAfterActions(clvm, p.factories, p.ch, p.queue, actions);
    var q1 := QueueAfterBatch(clvm, p, actions);
    ActionsReduceQueue(clvm, p.factories, p.ch, p.queue, actions);
    if HasNewGame(actions) {
      assert QueueReduced(q0, q1) by { ShutdownReduces(q0); }
      ReducedTransitive(p.queue, q0, q1);
    }
    if finish {
      AddedActionReduces(q1, QueuedShutdown);
      ReducedTransitive(p.queue, q1, q1 + [QueuedShutdown]);
    }
  }

  lemma ShutdownReduces(queue: seq<GameAction>)
    ensures QueueReduced(queue, WithoutShutdown(queue))
  {
    WithoutShutdownKeepsGroups(queue);
  }

  /** The receiver derives the state the sender signed, so both half signatures
      verify: verification never fails between two peers that run this code. */
  lemma SignaturesVerify(sender: Channel, applied: Channel, signatures: StateUpdateSignatures)
    requires Mirror(sender, applied) && SignsCurrent(sender, signatures)
    requires sender.stateNumber == applied.stateNumber + 1
    ensures VerifyReceivedBatch(applied, signatures).Ok?
  {
    hide Mirror, UpdatedUnroll, VerifyUnroll, VerifyChannel, OurChannelHalf, ChannelSpendConditions, UnrollPuzzleHash;
    MirroredUnrolls(sender, applied, sender.stateNumber);
  }

  /** The receiving channel after verifying and reporting its settlements. */
  function AfterVerify(applied: Channel, signatures: StateUpdateSignatures): Channel
    requires VerifyReceivedBatch(applied, signatures).Ok?
  {
    DrainSettlements(VerifyReceivedBatch(applied, signatures).value)
  }

  lemma VerifiedChannel(applied: Channel, signatures: StateUpdateSignatures)
    requires VerifyReceivedBatch(applied, signatures).Ok?
    ensures
      var next := AfterVerify(applied, signatures);
      && next == applied.(
           pending := [], cached := [], stateNumber := applied.stateNumber + 1, havePotato := true,
           latestReceived := next.latestReceived, unrollMap := next.unrollMap)
      && LastCoins(next) == GameCoins(applied.live)
  {
    hide GameCoinsOf, BaseConditions, UnrollPuzzleHash, HistoricalOf, VerifyUnroll, VerifyChannel, OnlySettlements,
         WithoutSettlements;
    OnlySettlementsOk(applied.cached);
    UnrollCreatesGameCoins(applied.latestSent.coin.startedWithPotato, applied.stateNumber + 1, CurrentInputs(applied));
  }

  lemma VerifiedKeepsSound(applied: Channel, next: Channel, ids: seq<nat>)
    requires Sound(applied) && Fresh(applied, ids)
    requires next == applied.(
                       pending := [], cached := [], stateNumber := next.stateNumber, havePotato := next.havePotato,
                       latestReceived := next.latestReceived, unrollMap := next.unrollMap)
    ensures Sound(next) && Fresh(next, ids) && CoinsOk(next, GameCoins(next.live))
    ensures CoinsOfDistinctGames(GameCoins(next.live))
  {
    hide CoinsKnown, CoinsOfDistinctGames, NonceDiscipline;
    assert KnownIds(next) <= KnownIds(applied);
    FewerIdsKeepNonces(applied, next);
    FewerIdsStayFresh(applied, next, ids);
    assert Distinct(KnownIds(next)) by { DistinctOf(next); }
    CurrentCoinsAreKnown(next);
  }

  lemma DistinctOf(ch: Channel)
    requires NonceDiscipline(ch)
    ensures Distinct(KnownIds(ch))
  {
  }

  lemma VerifiedKeepsRecords(applied: Channel, signatures: StateUpdateSignatures)
    requires History(applied) && Alternates(applied) && (!applied.havePotato || applied.stateNumber == 0)
    requires VerifyReceivedBatch(applied, signatures).Ok?
    ensures
      var next := AfterVerify(applied, signatures);
      && History(next) && Alternates(next)
      && (applied.stateNumber > 0 ==> SentParity(next) == SentParity(applied))
  {
    var received := VerifyReceivedBatch(applied, signatures).value;
    ReceiveKeepsHistory(applied, signatures);
    hide ReceivedPotato, VerifyReceivedBatch;
    CachedIsNoRecord(received, WithoutSettlements(received.cached));
  }

  lemma CachedIsNoRecord(ch: Channel, cached: seq<CachedRedo>)
    requires History(ch) && Alternates(ch)
    ensures History(ch.(cached := cached)) && Alternates(ch.(cached := cached))
  {
    RecordsCarryHistory(ch, ch.(cached := cached));
  }

  lemma SameMoney(a: Channel, b: Channel, total: nat)
    requires Money(a, total) && a.live == b.live && a.myOut == b.myOut && a.theirOut == b.theirOut
    requires a.myAllocated == b.myAllocated && a.theirAllocated == b.theirAllocated
    ensures Money(b, total)
  {
  }

  /** `applied` is the receiver's channel after the actions. */
  ghost predicate Delivered(p0: Peer, applied: Channel, total: nat) {
    && PeerOk(p0, total) && !p0.potato.Present?
    && Sound(applied) && Fresh(applied, QueuedIds(p0.queue)) && SameRecords(p0.ch, applied)
    && Money(applied, total)
  }

  lemma FreshWhenReduced(ch: Channel, before: seq<GameAction>, after: seq<GameAction>)
    requires QueueReduced(before, after) && Fresh(ch, QueuedIds(before))
    ensures Fresh(ch, QueuedIds(after))
  {
    hide QueuedIds, KnownIds, GroupsOk;
  }

  lemma ReceivedPeerOk(p0: Peer, applied: Channel, signatures: StateUpdateSignatures, p: Peer, total: nat)
    requires Delivered(p0, applied, total) && VerifyReceivedBatch(applied, signatures).Ok?
    requires QueueReduced(p0.queue, p.queue) && p.initiator == p0.initiator && p.potato.Present?
    requires p.ch == AfterVerify(applied, signatures)
    ensures PeerOk(p, total) && p.ch.stateNumber == p0.ch.stateNumber + 1
  {
    hide Sound, Fresh, AfterVerify, VerifyReceivedBatch, History, Alternates, HasHistorical, Money, CoinsKnown,
         MovedGamesWait, MovedGamesKnown, CoinsOfDistinctGames, QueuedIds, GroupsOk;
    VerifiedChannel(applied, signatures);
    FreshWhenReduced(applied, p0.queue, p.queue);
    VerifiedKeepsSound(applied, p.ch, QueuedIds(p.queue));
    RecordsCarryHistory(p0.ch, applied);
    VerifiedKeepsRecords(applied, signatures);
    SameMoney(applied, p.ch, total);
  }

  lemma ArrivingIsDelivered(clvm: Clvm, s: System, applied: Channel, total: nat)
    requires Inv(clvm, s, total) && s.ba != [] && s.ba[0].Batch?
    requires ApplyBatch(clvm, s.a, s.ba[0].actions) == Ok(applied)
    ensures Delivered(s.a, applied, total + s.lapses.excessA)
    ensures !s.lapses.strayed ==>
              Linked(s.b.ch, applied, QueuedIds(s.b.queue)) && InFlight(clvm, s.b, s.a, s.ba[0])
    ensures WiresOk(s.b.ch, QueuedIds(s.b.queue), s.ba[0].actions)
    ensures Batches(s.ba[1..]) == 0 && Batches(s.ab) == 0
    ensures s.b.pendingShutdown ==> s.ba[0].shutdown.Some?
    ensures !s.a.pendingShutdown && applied.myNextNonce == s.a.ch.myNextNonce
  {
    hide History, Alternates, FlagOk, LogOk, Mirror, CoinsOk, HashesOk, KnownIds, WholeGroups, SignsCurrent,
         ShutdownIsCurrent, ApplyActions, Behind, Vouched, AcceptsVouched, WiresOk, Money, QueuedIds, Linked, PotatoInv;
    var m := s.ba[0];
    TakeBatch(s.a.potato, s.b.potato, s.ab, s.ba);
    ApplyActionsKeep(clvm, s.a.factories, s.a.ch, m.actions, QueuedIds(s.a.queue));
    assert m.actions[..|m.actions|] == m.actions;
    ReceivedKeepsMoney(clvm, s.a.factories, s.a.ch, m.actions, |m.actions|, total + s.lapses.excessA);
  }

  /** The proposals on both sides once a batch has been taken in. */
  lemma ReceivedProposalsOk(clvm: Clvm, s: System, p: Peer, applied: Channel, total: nat)
    requires Inv(clvm, s, total) && s.ba != [] && s.ba[0].Batch?
    requires ApplyActions(clvm, s.a.factories, s.a.ch, s.ba[0].actions) == Ok(applied)
    requires p.ch.proposed == applied.proposed && p.ch.myNextNonce == applied.myNextNonce == s.a.ch.myNextNonce
    requires p.ch.theirNextNonce == applied.theirNextNonce && applied.theirNextNonce % 2 == s.a.ch.theirNextNonce % 2
    requires QueueReduced(s.a.queue, p.queue) && WiresOk(s.b.ch, QueuedIds(s.b.queue), s.ba[0].actions)
    requires Batches(s.ba[1..]) == 0 && Batches(s.ab) == 0
    ensures ProposalsOkBetween(p, s.b, s.ba[1..]) && ProposalsOkBetween(s.b, p, s.ab)
  {
    hide Inv, ApplyActions, QueueReduced, QueuedIds, Vouched, WiresOk, SenderOk, GroupsOk, Behind, Fresh, NonceDiscipline,
         LastCoins, AcceptsVouched;
    var m := s.ba[0];
    var t := Flip(s);
    InvSymmetric(clvm, s, total);
    SideParts(clvm, s, total);
    SideParts(clvm, t, total);
    OtherSideParts(clvm, t, total);
    QueueIsFresh(s.b.ch, total + s.lapses.excessB, LastCoins(s.b.ch), QueuedIds(s.b.queue));
    BehindWhenReduced(s, p, applied);
    ReceivedStaysBehind(clvm, s.a.factories, s.b.ch, QueuedIds(s.b.queue), s.a.ch, m.actions);
    ReceivedStaysVouched(clvm, s.a.factories, s.b.ch, QueuedIds(s.b.queue), s.a.ch, m.actions);
    TakingStaysVouched(clvm, s.a.factories, s.b.ch, s.a.ch, m.actions);
    SameProposalsVouched(applied, p.ch, s.b.ch);
  }

  lemma SameProposalsVouched(a: Channel, b: Channel, other: Channel)
    requires a.proposed == b.proposed && a.myNextNonce == b.myNextNonce
    ensures Vouched(a, other) <==> Vouched(b, other)
    ensures Vouched(other, a) <==> Vouched(other, b)
  {
  }

  lemma ReceiveKeepsInv(clvm: Clvm, s: System, p: Peer, total: nat)
    requires Inv(clvm, s, total) && s.ba != [] && s.ba[0].Batch? && s.ba[0].shutdown.None?
    requires ReceivePotato(clvm, s.a, s.ba[0].actions, s.ba[0].signatures) == Ok(p)
    ensures Inv(clvm, s.(a := p, ba := s.ba[1..]), total)
  {
    hide PeerOk, Delivered, InFlight, RightParity, Mirror, VerifyReceivedBatch, QueueReduced, QueuedIds, WholeGroups,
         NonceDiscipline, HashesOk, ApplyActions, ProposalsOkBetween, WiresOk;
    var m := s.ba[0];
    var applied := ApplyBatch(clvm, s.a, m.actions).value;
    ArrivingIsDelivered(clvm, s, applied, total);
    TakeBatch(s.a.potato, s.b.potato, s.ab, s.ba);
    ReceivedQueueReduced(clvm, s.a, m.actions, HasSettlement(m.actions) && p.ch.theirOut == 0 && p.ch.live == []);
    ReceivedPeerOk(s.a, applied, m.signatures, p, total + s.lapses.excessA);
    VerifiedChannel(applied, m.signatures);
    LogGrows(s.a, p, s.sentByA);
    assert applied.theirNextNonce % 2 == s.a.ch.theirNextNonce % 2 by { DeliveredParity(s.a, applied, total + s.lapses.excessA); }
    ReceivedProposalsOk(clvm, s, p, applied, total);
    if !s.lapses.strayed {
      NumbersMeet(clvm, s, p);
      VerifiedMirrors(s.b.ch, applied, p.ch);
    }
  }

  lemma DeliveredParity(p0: Peer, applied: Channel, total: nat)
    requires Delivered(p0, applied, total)
    ensures applied.theirNextNonce % 2 == p0.ch.theirNextNonce % 2
  {
  }

  lemma LogGrows(p0: Peer, p: Peer, sent: seq<nat>)
    requires LogOk(p0, sent) && p.initiator == p0.initiator && p.ch.stateNumber >= p0.ch.stateNumber
    ensures LogOk(p, sent)
  {
  }

  lemma NumbersMeet(clvm: Clvm, s: System, p: Peer)
    requires s.ba != [] && s.ba[0].Batch? && InFlight(clvm, s.b, s.a, s.ba[0])
    requires p.ch.stateNumber == s.a.ch.stateNumber + 1
    ensures p.ch.stateNumber == s.b.ch.stateNumber
  {
    hide SignsCurrent, ShutdownIsCurrent, Linked, ApplyActions;
  }

  lemma BehindWhenReduced(s: System, p: Peer, applied: Channel)
    requires Behind(s.b.ch.theirNextNonce, s.a.ch, QueuedIds(s.a.queue)) && QueueReduced(s.a.queue, p.queue)
    requires p.ch.myNextNonce == s.a.ch.myNextNonce
    ensures Behind(s.b.ch.theirNextNonce, p.ch, QueuedIds(p.queue))
  {
    hide QueuedIds, GroupsOk;
  }

  lemma VerifiedMirrors(sender: Channel, applied: Channel, next: Channel)
    requires Mirror(sender, applied)
    requires next == applied.(
                       pending := [], cached := [], stateNumber := next.stateNumber, havePotato := next.havePotato,
                       latestReceived := next.latestReceived, unrollMap := next.unrollMap)
    ensures Mirror(next, sender)
  {
    MirrorSymmetric(sender, applied);
    hide MirroredGames, MirroredProposals;
  }
}

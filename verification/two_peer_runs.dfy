/** Whole runs of two peers, and what they guarantee. */
module TwoPeerRuns {
  import opened Wrappers
  import opened Chain
  import opened Referees
  import opened Channels
  import opened ChannelMoney
  import opened ChannelHistory
  import opened ChannelGames
  import opened OffChainPeers
  import opened PeerInvariants
  import opened MirroredViews
  import opened FailedDrains
  import opened VouchedProposals
  import opened Potato
  import opened TwoPeers
  import opened TwoPeerSteps
  import opened TwoPeerBatches

  predicate Open(s: System) { !s.a.closed && !s.b.closed }

  // ---------------------------------------------------------------------------
  // One step
  // ---------------------------------------------------------------------------

  lemma NothingSent(s: System)
    ensures After(s, s.a, []) == s
  {
    assert s.ab + [] == s.ab && s.sentByA + [] == s.sentByA;
  }

  lemma WholeGroupKeepsInv(clvm: Clvm, s: System, id: nat, total: nat)
    requires Inv(clvm, s, total)
    ensures
      var (p, out) := AcceptProposals(s.a, id);
      Inv(clvm, After(s, p, out), total)
    ensures
      var (p, out) := CancelProposals(s.a, id);
      Inv(clvm, After(s, p, out), total)
  {
    hide Inv, DoGameActions;
    NothingSent(s);
    match ProposalPosition(s.a.ch.proposed, id) {
      case None =>
      case Some(i) =>
        var ids := MembersOf(s.a.ch.proposed, s.a.ch.proposed[i].groupId);
        var (mine, theirs) := Contributions(s.a.ch.proposed, s.a.ch.proposed[i].groupId);
        var short := mine > s.a.ch.myOut || theirs > s.a.ch.theirOut;
        ActionsKeepInv(
          clvm, s, ForEach(ids, (gid: nat) => if short then QueuedSilentCancel(gid) else QueuedAccept(gid)), total);
        ActionsKeepInv(clvm, s, ForEach(ids, (gid: nat) => QueuedCancel(gid)), total);
    }
  }

  lemma AskKeepsInv(clvm: Clvm, s: System, r: Request, total: nat)
    requires Inv(clvm, s, total)
    ensures
      var (p, out) := HandleRequest(clvm, s.a, r);
      Inv(clvm, After(s.(lapses := AfterAsking(clvm, s.lapses, s.a, r)), p, out), total)
  {
    hide Inv, ProposeGames, AcceptProposals, CancelProposals, DoGameAction, DrainQueueIntoBatch, AfterDrain;
    NothingSent(s);
    assert s.(lapses := s.lapses) == s;
    match r {
      case Propose(start) => ProposalKeepsInv(clvm, s, start, total);
      case Accept(id) => WholeGroupKeepsInv(clvm, s, id, total);
      case Cancel(id) => WholeGroupKeepsInv(clvm, s, id, total);
      case MakeMove(id, readable, entropy) => ActionKeepsInv(clvm, s, QueuedMove(id, readable, entropy), total);
      case Settle(id) => ActionKeepsInv(clvm, s, QueuedSettlement(id), total);
      case ShutDown => ActionKeepsInv(clvm, s, QueuedShutdown, total);
      case Flush =>
        if s.a.potato.Present? && s.a.queue != [] {
          DrainedKeepsInv(clvm, s, total);
        }
    }
  }

  /** A drain, whether it fails or not. */
  lemma DrainedKeepsInv(clvm: Clvm, s: System, total: nat)
    requires Inv(clvm, s, total) && s.a.potato.Present?
    ensures
      var after := s.(lapses := AfterDrain(clvm, s.lapses, s.a));
      match DrainQueueIntoBatch(clvm, s.a)
      case Ok((p, out)) =>
        && after == s && Inv(clvm, After(s, p, out), total)
        && (out == [] ==> p == s.a.(queue := p.queue)) && (out != [] ==> |out| == 1 && out[0].Batch?)
      case Err(stop) => Inv(clvm, After(after, stop.peer, []), total)
  {
    hide Inv, DrainAll, UpdateCachedUnrollState, Undone, Excess;
    if DrainQueueIntoBatch(clvm, s.a).Ok? {
      DrainKeepsInv(clvm, s, total);
    } else {
      FailedDrainKeepsInv(clvm, s, total);
      var f := DrainAll(clvm, s.a.ch, s.a.queue).error;
      var failed := s.(a := AfterFailedDrain(s.a, f), lapses := AfterDrain(clvm, s.lapses, s.a));
      NothingSent(failed);
    }
  }

  lemma {:induction false} RepliesCarryNoBatch(clvm: Clvm, factories: Factories, ch: Channel, actions: seq<BatchAction>)
    ensures Batches(Replies(clvm, factories, ch, actions)) == 0
    decreases |actions|
  {
    hide ApplyActions, ApplyReceivedMove;
    if actions != [] {
      var last := |actions| - 1;
      RepliesCarryNoBatch(clvm, factories, ch, actions[..last]);
      if ApplyActions(clvm, factories, ch, actions[..last]).Ok? {
        BatchesOfAppend(
          Replies(clvm, factories, ch, actions[..last]),
          ReplyTo(clvm, ApplyActions(clvm, factories, ch, actions[..last]).value, actions[last]));
      }
    }
  }

  lemma UseKeepsInv(clvm: Clvm, s: System, sendBack: bool, total: nat)
    requires Inv(clvm, s, total) && s.a.potato.Present? && UsePotato(clvm, s.a, sendBack).Ok?
    ensures
      var (p, out) := UsePotato(clvm, s.a, sendBack).value;
      Inv(clvm, After(s.(lapses := AfterDrain(clvm, s.lapses, s.a)), p, out), total)
  {
    hide Inv, DrainQueueIntoBatch, SendEmptyPotato, AfterDrain;
    DrainedKeepsInv(clvm, s, total);
    if DrainQueueIntoBatch(clvm, s.a).Ok? {
      var (next, sent) := DrainQueueIntoBatch(clvm, s.a).value;
      if sent == [] {
        assert s.ab + [] == s.ab && s.sentByA + [] == s.sentByA;
        var s1 := s.(a := next);
        assert After(s, next, []) == s1;
        if next.peerWants {
          WantsIsNoMatter(clvm, s1, false, total);
          EmptyPotatoKeepsInv(clvm, s1.(a := next.(peerWants := false)), total);
        } else if sendBack {
          EmptyPotatoKeepsInv(clvm, s1, total);
        }
      }
    }
  }

  lemma WantsIsNoMatter(clvm: Clvm, s: System, wants: bool, total: nat)
    requires Inv(clvm, s, total)
    ensures Inv(clvm, s.(a := s.a.(peerWants := wants)), total)
  {
    hide PotatoInv, AtRest, FlightOk, ProposalsOkBetween, LogOk, Sound, Money, CoinsOk, Fresh, RecordsOk, FlagOk, GroupsOk;
    var q := s.a.(peerWants := wants);
    assert QueueChanged(s.a, q);
    QueueChangeKeepsInv(clvm, s, q, total);
  }

  lemma BatchKeepsInv(clvm: Clvm, s: System, total: nat)
    requires Inv(clvm, s, total) && s.ba != [] && s.ba[0].Batch? && s.ba[0].shutdown.None?
    requires ProcessBatch(clvm, s.a, s.ba[0]).Ok?
    ensures
      var (p, out) := ProcessBatch(clvm, s.a, s.ba[0]).value;
      var received := ReceivePotato(clvm, s.a, s.ba[0].actions, s.ba[0].signatures);
      received.Ok? && Inv(
        clvm, After(s.(ba := s.ba[1..], lapses := AfterDrain(clvm, s.lapses, received.value)), p, out), total)
  {
    hide Inv, ReceivePotato, UsePotato, Replies, AfterDrain;
    var m := s.ba[0];
    var received := ReceivePotato(clvm, s.a, m.actions, m.signatures).value;
    var replies := Replies(clvm, s.a.factories, s.a.ch, m.actions);
    var s1 := s.(a := received, ba := s.ba[1..]);
    ReceiveKeepsInv(clvm, s, received, total);
    RepliesCarryNoBatch(clvm, s.a.factories, s.a.ch, m.actions);
    OtherMessagesKeepInv(clvm, s1, replies, total);
    assert received.potato.Present? by { ReceivedHoldsPotato(clvm, s.a, m.actions, m.signatures); }
    var s2 := s1.(ab := s1.ab + replies);
    var (p, out) := UsePotato(clvm, received, HasSettlement(m.actions)).value;
    UseKeepsInv(clvm, s2, HasSettlement(m.actions), total);
    BatchesOfAppend(replies, out);
    assert s.ab + replies + out == s.ab + (replies + out);
  }

  lemma ReceivedHoldsPotato(clvm: Clvm, p: Peer, actions: seq<BatchAction>, signatures: StateUpdateSignatures)
    requires ReceivePotato(clvm, p, actions, signatures).Ok?
    ensures ReceivePotato(clvm, p, actions, signatures).value.potato.Present?
  {
    hide ApplyBatch, QueueAfterBatch, VerifyReceivedBatch;
  }

  lemma RequestedKeepsInv(clvm: Clvm, s: System, total: nat)
    requires Inv(clvm, s, total) && s.ba != [] && s.ba[0].RequestPotato? && !s.a.pendingShutdown
    ensures
      var (p, out) := ProcessMessage(clvm, s.a, s.ba[0]).value;
      Inv(clvm, After(s.(ba := s.ba[1..]), p, out), total)
  {
    hide Inv, SendEmptyPotato;
    if s.a.potato.Present? {
      var asker := s.a.(peerWants := false);
      var (p, out) := SendEmptyPotato(asker);
      WantsIsNoMatter(clvm, s, false, total);
      EmptyPotatoKeepsInv(clvm, s.(a := asker), total);
      assert p.potato.Absent? by { EmptyGivesAway(asker); }
      TakeOtherKeepsInv(clvm, After(s, p, out), total);
    } else {
      TakeOtherKeepsInv(clvm, s, total);
      var s1 := s.(ba := s.ba[1..]);
      WantsIsNoMatter(clvm, s1, true, total);
      NothingSent(s1.(a := s.a.(peerWants := true)));
    }
  }

  lemma EmptyGivesAway(p: Peer)
    ensures SendEmptyPotato(p).0.potato.Absent?
  {
  }

  lemma PendingHoldsNoPotato(clvm: Clvm, s: System, total: nat)
    requires Inv(clvm, s, total) && s.a.pendingShutdown
    ensures !s.a.potato.Present?
  {
    hide PeerOk, InFlight, Behind, LogOk, AtRest;
  }

  lemma ShutdownCloses(clvm: Clvm, p: Peer, m: PeerMessage)
    requires m.Batch? && m.shutdown.Some? && ProcessBatch(clvm, p, m).Ok?
    ensures
      var (next, out) := ProcessBatch(clvm, p, m).value;
      next.closed && next.potato.Present? && Batches(out) == 0
  {
    hide ApplyBatch, Replies;
    var replies := Replies(clvm, p.factories, p.ch, m.actions);
    RepliesCarryNoBatch(clvm, p.factories, p.ch, m.actions);
    var ch := ApplyBatch(clvm, p, m.actions).value;
    BatchesOfAppend(replies, CloseCleanly(p, ch, m.shutdown.value).value.1);
  }

  lemma DeliverKeepsInv(clvm: Clvm, s: System, total: nat)
    requires Inv(clvm, s, total) && s.ba != [] && ProcessMessage(clvm, s.a, s.ba[0]).Ok?
    ensures
      var (p, out) := ProcessMessage(clvm, s.a, s.ba[0]).value;
      !p.closed ==>
        Inv(clvm, After(s.(ba := s.ba[1..], lapses := AfterDelivery(clvm, s.lapses, s.a, s.ba[0])), p, out), total)
  {
    hide Inv, ProcessBatch, SendEmptyPotato, AfterDrain, ReceivePotato;
    var m := s.ba[0];
    NothingSent(s.(ba := s.ba[1..]));
    assert s.(ba := s.ba[1..], lapses := s.lapses) == s.(ba := s.ba[1..]);
    if s.a.pendingShutdown {
      PendingHoldsNoPotato(clvm, s, total);
      if m.RequestPotato? {
        TakeOtherKeepsInv(clvm, s, total);
      }
    } else {
      match m {
        case RequestPotato => RequestedKeepsInv(clvm, s, total);
        case Batch(_, _, _) =>
          if m.shutdown.None? {
            BatchKeepsInv(clvm, s, total);
          } else {
            ShutdownCloses(clvm, s.a, m);
          }
        case GameMessage(_, _) => TakeOtherKeepsInv(clvm, s, total);
        case CleanShutdownComplete => TakeOtherKeepsInv(clvm, s, total);
      }
    }
  }

  // ---------------------------------------------------------------------------
  // Whole runs
  // ---------------------------------------------------------------------------

  /** Holds in every state of every run; once a side has closed nothing more
      happens, and the potato is still the only one. */
  ghost predicate Safe(clvm: Clvm, s: System, total: nat) {
    && OnePotato(s.a.potato, s.b.potato, s.ab, s.ba)
    && (Open(s) ==> Inv(clvm, s, total))
  }

  lemma SafeSymmetric(clvm: Clvm, s: System, total: nat)
    ensures Safe(clvm, s, total) <==> Safe(clvm, Flip(s), total)
  {
    hide Inv;
    InvSymmetric(clvm, s, total);
  }

  lemma ClosingKeepsOnePotato(clvm: Clvm, s: System, total: nat)
    requires Inv(clvm, s, total) && s.ba != [] && ProcessMessage(clvm, s.a, s.ba[0]).Ok?
    requires !s.a.closed && ProcessMessage(clvm, s.a, s.ba[0]).value.0.closed
    ensures
      var (p, out) := ProcessMessage(clvm, s.a, s.ba[0]).value;
      OnePotato(p.potato, s.b.potato, s.ab + out, s.ba[1..])
  {
    hide SideOk, AtRest, ProcessBatch, UpdateCachedUnrollState;
    var (p, out) := ProcessMessage(clvm, s.a, s.ba[0]).value;
    BatchesOfAppend(s.ab, out);
    if s.ba[0].Batch? {
      TakeBatch(s.a.potato, s.b.potato, s.ab, s.ba);
      if s.ba[0].shutdown.Some? {
        ShutdownCloses(clvm, s.a, s.ba[0]);
      } else {
        OrdinaryBatchLeavesOpen(clvm, s.a, s.ba[0]);
      }
    }
  }

  lemma OrdinaryBatchLeavesOpen(clvm: Clvm, p: Peer, m: PeerMessage)
    requires m.Batch? && m.shutdown.None? && ProcessBatch(clvm, p, m).Ok? && !p.closed
    ensures !ProcessBatch(clvm, p, m).value.0.closed
  {
    hide ApplyBatch, DrainAll, VerifyReceivedBatch, QueueAfterBatch, Replies;
  }

  lemma StepAKeepsSafe(clvm: Clvm, s: System, e: Event, total: nat)
    requires Safe(clvm, s, total) && StepA(clvm, s, e).Some?
    ensures Safe(clvm, StepA(clvm, s, e).value, total)
  {
    hide Inv, ProcessMessage, HandleRequest, OnePotato;
    var next := StepA(clvm, s, e).value;
    match e {
      case Ask(r) =>
        AskKeepsInv(clvm, s, r, total);
        InvHasOnePotato(clvm, next, total);
      case Deliver =>
        DeliverKeepsInv(clvm, s, total);
        if ProcessMessage(clvm, s.a, s.ba[0]).value.0.closed {
          ClosingKeepsOnePotato(clvm, s, total);
        } else {
          InvHasOnePotato(clvm, next, total);
        }
    }
  }

  lemma StepKeepsSafe(clvm: Clvm, s: System, e: SidedEvent, total: nat)
    requires Safe(clvm, s, total) && Step(clvm, s, e).Some?
    ensures Safe(clvm, Step(clvm, s, e).value, total)
  {
    hide Safe, StepA;
    match e {
      case OnA(event) => StepAKeepsSafe(clvm, s, event, total);
      case OnB(event) =>
        SafeSymmetric(clvm, s, total);
        StepAKeepsSafe(clvm, Flip(s), event, total);
        SafeSymmetric(clvm, StepA(clvm, Flip(s), event).value, total);
    }
  }

  lemma {:induction false} RunKeepsSafe(clvm: Clvm, s: System, events: seq<SidedEvent>, total: nat)
    requires Safe(clvm, s, total) && Run(clvm, s, events).Some?
    ensures Safe(clvm, Run(clvm, s, events).value, total)
    decreases |events|
  {
    hide Safe, Step;
    if events != [] {
      StepKeepsSafe(clvm, s, events[0], total);
      RunKeepsSafe(clvm, Step(clvm, s, events[0]).value, events[1..], total);
    }
  }

  /** What a channel is set up with. */
  datatype Setup = Setup(
    idA: ChannelIdentity, idB: ChannelIdentity, contributionA: nat, contributionB: nat,
    factoriesA: Factories, factoriesB: Factories)
  {
    function Total(): nat { contributionA + contributionB }

    function First(): Result<System, ChannelError> {
      Start(idA, idB, contributionA, contributionB, factoriesA, factoriesB)
    }
  }

  /** `s` is the end of a run from the handshake, seen from either side. */
  ghost predicate Reached(clvm: Clvm, setup: Setup, events: seq<SidedEvent>, s: System) {
    && MirroredIdentity(setup.idA, setup.idB)
    && setup.First().Ok?
    && var end := Run(clvm, setup.First().value, events);
    end.Some? && (s == end.value || s == Flip(end.value))
  }

  lemma ReachedIsSafe(clvm: Clvm, setup: Setup, events: seq<SidedEvent>, s: System)
    requires Reached(clvm, setup, events, s)
    ensures Safe(clvm, s, setup.Total())
  {
    hide Run, Inv, MirroredIdentity, Start;
    var start := setup.First().value;
    StartKeepsInv(
      clvm, setup.idA, setup.idB, setup.contributionA, setup.contributionB, setup.factoriesA, setup.factoriesB);
    assert Safe(clvm, start, setup.Total()) by { InvHasOnePotato(clvm, start, setup.Total()); }
    RunKeepsSafe(clvm, start, events, setup.Total());
    SafeSymmetric(clvm, Run(clvm, start, events).value, setup.Total());
  }

  lemma InvHasOnePotato(clvm: Clvm, s: System, total: nat)
    requires Inv(clvm, s, total)
    ensures OnePotato(s.a.potato, s.b.potato, s.ab, s.ba)
  {
    hide SideOk, AtRest;
  }

  // ---------------------------------------------------------------------------
  // What every run guarantees
  // ---------------------------------------------------------------------------

  /** There is always exactly one potato, so a batch never reaches a peer that
      holds it: the double-potato error does not happen. */
  lemma OnePotatoAlways(clvm: Clvm, setup: Setup, events: seq<SidedEvent>, s: System)
    requires Reached(clvm, setup, events, s)
    ensures Held(s.a.potato) + Held(s.b.potato) + Batches(s.ab) + Batches(s.ba) == 1
    ensures Open(s) && s.ba != [] && s.ba[0].Batch? ==> !s.a.potato.Present? && !s.a.pendingShutdown
  {
    hide Reached, PeerOk, InFlight, Behind, LogOk, AtRest;
    ReachedIsSafe(clvm, setup, events, s);
  }

  /** A peer that has asked for the potato has it coming, or its request is
      still queued behind everything it sent; so the two never wait for each
      other with both queues empty. */
  lemma RequestIsNeverLost(clvm: Clvm, setup: Setup, events: seq<SidedEvent>, s: System)
    requires Reached(clvm, setup, events, s) && Open(s) && s.a.potato.Requested?
    ensures Batches(s.ba) >= 1 || Asked(s.ab)
    ensures s.ab != [] || s.ba != []
  {
    hide Reached, SideOk, AtRest;
    ReachedIsSafe(clvm, setup, events, s);
  }

  function Deliveries(n: nat): (r: seq<SidedEvent>)
    ensures |r| == n
  {
    seq(n, i => OnB(Deliver))
  }

  lemma DeliveryToB(clvm: Clvm, s: System)
    requires Step(clvm, s, OnB(Deliver)).Some?
    ensures
      var next := Step(clvm, s, OnB(Deliver)).value;
      s.ab != [] && next.a == s.a && next.ab == s.ab[1..]
  {
    hide ProcessMessage;
  }

  lemma {:induction false} DeliveriesEmptyQueue(clvm: Clvm, s: System, n: nat)
    requires Run(clvm, s, Deliveries(n)).Some? && n <= |s.ab|
    ensures
      var end := Run(clvm, s, Deliveries(n)).value;
      end.a == s.a && end.ab == s.ab[n..]
    decreases n
  {
    hide Step;
    if n > 0 {
      DeliveryToB(clvm, s);
      assert Deliveries(n)[1..] == Deliveries(n - 1);
      DeliveriesEmptyQueue(clvm, Step(clvm, s, OnB(Deliver)).value, n - 1);
    }
  }

  /** Progress: once the other side has worked through what is on its way to it,
      the potato is on its way to the peer that asked. */
  lemma RequestIsAnswered(clvm: Clvm, setup: Setup, events: seq<SidedEvent>, s: System, end: System)
    requires Reached(clvm, setup, events, s) && Open(s) && s.a.potato.Requested?
    requires Run(clvm, s, Deliveries(|s.ab|)) == Some(end) && Open(end)
    ensures end.a == s.a && Batches(end.ba) == 1
  {
    hide Reached, SideOk, AtRest, Run;
    ReachedIsSafe(clvm, setup, events, s);
    RunKeepsSafe(clvm, s, Deliveries(|s.ab|), setup.Total());
    DeliveriesEmptyQueue(clvm, s, |s.ab|);
    assert s.ab[|s.ab|..] == [];
  }

  /** With no batch on its way both sides see the same channel, each from its
      own end, and would sign the same next state, unless a failed drain has led
      the views astray; FailedDrainMirrorsViewsIff says when one does. */
  lemma ViewsAreMirrored(clvm: Clvm, setup: Setup, events: seq<SidedEvent>, s: System)
    requires Reached(clvm, setup, events, s) && Open(s) && Batches(s.ab) + Batches(s.ba) == 0
    requires !s.lapses.strayed
    ensures s.a.ch.stateNumber == s.b.ch.stateNumber
    ensures s.a.ch.myOut == s.b.ch.theirOut && s.a.ch.theirOut == s.b.ch.myOut
    ensures s.a.ch.myAllocated == s.b.ch.theirAllocated && s.a.ch.theirAllocated == s.b.ch.myAllocated
    ensures |s.a.ch.live| == |s.b.ch.live|
    ensures forall i :: 0 <= i < |s.a.ch.live| ==>
              && s.a.ch.live[i].gameId == s.b.ch.live[i].gameId
              && s.a.ch.live[i].lastPh == s.b.ch.live[i].lastPh
              && s.a.ch.live[i].Amount() == s.b.ch.live[i].Amount()
              && Agree(s.a.ch.live[i].referee, s.b.ch.live[i].referee)
    ensures
      var number := s.a.ch.stateNumber + 1;
      var coinA := UpdatedUnroll(s.a.ch.id, s.a.ch.latestSent.coin.startedWithPotato, number, CurrentInputs(s.a.ch));
      var coinB := UpdatedUnroll(s.b.ch.id, s.b.ch.latestSent.coin.startedWithPotato, number, CurrentInputs(s.b.ch));
      && coinA.outcome.baseConditions == coinB.outcome.baseConditions
      && UnrollPuzzleHash(s.a.ch.id, coinA) == UnrollPuzzleHash(s.b.ch.id, coinB)
  {
    hide Reached, Inv, OnePotato, UpdatedUnroll, UnrollPuzzleHash, CurrentInputs, Agree, Mirror;
    ReachedIsSafe(clvm, setup, events, s);
    RestIsMirrored(clvm, s, setup.Total());
    MirrorMeans(s.a.ch, s.b.ch);
  }

  lemma RestIsMirrored(clvm: Clvm, s: System, total: nat)
    requires Inv(clvm, s, total) && Batches(s.ab) + Batches(s.ba) == 0 && !s.lapses.strayed
    ensures Mirror(s.a.ch, s.b.ch) && s.a.ch.stateNumber == s.b.ch.stateNumber
  {
    hide SideOk, PotatoInv, Mirror, Behind, QueuedIds;
  }

  /** There are runs: every pair of sides whose keys differ starts one. */
  lemma StartIsReached(clvm: Clvm, setup: Setup)
    requires MirroredIdentity(setup.idA, setup.idB) && setup.idA.unrollTimeout > 0
    requires setup.idA.myChannelKey != setup.idB.myChannelKey && setup.idA.myUnrollKey != setup.idB.myUnrollKey
    ensures setup.First().Ok? && Reached(clvm, setup, [], setup.First().value)
  {
    hide Start, MirroredIdentity;
    StartSucceedsIff(
      setup.idA, setup.idB, setup.contributionA, setup.contributionB, setup.factoriesA, setup.factoriesB);
  }

  lemma MirrorMeans(a: Channel, b: Channel)
    requires Mirror(a, b)
    ensures a.myOut == b.theirOut && a.theirOut == b.myOut
    ensures a.myAllocated == b.theirAllocated && a.theirAllocated == b.myAllocated
    ensures |a.live| == |b.live|
    ensures forall i :: 0 <= i < |a.live| ==>
              && a.live[i].gameId == b.live[i].gameId && a.live[i].lastPh == b.live[i].lastPh
              && a.live[i].Amount() == b.live[i].Amount() && Agree(a.live[i].referee, b.live[i].referee)
    ensures forall number ::
              var coinA := UpdatedUnroll(a.id, a.latestSent.coin.startedWithPotato, number, CurrentInputs(a));
              var coinB := UpdatedUnroll(b.id, b.latestSent.coin.startedWithPotato, number, CurrentInputs(b));
              && coinA.outcome.baseConditions == coinB.outcome.baseConditions
              && UnrollPuzzleHash(a.id, coinA) == UnrollPuzzleHash(b.id, coinB)
  {
    hide UpdatedUnroll, UnrollPuzzleHash, VerifyUnroll, VerifyChannel, Agree, MirroredProposals, MirroredIdentity;
    forall number: nat {
      MirroredUnrolls(a, b, number);
    }
    MirroredAmounts(a.live, b.live);
  }

  lemma MirroredAmounts(a: seq<LiveGame>, b: seq<LiveGame>)
    requires MirroredGames(a, b)
    ensures forall i :: 0 <= i < |a| ==>
              && a[i].gameId == b[i].gameId && a[i].lastPh == b[i].lastPh && a[i].Amount() == b[i].Amount()
              && Agree(a[i].referee, b[i].referee)
  {
    forall i | 0 <= i < |a|
      ensures MirroredGame(a[i], b[i])
    {
    }
  }

  /** A batch whose actions apply always verifies: the receiver stores the very
      state the sender signed, or closes with the payout the sender signed. */
  lemma AppliedBatchesAreAccepted(clvm: Clvm, setup: Setup, events: seq<SidedEvent>, s: System)
    requires Reached(clvm, setup, events, s) && Open(s) && s.ba != [] && s.ba[0].Batch? && !s.lapses.strayed
    requires ApplyBatch(clvm, s.a, s.ba[0].actions).Ok?
    ensures
      var m := s.ba[0];
      var applied := ApplyBatch(clvm, s.a, m.actions).value;
      if m.shutdown.None? then
        && ReceivePotato(clvm, s.a, m.actions, m.signatures).Ok?
        && var received := ReceivePotato(clvm, s.a, m.actions, m.signatures).value;
        && received.ch.latestReceived.Some?
        && received.ch.latestReceived.value.coin.outcome.baseConditions == s.b.ch.latestSent.coin.outcome.baseConditions
        && received.ch.stateNumber == s.b.ch.stateNumber
      else
        && CloseCleanly(s.a, applied, m.shutdown.value).Ok?
        && multiset(m.shutdown.value.conditions) == multiset(ShutdownConditions(applied))
  {
    ReachedIsSafe(clvm, setup, events, s);
    var m := s.ba[0];
    var applied := ApplyBatch(clvm, s.a, m.actions).value;
    ArrivingIsDelivered(clvm, s, applied, setup.Total());
    hide Reached, Inv, OnePotato, ApplyBatch, ApplyActions, PeerOk, Sound, Fresh, Mirror, VerifyReceivedBatch,
         Behind, QueuedIds, QueueAfterBatch, Money, SignsCurrent, ShutdownIsCurrent, CloseCleanly, ShutdownConditions,
         Delivered, WiresOk;
    if m.shutdown.None? {
      SameUnrollReceived(s.b.ch, applied, m.signatures);
    } else {
      ShutdownAccepted(s.b.ch, s.a, applied, m.shutdown.value);
    }
  }

  lemma ShutdownAccepted(sender: Channel, p: Peer, applied: Channel, shutdown: Shutdown)
    requires Mirror(sender, applied) && ShutdownIsCurrent(sender, shutdown)
    ensures CloseCleanly(p, applied, shutdown).Ok?
    ensures multiset(shutdown.conditions) == multiset(ShutdownConditions(applied))
  {
    hide ShutdownConditions, OurChannelHalf, VerifyChannel, MirroredIdentity, MirroredProposals;
    MirroredShutdown(sender, applied);
  }

  lemma SameUnrollReceived(sender: Channel, applied: Channel, signatures: StateUpdateSignatures)
    requires Mirror(sender, applied) && SignsCurrent(sender, signatures)
    requires sender.stateNumber == applied.stateNumber + 1
    ensures VerifyReceivedBatch(applied, signatures).Ok?
    ensures
      var next := VerifyReceivedBatch(applied, signatures).value;
      && next.latestReceived.Some? && next.stateNumber == sender.stateNumber
      && next.latestReceived.value.coin.outcome.baseConditions == sender.latestSent.coin.outcome.baseConditions
  {
    SignaturesVerify(sender, applied, signatures);
    hide Mirror, UpdatedUnroll, VerifyUnroll, VerifyChannel, OurChannelHalf, ChannelSpendConditions, UnrollPuzzleHash;
    MirroredUnrolls(sender, applied, sender.stateNumber);
  }

  /** The channel amount is conserved on each side, but for what failed drains
      of that side have overpaid; and each allocated balance is the sum of that
      side's stakes in the live games. */
  lemma MoneyIsConserved(clvm: Clvm, setup: Setup, events: seq<SidedEvent>, s: System)
    requires Reached(clvm, setup, events, s) && Open(s)
    ensures Money(s.a.ch, setup.Total() + s.lapses.excessA)
    ensures s.a.ch.myOut + s.a.ch.theirOut + s.a.ch.myAllocated + s.a.ch.theirAllocated
            == setup.Total() + s.lapses.excessA
    ensures s.lapses.excessA > 0 ==> s.lapses.strayed
  {
    hide Reached, Sound, CoinsOk, Fresh, RecordsOk, GroupsOk, FlagOk, LogOk, FlightOk, ProposalsOkBetween;
    ReachedIsSafe(clvm, setup, events, s);
  }

  // --- Drains that fail ---------------------------------------------------------------

  /** The system at the moment a step drains the queue of its first side. */
  lemma BeforeDrain(clvm: Clvm, s: System, e: Event, total: nat)
    requires Inv(clvm, s, total) && StepA(clvm, s, e).Some? && DrainOf(clvm, s, e).Some?
    ensures
      var p := DrainOf(clvm, s, e).value;
      && p.potato.Present? && (e.Deliver? ==> s.ba != [])
      && Inv(clvm, s.(a := p, ba := if e.Deliver? then s.ba[1..] else s.ba), total)
      && (DrainAll(clvm, p.ch, p.queue).Err? ==>
            var next := StepA(clvm, s, e).value;
            && next.a == AfterFailedDrain(p, DrainAll(clvm, p.ch, p.queue).error) && next.b == s.b
            && next.lapses == AfterDrain(clvm, s.lapses, p))
  {
    hide Inv, DrainAll, AfterDrain, ReceivePotato, Replies;
    if e.Deliver? {
      var m := s.ba[0];
      ReceivedHoldsPotato(clvm, s.a, m.actions, m.signatures);
      ReceiveKeepsInv(clvm, s, DrainOf(clvm, s, e).value, total);
    }
  }

  /** When a drain fails in a run whose views mirrored each other, they do so
      afterwards exactly when what it carried out was undone in the same drain,
      which the channel and the queue it found decide. */
  lemma FailedDrainMirrorsViewsIff(clvm: Clvm, setup: Setup, events: seq<SidedEvent>, s: System, e: Event)
    requires Reached(clvm, setup, events, s) && Open(s) && !s.lapses.strayed
    requires StepA(clvm, s, e).Some? && DrainOf(clvm, s, e).Some?
    requires
      var p := DrainOf(clvm, s, e).value;
      DrainAll(clvm, p.ch, p.queue).Err?
    ensures
      var p := DrainOf(clvm, s, e).value;
      var next := StepA(clvm, s, e).value;
      && (Mirror(next.a.ch, next.b.ch) <==> Undone(p.ch, DrainAll(clvm, p.ch, p.queue).error))
      && (next.lapses.strayed <==> !Mirror(next.a.ch, next.b.ch))
  {
    hide Reached, Inv, OnePotato, DrainAll, StepA, DrainOf, Undone, Mirror, Linked, Excess;
    ReachedIsSafe(clvm, setup, events, s);
    var total := setup.Total();
    var p := DrainOf(clvm, s, e).value;
    BeforeDrain(clvm, s, e, total);
    var s1 := s.(a := p, ba := if e.Deliver? then s.ba[1..] else s.ba);
    RestIsLinked(clvm, s1, total);
    SideParts(clvm, s1, total);
    FailedDrainMirrorsIff(clvm, p.ch, p.queue, s.b.ch, total + s.lapses.excessA, LastCoins(p.ch));
  }

  /** Money at the same moment: conserved exactly when the failing item did not
      pay out more than its game held. */
  lemma FailedDrainConservesIff(clvm: Clvm, setup: Setup, events: seq<SidedEvent>, s: System, e: Event)
    requires Reached(clvm, setup, events, s) && Open(s)
    requires StepA(clvm, s, e).Some? && DrainOf(clvm, s, e).Some?
    requires
      var p := DrainOf(clvm, s, e).value;
      DrainAll(clvm, p.ch, p.queue).Err?
    ensures
      var p := DrainOf(clvm, s, e).value;
      var next := StepA(clvm, s, e).value;
      && (Money(next.a.ch, setup.Total() + s.lapses.excessA) <==> !Overpays(DrainAll(clvm, p.ch, p.queue).error))
      && (SharesFit(p.ch) ==> next.lapses.excessA == s.lapses.excessA)
  {
    hide Reached, Inv, OnePotato, DrainAll, StepA, DrainOf, Undone, Overpays, Money, SharesFit, Excess;
    ReachedIsSafe(clvm, setup, events, s);
    var total := setup.Total();
    var p := DrainOf(clvm, s, e).value;
    BeforeDrain(clvm, s, e, total);
    var s1 := s.(a := p, ba := if e.Deliver? then s.ba[1..] else s.ba);
    SideParts(clvm, s1, total);
    FailedDrainKeepsMoneyIff(clvm, p.ch, p.queue, total + s.lapses.excessA, LastCoins(p.ch));
    if SharesFit(p.ch) {
      FittingSharesNeverOverpay(clvm, p.ch, p.queue, total + s.lapses.excessA, LastCoins(p.ch));
      NothingOver(DrainAll(clvm, p.ch, p.queue).error);
    }
  }

  /** The run goes on from such a state: an accepted game followed by a
      settlement that is not ours to make leaves the accepted game live on our
      side alone, with the potato still ours. */
  lemma RunGoesOnAstray(
    clvm: Clvm, setup: Setup, events: seq<SidedEvent>, s: System, accepted: nat, unknown: nat)
    requires Reached(clvm, setup, events, s) && Open(s) && !s.lapses.strayed && s.a.potato.Present?
    requires s.a.queue == [QueuedAccept(accepted), QueuedSettlement(unknown)] && unknown != accepted
    requires !s.a.ch.IsOurNonce(accepted) && SendAcceptProposal(s.a.ch, accepted).Ok?
    requires LivePosition(s.a.ch.live, unknown).None?
    ensures
      var step := StepA(clvm, s, Ask(Flush));
      && step.Some? && Open(step.value) && step.value.lapses.strayed
      && step.value.a.potato.Present? && step.value.a.queue == [] && step.value.ab == s.ab
      && |step.value.a.ch.live| == |step.value.b.ch.live| + 1
  {
    hide Reached, Inv, OnePotato, Mirror, Undone, Excess, DrainAll, StepA, SendAcceptProposal, LivePosition, Linked;
    FailedDrainStrays(clvm, s.a.ch, accepted, unknown);
    ReachedIsSafe(clvm, setup, events, s);
    RestIsLinked(clvm, s, setup.Total());
    SameNumberOfGames(s.a.ch, s.b.ch);
    FlushFails(clvm, s);
  }

  lemma FlushFails(clvm: Clvm, s: System)
    requires Open(s) && s.a.potato.Present? && s.a.queue != [] && DrainAll(clvm, s.a.ch, s.a.queue).Err?
    ensures
      var f := DrainAll(clvm, s.a.ch, s.a.queue).error;
      StepA(clvm, s, Ask(Flush))
      == Some(s.(
        a := AfterFailedDrain(s.a, f),
        lapses := Lapses(s.lapses.strayed || !Undone(s.a.ch, f), s.lapses.excessA + Excess(f), s.lapses.excessB)))
  {
    hide DrainAll, Undone, Excess;
    assert s.ab + [] == s.ab && s.sentByA + [] == s.sentByA;
  }

  lemma SameNumberOfGames(a: Channel, b: Channel)
    requires Mirror(a, b)
    ensures |a.live| == |b.live|
  {
  }

  lemma SentNumbers(clvm: Clvm, s: System, total: nat)
    requires Inv(clvm, s, total)
    ensures History(s.a.ch) && Alternates(s.a.ch)
    ensures forall i :: 0 <= i < |s.sentByA| ==>
              && 1 <= s.sentByA[i] <= s.a.ch.stateNumber
              && s.sentByA[i] % 2 == SentParity(s.a.ch)
              && HasHistorical(s.a.ch, s.sentByA[i])
  {
    hide SenderOk, GroupsOk, FlightOk, Behind, AtRest, PotatoInv, Alternates;
  }

  /** Every state a side has sent and that is no longer current can be
      preempted, whatever happened in between. */
  lemma StaleUnrollsArePreempted(
    clvm: Clvm, setup: Setup, events: seq<SidedEvent>, s: System, i: nat, amount: nat)
    requires Reached(clvm, setup, events, s) && Open(s)
    requires i < |s.sentByA| && s.sentByA[i] < s.a.ch.stateNumber
    ensures
      var number := s.sentByA[i];
      var source := PreemptionSource(s.a.ch, number);
      && source.Some?
      && source.value.coin.stateNumber > number
      && source.value.coin.stateNumber % 2 != number % 2
      && VerifyUnroll(s.a.ch.id, source.value.coin, source.value.signatures.unrollHalf)
      && HasHistorical(s.a.ch, number)
      && var hash := HistoricalFor(s.a.ch, number).conditionsHash;
      var spent := ChannelCoinSpent(s.a.ch, false, [CreateCoin(UnrollPh(s.a.ch.id.UnrollKey(), number, hash), amount)]);
      && spent.Ok? && !spent.value.timeout && spent.value.solution == source.value.coin.outcome.baseConditions
  {
    ReachedIsSafe(clvm, setup, events, s);
    SentNumbers(clvm, s, setup.Total());
    hide Reached, Inv, History, Alternates, OnePotato, VerifyUnroll, PreemptionSource, ChannelCoinSpent, HistoricalFor;
    StaleSentUnrollIsPreempted(s.a.ch, s.sentByA[i], amount);
  }

  /** Between peers that run this code no state up to the current one is ever
      unrecoverable, and each resolves from its own puzzle hash. */
  lemma NoStateIsUnrecoverable(
    clvm: Clvm, setup: Setup, events: seq<SidedEvent>, s: System, conditions: seq<Condition>, number: nat, amount: nat)
    requires Reached(clvm, setup, events, s) && Open(s) && number <= s.a.ch.stateNumber
    ensures !ClassifyUnroll(s.a.ch, conditions, number).Unrecoverable?
    ensures HasHistorical(s.a.ch, number)
    ensures
      var hash := HistoricalFor(s.a.ch, number).conditionsHash;
      ResolveUnroll(s.a.ch, [CreateCoin(UnrollPh(s.a.ch.id.UnrollKey(), number, hash), amount)]) == Ok((number, hash))
  {
    ReachedIsSafe(clvm, setup, events, s);
    hide Reached, SenderOk, GroupsOk, FlightOk, Behind, ClassifyUnroll, HistoricalFor;
    assert History(s.a.ch);
    UnrecoverableIff(s.a.ch, conditions, number);
    EveryStateResolves(s.a.ch, number, amount);
  }

  /** The coins of the last unroll received lead back to their games, each to
      its own, at every point until the next unroll is received. */
  lemma UnrollCoinsFindTheirGames(
    clvm: Clvm, setup: Setup, events: seq<SidedEvent>, s: System, unroll: CoinID)
    requires Reached(clvm, setup, events, s) && Open(s)
    ensures
      var coins := LastCoins(s.a.ch);
      var found := SetStateForCoins(s.a.ch, unroll, coins);
      && (forall i :: 0 <= i < |coins| ==> FoundItsGame(found, unroll, coins[i].0, coins[i].1))
      && InjectiveByGame(found)
  {
    ReachedIsSafe(clvm, setup, events, s);
    hide Reached, History, Alternates, GroupsOk, FlightOk, Behind, SetStateForCoins, FoundItsGame, InjectiveByGame;
    DistinctOf(s.a.ch);
    KnownCoinsFindTheirGames(s.a.ch, unroll, LastCoins(s.a.ch));
    CoinsMatchDistinctGames(s.a.ch, unroll, LastCoins(s.a.ch));
  }
}

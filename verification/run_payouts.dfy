/** Who would be paid what in every state that a run of two peers reaches. */
module RunPayouts {
  import opened Wrappers
  import opened Chain
  import opened Referees
  import opened Channels
  import opened ChannelMoney
  import opened ChannelPayouts
  import opened ChannelReferees
  import opened OffChainPeers
  import opened MirroredViews
  import opened FailedDrains
  import opened VouchedProposals
  import opened PeerInvariants
  import opened Potato
  import opened TwoPeers
  import opened TwoPeerBatches
  import opened TwoPeerRuns
  import opened UnrollTurns
  import OnChainGames
  import opened OnChainTurns

  // ---------------------------------------------------------------------------
  // What each side keeps
  // ---------------------------------------------------------------------------

  predicate PaysWithin(conditions: seq<Condition>, least: nat, most: nat) { least <= PaidInAll(conditions) <= most }

  predicate WaitsAndPays(id: ChannelIdentity, conditions: seq<Condition>, least: nat, most: nat) {
    && conditions != [] && conditions[0] == AssertHeightRelative(id.unrollTimeout)
    && PaysWithin(conditions, least, most)
  }

  /** Every state ever signed or taken in pays out between `least` and `most`;
      spent by timeout, after the unroll timeout. */
  ghost predicate StatesPay(ch: Channel, least: nat, most: nat) {
    && ch.id.unrollTimeout > 0
    && PaysWithin(ch.latestSent.coin.outcome.baseConditions, least, most)
    && (ch.latestReceived.Some? ==> PaysWithin(ch.latestReceived.value.coin.outcome.baseConditions, least, most))
    && (forall ph :: ph in ch.unrollMap ==> WaitsAndPays(ch.id, ch.unrollMap[ph].timeoutConditions, least, most))
  }

  ghost predicate SideKept(ch: Channel, id: ChannelIdentity, least: nat, most: nat) {
    ch.id == id && Belongs(ch) && PendingOurs(ch) && StatesPay(ch, least, most)
  }

  lemma MoreIsAllowed(ch: Channel, id: ChannelIdentity, least: nat, most: nat, more: nat)
    requires SideKept(ch, id, least, most) && most <= more
    ensures SideKept(ch, id, least, more)
  {
    hide Belongs, PendingOurs, PaidInAll;
  }

  lemma KeptSide(ch: Channel, next: Channel, id: ChannelIdentity, least: nat, most: nat)
    requires SideKept(ch, id, least, most) && Kept(ch, next)
    ensures SideKept(next, id, least, most)
  {
    hide Belongs, PendingOurs, WaitsAndPays, PaysWithin;
  }

  /** A state with the current balances pays out all of them. */
  lemma CurrentStatePays(ch: Channel, started: bool, number: nat, t: nat)
    requires Money(ch, t) && ch.id.unrollTimeout > 0
    ensures
      var coin := UpdatedUnroll(ch.id, started, number, CurrentInputs(ch));
      && PaidInAll(coin.outcome.baseConditions) == t
      && WaitsAndPays(ch.id, HistoricalOf(coin).timeoutConditions, t, t)
  {
    hide PaidInAll, CurrentInputs, BaseConditions, Money;
    UnrollPaysAll(ch, started, number, t);
    TimeoutWaits(ch, started, number);
  }

  lemma SignedSide(ch: Channel, id: ChannelIdentity, least: nat, most: nat, t: nat)
    requires SideKept(ch, id, least, most) && Money(ch, t) && least <= t <= most
    ensures SideKept(UpdateCachedUnrollState(ch).0, id, least, most)
  {
    SignedBelongs(ch);
    CurrentStatePays(ch, ch.latestSent.coin.startedWithPotato, ch.stateNumber + 1, t);
    hide Belongs, PendingOurs, PaidInAll, UpdatedUnroll, CurrentInputs, Money;
  }

  lemma VerifiedSide(ch: Channel, signatures: StateUpdateSignatures, id: ChannelIdentity, least: nat, most: nat, t: nat)
    requires ch.id == id && Belongs(ch) && StatesPay(ch, least, most) && VerifyReceivedBatch(ch, signatures).Ok?
    requires Money(ch, t) && least <= t <= most
    ensures SideKept(DrainSettlements(VerifyReceivedBatch(ch, signatures).value), id, least, most)
  {
    VerifiedBelongs(ch, signatures);
    CurrentStatePays(ch, ch.latestSent.coin.startedWithPotato, ch.stateNumber + 1, t);
    hide Belongs, PendingOurs, PaidInAll, UpdatedUnroll, CurrentInputs, VerifyUnroll, VerifyChannel, Money, OnlySettlements,
         WithoutSettlements;
  }

  lemma SignedMoney(ch: Channel, t: nat)
    ensures Money(UpdateCachedUnrollState(ch).0, t) <==> Money(ch, t)
  {
    hide UpdatedUnroll, CurrentInputs;
  }

  // --- Steps -----------------------------------------------------------------------------

  /** A drain, whether it fails or not, given the money it leaves. */
  lemma DrainedSide(clvm: Clvm, p: Peer, id: ChannelIdentity, least: nat, most: nat, t: nat)
    requires SideKept(p.ch, id, least, most) && least <= t <= most
    ensures
      match DrainQueueIntoBatch(clvm, p)
      case Ok((q, _)) => Money(q.ch, t) ==> SideKept(q.ch, id, least, most)
      case Err(stop) => SideKept(stop.peer.ch, id, least, most)
  {
    hide SideKept, DrainAll, Kept, Money;
    if p.potato.Present? {
      DrainBelongs(clvm, p.ch, p.queue);
      match DrainAll(clvm, p.ch, p.queue) {
        case Ok(st) =>
          KeptSide(p.ch, st.ch, id, least, most);
          SignedMoney(st.ch, t);
          if Money(st.ch, t) {
            SignedSide(st.ch, id, least, most, t);
          }
        case Err(f) => KeptSide(p.ch, f.ch, id, least, most);
      }
    }
  }

  lemma EmptySide(p: Peer, id: ChannelIdentity, least: nat, most: nat, t: nat)
    requires SideKept(p.ch, id, least, most) && least <= t <= most && Money(SendEmptyPotato(p).0.ch, t)
    ensures SideKept(SendEmptyPotato(p).0.ch, id, least, most)
  {
    hide SideKept, Money, UpdateCachedUnrollState;
    SignedMoney(p.ch, t);
    SignedSide(p.ch, id, least, most, t);
  }

  lemma UsedSide(clvm: Clvm, p: Peer, sendBack: bool, id: ChannelIdentity, least: nat, most: nat, t: nat)
    requires SideKept(p.ch, id, least, most) && least <= t <= most && UsePotato(clvm, p, sendBack).Ok?
    requires Money(UsePotato(clvm, p, sendBack).value.0.ch, t)
    ensures SideKept(UsePotato(clvm, p, sendBack).value.0.ch, id, least, most)
  {
    hide SideKept, Money, DrainQueueIntoBatch, SendEmptyPotato;
    DrainedSide(clvm, p, id, least, most, t);
    if DrainQueueIntoBatch(clvm, p).Ok? {
      var (next, out) := DrainQueueIntoBatch(clvm, p).value;
      if out == [] && next.peerWants {
        EmptyMoney(next.(peerWants := false), t);
        EmptySide(next.(peerWants := false), id, least, most, t);
      } else if out == [] && sendBack {
        EmptyMoney(next, t);
        EmptySide(next, id, least, most, t);
      }
    }
  }

  lemma EmptyMoney(p: Peer, t: nat)
    ensures Money(SendEmptyPotato(p).0.ch, t) <==> Money(p.ch, t)
  {
    hide Money, UpdateCachedUnrollState;
    SignedMoney(p.ch, t);
  }

  lemma ReceivedSide(
    clvm: Clvm, p: Peer, actions: seq<BatchAction>, signatures: StateUpdateSignatures, id: ChannelIdentity, least: nat,
    most: nat, t: nat)
    requires SideKept(p.ch, id, least, most) && least <= t <= most && ReceivePotato(clvm, p, actions, signatures).Ok?
    requires Money(ReceivePotato(clvm, p, actions, signatures).value.ch, t)
    ensures SideKept(ReceivePotato(clvm, p, actions, signatures).value.ch, id, least, most)
  {
    hide Belongs, PendingOurs, WaitsAndPays, PaysWithin, ApplyActions, VerifyReceivedBatch, WholeGroups, QueueAfterBatch;
    var applied := ApplyBatch(clvm, p, actions).value;
    ApplyBelongs(clvm, p.factories, p.ch, actions);
    assert Money(applied, t) by { VerifiedMoney(applied, signatures, t); }
    VerifiedSide(applied, signatures, id, least, most, t);
  }

  lemma VerifiedMoney(ch: Channel, signatures: StateUpdateSignatures, t: nat)
    requires VerifyReceivedBatch(ch, signatures).Ok?
    ensures Money(DrainSettlements(VerifyReceivedBatch(ch, signatures).value), t) <==> Money(ch, t)
  {
    hide UpdatedUnroll, CurrentInputs, VerifyUnroll, VerifyChannel, OnlySettlements, WithoutSettlements;
  }

  lemma {:induction false} ActionsLeaveChannel(p: Peer, actions: seq<GameAction>)
    ensures DoGameActions(p, actions).0.ch == p.ch
    decreases |actions|
  {
    if actions != [] {
      ActionsLeaveChannel(DoGameAction(p, actions[0]).0, actions[1..]);
    }
  }

  /** Every request but a flush leaves the channel alone, except for nonces. */
  lemma AskedChannel(clvm: Clvm, p: Peer, r: Request)
    requires !r.Flush?
    ensures
      var q := HandleRequest(clvm, p, r).0;
      q.ch == p.ch.(myNextNonce := q.ch.myNextNonce)
  {
    hide FactoryGames, DoGameActions, Contributions, MembersOf, WithoutShutdown;
    match r {
      case Accept(id) =>
        if ProposalPosition(p.ch.proposed, id).Some? {
          forall actions {
            ActionsLeaveChannel(p, actions);
          }
        }
      case Cancel(id) =>
        forall actions {
          ActionsLeaveChannel(p, actions);
        }
      case _ =>
    }
  }

  lemma NonceSide(ch: Channel, nonce: nat, id: ChannelIdentity, least: nat, most: nat)
    requires SideKept(ch, id, least, most)
    ensures SideKept(ch.(myNextNonce := nonce), id, least, most)
  {
    hide GameOfChannel, ProposalOfChannel, RedoOfChannel, WaitsAndPays, PaysWithin;
  }

  lemma AskedSide(clvm: Clvm, p: Peer, r: Request, id: ChannelIdentity, least: nat, most: nat, t: nat)
    requires SideKept(p.ch, id, least, most) && least <= t <= most && Money(HandleRequest(clvm, p, r).0.ch, t)
    ensures SideKept(HandleRequest(clvm, p, r).0.ch, id, least, most)
  {
    hide SideKept, Money, DrainQueueIntoBatch, ProposeGames, AcceptProposals, CancelProposals, DoGameAction;
    var q := HandleRequest(clvm, p, r).0;
    if r.Flush? {
      DrainedSide(clvm, p, id, least, most, t);
    } else {
      AskedChannel(clvm, p, r);
      NonceSide(p.ch, q.ch.myNextNonce, id, least, most);
    }
  }

  /** What both sides keep over a run. */
  ghost predicate BothKept(s: System, idA: ChannelIdentity, idB: ChannelIdentity, total: nat) {
    && SideKept(s.a.ch, idA, total, total + s.lapses.excessA)
    && SideKept(s.b.ch, idB, total, total + s.lapses.excessB)
  }

  lemma DeliveredSide(clvm: Clvm, s: System, id: ChannelIdentity, total: nat, most: nat)
    requires Inv(clvm, s, total) && SideKept(s.a.ch, id, total, total + s.lapses.excessA)
    requires s.ba != [] && ProcessMessage(clvm, s.a, s.ba[0]).Ok? && !ProcessMessage(clvm, s.a, s.ba[0]).value.0.closed
    requires total + s.lapses.excessA <= most && Money(ProcessMessage(clvm, s.a, s.ba[0]).value.0.ch, most)
    ensures SideKept(ProcessMessage(clvm, s.a, s.ba[0]).value.0.ch, id, total, most)
  {
    hide Inv, SideKept, Money, ReceivePotato, UsePotato, Replies, SendEmptyPotato;
    var m := s.ba[0];
    MoreIsAllowed(s.a.ch, id, total, total + s.lapses.excessA, most);
    if m.RequestPotato? && s.a.potato.Present? && !s.a.pendingShutdown {
      EmptySide(s.a.(peerWants := false), id, total, most, most);
    } else if m.Batch? {
      if m.shutdown.Some? {
        ShutdownCloses(clvm, s.a, m);
      } else {
        var received := ReceivePotato(clvm, s.a, m.actions, m.signatures).value;
        ReceiveKeepsInv(clvm, s, received, total);
        var s1 := s.(a := received, ba := s.ba[1..]);
        assert Money(received.ch, total + s.lapses.excessA) by { MoneyOfInv(clvm, s1, total); }
        ReceivedSide(
          clvm, s.a, m.actions, m.signatures, id, total, most, total + s.lapses.excessA);
        UsedSide(clvm, received, HasSettlement(m.actions), id, total, most, most);
      }
    }
  }

  lemma MoneyOfInv(clvm: Clvm, s: System, total: nat)
    requires Inv(clvm, s, total)
    ensures Money(s.a.ch, total + s.lapses.excessA) && Money(s.b.ch, total + s.lapses.excessB)
  {
    hide Sound, CoinsOk, Fresh, Money, RecordsOk, FlagOk, LogOk, ProposalsOkBetween, FlightOk, PotatoInv, AtRest;
    assert Flip(s).a == s.b && Flip(s).lapses.excessA == s.lapses.excessB;
  }

  lemma ExcessGrows(clvm: Clvm, s: System, e: Event)
    requires StepA(clvm, s, e).Some?
    ensures
      var next := StepA(clvm, s, e).value;
      next.lapses.excessA >= s.lapses.excessA && next.lapses.excessB == s.lapses.excessB && next.b == s.b
  {
    hide DrainAll, Undone, Excess, ReceivePotato, ProcessMessage, HandleRequest;
  }

  lemma StepAKept(clvm: Clvm, s: System, e: Event, idA: ChannelIdentity, idB: ChannelIdentity, total: nat)
    requires Safe(clvm, s, total) && BothKept(s, idA, idB, total) && StepA(clvm, s, e).Some?
    ensures
      var next := StepA(clvm, s, e).value;
      Open(next) ==> BothKept(next, idA, idB, total)
  {
    hide Inv, SideKept, Money, ProcessMessage, HandleRequest, OnePotato;
    var next := StepA(clvm, s, e).value;
    StepAKeepsSafe(clvm, s, e, total);
    ExcessGrows(clvm, s, e);
    if Open(next) {
      var most := total + next.lapses.excessA;
      MoneyOfInv(clvm, next, total);
      match e {
        case Ask(r) =>
          MoreIsAllowed(s.a.ch, idA, total, total + s.lapses.excessA, most);
          AskedSide(clvm, s.a, r, idA, total, most, most);
        case Deliver => DeliveredSide(clvm, s, idA, total, most);
      }
    }
  }

  lemma StepKept(clvm: Clvm, s: System, e: SidedEvent, idA: ChannelIdentity, idB: ChannelIdentity, total: nat)
    requires Safe(clvm, s, total) && BothKept(s, idA, idB, total) && Step(clvm, s, e).Some?
    ensures
      var next := Step(clvm, s, e).value;
      Open(next) ==> BothKept(next, idA, idB, total)
  {
    hide Safe, StepA, SideKept;
    match e {
      case OnA(event) => StepAKept(clvm, s, event, idA, idB, total);
      case OnB(event) =>
        SafeSymmetric(clvm, s, total);
        StepAKept(clvm, Flip(s), event, idB, idA, total);
    }
  }

  lemma {:induction false} RunKept(
    clvm: Clvm, s: System, events: seq<SidedEvent>, idA: ChannelIdentity, idB: ChannelIdentity, total: nat)
    requires Safe(clvm, s, total) && BothKept(s, idA, idB, total) && Run(clvm, s, events).Some?
    ensures
      var end := Run(clvm, s, events).value;
      Open(end) ==> BothKept(end, idA, idB, total)
    decreases |events|
  {
    hide Safe, Step, BothKept;
    if events != [] {
      var next := Step(clvm, s, events[0]).value;
      StepKept(clvm, s, events[0], idA, idB, total);
      StepKeepsSafe(clvm, s, events[0], total);
      if Open(next) {
        RunKept(clvm, next, events[1..], idA, idB, total);
      } else {
        ClosedStops(clvm, next, events[1..]);
      }
    }
  }

  lemma ClosedStops(clvm: Clvm, s: System, events: seq<SidedEvent>)
    requires !Open(s) && Run(clvm, s, events).Some?
    ensures Run(clvm, s, events).value == s
  {
  }

  lemma StartedSide(id: ChannelIdentity, start: bool, mine: nat, theirs: nat, signatures: StateUpdateSignatures)
    requires NewChannel(id, start, mine, theirs).Ok?
    requires StoreInitialPeerSignatures(NewChannel(id, start, mine, theirs).value, signatures).Ok?
    ensures
      var ch := StoreInitialPeerSignatures(NewChannel(id, start, mine, theirs).value, signatures).value;
      SideKept(ch, id, mine + theirs, mine + theirs)
  {
    var created := NewChannel(id, start, mine, theirs).value;
    NewChannelMoney(id, start, mine, theirs);
    CurrentStatePays(created, start, 0, mine + theirs);
    assert GameCoins(created.live) == [];
    hide PaidInAll, UpdatedUnroll, VerifyUnroll, VerifyChannel, Money;
  }

  lemma StartIsKept(clvm: Clvm, setup: Setup)
    requires MirroredIdentity(setup.idA, setup.idB) && setup.First().Ok?
    ensures Safe(clvm, setup.First().value, setup.Total())
    ensures BothKept(setup.First().value, setup.idA, setup.idB, setup.Total())
  {
    hide Inv, MirroredIdentity, SideKept, NewChannel, InitialSignatures, StoreInitialPeerSignatures, OnePotato;
    var newA := NewChannel(setup.idA, false, setup.contributionA, setup.contributionB).value;
    var newB := NewChannel(setup.idB, true, setup.contributionB, setup.contributionA).value;
    StartedSide(setup.idA, false, setup.contributionA, setup.contributionB, InitialSignatures(newB));
    StartedSide(setup.idB, true, setup.contributionB, setup.contributionA, InitialSignatures(newA));
    StartKeepsInv(
      clvm, setup.idA, setup.idB, setup.contributionA, setup.contributionB, setup.factoriesA, setup.factoriesB);
    InvHasOnePotato(clvm, setup.First().value, setup.Total());
  }

  lemma ReachedIsKept(clvm: Clvm, setup: Setup, events: seq<SidedEvent>, s: System)
    requires Reached(clvm, setup, events, s) && Open(s)
    ensures BothKept(s, setup.idA, setup.idB, setup.Total()) || BothKept(s, setup.idB, setup.idA, setup.Total())
  {
    hide Run, Safe, MirroredIdentity, SideKept, Setup.First;
    StartIsKept(clvm, setup);
    RunKept(clvm, setup.First().value, events, setup.idA, setup.idB, setup.Total());
  }

  // ---------------------------------------------------------------------------
  // What every run guarantees
  // ---------------------------------------------------------------------------

  /** Every state this side has ever signed or taken in pays out the whole channel
      amount, and spent by timeout only after the unroll timeout; the exceptions
      are what its failed drains have overpaid, if any. */
  lemma EveryStatePaysOut(clvm: Clvm, setup: Setup, events: seq<SidedEvent>, s: System)
    requires Reached(clvm, setup, events, s) && Open(s)
    ensures forall ph :: ph in s.a.ch.unrollMap ==>
              && s.a.ch.unrollMap[ph].timeoutConditions != []
              && s.a.ch.unrollMap[ph].timeoutConditions[0] == AssertHeightRelative(s.a.ch.id.unrollTimeout)
              && setup.Total() <= PaidInAll(s.a.ch.unrollMap[ph].timeoutConditions) <= setup.Total() + s.lapses.excessA
    ensures setup.Total() <= PaidInAll(s.a.ch.latestSent.coin.outcome.baseConditions) <= setup.Total() + s.lapses.excessA
    ensures s.a.ch.latestReceived.Some? ==>
              setup.Total() <= PaidInAll(s.a.ch.latestReceived.value.coin.outcome.baseConditions)
              <= setup.Total() + s.lapses.excessA
    ensures s.a.ch.id.unrollTimeout > 0
  {
    hide Reached, Belongs, PendingOurs, PaidInAll;
    ReachedIsKept(clvm, setup, events, s);
  }

  /** While a batch of ours is under way, and no failed drain has led the views
      astray, the state we have signed pays each side exactly what is its due. */
  lemma SentStatePaysBalances(clvm: Clvm, setup: Setup, events: seq<SidedEvent>, s: System)
    requires Reached(clvm, setup, events, s) && Open(s) && Batches(s.ab) == 1 && !s.lapses.strayed
    ensures forall ph :: PaidTo(s.a.ch.latestSent.coin.outcome.baseConditions, ph) == DueTo(s.a.ch, ph)
  {
    hide Reached, PeerOk, LogOk, ProposalsOkBetween, WiresOk, PotatoInv, AtRest, UpdatedUnroll, PaidTo, DueTo, Linked;
    ReachedIsSafe(clvm, setup, events, s);
    UnrollPaysBalances(s.a.ch, s.a.ch.latestSent.coin.startedWithPotato, s.a.ch.stateNumber);
  }

  /** A state just taken in pays each side what is its due, whatever happened before. */
  lemma ReceivedStatePaysBalances(clvm: Clvm, p: Peer, actions: seq<BatchAction>, signatures: StateUpdateSignatures)
    requires ReceivePotato(clvm, p, actions, signatures).Ok?
    ensures
      var ch := ReceivePotato(clvm, p, actions, signatures).value.ch;
      && ch.latestReceived.Some? && ch.latestReceived.value.signatures == signatures
      && VerifyUnroll(ch.id, ch.latestReceived.value.coin, signatures.unrollHalf)
      && forall ph :: PaidTo(ch.latestReceived.value.coin.outcome.baseConditions, ph) == DueTo(ch, ph)
  {
    hide ApplyActions, WholeGroups, QueueAfterBatch, UpdatedUnroll, VerifyUnroll, VerifyChannel, PaidTo, CurrentInputs,
         OnlySettlements, WithoutSettlements, AmountsTo;
    var applied := ApplyBatch(clvm, p, actions).value;
    UnrollPaysBalances(applied, applied.latestSent.coin.startedWithPotato, applied.stateNumber + 1);
  }

  lemma IdsOfReached(clvm: Clvm, setup: Setup, events: seq<SidedEvent>, s: System)
    requires Reached(clvm, setup, events, s) && Open(s)
    requires setup.idA.myRefereeKey != setup.idB.myRefereeKey
    ensures PayoutsAgreed(s.a.ch.id)
  {
    hide Run, StatesPay, Belongs, PendingOurs;
    ReachedIsKept(clvm, setup, events, s);
  }

  /** In every reachable state, a settlement sent or received would move to each
      side exactly what the timeout of the game's coin would pay it. */
  lemma SettlementsPayTimeouts(clvm: Clvm, setup: Setup, events: seq<SidedEvent>, s: System, id: nat)
    requires Reached(clvm, setup, events, s) && Open(s) && setup.idA.myRefereeKey != setup.idB.myRefereeKey
    ensures
      SendAcceptSettlement(s.a.ch, id).Ok? ==>
        var (next, share) := SendAcceptSettlement(s.a.ch, id).value;
        var game := s.a.ch.live[LivePosition(s.a.ch.live, id).value];
        && next.myOut >= s.a.ch.myOut && next.theirOut >= s.a.ch.theirOut && share == next.myOut - s.a.ch.myOut
        && TimeoutPays(s.a.ch.id, game, next.myOut - s.a.ch.myOut, next.theirOut - s.a.ch.theirOut)
    ensures
      ApplyReceivedAcceptSettlement(s.a.ch, id).Ok? ==>
        var (next, share) := ApplyReceivedAcceptSettlement(s.a.ch, id).value;
        var game := s.a.ch.live[LivePosition(s.a.ch.live, id).value];
        && next.myOut >= s.a.ch.myOut && next.theirOut >= s.a.ch.theirOut && share == next.myOut - s.a.ch.myOut
        && TimeoutPays(s.a.ch.id, game, next.myOut - s.a.ch.myOut, next.theirOut - s.a.ch.theirOut)
  {
    hide Reached, TimeoutPays, StatesPay, PendingOurs, SendAcceptSettlement, ApplyReceivedAcceptSettlement;
    IdsOfReached(clvm, setup, events, s);
    ReachedIsKept(clvm, setup, events, s);
    if SendAcceptSettlement(s.a.ch, id).Ok? {
      SentSettlementPaysTimeout(s.a.ch, id);
    }
    if ApplyReceivedAcceptSettlement(s.a.ch, id).Ok? {
      ReceivedSettlementPaysTimeout(s.a.ch, id);
    }
  }

  /** A clean close, when one is reached, pays out the whole channel amount, to
      each side its balance. */
  lemma CleanClosePaysAll(clvm: Clvm, setup: Setup, events: seq<SidedEvent>, s: System)
    requires Reached(clvm, setup, events, s) && Open(s) && s.ba != [] && s.ba[0].Batch? && s.ba[0].shutdown.Some?
    requires !s.a.pendingShutdown && ProcessMessage(clvm, s.a, s.ba[0]).Ok?
    ensures
      var conditions := s.ba[0].shutdown.value.conditions;
      var closed := ProcessMessage(clvm, s.a, s.ba[0]).value.0;
      && closed.closed && PaidInAll(conditions) == setup.Total() + s.lapses.excessA
      && closed.ch.myOut + closed.ch.theirOut == setup.Total() + s.lapses.excessA
      && forall ph :: PaidTo(conditions, ph)
                      == (if ph == closed.ch.id.rewardPh then closed.ch.myOut else 0)
                         + (if ph == closed.ch.id.theirRewardPh then closed.ch.theirOut else 0)
  {
    hide Reached, Inv, ApplyBatch, Replies, PaidTo, PaidInAll, OnePotato, Money, ShutdownConditions, VerifyChannel;
    ReachedIsSafe(clvm, setup, events, s);
    var m := s.ba[0];
    var applied := ApplyBatch(clvm, s.a, m.actions).value;
    var total := setup.Total() + s.lapses.excessA;
    assert Money(applied, total) by { AppliedMoney(clvm, s, setup.Total()); }
    ClosePaysBalances(s.a, applied, m.shutdown.value, total);
  }

  lemma AppliedMoney(clvm: Clvm, s: System, total: nat)
    requires Inv(clvm, s, total) && s.ba != [] && s.ba[0].Batch? && ApplyBatch(clvm, s.a, s.ba[0].actions).Ok?
    ensures Money(ApplyBatch(clvm, s.a, s.ba[0].actions).value, total + s.lapses.excessA)
  {
    hide WholeGroups, ApplyActions;
    var applied := ApplyBatch(clvm, s.a, s.ba[0].actions).value;
    ArrivingIsDelivered(clvm, s, applied, total);
  }

  /** Going on chain from any reachable state, with whatever coins the unroll has
      made: the turn recorded of each coin is its puzzle's then and ever after. */
  lemma OnChainTurnsAreRight(
    clvm: Clvm, setup: Setup, events: seq<SidedEvent>, s: System, unroll: CoinID, coins: seq<(PuzzleHash, nat)>, env: OnChainGames.Env,
    start: OnChainGames.State, spends: seq<OnChainGames.Event>)
    requires Reached(clvm, setup, events, s) && Open(s) && setup.idA.myRefereeKey != setup.idB.myRefereeKey
    requires StartsFrom(s.a.ch, unroll, coins, start) && RewardsApart(env) && EventsOk(env, start, spends)
    ensures
      var (end, notices) := OnChainGames.Run(env, start, spends);
      Law(PlayersOf(s.a.ch.id), end) && Told(PlayersOf(s.a.ch.id), notices)
  {
    hide Reached, Belongs, PendingOurs, StatesPay, StartsFrom, Law, Told;
    IdsOfReached(clvm, setup, events, s);
    ReachedIsKept(clvm, setup, events, s);
    StartIsLawful(s.a.ch, unroll, coins, start);
    TurnsAreThePuzzles(PlayersOf(s.a.ch.id), env, start, spends);
  }
}

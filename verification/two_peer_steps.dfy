/** Every step of either peer keeps the invariant of the system. */
module TwoPeerSteps {
  import opened Wrappers
  import opened Chain
  import opened Referees
  import opened Channels
  import opened ChannelMoney
  import opened ChannelHistory
  import opened ChannelGames
  import opened OffChainPeers
  import opened PeerInvariants
  import opened MirroredViews
  import opened VouchedProposals
  import opened Potato
  import opened TwoPeers

  // ---------------------------------------------------------------------------
  // Allocating nonces while the peer's batch is on its way
  // ---------------------------------------------------------------------------

  function WithNonce(r: Result<Channel, PeerError>, nonce: nat): Result<Channel, PeerError> {
    match r
    case Ok(ch) => Ok(ch.(myNextNonce := nonce))
    case Err(e) => Err(e)
  }

  lemma ProposalIgnoresNonce(ch: Channel, start: GameStartInfo, groupId: nat, nonce: nat)
    ensures ProposalOf(ch.(myNextNonce := nonce), start, groupId) == ProposalOf(ch, start, groupId)
  {
  }

  lemma {:induction false} NonceAndGroupCommute(ch: Channel, games: seq<GameStartInfo>, groupId: nat, nonce: nat)
    ensures LiftChannel(ApplyGroup(ch.(myNextNonce := nonce), games, groupId))
            == WithNonce(LiftChannel(ApplyGroup(ch, games, groupId)), nonce)
    decreases |games|
  {
    hide ProposalOf;
    if games != [] {
      var last := |games| - 1;
      NonceAndGroupCommute(ch, games[..last], groupId, nonce);
      if ApplyGroup(ch, games[..last], groupId).Ok? {
        ProposalIgnoresNonce(ApplyGroup(ch, games[..last], groupId).value, games[last], groupId, nonce);
      }
    }
  }

  lemma NonceAndActionCommute(clvm: Clvm, factories: Factories, ch: Channel, action: BatchAction, nonce: nat)
    requires nonce % 2 == ch.myNextNonce % 2
    ensures ApplyAction(clvm, factories, ch.(myNextNonce := nonce), action)
            == WithNonce(ApplyAction(clvm, factories, ch, action), nonce)
  {
    hide Hydrate, ApplyGroup, TheirTurnMoveOffChain;
    if action.ProposeGroup? && action.wire.start.gameType in factories && Hydrate(clvm, factories, action.wire).Ok? {
      NonceAndGroupCommute(ch, Hydrate(clvm, factories, action.wire).value, action.wire.groupId, nonce);
    }
  }

  /** Using up nonces of ours does not change what a batch does to us. */
  lemma {:induction false} NonceAndActionsCommute(
    clvm: Clvm, factories: Factories, ch: Channel, actions: seq<BatchAction>, nonce: nat)
    requires nonce % 2 == ch.myNextNonce % 2
    ensures ApplyActions(clvm, factories, ch.(myNextNonce := nonce), actions)
            == WithNonce(ApplyActions(clvm, factories, ch, actions), nonce)
    ensures ApplyActions(clvm, factories, ch, actions).Ok? ==>
              ApplyActions(clvm, factories, ch, actions).value.myNextNonce == ch.myNextNonce
    decreases |actions|
  {
    hide ApplyAction;
    if actions != [] {
      var last := |actions| - 1;
      NonceAndActionsCommute(clvm, factories, ch, actions[..last], nonce);
      if ApplyActions(clvm, factories, ch, actions[..last]).Ok? {
        var mid := ApplyActions(clvm, factories, ch, actions[..last]).value;
        NonceAndActionCommute(clvm, factories, mid, actions[last], nonce);
        NonceAndActionCommute(clvm, factories, mid, actions[last], mid.myNextNonce);
        assert mid.(myNextNonce := mid.myNextNonce) == mid;
      }
    }
  }

  // ---------------------------------------------------------------------------
  // Local requests
  // ---------------------------------------------------------------------------

  /** The queue changed and perhaps nonces were used; what the queue now holds
      is fresh, and was queued before or has new nonces. */
  ghost predicate QueueChanged(p: Peer, q: Peer) {
    && q == p.(queue := q.queue, peerWants := q.peerWants, ch := p.ch.(myNextNonce := q.ch.myNextNonce))
    && q.ch.myNextNonce >= p.ch.myNextNonce && q.ch.myNextNonce % 2 == p.ch.myNextNonce % 2
    && Fresh(q.ch, QueuedIds(q.queue))
    && GroupsOk(q.queue)
    && forall i :: 0 <= i < |QueuedIds(q.queue)| ==>
         QueuedIds(q.queue)[i] in QueuedIds(p.queue) || QueuedIds(q.queue)[i] >= p.ch.myNextNonce
  }

  lemma MoreNoncesKeepSound(ch: Channel, nonce: nat)
    requires Sound(ch) && nonce >= ch.myNextNonce && nonce % 2 == ch.myNextNonce % 2
    ensures Sound(ch.(myNextNonce := nonce))
  {
  }

  lemma MoreNoncesKeepBehind(view: nat, p: Peer, q: Peer)
    requires Behind(view, p.ch, QueuedIds(p.queue)) && QueueChanged(p, q)
    ensures Behind(view, q.ch, QueuedIds(q.queue))
  {
    hide Fresh, GroupsOk, QueuedIds;
    var before, after := QueuedIds(p.queue), QueuedIds(q.queue);
    forall i | 0 <= i < |after|
      ensures view <= after[i]
    {
      if after[i] in before {
        var j :| 0 <= j < |before| && before[j] == after[i];
      }
    }
  }

  lemma QueueChangeKeepsPeer(p: Peer, q: Peer, total: nat)
    requires PeerOk(p, total) && QueueChanged(p, q)
    ensures PeerOk(q, total)
  {
    hide KnownIds, NonceDiscipline, HashesOk, CoinsKnown, CoinsOfDistinctGames;
    MoreNoncesKeepSound(p.ch, q.ch.myNextNonce);
    RecordsIgnoreNonces(p.ch, q.ch.myNextNonce);
    CoinsIgnoreNonces(p.ch, q.ch.myNextNonce);
  }

  lemma CoinsIgnoreNonces(ch: Channel, nonce: nat)
    ensures CoinsKnown(ch.(myNextNonce := nonce), LastCoins(ch)) <==> CoinsKnown(ch, LastCoins(ch))
  {
    var other := ch.(myNextNonce := nonce);
    forall ph, amount
      ensures CoinKnown(other, ph, amount) <==> CoinKnown(ch, ph, amount)
    {
    }
  }

  lemma RecordsIgnoreNonces(ch: Channel, nonce: nat)
    requires RecordsOk(ch)
    ensures RecordsOk(ch.(myNextNonce := nonce))
  {
    hide CoinsOfDistinctGames;
    var next := ch.(myNextNonce := nonce);
    forall ph | ph in next.unrollMap
      ensures EntryOk(next, ph)
    {
      assert EntryOk(ch, ph);
    }
    forall n: nat | n <= next.stateNumber
      ensures HasHistorical(next, n)
    {
      assert HasHistorical(ch, n);
    }
  }

  lemma QueueChangeKeepsLinked(p: Peer, q: Peer, b: Channel)
    requires QueueChanged(p, q) && Linked(p.ch, b, QueuedIds(p.queue))
    ensures Linked(q.ch, b, QueuedIds(q.queue))
  {
    hide NonceDiscipline, HashesOk, QueuedIds, MirroredGames, MirroredProposals;
    MoreNoncesKeepSound(p.ch, q.ch.myNextNonce);
    MoreNoncesKeepBehind(b.theirNextNonce, p, q);
  }

  lemma LinkedIgnoresReceiverNonces(a: Channel, b: Channel, ids: seq<nat>, nonce: nat)
    requires Linked(a, b, ids) && nonce >= b.myNextNonce && nonce % 2 == b.myNextNonce % 2
    ensures Linked(a, b.(myNextNonce := nonce), ids)
  {
    hide NonceDiscipline, HashesOk, Fresh, MirroredGames, MirroredProposals;
    MoreNoncesKeepSound(b, nonce);
  }

  lemma QueueChangeKeepsOutgoing(clvm: Clvm, p: Peer, q: Peer, b: Peer, m: PeerMessage)
    requires m.Batch? && InFlight(clvm, p, b, m) && QueueChanged(p, q)
    ensures InFlight(clvm, q, b, m)
  {
    hide Linked, QueuedIds, ApplyActions, UpdatedUnroll;
    if ApplyActions(clvm, b.factories, b.ch, m.actions).Ok? {
      QueueChangeKeepsLinked(p, q, ApplyActions(clvm, b.factories, b.ch, m.actions).value);
    }
  }

  lemma QueueChangeKeepsIncoming(clvm: Clvm, p: Peer, q: Peer, b: Peer, m: PeerMessage)
    requires m.Batch? && InFlight(clvm, b, p, m) && QueueChanged(p, q)
    ensures InFlight(clvm, b, q, m)
  {
    hide Linked, QueuedIds, ApplyActions, SignsCurrent, ShutdownIsCurrent;
    NonceAndActionsCommute(clvm, p.factories, p.ch, m.actions, q.ch.myNextNonce);
    if ApplyActions(clvm, p.factories, p.ch, m.actions).Ok? {
      LinkedIgnoresReceiverNonces(
        b.ch, ApplyActions(clvm, p.factories, p.ch, m.actions).value, QueuedIds(b.queue), q.ch.myNextNonce);
    }
  }

  lemma MirrorIgnoresNonces(a: Channel, b: Channel, nonce: nat)
    requires Mirror(a, b) && nonce % 2 == a.myNextNonce % 2
    ensures Mirror(a.(myNextNonce := nonce), b)
  {
    hide MirroredGames, MirroredProposals;
  }

  lemma QueueChangeKeepsWires(p: Peer, q: Peer, actions: seq<BatchAction>)
    requires WiresOk(p.ch, QueuedIds(p.queue), actions) && QueueChanged(p, q)
    ensures WiresOk(q.ch, QueuedIds(q.queue), actions)
  {
    hide Fresh, GroupsOk, QueuedIds, SameSums;
    var before, after := QueuedIds(p.queue), QueuedIds(q.queue);
    forall k, j | 0 <= k < |actions| && actions[k].ProposeGroup? && 0 <= j < |actions[k].wire.members|
      ensures MemberOk(q.ch, after, actions[k].wire.members[j])
    {
      assert WireOk(p.ch, before, actions[k].wire);
      var spec := actions[k].wire.members[j];
      assert MemberOk(p.ch, before, spec);
      forall i | 0 <= i < |after|
        ensures spec.gameId < after[i]
      {
        if after[i] in before {
          var l :| 0 <= l < |before| && before[l] == after[i];
        }
      }
    }
  }

  /** The queue and our nonces are no matter to the proposals both sides hold. */
  lemma QueueChangeKeepsProposals(p: Peer, q: Peer, b: Peer, ab: seq<PeerMessage>, ba: seq<PeerMessage>)
    requires QueueChanged(p, q) && ProposalsOkBetween(p, b, ba) && ProposalsOkBetween(b, p, ab)
    ensures ProposalsOkBetween(q, b, ba) && ProposalsOkBetween(b, q, ab)
  {
    hide GroupsOk, QueuedIds, Fresh;
    MoreNoncesKeepBehind(b.ch.theirNextNonce, p, q);
    assert forall x :: q.ch.IsOurNonce(x) <==> p.ch.IsOurNonce(x);
  }

  lemma QueueChangeKeepsFlights(clvm: Clvm, s: System, q: Peer)
    requires FlightOk(clvm, s.a, s.b, s.ab, s.lapses.strayed) && FlightOk(clvm, s.b, s.a, s.ba, s.lapses.strayed)
    requires QueueChanged(s.a, q) && q.pendingShutdown == s.a.pendingShutdown
    ensures FlightOk(clvm, q, s.b, s.ab, s.lapses.strayed) && FlightOk(clvm, s.b, q, s.ba, s.lapses.strayed)
  {
    hide InFlight, QueueChanged, WiresOk, QueuedIds;
    if Batches(s.ab) == 1 {
      QueueChangeKeepsWires(s.a, q, FirstBatch(s.ab).actions);
      if !s.lapses.strayed {
        QueueChangeKeepsOutgoing(clvm, s.a, q, s.b, FirstBatch(s.ab));
      }
    }
    if Batches(s.ba) == 1 && !s.lapses.strayed {
      QueueChangeKeepsIncoming(clvm, s.a, q, s.b, FirstBatch(s.ba));
    }
  }

  lemma QueueChangeKeepsInv(clvm: Clvm, s: System, q: Peer, total: nat)
    requires Inv(clvm, s, total) && QueueChanged(s.a, q)
    ensures Inv(clvm, s.(a := q), total)
  {
    hide PeerOk, LogOk, FlightOk, ProposalsOkBetween, Mirror, Fresh, QueuedIds, GroupsOk, PotatoInv;
    var next := s.(a := q);
    QueueChangeKeepsPeer(s.a, q, total + s.lapses.excessA);
    QueueChangeKeepsProposals(s.a, q, s.b, s.ab, s.ba);
    QueueChangeKeepsFlights(clvm, s, q);
    LogIgnoresQueue(s.a, q, s.sentByA);
    if AtRest(s) {
      MirrorIgnoresNonces(s.a.ch, s.b.ch, q.ch.myNextNonce);
    }
    assert Flip(next).a == s.b && Flip(next).b == q;
  }

  lemma LogIgnoresQueue(p: Peer, q: Peer, sent: seq<nat>)
    requires LogOk(p, sent) && QueueChanged(p, q)
    ensures LogOk(q, sent)
  {
    hide Fresh, QueuedIds, GroupsOk;
  }

  // --- What local requests do to the queue ----------------------------------------

  lemma EnqueueChangesQueue(p: Peer, total: nat, action: GameAction)
    requires PeerOk(p, total) && !action.QueuedGroup?
    ensures QueueChanged(p, p.(queue := p.queue + [action]))
  {
    hide Sound, Money, CoinsOk, Fresh, RecordsOk, FlagOk;
    QueuedIdsOfAppend(p.queue, [action]);
    assert QueuedIds([action]) == [];
    assert QueuedIds(p.queue + [action]) == QueuedIds(p.queue);
  }

  lemma {:induction false} WithoutShutdownKeepsGroups(queue: seq<GameAction>)
    ensures QueuedIds(WithoutShutdown(queue)) == QueuedIds(queue)
    ensures GroupsOk(queue) ==> GroupsOk(WithoutShutdown(queue))
  {
    hide GroupOk;
    if queue != [] {
      WithoutShutdownKeepsGroups(queue[1..]);
      var first := if queue[0].QueuedShutdown? then [] else [queue[0]];
      assert WithoutShutdown(queue) == first + WithoutShutdown(queue[1..]);
      QueuedIdsOfAppend(first, WithoutShutdown(queue[1..]));
      if !queue[0].QueuedShutdown? {
        QueuedIdsOfFirst(queue[0], []);
        assert [queue[0]] + [] == [queue[0]];
      }
    }
  }

  lemma {:induction false} WithoutGroupsHasNoIds(queue: seq<GameAction>)
    ensures forall i :: 0 <= i < |WithoutGroups(queue)| ==> !WithoutGroups(queue)[i].QueuedGroup?
    ensures QueuedIds(WithoutGroups(queue)) == []
  {
    if queue != [] {
      WithoutGroupsHasNoIds(queue[1..]);
    }
    NoGroupsNoIds(WithoutGroups(queue));
  }

  lemma WithdrawShutdownChangesQueue(p: Peer, total: nat)
    requires PeerOk(p, total)
    ensures QueueChanged(p, p.(queue := WithoutShutdown(p.queue)))
    ensures PeerOk(p.(queue := WithoutShutdown(p.queue)), total)
  {
    hide Sound, Money, CoinsOk, Fresh, RecordsOk;
    WithoutShutdownKeepsGroups(p.queue);
  }

  lemma FreshAfterNonces(ch: Channel, ids: seq<nat>, nonce: nat)
    requires Fresh(ch, ids) && nonce >= ch.myNextNonce && nonce % 2 == ch.myNextNonce % 2
    ensures Fresh(ch.(myNextNonce := nonce), ids)
  {
    assert KnownIds(ch.(myNextNonce := nonce)) == KnownIds(ch);
  }

  lemma UseNonceChangesQueue(p: Peer, total: nat)
    requires PeerOk(p, total)
    ensures QueueChanged(p, p.(ch := p.ch.(myNextNonce := p.ch.myNextNonce + 2)))
  {
    hide Sound, Money, CoinsOk, Fresh, RecordsOk;
    FreshAfterNonces(p.ch, QueuedIds(p.queue), p.ch.myNextNonce + 2);
  }

  /** Identifiers that are allocated after all others can join the queue. */
  lemma FreshJoined(ch: Channel, next: Channel, ids: seq<nat>, own: seq<nat>)
    requires NonceDiscipline(ch) && Fresh(ch, ids)
    requires next == ch.(myNextNonce := next.myNextNonce) && next.myNextNonce >= ch.myNextNonce
    requires next.myNextNonce % 2 == ch.myNextNonce % 2
    requires forall i :: 0 <= i < |own| ==> ch.IsOurNonce(own[i]) && ch.myNextNonce <= own[i] < next.myNextNonce
    requires forall i, j :: 0 <= i < j < |own| ==> own[i] < own[j]
    ensures Fresh(next, ids + own)
  {
    assert KnownIds(next) == KnownIds(ch);
    SameParity(ch, next);
    hide KnownIds, Channel.IsOurNonce;
    var all := ids + own;
    forall i | 0 <= i < |all|
      ensures ch.IsOurNonce(all[i]) && all[i] < next.myNextNonce
      ensures forall x :: x in KnownIds(ch) && ch.IsOurNonce(x) ==> x < all[i]
    {
      assert all[i] == if i < |ids| then ids[i] else own[i - |ids|];
    }
    forall i, j | 0 <= i < j < |all|
      ensures all[i] < all[j]
    {
      assert all[i] == if i < |ids| then ids[i] else own[i - |ids|];
      assert all[j] == if j < |ids| then ids[j] else own[j - |ids|];
    }
  }

  /** A new group takes the next nonces, in order. */
  lemma GroupIsFresh(ch: Channel, ids: seq<nat>, games: seq<FactoryGame>, timeout: nat)
    requires NonceDiscipline(ch) && Fresh(ch, ids)
    ensures Fresh(
              ch.(myNextNonce := ch.myNextNonce + 2 * |games|),
              ids + GroupIds(OurStarts(games, ch.myNextNonce, timeout)))
  {
    hide Fresh, NonceDiscipline;
    var first := ch.myNextNonce;
    var own := GroupIds(OurStarts(games, first, timeout));
    forall i | 0 <= i < |own|
      ensures own[i] == first + 2 * i
    {
      ConsecutiveNonces(games, first, timeout, i);
    }
    FreshJoined(ch, ch.(myNextNonce := first + 2 * |games|), ids, own);
  }

  lemma SameParity(ch: Channel, next: Channel)
    requires next.myNextNonce % 2 == ch.myNextNonce % 2
    ensures forall x :: next.IsOurNonce(x) <==> ch.IsOurNonce(x)
  {
  }

  lemma ConsecutiveNonces(games: seq<FactoryGame>, first: nat, timeout: nat, k: nat)
    requires k < |games|
    ensures GroupIds(OurStarts(games, first, timeout))[k] == first + 2 * k
  {
  }

  lemma OurGroupIsOk(games: seq<FactoryGame>, first: nat, start: GameProposal)
    ensures GroupOk(QueuedGroup(OurStarts(games, first, start.timeout), WireGroup(start, OurMembers(games, first), first)))
  {
  }

  lemma ProposalChangesQueue(p: Peer, total: nat, games: seq<FactoryGame>, start: GameProposal)
    requires PeerOk(p, total)
    ensures
      var first := p.ch.myNextNonce;
      var group := QueuedGroup(OurStarts(games, first, start.timeout), WireGroup(start, OurMembers(games, first), first));
      QueueChanged(p, p.(ch := p.ch.(myNextNonce := first + 2 * |games|), queue := p.queue + [group]))
  {
    hide Money, CoinsOk, RecordsOk, GroupOk, Fresh, HashesOk, NonceDiscipline, OurStarts, OurMembers, FlagOk;
    var first := p.ch.myNextNonce;
    var group := QueuedGroup(OurStarts(games, first, start.timeout), WireGroup(start, OurMembers(games, first), first));
    OurGroupIsOk(games, first, start);
    var own := GroupIds(group.games);
    QueuedIdsOfAppend(p.queue, [group]);
    QueuedIdsOfFirst(group, []);
    assert [group] + [] == [group] && QueuedIds([group]) == own;
    GroupIsFresh(p.ch, QueuedIds(p.queue), games, start.timeout);
    forall i | 0 <= i < |own|
      ensures own[i] >= first
    {
      ConsecutiveNonces(games, first, start.timeout, i);
    }
  }

  // ---------------------------------------------------------------------------
  // Asking for the potato, and messages that do not carry it
  // ---------------------------------------------------------------------------

  lemma PeerOkIgnoresRequest(p: Peer, total: nat)
    requires PeerOk(p, total) && p.potato.Absent?
    ensures PeerOk(p.(potato := Requested), total)
  {
    hide SenderOk, RecordsOk, GroupsOk;
  }

  lemma RequestKeepsInv(clvm: Clvm, s: System, total: nat)
    requires Inv(clvm, s, total) && s.a.potato.Absent?
    ensures Inv(clvm, s.(a := s.a.(potato := Requested), ab := s.ab + [RequestPotato]), total)
  {
    hide PeerOk, ApplyActions, Linked, Behind, PotatoInv, Mirror, SignsCurrent, ShutdownIsCurrent, WiresOk, Vouched,
         AcceptsVouched, QueuedIds, FirstBatch;
    PeerOkIgnoresRequest(s.a, total + s.lapses.excessA);
    SendRequest(s.a.potato, s.b.potato, s.ab, s.ba);
    BatchesOfAppend(s.ab, [RequestPotato]);
  }

  lemma OtherMessagesKeepInv(clvm: Clvm, s: System, out: seq<PeerMessage>, total: nat)
    requires Inv(clvm, s, total) && Batches(out) == 0
    ensures Inv(clvm, s.(ab := s.ab + out), total)
  {
    hide PeerOk, InFlight, Behind, PotatoInv, Mirror, LogOk, WiresOk, Vouched, AcceptsVouched, QueuedIds, FirstBatch;
    SendOther(s.a.potato, s.b.potato, s.ab, s.ba, out);
    BatchesOfAppend(s.ab, out);
  }

  lemma TakeOtherKeepsInv(clvm: Clvm, s: System, total: nat)
    requires Inv(clvm, s, total) && s.ba != [] && !s.ba[0].Batch?
    requires s.ba[0].RequestPotato? ==> !s.a.potato.Present?
    ensures Inv(clvm, s.(ba := s.ba[1..]), total)
  {
    hide PeerOk, InFlight, Behind, PotatoInv, Mirror, LogOk, WiresOk, Vouched, AcceptsVouched;
    TakeOther(s.a.potato, s.b.potato, s.ab, s.ba);
  }

  lemma PotatoRequestKeepsInv(clvm: Clvm, s: System, total: nat)
    requires Inv(clvm, s, total)
    ensures
      var (p, out) := SendPotatoRequestIfNeeded(s.a);
      Inv(clvm, After(s, p, out), total)
  {
    hide Inv;
    if s.a.potato.Absent? {
      RequestKeepsInv(clvm, s, total);
      assert Logged([RequestPotato], s.a.(potato := Requested)) == [];
      assert s.sentByA + [] == s.sentByA;
    } else {
      assert s.ab + [] == s.ab && s.sentByA + [] == s.sentByA;
    }
  }

  lemma ActionKeepsInv(clvm: Clvm, s: System, action: GameAction, total: nat)
    requires Inv(clvm, s, total) && !action.QueuedGroup?
    ensures
      var (p, out) := DoGameAction(s.a, action);
      Inv(clvm, After(s, p, out), total)
  {
    hide PeerOk, PotatoInv, AtRest, QueueChanged, FlightOk, ProposalsOkBetween, LogOk;
    var q := s.a.(queue := s.a.queue + [action]);
    EnqueueChangesQueue(s.a, total + s.lapses.excessA, action);
    QueueChangeKeepsInv(clvm, s, q, total);
    PotatoRequestKeepsInv(clvm, s.(a := q), total);
    AfterReplaces(s, q, SendPotatoRequestIfNeeded(q).0, SendPotatoRequestIfNeeded(q).1);
  }

  lemma AfterReplaces(s: System, q: Peer, p: Peer, out: seq<PeerMessage>)
    ensures After(s.(a := q), p, out) == After(s, p, out)
  {
  }

  lemma {:induction false} ActionsKeepInv(clvm: Clvm, s: System, actions: seq<GameAction>, total: nat)
    requires Inv(clvm, s, total) && forall i :: 0 <= i < |actions| ==> !actions[i].QueuedGroup?
    ensures
      var (p, out) := DoGameActions(s.a, actions);
      Inv(clvm, After(s, p, out), total) && Batches(out) == 0
    decreases |actions|
  {
    hide Inv;
    if actions == [] {
      assert s.ab + [] == s.ab && s.sentByA + [] == s.sentByA;
    } else {
      var (next, out) := DoGameAction(s.a, actions[0]);
      ActionKeepsInv(clvm, s, actions[0], total);
      var mid := After(s, next, out);
      ActionsKeepInv(clvm, mid, actions[1..], total);
      var (end, more) := DoGameActions(next, actions[1..]);
      BatchesOfAppend(out, more);
      assert s.ab + out + more == s.ab + (out + more);
      assert s.sentByA + [] + [] == s.sentByA + [];
    }
  }

  lemma ProposalKeepsInv(clvm: Clvm, s: System, start: GameProposal, total: nat)
    requires Inv(clvm, s, total)
    ensures
      var (p, out) := ProposeGames(clvm, s.a, start);
      Inv(clvm, After(s, p, out), total)
  {
    hide PeerOk, PotatoInv, AtRest, QueueChanged, FlightOk, ProposalsOkBetween, LogOk, FactoryGames,
         SendPotatoRequestIfNeeded;
    var q := s.a.(queue := WithoutShutdown(s.a.queue));
    WithdrawShutdownChangesQueue(s.a, total + s.lapses.excessA);
    QueueChangeKeepsInv(clvm, s, q, total);
    var s1 := s.(a := q);
    assert s.ab + [] == s.ab && s.sentByA + [] == s.sentByA;
    if PeerProposalPending(q.ch) {
      UseNonceChangesQueue(q, total + s.lapses.excessA);
      QueueChangeKeepsInv(clvm, s1, q.(ch := q.ch.(myNextNonce := q.ch.myNextNonce + 2)), total);
    } else if FactoryGames(clvm, q.factories, start).Ok? && FactoryGames(clvm, q.factories, start).value != [] {
      var games := FactoryGames(clvm, q.factories, start).value;
      var first := q.ch.myNextNonce;
      var group := QueuedGroup(OurStarts(games, first, start.timeout), WireGroup(start, OurMembers(games, first), first));
      var q2 := q.(ch := q.ch.(myNextNonce := first + 2 * |games|), queue := q.queue + [group]);
      ProposalChangesQueue(q, total + s.lapses.excessA, games, start);
      QueueChangeKeepsInv(clvm, s1, q2, total);
      PotatoRequestKeepsInv(clvm, s1.(a := q2), total);
    }
  }
}

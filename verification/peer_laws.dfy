/** What a peer does with its queue and with groups of games
    (src/session_phases/mod.rs). */
module PeerLaws {
  import opened Wrappers
  import opened Chain
  import opened Referees
  import opened Channels
  import opened OffChainPeers

  // ---------------------------------------------------------------------------
  // Groups are taken whole
  // ---------------------------------------------------------------------------

  lemma {:induction false} MembersAre(proposals: seq<ProposedGame>, groupId: nat)
    ensures forall i :: 0 <= i < |proposals| && proposals[i].groupId == groupId ==>
              proposals[i].gameId in MembersOf(proposals, groupId)
    ensures forall id <- MembersOf(proposals, groupId) ::
              exists i :: 0 <= i < |proposals| && proposals[i].gameId == id && proposals[i].groupId == groupId
  {
    if proposals != [] {
      var rest := proposals[1..];
      MembersAre(rest, groupId);
      assert forall i :: 0 <= i < |rest| ==> rest[i] == proposals[i + 1];
    }
  }

  /** A batch that applies accepts a group whole or not at all, and cancels it
      likewise. */
  lemma AppliedBatchesTakeGroupsWhole(clvm: Clvm, p: Peer, actions: seq<BatchAction>, i: nat, j: nat)
    requires ApplyBatch(clvm, p, actions).Ok? && i < |p.ch.proposed| && j < |p.ch.proposed|
    requires ProposalPosition(p.ch.proposed, p.ch.proposed[i].gameId) == Some(i)
    requires p.ch.proposed[i].groupId == p.ch.proposed[j].groupId
    ensures p.ch.proposed[i].gameId in AcceptedIds(actions) ==> p.ch.proposed[j].gameId in AcceptedIds(actions)
    ensures p.ch.proposed[i].gameId in CancelledIds(actions) ==> p.ch.proposed[j].gameId in CancelledIds(actions)
  {
    hide ApplyActions;
    if p.ch.proposed[i].gameId in AcceptedIds(actions) {
      GroupIsWhole(p.ch, AcceptedIds(actions), i, j);
    }
    if p.ch.proposed[i].gameId in CancelledIds(actions) {
      GroupIsWhole(p.ch, CancelledIds(actions), i, j);
    }
  }

  lemma GroupIsWhole(ch: Channel, ids: seq<nat>, i: nat, j: nat)
    requires WholeGroups(ch, ids) && i < |ch.proposed| && j < |ch.proposed|
    requires ProposalPosition(ch.proposed, ch.proposed[i].gameId) == Some(i)
    requires ch.proposed[i].groupId == ch.proposed[j].groupId && ch.proposed[i].gameId in ids
    ensures ch.proposed[j].gameId in ids
  {
    var k :| 0 <= k < |ids| && ids[k] == ch.proposed[i].gameId;
    assert GroupNamedWhole(ch, ids[k], ids);
    var members := MembersOf(ch.proposed, ch.proposed[i].groupId);
    MembersAre(ch.proposed, ch.proposed[i].groupId);
    var a :| 0 <= a < |members| && members[a] == ch.proposed[i].gameId;
    var b :| 0 <= b < |members| && members[b] == ch.proposed[j].gameId;
  }

  // --- Accepting a group --------------------------------------------------------------

  predicate UniqueIds(proposals: seq<ProposedGame>) {
    forall i, j :: 0 <= i < j < |proposals| ==> proposals[i].gameId != proposals[j].gameId
  }

  lemma {:induction false} MembersOfAppend(a: seq<ProposedGame>, b: seq<ProposedGame>, groupId: nat)
    ensures MembersOf(a + b, groupId) == MembersOf(a, groupId) + MembersOf(b, groupId)
  {
    if a == [] {
      assert a + b == b;
    } else {
      var rest, first := a[1..], if a[0].groupId == groupId then [a[0].gameId] else [];
      assert (a + b)[0] == a[0] && (a + b)[1..] == rest + b;
      assert MembersOf(a + b, groupId) == first + MembersOf(rest + b, groupId);
      assert MembersOf(a, groupId) == first + MembersOf(rest, groupId);
      hide MembersOf;
      MembersOfAppend(rest, b, groupId);
    }
  }

  lemma {:induction false} ContributionsOfAppend(a: seq<ProposedGame>, b: seq<ProposedGame>, groupId: nat)
    ensures Contributions(a + b, groupId).0 == Contributions(a, groupId).0 + Contributions(b, groupId).0
    ensures Contributions(a + b, groupId).1 == Contributions(a, groupId).1 + Contributions(b, groupId).1
  {
    if a == [] {
      assert a + b == b;
    } else {
      assert (a + b)[0] == a[0] && (a + b)[1..] == a[1..] + b;
      ContributionsOfAppend(a[1..], b, groupId);
    }
  }

  /** Nothing of the group comes before its first member. */
  lemma {:induction false} FirstMemberFound(proposals: seq<ProposedGame>, groupId: nat)
    requires UniqueIds(proposals) && MembersOf(proposals, groupId) != []
    ensures
      var at := ProposalPosition(proposals, MembersOf(proposals, groupId)[0]);
      at.Some? && proposals[at.value].groupId == groupId && MembersOf(proposals[..at.value], groupId) == []
  {
    if proposals[0].groupId != groupId {
      var rest := proposals[1..];
      FirstMemberFound(rest, groupId);
      var at := ProposalPosition(rest, MembersOf(rest, groupId)[0]).value;
      assert proposals[at + 1] == rest[at];
      assert proposals[..at + 1][1..] == rest[..at];
    }
  }

  /** Taking the first member out of a group leaves the others, and their stakes. */
  lemma FirstMemberTaken(proposals: seq<ProposedGame>, groupId: nat)
    requires UniqueIds(proposals) && MembersOf(proposals, groupId) != []
    ensures
      var at := ProposalPosition(proposals, MembersOf(proposals, groupId)[0]);
      && at.Some?
      && var p := proposals[at.value];
      var rest := RemoveAt(proposals, at.value);
      var (mine, theirs) := Contributions(proposals, groupId);
      && p.groupId == groupId && UniqueIds(rest)
      && MembersOf(rest, groupId) == MembersOf(proposals, groupId)[1..]
      && Contributions(rest, groupId).0 + p.myContribution == mine
      && Contributions(rest, groupId).1 + p.theirContribution == theirs
  {
    FirstMemberFound(proposals, groupId);
    var at := ProposalPosition(proposals, MembersOf(proposals, groupId)[0]).value;
    var before, tail := proposals[..at], proposals[at..];
    UniqueWithout(proposals, at);
    HeadTaken(tail);
    hide MembersOf, Contributions, ProposalPosition, UniqueIds;
    MembersOfAppend(before, tail, groupId);
    MembersOfAppend(before, tail[1..], groupId);
    ContributionsOfAppend(before, tail, groupId);
    ContributionsOfAppend(before, tail[1..], groupId);
    assert before + tail == proposals && before + tail[1..] == RemoveAt(proposals, at);
  }

  lemma HeadTaken(tail: seq<ProposedGame>)
    requires tail != []
    ensures MembersOf(tail, tail[0].groupId) == [tail[0].gameId] + MembersOf(tail[1..], tail[0].groupId)
    ensures Contributions(tail, tail[0].groupId).0
            == tail[0].myContribution + Contributions(tail[1..], tail[0].groupId).0
    ensures Contributions(tail, tail[0].groupId).1
            == tail[0].theirContribution + Contributions(tail[1..], tail[0].groupId).1
  {
  }

  lemma UniqueWithout(proposals: seq<ProposedGame>, at: nat)
    requires UniqueIds(proposals) && at < |proposals|
    ensures UniqueIds(RemoveAt(proposals, at))
  {
  }

  function Accepts(ids: seq<nat>): (r: seq<BatchAction>)
    ensures |r| == |ids|
  {
    seq(|ids|, i requires 0 <= i < |ids| => AcceptProposal(ids[i]))
  }

  function QueuedAccepts(ids: seq<nat>): (r: seq<GameAction>)
    ensures |r| == |ids|
  {
    seq(|ids|, i requires 0 <= i < |ids| => QueuedAccept(ids[i]))
  }

  /** A group that the balances cover, in a drain. */
  predicate Covered(ch: Channel, groupId: nat) {
    && UniqueIds(ch.proposed)
    && (forall id <- MembersOf(ch.proposed, groupId) :: !ch.IsOurNonce(id))
    && Contributions(ch.proposed, groupId).0 <= ch.myOut && Contributions(ch.proposed, groupId).1 <= ch.theirOut
  }

  lemma MemberDrains(clvm: Clvm, st: Draining, groupId: nat)
    requires Covered(st.ch, groupId) && MembersOf(st.ch.proposed, groupId) != []
    ensures
      var ids := MembersOf(st.ch.proposed, groupId);
      var r := DrainAction(clvm, st, QueuedAccept(ids[0]));
      && r.Ok? && r.value.batch == st.batch + [AcceptProposal(ids[0])]
      && r.value.deferred == st.deferred && r.value.shutdown == st.shutdown
      && Covered(r.value.ch, groupId) && MembersOf(r.value.ch.proposed, groupId) == ids[1..]
  {
    hide RemoveAt, UniqueIds, DrainCancel;
    FirstMemberTaken(st.ch.proposed, groupId);
    var ids := MembersOf(st.ch.proposed, groupId);
    var at := ProposalPosition(st.ch.proposed, ids[0]).value;
    assert DrainAccept(st, ids[0]).Ok? && DrainAccept(st, ids[0]).value.ch.proposed == RemoveAt(st.ch.proposed, at);
    hide Contributions, MembersOf;
    assert forall id <- ids[1..] :: id in ids;
  }

  /** The first k members drained. */
  lemma {:induction false} GroupDrains(clvm: Clvm, ch: Channel, groupId: nat, k: nat)
    requires Covered(ch, groupId) && k <= |MembersOf(ch.proposed, groupId)|
    ensures
      var ids := MembersOf(ch.proposed, groupId);
      var all := DrainAll(clvm, ch, QueuedAccepts(ids[..k]));
      && all.Ok? && all.value.batch == Accepts(ids[..k]) && all.value.deferred == [] && all.value.shutdown.None?
      && Covered(all.value.ch, groupId) && MembersOf(all.value.ch.proposed, groupId) == ids[k..]
    decreases k
  {
    hide Covered, MembersOf, DrainAction;
    var ids := MembersOf(ch.proposed, groupId);
    if k > 0 {
      GroupDrains(clvm, ch, groupId, k - 1);
      var queue := QueuedAccepts(ids[..k]);
      assert queue[..k - 1] == QueuedAccepts(ids[..k - 1]);
      assert Accepts(ids[..k]) == Accepts(ids[..k - 1]) + [AcceptProposal(ids[k - 1])];
      MemberDrains(clvm, DrainAll(clvm, ch, queue[..k - 1]).value, groupId);
      assert ids[k - 1..][1..] == ids[k..];
    } else {
      assert ids[..0] == [] && ids[0..] == ids && Accepts([]) == [] && QueuedAccepts([]) == [];
    }
  }

  /** Accepting a group the balances cover, with nothing else queued, sends the
      acceptance of every member and cancels none. */
  lemma CoveredGroupIsAccepted(clvm: Clvm, p: Peer, id: nat)
    requires UniqueIds(p.ch.proposed) && p.queue == [] && ProposalPosition(p.ch.proposed, id).Some?
    requires
      var groupId := p.ch.proposed[ProposalPosition(p.ch.proposed, id).value].groupId;
      && (forall x <- MembersOf(p.ch.proposed, groupId) :: !p.ch.IsOurNonce(x))
      && Contributions(p.ch.proposed, groupId).0 <= p.ch.myOut && Contributions(p.ch.proposed, groupId).1 <= p.ch.theirOut
    ensures
      var ids := MembersOf(p.ch.proposed, p.ch.proposed[ProposalPosition(p.ch.proposed, id).value].groupId);
      var q := AcceptProposals(p, id).0;
      var all := DrainAll(clvm, p.ch, q.queue);
      && q.ch == p.ch && id in ids && all.Ok? && all.value.batch == Accepts(ids)
      && MembersOf(all.value.ch.proposed, p.ch.proposed[ProposalPosition(p.ch.proposed, id).value].groupId) == []
  {
    hide DrainAll, Contributions;
    var at := ProposalPosition(p.ch.proposed, id).value;
    var groupId := p.ch.proposed[at].groupId;
    var ids := MembersOf(p.ch.proposed, groupId);
    MembersAre(p.ch.proposed, groupId);
    var actions := QueuedAccepts(ids);
    AllQueued(p, actions);
    assert [] + actions == actions;
    GroupDrains(clvm, p.ch, groupId, |ids|);
    assert ids[..|ids|] == ids && ids[|ids|..] == [];
    var (mine, theirs) := Contributions(p.ch.proposed, groupId);
    var short := mine > p.ch.myOut || theirs > p.ch.theirOut;
    assert ForEach(ids, (gid: nat) => if short then QueuedSilentCancel(gid) else QueuedAccept(gid)) == actions;
  }

  /** A group they do not cover is cancelled whole, without a word to the user. */
  lemma UncoveredGroupIsCancelled(clvm: Clvm, p: Peer, id: nat)
    requires ProposalPosition(p.ch.proposed, id).Some?
    requires
      var groupId := p.ch.proposed[ProposalPosition(p.ch.proposed, id).value].groupId;
      Contributions(p.ch.proposed, groupId).0 > p.ch.myOut || Contributions(p.ch.proposed, groupId).1 > p.ch.theirOut
    ensures
      var ids := MembersOf(p.ch.proposed, p.ch.proposed[ProposalPosition(p.ch.proposed, id).value].groupId);
      var q := AcceptProposals(p, id).0;
      && |q.queue| == |p.queue| + |ids| && q.queue[..|p.queue|] == p.queue && q.ch == p.ch
      && forall i :: 0 <= i < |ids| ==> q.queue[|p.queue| + i] == QueuedSilentCancel(ids[i])
  {
    hide Contributions;
    var groupId := p.ch.proposed[ProposalPosition(p.ch.proposed, id).value].groupId;
    var ids := MembersOf(p.ch.proposed, groupId);
    var (mine, theirs) := Contributions(p.ch.proposed, groupId);
    var short := mine > p.ch.myOut || theirs > p.ch.theirOut;
    AllQueued(p, ForEach(ids, (gid: nat) => if short then QueuedSilentCancel(gid) else QueuedAccept(gid)));
  }

  function QueuedCancels(ids: seq<nat>): (r: seq<GameAction>)
    ensures |r| == |ids|
  {
    seq(|ids|, i requires 0 <= i < |ids| => QueuedCancel(ids[i]))
  }

  /** Cancelling any member of a group queues the cancellation of the whole group. */
  lemma GroupIsCancelledWhole(p: Peer, id: nat)
    requires ProposalPosition(p.ch.proposed, id).Some?
    ensures
      var groupId := p.ch.proposed[ProposalPosition(p.ch.proposed, id).value].groupId;
      var ids := MembersOf(p.ch.proposed, groupId);
      && CancelProposals(p, id).0.queue == p.queue + QueuedCancels(ids) && id in ids
      && forall k :: 0 <= k < |p.ch.proposed| && p.ch.proposed[k].groupId == groupId ==> p.ch.proposed[k].gameId in ids
  {
    var groupId := p.ch.proposed[ProposalPosition(p.ch.proposed, id).value].groupId;
    var ids := MembersOf(p.ch.proposed, groupId);
    MembersAre(p.ch.proposed, groupId);
    AllQueued(p, QueuedCancels(ids));
    assert ForEach(ids, (gid: nat) => QueuedCancel(gid)) == QueuedCancels(ids);
  }

  lemma {:induction false} AllQueued(p: Peer, actions: seq<GameAction>)
    ensures DoGameActions(p, actions).0.queue == p.queue + actions && DoGameActions(p, actions).0.ch == p.ch
    decreases |actions|
  {
    if actions == [] {
      assert p.queue + actions == p.queue;
    } else {
      AllQueued(DoGameAction(p, actions[0]).0, actions[1..]);
      assert p.queue + [actions[0]] + actions[1..] == p.queue + actions;
    }
  }

  /** A queued acceptance fails only when there is no such proposal of the peer's;
      it accepts exactly when both balances cover the stakes, and cancels otherwise. */
  lemma AcceptDrainsIff(clvm: Clvm, st: Draining, id: nat)
    ensures
      var r := DrainAction(clvm, st, QueuedAccept(id));
      var at := ProposalPosition(st.ch.proposed, id);
      && (r.Ok? <==> at.Some? && !st.ch.IsOurNonce(id))
      && (r.Ok? ==>
            var p := st.ch.proposed[at.value];
            var covered := p.myContribution <= st.ch.myOut && p.theirContribution <= st.ch.theirOut;
            && r.value.batch == st.batch + [if covered then AcceptProposal(id) else CancelledProposal(id)]
            && r.value.ch.proposed == RemoveAt(st.ch.proposed, at.value)
            && |r.value.ch.live| == |st.ch.live| + (if covered then 1 else 0))
  {
    hide RemoveAt;
  }

  /** Whether a queued move is tried: at our turn in a live game, or in one that is
      only proposed so far. */
  predicate Tried(ch: Channel, id: nat) {
    var live, proposed := LivePosition(ch.live, id), ProposalPosition(ch.proposed, id);
    if live.Some? then ch.live[live.value].referee.MyTurn?
    else proposed.Some? && ch.proposed[proposed.value].referee.MyTurn?
  }

  /** A move the game's handler rejects is dropped and the drain goes on; one out
      of turn, or for no game, is put back for later; and one for a game that is
      not live yet, but would be at our turn, fails. */
  lemma MoveDrains(clvm: Clvm, st: Draining, move: GameAction)
    requires move.QueuedMove?
    ensures
      var r := DrainAction(clvm, st, move);
      var sent := SendMove(clvm, st.ch, move.gameId, move.readable, move.entropy);
      var rejected := sent.Err? && sent.error.RefereeFailed? && sent.error.error.MoveRejected?;
      && (!Tried(st.ch, move.gameId) ==> r == Ok(st.(deferred := st.deferred + [move])))
      && (Tried(st.ch, move.gameId) && rejected ==> r == Ok(st))
      && (r.Err? <==> Tried(st.ch, move.gameId) && sent.Err? && !rejected)
      && (Tried(st.ch, move.gameId) && LivePosition(st.ch.live, move.gameId).None? ==> r == Err(ChannelFailed(NoSuchGame)))
  {
    hide MyTurnMakeMove;
  }

  /** A group that gets through is just what our own factory makes of its
      parameters, under distinct numbers, the first of them its own. */
  lemma HydratedIsChecked(clvm: Clvm, factories: Factories, wire: WireGroup)
    requires Hydrate(clvm, factories, wire).Ok?
    ensures
      var starts := Hydrate(clvm, factories, wire).value;
      var games := FactoryGames(clvm, factories, wire.start);
      && games.Ok? && |starts| == |wire.members| == |games.value| > 0 && wire.groupId == wire.members[0].gameId
      && (forall i, j :: 0 <= i < j < |starts| ==> starts[i].gameId != starts[j].gameId)
      && forall i :: 0 <= i < |starts| ==>
           && starts[i] == GameStart(games.value[i], wire.members[i].gameId, wire.start.timeout, false)
           && wire.members[i] == WireSpec(games.value[i], starts[i].gameId)
  {
    hide FactoryGames;
  }

  /** A move we take is answered with exactly what its handler has to say. */
  lemma TakenMoveIsAnswered(clvm: Clvm, factories: Factories, ch: Channel, actions: seq<BatchAction>, k: nat)
    requires ApplyActions(clvm, factories, ch, actions).Ok? && k < |actions| && actions[k].Move?
    requires ApplyActions(clvm, factories, ch, actions[..k]).Ok?
    requires
      var before := ApplyActions(clvm, factories, ch, actions[..k]).value;
      ApplyReceivedMove(clvm, before, actions[k].gameId, actions[k].details).Ok?
    ensures
      var before := ApplyActions(clvm, factories, ch, actions[..k]).value;
      var out := ApplyReceivedMove(clvm, before, actions[k].gameId, actions[k].details).value.1;
      out.message != [] ==> GameMessage(actions[k].gameId, out.message) in Replies(clvm, factories, ch, actions)
    decreases |actions|
  {
    hide ApplyAction, ApplyReceivedMove;
    var last := |actions| - 1;
    if k < last {
      assert actions[..last][..k] == actions[..k];
      TakenMoveIsAnswered(clvm, factories, ch, actions[..last], k);
    } else {
      assert actions[..k] == actions[..last];
    }
  }

  // ---------------------------------------------------------------------------
  // What a received batch does to the queue
  // ---------------------------------------------------------------------------

  lemma {:induction false} WithoutGroupsIs(queue: seq<GameAction>)
    ensures forall x <- WithoutGroups(queue) :: !x.QueuedGroup? && x in queue
    ensures forall x <- queue :: x.QueuedGroup? || x in WithoutGroups(queue)
  {
    if queue != [] {
      WithoutGroupsIs(queue[1..]);
    }
  }

  lemma {:induction false} WithoutShutdownIs(queue: seq<GameAction>)
    ensures forall x <- WithoutShutdown(queue) :: !x.QueuedShutdown? && x in queue
    ensures forall x <- queue :: x.QueuedShutdown? || x in WithoutShutdown(queue)
  {
    if queue != [] {
      WithoutShutdownIs(queue[1..]);
    }
  }

  predicate HasGroup(actions: seq<BatchAction>) { exists i :: 0 <= i < |actions| && actions[i].ProposeGroup? }

  /** Of what was queued before a batch came in, exactly our groups go when the
      peer proposes one; what is added settles games that are over for us. */
  lemma {:induction false} ActionsKeepQueue(
    clvm: Clvm, factories: Factories, ch: Channel, queue: seq<GameAction>, actions: seq<BatchAction>)
    requires ApplyActions(clvm, factories, ch, actions).Ok?
    ensures
      var after := QueueAfterActions(clvm, factories, ch, queue, actions);
      && (forall x <- queue :: x in after || (x.QueuedGroup? && HasGroup(actions)))
      && (forall x <- after :: x in queue || x.QueuedSettlement?)
      && (HasGroup(actions) ==> forall x <- after :: !x.QueuedGroup?)
    decreases |actions|
  {
    hide ApplyAction, FinishedForUs;
    if actions != [] {
      var last := |actions| - 1;
      ActionsKeepQueue(clvm, factories, ch, queue, actions[..last]);
      var before := QueueAfterActions(clvm, factories, ch, queue, actions[..last]);
      WithoutGroupsIs(before);
      assert actions == actions[..last] + [actions[last]];
      assert HasGroup(actions) <==> HasGroup(actions[..last]) || actions[last].ProposeGroup? by {
        if HasGroup(actions) {
          var i :| 0 <= i < |actions| && actions[i].ProposeGroup?;
          assert i < last ==> actions[..last][i].ProposeGroup?;
        }
        if HasGroup(actions[..last]) {
          var i :| 0 <= i < |actions[..last]| && actions[..last][i].ProposeGroup?;
          assert actions[i].ProposeGroup?;
        }
        if actions[last].ProposeGroup? {
          assert HasGroup(actions);
        }
      }
    }
  }

  predicate HasAccept(actions: seq<BatchAction>) { exists i :: 0 <= i < |actions| && actions[i].AcceptProposal? }

  /** And a queued shutdown goes when the batch proposes games or accepts one. */
  lemma BatchKeepsQueue(clvm: Clvm, p: Peer, actions: seq<BatchAction>)
    requires ApplyBatch(clvm, p, actions).Ok?
    ensures
      var after := QueueAfterBatch(clvm, p, actions);
      && (forall x <- p.queue ::
            || x in after || (x.QueuedGroup? && HasGroup(actions)) || (x.QueuedShutdown? && (HasGroup(actions) || HasAccept(actions))))
      && (forall x <- after :: x in p.queue || x.QueuedSettlement?)
      && (HasGroup(actions) ==> forall x <- after :: !x.QueuedGroup?)
      && (HasGroup(actions) || HasAccept(actions) ==> forall x <- after :: !x.QueuedShutdown?)
  {
    assert HasNewGame(actions) <==> HasGroup(actions) || HasAccept(actions);
    hide ApplyActions, WholeGroups, QueueAfterActions, HasGroup, HasAccept, HasNewGame;
    ActionsKeepQueue(clvm, p.factories, p.ch, p.queue, actions);
    WithoutShutdownIs(QueueAfterActions(clvm, p.factories, p.ch, p.queue, actions));
  }

  lemma {:induction false} FinishedIsQueued(
    clvm: Clvm, factories: Factories, ch: Channel, queue: seq<GameAction>, actions: seq<BatchAction>, k: nat)
    requires ApplyActions(clvm, factories, ch, actions).Ok? && k < |actions| && actions[k].Move?
    requires ApplyActions(clvm, factories, ch, actions[..k + 1]).Ok?
    requires FinishedForUs(ApplyActions(clvm, factories, ch, actions[..k + 1]).value, actions[k].gameId)
    ensures QueuedSettlement(actions[k].gameId) in QueueAfterActions(clvm, factories, ch, queue, actions)
    decreases |actions|
  {
    hide ApplyAction, QueueAfterAction, FinishedForUs;
    var last := |actions| - 1;
    var before := QueueAfterActions(clvm, factories, ch, queue, actions[..last]);
    var after := ApplyActions(clvm, factories, ch, actions).value;
    if k < last {
      assert actions[..last][..k + 1] == actions[..k + 1];
      FinishedIsQueued(clvm, factories, ch, queue, actions[..last], k);
    } else {
      assert actions[..k + 1] == actions;
    }
    ActionQueues(after, before, actions[last], actions[k].gameId);
  }

  lemma ActionQueues(after: Channel, queue: seq<GameAction>, action: BatchAction, id: nat)
    ensures
      (action.Move? && action.gameId == id && FinishedForUs(after, id)) || QueuedSettlement(id) in queue ==>
        QueuedSettlement(id) in QueueAfterAction(after, queue, action)
  {
    hide FinishedForUs;
    WithoutGroupsIs(queue);
  }

  /** A game that the peer's move has finished, at our turn and with no handler
      left, is queued to settle. */
  lemma FinishedGameIsSettled(
    clvm: Clvm, factories: Factories, ch: Channel, queue: seq<GameAction>, actions: seq<BatchAction>, k: nat)
    requires ApplyActions(clvm, factories, ch, actions).Ok? && k < |actions| && actions[k].Move?
    requires ApplyActions(clvm, factories, ch, actions[..k + 1]).Ok?
    requires
      var after := ApplyActions(clvm, factories, ch, actions[..k + 1]).value;
      var at := LivePosition(after.live, actions[k].gameId);
      at.Some? && after.live[at.value].referee.MyTurn? && after.live[at.value].referee.handler.None?
    ensures QueuedSettlement(actions[k].gameId) in QueueAfterActions(clvm, factories, ch, queue, actions)
  {
    hide ApplyActions, QueueAfterActions;
    FinishedIsQueued(clvm, factories, ch, queue, actions, k);
  }

  // ---------------------------------------------------------------------------
  // What a received potato leads to
  // ---------------------------------------------------------------------------

  /** The potato is kept exactly when a move or settlement of ours fails, or when
      there is nothing to send, nobody has asked for it, and no settlement is to be
      answered; otherwise it goes out with one batch. */
  lemma PotatoIsKeptIff(clvm: Clvm, p: Peer, sendBack: bool)
    requires p.potato.Present? && UsePotato(clvm, p, sendBack).Ok?
    ensures
      var (next, out) := UsePotato(clvm, p, sendBack).value;
      var drained := DrainAll(clvm, p.ch, p.queue);
      var idle := drained.Ok? && drained.value.batch == [] && drained.value.shutdown.None?;
      && (next.potato.Present? <==> drained.Err? || (idle && !p.peerWants && !sendBack))
      && (if next.potato.Present? then out == [] else |out| == 1 && out[0].Batch?)
      && (idle && p.peerWants ==> !next.peerWants)
  {
    hide DrainAll, UpdateCachedUnrollState;
  }

  /** When a settlement leaves the peer nothing, no game is live and we have
      nothing else to do, the channel is closed at once: what goes out is the
      shutdown with its payout. */
  lemma LastSettlementCloses(clvm: Clvm, p: Peer, actions: seq<BatchAction>, signatures: StateUpdateSignatures)
    requires ReceivePotato(clvm, p, actions, signatures).Ok? && HasSettlement(actions)
    requires QueueAfterBatch(clvm, p, actions) == []
    requires ReceivePotato(clvm, p, actions, signatures).value.ch.theirOut == 0
    requires ReceivePotato(clvm, p, actions, signatures).value.ch.live == []
    ensures
      var received := ReceivePotato(clvm, p, actions, signatures).value;
      var used := UsePotato(clvm, received, true);
      && used.Ok? && used.value.0.pendingShutdown && used.value.0.potato.Absent?
      && |used.value.1| == 1 && used.value.1[0].Batch? && used.value.1[0].actions == []
      && used.value.1[0].shutdown
         == Some(Shutdown(OurChannelHalf(received.ch.id, ShutdownConditions(received.ch)), ShutdownConditions(received.ch)))
  {
    hide ApplyBatch, VerifyReceivedBatch, QueueAfterBatch, HasSettlement, UpdateCachedUnrollState, ShutdownConditions;
    var received := ReceivePotato(clvm, p, actions, signatures).value;
    assert received.queue == [QueuedShutdown] && received.potato.Present?;
    assert received.queue[..0] == [];
    assert DrainAll(clvm, received.ch, []) == Ok(Draining(received.ch, [], [], None));
    ProposalsPayNothing(received.ch);
  }

  lemma ProposalsPayNothing(ch: Channel)
    ensures ShutdownConditions(ch.(proposed := [])) == ShutdownConditions(ch)
  {
  }

  /** A proposal of the peer's, numbered with its parity, is open. */
  predicate TheirsOpen(ch: Channel) {
    exists i :: 0 <= i < |ch.proposed| && ch.proposed[i].gameId % 2 != ch.myNextNonce % 2
  }

  /** A proposal withdraws a queued shutdown and nothing else; while one of the
      peer's is open, or without games, it queues nothing. */
  lemma ProposalKeepsQueue(clvm: Clvm, p: Peer, start: GameProposal)
    ensures
      var q := ProposeGames(clvm, p, start).0;
      var games := FactoryGames(clvm, p.factories, start);
      && (forall x <- p.queue :: x in q.queue || x.QueuedShutdown?)
      && (TheirsOpen(p.ch) ==> q.ch.myNextNonce == p.ch.myNextNonce + 2)
      && (TheirsOpen(p.ch) || games.Err? || games.value == [] ==> q.queue == WithoutShutdown(p.queue))
  {
    assert PeerProposalPending(p.ch) <==> TheirsOpen(p.ch);
    hide FactoryGames, PeerProposalPending, TheirsOpen, OurStarts, OurMembers;
    WithoutShutdownIs(p.queue);
  }

  /** Otherwise it queues one group, with consecutive numbers of ours from the next
      one on, described as the factory says. */
  lemma ProposalQueues(clvm: Clvm, p: Peer, start: GameProposal)
    requires !TheirsOpen(p.ch) && FactoryGames(clvm, p.factories, start).Ok?
    requires FactoryGames(clvm, p.factories, start).value != []
    ensures
      var q := ProposeGames(clvm, p, start).0;
      var games := FactoryGames(clvm, p.factories, start).value;
      && q.ch.myNextNonce == p.ch.myNextNonce + 2 * |games|
      && q.queue == WithoutShutdown(p.queue) + [q.queue[|q.queue| - 1]]
      && var group := q.queue[|q.queue| - 1];
      && group.QueuedGroup? && |group.games| == |group.wire.members| == |games|
      && group.wire.start == start && group.wire.groupId == p.ch.myNextNonce
      && forall i :: 0 <= i < |group.games| ==>
           && group.games[i].gameId == group.wire.members[i].gameId == p.ch.myNextNonce + 2 * i
           && group.games[i] == GameStart(games[i], p.ch.myNextNonce + 2 * i, start.timeout, true)
           && group.wire.members[i] == WireSpec(games[i], p.ch.myNextNonce + 2 * i)
  {
    assert !PeerProposalPending(p.ch);
    var games, first := FactoryGames(clvm, p.factories, start).value, p.ch.myNextNonce;
    OurGroup(games, first, start.timeout);
    hide FactoryGames, PeerProposalPending, TheirsOpen, WithoutShutdown, OurStarts, OurMembers, GameStart, WireSpec;
    assert ProposeGames(clvm, p, start).0.queue == WithoutShutdown(p.queue) + [
        QueuedGroup(OurStarts(games, first, start.timeout), WireGroup(start, OurMembers(games, first), first))];
  }

  lemma OurGroup(games: seq<FactoryGame>, first: nat, timeout: nat)
    ensures
      var starts, members := OurStarts(games, first, timeout), OurMembers(games, first);
      forall i :: 0 <= i < |games| ==>
        && starts[i].gameId == members[i].gameId == first + 2 * i
        && starts[i] == GameStart(games[i], first + 2 * i, timeout, true)
        && members[i] == WireSpec(games[i], first + 2 * i)
  {
  }
}

/** Proposals whose amount is the sum of the two contributions.  Only the side
    that receives a proposal checks it; so whatever it accepts adds up for the
    proposer too, whether or not the two sides' views mirror each other. */
module VouchedProposals {
  import opened Wrappers
  import opened Chain
  import opened Referees
  import opened Channels
  import opened ChannelMoney
  import opened ChannelGames
  import opened OffChainPeers
  import opened PeerInvariants
  import opened MirroredViews
  import opened FailedDrains

  // ---------------------------------------------------------------------------
  // What is vouched for
  // ---------------------------------------------------------------------------

  /** Our proposals that the other side holds add up. */
  ghost predicate Vouched(a: Channel, b: Channel) {
    forall i, j :: 0 <= i < |a.proposed| && 0 <= j < |b.proposed| ==>
      a.proposed[i].gameId == b.proposed[j].gameId && a.IsOurNonce(a.proposed[i].gameId) ==> ProposalAddsUp(a.proposed[i])
  }

  /** Our proposals that a batch on its way to us accepts add up. */
  ghost predicate AcceptsVouched(a: Channel, actions: seq<BatchAction>) {
    forall i :: 0 <= i < |a.proposed| ==>
      a.IsOurNonce(a.proposed[i].gameId) && a.proposed[i].gameId in AcceptedIds(actions) ==> ProposalAddsUp(a.proposed[i])
  }

  ghost predicate SameSums(p: ProposedGame, spec: WireGameSpec) {
    && p.myContribution == spec.senderContribution && p.theirContribution == spec.receiverContribution
    && p.referee.fixed.amount == spec.amount
  }

  /** A member sent: below every identifier still to be sent, and what we hold
      under its own says the same. */
  ghost predicate MemberOk(a: Channel, ids: seq<nat>, spec: WireGameSpec) {
    && a.IsOurNonce(spec.gameId) && spec.gameId < a.myNextNonce
    && (forall i :: 0 <= i < |ids| ==> spec.gameId < ids[i])
    && forall i :: 0 <= i < |a.proposed| && a.proposed[i].gameId == spec.gameId ==> SameSums(a.proposed[i], spec)
  }

  ghost predicate WireOk(a: Channel, ids: seq<nat>, wire: WireGroup) {
    forall j :: 0 <= j < |wire.members| ==> MemberOk(a, ids, wire.members[j])
  }

  ghost predicate WiresOk(a: Channel, ids: seq<nat>, actions: seq<BatchAction>) {
    forall k :: 0 <= k < |actions| && actions[k].ProposeGroup? ==> WireOk(a, ids, actions[k].wire)
  }

  // ---------------------------------------------------------------------------
  // Sending
  // ---------------------------------------------------------------------------

  /** What a batch accepts, the sender held as the other side's proposals. */
  ghost predicate AcceptsOld(ch0: Channel, batch: seq<BatchAction>) {
    forall x :: x in AcceptedIds(batch) ==>
      !ch0.IsOurNonce(x) && exists j :: 0 <= j < |ch0.proposed| && ch0.proposed[j].gameId == x
  }

  lemma WiresStayOk(a: Channel, next: Channel, ids: seq<nat>, fewer: seq<nat>, actions: seq<BatchAction>)
    requires WiresOk(a, ids, actions) && next.myNextNonce == a.myNextNonce
    requires forall x :: x in fewer ==> x in ids
    requires forall i :: 0 <= i < |next.proposed| ==> next.proposed[i] in a.proposed || next.proposed[i].gameId in ids
    ensures WiresOk(next, fewer, actions)
  {
    hide SameSums;
    forall k, j | 0 <= k < |actions| && actions[k].ProposeGroup? && 0 <= j < |actions[k].wire.members|
      ensures MemberOk(next, fewer, actions[k].wire.members[j])
    {
      assert WireOk(a, ids, actions[k].wire);
      assert MemberOk(a, ids, actions[k].wire.members[j]);
      MemberStaysOk(a, next, ids, fewer, actions[k].wire.members[j]);
    }
  }

  lemma MemberStaysOk(a: Channel, next: Channel, ids: seq<nat>, fewer: seq<nat>, spec: WireGameSpec)
    requires MemberOk(a, ids, spec) && next.myNextNonce == a.myNextNonce
    requires forall x :: x in fewer ==> x in ids
    requires forall i :: 0 <= i < |next.proposed| ==> next.proposed[i] in a.proposed || next.proposed[i].gameId in ids
    ensures MemberOk(next, fewer, spec)
  {
    hide SameSums;
    forall i | 0 <= i < |next.proposed| && next.proposed[i].gameId == spec.gameId
      ensures SameSums(next.proposed[i], spec)
    {
      assert next.proposed[i] in a.proposed;
      var j :| 0 <= j < |a.proposed| && a.proposed[j] == next.proposed[i];
    }
    forall i | 0 <= i < |fewer|
      ensures spec.gameId < fewer[i]
    {
      assert fewer[i] in ids;
      var k :| 0 <= k < |ids| && ids[k] == fewer[i];
    }
  }

  lemma WiresAppend(a: Channel, ids: seq<nat>, actions: seq<BatchAction>, x: BatchAction)
    requires WiresOk(a, ids, actions) && (x.ProposeGroup? ==> WireOk(a, ids, x.wire))
    ensures WiresOk(a, ids, actions + [x])
  {
    hide WireOk;
    forall k | 0 <= k < |actions + [x]| && (actions + [x])[k].ProposeGroup?
      ensures WireOk(a, ids, (actions + [x])[k].wire)
    {
      assert (actions + [x])[k] == if k < |actions| then actions[k] else x;
    }
  }

  ghost predicate IsProposalOf(p: ProposedGame, start: GameStartInfo) {
    && p.gameId == start.gameId && p.referee.fixed.amount == start.amount
    && p.myContribution == start.myContribution && p.theirContribution == start.theirContribution
  }

  /** The games of a group are proposed as its members say. */
  lemma {:induction false} GroupIsProposed(ch: Channel, games: seq<GameStartInfo>, groupId: nat, i: nat)
    requires i < |SendGroup(ch, games, groupId).proposed|
    ensures
      var p := SendGroup(ch, games, groupId).proposed[i];
      p in ch.proposed || exists j :: 0 <= j < |games| && IsProposalOf(p, games[j])
    decreases |games|
  {
    hide NewReferee, Referee.OutcomePuzzleHash;
    if games != [] {
      var last := |games| - 1;
      var before := SendGroup(ch, games[..last], groupId);
      if i < |before.proposed| {
        GroupIsProposed(ch, games[..last], groupId, i);
        var p := before.proposed[i];
        if p !in ch.proposed {
          var j :| 0 <= j < last && IsProposalOf(p, games[..last][j]);
          assert games[j] == games[..last][j];
        }
      } else {
        ProposedAs(before, games[last], groupId);
      }
    }
  }

  lemma ProposedAs(ch: Channel, start: GameStartInfo, groupId: nat)
    ensures IsProposalOf(ProposalOf(ch, start, groupId), start)
  {
  }

  lemma GroupWireOk(ch: Channel, action: GameAction, rest: seq<nat>)
    requires action.QueuedGroup? && GroupOk(action) && Fresh(ch, GroupIds(action.games) + rest)
    ensures
      var next := SendGroup(ch, action.games, action.wire.groupId);
      next.myNextNonce == ch.myNextNonce && WireOk(next, rest, action.wire)
  {
    hide KnownIds;
    var games, wire := action.games, action.wire;
    var next := SendGroup(ch, games, wire.groupId);
    SentGroupKeepsNonce(ch, games, wire.groupId);
    var ids := GroupIds(games) + rest;
    forall j | 0 <= j < |wire.members|
      ensures MemberOk(next, rest, wire.members[j])
    {
      var spec := wire.members[j];
      assert StartMatchesSpec(games[j], spec, wire.start.timeout) && ids[j] == spec.gameId;
      forall i | 0 <= i < |rest|
        ensures spec.gameId < rest[i]
      {
        assert ids[|games| + i] == rest[i];
      }
      forall i | 0 <= i < |next.proposed| && next.proposed[i].gameId == spec.gameId
        ensures SameSums(next.proposed[i], spec)
      {
        GroupIsProposed(ch, games, wire.groupId, i);
        if next.proposed[i] in ch.proposed {
          var k :| 0 <= k < |ch.proposed| && ch.proposed[k] == next.proposed[i];
          ProposalIdKnown(ch, k);
        } else {
          var k :| 0 <= k < |games| && IsProposalOf(next.proposed[i], games[k]);
          assert ids[k] == games[k].gameId;
        }
      }
    }
  }

  lemma ProposalIdKnown(ch: Channel, k: nat)
    requires k < |ch.proposed|
    ensures ch.proposed[k].gameId in KnownIds(ch)
  {
    ProposalIdCounted(ch.proposed, k);
  }

  lemma {:induction false} SentGroupKeepsNonce(ch: Channel, games: seq<GameStartInfo>, groupId: nat)
    ensures SendGroup(ch, games, groupId).myNextNonce == ch.myNextNonce
    decreases |games|
  {
    if games != [] {
      SentGroupKeepsNonce(ch, games[..|games| - 1], groupId);
    }
  }

  /** What a batch being packed promises of the proposals on both sides. */
  ghost predicate PacksVouched(ch0: Channel, st: Draining, ids: seq<nat>) {
    WiresOk(st.ch, ids, st.batch) && AcceptsOld(ch0, st.batch)
  }

  lemma DrainActionVouches(
    clvm: Clvm, ch0: Channel, all: seq<nat>, st: Draining, action: GameAction, rest: seq<GameAction>,
    total: nat, coins: seq<(PuzzleHash, nat)>)
    requires PacksVouched(ch0, st, QueuedIds([action] + rest)) && GroupOk(action)
    requires Tracks(ch0, all, st.ch, st.batch) && AllOurs(ch0, all)
    requires SenderOk(st.ch, total, coins, QueuedIds([action] + rest)) && DrainAction(clvm, st, action).Ok?
    ensures PacksVouched(ch0, DrainAction(clvm, st, action).value, QueuedIds(rest))
  {
    hide SenderOk, Tracks, MemberOk, WireOk, GroupOk, AllOurs;
    var next := DrainAction(clvm, st, action).value;
    var ids := QueuedIds([action] + rest);
    QueuedIdsOfFirst(action, rest);
    if action.QueuedGroup? {
      hide WiresOk, AcceptsOld;
      QueueIsFresh(st.ch, total, coins, ids);
      GroupWireOk(st.ch, action, QueuedIds(rest));
      GroupAddsQueued(st.ch, action.games, action.wire.groupId, QueuedIds(rest));
      WiresStayOk(st.ch, next.ch, ids, QueuedIds(rest), st.batch);
      WiresAppend(next.ch, QueuedIds(rest), st.batch, ProposeGroup(action.wire));
      AcceptsAppend(ch0, st.batch, ProposeGroup(action.wire));
    } else {
      hide WiresOk, AcceptsOld, DrainAction;
      assert QueuedIds([action] + rest) == QueuedIds(rest);
      OtherActionFewer(clvm, st, action);
      WiresStayOk(st.ch, next.ch, ids, QueuedIds(rest), st.batch);
      if next.batch != st.batch {
        var x := next.batch[|st.batch|];
        assert next.batch == st.batch + [x];
        WiresAppend(next.ch, QueuedIds(rest), st.batch, x);
        if x.AcceptProposal? {
          AcceptedWasOld(ch0, all, st.ch, st.batch, x.gameId);
        }
        AcceptsAppend(ch0, st.batch, x);
      }
    }
  }

  lemma AcceptsAppend(ch0: Channel, batch: seq<BatchAction>, x: BatchAction)
    requires AcceptsOld(ch0, batch)
    requires x.AcceptProposal? ==>
               !ch0.IsOurNonce(x.gameId) && exists j :: 0 <= j < |ch0.proposed| && ch0.proposed[j].gameId == x.gameId
    ensures AcceptsOld(ch0, batch + [x])
  {
    AcceptedOfAppend(ch0, batch, x);
    hide AcceptedIds, Staked;
    assert forall y :: y in AcceptedIds(batch + [x]) ==> y in AcceptedIds(batch) || (x.AcceptProposal? && y == x.gameId);
  }

  lemma AcceptedWasOld(ch0: Channel, all: seq<nat>, ch: Channel, batch: seq<BatchAction>, id: nat)
    requires Tracks(ch0, all, ch, batch) && AllOurs(ch0, all) && !ch.IsOurNonce(id)
    requires exists i :: 0 <= i < |ch.proposed| && ch.proposed[i].gameId == id
    ensures !ch0.IsOurNonce(id) && exists j :: 0 <= j < |ch0.proposed| && ch0.proposed[j].gameId == id
  {
    hide Counts, KeepsGames, MovesStand, OurTurnsUntouched;
    var i :| 0 <= i < |ch.proposed| && ch.proposed[i].gameId == id;
    assert ch.proposed[i] in ch0.proposed;
    var j :| 0 <= j < |ch0.proposed| && ch0.proposed[j] == ch.proposed[i];
  }

  /** Other actions only take proposals away, and accept only what is there and
      not ours. */
  lemma OtherActionFewer(clvm: Clvm, st: Draining, action: GameAction)
    requires !action.QueuedGroup? && DrainAction(clvm, st, action).Ok?
    ensures
      var next := DrainAction(clvm, st, action).value;
      && next.ch.myNextNonce == st.ch.myNextNonce
      && (forall i :: 0 <= i < |next.ch.proposed| ==> next.ch.proposed[i] in st.ch.proposed)
      && (next.batch != st.batch ==>
            && |next.batch| == |st.batch| + 1 && next.batch[..|st.batch|] == st.batch
            && var x := next.batch[|st.batch|];
            && !x.ProposeGroup?
            && (x.AcceptProposal? ==>
                  && !st.ch.IsOurNonce(x.gameId)
                  && exists i :: 0 <= i < |st.ch.proposed| && st.ch.proposed[i].gameId == x.gameId))
  {
    hide MyTurnMakeMove, OurChannelHalf, ShutdownConditions;
    var next := DrainAction(clvm, st, action).value;
    if next.ch.proposed != st.ch.proposed && next.ch.proposed != [] {
      var at := ProposalPosition(st.ch.proposed, action.gameId).value;
      forall i | 0 <= i < |next.ch.proposed|
        ensures next.ch.proposed[i] in st.ch.proposed
      {
        assert next.ch.proposed[i] == st.ch.proposed[if i < at then i else i + 1];
      }
    }
  }

  lemma {:induction false} GroupAddsQueued(ch: Channel, games: seq<GameStartInfo>, groupId: nat, rest: seq<nat>)
    ensures
      var next := SendGroup(ch, games, groupId);
      forall i :: 0 <= i < |next.proposed| ==>
        next.proposed[i] in ch.proposed || next.proposed[i].gameId in GroupIds(games) + rest
  {
    var next := SendGroup(ch, games, groupId);
    forall i | 0 <= i < |next.proposed|
      ensures next.proposed[i] in ch.proposed || next.proposed[i].gameId in GroupIds(games) + rest
    {
      GroupIsProposed(ch, games, groupId, i);
      if next.proposed[i] !in ch.proposed {
        var j :| 0 <= j < |games| && IsProposalOf(next.proposed[i], games[j]);
        assert (GroupIds(games) + rest)[j] == games[j].gameId;
      }
    }
  }

  lemma {:induction false} DrainVouches(
    clvm: Clvm, ch: Channel, all: seq<nat>, done: seq<GameAction>, rest: seq<GameAction>, total: nat,
    coins: seq<(PuzzleHash, nat)>)
    requires SenderOk(ch, total, coins, QueuedIds(done + rest)) && AllOurs(ch, all) && GroupsOk(done)
    requires DrainAll(clvm, ch, done).Ok? && forall x :: x in QueuedIds(done + rest) ==> x in all
    ensures PacksVouched(ch, DrainAll(clvm, ch, done).value, QueuedIds(rest))
    decreases |done|
  {
    hide SenderOk, DrainAction, Tracks, QueuedIds, AllOurs, GroupOk, KnownIds;
    if done == [] {
      assert done + rest == rest;
    } else {
      var last := |done| - 1;
      assert done + rest == done[..last] + ([done[last]] + rest);
      DrainVouches(clvm, ch, all, done[..last], [done[last]] + rest, total, coins);
      QueueIsFresh(ch, total, coins, QueuedIds(done + rest));
      assert Distinct(KnownIds(ch)) by { SoundIsDistinct(ch); }
      DrainTracks(clvm, ch, all, done[..last], [done[last]] + rest, total, coins);
      hide PacksVouched;
      DrainActionVouches(clvm, ch, all, DrainAll(clvm, ch, done[..last]).value, done[last], rest, total, coins);
    }
  }

  /** A drain adds only proposals the other side cannot hold yet. */
  lemma DrainedStaysVouched(a: Channel, ids: seq<nat>, after: Channel, b: Channel)
    requires Vouched(a, b) && OldOrQueued(a, ids, after) && after.myNextNonce == a.myNextNonce
    requires AllOurs(a, ids) && Behind(b.theirNextNonce, a, ids) && b.theirNextNonce % 2 == a.myNextNonce % 2
    requires NonceDiscipline(b)
    ensures Vouched(after, b)
  {
    hide KnownIds;
    forall i, j | 0 <= i < |after.proposed| && 0 <= j < |b.proposed| && after.proposed[i].gameId == b.proposed[j].gameId
                  && after.IsOurNonce(after.proposed[i].gameId)
      ensures ProposalAddsUp(after.proposed[i])
    {
      ProposalIdKnown(b, j);
      assert after.proposed[i] in a.proposed;
      var k :| 0 <= k < |a.proposed| && a.proposed[k] == after.proposed[i];
    }
  }

  lemma OthersStayVouched(a: Channel, ids: seq<nat>, after: Channel, b: Channel)
    requires Vouched(b, a) && OldOrQueued(a, ids, after) && AllOurs(a, ids)
    requires b.theirNextNonce % 2 == a.myNextNonce % 2 && OpposedNonces(b)
    ensures Vouched(b, after)
  {
    forall i, j | 0 <= i < |b.proposed| && 0 <= j < |after.proposed| && b.proposed[i].gameId == after.proposed[j].gameId
                  && b.IsOurNonce(b.proposed[i].gameId)
      ensures ProposalAddsUp(b.proposed[i])
    {
      assert after.proposed[j] in a.proposed;
      var k :| 0 <= k < |a.proposed| && a.proposed[k] == after.proposed[j];
    }
  }

  lemma AcceptedAreVouched(a: Channel, b: Channel, batch: seq<BatchAction>)
    requires Vouched(b, a) && AcceptsOld(a, batch)
    ensures AcceptsVouched(b, batch)
  {
    forall i | 0 <= i < |b.proposed| && b.IsOurNonce(b.proposed[i].gameId) && b.proposed[i].gameId in AcceptedIds(batch)
      ensures ProposalAddsUp(b.proposed[i])
    {
      var j :| 0 <= j < |a.proposed| && a.proposed[j].gameId == b.proposed[i].gameId;
    }
  }

  // ---------------------------------------------------------------------------
  // Receiving
  // ---------------------------------------------------------------------------

  ghost predicate SpecAddsUp(spec: WireGameSpec) { spec.amount == spec.senderContribution + spec.receiverContribution }

  /** A proposal that came with a member of a group, and was checked to add up. */
  ghost predicate CameWith(p: ProposedGame, wire: WireGroup) {
    exists j :: 0 <= j < |wire.members| && wire.members[j].gameId == p.gameId && SpecAddsUp(wire.members[j])
  }

  ghost predicate CameIn(p: ProposedGame, actions: seq<BatchAction>) {
    exists k :: 0 <= k < |actions| && actions[k].ProposeGroup? && CameWith(p, actions[k].wire)
  }

  ghost predicate OpposedNonces(ch: Channel) { ch.myNextNonce % 2 != ch.theirNextNonce % 2 }

  ghost predicate Checked(ch: Channel, p: ProposedGame, games: seq<GameStartInfo>) {
    exists j :: 0 <= j < |games| && p.gameId == games[j].gameId && !ch.IsOurNonce(p.gameId)
                && games[j].amount == games[j].myContribution + games[j].theirContribution
  }

  lemma {:induction false} GroupIsChecked(ch: Channel, games: seq<GameStartInfo>, groupId: nat)
    requires OpposedNonces(ch) && ApplyGroup(ch, games, groupId).Ok?
    ensures
      var next := ApplyGroup(ch, games, groupId).value;
      && OpposedNonces(next) && next.myNextNonce == ch.myNextNonce
      && forall i :: 0 <= i < |next.proposed| ==> next.proposed[i] in ch.proposed || Checked(ch, next.proposed[i], games)
    decreases |games|
  {
    hide NewReferee;
    if games != [] {
      var last := |games| - 1;
      var mid := ApplyGroup(ch, games[..last], groupId).value;
      var next := ApplyGroup(ch, games, groupId).value;
      GroupIsChecked(ch, games[..last], groupId);
      forall i | 0 <= i < |next.proposed|
        ensures next.proposed[i] in ch.proposed || Checked(ch, next.proposed[i], games)
      {
        if i < |mid.proposed| {
          assert next.proposed[i] == mid.proposed[i];
          if mid.proposed[i] !in ch.proposed {
            var j :| 0 <= j < last && mid.proposed[i].gameId == games[..last][j].gameId
                     && games[..last][j].amount == games[..last][j].myContribution + games[..last][j].theirContribution;
            assert games[..last][j] == games[j];
          }
        } else {
          ProposedAs(mid, games[last], groupId);
        }
      }
    }
  }

  lemma HydratedIs(clvm: Clvm, factories: Factories, wire: WireGroup, j: nat)
    requires Hydrate(clvm, factories, wire).Ok? && j < |Hydrate(clvm, factories, wire).value|
    ensures
      var start := Hydrate(clvm, factories, wire).value[j];
      && j < |wire.members| && start.gameId == wire.members[j].gameId
      && (start.amount == start.myContribution + start.theirContribution <==> SpecAddsUp(wire.members[j]))
  {
    var games := FactoryGames(clvm, factories, wire.start).value;
    assert wire.members[j] == WireSpec(games[j], wire.members[j].gameId);
  }

  lemma ActionIsChecked(clvm: Clvm, factories: Factories, b: Channel, x: BatchAction)
    requires OpposedNonces(b) && ApplyAction(clvm, factories, b, x).Ok?
    ensures
      var next := ApplyAction(clvm, factories, b, x).value;
      && OpposedNonces(next) && next.myNextNonce == b.myNextNonce
      && forall i :: 0 <= i < |next.proposed| ==>
           || next.proposed[i] in b.proposed
           || (x.ProposeGroup? && !b.IsOurNonce(next.proposed[i].gameId) && CameWith(next.proposed[i], x.wire))
  {
    hide Hydrate, ApplyGroup, TheirTurnMoveOffChain, SpecAddsUp;
    var next := ApplyAction(clvm, factories, b, x).value;
    if x.ProposeGroup? && x.wire.start.gameType in factories {
      var games := Hydrate(clvm, factories, x.wire).value;
      GroupIsChecked(b, games, x.wire.groupId);
      forall i | 0 <= i < |next.proposed| && next.proposed[i] !in b.proposed
        ensures !b.IsOurNonce(next.proposed[i].gameId) && CameWith(next.proposed[i], x.wire)
      {
        assert Checked(b, next.proposed[i], games);
        var j :| 0 <= j < |games| && next.proposed[i].gameId == games[j].gameId
                 && games[j].amount == games[j].myContribution + games[j].theirContribution;
        HydratedIs(clvm, factories, x.wire, j);
      }
    } else if x.AcceptProposal? || x.CancelledProposal? {
      var at := ProposalPosition(b.proposed, x.gameId).value;
      forall i | 0 <= i < |next.proposed|
        ensures next.proposed[i] in b.proposed
      {
        assert next.proposed[i] == b.proposed[if i < at then i else i + 1];
      }
    }
  }

  /** After a batch every proposal was held before, or came in it and adds up. */
  lemma {:induction false} AppliedProposals(clvm: Clvm, factories: Factories, b: Channel, actions: seq<BatchAction>)
    requires OpposedNonces(b) && ApplyActions(clvm, factories, b, actions).Ok?
    ensures
      var next := ApplyActions(clvm, factories, b, actions).value;
      && OpposedNonces(next) && next.myNextNonce == b.myNextNonce
      && forall i :: 0 <= i < |next.proposed| ==>
           || next.proposed[i] in b.proposed
           || (!b.IsOurNonce(next.proposed[i].gameId) && CameIn(next.proposed[i], actions))
    decreases |actions|
  {
    hide ApplyAction, CameWith;
    if actions != [] {
      var last := |actions| - 1;
      var mid := ApplyActions(clvm, factories, b, actions[..last]).value;
      var next := ApplyActions(clvm, factories, b, actions).value;
      AppliedProposals(clvm, factories, b, actions[..last]);
      ActionIsChecked(clvm, factories, mid, actions[last]);
      forall i | 0 <= i < |next.proposed| && next.proposed[i] !in b.proposed
        ensures !b.IsOurNonce(next.proposed[i].gameId) && CameIn(next.proposed[i], actions)
      {
        if next.proposed[i] in mid.proposed {
          var j :| 0 <= j < |mid.proposed| && mid.proposed[j] == next.proposed[i];
          var k :| 0 <= k < last && actions[..last][k].ProposeGroup? && CameWith(mid.proposed[j], actions[..last][k].wire);
          assert actions[k] == actions[..last][k];
        }
      }
    }
  }

  /** Our proposals stay vouched for when the other side takes our batch. */
  lemma ReceivedStaysVouched(
    clvm: Clvm, factories: Factories, a: Channel, ids: seq<nat>, b: Channel, actions: seq<BatchAction>)
    requires Vouched(a, b) && WiresOk(a, ids, actions) && OpposedNonces(b)
    requires ApplyActions(clvm, factories, b, actions).Ok?
    ensures Vouched(a, ApplyActions(clvm, factories, b, actions).value)
  {
    hide ApplyActions;
    AppliedProposals(clvm, factories, b, actions);
    var next := ApplyActions(clvm, factories, b, actions).value;
    forall i, j | 0 <= i < |a.proposed| && 0 <= j < |next.proposed| && a.proposed[i].gameId == next.proposed[j].gameId
                  && a.IsOurNonce(a.proposed[i].gameId)
      ensures ProposalAddsUp(a.proposed[i])
    {
      if next.proposed[j] in b.proposed {
        var k :| 0 <= k < |b.proposed| && b.proposed[k] == next.proposed[j];
      } else {
        var k :| 0 <= k < |actions| && actions[k].ProposeGroup? && CameWith(next.proposed[j], actions[k].wire);
        var l :| 0 <= l < |actions[k].wire.members| && actions[k].wire.members[l].gameId == next.proposed[j].gameId
                 && SpecAddsUp(actions[k].wire.members[l]);
        assert WireOk(a, ids, actions[k].wire);
        assert MemberOk(a, ids, actions[k].wire.members[l]);
      }
    }
  }

  /** The other side's proposals stay vouched for: we only gain theirs. */
  lemma TakingStaysVouched(clvm: Clvm, factories: Factories, a: Channel, b: Channel, actions: seq<BatchAction>)
    requires Vouched(b, a) && OpposedNonces(b) && ApplyActions(clvm, factories, b, actions).Ok?
    ensures Vouched(ApplyActions(clvm, factories, b, actions).value, a)
  {
    hide ApplyActions;
    AppliedProposals(clvm, factories, b, actions);
    var next := ApplyActions(clvm, factories, b, actions).value;
    forall i, j | 0 <= i < |next.proposed| && 0 <= j < |a.proposed| && next.proposed[i].gameId == a.proposed[j].gameId
                  && next.IsOurNonce(next.proposed[i].gameId)
      ensures ProposalAddsUp(next.proposed[i])
    {
      var k :| 0 <= k < |b.proposed| && b.proposed[k] == next.proposed[i];
    }
  }

  // --- Nonces ---------------------------------------------------------------------

  lemma {:induction false} GroupNonceBound(ch: Channel, games: seq<GameStartInfo>, groupId: nat, view: nat)
    requires ApplyGroup(ch, games, groupId).Ok? && ch.theirNextNonce <= view
    requires forall j :: 0 <= j < |games| ==> games[j].gameId + 2 <= view
    ensures ApplyGroup(ch, games, groupId).value.theirNextNonce <= view
    decreases |games|
  {
    if games != [] {
      var last := |games| - 1;
      assert forall j :: 0 <= j < last ==> games[..last][j] == games[j];
      GroupNonceBound(ch, games[..last], groupId, view);
    }
  }

  ghost predicate MembersBelow(actions: seq<BatchAction>, view: nat) {
    forall k, j :: 0 <= k < |actions| && actions[k].ProposeGroup? && 0 <= j < |actions[k].wire.members| ==>
      actions[k].wire.members[j].gameId + 2 <= view
  }

  lemma ActionNonceBound(clvm: Clvm, factories: Factories, b: Channel, x: BatchAction, view: nat)
    requires ApplyAction(clvm, factories, b, x).Ok? && b.theirNextNonce <= view
    requires x.ProposeGroup? ==> forall j :: 0 <= j < |x.wire.members| ==> x.wire.members[j].gameId + 2 <= view
    ensures ApplyAction(clvm, factories, b, x).value.theirNextNonce <= view
  {
    hide Hydrate, ApplyGroup;
    if x.ProposeGroup? && x.wire.start.gameType in factories {
      var games := Hydrate(clvm, factories, x.wire).value;
      forall j | 0 <= j < |games|
        ensures games[j].gameId + 2 <= view
      {
        HydratedIs(clvm, factories, x.wire, j);
      }
      GroupNonceBound(b, games, x.wire.groupId, view);
    } else if !x.ProposeGroup? {
      ApplyKeepsTheirNonce(clvm, factories, b, x);
    }
  }

  lemma {:induction false} NonceBound(clvm: Clvm, factories: Factories, b: Channel, actions: seq<BatchAction>, view: nat)
    requires ApplyActions(clvm, factories, b, actions).Ok? && b.theirNextNonce <= view && MembersBelow(actions, view)
    ensures ApplyActions(clvm, factories, b, actions).value.theirNextNonce <= view
    decreases |actions|
  {
    hide ApplyAction;
    if actions != [] {
      var last := |actions| - 1;
      NonceBound(clvm, factories, b, actions[..last], view);
      ActionNonceBound(clvm, factories, ApplyActions(clvm, factories, b, actions[..last]).value, actions[last], view);
    }
  }

  /** The receiver's next expected nonce stays behind everything still to be sent. */
  lemma ReceivedStaysBehind(
    clvm: Clvm, factories: Factories, a: Channel, ids: seq<nat>, b: Channel, actions: seq<BatchAction>)
    requires Behind(b.theirNextNonce, a, ids) && WiresOk(a, ids, actions) && Fresh(a, ids)
    requires ApplyActions(clvm, factories, b, actions).Ok?
    ensures Behind(ApplyActions(clvm, factories, b, actions).value.theirNextNonce, a, ids)
  {
    hide ApplyActions, KnownIds, SameSums;
    assert MembersBelow(actions, a.myNextNonce) by {
      forall k, j | 0 <= k < |actions| && actions[k].ProposeGroup? && 0 <= j < |actions[k].wire.members|
        ensures actions[k].wire.members[j].gameId + 2 <= a.myNextNonce
      {
        assert WireOk(a, ids, actions[k].wire);
        assert MemberOk(a, ids, actions[k].wire.members[j]);
      }
    }
    NonceBound(clvm, factories, b, actions, a.myNextNonce);
    forall i | 0 <= i < |ids|
      ensures ApplyActions(clvm, factories, b, actions).value.theirNextNonce <= ids[i]
    {
      forall k, j | 0 <= k < |actions| && actions[k].ProposeGroup? && 0 <= j < |actions[k].wire.members|
        ensures actions[k].wire.members[j].gameId + 2 <= ids[i]
      {
        assert WireOk(a, ids, actions[k].wire);
        assert MemberOk(a, ids, actions[k].wire.members[j]);
        assert a.IsOurNonce(ids[i]);
      }
      NonceBound(clvm, factories, b, actions, ids[i]);
    }
  }

  // --- Money -----------------------------------------------------------------------

  lemma ActionKeepsMoney(clvm: Clvm, factories: Factories, b: Channel, x: BatchAction, total: nat)
    requires Money(b, total) && ApplyAction(clvm, factories, b, x).Ok?
    requires x.AcceptProposal? ==>
               forall i :: 0 <= i < |b.proposed| && b.proposed[i].gameId == x.gameId && b.IsOurNonce(x.gameId)
                 ==> ProposalAddsUp(b.proposed[i])
    ensures Money(ApplyAction(clvm, factories, b, x).value, total)
  {
    hide ApplyReceivedMove, ApplyReceivedAcceptSettlement, AcceptProposalInner, CancelProposal, Hydrate, ApplyGroup, Money;
    match x {
      case ProposeGroup(wire) =>
        if wire.start.gameType in factories {
          GroupIsNoMoney(b, Hydrate(clvm, factories, wire).value, wire.groupId, total);
        }
      case AcceptProposal(id) =>
        assert ProposalPosition(b.proposed, id).Some? by { AcceptedIsProposed(b, id); }
        AcceptKeepsMoney(b, id, total);
      case CancelledProposal(id) => CancelIsNoMoney(b, id, total);
      case Move(id, details) => ReceivedMoveKeepsMoney(clvm, b, id, details, total);
      case AcceptSettlement(id, _) => ReceivedSettlementKeepsMoney(b, id, total);
    }
  }

  lemma AcceptedIsProposed(b: Channel, id: nat)
    requires AcceptProposalInner(b, id).Ok?
    ensures ProposalPosition(b.proposed, id).Some?
  {
  }

  lemma CancelIsNoMoney(b: Channel, id: nat, total: nat)
    requires Money(b, total) && CancelProposal(b, id).Ok?
    ensures Money(CancelProposal(b, id).value, total)
  {
  }

  lemma {:induction false} GroupIsNoMoney(b: Channel, games: seq<GameStartInfo>, groupId: nat, total: nat)
    requires Money(b, total) && ApplyGroup(b, games, groupId).Ok?
    ensures Money(ApplyGroup(b, games, groupId).value, total)
    decreases |games|
  {
    if games != [] {
      GroupIsNoMoney(b, games[..|games| - 1], groupId, total);
    }
  }

  lemma {:induction false} AcceptedOfPrefix(actions: seq<BatchAction>, k: nat)
    requires k < |actions|
    ensures actions[k].AcceptProposal? ==> actions[k].gameId in AcceptedIds(actions)
  {
    if k > 0 {
      AcceptedOfPrefix(actions[1..], k - 1);
    }
  }

  /** A batch whose accepted proposals are vouched for conserves the money. */
  lemma {:induction false} ReceivedKeepsMoney(
    clvm: Clvm, factories: Factories, b: Channel, actions: seq<BatchAction>, done: nat, total: nat)
    requires done <= |actions| && Money(b, total) && AcceptsVouched(b, actions) && OpposedNonces(b)
    requires ApplyActions(clvm, factories, b, actions[..done]).Ok?
    ensures Money(ApplyActions(clvm, factories, b, actions[..done]).value, total)
    decreases done
  {
    hide ApplyAction, Money;
    if done > 0 {
      var before := actions[..done - 1];
      assert actions[..done][..done - 1] == before && actions[..done][done - 1] == actions[done - 1];
      ReceivedKeepsMoney(clvm, factories, b, actions, done - 1, total);
      AppliedProposals(clvm, factories, b, before);
      var mid := ApplyActions(clvm, factories, b, before).value;
      var x := actions[done - 1];
      AcceptedOfPrefix(actions, done - 1);
      if x.AcceptProposal? {
        forall i | 0 <= i < |mid.proposed| && mid.proposed[i].gameId == x.gameId && mid.IsOurNonce(x.gameId)
          ensures ProposalAddsUp(mid.proposed[i])
        {
          assert mid.proposed[i] in b.proposed;
          var j :| 0 <= j < |b.proposed| && b.proposed[j] == mid.proposed[i];
        }
      }
      ActionKeepsMoney(clvm, factories, mid, x, total);
    }
  }
}

/** A drain that fails part of the way (src/session_phases/mod.rs,
    src/game_session.rs): what it leaves of its side, and exactly when the two
    sides' views still mirror each other. */
module FailedDrains {
  import opened Wrappers
  import opened Chain
  import opened Referees
  import opened Channels
  import opened ChannelMoney
  import opened ChannelGames
  import opened OffChainPeers
  import opened PeerInvariants
  import opened MirroredViews
  import ChannelLaws

  // ---------------------------------------------------------------------------
  // What was carried out
  // ---------------------------------------------------------------------------

  predicate NoMoves(batch: seq<BatchAction>) {
    forall i :: 0 <= i < |batch| ==> !batch[i].Move?
  }

  function SettledIds(batch: seq<BatchAction>): multiset<nat> {
    if batch == [] then multiset{}
    else (if batch[0].AcceptSettlement? then multiset{batch[0].gameId} else multiset{}) + SettledIds(batch[1..])
  }

  /** What settlements have paid us. */
  function PaidOut(batch: seq<BatchAction>): nat {
    if batch == [] then 0
    else (if batch[0].AcceptSettlement? then batch[0].amount else 0) + PaidOut(batch[1..])
  }

  function StakeOf(ch: Channel, id: nat): nat {
    match ProposalPosition(ch.proposed, id)
    case None => 0
    case Some(i) => ch.proposed[i].myContribution
  }

  /** What we have put into the games accepted. */
  function Staked(ch: Channel, batch: seq<BatchAction>): nat {
    if batch == [] then 0
    else (if batch[0].AcceptProposal? then StakeOf(ch, batch[0].gameId) else 0) + Staked(ch, batch[1..])
  }

  /** The failing item is a settlement whose share is more than the game holds:
      the share is paid to us before the other side's rest is found missing. */
  predicate Overpays(f: Failure) {
    && f.item.QueuedSettlement? && f.before.havePotato
    && var at := LivePosition(f.before.live, f.item.gameId);
    && at.Some? && f.before.live[at.value].IsMyTurn() && !ShareFits(f.before.live[at.value])
  }

  function Excess(f: Failure): nat {
    if !Overpays(f) then 0
    else
      var game := f.before.live[LivePosition(f.before.live, f.item.gameId).value];
      game.referee.spendThisCoin.gameMove.basic.moverShare - game.Amount()
  }

  /** Whatever the failed drain carried out that the other side would have to
      know of, it took back itself: no move, and every game accepted settled
      again for what we had put in. */
  predicate Undone(ch: Channel, f: Failure) {
    && !Overpays(f)
    && NoMoves(f.lost)
    && SettledIds(f.lost) == multiset(AcceptedIds(f.lost))
    && PaidOut(f.lost) == Staked(ch, f.lost)
  }

  lemma {:induction false} SettledOfAppend(batch: seq<BatchAction>, x: BatchAction)
    ensures SettledIds(batch + [x]) == SettledIds(batch) + if x.AcceptSettlement? then multiset{x.gameId} else multiset{}
    ensures PaidOut(batch + [x]) == PaidOut(batch) + if x.AcceptSettlement? then x.amount else 0
  {
    if batch == [] {
      assert [] + [x] == [x] && [x][1..] == [];
    } else {
      assert (batch + [x])[1..] == batch[1..] + [x];
      SettledOfAppend(batch[1..], x);
    }
  }

  lemma {:induction false} AcceptedOfAppend(ch: Channel, batch: seq<BatchAction>, x: BatchAction)
    ensures AcceptedIds(batch + [x]) == AcceptedIds(batch) + if x.AcceptProposal? then [x.gameId] else []
    ensures Staked(ch, batch + [x]) == Staked(ch, batch) + if x.AcceptProposal? then StakeOf(ch, x.gameId) else 0
  {
    if batch == [] {
      assert [] + [x] == [x] && [x][1..] == [];
    } else {
      assert (batch + [x])[1..] == batch[1..] + [x];
      AcceptedOfAppend(ch, batch[1..], x);
    }
  }

  // ---------------------------------------------------------------------------
  // The failing item
  // ---------------------------------------------------------------------------

  /** A failed drain stopped at one item; everything before it went through. */
  lemma {:induction false} FailureSplits(clvm: Clvm, ch: Channel, queue: seq<GameAction>) returns (done: seq<GameAction>)
    requires DrainAll(clvm, ch, queue).Err?
    ensures
      var f := DrainAll(clvm, ch, queue).error;
      && queue == done + [f.item] + f.queue
      && DrainAll(clvm, ch, done).Ok?
      && var st := DrainAll(clvm, ch, done).value;
      && DrainAction(clvm, st, f.item).Err?
      && f == Failure(
           AfterFailure(st.ch, f.item), f.queue, f.item, st.batch, st.ch, DrainAction(clvm, st, f.item).error)
    decreases |queue|
  {
    hide DrainAction, AfterFailure;
    var last := |queue| - 1;
    if DrainAll(clvm, ch, queue[..last]).Err? {
      done := FailureSplits(clvm, ch, queue[..last]);
      var g := DrainAll(clvm, ch, queue[..last]).error;
      assert done + [g.item] + g.queue + [queue[last]] == done + [g.item] + (g.queue + [queue[last]]);
      assert queue == queue[..last] + [queue[last]];
    } else {
      done := queue[..last];
      assert done + [queue[last]] + [] == queue;
    }
  }

  /** A settlement that fails changes the channel only when it overpays, and then
      by the excess. */
  lemma FailedSettlementKeeps(ch: Channel, id: nat, total: nat, coins: seq<(PuzzleHash, nat)>, ids: seq<nat>)
    requires SenderOk(ch, total, coins, ids) && SendAcceptSettlement(ch, id).Err?
    ensures
      var next := AfterFailedSettlement(ch, id);
      var f := Failure(next, [], QueuedSettlement(id), [], ch, ChannelFailed(SendAcceptSettlement(ch, id).error));
      && SenderOk(next, total + Excess(f), coins, ids) && SameRecords(ch, next)
      && next.proposed == ch.proposed && next.theirNextNonce == ch.theirNextNonce
      && (Overpays(f) ==> Excess(f) > 0) && (!Overpays(f) ==> next == ch)
  {
    hide NonceDiscipline, HashesOk, CoinsKnown, MovedGamesWait, MovedGamesKnown, Fresh, CanonicalAtom;
    var next := AfterFailedSettlement(ch, id);
    if next != ch {
      var m := LivePosition(ch.live, id).value;
      SumOfRemove(ch.live, m);
      assert AddsUp(ch.live[m]);
      assert Sound(next) && KnownIds(next) == KnownIds(ch) by { SettlementKeepsSound(ch, m, next); }
      assert CoinsOk(next, coins) by {
        assert next.cached == ch.cached + [];
        SettlementKeepsWaiting(ch, m, next, []);
        TakenGameKeepsCoins(ch, m, next, coins);
      }
      FewerIdsStayFresh(ch, next, ids);
    }
  }

  // ---------------------------------------------------------------------------
  // What a drain has done to the games
  // ---------------------------------------------------------------------------

  /** A game we have moved in: no longer our turn, as it was before the drain. */
  ghost predicate HasMoved(ch0: Channel, ch: Channel, id: nat) {
    && (exists m :: 0 <= m < |ch.live| && ch.live[m].gameId == id && !ch.live[m].IsMyTurn())
    && (id in LiveIds(ch0.live) ==>
          exists i :: 0 <= i < |ch0.live| && ch0.live[i].gameId == id && ch0.live[i].IsMyTurn())
  }

  ghost predicate KeepsGames(ch0: Channel, ch: Channel, batch: seq<BatchAction>) {
    NoMoves(batch) && (forall x :: x in SettledIds(batch) ==> x !in LiveIds(ch0.live)) ==>
      |ch0.live| <= |ch.live| && ch.live[..|ch0.live|] == ch0.live
  }

  ghost predicate Counts(ch0: Channel, ch: Channel, batch: seq<BatchAction>) {
    && LiveIds(ch.live) + SettledIds(batch) == LiveIds(ch0.live) + multiset(AcceptedIds(batch))
    && (forall x :: x in AcceptedIds(batch) ==> x !in LiveIds(ch0.live))
    && ch.myOut + Staked(ch0, batch) == ch0.myOut + PaidOut(batch)
  }

  ghost predicate MovesStand(ch0: Channel, ch: Channel, batch: seq<BatchAction>) {
    forall k :: 0 <= k < |batch| ==> batch[k].Move? ==> HasMoved(ch0, ch, batch[k].gameId)
  }

  ghost predicate FromProposal(ch0: Channel, game: LiveGame) {
    exists j :: 0 <= j < |ch0.proposed| && ch0.proposed[j].gameId == game.gameId && ch0.proposed[j].referee == game.referee
  }

  /** A game in which it is our turn is as it was, or as it was proposed. */
  ghost predicate OurTurnsUntouched(ch0: Channel, ch: Channel) {
    forall i :: 0 <= i < |ch.live| && ch.live[i].IsMyTurn() ==>
      ch.live[i] in ch0.live || (ch.live[i].gameId !in LiveIds(ch0.live) && FromProposal(ch0, ch.live[i]))
  }

  /** Every proposal was there before the drain, or was queued to be made. */
  ghost predicate OldOrQueued(ch0: Channel, ids: seq<nat>, ch: Channel) {
    forall i :: 0 <= i < |ch.proposed| ==> ch.proposed[i] in ch0.proposed || ch.proposed[i].gameId in ids
  }

  ghost predicate AllOurs(ch: Channel, ids: seq<nat>) {
    forall i :: 0 <= i < |ids| ==> ch.IsOurNonce(ids[i])
  }

  /** The channel `ch0` after a drain of a queue with games `ids` in it has packed
      `batch` and left `ch`. */
  ghost predicate Tracks(ch0: Channel, ids: seq<nat>, ch: Channel, batch: seq<BatchAction>) {
    && ch.myNextNonce == ch0.myNextNonce
    && Counts(ch0, ch, batch) && KeepsGames(ch0, ch, batch) && MovesStand(ch0, ch, batch)
    && OurTurnsUntouched(ch0, ch) && OldOrQueued(ch0, ids, ch)
  }

  lemma TracksStart(ch: Channel, ids: seq<nat>)
    ensures Tracks(ch, ids, ch, [])
  {
    assert ch.live[..|ch.live|] == ch.live;
  }

  lemma MovesAppend(batch: seq<BatchAction>, x: BatchAction)
    ensures NoMoves(batch + [x]) <==> NoMoves(batch) && !x.Move?
  {
    assert forall i :: 0 <= i < |batch| ==> (batch + [x])[i] == batch[i];
    assert (batch + [x])[|batch|] == x;
  }

  lemma MovesStandAppend(ch0: Channel, ch: Channel, batch: seq<BatchAction>, x: BatchAction)
    requires MovesStand(ch0, ch, batch) && (x.Move? ==> HasMoved(ch0, ch, x.gameId))
    ensures MovesStand(ch0, ch, batch + [x])
  {
    hide HasMoved;
    forall k | 0 <= k < |batch + [x]|
      ensures (batch + [x])[k].Move? ==> HasMoved(ch0, ch, (batch + [x])[k].gameId)
    {
      assert (batch + [x])[k] == if k < |batch| then batch[k] else x;
    }
  }

  /** Only proposals change, and those left are old or ours. */
  lemma TracksProposals(ch0: Channel, ids: seq<nat>, ch: Channel, next: Channel, batch: seq<BatchAction>)
    requires Tracks(ch0, ids, ch, batch) && next == ch.(proposed := next.proposed)
    requires forall i :: 0 <= i < |next.proposed| ==>
               next.proposed[i] in ch.proposed || next.proposed[i].gameId in ids
    ensures Tracks(ch0, ids, next, batch)
  {
    assert Counts(ch0, next, batch) && KeepsGames(ch0, next, batch) && OurTurnsUntouched(ch0, next);
    forall k | 0 <= k < |batch|
      ensures batch[k].Move? ==> HasMoved(ch0, next, batch[k].gameId)
    {
      assert batch[k].Move? ==> HasMoved(ch0, ch, batch[k].gameId);
    }
    forall i | 0 <= i < |next.proposed|
      ensures next.proposed[i] in ch0.proposed || next.proposed[i].gameId in ids
    {
      if next.proposed[i] in ch.proposed {
        var j :| 0 <= j < |ch.proposed| && ch.proposed[j] == next.proposed[i];
      }
    }
  }

  /** An action that says nothing of live games is packed. */
  lemma TracksPacked(ch0: Channel, ids: seq<nat>, ch: Channel, batch: seq<BatchAction>, x: BatchAction)
    requires Tracks(ch0, ids, ch, batch) && !x.Move? && !x.AcceptSettlement? && !x.AcceptProposal?
    ensures Tracks(ch0, ids, ch, batch + [x])
  {
    SettledOfAppend(batch, x);
    AcceptedOfAppend(ch0, batch, x);
    MovesAppend(batch, x);
    assert AcceptedIds(batch) + [] == AcceptedIds(batch);
    assert SettledIds(batch) + multiset{} == SettledIds(batch);
    hide SettledIds, LiveIds, PaidOut, Staked, AcceptedIds, HasMoved, NoMoves, OurTurnsUntouched, OldOrQueued;
    MovesStandAppend(ch0, ch, batch, x);
  }

  lemma TracksMove(ch0: Channel, ids: seq<nat>, ch: Channel, next: Channel, m: nat, batch: seq<BatchAction>, x: BatchAction)
    requires Tracks(ch0, ids, ch, batch) && m < |ch.live| && ch.live[m].IsMyTurn()
    requires next == ch.(live := next.live, cached := next.cached) && |next.live| == |ch.live|
    requires next.live == ch.live[m := next.live[m]] && x.Move?
    requires next.live[m].gameId == ch.live[m].gameId == x.gameId && !next.live[m].IsMyTurn()
    ensures Tracks(ch0, ids, next, batch + [x])
  {
    hide SettledIds, LiveIds, PaidOut, Staked, AcceptedIds, NoMoves, LiveGame.IsMyTurn;
    SettledOfAppend(batch, x);
    AcceptedOfAppend(ch0, batch, x);
    MovesAppend(batch, x);
    LiveIdsOfUpdate(ch.live, m, next.live[m]);
    assert Counts(ch0, next, batch + [x]) by {
      assert AcceptedIds(batch) + [] == AcceptedIds(batch) && SettledIds(batch) + multiset{} == SettledIds(batch);
    }
    assert HasMoved(ch0, next, x.gameId) by {
      if x.gameId in LiveIds(ch0.live) {
        assert ch.live[m] in ch0.live;
      }
    }
    assert MovesStand(ch0, next, batch) by { MovedStaysMoved(ch0, ch, next, m, batch); }
    hide HasMoved;
    MovesStandAppend(ch0, next, batch, x);
    assert OurTurnsUntouched(ch0, next);
  }

  lemma MovedStaysMoved(ch0: Channel, ch: Channel, next: Channel, m: nat, batch: seq<BatchAction>)
    requires MovesStand(ch0, ch, batch) && m < |ch.live| && |next.live| == |ch.live|
    requires next.live == ch.live[m := next.live[m]] && next.live[m].gameId == ch.live[m].gameId && !next.live[m].IsMyTurn()
    ensures MovesStand(ch0, next, batch)
  {
    hide LiveIds, LiveGame.IsMyTurn;
    forall k | 0 <= k < |batch| && batch[k].Move?
      ensures HasMoved(ch0, next, batch[k].gameId)
    {
      assert HasMoved(ch0, ch, batch[k].gameId);
      var j :| 0 <= j < |ch.live| && ch.live[j].gameId == batch[k].gameId && !ch.live[j].IsMyTurn();
      assert next.live[j].gameId == batch[k].gameId && !next.live[j].IsMyTurn();
    }
  }

  lemma TracksSettlement(ch0: Channel, ids: seq<nat>, ch: Channel, next: Channel, m: nat, batch: seq<BatchAction>, x: BatchAction)
    requires Tracks(ch0, ids, ch, batch) && m < |ch.live| && ch.live[m].IsMyTurn()
    requires next.live == RemoveAt(ch.live, m) && next.proposed == ch.proposed && next.myNextNonce == ch.myNextNonce
    requires x.AcceptSettlement? && x.gameId == ch.live[m].gameId && next.myOut == ch.myOut + x.amount
    ensures Tracks(ch0, ids, next, batch + [x])
  {
    hide SettledIds, LiveIds, PaidOut, Staked, AcceptedIds, NoMoves, LiveGame.IsMyTurn, RemoveAt;
    SettledOfAppend(batch, x);
    AcceptedOfAppend(ch0, batch, x);
    LiveIdsOfRemove(ch.live, m);
    assert Counts(ch0, next, batch + [x]) by {
      assert AcceptedIds(batch) + [] == AcceptedIds(batch);
    }
    assert KeepsGames(ch0, next, batch + [x]) by { SettlementKeepsGames(ch0, ch, next, m, batch, x); }
    assert MovesStand(ch0, next, batch) && OurTurnsUntouched(ch0, next) by { OthersUntouched(ch0, ch, next, m, batch); }
    hide HasMoved;
    MovesStandAppend(ch0, next, batch, x);
  }

  lemma OthersUntouched(ch0: Channel, ch: Channel, next: Channel, m: nat, batch: seq<BatchAction>)
    requires MovesStand(ch0, ch, batch) && OurTurnsUntouched(ch0, ch)
    requires m < |ch.live| && ch.live[m].IsMyTurn() && next.live == RemoveAt(ch.live, m)
    ensures MovesStand(ch0, next, batch) && OurTurnsUntouched(ch0, next)
  {
    hide LiveIds, LiveGame.IsMyTurn;
    forall k | 0 <= k < |batch| && batch[k].Move?
      ensures HasMoved(ch0, next, batch[k].gameId)
    {
      assert HasMoved(ch0, ch, batch[k].gameId);
      var j :| 0 <= j < |ch.live| && ch.live[j].gameId == batch[k].gameId && !ch.live[j].IsMyTurn();
      assert next.live[if j < m then j else j - 1] == ch.live[j];
    }
    hide FromProposal;
    forall i | 0 <= i < |next.live| && next.live[i].IsMyTurn()
      ensures next.live[i] in ch0.live || (next.live[i].gameId !in LiveIds(ch0.live) && FromProposal(ch0, next.live[i]))
    {
      assert next.live[i] == ch.live[if i < m then i else i + 1];
    }
  }

  lemma SettlementKeepsGames(ch0: Channel, ch: Channel, next: Channel, m: nat, batch: seq<BatchAction>, x: BatchAction)
    requires KeepsGames(ch0, ch, batch) && m < |ch.live| && next.live == RemoveAt(ch.live, m)
    requires x.AcceptSettlement? && x.gameId == ch.live[m].gameId
    ensures KeepsGames(ch0, next, batch + [x])
  {
    SettledOfAppend(batch, x);
    MovesAppend(batch, x);
    hide SettledIds, LiveIds, NoMoves;
    if NoMoves(batch + [x]) && (forall y :: y in SettledIds(batch + [x]) ==> y !in LiveIds(ch0.live)) {
      assert x.gameId in SettledIds(batch + [x]);
      forall y | y in SettledIds(batch)
        ensures y !in LiveIds(ch0.live)
      {
        assert y in SettledIds(batch + [x]);
      }
      if m < |ch0.live| {
        assert ch.live[m] == ch.live[..|ch0.live|][m];
        LiveIdCounted(ch0.live, m);
      }
      assert next.live[..|ch0.live|] == ch.live[..|ch0.live|];
    }
  }

  lemma TracksAccept(ch0: Channel, ids: seq<nat>, ch: Channel, next: Channel, i: nat, batch: seq<BatchAction>, x: BatchAction)
    requires Tracks(ch0, ids, ch, batch) && Distinct(KnownIds(ch0)) && i < |ch.proposed|
    requires AllOurs(ch0, ids) && !ch.IsOurNonce(ch.proposed[i].gameId)
    requires x.AcceptProposal? && x.gameId == ch.proposed[i].gameId
    requires |next.live| == |ch.live| + 1 && next.live[..|ch.live|] == ch.live && next.live[|ch.live|].gameId == x.gameId
    requires next.live[|ch.live|].referee == ch.proposed[i].referee
    requires next.proposed == RemoveAt(ch.proposed, i) && next.myNextNonce == ch.myNextNonce
    requires ch.myOut == next.myOut + ch.proposed[i].myContribution
    ensures Tracks(ch0, ids, next, batch + [x])
  {
    hide SettledIds, LiveIds, PaidOut, Staked, StakeOf, AcceptedIds, NoMoves, LiveGame.IsMyTurn, KnownIds;
    SettledOfAppend(batch, x);
    AcceptedOfAppend(ch0, batch, x);
    MovesAppend(batch, x);
    var g := next.live[|ch.live|];
    assert next.live == ch.live + [g];
    LiveIdsOfAppend(ch.live, g);
    assert ch.proposed[i] in ch0.proposed;
    var j :| 0 <= j < |ch0.proposed| && ch0.proposed[j] == ch.proposed[i];
    StakeIs(ch0, j);
    ProposedIsNotLive(ch0, j);
    assert Counts(ch0, next, batch + [x]) by { CountsAccept(ch0, ch, next, batch, x); }
    assert KeepsGames(ch0, next, batch + [x]) by {
      assert SettledIds(batch + [x]) == SettledIds(batch);
      if |ch0.live| <= |ch.live| {
        assert next.live[..|ch0.live|] == ch.live[..|ch0.live|];
      }
    }
    assert MovesStand(ch0, next, batch) by { AddedGameKeepsMoves(ch0, ch, next, batch); }
    forall k | 0 <= k < |next.proposed|
      ensures next.proposed[k] in ch0.proposed || next.proposed[k].gameId in ids
    {
      assert next.proposed[k] == ch.proposed[if k < i then k else k + 1];
    }
    hide HasMoved;
    MovesStandAppend(ch0, next, batch, x);
  }

  lemma CountsAccept(ch0: Channel, ch: Channel, next: Channel, batch: seq<BatchAction>, x: BatchAction)
    requires Counts(ch0, ch, batch) && x.AcceptProposal? && x.gameId !in LiveIds(ch0.live)
    requires LiveIds(next.live) == LiveIds(ch.live) + multiset{x.gameId}
    requires ch.myOut == next.myOut + StakeOf(ch0, x.gameId)
    ensures Counts(ch0, next, batch + [x])
  {
    hide LiveIds, StakeOf, SettledIds, AcceptedIds, Staked, PaidOut;
    SettledOfAppend(batch, x);
    AcceptedOfAppend(ch0, batch, x);
    var accepted, settled := AcceptedIds(batch), SettledIds(batch);
    assert SettledIds(batch + [x]) == settled && AcceptedIds(batch + [x]) == accepted + [x.gameId];
    assert multiset(accepted + [x.gameId]) == multiset(accepted) + multiset{x.gameId};
    assert LiveIds(ch.live) + multiset{x.gameId} + settled == LiveIds(ch.live) + settled + multiset{x.gameId};
  }

  lemma AddedGameKeepsMoves(ch0: Channel, ch: Channel, next: Channel, batch: seq<BatchAction>)
    requires MovesStand(ch0, ch, batch) && |ch.live| <= |next.live| && next.live[..|ch.live|] == ch.live
    ensures MovesStand(ch0, next, batch)
  {
    hide LiveIds, LiveGame.IsMyTurn;
    forall k | 0 <= k < |batch| && batch[k].Move?
      ensures HasMoved(ch0, next, batch[k].gameId)
    {
      assert HasMoved(ch0, ch, batch[k].gameId);
      var j :| 0 <= j < |ch.live| && ch.live[j].gameId == batch[k].gameId && !ch.live[j].IsMyTurn();
      assert next.live[j] == next.live[..|ch.live|][j];
    }
  }

  lemma ProposedIsNotLive(ch: Channel, j: nat)
    requires Distinct(KnownIds(ch)) && j < |ch.proposed|
    ensures ch.proposed[j].gameId !in LiveIds(ch.live)
  {
    ProposalIdCounted(ch.proposed, j);
    var id := ch.proposed[j].gameId;
    assert KnownIds(ch)[id] == LiveIds(ch.live)[id] + LiveIds(ch.pending)[id] + ProposalIds(ch.proposed)[id];
  }

  lemma StakeIs(ch: Channel, j: nat)
    requires Distinct(KnownIds(ch)) && j < |ch.proposed|
    ensures StakeOf(ch, ch.proposed[j].gameId) == ch.proposed[j].myContribution
  {
    OnePosition(ch, j, ProposalPosition(ch.proposed, ch.proposed[j].gameId).value);
  }

  lemma OnePosition(ch: Channel, i: nat, j: nat)
    requires Distinct(KnownIds(ch)) && i < |ch.proposed| && j < |ch.proposed|
    requires ch.proposed[i].gameId == ch.proposed[j].gameId
    ensures i == j
  {
    var id := ch.proposed[j].gameId;
    assert KnownIds(ch)[id] == LiveIds(ch.live)[id] + LiveIds(ch.pending)[id] + ProposalIds(ch.proposed)[id];
    var lo, hi := if i < j then i else j, if i < j then j else i;
    ProposalIdsOfRemove(ch.proposed, lo);
    if lo < hi {
      ProposalIdCounted(RemoveAt(ch.proposed, lo), hi - 1);
    }
  }

  lemma QueueIsFresh(ch: Channel, total: nat, coins: seq<(PuzzleHash, nat)>, ids: seq<nat>)
    requires SenderOk(ch, total, coins, ids)
    ensures Fresh(ch, ids) && Sound(ch) && Money(ch, total)
  {
  }

  lemma MoveTracks(clvm: Clvm, ch0: Channel, ids: seq<nat>, st: Draining, action: GameAction)
    requires Tracks(ch0, ids, st.ch, st.batch) && action.QueuedMove? && DrainMove(clvm, st, action).Ok?
    ensures
      var next := DrainMove(clvm, st, action).value;
      Tracks(ch0, ids, next.ch, next.batch)
  {
    hide Tracks, MyTurnMakeMove;
    var next := DrainMove(clvm, st, action).value;
    if next.batch != st.batch {
      var m := LivePosition(st.ch.live, action.gameId).value;
      var x := next.batch[|st.batch|];
      assert next.batch == st.batch + [x];
      MadeMove(clvm, st.ch, action.gameId, action.readable, action.entropy);
      TracksMove(ch0, ids, st.ch, next.ch, m, st.batch, x);
    }
  }

  lemma MadeMove(clvm: Clvm, ch: Channel, id: nat, readable: Program, entropy: Bytes)
    requires SendMove(clvm, ch, id, readable, entropy).Ok?
    ensures
      var next := SendMove(clvm, ch, id, readable, entropy).value.0;
      var m := LivePosition(ch.live, id).value;
      && m < |ch.live| && next == ch.(live := next.live, cached := next.cached) && |next.live| == |ch.live|
      && next.live == ch.live[m := next.live[m]]
      && ch.live[m].IsMyTurn() && !next.live[m].IsMyTurn() && next.live[m].gameId == ch.live[m].gameId == id
  {
  }

  lemma SettlementTracks(ch0: Channel, ids: seq<nat>, st: Draining, id: nat)
    requires Tracks(ch0, ids, st.ch, st.batch) && SendAcceptSettlement(st.ch, id).Ok?
    ensures
      var (ch, amount) := SendAcceptSettlement(st.ch, id).value;
      Tracks(ch0, ids, ch, st.batch + [AcceptSettlement(id, amount)])
  {
    hide Tracks, RemoveAt, Referee.OurCurrentShare;
    var (ch, amount) := SendAcceptSettlement(st.ch, id).value;
    TracksSettlement(ch0, ids, st.ch, ch, LivePosition(st.ch.live, id).value, st.batch, AcceptSettlement(id, amount));
  }

  lemma {:induction false} GroupTracks(
    ch0: Channel, ids: seq<nat>, ch: Channel, games: seq<GameStartInfo>, groupId: nat, batch: seq<BatchAction>)
    requires Tracks(ch0, ids, ch, batch) && forall i :: 0 <= i < |games| ==> games[i].gameId in ids
    ensures Tracks(ch0, ids, SendGroup(ch, games, groupId), batch)
    ensures SendGroup(ch, games, groupId) == ch.(proposed := SendGroup(ch, games, groupId).proposed)
    decreases |games|
  {
    hide Tracks;
    if games != [] {
      var last := |games| - 1;
      GroupTracks(ch0, ids, ch, games[..last], groupId, batch);
      var mid := SendGroup(ch, games[..last], groupId);
      ProposalNames(mid, games[last], groupId);
      hide ProposalOf;
      TracksProposals(ch0, ids, mid, SendProposeGame(mid, games[last], groupId), batch);
    }
  }

  lemma CancelTracks(ch0: Channel, ids: seq<nat>, st: Draining, id: nat)
    requires Tracks(ch0, ids, st.ch, st.batch) && DrainCancel(st, id).Ok?
    ensures
      var next := DrainCancel(st, id).value;
      Tracks(ch0, ids, next.ch, next.batch)
  {
    hide Tracks;
    var next := DrainCancel(st, id).value;
    var at := ProposalPosition(st.ch.proposed, id).value;
    forall i | 0 <= i < |next.ch.proposed|
      ensures next.ch.proposed[i] in st.ch.proposed
    {
      assert next.ch.proposed[i] == st.ch.proposed[if i < at then i else i + 1];
    }
    TracksProposals(ch0, ids, st.ch, next.ch, st.batch);
    TracksPacked(ch0, ids, next.ch, st.batch, CancelledProposal(id));
  }

  lemma AcceptTracks(ch0: Channel, ids: seq<nat>, st: Draining, id: nat)
    requires Tracks(ch0, ids, st.ch, st.batch) && Distinct(KnownIds(ch0)) && AllOurs(ch0, ids) && !st.ch.IsOurNonce(id)
    requires SendAcceptProposal(st.ch, id).Ok?
    ensures Tracks(ch0, ids, SendAcceptProposal(st.ch, id).value, st.batch + [AcceptProposal(id)])
  {
    hide Tracks, KnownIds, RemoveAt;
    TracksAccept(
      ch0, ids, st.ch, SendAcceptProposal(st.ch, id).value, ProposalPosition(st.ch.proposed, id).value, st.batch,
      AcceptProposal(id));
  }

  /** One drained action. */
  lemma DrainActionTracks(
    clvm: Clvm, ch0: Channel, ids: seq<nat>, st: Draining, action: GameAction, rest: seq<GameAction>, total: nat,
    coins: seq<(PuzzleHash, nat)>)
    requires Tracks(ch0, ids, st.ch, st.batch) && Distinct(KnownIds(ch0)) && AllOurs(ch0, ids)
    requires forall x :: x in QueuedIds([action] + rest) ==> x in ids
    requires SenderOk(st.ch, total, coins, QueuedIds([action] + rest)) && DrainAction(clvm, st, action).Ok?
    ensures
      var next := DrainAction(clvm, st, action).value;
      Tracks(ch0, ids, next.ch, next.batch)
  {
    hide Tracks, SenderOk, KnownIds, SendMove, SendAcceptSettlement, AcceptProposalInner, CancelProposal;
    match action {
      case QueuedMove(id, readable, entropy) => MoveTracks(clvm, ch0, ids, st, action);
      case QueuedSettlement(id) => SettlementTracks(ch0, ids, st, id);
      case QueuedGroup(games, wire) =>
        QueuedIdsOfFirst(action, rest);
        forall i | 0 <= i < |games|
          ensures games[i].gameId in ids
        {
          assert QueuedIds([action] + rest)[i] == GroupIds(games)[i];
        }
        GroupTracks(ch0, ids, st.ch, games, wire.groupId, st.batch);
        TracksPacked(ch0, ids, SendGroup(st.ch, games, wire.groupId), st.batch, ProposeGroup(wire));
      case QueuedAccept(id) =>
        if DrainAccept(st, id) == DrainCancel(st, id) {
          CancelTracks(ch0, ids, st, id);
        } else {
          AcceptTracks(ch0, ids, st, id);
        }
      case QueuedCancel(id) => CancelTracks(ch0, ids, st, id);
      case QueuedSilentCancel(id) => CancelTracks(ch0, ids, st, id);
      case QueuedShutdown => TracksProposals(ch0, ids, st.ch, DrainShutdown(st).value.ch, st.batch);
    }
  }

  lemma {:induction false} DrainTracks(
    clvm: Clvm, ch: Channel, ids: seq<nat>, done: seq<GameAction>, rest: seq<GameAction>, total: nat,
    coins: seq<(PuzzleHash, nat)>)
    requires SenderOk(ch, total, coins, QueuedIds(done + rest)) && Distinct(KnownIds(ch)) && AllOurs(ch, ids)
    requires DrainAll(clvm, ch, done).Ok? && forall x :: x in QueuedIds(done + rest) ==> x in ids
    ensures
      var st := DrainAll(clvm, ch, done).value;
      Tracks(ch, ids, st.ch, st.batch) && SenderOk(st.ch, total, coins, QueuedIds(rest)) && SameRecords(ch, st.ch)
    decreases |done|
  {
    hide SenderOk, DrainAction, Tracks, KnownIds, QueuedIds, AllOurs;
    if done == [] {
      TracksStart(ch, ids);
      assert done + rest == rest;
    } else {
      var last := |done| - 1;
      assert done + rest == done[..last] + ([done[last]] + rest);
      DrainTracks(clvm, ch, ids, done[..last], [done[last]] + rest, total, coins);
      var st := DrainAll(clvm, ch, done[..last]).value;
      QueuedIdsOfAppend(done[..last], [done[last]] + rest);
      DrainActionKeeps(clvm, st, done[last], rest, total, coins);
      DrainActionTracks(clvm, ch, ids, st, done[last], rest, total, coins);
    }
  }

  /** What a failed drain keeps: everything a drain keeps, but for what it
      overpaid; and what is behind the failing item is still queued. */
  lemma FailureKeeps(clvm: Clvm, ch: Channel, queue: seq<GameAction>, total: nat, coins: seq<(PuzzleHash, nat)>)
    requires SenderOk(ch, total, coins, QueuedIds(queue)) && DrainAll(clvm, ch, queue).Err?
    ensures
      var f := DrainAll(clvm, ch, queue).error;
      && SenderOk(f.ch, total + Excess(f), coins, QueuedIds(f.queue)) && SameRecords(ch, f.ch)
      && SenderOk(f.before, total, coins, QueuedIds(f.queue)) && SameRecords(ch, f.before)
      && (!Overpays(f) ==> f.ch == f.before) && (Overpays(f) ==> Excess(f) > 0)
      && f.ch.theirNextNonce == f.before.theirNextNonce && f.ch.proposed == f.before.proposed
      && (GroupsOk(queue) ==> GroupsOk(f.queue))
      && Tracks(ch, QueuedIds(queue), f.before, f.lost)
  {
    hide SenderOk, DrainAll, DrainAction, Tracks, GroupOk, KnownIds, SendAcceptSettlement, AfterFailedSettlement;
    var f := DrainAll(clvm, ch, queue).error;
    var done := FailureSplits(clvm, ch, queue);
    var st := DrainAll(clvm, ch, done).value;
    assert queue == done + ([f.item] + f.queue);
    QueueIsFresh(ch, total, coins, QueuedIds(queue));
    assert Distinct(KnownIds(ch)) by { SoundIsDistinct(ch); }
    assert AllOurs(ch, QueuedIds(queue));
    DrainTracks(clvm, ch, QueuedIds(queue), done, [f.item] + f.queue, total, coins);
    FewerQueued(st.ch, total, coins, f.item, f.queue);
    if f.item.QueuedSettlement? {
      SettlementFails(clvm, st, f.item.gameId);
      FailedSettlementKeeps(st.ch, f.item.gameId, total, coins, QueuedIds(f.queue));
    }
    assert GroupsOk(queue) ==> GroupsOk(f.queue) by {
      assert forall i :: 0 <= i < |f.queue| ==> f.queue[i] == queue[|done| + 1 + i];
    }
  }

  lemma SettlementFails(clvm: Clvm, st: Draining, id: nat)
    requires DrainAction(clvm, st, QueuedSettlement(id)).Err?
    ensures SendAcceptSettlement(st.ch, id).Err?
  {
    hide SendAcceptSettlement;
  }

  lemma SoundIsDistinct(ch: Channel)
    requires Sound(ch)
    ensures Distinct(KnownIds(ch))
  {
  }

  lemma FewerQueued(ch: Channel, total: nat, coins: seq<(PuzzleHash, nat)>, item: GameAction, rest: seq<GameAction>)
    requires SenderOk(ch, total, coins, QueuedIds([item] + rest))
    ensures SenderOk(ch, total, coins, QueuedIds(rest))
  {
    hide Sound, CoinsOk, Fresh, Money;
    QueuedIdsOfFirst(item, rest);
    FreshTail(ch, if item.QueuedGroup? then GroupIds(item.games) else [], QueuedIds(rest));
  }

  // ---------------------------------------------------------------------------
  // When the views still mirror each other
  // ---------------------------------------------------------------------------

  lemma {:induction false} MirroredIds(a: seq<LiveGame>, b: seq<LiveGame>)
    requires MirroredGames(a, b)
    ensures LiveIds(a) == LiveIds(b)
  {
    if a != [] {
      assert MirroredGame(a[0], b[0]);
      assert MirroredGames(a[1..], b[1..]);
      MirroredIds(a[1..], b[1..]);
    }
  }

  lemma {:induction false} CountedLive(games: seq<LiveGame>)
    ensures |LiveIds(games)| == |games|
  {
    if games != [] {
      CountedLive(games[1..]);
    }
  }

  /** A game both sides hold cannot be one that only its mover knows moved. */
  lemma MovedIsNotMirrored(ch: Channel, after: Channel, b: Channel, id: nat)
    requires MirroredGames(ch.live, b.live) && MirroredGames(after.live, b.live) && Distinct(LiveIds(b.live))
    ensures !HasMoved(ch, after, id)
  {
    if HasMoved(ch, after, id) {
      var m :| 0 <= m < |after.live| && after.live[m].gameId == id && !after.live[m].IsMyTurn();
      assert MirroredGame(after.live[m], b.live[m]);
      MirroredIds(ch.live, b.live);
      LiveIdCounted(b.live, m);
      var i :| 0 <= i < |ch.live| && ch.live[i].gameId == id && ch.live[i].IsMyTurn();
      assert MirroredGame(ch.live[i], b.live[i]);
      if i != m {
        LiveIdsDistinct(b.live, if i < m then i else m, if i < m then m else i);
      }
    }
  }

  lemma MirrorNeedsUndone(ch: Channel, ids: seq<nat>, f: Failure, b: Channel, total: nat)
    requires Mirror(ch, b) && Mirror(f.ch, b) && Money(ch, total) && Money(f.ch, total + Excess(f))
    requires Tracks(ch, ids, f.before, f.lost) && Sound(b)
    requires (!Overpays(f) ==> f.ch == f.before) && (Overpays(f) ==> Excess(f) > 0)
    ensures Undone(ch, f)
  {
    hide Sound, LiveIds, PaidOut, Staked, AcceptedIds, SettledIds, Overpays, Excess, MirroredIdentity, MirroredProposals,
         HasMoved, OurTurnsUntouched, OldOrQueued, KeepsGames;
    MirroredMoney(ch, b, total);
    MirrorSymmetric(f.ch, b);
    MirroredMoney(b, f.ch, total);
    assert !Overpays(f);
    MirroredIds(ch.live, b.live);
    MirroredIds(f.ch.live, b.live);
    assert SettledIds(f.lost) == multiset(AcceptedIds(f.lost)) by {
      SameRemainder(LiveIds(ch.live), SettledIds(f.lost), multiset(AcceptedIds(f.lost)));
    }
    forall k | 0 <= k < |f.lost|
      ensures !f.lost[k].Move?
    {
      if f.lost[k].Move? {
        assert Distinct(LiveIds(b.live)) by { SoundIsDistinct(b); DistinctLive(b); }
        MovedIsNotMirrored(ch, f.ch, b, f.lost[k].gameId);
      }
    }
  }

  lemma SameRemainder(a: multiset<nat>, x: multiset<nat>, y: multiset<nat>)
    requires a + x == a + y
    ensures x == y
  {
    forall z: nat
      ensures x[z] == y[z]
    {
      assert (a + x)[z] == a[z] + x[z] && (a + y)[z] == a[z] + y[z];
    }
  }

  lemma UndoneMirrors(ch: Channel, ids: seq<nat>, f: Failure, b: Channel, total: nat)
    requires Mirror(ch, b) && Money(ch, total) && Money(f.ch, total + Excess(f)) && SameRecords(ch, f.ch)
    requires Tracks(ch, ids, f.before, f.lost)
    requires (!Overpays(f) ==> f.ch == f.before) && (Overpays(f) ==> Excess(f) > 0)
    requires MirroredProposals(f.ch.proposed, b.proposed) && Undone(ch, f)
    ensures Mirror(f.ch, b)
  {
    hide LiveIds, PaidOut, Staked, AcceptedIds, SettledIds, Overpays, MirroredProposals, MirroredGames, MirroredIdentity,
         HasMoved, OurTurnsUntouched, OldOrQueued, MovesStand;
    assert Excess(f) == 0;
    forall x | x in SettledIds(f.lost)
      ensures x !in LiveIds(ch.live)
    {
      assert x in multiset(AcceptedIds(f.lost));
    }
    var accepted := multiset(AcceptedIds(f.lost));
    assert accepted + LiveIds(f.ch.live) == LiveIds(f.ch.live) + accepted == LiveIds(ch.live) + accepted
        == accepted + LiveIds(ch.live);
    SameRemainder(accepted, LiveIds(f.ch.live), LiveIds(ch.live));
    CountedLive(f.ch.live);
    CountedLive(ch.live);
    assert f.ch.live == ch.live by {
      assert f.ch.live[..|ch.live|] == f.ch.live;
    }
  }

  /** Queued games are not known to the other side, so those already added are
      no matter between the two. */
  lemma AddedAreUnknown(ch: Channel, queue: seq<GameAction>, after: Channel, b: Channel)
    requires Linked(ch, b, QueuedIds(queue)) && OldOrQueued(ch, QueuedIds(queue), after)
    ensures MirroredProposals(after.proposed, b.proposed)
  {
    hide HashesOk, KnownIds, MirroredGames, MirroredIdentity, QueuedIds, MirroredProposal;
    var ids := QueuedIds(queue);
    forall i, j | 0 <= i < |after.proposed| && 0 <= j < |b.proposed| && after.proposed[i].gameId == b.proposed[j].gameId
      ensures MirroredProposal(after.proposed[i], b.proposed[j])
    {
      if after.proposed[i] !in ch.proposed {
        var k :| 0 <= k < |ids| && ids[k] == after.proposed[i].gameId;
        assert b.theirNextNonce <= ids[k] && ch.IsOurNonce(ids[k]);
        ProposedIsNewToPeer(ch, b, ids[k]);
      }
    }
  }

  /** After a failed drain the two sides' views mirror each other exactly when
      what it carried out was undone in the same drain. */
  lemma FailedDrainMirrorsIff(
    clvm: Clvm, ch: Channel, queue: seq<GameAction>, b: Channel, total: nat, coins: seq<(PuzzleHash, nat)>)
    requires SenderOk(ch, total, coins, QueuedIds(queue)) && Linked(ch, b, QueuedIds(queue))
    requires DrainAll(clvm, ch, queue).Err?
    ensures
      var f := DrainAll(clvm, ch, queue).error;
      Mirror(f.ch, b) <==> Undone(ch, f)
  {
    hide DrainAll, Undone, Mirror, NonceDiscipline, HashesOk, CoinsOk, Money, Fresh, Counts, KeepsGames, MovesStand,
         OurTurnsUntouched, OldOrQueued, Overpays, Excess, QueuedIds;
    var f := DrainAll(clvm, ch, queue).error;
    FailureKeeps(clvm, ch, queue, total, coins);
    AddedAreUnknown(ch, queue, f.before, b);
    if Mirror(f.ch, b) {
      MirrorNeedsUndone(ch, QueuedIds(queue), f, b, total);
    }
    if Undone(ch, f) {
      UndoneMirrors(ch, QueuedIds(queue), f, b, total);
    }
  }

  /** Proposing and cancelling leave nothing to undo. */
  predicate Quiet(item: GameAction) { item.QueuedGroup? || item.QueuedCancel? || item.QueuedSilentCancel? }

  predicate SaysNothing(batch: seq<BatchAction>) {
    forall i :: 0 <= i < |batch| ==> batch[i].ProposeGroup? || batch[i].CancelledProposal?
  }

  lemma {:induction false} QuietDrainSaysNothing(clvm: Clvm, ch: Channel, done: seq<GameAction>)
    requires DrainAll(clvm, ch, done).Ok? && forall i :: 0 <= i < |done| ==> Quiet(done[i])
    ensures SaysNothing(DrainAll(clvm, ch, done).value.batch)
    decreases |done|
  {
    hide SendGroup, CancelProposal, SendMove, SendAcceptSettlement, AcceptProposalInner;
    if done != [] {
      QuietDrainSaysNothing(clvm, ch, done[..|done| - 1]);
      assert Quiet(done[|done| - 1]);
    }
  }

  lemma {:induction false} NothingToUndo(ch: Channel, batch: seq<BatchAction>)
    requires SaysNothing(batch)
    ensures NoMoves(batch) && SettledIds(batch) == multiset{} && AcceptedIds(batch) == []
    ensures PaidOut(batch) == 0 && Staked(ch, batch) == 0
  {
    if batch != [] {
      NothingToUndo(ch, batch[1..]);
    }
  }

  /** A look at the queue is often enough: when everything before the failing
      item only proposes or cancels, and that item does not overpay, the views
      stay mirrored. */
  lemma QuietQueueIsUndone(clvm: Clvm, ch: Channel, queue: seq<GameAction>)
    requires DrainAll(clvm, ch, queue).Err?
    requires
      var f := DrainAll(clvm, ch, queue).error;
      && !Overpays(f)
      && forall i :: 0 <= i < |queue| - |f.queue| - 1 ==> Quiet(queue[i])
    ensures Undone(ch, DrainAll(clvm, ch, queue).error)
  {
    hide DrainAll, DrainAction, Overpays;
    var f := DrainAll(clvm, ch, queue).error;
    var done := FailureSplits(clvm, ch, queue);
    assert forall i :: 0 <= i < |done| ==> done[i] == queue[i];
    QuietDrainSaysNothing(clvm, ch, done);
    NothingToUndo(ch, f.lost);
  }

  /** A failed drain conserves the money exactly when it has not overpaid. */
  lemma FailedDrainKeepsMoneyIff(
    clvm: Clvm, ch: Channel, queue: seq<GameAction>, total: nat, coins: seq<(PuzzleHash, nat)>)
    requires SenderOk(ch, total, coins, QueuedIds(queue)) && DrainAll(clvm, ch, queue).Err?
    ensures
      var f := DrainAll(clvm, ch, queue).error;
      && Money(f.ch, total + Excess(f))
      && (Money(f.ch, total) <==> !Overpays(f))
  {
    hide DrainAll, Tracks, Overpays, Excess, Sound, CoinsOk, Fresh, SameRecords, QueuedIds;
    FailureKeeps(clvm, ch, queue, total, coins);
    var f := DrainAll(clvm, ch, queue).error;
    if !Overpays(f) {
      NothingOver(f);
    }
  }

  lemma NothingOver(f: Failure)
    requires !Overpays(f)
    ensures Excess(f) == 0
  {
  }

  /** Every share we could settle for, in a live game or a proposed one, is
      within the game's amount. */
  ghost predicate SharesFit(ch: Channel) {
    && (forall i :: 0 <= i < |ch.live| && ch.live[i].IsMyTurn() ==> ShareFits(ch.live[i]))
    && (forall i :: 0 <= i < |ch.proposed| && ch.proposed[i].referee.MyTurn? ==>
          ch.proposed[i].referee.spendThisCoin.gameMove.basic.moverShare <= ch.proposed[i].referee.fixed.amount)
  }

  /** No drain overpays when every share we could settle for is within its
      game's amount beforehand. */
  lemma FittingSharesNeverOverpay(
    clvm: Clvm, ch: Channel, queue: seq<GameAction>, total: nat, coins: seq<(PuzzleHash, nat)>)
    requires SenderOk(ch, total, coins, QueuedIds(queue)) && DrainAll(clvm, ch, queue).Err? && SharesFit(ch)
    ensures !Overpays(DrainAll(clvm, ch, queue).error)
  {
    hide DrainAll, Sound, CoinsOk, Fresh, SameRecords, QueuedIds, Counts, KeepsGames, MovesStand, OldOrQueued, Money, Excess;
    FailureKeeps(clvm, ch, queue, total, coins);
  }

  /** An accepted game and a settlement that is not ours to make: the drain fails
      with the game live on one side only, nothing is queued any more, and no
      batch will tell the other side. */
  lemma FailedDrainStrays(clvm: Clvm, ch: Channel, accepted: nat, unknown: nat)
    requires SendAcceptProposal(ch, accepted).Ok? && !ch.IsOurNonce(accepted)
    requires LivePosition(ch.live, unknown).None? && unknown != accepted
    ensures
      var all := DrainAll(clvm, ch, [QueuedAccept(accepted), QueuedSettlement(unknown)]);
      && all.Err? && all.error.ch == SendAcceptProposal(ch, accepted).value
      && all.error.queue == [] && all.error.lost == [AcceptProposal(accepted)]
      && all.error.item == QueuedSettlement(unknown)
      && |all.error.ch.live| == |ch.live| + 1 && !Undone(ch, all.error)
      && forall b: Channel :: Mirror(ch, b) ==> !Mirror(all.error.ch, b)
  {
    hide MirroredGame, MirroredProposals, MirroredIdentity, CanonicalAtom, DrainAll;
    var next := SendAcceptProposal(ch, accepted).value;
    NotAmong(ch.live, next.live[|ch.live|], unknown);
    assert next.live == ch.live + [next.live[|ch.live|]];
    assert DrainAction(clvm, Draining(ch, [], [], None), QueuedAccept(accepted))
        == Ok(Draining(next, [AcceptProposal(accepted)], [], None)) by {
      assert [] + [AcceptProposal(accepted)] == [AcceptProposal(accepted)];
    }
    DrainOfTwo(clvm, ch, QueuedAccept(accepted), QueuedSettlement(unknown));
    var lost := [AcceptProposal(accepted)];
    assert lost[1..] == [] && AcceptedIds(lost) == [accepted];
    assert SettledIds(lost) == multiset{} && accepted in multiset(AcceptedIds(lost));
    forall b: Channel | Mirror(ch, b)
      ensures !Mirror(next, b)
    {
      assert |b.live| == |ch.live|;
    }
  }

  /** A share above the amount is to be had: no check stands between the initial
      share of a received proposal and the settlement of the game it becomes,
      which then fails and has paid out the difference. */
  lemma ProposedShareOverpays(clvm: Clvm, ch: Channel, start: GameStartInfo, groupId: nat)
    requires ApplyReceivedProposal(ch, start, groupId).Ok? && start.handler.MyTurnHandler?
    requires start.initialMoverShare > start.amount
    requires start.myContribution <= ch.myOut && start.theirContribution <= ch.theirOut
    requires ProposalPosition(ch.proposed, start.gameId).None? && LivePosition(ch.live, start.gameId).None?
    requires !ch.IsOurNonce(start.gameId)
    ensures
      var proposed := ApplyReceivedProposal(ch, start, groupId).value.(havePotato := true);
      var all := DrainAll(clvm, proposed, [QueuedAccept(start.gameId), QueuedSettlement(start.gameId)]);
      && all.Err? && Overpays(all.error) && Excess(all.error) == start.initialMoverShare - start.amount
      && all.error.ch.myOut == ch.myOut - start.myContribution + start.initialMoverShare
  {
    var id := start.gameId;
    var proposed := ApplyReceivedProposal(ch, start, groupId).value.(havePotato := true);
    var p := ProposalOf(ch, start, groupId);
    ChannelLaws.LastProposalFound(ch.proposed, p);
    var next := SendAcceptProposal(proposed, id).value;
    var game := LiveGame(p.gameId, p.initialPh, p.referee, p.myContribution, p.theirContribution);
    LastGame(ch.live, game);
    assert next.live == ch.live + [game] && next.myOut == ch.myOut - start.myContribution && next.havePotato;
    assert game.IsMyTurn() && game.Amount() == start.amount && game.referee.OurCurrentShare() == Ok(start.initialMoverShare)
        && game.referee.spendThisCoin.gameMove.basic.moverShare == start.initialMoverShare;
    assert next.myAllocated >= game.myContribution && next.theirAllocated >= game.theirContribution;
    var st := Draining(proposed, [], [], None);
    var accepted := Draining(next, [AcceptProposal(id)], [], None);
    assert DrainAction(clvm, st, QueuedAccept(id)) == Ok(accepted) by {
      assert [] + [AcceptProposal(id)] == [AcceptProposal(id)];
    }
    hide DrainAll, SendAcceptProposal, ApplyReceivedProposal, ProposalOf, LivePosition, Referee.OurCurrentShare, RemoveAt,
         LiveGame.IsMyTurn, LiveGame.Amount;
    assert SendAcceptSettlement(next, id).Err?;
    DrainOfTwo(clvm, proposed, QueuedAccept(id), QueuedSettlement(id));
  }

  lemma {:induction false} LastGame(games: seq<LiveGame>, g: LiveGame)
    requires LivePosition(games, g.gameId).None?
    ensures LivePosition(games + [g], g.gameId) == Some(|games|)
  {
    if games == [] {
      assert [] + [g] == [g];
    } else {
      assert (games + [g])[1..] == games[1..] + [g];
      LastGame(games[1..], g);
    }
  }

  lemma NotAmong(games: seq<LiveGame>, g: LiveGame, id: nat)
    requires LivePosition(games, id).None? && g.gameId != id
    ensures LivePosition(games + [g], id).None?
  {
    assert forall i :: 0 <= i < |games + [g]| ==> (games + [g])[i] == if i < |games| then games[i] else g;
  }
}

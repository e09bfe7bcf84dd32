/** What every drained action and every received action keeps, on one peer. */
module PeerInvariants {
  import opened Wrappers
  import opened Chain
  import opened Referees
  import opened Channels
  import opened ChannelMoney
  import opened ChannelHistory
  import opened ChannelGames
  import opened OffChainPeers

  // ---------------------------------------------------------------------------
  // Queued identifiers
  // ---------------------------------------------------------------------------

  function GroupIds(games: seq<GameStartInfo>): (r: seq<nat>)
    ensures |r| == |games|
  {
    seq(|games|, i requires 0 <= i < |games| => games[i].gameId)
  }

  /** Identifiers of the games in queued groups, front to back. */
  function QueuedIds(queue: seq<GameAction>): seq<nat> {
    if queue == [] then []
    else (if queue[0].QueuedGroup? then GroupIds(queue[0].games) else []) + QueuedIds(queue[1..])
  }

  lemma {:induction false} QueuedIdsOfAppend(queue: seq<GameAction>, more: seq<GameAction>)
    ensures QueuedIds(queue + more) == QueuedIds(queue) + QueuedIds(more)
  {
    if queue == [] {
      assert [] + more == more;
    } else {
      assert (queue + more)[1..] == queue[1..] + more;
      QueuedIdsOfAppend(queue[1..], more);
    }
  }

  lemma {:induction false} NoGroupsNoIds(queue: seq<GameAction>)
    requires forall i :: 0 <= i < |queue| ==> !queue[i].QueuedGroup?
    ensures QueuedIds(queue) == []
  {
    if queue != [] {
      NoGroupsNoIds(queue[1..]);
    }
  }

  /** Queued games are waiting for identifiers of our parity that are in order,
      already allocated, and above every one of ours that is in use. */
  ghost predicate Fresh(ch: Channel, ids: seq<nat>) {
    && (forall i, j :: 0 <= i < j < |ids| ==> ids[i] < ids[j])
    && (forall i :: 0 <= i < |ids| ==> ch.IsOurNonce(ids[i]) && ids[i] < ch.myNextNonce)
    && (forall i, x :: 0 <= i < |ids| && x in KnownIds(ch) && ch.IsOurNonce(x) ==> x < ids[i])
  }

  lemma FreshTail(ch: Channel, ids: seq<nat>, rest: seq<nat>)
    requires Fresh(ch, ids + rest)
    ensures Fresh(ch, rest)
  {
    hide KnownIds, Channel.IsOurNonce;
    var k, all := |ids|, ids + rest;
    forall i | 0 <= i < |rest|
      ensures ch.IsOurNonce(rest[i]) && rest[i] < ch.myNextNonce
      ensures forall x :: x in KnownIds(ch) && ch.IsOurNonce(x) ==> x < rest[i]
      ensures forall j :: i < j < |rest| ==> rest[i] < rest[j]
    {
      assert rest[i] == all[k + i];
      forall j | i < j < |rest|
        ensures rest[i] < rest[j]
      {
        assert rest[j] == all[k + j];
      }
    }
  }

  /** Queued games and the wire members sent for them say the same thing. */
  ghost predicate StartMatchesSpec(start: GameStartInfo, spec: WireGameSpec, timeout: nat) {
    && start.gameId == spec.gameId && start.amount == spec.amount && start.timeout == timeout
    && start.myContribution == spec.senderContribution && start.theirContribution == spec.receiverContribution
    && start.handler.MyTurnHandler? == spec.senderGoesFirst
    && start.validator.hash == spec.validatorHash
    && start.initialState == spec.initialState && start.initialMove == spec.initialMove
    && start.initialMaxMoveSize == spec.initialMaxMoveSize && start.initialMoverShare == spec.initialMoverShare
  }

  ghost predicate GroupOk(action: GameAction) {
    action.QueuedGroup? ==>
      && |action.games| == |action.wire.members|
      && forall i :: 0 <= i < |action.games| ==>
           StartMatchesSpec(action.games[i], action.wire.members[i], action.wire.start.timeout)
  }

  ghost predicate GroupsOk(queue: seq<GameAction>) {
    forall i :: 0 <= i < |queue| ==> GroupOk(queue[i])
  }

  // ---------------------------------------------------------------------------
  // The channel of one peer
  // ---------------------------------------------------------------------------

  ghost predicate TheirProposalsAddUp(ch: Channel) {
    forall i :: 0 <= i < |ch.proposed| && !ch.IsOurNonce(ch.proposed[i].gameId) ==> ProposalAddsUp(ch.proposed[i])
  }

  ghost predicate Sound(ch: Channel) {
    NonceDiscipline(ch) && HashesOk(ch) && TheirProposalsAddUp(ch)
  }

  /** Moves cached since the last received state are of games still live or
      settled since, never of one only proposed. */
  ghost predicate MovedGamesKnown(ch: Channel) {
    forall k :: 0 <= k < |ch.cached| && ch.cached[k].CachedSendMove?
                ==> ch.cached[k].gameId in LiveIds(ch.live) + LiveIds(ch.pending)
  }

  ghost predicate CoinsOk(ch: Channel, coins: seq<(PuzzleHash, nat)>) {
    CoinsKnown(ch, coins) && MovedGamesWait(ch) && MovedGamesKnown(ch)
  }

  /** Nothing that identifies the states exchanged so far has changed. */
  ghost predicate SameRecords(a: Channel, b: Channel) {
    && a.id == b.id && a.stateNumber == b.stateNumber && a.havePotato == b.havePotato
    && a.latestSent == b.latestSent && a.latestReceived == b.latestReceived && a.unrollMap == b.unrollMap
    && a.myNextNonce == b.myNextNonce && a.theirNextNonce % 2 == b.theirNextNonce % 2
  }

  lemma RecordsCarryHistory(a: Channel, b: Channel)
    requires SameRecords(a, b)
    ensures History(a) ==> History(b)
    ensures Alternates(a) ==> Alternates(b)
  {
    if History(a) {
      forall ph | ph in b.unrollMap
        ensures EntryOk(b, ph)
      {
        assert EntryOk(a, ph);
      }
      forall n: nat | n <= b.stateNumber
        ensures HasHistorical(b, n)
      {
        assert HasHistorical(a, n);
      }
    }
  }

  // ---------------------------------------------------------------------------
  // Draining
  // ---------------------------------------------------------------------------

  lemma SendOneKeeps(ch: Channel, g: GameStartInfo, groupId: nat, rest: seq<nat>)
    requires Sound(ch) && Fresh(ch, [g.gameId] + rest)
    ensures Sound(SendProposeGame(ch, g, groupId)) && Fresh(SendProposeGame(ch, g, groupId), rest)
  {
    hide KnownIds, NonceDiscipline, ProposalOk;
    var next := SendProposeGame(ch, g, groupId);
    FreshHeadIsNew(ch, g.gameId, rest);
    FreshTail(ch, [g.gameId], rest);
    assert NonceDiscipline(next) && KnownIds(next) == KnownIds(ch) + multiset{g.gameId} by {
      SentProposalKeepsNonces(ch, g, groupId);
    }
    assert HashesOk(next) by { NewReferenceHashOk(ch, g, groupId); }
  }

  lemma {:induction false} SendGroupKeeps(ch: Channel, games: seq<GameStartInfo>, groupId: nat, rest: seq<nat>)
    requires Sound(ch) && Fresh(ch, GroupIds(games) + rest)
    ensures
      var next := SendGroup(ch, games, groupId);
      Sound(next) && Fresh(next, rest) && next == ch.(proposed := next.proposed)
    decreases |games|
  {
    if games == [] {
      assert GroupIds(games) + rest == rest;
    } else {
      var last := |games| - 1;
      var g := games[last];
      assert GroupIds(games) + rest == GroupIds(games[..last]) + ([g.gameId] + rest);
      SendGroupKeeps(ch, games[..last], groupId, [g.gameId] + rest);
      SendOneKeeps(SendGroup(ch, games[..last], groupId), g, groupId, rest);
    }
  }

  lemma FreshHeadIsNew(ch: Channel, id: nat, rest: seq<nat>)
    requires Fresh(ch, [id] + rest)
    ensures id !in KnownIds(ch) && ch.IsOurNonce(id) && id < ch.myNextNonce
    ensures forall i :: 0 <= i < |rest| ==> id < rest[i]
  {
    assert ([id] + rest)[0] == id;
    forall i | 0 <= i < |rest|
      ensures id < rest[i]
    {
      assert ([id] + rest)[i + 1] == rest[i];
    }
  }

  /** Everything a drained action keeps on the sender. */
  ghost predicate SenderOk(ch: Channel, total: nat, coins: seq<(PuzzleHash, nat)>, ids: seq<nat>) {
    Sound(ch) && Money(ch, total) && CoinsOk(ch, coins) && Fresh(ch, ids)
  }

  lemma FewerIdsStayFresh(ch: Channel, next: Channel, ids: seq<nat>)
    requires Fresh(ch, ids) && KnownIds(next) <= KnownIds(ch) && next.myNextNonce == ch.myNextNonce
    ensures Fresh(next, ids)
  {
    forall x | x in KnownIds(next)
      ensures x in KnownIds(ch)
    {
      assert KnownIds(next)[x] <= KnownIds(ch)[x];
    }
  }

  lemma SentMoveKeepsWaiting(clvm: Clvm, ch: Channel, id: nat, readable: Program, entropy: Bytes)
    requires HashesOk(ch) && Distinct(KnownIds(ch)) && MovedGamesWait(ch) && MovedGamesKnown(ch)
    requires SendMove(clvm, ch, id, readable, entropy).Ok?
    ensures
      var next := SendMove(clvm, ch, id, readable, entropy).value.0;
      MovedGamesWait(next) && MovedGamesKnown(next)
  {
    hide HashesOk, KnownIds;
    var next := SendMove(clvm, ch, id, readable, entropy).value.0;
    var m := LivePosition(ch.live, id).value;
    var redo := next.cached[|ch.cached|];
    assert next.cached == ch.cached + [redo] && redo.gameId == id;
    assert next.live == ch.live[m := next.live[m]] && !next.live[m].IsMyTurn();
    LiveIdsOfUpdate(ch.live, m, next.live[m]);
    LiveIdCounted(ch.live, m);
    forall k, i | 0 <= k < |next.cached| && 0 <= i < |next.live| && next.cached[k].CachedSendMove?
                  && next.live[i].gameId == next.cached[k].gameId
      ensures !next.live[i].IsMyTurn()
    {
      if i != m && k == |ch.cached| {
        DistinctLive(ch);
        LiveIdsDistinct(ch.live, if i < m then i else m, if i < m then m else i);
      }
    }
  }

  lemma SentMoveKeepsRecords(clvm: Clvm, ch: Channel, id: nat, readable: Program, entropy: Bytes)
    requires SendMove(clvm, ch, id, readable, entropy).Ok?
    ensures
      var next := SendMove(clvm, ch, id, readable, entropy).value.0;
      next == ch.(live := next.live, cached := next.cached)
  {
  }

  lemma DrainedMoveKeeps(
    clvm: Clvm, ch: Channel, id: nat, readable: Program, entropy: Bytes, total: nat, coins: seq<(PuzzleHash, nat)>, ids: seq<nat>)
    requires SenderOk(ch, total, coins, ids) && SendMove(clvm, ch, id, readable, entropy).Ok?
    ensures
      var next := SendMove(clvm, ch, id, readable, entropy).value.0;
      SenderOk(next, total, coins, ids) && SameRecords(ch, next)
  {
    hide SendMove, HashesOk, KnownIds, CoinsKnown, MovedGamesWait, MovedGamesKnown, Money, Fresh;
    var next := SendMove(clvm, ch, id, readable, entropy).value.0;
    SentMoveKeepsRecords(clvm, ch, id, readable, entropy);
    SentMoveKeepsNonces(clvm, ch, id, readable, entropy);
    SentMoveKeepsHashes(clvm, ch, id, readable, entropy);
    SendMoveKeepsMoney(clvm, ch, id, readable, entropy, total);
    SentMoveKeepsWaiting(clvm, ch, id, readable, entropy);
    SentMoveKeepsCoins(clvm, ch, id, readable, entropy, coins);
    FewerIdsStayFresh(ch, next, ids);
  }

  lemma SettlementKeepsWaiting(ch: Channel, m: nat, next: Channel, redos: seq<CachedRedo>)
    requires MovedGamesWait(ch) && MovedGamesKnown(ch) && m < |ch.live|
    requires next.live == RemoveAt(ch.live, m) && next.pending == ch.pending + [ch.live[m]]
    requires next.cached == ch.cached + redos && forall i :: 0 <= i < |redos| ==> redos[i].CachedAcceptSettlement?
    ensures MovedGamesWait(next) && MovedGamesKnown(next)
  {
    LiveIdsOfRemove(ch.live, m);
    LiveIdsOfAppend(ch.pending, ch.live[m]);
    assert forall k :: |ch.cached| <= k < |next.cached| ==> next.cached[k] == redos[k - |ch.cached|];
    assert LiveIds(next.live) + LiveIds(next.pending) == LiveIds(ch.live) + LiveIds(ch.pending);
    forall k, i | 0 <= k < |next.cached| && 0 <= i < |next.live| && next.cached[k].CachedSendMove?
                  && next.live[i].gameId == next.cached[k].gameId
      ensures !next.live[i].IsMyTurn()
    {
      assert next.cached[k] == ch.cached[k];
      assert next.live[i] == ch.live[if i < m then i else i + 1];
    }
  }

  lemma SettlementKeepsSound(ch: Channel, m: nat, next: Channel)
    requires Sound(ch) && m < |ch.live|
    requires next.live == RemoveAt(ch.live, m) && next.pending == ch.pending + [ch.live[m]]
    requires next.proposed == ch.proposed
    requires next.myNextNonce == ch.myNextNonce && next.theirNextNonce == ch.theirNextNonce
    requires next.cached == ch.cached
             || exists e: CachedRedo :: e.CachedAcceptSettlement? && next.cached == ch.cached + [e]
    ensures Sound(next) && KnownIds(next) == KnownIds(ch)
  {
    assert NonceDiscipline(next) && KnownIds(next) == KnownIds(ch) by { SettleKeepsNonces(ch, m, next); }
    assert HashesOk(next) by { SettleKeepsHashes(ch, m, next); }
  }

  lemma DrainedSettlementKeeps(ch: Channel, id: nat, total: nat, coins: seq<(PuzzleHash, nat)>, ids: seq<nat>)
    requires SenderOk(ch, total, coins, ids) && SendAcceptSettlement(ch, id).Ok?
    ensures
      var next := SendAcceptSettlement(ch, id).value.0;
      SenderOk(next, total, coins, ids) && SameRecords(ch, next)
  {
    hide NonceDiscipline, HashesOk, CoinsKnown, MovedGamesWait, MovedGamesKnown, Money, Fresh;
    var next := SendAcceptSettlement(ch, id).value.0;
    var m := LivePosition(ch.live, id).value;
    var redo := next.cached[|ch.cached|];
    assert next.cached == ch.cached + [redo] && redo.CachedAcceptSettlement?;
    assert Sound(next) && KnownIds(next) == KnownIds(ch) by { SettlementKeepsSound(ch, m, next); }
    assert Money(next, total) by { SentSettlementKeepsMoney(ch, id, total); }
    assert CoinsOk(next, coins) by {
      SettlementKeepsWaiting(ch, m, next, [redo]);
      SentSettlementKeepsCoins(ch, id, coins);
    }
    FewerIdsStayFresh(ch, next, ids);
  }

  lemma AcceptKeepsSound(ch: Channel, id: nat)
    requires Sound(ch) && AcceptProposalInner(ch, id).Ok?
    ensures
      var next := AcceptProposalInner(ch, id).value;
      Sound(next) && KnownIds(next) == KnownIds(ch)
  {
    hide HashesOk, KnownIds;
    var next := AcceptProposalInner(ch, id).value;
    assert NonceDiscipline(next) && KnownIds(next) == KnownIds(ch) by { AcceptKeepsNonces(ch, id); }
    assert HashesOk(next) by { AcceptKeepsHashes(ch, id); }
  }

  lemma AcceptKeepsWaiting(ch: Channel, id: nat, next: Channel)
    requires NonceDiscipline(ch) && MovedGamesWait(ch) && MovedGamesKnown(ch) && AcceptProposalInner(ch, id).Ok?
    requires next == AcceptProposalInner(ch, id).value.(cached := ch.cached + [CachedProposalAccepted(id)])
    ensures MovedGamesWait(next) && MovedGamesKnown(next)
  {
    hide NonceDiscipline;
    var g := next.live[|ch.live|];
    LiveIdsOfAppend(ch.live, g);
    assert next.live == ch.live + [g];
    ProposalIdCounted(ch.proposed, ProposalPosition(ch.proposed, id).value);
    NewGameHasNoMoves(ch, id);
  }

  lemma CachedAcceptKeepsSound(ch: Channel, id: nat)
    requires Sound(ch)
    ensures
      var next := ch.(cached := ch.cached + [CachedProposalAccepted(id)]);
      Sound(next) && KnownIds(next) == KnownIds(ch)
  {
  }

  lemma DrainedAcceptKeeps(ch: Channel, id: nat, total: nat, coins: seq<(PuzzleHash, nat)>, ids: seq<nat>)
    requires SenderOk(ch, total, coins, ids) && SendAcceptProposal(ch, id).Ok? && !ch.IsOurNonce(id)
    ensures
      var next := SendAcceptProposal(ch, id).value;
      SenderOk(next, total, coins, ids) && SameRecords(ch, next)
  {
    hide HashesOk, KnownIds, CoinsKnown, MovedGamesWait, MovedGamesKnown, Fresh;
    var next := SendAcceptProposal(ch, id).value;
    AcceptKeepsSound(ch, id);
    CachedAcceptKeepsSound(AcceptProposalInner(ch, id).value, id);
    assert Money(next, total) by {
      assert ProposalAddsUp(ch.proposed[ProposalPosition(ch.proposed, id).value]);
      AcceptKeepsMoney(ch, id, total);
    }
    AcceptKeepsWaiting(ch, id, next);
    MoreGamesKeepCoins(ch, next, coins);
    FewerIdsStayFresh(ch, next, ids);
  }

  lemma NewGameHasNoMoves(ch: Channel, id: nat)
    requires NonceDiscipline(ch) && MovedGamesKnown(ch) && id in ProposalIds(ch.proposed)
    ensures forall k :: 0 <= k < |ch.cached| && ch.cached[k].CachedSendMove? ==> ch.cached[k].gameId != id
  {
    assert KnownIds(ch)[id] == LiveIds(ch.live)[id] + LiveIds(ch.pending)[id] + ProposalIds(ch.proposed)[id];
    assert id !in LiveIds(ch.live) + LiveIds(ch.pending);
  }

  lemma DroppedProposalsKeep(
    ch: Channel, next: Channel, total: nat, coins: seq<(PuzzleHash, nat)>, ids: seq<nat>)
    requires SenderOk(ch, total, coins, ids)
    requires next == ch.(proposed := next.proposed)
    requires ProposalIds(next.proposed) <= ProposalIds(ch.proposed)
    requires forall i :: 0 <= i < |next.proposed| ==> next.proposed[i] in ch.proposed
    ensures SenderOk(next, total, coins, ids) && SameRecords(ch, next)
  {
    FewerIdsKeepNonces(ch, next);
    FewerIdsStayFresh(ch, next, ids);
    MoreGamesKeepCoins(ch, next, coins);
    forall i | 0 <= i < |next.proposed|
      ensures ProposalOk(next.proposed[i])
      ensures !ch.IsOurNonce(next.proposed[i].gameId) ==> ProposalAddsUp(next.proposed[i])
    {
      var j :| 0 <= j < |ch.proposed| && ch.proposed[j] == next.proposed[i];
    }
  }

  lemma DrainedCancelKeeps(ch: Channel, id: nat, total: nat, coins: seq<(PuzzleHash, nat)>, ids: seq<nat>)
    requires SenderOk(ch, total, coins, ids) && CancelProposal(ch, id).Ok?
    ensures
      var next := CancelProposal(ch, id).value;
      SenderOk(next, total, coins, ids) && SameRecords(ch, next)
  {
    hide Sound, Money, CoinsOk, Fresh;
    var next := CancelProposal(ch, id).value;
    ProposalIdsOfRemove(ch.proposed, ProposalPosition(ch.proposed, id).value);
    DroppedProposalsKeep(ch, next, total, coins, ids);
  }

  lemma DrainMoveKeeps(
    clvm: Clvm, st: Draining, action: GameAction, total: nat, coins: seq<(PuzzleHash, nat)>, ids: seq<nat>)
    requires action.QueuedMove? && SenderOk(st.ch, total, coins, ids) && DrainMove(clvm, st, action).Ok?
    ensures
      var next := DrainMove(clvm, st, action).value;
      SenderOk(next.ch, total, coins, ids) && SameRecords(st.ch, next.ch)
  {
    if DrainMove(clvm, st, action).value.ch != st.ch {
      DrainedMoveKeeps(clvm, st.ch, action.gameId, action.readable, action.entropy, total, coins, ids);
    }
  }

  lemma DrainAcceptKeeps(st: Draining, id: nat, total: nat, coins: seq<(PuzzleHash, nat)>, ids: seq<nat>)
    requires SenderOk(st.ch, total, coins, ids) && DrainAccept(st, id).Ok?
    ensures
      var next := DrainAccept(st, id).value;
      SenderOk(next.ch, total, coins, ids) && SameRecords(st.ch, next.ch)
  {
    var p := st.ch.proposed[ProposalPosition(st.ch.proposed, id).value];
    if p.myContribution > st.ch.myOut || p.theirContribution > st.ch.theirOut {
      DrainedCancelKeeps(st.ch, id, total, coins, ids);
    } else {
      DrainedAcceptKeeps(st.ch, id, total, coins, ids);
    }
  }

  lemma DrainGroupKeeps(
    ch: Channel, games: seq<GameStartInfo>, groupId: nat, total: nat, coins: seq<(PuzzleHash, nat)>, rest: seq<nat>)
    requires SenderOk(ch, total, coins, GroupIds(games) + rest)
    ensures
      var next := SendGroup(ch, games, groupId);
      SenderOk(next, total, coins, rest) && SameRecords(ch, next)
  {
    hide Sound, Fresh, SendGroup;
    SendGroupKeeps(ch, games, groupId, rest);
    MoreGamesKeepCoins(ch, SendGroup(ch, games, groupId), coins);
  }

  lemma DrainShutdownKeeps(st: Draining, total: nat, coins: seq<(PuzzleHash, nat)>, ids: seq<nat>)
    requires SenderOk(st.ch, total, coins, ids) && DrainShutdown(st).Ok?
    ensures
      var next := DrainShutdown(st).value;
      SenderOk(next.ch, total, coins, ids) && SameRecords(st.ch, next.ch)
  {
    DroppedProposalsKeep(st.ch, DrainShutdown(st).value.ch, total, coins, ids);
  }

  lemma QueuedIdsOfFirst(action: GameAction, rest: seq<GameAction>)
    ensures QueuedIds([action] + rest) == (if action.QueuedGroup? then GroupIds(action.games) else []) + QueuedIds(rest)
  {
    assert ([action] + rest)[1..] == rest;
  }

  /** One drained action keeps everything, and uses up its own identifiers. */
  lemma DrainActionKeeps(
    clvm: Clvm, st: Draining, action: GameAction, rest: seq<GameAction>, total: nat, coins: seq<(PuzzleHash, nat)>)
    requires SenderOk(st.ch, total, coins, QueuedIds([action] + rest))
    requires DrainAction(clvm, st, action).Ok?
    ensures
      var next := DrainAction(clvm, st, action).value;
      SenderOk(next.ch, total, coins, QueuedIds(rest)) && SameRecords(st.ch, next.ch)
  {
    hide Sound, Money, CoinsOk, Fresh, SendMove, SendAcceptSettlement, DrainMove, DrainAccept, DrainShutdown, SendGroup;
    var ids := QueuedIds(rest);
    QueuedIdsOfFirst(action, rest);
    if action.QueuedGroup? {
      DrainGroupKeeps(st.ch, action.games, action.wire.groupId, total, coins, ids);
    } else {
      assert QueuedIds([action] + rest) == ids;
      match action {
        case QueuedMove(_, _, _) => DrainMoveKeeps(clvm, st, action, total, coins, ids);
        case QueuedSettlement(id) => DrainedSettlementKeeps(st.ch, id, total, coins, ids);
        case QueuedAccept(id) => DrainAcceptKeeps(st, id, total, coins, ids);
        case QueuedCancel(id) => DrainedCancelKeeps(st.ch, id, total, coins, ids);
        case QueuedSilentCancel(id) => DrainedCancelKeeps(st.ch, id, total, coins, ids);
        case QueuedShutdown => DrainShutdownKeeps(st, total, coins, ids);
      }
    }
  }

  // ---------------------------------------------------------------------------
  // Receiving
  // ---------------------------------------------------------------------------

  /** What a received action keeps on the receiver: its own queue stays fresh
      because the peer can only add identifiers of the other parity. */
  ghost predicate ReceiverOk(ch: Channel, ids: seq<nat>) {
    Sound(ch) && Fresh(ch, ids)
  }

  lemma ReceivedProposalKeeps(ch: Channel, start: GameStartInfo, groupId: nat, ids: seq<nat>)
    requires ReceiverOk(ch, ids) && ApplyReceivedProposal(ch, start, groupId).Ok?
    ensures
      var next := ApplyReceivedProposal(ch, start, groupId).value;
      ReceiverOk(next, ids) && SameRecords(ch, next)
  {
    hide KnownIds, NonceDiscipline, ProposalOk;
    var next := ApplyReceivedProposal(ch, start, groupId).value;
    ReceivedProposalKeepsNonces(ch, start, groupId);
    NewReferenceHashOk(ch, start, groupId);
    forall i | 0 <= i < |next.proposed|
      ensures ProposalOk(next.proposed[i])
      ensures !ch.IsOurNonce(next.proposed[i].gameId) ==> ProposalAddsUp(next.proposed[i])
    {
      if i < |ch.proposed| {
        assert next.proposed[i] == ch.proposed[i];
      }
    }
  }

  lemma {:induction false} ReceivedGroupKeeps(ch: Channel, games: seq<GameStartInfo>, groupId: nat, ids: seq<nat>)
    requires ReceiverOk(ch, ids) && ApplyGroup(ch, games, groupId).Ok?
    ensures
      var next := ApplyGroup(ch, games, groupId).value;
      ReceiverOk(next, ids) && SameRecords(ch, next)
    decreases |games|
  {
    if games != [] {
      var last := |games| - 1;
      ReceivedGroupKeeps(ch, games[..last], groupId, ids);
      ReceivedProposalKeeps(ApplyGroup(ch, games[..last], groupId).value, games[last], groupId, ids);
    }
  }

  lemma SameIdsKeepReceiver(ch: Channel, next: Channel, ids: seq<nat>)
    requires Fresh(ch, ids) && Sound(next) && KnownIds(next) <= KnownIds(ch) && SameRecords(ch, next)
    ensures ReceiverOk(next, ids)
  {
    FewerIdsStayFresh(ch, next, ids);
  }

  lemma ReceivedCancelKeeps(ch: Channel, id: nat, ids: seq<nat>)
    requires ReceiverOk(ch, ids) && CancelProposal(ch, id).Ok?
    ensures
      var next := CancelProposal(ch, id).value;
      ReceiverOk(next, ids) && SameRecords(ch, next)
  {
    hide KnownIds, NonceDiscipline, ProposalOk, Fresh;
    var next := CancelProposal(ch, id).value;
    assert NonceDiscipline(next) && KnownIds(next) <= KnownIds(ch) by { CancelKeepsNonces(ch, id); }
    SameIdsKeepReceiver(ch, next, ids);
  }

  lemma ReceivedAcceptKeeps(ch: Channel, id: nat, ids: seq<nat>)
    requires ReceiverOk(ch, ids) && ApplyReceivedAcceptProposal(ch, id).Ok?
    ensures
      var next := ApplyReceivedAcceptProposal(ch, id).value;
      ReceiverOk(next, ids) && SameRecords(ch, next)
  {
    AcceptKeepsSound(ch, id);
    SameIdsKeepReceiver(ch, ApplyReceivedAcceptProposal(ch, id).value, ids);
  }

  lemma OtherGamesOnly(ch: Channel, next: Channel, ids: seq<nat>)
    requires ReceiverOk(ch, ids) && next == ch.(live := next.live)
    requires KnownIds(next) == KnownIds(ch) && NonceDiscipline(next) && HashesOk(next)
    ensures ReceiverOk(next, ids) && SameRecords(ch, next)
  {
    SameIdsKeepReceiver(ch, next, ids);
  }

  lemma ReceivedMoveKeepsRecords(clvm: Clvm, ch: Channel, id: nat, details: GameMoveDetails)
    requires ApplyReceivedMove(clvm, ch, id, details).Ok?
    ensures
      var next := ApplyReceivedMove(clvm, ch, id, details).value.0;
      next == ch.(live := next.live)
  {
  }

  lemma ReceivedMoveKeeps(clvm: Clvm, ch: Channel, id: nat, details: GameMoveDetails, ids: seq<nat>)
    requires ReceiverOk(ch, ids) && ApplyReceivedMove(clvm, ch, id, details).Ok?
    ensures
      var next := ApplyReceivedMove(clvm, ch, id, details).value.0;
      ReceiverOk(next, ids) && SameRecords(ch, next)
  {
    hide ApplyReceivedMove, NonceDiscipline, HashesOk, KnownIds;
    ReceivedMoveKeepsRecords(clvm, ch, id, details);
    ReceivedMoveKeepsNonces(clvm, ch, id, details);
    ReceivedMoveKeepsHashes(clvm, ch, id, details);
    OtherGamesOnly(ch, ApplyReceivedMove(clvm, ch, id, details).value.0, ids);
  }

  lemma ReceivedSettlementKeeps(ch: Channel, id: nat, ids: seq<nat>)
    requires ReceiverOk(ch, ids) && ApplyReceivedAcceptSettlement(ch, id).Ok?
    ensures
      var next := ApplyReceivedAcceptSettlement(ch, id).value.0;
      ReceiverOk(next, ids) && SameRecords(ch, next)
  {
    var next := ApplyReceivedAcceptSettlement(ch, id).value.0;
    SettlementKeepsSound(ch, LivePosition(ch.live, id).value, next);
    SameIdsKeepReceiver(ch, next, ids);
  }

  lemma ApplyActionKeeps(clvm: Clvm, factories: Factories, ch: Channel, action: BatchAction, ids: seq<nat>)
    requires ReceiverOk(ch, ids) && ApplyAction(clvm, factories, ch, action).Ok?
    ensures
      var next := ApplyAction(clvm, factories, ch, action).value;
      ReceiverOk(next, ids) && SameRecords(ch, next)
  {
    match action {
      case ProposeGroup(wire) =>
        if wire.start.gameType in factories {
          ReceivedGroupKeeps(ch, Hydrate(clvm, factories, wire).value, wire.groupId, ids);
        }
      case AcceptProposal(id) => ReceivedAcceptKeeps(ch, id, ids);
      case CancelledProposal(id) => ReceivedCancelKeeps(ch, id, ids);
      case Move(id, details) => ReceivedMoveKeeps(clvm, ch, id, details, ids);
      case AcceptSettlement(id, _) => ReceivedSettlementKeeps(ch, id, ids);
    }
  }

  lemma {:induction false} ApplyActionsKeep(
    clvm: Clvm, factories: Factories, ch: Channel, actions: seq<BatchAction>, ids: seq<nat>)
    requires ReceiverOk(ch, ids) && ApplyActions(clvm, factories, ch, actions).Ok?
    ensures
      var next := ApplyActions(clvm, factories, ch, actions).value;
      ReceiverOk(next, ids) && SameRecords(ch, next)
    decreases |actions|
  {
    if actions != [] {
      var last := |actions| - 1;
      ApplyActionsKeep(clvm, factories, ch, actions[..last], ids);
      ApplyActionKeeps(clvm, factories, ApplyActions(clvm, factories, ch, actions[..last]).value, actions[last], ids);
    }
  }

  // ---------------------------------------------------------------------------
  // What a drain leaves behind
  // ---------------------------------------------------------------------------

  /** Only moves are put back, and once a shutdown is packed nothing that
      follows it in the queue can change what it pays out. */
  ghost predicate DrainedOk(st: Draining) {
    && (forall i :: 0 <= i < |st.deferred| ==> st.deferred[i].QueuedMove?)
    && (st.shutdown.Some? ==>
          && st.ch.live == []
          && (forall i :: 0 <= i < |st.ch.proposed| ==> st.ch.IsOurNonce(st.ch.proposed[i].gameId))
          && st.shutdown.value
             == Shutdown(OurChannelHalf(st.ch.id, ShutdownConditions(st.ch)), ShutdownConditions(st.ch)))
  }

  lemma {:induction false} SentGroupIsOurs(ch: Channel, games: seq<GameStartInfo>, groupId: nat)
    requires forall i :: 0 <= i < |ch.proposed| ==> ch.IsOurNonce(ch.proposed[i].gameId)
    requires forall i :: 0 <= i < |games| ==> ch.IsOurNonce(games[i].gameId)
    ensures
      var next := SendGroup(ch, games, groupId);
      && next == ch.(proposed := next.proposed)
      && forall i :: 0 <= i < |next.proposed| ==> next.IsOurNonce(next.proposed[i].gameId)
    decreases |games|
  {
    if games != [] {
      SentGroupIsOurs(ch, games[..|games| - 1], groupId);
    }
  }

  lemma OurIdsOfGroup(ch: Channel, action: GameAction, rest: seq<GameAction>)
    requires action.QueuedGroup? && Fresh(ch, QueuedIds([action] + rest))
    ensures forall i :: 0 <= i < |action.games| ==> ch.IsOurNonce(action.games[i].gameId)
  {
    QueuedIdsOfFirst(action, rest);
    forall i | 0 <= i < |action.games|
      ensures ch.IsOurNonce(action.games[i].gameId)
    {
      assert QueuedIds([action] + rest)[i] == action.games[i].gameId;
    }
  }

  lemma DrainActionLeaves(clvm: Clvm, st: Draining, action: GameAction, rest: seq<GameAction>)
    requires DrainedOk(st) && Fresh(st.ch, QueuedIds([action] + rest))
    requires DrainAction(clvm, st, action).Ok?
    ensures DrainedOk(DrainAction(clvm, st, action).value)
  {
    if action.QueuedGroup? {
      hide Fresh;
      OurIdsOfGroup(st.ch, action, rest);
      if st.shutdown.Some? {
        SentGroupIsOurs(st.ch, action.games, action.wire.groupId);
      }
    } else if action.QueuedMove? {
      hide Fresh, MyTurnMakeMove;
    } else {
      hide Fresh;
    }
  }

  lemma {:induction false} DrainAllLeaves(
    clvm: Clvm, ch: Channel, done: seq<GameAction>, rest: seq<GameAction>, total: nat, coins: seq<(PuzzleHash, nat)>)
    requires SenderOk(ch, total, coins, QueuedIds(done + rest))
    requires DrainAll(clvm, ch, done).Ok?
    ensures
      var st := DrainAll(clvm, ch, done).value;
      DrainedOk(st) && SenderOk(st.ch, total, coins, QueuedIds(rest)) && SameRecords(ch, st.ch)
    decreases |done|
  {
    hide Sound, Money, CoinsOk, Fresh, DrainAction, HasHistorical;
    if done == [] {
      assert done + rest == rest;
    } else {
      var last := |done| - 1;
      assert done + rest == done[..last] + ([done[last]] + rest);
      DrainAllLeaves(clvm, ch, done[..last], [done[last]] + rest, total, coins);
      var st := DrainAll(clvm, ch, done[..last]).value;
      DrainActionKeeps(clvm, st, done[last], rest, total, coins);
      DrainActionLeaves(clvm, st, done[last], rest);
    }
  }

  // --- Work left behind ----------------------------------------------------------------

  /** Whatever moves a drain puts back for later, it never asks for the potato
      again: all it sends is one batch, which gives the potato away. */
  lemma DrainNeverAsks(clvm: Clvm, p: Peer)
    requires DrainQueueIntoBatch(clvm, p).Ok?
    ensures
      var (next, out) := DrainQueueIntoBatch(clvm, p).value;
      && next.queue == DrainAll(clvm, p.ch, p.queue).value.deferred
      && (if out == [] then next.potato.Present? else |out| == 1 && out[0].Batch? && next.potato.Absent?)
  {
    hide DrainAll, UpdateCachedUnrollState;
  }

  lemma DrainOfTwo(clvm: Clvm, ch: Channel, x: GameAction, y: GameAction)
    requires DrainAction(clvm, Draining(ch, [], [], None), x).Ok?
    ensures
      var st := DrainAction(clvm, Draining(ch, [], [], None), x).value;
      && DrainAll(clvm, ch, [x]) == Ok(st)
      && DrainAll(clvm, ch, [x, y])
         == match DrainAction(clvm, st, y)
            case Ok(next) => Ok(next)
            case Err(e) => Err(Failure(AfterFailure(st.ch, y), [], y, st.batch, st.ch, e))
  {
    hide DrainAction, AfterFailure;
    assert [x][..0] == [] && [x, y][..1] == [x];
    assert DrainAll(clvm, ch, []) == Ok(Draining(ch, [], [], None));
    assert DrainAll(clvm, ch, [x]) == Ok(DrainAction(clvm, Draining(ch, [], [], None), x).value);
  }

  /** So a move that has to wait while something else is sent waits without a
      potato and without a request for one. */
  lemma WorkLeftIsNotAskedFor(clvm: Clvm, p: Peer, cancelled: nat, move: GameAction)
    requires p.potato.Present? && move.QueuedMove? && p.queue == [QueuedCancel(cancelled), move]
    requires CancelProposal(p.ch, cancelled).Ok?
    requires GameIsMyTurn(CancelProposal(p.ch, cancelled).value, move.gameId) != Some(true)
    ensures DrainQueueIntoBatch(clvm, p).Ok?
    ensures
      var (next, out) := DrainQueueIntoBatch(clvm, p).value;
      && next.potato.Absent? && next.queue == [move]
      && |out| == 1 && out[0].Batch? && out[0].actions == [CancelledProposal(cancelled)]
  {
    var batch := [CancelledProposal(cancelled)];
    var ch := CancelProposal(p.ch, cancelled).value;
    hide UpdateCachedUnrollState, CancelProposal, GameIsMyTurn, DrainAll;
    assert [] + batch == batch && [] + [move] == [move];
    assert DrainAction(clvm, Draining(p.ch, [], [], None), QueuedCancel(cancelled)) == Ok(Draining(ch, batch, [], None));
    DrainOfTwo(clvm, p.ch, QueuedCancel(cancelled), move);
    assert DrainAction(clvm, Draining(ch, batch, [], None), move) == Ok(Draining(ch, batch, [move], None));
  }
}

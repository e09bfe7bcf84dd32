/** Game identifiers and puzzle hashes: each game keeps its own, and the coins of
    the last unroll received always lead back to their games. */
module ChannelGames {
  import opened Wrappers
  import opened Chain
  import opened Referees
  import opened Channels

  // ---------------------------------------------------------------------------
  // Identifiers
  // ---------------------------------------------------------------------------

  function LiveIds(games: seq<LiveGame>): multiset<nat> {
    if games == [] then multiset{} else multiset{games[0].gameId} + LiveIds(games[1..])
  }

  function ProposalIds(proposals: seq<ProposedGame>): multiset<nat> {
    if proposals == [] then multiset{} else multiset{proposals[0].gameId} + ProposalIds(proposals[1..])
  }

  /** Every identifier the channel knows, with multiplicity. */
  function KnownIds(ch: Channel): multiset<nat> {
    LiveIds(ch.live) + LiveIds(ch.pending) + ProposalIds(ch.proposed)
  }

  ghost predicate Distinct(ids: multiset<nat>) { forall x :: ids[x] <= 1 }

  /** Each known identifier belongs to one game, and is below the next nonce of
      the side whose parity it has. */
  ghost predicate NonceDiscipline(ch: Channel) {
    && ch.myNextNonce % 2 != ch.theirNextNonce % 2
    && Distinct(KnownIds(ch))
    && forall x :: x in KnownIds(ch) ==> x < (if ch.IsOurNonce(x) then ch.myNextNonce else ch.theirNextNonce)
  }

  lemma {:induction false} LiveIdsOfAppend(games: seq<LiveGame>, g: LiveGame)
    ensures LiveIds(games + [g]) == LiveIds(games) + multiset{g.gameId}
  {
    if games == [] {
      assert [] + [g] == [g];
    } else {
      assert (games + [g])[1..] == games[1..] + [g];
      LiveIdsOfAppend(games[1..], g);
    }
  }

  lemma {:induction false} ProposalIdsOfAppend(proposals: seq<ProposedGame>, p: ProposedGame)
    ensures ProposalIds(proposals + [p]) == ProposalIds(proposals) + multiset{p.gameId}
  {
    if proposals == [] {
      assert [] + [p] == [p];
    } else {
      assert (proposals + [p])[1..] == proposals[1..] + [p];
      ProposalIdsOfAppend(proposals[1..], p);
    }
  }

  lemma {:induction false} LiveIdsOfRemove(games: seq<LiveGame>, i: nat)
    requires i < |games|
    ensures LiveIds(games) == LiveIds(RemoveAt(games, i)) + multiset{games[i].gameId}
  {
    if i == 0 {
      assert RemoveAt(games, 0) == games[1..];
    } else {
      assert RemoveAt(games, i)[1..] == RemoveAt(games[1..], i - 1);
      LiveIdsOfRemove(games[1..], i - 1);
    }
  }

  lemma {:induction false} ProposalIdsOfRemove(proposals: seq<ProposedGame>, i: nat)
    requires i < |proposals|
    ensures ProposalIds(proposals) == ProposalIds(RemoveAt(proposals, i)) + multiset{proposals[i].gameId}
  {
    if i == 0 {
      assert RemoveAt(proposals, 0) == proposals[1..];
    } else {
      assert RemoveAt(proposals, i)[1..] == RemoveAt(proposals[1..], i - 1);
      ProposalIdsOfRemove(proposals[1..], i - 1);
    }
  }

  lemma {:induction false} LiveIdsOfUpdate(games: seq<LiveGame>, i: nat, g: LiveGame)
    requires i < |games| && g.gameId == games[i].gameId
    ensures LiveIds(games[i := g]) == LiveIds(games)
  {
    if i == 0 {
      assert games[0 := g][1..] == games[1..];
    } else {
      assert games[i := g][1..] == games[1..][i - 1 := g];
      LiveIdsOfUpdate(games[1..], i - 1, g);
    }
  }

  lemma {:induction false} LiveIdCounted(games: seq<LiveGame>, i: nat)
    requires i < |games|
    ensures games[i].gameId in LiveIds(games)
  {
    LiveIdsOfRemove(games, i);
  }

  lemma LiveIdsDistinct(games: seq<LiveGame>, i: nat, j: nat)
    requires Distinct(LiveIds(games)) && i < j < |games|
    ensures games[i].gameId != games[j].gameId
  {
    LiveIdsOfRemove(games, i);
    LiveIdCounted(RemoveAt(games, i), j - 1);
    assert LiveIds(games)[games[i].gameId] == LiveIds(RemoveAt(games, i))[games[i].gameId] + 1;
  }

  lemma ProposalIdCounted(proposals: seq<ProposedGame>, i: nat)
    requires i < |proposals|
    ensures proposals[i].gameId in ProposalIds(proposals)
  {
    ProposalIdsOfRemove(proposals, i);
  }

  // --- Every operation keeps the discipline -----------------------------------

  lemma AcceptKeepsNonces(ch: Channel, id: nat)
    requires NonceDiscipline(ch) && AcceptProposalInner(ch, id).Ok?
    ensures NonceDiscipline(AcceptProposalInner(ch, id).value)
    ensures KnownIds(AcceptProposalInner(ch, id).value) == KnownIds(ch)
  {
    hide LiveIds, ProposalIds;
    var i := ProposalPosition(ch.proposed, id).value;
    var next := AcceptProposalInner(ch, id).value;
    ProposalIdsOfRemove(ch.proposed, i);
    LiveIdsOfAppend(ch.live, next.live[|ch.live|]);
    assert KnownIds(next) == KnownIds(ch);
  }

  lemma CancelKeepsNonces(ch: Channel, id: nat)
    requires NonceDiscipline(ch) && CancelProposal(ch, id).Ok?
    ensures NonceDiscipline(CancelProposal(ch, id).value)
    ensures KnownIds(CancelProposal(ch, id).value) <= KnownIds(ch)
  {
    var next := CancelProposal(ch, id).value;
    ProposalIdsOfRemove(ch.proposed, ProposalPosition(ch.proposed, id).value);
    FewerIdsKeepNonces(ch, next);
  }

  lemma FewerIdsKeepNonces(ch: Channel, next: Channel)
    requires NonceDiscipline(ch) && KnownIds(next) <= KnownIds(ch)
    requires next.myNextNonce == ch.myNextNonce && next.theirNextNonce == ch.theirNextNonce
    ensures NonceDiscipline(next)
  {
    forall x
      ensures KnownIds(next)[x] <= 1
    {
      assert KnownIds(next)[x] <= KnownIds(ch)[x];
    }
  }

  lemma SentMoveKeepsNonces(clvm: Clvm, ch: Channel, id: nat, readable: Program, entropy: Bytes)
    requires NonceDiscipline(ch) && SendMove(clvm, ch, id, readable, entropy).Ok?
    ensures NonceDiscipline(SendMove(clvm, ch, id, readable, entropy).value.0)
    ensures KnownIds(SendMove(clvm, ch, id, readable, entropy).value.0) == KnownIds(ch)
  {
    var i := LivePosition(ch.live, id).value;
    LiveIdsOfUpdate(ch.live, i, SendMove(clvm, ch, id, readable, entropy).value.0.live[i]);
  }

  lemma ReceivedMoveKeepsNonces(clvm: Clvm, ch: Channel, id: nat, details: GameMoveDetails)
    requires NonceDiscipline(ch) && ApplyReceivedMove(clvm, ch, id, details).Ok?
    ensures NonceDiscipline(ApplyReceivedMove(clvm, ch, id, details).value.0)
    ensures KnownIds(ApplyReceivedMove(clvm, ch, id, details).value.0) == KnownIds(ch)
  {
    var i := LivePosition(ch.live, id).value;
    LiveIdsOfUpdate(ch.live, i, ApplyReceivedMove(clvm, ch, id, details).value.0.live[i]);
  }

  lemma SettleKeepsNonces(ch: Channel, i: nat, next: Channel)
    requires NonceDiscipline(ch) && i < |ch.live|
    requires next.live == RemoveAt(ch.live, i) && next.pending == ch.pending + [ch.live[i]]
    requires next.proposed == ch.proposed
    requires next.myNextNonce == ch.myNextNonce && next.theirNextNonce == ch.theirNextNonce
    ensures NonceDiscipline(next) && KnownIds(next) == KnownIds(ch)
  {
    LiveIdsOfRemove(ch.live, i);
    LiveIdsOfAppend(ch.pending, ch.live[i]);
    assert KnownIds(next) == KnownIds(ch);
  }

  lemma FreshIdKeepsNonces(ch: Channel, next: Channel, id: nat)
    requires NonceDiscipline(ch) && id !in KnownIds(ch)
    requires KnownIds(next) == KnownIds(ch) + multiset{id}
    requires next.myNextNonce == ch.myNextNonce && next.theirNextNonce >= ch.theirNextNonce
    requires next.theirNextNonce % 2 == ch.theirNextNonce % 2
    requires id < (if ch.IsOurNonce(id) then next.myNextNonce else next.theirNextNonce)
    ensures NonceDiscipline(next)
  {
    forall x
      ensures KnownIds(next)[x] <= 1
    {
      assert KnownIds(ch)[x] <= 1;
    }
  }

  lemma ProposalIsOfGame(ch: Channel, start: GameStartInfo, groupId: nat)
    ensures ProposalOf(ch, start, groupId).gameId == start.gameId
  {
  }

  lemma ReceivedProposalKeepsNonces(ch: Channel, start: GameStartInfo, groupId: nat)
    requires NonceDiscipline(ch) && ApplyReceivedProposal(ch, start, groupId).Ok?
    ensures NonceDiscipline(ApplyReceivedProposal(ch, start, groupId).value)
    ensures KnownIds(ApplyReceivedProposal(ch, start, groupId).value) == KnownIds(ch) + multiset{start.gameId}
    ensures start.gameId !in KnownIds(ch) && !ch.IsOurNonce(start.gameId)
  {
    hide ProposalOf, LiveIds, ProposalIds;
    var next := ApplyReceivedProposal(ch, start, groupId).value;
    ProposalIsOfGame(ch, start, groupId);
    ProposalIdsOfAppend(ch.proposed, ProposalOf(ch, start, groupId));
    assert KnownIds(next) == KnownIds(ch) + multiset{start.gameId};
    FreshIdKeepsNonces(ch, next, start.gameId);
  }

  /** Our own proposals must carry a fresh nonce of our parity; OffChainPeers
      shows that the ones waiting in the queue do. */
  lemma SentProposalKeepsNonces(ch: Channel, start: GameStartInfo, groupId: nat)
    requires NonceDiscipline(ch) && start.gameId !in KnownIds(ch)
    requires ch.IsOurNonce(start.gameId) && start.gameId < ch.myNextNonce
    ensures NonceDiscipline(SendProposeGame(ch, start, groupId))
    ensures KnownIds(SendProposeGame(ch, start, groupId)) == KnownIds(ch) + multiset{start.gameId}
  {
    hide ProposalOf;
    var next := SendProposeGame(ch, start, groupId);
    ProposalIsOfGame(ch, start, groupId);
    ProposalIdsOfAppend(ch.proposed, ProposalOf(ch, start, groupId));
    assert KnownIds(next) == KnownIds(ch) + multiset{start.gameId};
    FreshIdKeepsNonces(ch, next, start.gameId);
  }

  // ---------------------------------------------------------------------------
  // Puzzle hashes
  // ---------------------------------------------------------------------------

  /** The nonce curried into a referee puzzle is the identifier of its game. */
  function NonceOf(ph: PuzzleHash): Option<nat> {
    if ph.RefereePh? then Some(ph.curried.nonce) else None
  }

  ghost predicate RefereeOfGame(r: Referee, id: nat) {
    ValidReferee(r) && r.fixed.nonce == id
  }

  ghost predicate GameOk(g: LiveGame) {
    RefereeOfGame(g.referee, g.gameId) && g.lastPh == g.referee.OutcomePuzzleHash()
  }

  ghost predicate ProposalOk(p: ProposedGame) {
    RefereeOfGame(p.referee, p.gameId) && p.initialPh == p.referee.OutcomePuzzleHash()
  }

  ghost predicate GamesOk(games: seq<LiveGame>) { forall i :: 0 <= i < |games| ==> GameOk(games[i]) }

  ghost predicate ProposalsOk(proposals: seq<ProposedGame>) {
    forall i :: 0 <= i < |proposals| ==> ProposalOk(proposals[i])
  }

  ghost predicate RedoOk(e: CachedRedo) {
    e.CachedSendMove? ==> NonceOf(e.matchPuzzleHash) == Some(e.gameId)
  }

  ghost predicate RedosOk(cached: seq<CachedRedo>) { forall i :: 0 <= i < |cached| ==> RedoOk(cached[i]) }

  /** Every game's latest hash is the outcome of its referee, and every hash the
      channel would recognise a coin by names the game it belongs to. */
  ghost predicate HashesOk(ch: Channel) {
    GamesOk(ch.live) && GamesOk(ch.pending) && ProposalsOk(ch.proposed) && RedosOk(ch.cached)
  }

  lemma NewReferenceHashOk(ch: Channel, start: GameStartInfo, groupId: nat)
    ensures ProposalOk(ProposalOf(ch, start, groupId))
  {
  }

  lemma AcceptKeepsHashes(ch: Channel, id: nat)
    requires HashesOk(ch) && AcceptProposalInner(ch, id).Ok?
    ensures HashesOk(AcceptProposalInner(ch, id).value)
  {
    var i := ProposalPosition(ch.proposed, id).value;
    assert ProposalOk(ch.proposed[i]);
  }

  lemma SentMoveKeepsHashes(clvm: Clvm, ch: Channel, id: nat, readable: Program, entropy: Bytes)
    requires HashesOk(ch) && SendMove(clvm, ch, id, readable, entropy).Ok?
    ensures
      var next := SendMove(clvm, ch, id, readable, entropy).value.0;
      var i := LivePosition(ch.live, id).value;
      && HashesOk(next)
      && |next.live| == |ch.live| && next.live == ch.live[i := next.live[i]]
      && next.live[i].gameId == id && next.live[i].Amount() == ch.live[i].Amount()
      && |next.cached| == |ch.cached| + 1 && next.cached[..|ch.cached|] == ch.cached
      && next.cached[|ch.cached|].CachedSendMove? && next.cached[|ch.cached|].gameId == id
      && next.cached[|ch.cached|].matchPuzzleHash == ch.live[i].lastPh
  {
    var i := LivePosition(ch.live, id).value;
    assert GameOk(ch.live[i]);
  }

  lemma ReceivedMoveKeepsHashes(clvm: Clvm, ch: Channel, id: nat, details: GameMoveDetails)
    requires HashesOk(ch) && ApplyReceivedMove(clvm, ch, id, details).Ok?
    ensures HashesOk(ApplyReceivedMove(clvm, ch, id, details).value.0)
  {
    var i := LivePosition(ch.live, id).value;
    assert GameOk(ch.live[i]);
  }

  lemma SettleKeepsHashes(ch: Channel, i: nat, next: Channel)
    requires HashesOk(ch) && i < |ch.live|
    requires next.live == RemoveAt(ch.live, i) && next.pending == ch.pending + [ch.live[i]]
    requires next.proposed == ch.proposed
    requires next.cached == ch.cached
             || exists e: CachedRedo :: e.CachedAcceptSettlement? && next.cached == ch.cached + [e]
    ensures HashesOk(next)
  {
    assert GameOk(ch.live[i]);
  }

  lemma {:induction false} OnlySettlementsOk(cached: seq<CachedRedo>)
    ensures RedosOk(OnlySettlements(cached))
    ensures WithoutSettlements(OnlySettlements(cached)) == []
  {
    if cached != [] {
      OnlySettlementsOk(cached[1..]);
      if cached[0].CachedAcceptSettlement? {
        assert OnlySettlements(cached)[1..] == OnlySettlements(cached[1..]);
      } else {
        assert OnlySettlements(cached) == OnlySettlements(cached[1..]);
      }
    }
  }

  // ---------------------------------------------------------------------------
  // Unroll coins find their games
  // ---------------------------------------------------------------------------

  /** Coins an unroll creates after its state number and the two rewards. */
  function GameCoinsOf(conditions: seq<Condition>): seq<(PuzzleHash, nat)> {
    if |conditions| < 3 then []
    else
      seq(|conditions| - 3, i requires 0 <= i < |conditions| - 3 =>
        if conditions[i + 3].CreateCoin? then (conditions[i + 3].ph, conditions[i + 3].amount) else (RewardPh(0), 0))
  }

  lemma UnrollCreatesGameCoins(started: bool, number: nat, inputs: UnrollInputs)
    ensures GameCoinsOf(BaseConditions(started, number, inputs)) == inputs.coins
  {
    var base := BaseConditions(started, number, inputs);
    assert |base| == |inputs.coins| + 3;
    forall i | 0 <= i < |inputs.coins|
      ensures base[i + 3] == CreateCoin(inputs.coins[i].0, inputs.coins[i].1)
    {
      assert base[i + 3] == CoinConditions(inputs.coins)[i];
    }
  }

  /** The channel can recognise the coin: an unmoved game by its latest hash, a
      moved one by the hash its cached move spends, a settled one in pending. */
  ghost predicate CoinKnown(ch: Channel, ph: PuzzleHash, amount: nat) {
    || (exists i :: 0 <= i < |ch.live| && ch.live[i].lastPh == ph && ch.live[i].Amount() == amount)
    || (exists k, i :: 0 <= k < |ch.cached| && 0 <= i < |ch.live|
                       && ch.cached[k].CachedSendMove? && ch.cached[k].matchPuzzleHash == ph
                       && ch.live[i].gameId == ch.cached[k].gameId && ch.live[i].Amount() == amount)
    || (exists i :: 0 <= i < |ch.pending| && ch.pending[i].lastPh == ph && ch.pending[i].Amount() == amount)
  }

  ghost predicate CoinsKnown(ch: Channel, coins: seq<(PuzzleHash, nat)>) {
    forall i :: 0 <= i < |coins| ==> CoinKnown(ch, coins[i].0, coins[i].1)
  }

  /** Coins of different games: each carries the nonce of its own game. */
  ghost predicate CoinsOfDistinctGames(coins: seq<(PuzzleHash, nat)>) {
    && (forall i :: 0 <= i < |coins| ==> coins[i].0.RefereePh?)
    && (forall i, j :: 0 <= i < j < |coins| ==> coins[i].0.RefereePh? && coins[j].0.RefereePh?
                                                && coins[i].0.curried.nonce != coins[j].0.curried.nonce)
  }

  lemma CurrentCoinsAreKnown(ch: Channel)
    requires HashesOk(ch) && Distinct(KnownIds(ch))
    ensures CoinsKnown(ch, GameCoins(ch.live)) && CoinsOfDistinctGames(GameCoins(ch.live))
  {
    var coins := GameCoins(ch.live);
    forall i | 0 <= i < |coins|
      ensures coins[i].0.RefereePh? && coins[i].0.curried.nonce == ch.live[i].gameId && CoinKnown(ch, coins[i].0, coins[i].1)
    {
      assert GameOk(ch.live[i]);
    }
    forall i, j | 0 <= i < j < |coins|
      ensures coins[i].0.curried.nonce != coins[j].0.curried.nonce
    {
      DistinctLive(ch);
      LiveIdsDistinct(ch.live, i, j);
    }
  }

  lemma DistinctLive(ch: Channel)
    requires Distinct(KnownIds(ch))
    ensures Distinct(LiveIds(ch.live)) && Distinct(LiveIds(ch.pending))
    ensures forall x :: x in LiveIds(ch.live) ==> x !in LiveIds(ch.pending)
  {
    forall x
      ensures LiveIds(ch.live)[x] + LiveIds(ch.pending)[x] <= 1
    {
      assert KnownIds(ch)[x] == LiveIds(ch.live)[x] + LiveIds(ch.pending)[x] + ProposalIds(ch.proposed)[x];
    }
  }

  // --- Sending keeps the coins of the last received unroll known --------------

  lemma SentMoveKeepsCoins(
    clvm: Clvm, ch: Channel, id: nat, readable: Program, entropy: Bytes, coins: seq<(PuzzleHash, nat)>)
    requires HashesOk(ch) && CoinsKnown(ch, coins) && SendMove(clvm, ch, id, readable, entropy).Ok?
    ensures CoinsKnown(SendMove(clvm, ch, id, readable, entropy).value.0, coins)
  {
    SentMoveKeepsHashes(clvm, ch, id, readable, entropy);
    var next := SendMove(clvm, ch, id, readable, entropy).value.0;
    var m := LivePosition(ch.live, id).value;
    var k := |ch.cached|;
    forall c | 0 <= c < |coins|
      ensures CoinKnown(next, coins[c].0, coins[c].1)
    {
      var (ph, amount) := coins[c];
      assert CoinKnown(ch, ph, amount);
      if i :| 0 <= i < |ch.live| && ch.live[i].lastPh == ph && ch.live[i].Amount() == amount {
        if i == m {
          assert next.cached[k].matchPuzzleHash == ph && next.live[m].gameId == next.cached[k].gameId;
        } else {
          assert next.live[i].lastPh == ph && next.live[i].Amount() == amount;
        }
      } else if j, i :| 0 <= j < |ch.cached| && 0 <= i < |ch.live|
                        && ch.cached[j].CachedSendMove? && ch.cached[j].matchPuzzleHash == ph
                        && ch.live[i].gameId == ch.cached[j].gameId && ch.live[i].Amount() == amount {
        assert next.cached[j] == next.cached[..k][j];
        assert next.live[i].gameId == next.cached[j].gameId && next.live[i].Amount() == amount;
      }
    }
  }

  /** A settlement needs our turn, so the settled game has not been moved since
      the unroll was received: its coin is found in pending by its latest hash. */
  ghost predicate MovedGamesWait(ch: Channel) {
    forall k, i :: 0 <= k < |ch.cached| && 0 <= i < |ch.live|
                   && ch.cached[k].CachedSendMove? && ch.live[i].gameId == ch.cached[k].gameId
                   ==> !ch.live[i].IsMyTurn()
  }

  lemma SentSettlementKeepsCoins(ch: Channel, id: nat, coins: seq<(PuzzleHash, nat)>)
    requires CoinsKnown(ch, coins) && MovedGamesWait(ch) && SendAcceptSettlement(ch, id).Ok?
    ensures CoinsKnown(SendAcceptSettlement(ch, id).value.0, coins)
  {
    hide CoinsKnown, MovedGamesWait;
    TakenGameKeepsCoins(ch, LivePosition(ch.live, id).value, SendAcceptSettlement(ch, id).value.0, coins);
  }

  lemma TakenGameKeepsCoins(ch: Channel, m: nat, next: Channel, coins: seq<(PuzzleHash, nat)>)
    requires CoinsKnown(ch, coins) && MovedGamesWait(ch) && m < |ch.live| && ch.live[m].IsMyTurn()
    requires next.live == RemoveAt(ch.live, m) && next.pending == ch.pending + [ch.live[m]]
    requires ch.cached <= next.cached
    ensures CoinsKnown(next, coins)
  {
    forall c | 0 <= c < |coins|
      ensures CoinKnown(next, coins[c].0, coins[c].1)
    {
      var (ph, amount) := coins[c];
      assert CoinKnown(ch, ph, amount);
      if i :| 0 <= i < |ch.live| && ch.live[i].lastPh == ph && ch.live[i].Amount() == amount {
        if i == m {
          assert next.pending[|ch.pending|] == ch.live[m];
        } else {
          assert next.live[if i < m then i else i - 1] == ch.live[i];
        }
      } else if j, i :| 0 <= j < |ch.cached| && 0 <= i < |ch.live|
                        && ch.cached[j].CachedSendMove? && ch.cached[j].matchPuzzleHash == ph
                        && ch.live[i].gameId == ch.cached[j].gameId && ch.live[i].Amount() == amount {
        assert i != m;
        assert next.cached[j] == ch.cached[j];
        assert next.live[if i < m then i else i - 1] == ch.live[i];
      } else if i :| 0 <= i < |ch.pending| && ch.pending[i].lastPh == ph && ch.pending[i].Amount() == amount {
        assert next.pending[i] == ch.pending[i];
      }
    }
  }

  lemma MoreGamesKeepCoins(ch: Channel, next: Channel, coins: seq<(PuzzleHash, nat)>)
    requires CoinsKnown(ch, coins)
    requires ch.live <= next.live && ch.cached <= next.cached && ch.pending <= next.pending
    ensures CoinsKnown(next, coins)
  {
    forall c | 0 <= c < |coins|
      ensures CoinKnown(next, coins[c].0, coins[c].1)
    {
      var (ph, amount) := coins[c];
      assert CoinKnown(ch, ph, amount);
      if i :| 0 <= i < |ch.live| && ch.live[i].lastPh == ph && ch.live[i].Amount() == amount {
        assert next.live[i] == ch.live[i];
      } else if j, i :| 0 <= j < |ch.cached| && 0 <= i < |ch.live|
                        && ch.cached[j].CachedSendMove? && ch.cached[j].matchPuzzleHash == ph
                        && ch.live[i].gameId == ch.cached[j].gameId && ch.live[i].Amount() == amount {
        assert next.cached[j] == ch.cached[j] && next.live[i] == ch.live[i];
      } else if i :| 0 <= i < |ch.pending| && ch.pending[i].lastPh == ph && ch.pending[i].Amount() == amount {
        assert next.pending[i] == ch.pending[i];
      }
    }
  }

  // --- Known coins are matched, each to its own game ---------------------------

  /** Whatever game a coin is matched to, it is the one its puzzle hash names. */
  lemma MatchNamesItsGame(ch: Channel, matched: set<nat>, ph: PuzzleHash, amount: nat)
    requires HashesOk(ch) && MatchCoin(ch, matched, ph, amount).Some?
    ensures NonceOf(ph) == Some(MatchCoin(ch, matched, ph, amount).value.state.gameId)
  {
    var latest := FindLatest(ch.live, matched, ph, amount);
    var redo := FindRedo(ch.cached, ch.live, matched, ph, amount);
    var pending := FindPending(ch.pending, ph, amount);
    if latest.Some? {
      var i :| 0 <= i < |ch.live| && ch.live[i] == latest.value;
      assert GameOk(ch.live[i]);
    } else if redo.Some? {
      var e :| e in ch.cached && RedoMatches(e, matched, ph) && e.gameId == redo.value.gameId;
      var k :| 0 <= k < |ch.cached| && ch.cached[k] == e;
      assert RedoOk(ch.cached[k]);
    } else {
      var i :| 0 <= i < |ch.pending| && ch.pending[i] == pending.value;
      assert GameOk(ch.pending[i]);
    }
  }

  lemma KnownCoinMatches(ch: Channel, matched: set<nat>, ph: PuzzleHash, amount: nat)
    requires HashesOk(ch) && CoinKnown(ch, ph, amount)
    requires ph.RefereePh? && ph.curried.nonce !in matched
    ensures MatchCoin(ch, matched, ph, amount).Some?
  {
    hide FindLatest, FindRedo, FindPending, HashesOk, LiveGame.Amount;
    if i :| 0 <= i < |ch.live| && ch.live[i].lastPh == ph && ch.live[i].Amount() == amount {
      LatestIsFound(ch, matched, ph, amount, i);
    } else if j, i :| 0 <= j < |ch.cached| && 0 <= i < |ch.live|
                      && ch.cached[j].CachedSendMove? && ch.cached[j].matchPuzzleHash == ph
                      && ch.live[i].gameId == ch.cached[j].gameId && ch.live[i].Amount() == amount {
      RedoIsFound(ch, matched, ph, amount, j, i);
    } else {
      var i :| 0 <= i < |ch.pending| && ch.pending[i].lastPh == ph && ch.pending[i].Amount() == amount;
      PendingIsFound(ch, ph, amount, i);
    }
  }

  lemma LatestIsFound(ch: Channel, matched: set<nat>, ph: PuzzleHash, amount: nat, i: nat)
    requires HashesOk(ch) && ph.RefereePh? && ph.curried.nonce !in matched
    requires i < |ch.live| && ch.live[i].lastPh == ph && ch.live[i].Amount() == amount
    ensures FindLatest(ch.live, matched, ph, amount).Some?
  {
    hide ProposalsOk, RedoOk;
    assert GameOk(ch.live[i]);
    assert ch.live[i] in ch.live;
  }

  lemma RedoIsFound(ch: Channel, matched: set<nat>, ph: PuzzleHash, amount: nat, j: nat, i: nat)
    requires HashesOk(ch) && ph.RefereePh? && ph.curried.nonce !in matched
    requires j < |ch.cached| && ch.cached[j].CachedSendMove? && ch.cached[j].matchPuzzleHash == ph
    requires i < |ch.live| && ch.live[i].gameId == ch.cached[j].gameId && ch.live[i].Amount() == amount
    ensures FindRedo(ch.cached, ch.live, matched, ph, amount).Some?
  {
    hide ProposalsOk, GameOk, LiveGame.Amount;
    assert RedoOk(ch.cached[j]);
    assert RedoMatches(ch.cached[j], matched, ph);
    assert ch.cached[j] in ch.cached && ch.live[i] in ch.live;
  }

  lemma PendingIsFound(ch: Channel, ph: PuzzleHash, amount: nat, i: nat)
    requires i < |ch.pending| && ch.pending[i].lastPh == ph && ch.pending[i].Amount() == amount
    ensures FindPending(ch.pending, ph, amount).Some?
  {
    assert ch.pending[i] in ch.pending;
  }

  /** Matching further coins does not touch the entry of a coin that is not one of them. */
  lemma {:induction false} OtherCoinsKept(
    ch: Channel, unroll: CoinID, coins: seq<(PuzzleHash, nat)>, matched: set<nat>, found: map<CoinString, OnChainGameState>,
    coin: CoinString)
    requires coin in found
    requires forall i :: 0 <= i < |coins| ==> coins[i].0 != coin.ph
    ensures
      var r := MatchCoinsFrom(ch, unroll, coins, matched, found);
      coin in r && r[coin] == found[coin]
    decreases |coins|
  {
    if coins != [] {
      var (ph, amount) := coins[0];
      assert ph != coin.ph;
      match MatchCoin(ch, matched, ph, amount) {
        case None =>
          OtherCoinsKept(ch, unroll, coins[1..], matched, found, coin);
        case Some(m) =>
          OtherCoinsKept(
            ch, unroll, coins[1..], if m.live then matched + {m.state.gameId} else matched,
            found[CoinString(unroll, ph, amount) := m.state], coin);
      }
    }
  }

  ghost predicate FoundItsGame(r: map<CoinString, OnChainGameState>, unroll: CoinID, ph: PuzzleHash, amount: nat) {
    var coin := CoinString(unroll, ph, amount);
    coin in r && NonceOf(ph) == Some(r[coin].gameId) && r[coin].puzzleHash == ph
  }

  lemma {:induction false} KnownCoinsMatchFrom(
    ch: Channel, unroll: CoinID, coins: seq<(PuzzleHash, nat)>, matched: set<nat>, found: map<CoinString, OnChainGameState>,
    k: nat)
    requires HashesOk(ch) && CoinsKnown(ch, coins) && CoinsOfDistinctGames(coins)
    requires forall i :: 0 <= i < |coins| ==> coins[i].0.curried.nonce !in matched
    requires k < |coins|
    ensures FoundItsGame(MatchCoinsFrom(ch, unroll, coins, matched, found), unroll, coins[k].0, coins[k].1)
    decreases |coins|
  {
    hide FindLatest, FindRedo, FindPending, HashesOk, CoinKnown;
    var (ph, amount) := coins[0];
    assert CoinKnown(ch, coins[0].0, coins[0].1);
    KnownCoinMatches(ch, matched, ph, amount);
    MatchNamesItsGame(ch, matched, ph, amount);
    var m := MatchCoin(ch, matched, ph, amount).value;
    var matched' := if m.live then matched + {m.state.gameId} else matched;
    var coin := CoinString(unroll, ph, amount);
    var found' := found[coin := m.state];
    var rest := coins[1..];
    if k == 0 {
      OtherCoinsKept(ch, unroll, rest, matched', found', coin);
    } else {
      RestIsKnown(ch, coins);
      assert rest[k - 1] == coins[k];
      KnownCoinsMatchFrom(ch, unroll, rest, matched', found', k - 1);
    }
  }

  lemma RestIsKnown(ch: Channel, coins: seq<(PuzzleHash, nat)>)
    requires coins != [] && CoinsKnown(ch, coins) && CoinsOfDistinctGames(coins)
    ensures CoinsKnown(ch, coins[1..]) && CoinsOfDistinctGames(coins[1..])
  {
    var rest := coins[1..];
    forall i | 0 <= i < |rest|
      ensures CoinKnown(ch, rest[i].0, rest[i].1) && rest[i].0.RefereePh?
    {
      assert CoinKnown(ch, coins[i + 1].0, coins[i + 1].1);
    }
  }

  /** Coins of distinct games that the channel knows are all matched, each to
      the game whose nonce its puzzle hash carries. */
  lemma KnownCoinsFindTheirGames(ch: Channel, unroll: CoinID, coins: seq<(PuzzleHash, nat)>)
    requires HashesOk(ch) && CoinsKnown(ch, coins) && CoinsOfDistinctGames(coins)
    ensures forall i :: 0 <= i < |coins| ==>
              FoundItsGame(SetStateForCoins(ch, unroll, coins), unroll, coins[i].0, coins[i].1)
  {
    forall i | 0 <= i < |coins|
      ensures FoundItsGame(SetStateForCoins(ch, unroll, coins), unroll, coins[i].0, coins[i].1)
    {
      KnownCoinsMatchFrom(ch, unroll, coins, {}, map[], i);
    }
  }

  // --- Distinct coins, distinct games -----------------------------------------------

  ghost predicate InjectiveByGame(found: map<CoinString, OnChainGameState>) {
    forall c, d :: c in found && d in found && found[c].gameId == found[d].gameId ==> c == d
  }

  /** The coin of a settled game with this identifier. */
  ghost predicate SettledCoin(ch: Channel, unroll: CoinID, id: nat, coin: CoinString) {
    exists i :: 0 <= i < |ch.pending| && ch.pending[i].gameId == id
                && coin == CoinString(unroll, ch.pending[i].lastPh, ch.pending[i].Amount())
  }

  /** Games matched while live are recorded in `matched`; the others are settled
      games found under their own coin. */
  ghost predicate MatchesOk(ch: Channel, unroll: CoinID, matched: set<nat>, found: map<CoinString, OnChainGameState>) {
    && (forall c :: c in found ==> found[c].gameId in matched || SettledCoin(ch, unroll, found[c].gameId, c))
    && (forall id :: id in matched ==> id in LiveIds(ch.live))
    && InjectiveByGame(found)
  }

  lemma SettledCoinIsUnique(ch: Channel, unroll: CoinID, id: nat, c: CoinString, d: CoinString)
    requires Distinct(KnownIds(ch)) && SettledCoin(ch, unroll, id, c) && SettledCoin(ch, unroll, id, d)
    ensures c == d && id !in LiveIds(ch.live)
  {
    DistinctLive(ch);
    var i :| 0 <= i < |ch.pending| && ch.pending[i].gameId == id
             && c == CoinString(unroll, ch.pending[i].lastPh, ch.pending[i].Amount());
    var j :| 0 <= j < |ch.pending| && ch.pending[j].gameId == id
             && d == CoinString(unroll, ch.pending[j].lastPh, ch.pending[j].Amount());
    LiveIdCounted(ch.pending, i);
    if i < j {
      LiveIdsDistinct(ch.pending, i, j);
    } else if j < i {
      LiveIdsDistinct(ch.pending, j, i);
    }
  }

  lemma LiveMatchIsFresh(ch: Channel, matched: set<nat>, ph: PuzzleHash, amount: nat)
    requires MatchCoin(ch, matched, ph, amount).Some?
    ensures
      var m := MatchCoin(ch, matched, ph, amount).value;
      if m.live then m.state.gameId !in matched && m.state.gameId in LiveIds(ch.live)
      else forall unroll: CoinID :: SettledCoin(ch, unroll, m.state.gameId, CoinString(unroll, ph, amount))
  {
    var latest := FindLatest(ch.live, matched, ph, amount);
    var redo := FindRedo(ch.cached, ch.live, matched, ph, amount);
    if latest.Some? || redo.Some? {
      var g := if latest.Some? then latest.value else redo.value;
      var i :| 0 <= i < |ch.live| && ch.live[i] == g;
      LiveIdCounted(ch.live, i);
    } else {
      var i :| 0 <= i < |ch.pending| && ch.pending[i] == FindPending(ch.pending, ph, amount).value;
    }
  }

  lemma MatchKeepsOk(
    ch: Channel, unroll: CoinID, matched: set<nat>, found: map<CoinString, OnChainGameState>, ph: PuzzleHash, amount: nat)
    requires Distinct(KnownIds(ch)) && MatchesOk(ch, unroll, matched, found)
    requires MatchCoin(ch, matched, ph, amount).Some?
    ensures
      var m := MatchCoin(ch, matched, ph, amount).value;
      MatchesOk(
        ch, unroll, if m.live then matched + {m.state.gameId} else matched,
        found[CoinString(unroll, ph, amount) := m.state])
  {
    var m := MatchCoin(ch, matched, ph, amount).value;
    var coin := CoinString(unroll, ph, amount);
    LiveMatchIsFresh(ch, matched, ph, amount);
    forall c | c in found && found[c].gameId == m.state.gameId
      ensures c == coin
    {
      if SettledCoin(ch, unroll, found[c].gameId, c) {
        SettledCoinIsUnique(ch, unroll, found[c].gameId, c, c);
        if !m.live {
          SettledCoinIsUnique(ch, unroll, found[c].gameId, c, coin);
        }
      } else if !m.live {
        SettledCoinIsUnique(ch, unroll, m.state.gameId, coin, coin);
      }
    }
  }

  lemma {:induction false} MatchesInjectiveFrom(
    ch: Channel, unroll: CoinID, coins: seq<(PuzzleHash, nat)>, matched: set<nat>, found: map<CoinString, OnChainGameState>)
    requires Distinct(KnownIds(ch)) && MatchesOk(ch, unroll, matched, found)
    ensures InjectiveByGame(MatchCoinsFrom(ch, unroll, coins, matched, found))
    decreases |coins|
  {
    if coins != [] {
      var (ph, amount) := coins[0];
      match MatchCoin(ch, matched, ph, amount) {
        case None =>
          MatchesInjectiveFrom(ch, unroll, coins[1..], matched, found);
        case Some(m) =>
          MatchKeepsOk(ch, unroll, matched, found, ph, amount);
          MatchesInjectiveFrom(
            ch, unroll, coins[1..], if m.live then matched + {m.state.gameId} else matched,
            found[CoinString(unroll, ph, amount) := m.state]);
      }
    }
  }

  /** Distinct coins are matched to distinct games, whatever coins are given. */
  lemma CoinsMatchDistinctGames(ch: Channel, unroll: CoinID, coins: seq<(PuzzleHash, nat)>)
    requires Distinct(KnownIds(ch))
    ensures InjectiveByGame(SetStateForCoins(ch, unroll, coins))
  {
    MatchesInjectiveFrom(ch, unroll, coins, {}, map[]);
  }
}

/** From a channel to its games on chain (src/channel_state/mod.rs,
    src/session_phases/spend_channel_coin_phase.rs): whose turn the coins of an
    unroll are recorded to be, and that the on-chain phase starts within its law. */
module UnrollTurns {
  import opened Wrappers
  import opened Chain
  import opened Referees
  import opened Channels
  import opened ChannelReferees
  import OnChainGames
  import opened OnChainTurns

  function PlayersOf(id: ChannelIdentity): Players { Players(id.myRefereeKey, id.theirRefereeKey) }

  lemma SeatedOfChannel(id: ChannelIdentity, r: Referee)
    requires OfChannel(id, r)
    ensures Seated(PlayersOf(id), r)
    ensures TurnOfPuzzle(PlayersOf(id), r.OutcomePuzzleHash(), r.MyTurn?)
    ensures r.OutcomePuzzleHash().curried.timeout == r.fixed.timeout
  {
    hide CanonicalAtom;
  }

  /** A coin that matches the latest hash of a game is at the turn of that game;
      one that a cached move of ours was made from is at ours, the game having
      moved on; and so is one of a game we have settled, whose claim is armed. */
  lemma MatchedTurn(ch: Channel, matched: set<nat>, ph: PuzzleHash, amount: nat)
    requires Belongs(ch) && PendingOurs(ch) && MatchCoin(ch, matched, ph, amount).Some?
    ensures
      var state := MatchCoin(ch, matched, ph, amount).value.state;
      var latest := FindLatest(ch.live, matched, ph, amount);
      var redo := FindRedo(ch.cached, ch.live, matched, ph, amount);
      && state.puzzleHash == ph && TurnOfPuzzle(PlayersOf(ch.id), ph, state.ourTurn)
      && (latest.Some? ==>
            && state.gameId == latest.value.gameId && (state.ourTurn <==> latest.value.IsMyTurn()) && !state.timeoutClaimArmed
            && state.gameTimeout == ph.curried.timeout
            && (state.gameFinished <==> latest.value.referee.handler.None?))
      && (latest.None? && redo.Some? ==>
            && state.gameId == redo.value.gameId && state.ourTurn && !state.timeoutClaimArmed
            && (state.gameFinished <==> redo.value.referee.handler.None?))
      && (latest.None? && redo.None? ==>
            && state.ourTurn && state.timeoutClaimArmed && state.gameTimeout == ph.curried.timeout && !state.gameFinished
            && FindPending(ch.pending, ph, amount).Some?
            && state.gameId == FindPending(ch.pending, ph, amount).value.gameId)
  {
    hide FindLatest, FindRedo, FindPending, OfChannel, Referee.OutcomePuzzleHash, TurnOfPuzzle;
    var latest := FindLatest(ch.live, matched, ph, amount);
    var redo := FindRedo(ch.cached, ch.live, matched, ph, amount);
    if latest.Some? {
      var i :| 0 <= i < |ch.live| && ch.live[i] == latest.value;
      assert GameOfChannel(ch.id, ch.live[i]);
      SeatedOfChannel(ch.id, latest.value.referee);
    } else if redo.Some? {
      var e :| e in ch.cached && RedoMatches(e, matched, ph) && e.gameId == redo.value.gameId;
      var k :| 0 <= k < |ch.cached| && ch.cached[k] == e;
      assert RedoOfChannel(ch.id, ch.cached[k]);
      assert TurnOfPuzzle(PlayersOf(ch.id), ph, true) by { OurMover(ch.id, ph); }
    } else {
      var pending := FindPending(ch.pending, ph, amount);
      var i :| 0 <= i < |ch.pending| && ch.pending[i] == pending.value;
      assert GameOfChannel(ch.id, ch.pending[i]) && ch.pending[i].IsMyTurn();
      SeatedOfChannel(ch.id, pending.value.referee);
    }
  }

  lemma OurMover(id: ChannelIdentity, ph: PuzzleHash)
    requires ph.RefereePh? && ph.curried.mover == id.myRefereeKey && ph.curried.waiter == id.theirRefereeKey
    ensures TurnOfPuzzle(PlayersOf(id), ph, true)
  {
  }

  ghost predicate FoundLawful(p: Players, found: map<CoinString, OnChainGameState>) {
    forall c :: c in found ==> found[c].puzzleHash == c.ph && TurnOfPuzzle(p, c.ph, found[c].ourTurn)
  }

  lemma {:induction false} MatchedTurns(
    ch: Channel, unroll: CoinID, coins: seq<(PuzzleHash, nat)>, matched: set<nat>, found: map<CoinString, OnChainGameState>)
    requires Belongs(ch) && PendingOurs(ch) && FoundLawful(PlayersOf(ch.id), found)
    ensures FoundLawful(PlayersOf(ch.id), MatchCoinsFrom(ch, unroll, coins, matched, found))
    decreases |coins|
  {
    hide MatchCoin, Belongs, PendingOurs, TurnOfPuzzle;
    if coins != [] {
      var (ph, amount) := coins[0];
      var match' := MatchCoin(ch, matched, ph, amount);
      if match'.Some? {
        MatchedTurn(ch, matched, ph, amount);
        var m := match'.value;
        MatchedTurns(
          ch, unroll, coins[1..], if m.live then matched + {m.state.gameId} else matched,
          found[CoinString(unroll, ph, amount) := m.state]);
      } else {
        MatchedTurns(ch, unroll, coins[1..], matched, found);
      }
    }
  }

  /** First move of ours cached for the game. */
  function RedoFor(cached: seq<CachedRedo>, id: nat): (r: Option<CachedRedo>)
    ensures r.Some? ==> r.value in cached && r.value.CachedSendMove? && r.value.gameId == id
    ensures r.None? ==> forall e <- cached :: e.CachedSendMove? ==> e.gameId != id
  {
    if cached == [] then None
    else if cached[0].CachedSendMove? && cached[0].gameId == id then Some(cached[0])
    else RedoFor(cached[1..], id)
  }

  /** How the phase starts: on coins the unroll was matched to, perhaps without
      those whose games are given up at once, with the channel's live games, and
      with our cached moves sent again from coins that are at our turn. */
  ghost predicate StartsFrom(ch: Channel, unroll: CoinID, coins: seq<(PuzzleHash, nat)>, s: OnChainGames.State) {
    var all := OnChainGames.FromUnroll(SetStateForCoins(ch, unroll, coins));
    && (forall c :: c in s.games ==> c in all && s.games[c] == all[c])
    && (forall c :: c in s.moves ==>
          && c in s.games && s.games[c].ourTurn
          && var e := RedoFor(ch.cached, s.games[c].gameId);
          e.Some? && s.moves[c] == OnChainGames.PendingMove(
            e.value.savedReferee.OutcomePuzzleHash(), e.value.gameId,
            OnChainGames.Seat(e.value.savedReferee, e.value.savedLastPh)))
    && (forall id :: id in s.live ==>
          var at := LivePosition(ch.live, id);
          at.Some? && s.live[id] == OnChainGames.Seat(ch.live[at.value].referee, ch.live[at.value].lastPh))
  }

  /** However it starts, it starts within the law of turns. */
  lemma StartIsLawful(ch: Channel, unroll: CoinID, coins: seq<(PuzzleHash, nat)>, s: OnChainGames.State)
    requires Belongs(ch) && PendingOurs(ch) && ch.id.myRefereeKey != ch.id.theirRefereeKey
    requires StartsFrom(ch, unroll, coins, s)
    ensures Law(PlayersOf(ch.id), s)
  {
    hide OfChannel, Referee.OutcomePuzzleHash, Referee.OnChainPuzzleHash, TurnOfPuzzle, MatchCoinsFrom, Seated;
    var p := PlayersOf(ch.id);
    var found := SetStateForCoins(ch, unroll, coins);
    MatchedTurns(ch, unroll, coins, {}, map[]);
    forall id | id in s.live
      ensures Seated(p, s.live[id].referee)
    {
      var at := LivePosition(ch.live, id).value;
      assert GameOfChannel(ch.id, ch.live[at]);
      SeatedOfChannel(ch.id, ch.live[at].referee);
    }
    forall c | c in s.moves
      ensures MoveOk(p, s.moves[c])
    {
      var e := RedoFor(ch.cached, s.games[c].gameId).value;
      var k :| 0 <= k < |ch.cached| && ch.cached[k] == e;
      assert RedoOfChannel(ch.id, ch.cached[k]);
      SeatedOfChannel(ch.id, e.savedReferee);
    }
    forall c | c in s.games
      ensures s.games[c].pendingSlash.None? && TurnOfCoin(p, c, s.games[c])
    {
      assert found[c].puzzleHash == c.ph;
    }
  }
}

/** Whose turn it is in a game on chain (src/session_phases/on_chain.rs): what the
    phase records of a coin is what the coin's own puzzle says. */
module OnChainTurns {
  import opened Wrappers
  import opened Chain
  import opened Referees
  import opened OnChainGames
  import R = RefereeOnChain

  // ---------------------------------------------------------------------------
  // The law
  // ---------------------------------------------------------------------------

  datatype Players = Players(me: PublicKey, them: PublicKey)

  ghost predicate Seated(p: Players, r: Referee) {
    ValidReferee(r) && r.fixed.myKey == p.me && r.fixed.theirKey == p.them
  }

  /** The coin's puzzle has the two players as mover and waiter, us as the mover
      exactly when it is our turn. */
  predicate TurnOfPuzzle(p: Players, ph: PuzzleHash, ourTurn: bool) {
    && ph.RefereePh?
    && ph.curried.mover == (if ourTurn then p.me else p.them)
    && ph.curried.waiter == (if ourTurn then p.them else p.me)
  }

  predicate TurnOfCoin(p: Players, coin: CoinString, game: Tracked) {
    TurnOfPuzzle(p, coin.ph, game.ourTurn) && game.puzzleHash == coin.ph
  }

  /** A coin we are slashing is nobody's turn. */
  ghost predicate TurnsOk(p: Players, games: map<CoinString, Tracked>) {
    forall c :: c in games ==> if games[c].pendingSlash.None? then TurnOfCoin(p, c, games[c]) else !games[c].ourTurn
  }

  ghost predicate LiveOk(p: Players, live: map<nat, Seat>) {
    forall id :: id in live ==> Seated(p, live[id].referee)
  }

  /** A move waiting to land leaves the turn to the opponent, in the coin it is
      expected to create. */
  ghost predicate MoveOk(p: Players, move: PendingMove) {
    && Seated(p, move.after.referee) && move.after.referee.TheirTurn?
    && move.expectedPh == move.after.lastPh == move.after.referee.OutcomePuzzleHash()
  }

  ghost predicate MovesOk(p: Players, moves: map<CoinString, PendingMove>) {
    forall c :: c in moves ==> MoveOk(p, moves[c])
  }

  ghost predicate Law(p: Players, s: State) {
    p.me != p.them && TurnsOk(p, s.games) && LiveOk(p, s.live) && MovesOk(p, s.moves)
  }

  /** Rewards are paid to hashes that are no game coin's. */
  predicate RewardsApart(env: Env) { !env.ours.RefereePh? && !env.theirs.RefereePh? }

  /** What the referee puzzle lets a spend of its coin create: the successor of a
      move, or payouts to the reward hashes the players signed for. */
  ghost predicate SpentByPuzzle(env: Env, coin: CoinString, conditions: Conditions, solution: Option<R.RefereeSolution>) {
    coin.ph.RefereePh? ==>
      if IsMove(solution) then
        R.MoveConditions(coin.ph.curried, solution.value) == Some(conditions)
      else
        forall i :: 0 <= i < |conditions| && conditions[i].Create? ==>
          conditions[i].ph == env.ours || conditions[i].ph == env.theirs
  }

  predicate IsMove(solution: Option<R.RefereeSolution>) { solution.Some? && solution.value.MoveSolution? }

  /** A move needs its mover's signature, and we have signed what we submitted. */
  predicate SubmittedByUs(s: State, coin: CoinString, conditions: Conditions, solution: Option<R.RefereeSolution>) {
    coin in s.moves && IsMove(solution) && R.FirstCreate(conditions).Some? ==>
      R.FirstCreate(conditions).value.0 == s.moves[coin].expectedPh
  }

  ghost predicate EventOk(env: Env, s: State, e: Event) {
    e.CoinSpent? && e.conditions.Some? ==>
      && SpentByPuzzle(env, e.coin, e.conditions.value, e.solution)
      && SubmittedByUs(s, e.coin, e.conditions.value, e.solution)
  }

  /** Whoever is told of a turn is told of the coin next, and rightly. */
  predicate Told(p: Players, notices: seq<Notice>) {
    forall i :: 0 <= i < |notices| && notices[i].TurnChanged? ==>
      && i + 1 < |notices| && notices[i + 1].Registered?
      && TurnOfPuzzle(p, notices[i + 1].coin.ph, notices[i].ourTurn)
  }

  ghost predicate Lawful(p: Players, o: Outcome) {
    Law(p, o.state) && Told(p, NoticesOf(o))
  }

  lemma ToldTogether(p: Players, a: seq<Notice>, b: seq<Notice>)
    requires Told(p, a) && Told(p, b)
    ensures Told(p, a + b)
  {
    hide TurnOfPuzzle;
    var c := a + b;
    forall i | 0 <= i < |c| && c[i].TurnChanged?
      ensures i + 1 < |c| && c[i + 1].Registered? && TurnOfPuzzle(p, c[i + 1].coin.ph, c[i].ourTurn)
    {
      if i < |a| {
        assert a[i].TurnChanged? && c[i + 1] == a[i + 1];
      } else {
        assert b[i - |a|].TurnChanged? && c[i + 1] == b[i - |a| + 1];
      }
    }
  }

  // ---------------------------------------------------------------------------
  // Actions
  // ---------------------------------------------------------------------------

  lemma MadeMoveSeated(p: Players, clvm: Clvm, r: Referee, readable: Program, entropy: Bytes, n: nat)
    requires Seated(p, r) && MyTurnMakeMove(clvm, r, readable, entropy, n).Ok?
    ensures
      var moved := MyTurnMakeMove(clvm, r, readable, entropy, n).value.0;
      Seated(p, moved) && moved.TheirTurn? && moved.OnChainPuzzleHash() == r.OutcomePuzzleHash()
  {
    hide CanonicalAtom;
  }

  lemma MoveKeepsLaw(p: Players, env: Env, s: State, id: nat, readable: Program, entropy: Bytes)
    requires Law(p, s)
    ensures Lawful(p, DoMove(env, s, id, readable, entropy))
  {
    hide MyTurnMakeMove, R.TransactionForMove, Seated, TurnOfCoin, Referee.OutcomePuzzleHash, Referee.OnChainPuzzleHash;
    if id in s.live {
      var r := s.live[id].referee;
      if MyTurnMakeMove(env.clvm, r, readable, entropy, env.stateNumber).Ok? {
        MadeMoveSeated(p, env.clvm, r, readable, entropy, env.stateNumber);
      }
    }
  }

  lemma ActionKeepsLaw(p: Players, env: Env, s: State, action: Action)
    requires Law(p, s)
    ensures Lawful(p, DoAction(env, s, action))
  {
    hide DoMove, BuildClaim, OurShare, Seated, TurnOfPuzzle, MoveOk;
    match action {
      case MoveAction(id, readable, entropy) => MoveKeepsLaw(p, env, s, id, readable, entropy);
      case SettleAction(id) =>
      case IdleAction =>
      case ObsoleteAction =>
    }
  }

  lemma {:induction false} QueueKeepsLaw(p: Players, env: Env, s: State)
    requires Law(p, s)
    ensures Lawful(p, ProcessQueue(env, s))
    decreases |s.queue|
  {
    hide DoAction, TurnsOk, LiveOk, MovesOk;
    if s.queue != [] {
      var rest := s.(queue := s.queue[1..]);
      ActionKeepsLaw(p, env, rest, s.queue[0]);
      var o := DoAction(env, rest, s.queue[0]);
      if o.Done? && o.notices == [] {
        QueueKeepsLaw(p, env, o.state);
      }
    }
  }

  lemma ThenQueueKeepsLaw(p: Players, env: Env, s: State, notices: seq<Notice>)
    requires Law(p, s) && Told(p, notices)
    ensures Lawful(p, ThenQueue(env, s, notices))
  {
    hide ProcessQueue, Law, Told;
    QueueKeepsLaw(p, env, s);
    var o := ProcessQueue(env, s);
    assert Told(p, []) by { NothingTold(p); }
    ToldTogether(p, notices, NoticesOf(o));
  }

  lemma NothingTold(p: Players)
    ensures Told(p, [])
  {
  }

  // ---------------------------------------------------------------------------
  // Spends
  // ---------------------------------------------------------------------------

  lemma RegisteringKeepsLaw(p: Players, env: Env, s: State, id: nat, ourTurn: bool, newCoin: CoinString)
    requires Law(p, s) && TurnOfPuzzle(p, newCoin.ph, ourTurn)
    ensures Lawful(p, Registering(env, s, id, ourTurn, newCoin))
    ensures ourTurn ==> Lawful(p, AutoSettling(env, s, id, newCoin))
  {
    hide ThenQueue, BuildClaim, TurnsOk, LiveOk, MovesOk;
    var claim := BuildClaim(env, s, id, newCoin);
    if claim.Some? {
      var notices := [TurnChanged(id, ourTurn), Registered(newCoin, claim.value)];
      assert notices[1] == Registered(newCoin, claim.value);
      ThenQueueKeepsLaw(p, env, s, notices);
      ThenQueueKeepsLaw(p, env, s.(queue := s.queue + [SettleAction(id)]), notices);
    }
  }

  /** A spend that creates a game coin is a move, and turns the roles round. */
  lemma MovesSwapRoles(p: Players, env: Env, coin: CoinString, conditions: Conditions, solution: Option<R.RefereeSolution>, ourTurn: bool)
    requires RewardsApart(env) && SpentByPuzzle(env, coin, conditions, solution) && TurnOfPuzzle(p, coin.ph, ourTurn)
    requires R.FirstCreate(conditions).Some?
    requires
      var ph := R.FirstCreate(conditions).value.0;
      ph.RefereePh? || IsMove(solution) || (ph != env.ours && ph != env.theirs)
    ensures IsMove(solution)
    ensures TurnOfPuzzle(p, R.FirstCreate(conditions).value.0, !ourTurn)
  {
    hide R.MoveAllowed;
    FirstIsCreated(conditions);
    if IsMove(solution) {
      R.FirstCreated(coin.ph.curried, solution.value);
    }
  }

  lemma {:induction false} FirstIsCreated(conditions: Conditions)
    requires R.FirstCreate(conditions).Some?
    ensures exists i :: 0 <= i < |conditions| && conditions[i].Create? && conditions[i].ph == R.FirstCreate(conditions).value.0
  {
    if !conditions[0].Create? {
      FirstIsCreated(conditions[1..]);
      var i :| 0 <= i < |conditions[1..]| && conditions[1..][i].Create?
               && conditions[1..][i].ph == R.FirstCreate(conditions).value.0;
      assert conditions[i + 1] == conditions[1..][i];
    }
  }

  lemma EnteredKeepsTurns(p: Players, games: map<CoinString, Tracked>, coin: CoinString, game: Tracked)
    requires TurnsOk(p, games) && game.pendingSlash.None? && TurnOfCoin(p, coin, game)
    ensures TurnsOk(p, games[coin := game])
    ensures TurnsOk(p, WithoutGame(games[coin := game], game.gameId))
  {
    hide TurnOfPuzzle;
  }

  lemma AdvancedKeepsLaw(p: Players, env: Env, s: State, game: Tracked, newCoin: CoinString, myTurn: bool)
    requires Law(p, s) && game.pendingSlash.None? && TurnOfPuzzle(p, newCoin.ph, myTurn)
    ensures Lawful(p, Advanced(env, s, game, newCoin, myTurn))
  {
    hide Registering, AutoSettling, AutoSettles, ThenQueue, LiveOk, MovesOk, TurnOfPuzzle, TurnsOk, WithoutGame;
    var id := game.gameId;
    if id in s.live {
      var gameOver := s.live[id].referee.IsGameOver();
      var moved := game.(puzzleHash := newCoin.ph, ourTurn := myTurn, finished := game.finished || gameOver);
      var marked := moved.(finished := true);
      var auto := AutoSettles(s, id, myTurn);
      assert auto == Some(true) ==> myTurn by { SettlesOnOurTurn(s, id, myTurn); }
      EnteredKeepsTurns(p, s.games, newCoin, moved);
      EnteredKeepsTurns(p, s.games, newCoin, marked);
      RegisteringKeepsLaw(p, env, s.(games := s.games[newCoin := moved]), id, myTurn, newCoin);
      RegisteringKeepsLaw(p, env, s.(games := s.games[newCoin := marked]), id, myTurn, newCoin);
      ThenQueueKeepsLaw(
        p, env, s.(games := WithoutGame(s.games[newCoin := moved], id)), [Settled(id, ForfeitedOpponentWon, 0)]);
    }
  }

  lemma SettlesOnOurTurn(s: State, id: nat, myTurn: bool)
    ensures AutoSettles(s, id, myTurn) == Some(true) ==> myTurn
  {
  }

  lemma ArmedKeepsLaw(
    p: Players, env: Env, s: State, game: Tracked, coin: CoinString, conditions: Conditions, solution: Option<R.RefereeSolution>)
    requires Law(p, s) && game.pendingSlash.None? && TurnOfCoin(p, coin, game)
    requires RewardsApart(env) && SpentByPuzzle(env, coin, conditions, solution)
    ensures Lawful(p, ArmedSpend(env, s, game, coin, conditions))
  {
    hide Registering, ThenQueue, LiveOk, MovesOk, R.FirstCreate, SpentByPuzzle, TurnOfPuzzle;
    var ending := UnlessSent(game, CleanOr(game, WeAccepted), if FirstTo(conditions, env.ours, 0).Some?
                                                              then FirstTo(conditions, env.ours, 0).value else 0);
    ThenQueueKeepsLaw(p, env, s, ending);
    ThenQueueKeepsLaw(p, env, s, []);
    if R.FirstCreate(conditions).Some? && FirstTo(conditions, env.ours, 0).None? && FirstTo(conditions, env.theirs, 0).None? {
      var (ph, amount) := R.FirstCreate(conditions).value;
      NoneTo(conditions, env.ours);
      NoneTo(conditions, env.theirs);
      MovesSwapRoles(p, env, coin, conditions, solution, game.ourTurn);
      var newCoin := CoinString(IdOf(coin), ph, amount);
      var next := game.(puzzleHash := ph, ourTurn := !game.ourTurn, claimArmed := true);
      RegisteringKeepsLaw(p, env, s.(games := s.games[newCoin := next]), game.gameId, next.ourTurn, newCoin);
    }
  }

  lemma {:induction false} NoneTo(conditions: Conditions, ph: PuzzleHash)
    requires FirstTo(conditions, ph, 0).None? && R.FirstCreate(conditions).Some?
    ensures R.FirstCreate(conditions).value.0 != ph
  {
    if !conditions[0].Create? {
      NoneTo(conditions[1..], ph);
    }
  }

  /** However the spend is read: the seat it leaves is still ours, and the coin
      followed has us as its mover when the opponent moved, and the players'
      roles turned round when the move was expected. */
  lemma ReadingKeepsTurn(
    p: Players, env: Env, seat: Seat, coin: CoinString, conditions: Conditions, solution: R.RefereeSolution, ourTurn: bool)
    requires p.me != p.them && Seated(p, seat.referee) && RewardsApart(env)
    requires SpentByPuzzle(env, coin, conditions, Some(solution)) && TurnOfPuzzle(p, coin.ph, ourTurn)
    requires GameCoinSpent(env, seat, coin, conditions, solution).Some?
    ensures
      var (after, info) := GameCoinSpent(env, seat, coin, conditions, solution).value;
      && Seated(p, after.referee)
      && (info.Moved? ==> TurnOfPuzzle(p, info.newCoin.ph, true) && after.referee.MyTurn?
                          && info.newCoin.ph == after.referee.OutcomePuzzleHash() == after.lastPh)
      && (info.Expected? ==> TurnOfPuzzle(p, info.ph, !ourTurn) && after.lastPh == info.ph && after.referee == seat.referee)
  {
    hide CanonicalAtom, SpentByPuzzle, R.FirstCreate, R.CoinSpent, Seated, TurnOfPuzzle, RefereePuzzleArgs.Curried;
    var info := GameCoinSpent(env, seat, coin, conditions, solution).value.1;
    if R.CoinSpent(env.clvm, seat.referee, coin, conditions, env.stateNumber, solution).Ok? {
      RefereeReads(p, env, seat.referee, coin, conditions, solution);
    }
    if info.Expected? {
      MovesSwapRoles(p, env, coin, conditions, Some(solution), ourTurn);
    }
  }

  lemma RefereeReads(
    p: Players, env: Env, r: Referee, coin: CoinString, conditions: Conditions, solution: R.RefereeSolution)
    requires Seated(p, r) && R.CoinSpent(env.clvm, r, coin, conditions, env.stateNumber, solution).Ok?
    ensures
      var (next, result) := R.CoinSpent(env.clvm, r, coin, conditions, env.stateNumber, solution).value;
      match result
      case Expected(_, ph, _) =>
        next == Some(r) && R.FirstCreate(conditions).Some? && ph == R.FirstCreate(conditions).value.0
        && ph == r.OutcomePuzzleHash()
      case Timedout(_) => next == Some(r)
      case Slashed(_, _, _) => next == None
      case Moved(created, _, _, _) =>
        next.Some? && Seated(p, next.value) && next.value.MyTurn? && TurnOfPuzzle(p, created.ph, true)
        && created.ph == next.value.OutcomePuzzleHash() == next.value.OnChainPuzzleHash()
  {
    hide CanonicalAtom, TheirTurnMoveOffChain, R.FirstCreate, R.DetailsOf;
    var result := R.CoinSpent(env.clvm, r, coin, conditions, env.stateNumber, solution).value.1;
    if result.Moved? {
      R.MovedArgs(env.clvm, r, R.DetailsOf(r.fixed, solution).value, env.stateNumber);
    }
  }

  lemma ReadKeepsLaw(p: Players, env: Env, s: State, game: Tracked, coin: CoinString, slash: bool, info: SpentInfo)
    requires Law(p, s) && game.pendingSlash.None?
    requires info.Moved? ==> TurnOfPuzzle(p, info.newCoin.ph, true)
    requires info.Expected? ==> TurnOfPuzzle(p, info.ph, !game.ourTurn)
    ensures Lawful(p, ReadSpend(env, s, game, coin, slash, info))
  {
    hide Advanced, ThenQueue, TurnOfPuzzle, LiveOk, MovesOk, TimeoutOutcome, UnexpectedOnOurTurn;
    ThenQueueKeepsLaw(p, env, s, [EndedError(game.gameId)]);
    match info {
      case Expected(ph, amount) =>
        AdvancedKeepsLaw(p, env, s, game, CoinString(IdOf(coin), ph, amount), !game.ourTurn);
      case Timedout(reward) =>
        ThenQueueKeepsLaw(p, env, s, UnlessSent(game, OpponentSlashedUs, 0));
        ThenQueueKeepsLaw(
          p, env, s, UnlessSent(game, TimeoutOutcome(game), if reward.Some? then reward.value else 0));
      case Moved(newCoin) => AdvancedKeepsLaw(p, env, s, game, newCoin, true);
      case SlashReward(slashCoin, amount, share) =>
      case OurReward(amount) => ThenQueueKeepsLaw(p, env, s, UnlessSent(game, TimeoutOutcome(game), amount));
    }
  }

  lemma RefereeKeepsLaw(
    p: Players, env: Env, s: State, game: Tracked, coin: CoinString, conditions: Conditions, solution: Option<R.RefereeSolution>)
    requires Law(p, s) && game.pendingSlash.None? && TurnOfCoin(p, coin, game)
    requires RewardsApart(env) && SpentByPuzzle(env, coin, conditions, solution)
    ensures Lawful(p, RefereeSpend(env, s, game, coin, conditions, solution))
  {
    hide ReadSpend, GameCoinSpent, ThenQueue, TurnOfPuzzle, TurnsOk, MovesOk, SpentByPuzzle, Seated, Referee.OutcomePuzzleHash;
    ThenQueueKeepsLaw(p, env, s, []);
    ThenQueueKeepsLaw(p, env, s, [EndedError(game.gameId)]);
    if game.gameId in s.live && solution.Some? {
      var seat := s.live[game.gameId];
      var read := GameCoinSpent(env, seat, coin, conditions, solution.value);
      if read.Some? {
        ReadingKeepsTurn(p, env, seat, coin, conditions, solution.value, game.ourTurn);
        var known := s.(live := s.live[game.gameId := read.value.0]);
        ReadKeepsLaw(p, env, known, game, coin, solution.value.SlashSolution?, read.value.1);
      }
    }
  }

  lemma LandedKeepsLaw(p: Players, env: Env, s: State, move: PendingMove, game: Tracked, newCoin: CoinString)
    requires Law(p, s) && MoveOk(p, move) && newCoin.ph == move.expectedPh
    ensures Lawful(p, MoveLanded(env, s, move, game, newCoin))
  {
    hide Registering, MovesOk;
    if move.gameId in s.live {
      var next := game.(puzzleHash := newCoin.ph, ourTurn := false, finished := move.after.referee.IsGameOver());
      var landed := s.(games := s.games[newCoin := next], live := s.live[move.gameId := move.after]);
      RegisteringKeepsLaw(p, env, landed, move.gameId, false, newCoin);
    }
  }

  /** A spend that is no move leads to no coin of the game, whatever turn was
      recorded for it. */
  lemma PayoutKeepsLaw(
    p: Players, env: Env, s: State, game: Tracked, coin: CoinString, conditions: Conditions, solution: Option<R.RefereeSolution>)
    requires Law(p, s) && game.pendingSlash.None? && coin.ph.RefereePh?
    requires RewardsApart(env) && SpentByPuzzle(env, coin, conditions, solution) && !IsMove(solution)
    ensures Lawful(p, ArmedSpend(env, s, game, coin, conditions))
    ensures Lawful(p, RefereeSpend(env, s, game, coin, conditions, solution))
  {
    hide ThenQueue, Law, R.FirstCreate, Seated, Referee.OutcomePuzzleHash, Referee.OnChainPuzzleHash, UnlessSent, TimeoutOutcome,
         Told;
    var created := R.FirstCreate(conditions);
    if created.Some? {
      FirstIsCreated(conditions);
      assert created.value.0 == env.ours || created.value.0 == env.theirs;
      FoundFirst(conditions);
    }
    PaidLawfully(p, env, s, game);
    NothingTold(p);
    if game.gameId in s.live && solution.Some? {
      var seat := s.live[game.gameId];
      if GameCoinSpent(env, seat, coin, conditions, solution.value).Some? {
        PayoutIsRead(p, env, s, game.gameId, coin, conditions, solution.value);
        var (after, info) := GameCoinSpent(env, seat, coin, conditions, solution.value).value;
        PaidLawfully(p, env, s.(live := s.live[game.gameId := after]), game);
      }
    }
  }

  lemma PaidLawfully(p: Players, env: Env, s: State, game: Tracked)
    requires Law(p, s)
    ensures Lawful(p, ThenQueue(env, s, [])) && Lawful(p, ThenQueue(env, s, [EndedError(game.gameId)]))
    ensures forall outcome, share :: Lawful(p, ThenQueue(env, s, UnlessSent(game, outcome, share)))
  {
    hide ThenQueue, Law;
    ThenQueueKeepsLaw(p, env, s, []);
    ThenQueueKeepsLaw(p, env, s, [EndedError(game.gameId)]);
    forall outcome, share
      ensures Lawful(p, ThenQueue(env, s, UnlessSent(game, outcome, share)))
    {
      ThenQueueKeepsLaw(p, env, s, UnlessSent(game, outcome, share));
    }
  }

  lemma {:induction false} FoundFirst(conditions: Conditions)
    requires R.FirstCreate(conditions).Some?
    ensures FirstTo(conditions, R.FirstCreate(conditions).value.0, 0).Some?
  {
    if !conditions[0].Create? {
      FoundFirst(conditions[1..]);
    }
  }

  lemma PayoutIsRead(
    p: Players, env: Env, s: State, id: nat, coin: CoinString, conditions: Conditions, solution: R.RefereeSolution)
    requires Law(p, s) && id in s.live && !solution.MoveSolution? && RewardsApart(env)
    requires GameCoinSpent(env, s.live[id], coin, conditions, solution).Some?
    requires !R.FirstCreate(conditions).value.0.RefereePh?
    ensures
      var (after, info) := GameCoinSpent(env, s.live[id], coin, conditions, solution).value;
      (info.OurReward? || info.Timedout?) && Law(p, s.(live := s.live[id := after]))
  {
    hide R.FirstCreate, TurnsOk, MovesOk;
  }

  lemma TrackedKeepsLaw(
    p: Players, env: Env, s: State, next: State, coin: CoinString, conditions: Conditions, solution: Option<R.RefereeSolution>)
    requires Law(p, s) && coin in s.games && coin !in next.moves && RewardsApart(env)
    requires SpentByPuzzle(env, coin, conditions, solution)
    requires next.live == s.live && next.moves == s.moves - {coin}
    requires next.games == s.games || (!IsMove(solution) && next.games == s.games[coin := s.games[coin].(ourTurn := false)])
    ensures Lawful(p, HandleSpend(env, next, coin, Some(conditions), solution))
  {
    hide ThenQueue, ArmedSpend, RefereeSpend, SlashEnding, LiveOk, TurnOfPuzzle, SpentByPuzzle, MoveOk;
    var game := next.games[coin];
    var without := next.(games := next.games - {coin});
    assert Law(p, without);
    if game.pendingSlash.Some? {
      ThenQueueKeepsLaw(p, env, without, [SlashEnding(env, game, conditions)]) by { EndingTellsNoTurn(p, env, game, conditions); }
    } else {
      assert TurnOfCoin(p, coin, s.games[coin]);
      if IsMove(solution) {
        ArmedKeepsLaw(p, env, without, game, coin, conditions, solution);
        RefereeKeepsLaw(p, env, without, game, coin, conditions, solution);
      } else {
        assert coin.ph.RefereePh? by { TurnIsOfReferee(p, coin.ph, s.games[coin].ourTurn); }
        PayoutKeepsLaw(p, env, without, game, coin, conditions, solution);
      }
    }
  }

  lemma TurnIsOfReferee(p: Players, ph: PuzzleHash, ourTurn: bool)
    requires TurnOfPuzzle(p, ph, ourTurn)
    ensures ph.RefereePh?
  {
  }

  lemma EndingTellsNoTurn(p: Players, env: Env, game: Tracked, conditions: Conditions)
    ensures Told(p, [SlashEnding(env, game, conditions)])
  {
  }

  lemma SpendKeepsLaw(
    p: Players, env: Env, s: State, coin: CoinString, conditions: Option<Conditions>, solution: Option<R.RefereeSolution>)
    requires Law(p, s) && RewardsApart(env) && EventOk(env, s, CoinSpent(coin, conditions, solution))
    ensures Lawful(p, HandleSpend(env, s, coin, conditions, solution))
  {
    hide ThenQueue, MoveLanded, ArmedSpend, RefereeSpend, SlashEnding, LiveOk, TurnOfPuzzle, SpentByPuzzle, MoveOk,
         R.FirstCreate, CleanOr;
    if conditions.Some? && coin in s.games {
      if coin in s.moves && R.FirstCreate(conditions.value).Some? {
        var move := s.moves[coin];
        var game := s.games[coin];
        var (ph, amount) := R.FirstCreate(conditions.value).value;
        var without := s.(moves := s.moves - {coin}, games := s.games - {coin});
        assert MoveOk(p, move) && Law(p, without);
        if ph == move.expectedPh {
          LandedKeepsLaw(p, env, without, move, game, CoinString(IdOf(coin), ph, amount));
        } else if ph == env.theirs {
          ThenQueueKeepsLaw(p, env, without, [Settled(game.gameId, CleanOr(game, AttemptToMoveFailed), 0)]);
        } else {
          var next := s.(moves := s.moves - {coin}, games := s.games[coin := game.(ourTurn := false)]);
          TrackedKeepsLaw(p, env, s, next, coin, conditions.value, solution);
          assert HandleSpend(env, s, coin, conditions, solution) == HandleSpend(env, next, coin, conditions, solution);
        }
      } else {
        var next := s.(moves := s.moves - {coin});
        TrackedKeepsLaw(p, env, s, next, coin, conditions.value, solution);
        assert HandleSpend(env, s, coin, conditions, solution) == HandleSpend(env, next, coin, conditions, solution) by {
          if coin !in s.moves {
            assert s.moves - {coin} == s.moves;
          }
        }
      }
    }
  }

  lemma EventKeepsLaw(p: Players, env: Env, s: State, e: Event)
    requires Law(p, s) && RewardsApart(env) && EventOk(env, s, e)
    ensures Lawful(p, Handle(env, s, e))
  {
    hide HandleSpend, DoAction, ThenQueue, LiveOk, MovesOk, TurnOfCoin, SpentByPuzzle;
    match e {
      case CoinSpent(coin, conditions, solution) => SpendKeepsLaw(p, env, s, coin, conditions, solution);
      case CoinSpentUnknown(coin) =>
        if coin in s.games {
          ThenQueueKeepsLaw(p, env, s.(games := s.games - {coin}), [EndedError(s.games[coin].gameId)]);
        }
      case UserAction(action) => ActionKeepsLaw(p, env, s, action);
    }
  }

  ghost predicate EventsOk(env: Env, s: State, events: seq<Event>)
    decreases |events|
  {
    events != [] ==> EventOk(env, s, events[0]) && EventsOk(env, Handle(env, s, events[0]).state, events[1..])
  }

  /** Over every run, whatever is spent and asked for: the turn recorded of a
      tracked coin is the one its puzzle says, and so is every turn told. */
  lemma {:induction false} TurnsAreThePuzzles(p: Players, env: Env, s: State, events: seq<Event>)
    requires Law(p, s) && RewardsApart(env) && EventsOk(env, s, events)
    ensures
      var (end, notices) := Run(env, s, events);
      Law(p, end) && Told(p, notices)
    decreases |events|
  {
    hide Handle, TurnsOk, LiveOk, MovesOk, EventOk, Told;
    if events == [] {
      NothingTold(p);
    } else {
      var o := Handle(env, s, events[0]);
      EventKeepsLaw(p, env, s, events[0]);
      TurnsAreThePuzzles(p, env, o.state, events[1..]);
      ToldTogether(p, NoticesOf(o), Run(env, o.state, events[1..]).1);
    }
  }

  // ---------------------------------------------------------------------------
  // What the law gives
  // ---------------------------------------------------------------------------

  /** The recorded turn is that of the game's own referee whenever the coin is
      the one its last agreed state creates. */
  lemma TurnIsTheReferees(p: Players, s: State, coin: CoinString)
    requires Law(p, s) && coin in s.games && s.games[coin].pendingSlash.None? && s.games[coin].gameId in s.live
    requires coin.ph == s.live[s.games[coin].gameId].referee.OutcomePuzzleHash()
    ensures s.games[coin].ourTurn <==> s.live[s.games[coin].gameId].referee.MyTurn?
  {
    hide CanonicalAtom;
    assert TurnOfCoin(p, coin, s.games[coin]);
  }

  /** A queued or requested move on our turn goes out exactly when the game's
      handler makes it with a share within the amount: never is it refused for
      want of the turn.  The referee is put back as it was, except when the share
      is above the amount. */
  lemma MoveGoesOutIff(p: Players, env: Env, s: State, coin: CoinString, readable: Program, entropy: Bytes)
    requires Law(p, s) && OneCoinPerGame(s.games) && coin in s.games && coin !in s.moves
    requires s.games[coin].ourTurn && s.games[coin].gameId in s.live && s.live[s.games[coin].gameId].lastPh == coin.ph
    ensures
      var id := s.games[coin].gameId;
      var r := s.live[id].referee;
      var made := MyTurnMakeMove(env.clvm, r, readable, entropy, env.stateNumber);
      var o := DoMove(env, s, id, readable, entropy);
      && (o.Done? <==> made.Ok? && made.value.1.details.basic.moverShare <= r.fixed.amount)
      && (o.state.live == s.live <==> made.Err? || made.value.1.details.basic.moverShare <= r.fixed.amount)
      && (made.Ok? && made.value.1.details.basic.moverShare < r.fixed.amount ==>
            && o.notices == [Submitted(coin)] && o.state.games == s.games
            && o.state.moves == s.moves[coin := PendingMove(
                 made.value.0.OutcomePuzzleHash(), id, Seat(made.value.0, made.value.0.OutcomePuzzleHash()))])
      && (made.Ok? && made.value.1.details.basic.moverShare == r.fixed.amount && s.games[coin].pendingSlash.None? ==>
            o.notices == [Settled(id, ForfeitedSkippedReveal, 0)] && !TracksGame(o.state.games, id))
  {
    hide CanonicalAtom, TurnsOk, MovesOk;
    var id := s.games[coin].gameId;
    var r := s.live[id].referee;
    assert CoinOf(s.games, id) == Some(coin);
    var made := MyTurnMakeMove(env.clvm, r, readable, entropy, env.stateNumber);
    if made.Ok? {
      MadeMoveTransacts(env.clvm, r, readable, entropy, env.stateNumber);
      var after := Seat(made.value.0, made.value.0.OutcomePuzzleHash());
      assert s.live[id := after][id].referee.TheirTurn?;
      assert r.MyTurn?;
    }
  }

  /** Of any move, whatever the state: it is carried out exactly when its game is
      tracked at our turn, in a coin no move of ours is waiting on, its handler
      makes it with a share within the amount, and that coin is the one the game
      was last known by or the move gives the game up. */
  lemma MoveIsDoneIff(env: Env, s: State, coin: CoinString, readable: Program, entropy: Bytes)
    requires OneCoinPerGame(s.games) && coin in s.games
    ensures
      var game := s.games[coin];
      DoMove(env, s, game.gameId, readable, entropy).Done? <==>
        && coin !in s.moves && game.ourTurn && game.gameId in s.live
        && var seat := s.live[game.gameId];
        var made := MyTurnMakeMove(env.clvm, seat.referee, readable, entropy, env.stateNumber);
        && made.Ok? && made.value.1.details.basic.moverShare <= seat.referee.fixed.amount
        && (seat.lastPh == coin.ph
            || (made.value.1.details.basic.moverShare == seat.referee.fixed.amount && game.pendingSlash.None?))
  {
    hide MyTurnMakeMove, R.TransactionForMove, Referee.OutcomePuzzleHash;
    var game := s.games[coin];
    assert CoinOf(s.games, game.gameId) == Some(coin);
    if game.gameId in s.live {
      var r := s.live[game.gameId].referee;
      if MyTurnMakeMove(env.clvm, r, readable, entropy, env.stateNumber).Ok? {
        MadeMoveTransacts(env.clvm, r, readable, entropy, env.stateNumber);
      }
    }
  }

  lemma MadeMoveTransacts(clvm: Clvm, r: Referee, readable: Program, entropy: Bytes, n: nat)
    requires MyTurnMakeMove(clvm, r, readable, entropy, n).Ok?
    ensures
      var (moved, wire) := MyTurnMakeMove(clvm, r, readable, entropy, n).value;
      r.MyTurn? && moved.TheirTurn? && (R.TransactionForMove(moved).Ok? <==> wire.details.basic.moverShare <= r.fixed.amount)
  {
    hide CanonicalAtom;
  }

  /** The opponent's move on a coin we wait on: once its spend is handled the
      game is tracked in the coin the puzzle created, it is our turn there, and
      the referee is ready to move in it. */
  lemma TheirMoveGivesTheTurn(p: Players, env: Env, s: State, coin: CoinString, move: R.RefereeSolution)
    requires Law(p, s) && OneCoinPerGame(s.games) && RewardsApart(env) && s.queue == []
    requires coin in s.games && coin !in s.moves && s.games[coin].gameId in s.live
    requires s.games[coin].pendingSlash.None? && !s.games[coin].claimArmed
    requires R.Watches(s.live[s.games[coin].gameId].referee, coin)
    requires move.MoveSolution? && R.MoveAllowed(coin.ph.curried, move) && R.Canonical(move.moverShareRaw)
    requires !s.games[coin].ourTurn && move.info.Info? && R.DetailsOf(s.live[s.games[coin].gameId].referee.fixed, move).Ok?
    requires
      var r := s.live[s.games[coin].gameId].referee;
      var created := R.CreatedBy(r, coin, move);
      var taken := TheirTurnMoveOffChain(env.clvm, r, R.DetailsOf(r.fixed, move).value, env.stateNumber);
      && !r.IsGameOver() && created.ph != r.OnChainPuzzleHash()
      && taken.Ok? && taken.value.1.slash.None? && taken.value.0.Some? && !taken.value.0.value.IsGameOver()
      && taken.value.0.value.OurCurrentShare() != Ok(r.fixed.amount)
    ensures
      var game := s.games[coin];
      var created := R.CreatedBy(s.live[game.gameId].referee, coin, move);
      var conditions := R.MoveConditions(coin.ph.curried, move).value;
      var o := HandleSpend(env, s, coin, Some(conditions), Some(move));
      && o.state.games == (s.games - {coin})[created := game.(puzzleHash := created.ph, ourTurn := true)]
      && game.gameId in o.state.live
      && o.state.live[game.gameId].referee.MyTurn? && o.state.live[game.gameId].lastPh == created.ph
      && o.state.live[game.gameId].referee.OutcomePuzzleHash() == created.ph && o.state.moves == s.moves
      && (o.Done? ==> |o.notices| == 2 && o.notices[0] == TurnChanged(game.gameId, true)
                      && o.notices[1].Registered? && o.notices[1].coin == created)
  {
    hide CanonicalAtom, TheirTurnMoveOffChain, R.MoveAllowed, R.DetailsOf, R.Canonical, R.CoinSpent, R.FirstCreate, TurnsOk,
         LiveOk, MovesOk, BuildClaim;
    var game := s.games[coin];
    var r := s.live[game.gameId].referee;
    assert r.TheirTurn? && coin.ph.curried == r.spendThisCoin.Curried() by { TurnIsTheReferees(p, s, coin); }
    var conditions := R.MoveConditions(coin.ph.curried, move).value;
    R.FirstCreated(coin.ph.curried, move);
    R.FollowsCoinIff(env.clvm, r, coin, env.stateNumber, move);
    FollowedIs(env, r, coin, move);
    var created := R.CreatedBy(r, coin, move);
    assert created.ph != coin.ph by { RolesDiffer(p, s, coin, move); }
    var seat := GameCoinSpent(env, s.live[game.gameId], coin, conditions, move).value.0;
    var without := s.(games := s.games - {coin});
    assert HandleSpend(env, s, coin, Some(conditions), Some(move))
        == ReadSpend(env, without.(live := s.live[game.gameId := seat]), game, coin, false, Moved(created));
    AdvancedOnOurTurn(env, without.(live := s.live[game.gameId := seat]), game, created);
  }

  lemma RolesDiffer(p: Players, s: State, coin: CoinString, move: R.RefereeSolution)
    requires Law(p, s) && coin in s.games && s.games[coin].pendingSlash.None?
    requires move.MoveSolution? && move.info.Info?
    ensures coin.ph.RefereePh?
    ensures forall mod :: RefereePh(mod, R.Successor(coin.ph.curried, move)) != coin.ph
  {
    assert TurnOfCoin(p, coin, s.games[coin]);
  }

  lemma FollowedIs(env: Env, r: Referee, coin: CoinString, move: R.RefereeSolution)
    requires r.TheirTurn? && move.MoveSolution? && R.DetailsOf(r.fixed, move).Ok?
    requires
      var taken := TheirTurnMoveOffChain(env.clvm, r, R.DetailsOf(r.fixed, move).value, env.stateNumber);
      taken.Ok? && taken.value.1.slash.None? && taken.value.0.Some?
    ensures
      var taken := TheirTurnMoveOffChain(env.clvm, r, R.DetailsOf(r.fixed, move).value, env.stateNumber).value.0.value;
      forall conditions ::
        R.CoinSpent(env.clvm, r, coin, conditions, env.stateNumber, move).Ok?
        && R.CoinSpent(env.clvm, r, coin, conditions, env.stateNumber, move).value.1.Moved? ==>
          R.CoinSpent(env.clvm, r, coin, conditions, env.stateNumber, move).value.0
          == Some(taken.(createThisCoin := taken.spendThisCoin))
  {
    hide CanonicalAtom, TheirTurnMoveOffChain, R.DetailsOf, R.FirstCreate;
  }

  lemma AdvancedOnOurTurn(env: Env, s: State, game: Tracked, newCoin: CoinString)
    requires game.gameId in s.live && s.queue == [] && !s.live[game.gameId].referee.IsGameOver()
    requires s.live[game.gameId].referee.MyTurn?
    requires s.live[game.gameId].referee.OurCurrentShare() != Ok(s.live[game.gameId].referee.fixed.amount)
    ensures
      var o := Advanced(env, s, game, newCoin, true);
      && o.state == s.(games := s.games[newCoin := game.(puzzleHash := newCoin.ph, ourTurn := true)])
      && (o.Done? ==> |o.notices| == 2 && o.notices[0] == TurnChanged(game.gameId, true)
                      && o.notices[1].Registered? && o.notices[1].coin == newCoin)
  {
    hide BuildClaim;
  }

  /** Our own move, from the request to the landing: the game is then tracked in
      the coin the puzzle created, it is the opponent's turn there, and the
      referee is the one that made the move. */
  lemma OurMoveGivesTheTurnAway(p: Players, env: Env, s: State, coin: CoinString, readable: Program, entropy: Bytes)
    requires Law(p, s) && OneCoinPerGame(s.games) && RewardsApart(env) && s.queue == []
    requires coin in s.games && coin !in s.moves && s.games[coin].ourTurn && s.games[coin].gameId in s.live
    requires s.live[s.games[coin].gameId].lastPh == coin.ph
    requires
      var r := s.live[s.games[coin].gameId].referee;
      var made := MyTurnMakeMove(env.clvm, r, readable, entropy, env.stateNumber);
      && R.Watches(r, coin) && made.Ok? && made.value.1.details.basic.moverShare < r.fixed.amount
      && made.value.0.moveSpend.Some? && coin.ph.RefereePh?
      && R.MoveAllowed(coin.ph.curried, R.ToMove(made.value.0.moveSpend.value))
    ensures
      var game := s.games[coin];
      var moved := MyTurnMakeMove(env.clvm, s.live[game.gameId].referee, readable, entropy, env.stateNumber).value.0;
      var move := R.ToMove(moved.moveSpend.value);
      var conditions := R.MoveConditions(coin.ph.curried, move).value;
      var sent := DoMove(env, s, game.gameId, readable, entropy);
      var o := HandleSpend(env, sent.state, coin, Some(conditions), Some(move));
      var landed := CoinString(IdOf(coin), moved.OutcomePuzzleHash(), coin.amount);
      && sent.Done?
      && o.state.games
         == (s.games - {coin})[landed := game.(puzzleHash := landed.ph, ourTurn := false, finished := moved.IsGameOver())]
      && o.state.live == s.live[game.gameId := Seat(moved, landed.ph)] && o.state.moves == s.moves
      && R.FirstCreate(conditions) == Some((landed.ph, landed.amount)) && moved.TheirTurn?
      && (o.Done? ==> |o.notices| == 2 && o.notices[0] == TurnChanged(game.gameId, false)
                      && o.notices[1].Registered? && o.notices[1].coin == landed)
  {
    hide CanonicalAtom, TurnsOk, MovesOk, BuildClaim, MyTurnMakeMove, R.MoveAllowed, DoMove, R.FirstCreate, R.TransactionForMove;
    var game := s.games[coin];
    var r := s.live[game.gameId].referee;
    var made := MyTurnMakeMove(env.clvm, r, readable, entropy, env.stateNumber);
    var moved := made.value.0;
    MoveGoesOutIff(p, env, s, coin, readable, entropy);
    MadeMoveTransacts(env.clvm, r, readable, entropy, env.stateNumber);
    CreatesExpected(env, r, coin, readable, entropy);
    var sent := DoMove(env, s, game.gameId, readable, entropy).state;
    var after := Seat(moved, moved.OutcomePuzzleHash());
    assert sent == s.(moves := s.moves[coin := PendingMove(after.lastPh, game.gameId, after)]) by {
      MovesKeepOthers(env, s, game.gameId, readable, entropy);
    }
    assert sent.moves - {coin} == s.moves;
  }

  lemma MovesKeepOthers(env: Env, s: State, id: nat, readable: Program, entropy: Bytes)
    ensures
      var next := DoMove(env, s, id, readable, entropy).state;
      next.queue == s.queue && next.settling == s.settling
  {
    hide MyTurnMakeMove, R.TransactionForMove;
  }

  lemma CreatesExpected(env: Env, r: Referee, coin: CoinString, readable: Program, entropy: Bytes)
    requires R.Watches(r, coin) && MyTurnMakeMove(env.clvm, r, readable, entropy, env.stateNumber).Ok?
    requires
      var moved := MyTurnMakeMove(env.clvm, r, readable, entropy, env.stateNumber).value.0;
      moved.moveSpend.Some? && R.MoveAllowed(coin.ph.curried, R.ToMove(moved.moveSpend.value))
    ensures
      var moved := MyTurnMakeMove(env.clvm, r, readable, entropy, env.stateNumber).value.0;
      var conditions := R.MoveConditions(coin.ph.curried, R.ToMove(moved.moveSpend.value)).value;
      R.FirstCreate(conditions) == Some((moved.OutcomePuzzleHash(), coin.amount))
  {
    hide CanonicalAtom, R.MoveAllowed;
    var moved := MyTurnMakeMove(env.clvm, r, readable, entropy, env.stateNumber).value.0;
    R.FirstCreated(coin.ph.curried, R.ToMove(moved.moveSpend.value));
  }
}

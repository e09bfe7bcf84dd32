/** How games end on chain (src/session_phases/on_chain.rs): what is reported of an
    ending is what the spend paid. */
module OnChainEndings {
  import opened Wrappers
  import opened Chain
  import opened Referees
  import opened OnChainGames
  import opened OnChainTurns
  import R = RefereeOnChain

  /** The live or settling game waits on the coin, with the payouts both sides
      signed, to two different reward hashes that are no game coins'. */
  ghost predicate Awaits(env: Env, r: Referee, coin: CoinString) {
    && R.Watches(r, coin) && R.PayoutsSigned(r.fixed)
    && r.fixed.rewardPh == env.ours && r.fixed.theirRewardPh == env.theirs
    && env.ours != env.theirs && RewardsApart(env)
    && r.spendThisCoin.gameMove.basic.moverShare <= r.fixed.amount
  }

  /** Our share of the coin's timeout. */
  function ShareOf(r: Referee): nat {
    if r.OurCurrentShare().Ok? then r.OurCurrentShare().value else 0
  }

  function TimeoutOf(r: Referee): Option<(R.RefereeSolution, Conditions)> {
    match TimeoutSpendFor(r.fixed, r.spendThisCoin)
    case Ok(Some(spend)) =>
      (match R.TimeoutConditions(r.spendThisCoin.Curried(), spend.moverPayout, spend.waiterPayout)
       case Some(conditions) => Some((R.TimeoutSolution(spend.moverPayout, spend.waiterPayout), conditions))
       case None => None)
    case _ => None
  }

  /** The coins a timeout creates, the mover's first. */
  lemma TimeoutCreates(env: Env, r: Referee, coin: CoinString)
    requires Awaits(env, r, coin)
    ensures TimeoutOf(r).Some? <==> r.fixed.amount > 0
    ensures
      TimeoutOf(r).Some? ==>
        var conditions := TimeoutOf(r).value.1;
        var share := ShareOf(r);
        var rest := r.fixed.amount - share;
        && FirstTo(conditions, env.ours, 1) == (if share > 0 then Some(share) else None)
        && FirstTo(conditions, env.theirs, 1) == (if rest > 0 then Some(rest) else None)
        && R.FirstCreate(conditions)
           == Some(if share > 0 && (r.MyTurn? || rest == 0) then (env.ours, share) else (env.theirs, rest))
  {
    hide CanonicalAtom, TimeoutSpendFor, R.TimeoutConditions;
    R.TimeoutPaysOurShare(r);
    var built := TimeoutSpendFor(r.fixed, r.spendThisCoin);
    BuiltWhenWorth(r);
    if built.value.Some? {
      TimeoutShape(env, r, coin);
    }
  }

  lemma BuiltWhenWorth(r: Referee)
    requires r.spendThisCoin.gameMove.basic.moverShare <= r.fixed.amount
    ensures TimeoutSpendFor(r.fixed, r.spendThisCoin).Ok?
    ensures TimeoutSpendFor(r.fixed, r.spendThisCoin).value.Some? <==> r.fixed.amount > 0
  {
  }

  lemma TimeoutShape(env: Env, r: Referee, coin: CoinString)
    requires Awaits(env, r, coin) && r.fixed.amount > 0
    ensures
      var spend := TimeoutSpendFor(r.fixed, r.spendThisCoin).value.value;
      var conditions := R.TimeoutConditions(r.spendThisCoin.Curried(), spend.moverPayout, spend.waiterPayout);
      var share := ShareOf(r);
      var rest := r.fixed.amount - share;
      && share <= r.fixed.amount && conditions.Some?
      && FirstTo(conditions.value, env.ours, 1) == (if share > 0 then Some(share) else None)
      && FirstTo(conditions.value, env.theirs, 1) == (if rest > 0 then Some(rest) else None)
      && R.FirstCreate(conditions.value)
         == Some(if share > 0 && (r.MyTurn? || rest == 0) then (env.ours, share) else (env.theirs, rest))
  {
    hide CanonicalAtom;
    var moverShare := r.spendThisCoin.gameMove.basic.moverShare;
    R.CanonicalValue(moverShare);
    R.NilIsZero(moverShare);
    var (moverPh, waiterPh) := if r.MyTurn? then (env.ours, env.theirs) else (env.theirs, env.ours);
    var spend := TimeoutSpendFor(r.fixed, r.spendThisCoin).value.value;
    var conditions := R.TimeoutConditions(r.spendThisCoin.Curried(), spend.moverPayout, spend.waiterPayout).value;
    assert spend.moverPayout == (if moverShare > 0 then Some(moverPh) else None);
    var c := r.spendThisCoin.Curried();
    assert conditions
        == [R.AfterBlocks(c.timeout)]
           + (if moverShare > 0 then [R.Create(moverPh, moverShare), R.PayoutSigned(c.mover, moverPh)] else [])
           + (if moverShare < c.amount
              then [R.Create(waiterPh, c.amount - moverShare), R.PayoutSigned(c.waiter, waiterPh)] else []);
    hide R.TimeoutConditions, TimeoutSpendFor;
    Two(c.timeout, c.mover, c.waiter, moverPh, moverShare, waiterPh, c.amount - moverShare, env.ours);
    Two(c.timeout, c.mover, c.waiter, moverPh, moverShare, waiterPh, c.amount - moverShare, env.theirs);
  }

  function Payout(key: PublicKey, ph: PuzzleHash, share: nat): Conditions {
    if share > 0 then [R.Create(ph, share), R.PayoutSigned(key, ph)] else []
  }

  lemma Two(
    blocks: nat, mover: PublicKey, waiter: PublicKey, moverPh: PuzzleHash, a: nat, waiterPh: PuzzleHash, b: nat, ph: PuzzleHash)
    requires a + b > 0 && moverPh != waiterPh
    ensures
      var conditions := [R.AfterBlocks(blocks)] + Payout(mover, moverPh, a) + Payout(waiter, waiterPh, b);
      && R.FirstCreate(conditions) == Some(if a > 0 then (moverPh, a) else (waiterPh, b))
      && FirstTo(conditions, ph, 1)
         == if a > 0 && ph == moverPh then Some(a) else if b > 0 && ph == waiterPh then Some(b) else None
  {
    var first, second := Payout(mover, moverPh, a), Payout(waiter, waiterPh, b);
    assert [R.AfterBlocks(blocks)] + first + second == [R.AfterBlocks(blocks)] + (first + (second + []));
    assert ([R.AfterBlocks(blocks)] + (first + (second + [])))[1..] == first + (second + []);
    OnePayout(mover, moverPh, a, second + [], ph);
    OnePayout(waiter, waiterPh, b, [], ph);
  }

  lemma OnePayout(key: PublicKey, to: PuzzleHash, share: nat, rest: Conditions, ph: PuzzleHash)
    ensures
      var conditions := Payout(key, to, share) + rest;
      && R.FirstCreate(conditions) == (if share > 0 then Some((to, share)) else R.FirstCreate(rest))
      && FirstTo(conditions, ph, 1) == (if share > 0 && ph == to then Some(share) else FirstTo(rest, ph, 1))
  {
    var conditions := Payout(key, to, share) + rest;
    if share > 0 {
      assert conditions[1..][1..] == rest;
    } else {
      assert conditions == rest;
    }
  }

  /** A coin is registered with a claim exactly when its timeout pays us. */
  lemma ClaimIffPaysUs(env: Env, s: State, id: nat, coin: CoinString)
    requires RefereeOf(s, id).Some? && Awaits(env, RefereeOf(s, id).value, coin)
    ensures BuildClaim(env, s, id, coin) == Some(ShareOf(RefereeOf(s, id).value) > 0)
  {
    hide CanonicalAtom, TimeoutSpendFor, R.TimeoutConditions, FirstTo, R.FirstCreate;
    var r := RefereeOf(s, id).value;
    R.TimeoutOfCoin(r, coin);
    TimeoutCreates(env, r, coin);
    BuiltWhenWorth(r);
    ArgsOfWatched(r, coin);
    R.TimeoutPaysOurShare(r);
    var built := TimeoutSpendFor(r.fixed, r.spendThisCoin);
    assert TimeoutTransaction(r, coin.ph) == built;
    if built.value.Some? {
      var spend := built.value.value;
      var conditions := R.TimeoutConditions(r.spendThisCoin.Curried(), spend.moverPayout, spend.waiterPayout);
      assert conditions.Some?;
      assert TimeoutOf(r) == Some((R.TimeoutSolution(spend.moverPayout, spend.waiterPayout), conditions.value));
    }
  }

  lemma ArgsOfWatched(r: Referee, coin: CoinString)
    requires R.Watches(r, coin)
    ensures ArgsOfCoin(r, coin.ph).Curried() == r.spendThisCoin.Curried()
  {
    hide CanonicalAtom;
  }

  /** The timeout of a coin a live game waits on ends the game: reported is what
      the spend pays us, and as timed out the side the coin's puzzle has as its
      mover. */
  lemma TimeoutIsReported(p: Players, env: Env, s: State, coin: CoinString)
    requires Law(p, s) && s.queue == [] && coin in s.games && coin !in s.moves && s.games[coin].gameId in s.live
    requires s.games[coin].pendingSlash.None? && !s.games[coin].claimArmed && !s.games[coin].notificationSent
    requires Awaits(env, s.live[s.games[coin].gameId].referee, coin) && coin.amount > 0
    requires TimeoutOf(s.live[s.games[coin].gameId].referee).Some?
    ensures
      var game := s.games[coin];
      var r := s.live[game.gameId].referee;
      var (solution, conditions) := TimeoutOf(r).value;
      var o := HandleSpend(env, s, coin, Some(conditions), Some(solution));
      var paid := FirstTo(conditions, env.ours, 1);
      var outcome := if game.finished then SettledCleanly
                     else if coin.ph.RefereePh? && coin.ph.curried.mover == p.me then TimedOutWaitingForOurMove
                     else OpponentTimedOut;
      && o.Done? && o.notices == [Settled(game.gameId, outcome, if paid.Some? then paid.value else 0)]
      && o.state.games == s.games - {coin} && o.state.moves == s.moves
  {
    hide CanonicalAtom, TimeoutSpendFor, R.TimeoutConditions, FirstTo, R.FirstCreate, LiveOk, MovesOk, TimeoutOf;
    var game := s.games[coin];
    var r := s.live[game.gameId].referee;
    var (solution, conditions) := TimeoutOf(r).value;
    TimeoutCreates(env, r, coin);
    assert TurnOfCoin(p, coin, game);
    assert solution.TimeoutSolution? by { TimeoutIsNoMove(r); }
    TimeoutIsRead(env, s.live[game.gameId], coin);
    R.TimeoutPaysOurShare(r);
  }

  lemma TimeoutIsNoMove(r: Referee)
    requires TimeoutOf(r).Some?
    ensures TimeoutOf(r).value.0.TimeoutSolution?
  {
  }

  /** Whichever side's payout comes first, the referee reads the same share. */
  lemma TimeoutIsRead(env: Env, seat: Seat, coin: CoinString)
    requires Awaits(env, seat.referee, coin) && TimeoutOf(seat.referee).Some?
    ensures
      var (solution, conditions) := TimeoutOf(seat.referee).value;
      var read := GameCoinSpent(env, seat, coin, conditions, solution);
      var share := ShareOf(seat.referee);
      && read.Some? && read.value.0.referee == seat.referee
      && (read.value.1 == OurReward(share) || read.value.1 == Timedout(if share > 0 then Some(share) else None))
  {
    hide CanonicalAtom, TimeoutSpendFor, R.TimeoutConditions, FirstTo, R.FirstCreate, TimeoutOf;
    TimeoutCreates(env, seat.referee, coin);
    TimeoutIsNoMove(seat.referee);
    R.TimeoutPaysOurShare(seat.referee);
  }

  /** The same of a game whose result we have accepted, live or settling. */
  lemma AcceptedTimeoutIsReported(env: Env, s: State, r: Referee, coin: CoinString)
    requires s.queue == [] && coin in s.games && coin !in s.moves
    requires s.games[coin].pendingSlash.None? && s.games[coin].claimArmed && !s.games[coin].notificationSent
    requires Awaits(env, r, coin) && TimeoutOf(r).Some?
    ensures
      var game := s.games[coin];
      var (solution, conditions) := TimeoutOf(r).value;
      var o := HandleSpend(env, s, coin, Some(conditions), Some(solution));
      && o == Done(
           s.(games := s.games - {coin}),
           [Settled(game.gameId, if game.finished then SettledCleanly else WeAccepted, ShareOf(r))])
  {
    hide CanonicalAtom, R.FirstCreate, TimeoutOf, FirstTo, TimeoutSpendFor, ProcessQueue, ResolveMove;
    TimeoutCreates(env, r, coin);
    var conditions := TimeoutOf(r).value.1;
    EnoughOrNone(conditions, env.ours);
    EnoughOrNone(conditions, env.theirs);
    NothingUnpaid(env, r, coin);
    R.TimeoutPaysOurShare(r);
    BuiltIsWorth(r);
    hide Awaits, ShareOf, NoEmptyCoin, RefereeSpend, SlashEnding;
    var without := s.(games := s.games - {coin});
    NothingQueued(env, without);
    NoMoveWaits(env, s, coin, conditions);
    var notices := [Settled(s.games[coin].gameId, CleanOr(s.games[coin], WeAccepted), ShareOf(r))];
    assert notices + [] == notices;
  }

  lemma NoMoveWaits(env: Env, s: State, coin: CoinString, conditions: Conditions)
    requires coin !in s.moves
    ensures ResolveMove(env, s, coin, Some(conditions)) == Continue(s)
  {
  }

  lemma BuiltIsWorth(r: Referee)
    requires TimeoutOf(r).Some?
    ensures r.fixed.amount > 0
  {
  }

  lemma {:induction false} EnoughOrNone(conditions: Conditions, ph: PuzzleHash)
    ensures FirstTo(conditions, ph, 1).Some? && NoEmptyCoin(conditions) ==> FirstTo(conditions, ph, 0) == FirstTo(conditions, ph, 1)
    ensures FirstTo(conditions, ph, 1).None? && NoEmptyCoin(conditions) ==> FirstTo(conditions, ph, 0).None?
  {
    if conditions != [] {
      assert NoEmptyCoin(conditions) ==> NoEmptyCoin(conditions[1..]);
      EnoughOrNone(conditions[1..], ph);
    }
  }

  predicate NoEmptyCoin(conditions: Conditions) {
    forall i :: 0 <= i < |conditions| && conditions[i].Create? ==> conditions[i].amount > 0
  }

  /** A timeout creates no coin of nothing. */
  lemma NothingUnpaid(env: Env, r: Referee, coin: CoinString)
    requires Awaits(env, r, coin) && TimeoutOf(r).Some?
    ensures NoEmptyCoin(TimeoutOf(r).value.1)
  {
    hide CanonicalAtom;
    R.CanonicalValue(r.spendThisCoin.gameMove.basic.moverShare);
    R.NilIsZero(r.spendThisCoin.gameMove.basic.moverShare);
  }

  /** A move of ours that came too late: the timeout of the coin it was for is
      reported with what it pays us, but as a move too late only when that is
      nothing.  Otherwise our payout is the first coin the spend creates, the move
      is forgotten, and the opponent is told to have timed out. */
  lemma LateMoveIsReported(p: Players, env: Env, s: State, coin: CoinString)
    requires Law(p, s) && s.queue == [] && coin in s.games && coin in s.moves && s.games[coin].gameId in s.live
    requires s.games[coin].pendingSlash.None? && !s.games[coin].claimArmed && !s.games[coin].notificationSent
    requires s.games[coin].ourTurn && !s.games[coin].finished
    requires Awaits(env, s.live[s.games[coin].gameId].referee, coin)
    requires TimeoutOf(s.live[s.games[coin].gameId].referee).Some?
    ensures
      var game := s.games[coin];
      var r := s.live[game.gameId].referee;
      var (solution, conditions) := TimeoutOf(r).value;
      var o := HandleSpend(env, s, coin, Some(conditions), Some(solution));
      && o.Done? && o.state.games == s.games - {coin} && o.state.moves == s.moves - {coin}
      && o.notices == [Settled(game.gameId, if ShareOf(r) == 0 then AttemptToMoveFailed else OpponentTimedOut, ShareOf(r))]
  {
    hide CanonicalAtom, TimeoutSpendFor, R.TimeoutConditions, FirstTo, R.FirstCreate, LiveOk, TimeoutOf;
    var game := s.games[coin];
    var r := s.live[game.gameId].referee;
    var (solution, conditions) := TimeoutOf(r).value;
    TimeoutCreates(env, r, coin);
    BuiltIsWorth(r);
    assert MoveOk(p, s.moves[coin]) && s.moves[coin].expectedPh.RefereePh?;
    assert r.MyTurn? by { TurnIsTheReferees(p, s, coin); }
    R.TimeoutPaysOurShare(r);
    TimeoutIsRead(env, s.live[game.gameId], coin);
    TimeoutIsNoMove(r);
    assert s.games[coin := game.(ourTurn := false)] - {coin} == s.games - {coin};
  }

  // ---------------------------------------------------------------------------
  // Slashes
  // ---------------------------------------------------------------------------

  /** A move we slash is remembered with the share it left us; the slash itself
      is worth the whole game. */
  lemma SlashRemembersShare(env: Env, seat: Seat, coin: CoinString, conditions: Conditions, solution: R.RefereeSolution)
    requires GameCoinSpent(env, seat, coin, conditions, solution).Some?
    requires GameCoinSpent(env, seat, coin, conditions, solution).value.1.SlashReward?
    ensures solution.MoveSolution?
    ensures
      var info := GameCoinSpent(env, seat, coin, conditions, solution).value.1;
      && info.moverShare == R.Unsigned(solution.moverShareRaw) <= seat.referee.fixed.amount
      && info.slashAmount == seat.referee.fixed.amount
      && info.slashCoin.parent == IdOf(coin) && info.slashCoin.ph == R.FirstCreate(conditions).value.0
  {
    hide CanonicalAtom, TheirTurnMoveOffChain, R.FirstCreate;
  }

  /** When the opponent's timeout of such a coin lands before the slash, what we
      are told we keep is what it pays us. */
  lemma CheatIsReportedAsPaid(
    env: Env, game: Tracked, c: CurriedReferee, moverPayout: Option<PuzzleHash>, waiterPayout: Option<PuzzleHash>)
    requires game.cheatingShare == Some(R.Unsigned(c.moverShareRaw)) && env.ours != env.theirs
    requires R.TimeoutConditions(c, moverPayout, waiterPayout).Some? && R.Canonical(c.moverShareRaw)
    requires (moverPayout.Some? ==> moverPayout.value == env.ours) && (waiterPayout.Some? ==> waiterPayout.value == env.theirs)
    ensures
      var conditions := R.TimeoutConditions(c, moverPayout, waiterPayout).value;
      var paid := FirstTo(conditions, env.ours, 1);
      SlashEnding(env, game, conditions)
      == if R.Unsigned(c.moverShareRaw) < c.amount then
           Settled(game.gameId, OpponentCheated, if paid.Some? then paid.value else 0)
         else if c.amount > 0 then Settled(game.gameId, SlashedOpponent, c.amount)
         else EndedError(game.gameId)
  {
    hide CanonicalAtom;
    var share := R.Unsigned(c.moverShareRaw);
    R.NilIsZero(share);
    assert c.moverShareRaw == [] <==> share == 0;
    var conditions := R.TimeoutConditions(c, moverPayout, waiterPayout).value;
    assert conditions
        == [R.AfterBlocks(c.timeout)] + Payout(c.mover, env.ours, share) + Payout(c.waiter, env.theirs, c.amount - share);
    if c.amount > 0 {
      hide R.TimeoutConditions;
      Two(c.timeout, c.mover, c.waiter, env.ours, share, env.theirs, c.amount - share, env.ours);
      Two(c.timeout, c.mover, c.waiter, env.ours, share, env.theirs, c.amount - share, env.theirs);
      assert share < c.amount ==> FirstTo(conditions, env.theirs, 1).Some?;
      assert share == c.amount ==> FirstTo(conditions, env.theirs, 1).None? && FirstTo(conditions, env.ours, 1) == Some(share);
      assert share < c.amount ==> FirstTo(conditions, env.ours, 1) == if share > 0 then Some(share) else None;
    } else {
      assert conditions == [R.AfterBlocks(c.timeout)] && conditions[1..] == [];
      assert FirstTo(conditions, env.theirs, 1).None?;
      assert FirstTo(conditions, env.ours, 1).None?;
    }
  }

  /** From the cheat to its ending: a move we slash is tracked in the coin it made,
      and if the opponent's timeout of that coin lands first, we are told they
      have cheated and what that timeout pays us. */
  lemma CheatThatStandsIsReported(
    p: Players, env: Env, s: State, coin: CoinString, move: R.RefereeSolution, moverPayout: Option<PuzzleHash>,
    waiterPayout: Option<PuzzleHash>)
    requires Law(p, s) && s.queue == [] && coin in s.games && coin !in s.moves && s.games[coin].gameId in s.live
    requires s.games[coin].pendingSlash.None? && !s.games[coin].claimArmed && !s.games[coin].ourTurn
    requires move.MoveSolution? && coin.ph.RefereePh? && R.MoveAllowed(coin.ph.curried, move) && move.info.Info?
    requires
      var conditions := R.MoveConditions(coin.ph.curried, move).value;
      var read := GameCoinSpent(env, s.live[s.games[coin].gameId], coin, conditions, move);
      read.Some? && read.value.1.SlashReward?
    requires
      var made := R.Successor(coin.ph.curried, move);
      && R.TimeoutConditions(made, moverPayout, waiterPayout).Some? && R.Canonical(move.moverShareRaw)
      && R.Unsigned(move.moverShareRaw) < made.amount
    requires env.ours != env.theirs
    requires (moverPayout.Some? ==> moverPayout.value == env.ours) && (waiterPayout.Some? ==> waiterPayout.value == env.theirs)
    ensures
      var game := s.games[coin];
      var created := CoinString(
                       IdOf(coin), R.FirstCreate(R.MoveConditions(coin.ph.curried, move).value).value.0,
                       s.live[game.gameId].referee.fixed.amount);
      var first := HandleSpend(env, s, coin, Some(R.MoveConditions(coin.ph.curried, move).value), Some(move));
      var payout := R.TimeoutConditions(R.Successor(coin.ph.curried, move), moverPayout, waiterPayout).value;
      && first.Done? && first.notices == [Submitted(created), IllegalMove(game.gameId), Registered(created, false)]
      && created in first.state.games && first.state.games[created].gameId == game.gameId
      && (created !in s.moves ==>
            var second := HandleSpend(
                            env, first.state, created, Some(payout), Some(R.TimeoutSolution(moverPayout, waiterPayout)));
            var paid := FirstTo(payout, env.ours, 1);
            && second.Done? && created !in second.state.games
            && second.notices == [Settled(game.gameId, OpponentCheated, if paid.Some? then paid.value else 0)])
  {
    hide CanonicalAtom, TurnsOk, LiveOk, MovesOk, GameCoinSpent, R.MoveAllowed, R.TimeoutConditions, FirstTo, R.FirstCreate;
    var game := s.games[coin];
    var conditions := R.MoveConditions(coin.ph.curried, move).value;
    R.FirstCreated(coin.ph.curried, move);
    var (seat, info) := GameCoinSpent(env, s.live[game.gameId], coin, conditions, move).value;
    SlashRemembersShare(env, s.live[game.gameId], coin, conditions, move);
    SlashedCoin(env, s.live[game.gameId], coin, conditions, move);
    var tracked := game.(pendingSlash := Some(info.slashAmount), cheatingShare := Some(info.moverShare), ourTurn := false);
    var first := HandleSpend(env, s, coin, Some(conditions), Some(move));
    assert first.state
        == s.(games := (s.games - {coin})[info.slashCoin := tracked], live := s.live[game.gameId := seat]);
    CheatIsReportedAsPaid(env, tracked, R.Successor(coin.ph.curried, move), moverPayout, waiterPayout);
    NothingQueued(env, first.state.(games := first.state.games - {info.slashCoin}));
    assert R.TimeoutConditions(R.Successor(coin.ph.curried, move), moverPayout, waiterPayout).Some?;
  }

  lemma SlashedCoin(env: Env, seat: Seat, coin: CoinString, conditions: Conditions, solution: R.RefereeSolution)
    requires GameCoinSpent(env, seat, coin, conditions, solution).Some?
    requires GameCoinSpent(env, seat, coin, conditions, solution).value.1.SlashReward?
    ensures R.FirstCreate(conditions).Some?
    ensures GameCoinSpent(env, seat, coin, conditions, solution).value.1.slashCoin
            == CoinString(IdOf(coin), R.FirstCreate(conditions).value.0, seat.referee.fixed.amount)
  {
    hide CanonicalAtom, TheirTurnMoveOffChain, R.FirstCreate, R.DetailsOf;
  }

  /** A slash by the side that is to move: when that is the opponent we are told it
      has slashed us, and are left with nothing. */
  lemma SlashByMoverIsReported(
    p: Players, env: Env, s: State, coin: CoinString, conditions: Conditions, slash: R.RefereeSolution)
    requires Law(p, s) && s.queue == [] && coin in s.games && coin !in s.moves && s.games[coin].gameId in s.live
    requires s.games[coin].pendingSlash.None? && !s.games[coin].claimArmed && !s.games[coin].notificationSent
    requires Awaits(env, s.live[s.games[coin].gameId].referee, coin) && slash.SlashSolution?
    requires R.FirstCreate(conditions).Some? && R.FirstCreate(conditions).value.0 == env.theirs
    ensures
      var game := s.games[coin];
      var share := ShareOf(s.live[game.gameId].referee);
      var o := HandleSpend(env, s, coin, Some(conditions), Some(slash));
      && o.Done? && o.state.games == s.games - {coin}
      && (coin.ph.RefereePh? && coin.ph.curried.mover == p.them ==>
            o.notices == [Settled(game.gameId, OpponentSlashedUs, 0)])
      && (coin.ph.RefereePh? && coin.ph.curried.mover == p.me ==>
            o.notices == [Settled(game.gameId, CleanOr(game, TimedOutWaitingForOurMove), share)])
  {
    hide CanonicalAtom, R.FirstCreate, LiveOk, MovesOk, ProcessQueue, GameCoinSpent, Awaits, ShareOf, Referee.OnChainPuzzleHash;
    var game := s.games[coin];
    var r := s.live[game.gameId].referee;
    assert TurnOfCoin(p, coin, game);
    SlashIsRead(env, s.live[game.gameId], coin, conditions, slash);
    var seat := Seat(r, r.OnChainPuzzleHash());
    var after := s.(games := s.games - {coin}, live := s.live[game.gameId := seat]);
    NothingQueued(env, after);
    var slashed := [Settled(game.gameId, OpponentSlashedUs, 0)];
    var paid := [Settled(game.gameId, TimeoutOutcome(game), ShareOf(r))];
    assert slashed + [] == slashed && paid + [] == paid;
    NoMoveWaits(env, s, coin, conditions);
    hide ResolveMove, TurnsOk;
  }

  lemma SlashIsRead(env: Env, seat: Seat, coin: CoinString, conditions: Conditions, slash: R.RefereeSolution)
    requires Awaits(env, seat.referee, coin) && slash.SlashSolution?
    requires R.FirstCreate(conditions).Some? && R.FirstCreate(conditions).value.0 == env.theirs
    ensures
      var share := ShareOf(seat.referee);
      GameCoinSpent(env, seat, coin, conditions, slash)
      == Some((Seat(seat.referee, seat.referee.OnChainPuzzleHash()), Timedout(if share > 0 then Some(share) else None)))
  {
    hide CanonicalAtom, R.FirstCreate;
    R.TimeoutPaysOurShare(seat.referee);
    BuiltWhenWorth(seat.referee);
  }

  // ---------------------------------------------------------------------------
  // Coins we know, and coins we do not
  // ---------------------------------------------------------------------------

  /** A spend that makes a coin of our own states, from another one, is expected
      whoever made it: the referee is not asked and stays as it is, and the turn
      passes on. */
  lemma KnownCoinIsExpected(
    env: Env, s: State, coin: CoinString, conditions: Conditions, solution: R.RefereeSolution)
    requires coin in s.games && coin !in s.moves && s.games[coin].gameId in s.live
    requires s.games[coin].pendingSlash.None? && !s.games[coin].claimArmed && R.FirstCreate(conditions).Some?
    requires
      var r := s.live[s.games[coin].gameId].referee;
      var ph := R.FirstCreate(conditions).value.0;
      ph != env.ours && ph != coin.ph && (ph == r.OnChainPuzzleHash() || ph == r.OutcomePuzzleHash())
    ensures
      var game := s.games[coin];
      var (ph, amount) := R.FirstCreate(conditions).value;
      HandleSpend(env, s, coin, Some(conditions), Some(solution))
      == Advanced(
           env,
           s.(games := s.games - {coin}, live := s.live[game.gameId := Seat(s.live[game.gameId].referee, ph)]),
           game, CoinString(IdOf(coin), ph, amount), !game.ourTurn)
  {
    hide R.FirstCreate, Advanced, Referee.OutcomePuzzleHash, Referee.OnChainPuzzleHash, R.CoinSpent;
  }

  /** A spend on our turn that our referee takes for the opponent's, or cannot
      read, ends the game with an error. */
  lemma UnexpectedSpendEndsGame(
    env: Env, s: State, coin: CoinString, conditions: Conditions, solution: R.RefereeSolution)
    requires coin in s.games && coin !in s.moves && s.games[coin].gameId in s.live && s.queue == []
    requires s.games[coin].pendingSlash.None? && !s.games[coin].claimArmed
    requires
      var read := GameCoinSpent(env, s.live[s.games[coin].gameId], coin, conditions, solution);
      read.None? || (s.games[coin].ourTurn && (read.value.1.Moved? || read.value.1.SlashReward?))
    ensures
      var o := HandleSpend(env, s, coin, Some(conditions), Some(solution));
      o.Done? && o.notices == [EndedError(s.games[coin].gameId)] && o.state.games == s.games - {coin}
  {
    hide GameCoinSpent, ProcessQueue;
    var game := s.games[coin];
    var without := s.(games := s.games - {coin});
    NothingQueued(env, without);
    var read := GameCoinSpent(env, s.live[game.gameId], coin, conditions, solution);
    if read.Some? {
      NothingQueued(env, without.(live := s.live[game.gameId := read.value.0]));
    }
    assert [EndedError(game.gameId)] + [] == [EndedError(game.gameId)];
  }

  // ---------------------------------------------------------------------------
  // Settling on chain
  // ---------------------------------------------------------------------------

  /** A settlement asked for on chain gives the game up exactly when it is our
      turn and nothing is ours; otherwise its claim is armed, and registered
      exactly when the timeout pays us. */
  lemma SettlementArmsIff(env: Env, s: State, coin: CoinString)
    requires OneCoinPerGame(s.games) && coin in s.games && RefereeOf(s, s.games[coin].gameId).Some?
    requires Awaits(env, RefereeOf(s, s.games[coin].gameId).value, coin)
    ensures
      var game := s.games[coin];
      var share := ShareOf(RefereeOf(s, game.gameId).value);
      DoSettle(env, s, game.gameId)
      == if game.ourTurn && share == 0 then
           Done(s.(games := s.games - {coin}), [Settled(game.gameId, ForfeitedWeAccepted, 0)])
         else
           Done(
             s.(games := s.games[coin := game.(claimArmed := true, finished := true)]),
             if share > 0 then [Registered(coin, true)] else [])
  {
    hide CanonicalAtom, BuildClaim, TimeoutSpendFor;
    var game := s.games[coin];
    var r := RefereeOf(s, game.gameId).value;
    ClaimIffPaysUs(env, s, game.gameId, coin);
    R.TimeoutPaysOurShare(r);
    assert CoinOf(s.games, game.gameId) == Some(coin);
  }

  /** Once the timeout lands, such a game has ended cleanly, with what it pays us. */
  lemma SettledGamePaysOut(env: Env, s: State, coin: CoinString)
    requires OneCoinPerGame(s.games) && coin in s.games && coin !in s.moves && s.queue == []
    requires s.games[coin].pendingSlash.None? && !s.games[coin].notificationSent
    requires RefereeOf(s, s.games[coin].gameId).Some? && Awaits(env, RefereeOf(s, s.games[coin].gameId).value, coin)
    requires ShareOf(RefereeOf(s, s.games[coin].gameId).value) > 0
    requires TimeoutOf(RefereeOf(s, s.games[coin].gameId).value).Some?
    ensures
      var game := s.games[coin];
      var r := RefereeOf(s, game.gameId).value;
      var (solution, conditions) := TimeoutOf(r).value;
      var settled := DoSettle(env, s, game.gameId).state;
      HandleSpend(env, settled, coin, Some(conditions), Some(solution))
      == Done(s.(games := s.games - {coin}), [Settled(game.gameId, SettledCleanly, ShareOf(r))])
  {
    hide CanonicalAtom, DoSettle, HandleSpend, TimeoutOf, TimeoutSpendFor, OneCoinPerGame;
    var game := s.games[coin];
    SettlementArmsIff(env, s, coin);
    var settled := DoSettle(env, s, game.gameId).state;
    AcceptedTimeoutIsReported(env, settled, RefereeOf(s, game.gameId).value, coin);
    assert settled.games - {coin} == s.games - {coin};
  }

  lemma QueuedSettlementArms(env: Env, s: State, coin: CoinString)
    requires OneCoinPerGame(s.games) && coin in s.games && s.queue == [] && s.games[coin].finished
    requires RefereeOf(s, s.games[coin].gameId).Some? && Awaits(env, RefereeOf(s, s.games[coin].gameId).value, coin)
    requires ShareOf(RefereeOf(s, s.games[coin].gameId).value) > 0
    ensures
      var id := s.games[coin].gameId;
      AutoSettling(env, s, id, coin)
      == Done(
           s.(games := s.games[coin := s.games[coin].(claimArmed := true)]),
           [TurnChanged(id, true), Registered(coin, true), Registered(coin, true)])
  {
    hide CanonicalAtom, BuildClaim, DoSettle, OneCoinPerGame, Awaits, ShareOf;
    var id := s.games[coin].gameId;
    ClaimIffPaysUs(env, s, id, coin);
    var queued := s.(queue := [SettleAction(id)]);
    assert s.queue + [SettleAction(id)] == [SettleAction(id)] && [SettleAction(id)][1..] == [];
    ClaimIffPaysUs(env, queued, id, coin);
    assert queued.(queue := queued.queue[1..]) == s;
    SettlementArmsIff(env, s, coin);
    assert s.games[coin].(claimArmed := true, finished := true) == s.games[coin].(claimArmed := true);
    var armed := s.(games := s.games[coin := s.games[coin].(claimArmed := true)]);
    assert DoAction(env, s, SettleAction(id)) == Done(armed, [Registered(coin, true)]);
    assert ProcessQueue(env, queued) == Done(armed, [Registered(coin, true)]);
    assert [TurnChanged(id, true), Registered(coin, true)] + [Registered(coin, true)]
        == [TurnChanged(id, true), Registered(coin, true), Registered(coin, true)];
  }

  /** What the opponent's move decides: a game that is then all ours, or over with
      something for us, is settled at once; one that is over with nothing for us
      has been lost; in every other we are to move. */
  lemma TheirMoveDecides(env: Env, s: State, game: Tracked, newCoin: CoinString)
    requires s.queue == [] && !TracksGame(s.games, game.gameId) && OneCoinPerGame(s.games) && game.gameId in s.live
    requires newCoin !in s.games && Awaits(env, s.live[game.gameId].referee, newCoin) && newCoin.amount > 0
    ensures
      var r := s.live[game.gameId].referee;
      var share := ShareOf(r);
      Advanced(env, s, game, newCoin, true)
      == if share == r.fixed.amount || (r.IsGameOver() && share > 0) then
           Done(
             s.(games := s.games[newCoin :=
               game.(puzzleHash := newCoin.ph, ourTurn := true, finished := true, claimArmed := true)]),
             [TurnChanged(game.gameId, true), Registered(newCoin, true), Registered(newCoin, true)])
         else if r.IsGameOver() then Done(s, [Settled(game.gameId, ForfeitedOpponentWon, 0)])
         else
           Done(
             s.(games := s.games[newCoin := game.(puzzleHash := newCoin.ph, ourTurn := true)]),
             [TurnChanged(game.gameId, true), Registered(newCoin, share > 0)])
  {
    hide CanonicalAtom, BuildClaim, OneCoinPerGame, WithoutGame, AutoSettling, ProcessQueue, AutoSettles, ShareOf, Awaits;
    var id := game.gameId;
    var r := s.live[id].referee;
    SettlesWhen(env, s, id, newCoin);
    var moved := game.(puzzleHash := newCoin.ph, ourTurn := true, finished := game.finished || r.IsGameOver());
    var marked := moved.(finished := true);
    var playing := s.(games := s.games[newCoin := moved]);
    if ShareOf(r) == r.fixed.amount || (r.IsGameOver() && ShareOf(r) > 0) {
      var settling := s.(games := s.games[newCoin := marked]);
      PutBack(s.games, newCoin, marked);
      QueuedSettlementArms(env, settling, newCoin);
      assert settling.games[newCoin := marked.(claimArmed := true)] == s.games[newCoin := marked.(claimArmed := true)];
    } else if r.IsGameOver() {
      NothingQueued(env, s);
      ForfeitedIsOut(s.games, newCoin, moved);
      assert [Settled(id, ForfeitedOpponentWon, 0)] + [] == [Settled(id, ForfeitedOpponentWon, 0)];
    } else {
      NothingQueued(env, playing);
      ClaimIffPaysUs(env, playing, id, newCoin);
      var notices := [TurnChanged(id, true), Registered(newCoin, ShareOf(r) > 0)];
      assert notices + [] == notices;
    }
  }

  lemma SettlesWhen(env: Env, s: State, id: nat, coin: CoinString)
    requires id in s.live && Awaits(env, s.live[id].referee, coin)
    ensures
      var r := s.live[id].referee;
      && AutoSettles(s, id, true) == Some(ShareOf(r) == r.fixed.amount || (r.IsGameOver() && ShareOf(r) > 0))
      && (coin.amount > 0 && ShareOf(r) == r.fixed.amount ==> ShareOf(r) > 0)
  {
    hide CanonicalAtom;
    R.TimeoutPaysOurShare(s.live[id].referee);
    BuiltWhenWorth(s.live[id].referee);
  }

  lemma NothingQueued(env: Env, s: State)
    requires s.queue == []
    ensures ProcessQueue(env, s) == Done(s, [])
  {
  }

  lemma ForfeitedIsOut(games: map<CoinString, Tracked>, coin: CoinString, game: Tracked)
    requires !TracksGame(games, game.gameId) && coin !in games
    ensures WithoutGame(games[coin := game], game.gameId) == games
  {
  }

  // ---------------------------------------------------------------------------
  // What is spent is gone, and the queue goes in order
  // ---------------------------------------------------------------------------

  lemma ActionsTrackNothingNew(env: Env, s: State, action: Action)
    ensures DoAction(env, s, action).state.games.Keys <= s.games.Keys
  {
    hide MyTurnMakeMove, BuildClaim, R.TransactionForMove, OurShare;
  }

  /** Actions are taken from the front of the queue, and none is taken twice. */
  lemma {:induction false} QueueGoesInOrder(env: Env, s: State)
    ensures
      var o := ProcessQueue(env, s);
      && |o.state.queue| <= |s.queue| && o.state.queue == s.queue[|s.queue| - |o.state.queue|..]
      && (s.queue != [] ==> |o.state.queue| < |s.queue|)
      && (o.Done? && o.notices == [] ==> o.state.queue == [])
      && o.state.games.Keys <= s.games.Keys
    decreases |s.queue|
  {
    hide DoAction;
    if s.queue != [] {
      var rest := s.(queue := s.queue[1..]);
      var o := DoAction(env, rest, s.queue[0]);
      ActionsTrackNothingNew(env, rest, s.queue[0]);
      if o.Done? && o.notices == [] {
        QueueGoesInOrder(env, o.state);
        var end := ProcessQueue(env, o.state);
        assert s.queue[1..][|rest.queue| - |end.state.queue|..] == s.queue[|s.queue| - |end.state.queue|..];
      }
    }
  }

  predicate ChildOf(coin: CoinString, parent: CoinString) { coin.parent == IdOf(parent) }

  function Ancestors(coin: CoinString): nat {
    match coin.parent
    case Launcher(_) => 0
    case IdOf(parent) => 1 + Ancestors(parent)
  }

  lemma ChildIsAnother(coin: CoinString, parent: CoinString)
    requires ChildOf(coin, parent)
    ensures coin != parent
  {
    assert Ancestors(coin) == 1 + Ancestors(parent);
  }

  /** Every coin tracked was tracked before or was made by the spend. */
  ghost predicate OnlyChildren(games: map<CoinString, Tracked>, o: Outcome, coin: CoinString) {
    forall c :: c in o.state.games ==> c in games || ChildOf(c, coin)
  }

  lemma QueueTracksNothingNew(env: Env, s: State, notices: seq<Notice>)
    ensures ThenQueue(env, s, notices).state.games.Keys <= s.games.Keys
  {
    hide ProcessQueue;
    QueueGoesInOrder(env, s);
  }

  lemma RegisteringTracks(env: Env, s: State, id: nat, ourTurn: bool, newCoin: CoinString)
    ensures Registering(env, s, id, ourTurn, newCoin).state.games.Keys <= s.games.Keys
    ensures AutoSettling(env, s, id, newCoin).state.games.Keys <= s.games.Keys
  {
    hide ThenQueue, BuildClaim;
    forall next: State, notices {
      QueueTracksNothingNew(env, next, notices);
    }
  }

  lemma AdvancesTo(env: Env, s: State, game: Tracked, newCoin: CoinString, myTurn: bool)
    ensures Advanced(env, s, game, newCoin, myTurn).state.games.Keys <= s.games.Keys + {newCoin}
  {
    hide ThenQueue, Registering, AutoSettling, AutoSettles;
    var id := game.gameId;
    if id in s.live {
      var moved := game.(
        puzzleHash := newCoin.ph, ourTurn := myTurn, finished := game.finished || s.live[id].referee.IsGameOver());
      RegisteringTracks(env, s.(games := s.games[newCoin := moved]), id, myTurn, newCoin);
      RegisteringTracks(env, s.(games := s.games[newCoin := moved.(finished := true)]), id, myTurn, newCoin);
      QueueTracksNothingNew(
        env, s.(games := WithoutGame(s.games[newCoin := moved], id)), [Settled(id, ForfeitedOpponentWon, 0)]);
    }
  }

  lemma ArmedTracks(env: Env, s: State, game: Tracked, coin: CoinString, conditions: Conditions)
    ensures OnlyChildren(s.games, ArmedSpend(env, s, game, coin, conditions), coin)
  {
    hide ThenQueue, Registering, FirstTo, R.FirstCreate, UnlessSent;
    forall next: State, notices {
      QueueTracksNothingNew(env, next, notices);
    }
    forall next: State, id, turn, c {
      RegisteringTracks(env, next, id, turn, c);
    }
  }

  lemma ReadTracks(env: Env, s: State, game: Tracked, coin: CoinString, slash: bool, info: SpentInfo)
    requires info.SlashReward? ==> ChildOf(info.slashCoin, coin)
    ensures OnlyChildren(s.games, ReadSpend(env, s, game, coin, slash, info), coin)
  {
    hide ThenQueue, Advanced, UnlessSent, TimeoutOutcome, UnexpectedOnOurTurn;
    forall next: State, notices {
      QueueTracksNothingNew(env, next, notices);
    }
    forall c: CoinString, turn {
      AdvancesTo(env, s, game, c, turn);
    }
  }

  lemma RefereeTracks(
    env: Env, s: State, game: Tracked, coin: CoinString, conditions: Conditions, solution: Option<R.RefereeSolution>)
    ensures OnlyChildren(s.games, RefereeSpend(env, s, game, coin, conditions, solution), coin)
  {
    hide ThenQueue, ReadSpend, GameCoinSpent;
    forall next: State, notices {
      QueueTracksNothingNew(env, next, notices);
    }
    if game.gameId in s.live && solution.Some? {
      var read := GameCoinSpent(env, s.live[game.gameId], coin, conditions, solution.value);
      if read.Some? {
        if read.value.1.SlashReward? {
          SlashedCoin(env, s.live[game.gameId], coin, conditions, solution.value);
        }
        ReadTracks(
          env, s.(live := s.live[game.gameId := read.value.0]), game, coin, solution.value.SlashSolution?, read.value.1);
      }
    }
  }

  lemma ResolvedTracks(env: Env, s: State, coin: CoinString, conditions: Conditions)
    ensures
      match ResolveMove(env, s, coin, Some(conditions))
      case Resolved(o) => OnlyChildren(s.games - {coin}, o, coin)
      case Continue(next) => next.games.Keys == s.games.Keys
  {
    hide ThenQueue, Registering, R.FirstCreate, CleanOr;
    if coin in s.moves && coin in s.games && R.FirstCreate(conditions).Some? {
      var move := s.moves[coin];
      var game := s.games[coin];
      var (ph, amount) := R.FirstCreate(conditions).value;
      var without := s.(moves := s.moves - {coin}, games := s.games - {coin});
      var newCoin := CoinString(IdOf(coin), ph, amount);
      QueueTracksNothingNew(env, without, [Settled(game.gameId, CleanOr(game, AttemptToMoveFailed), 0)]);
      var next := game.(puzzleHash := newCoin.ph, ourTurn := false, finished := move.after.referee.IsGameOver());
      RegisteringTracks(
        env, without.(games := without.games[newCoin := next], live := s.live[move.gameId := move.after]), move.gameId, false,
        newCoin);
    }
  }

  /** A coin whose spend can be read is no longer tracked, and whatever is tracked
      in its place was made by that spend. */
  lemma SpentCoinIsDropped(
    env: Env, s: State, coin: CoinString, conditions: Conditions, solution: Option<R.RefereeSolution>)
    ensures
      var o := HandleSpend(env, s, coin, Some(conditions), solution);
      coin !in o.state.games && OnlyChildren(s.games, o, coin)
  {
    hide ThenQueue, ArmedSpend, RefereeSpend, ResolveMove, SlashEnding;
    ResolvedTracks(env, s, coin, conditions);
    var resolution := ResolveMove(env, s, coin, Some(conditions));
    if resolution.Continue? && coin in resolution.state.games {
      var next := resolution.state;
      var game := next.games[coin];
      var without := next.(games := next.games - {coin});
      QueueTracksNothingNew(env, without, [SlashEnding(env, game, conditions)]);
      ArmedTracks(env, without, game, coin, conditions);
      RefereeTracks(env, without, game, coin, conditions, solution);
    }
    if ChildOf(coin, coin) {
      ChildIsAnother(coin, coin);
    }
  }
}

/** The on-chain phase object (src/session_phases/on_chain.rs): its maps and queue
    are updated in place, each method proved against OnChainGames. */
module OnChainPhases {
  import opened Wrappers
  import opened Chain
  import opened Referees
  import opened OnChainGames
  import R = RefereeOnChain

  /** What a method hands back: the effects, or nothing when it fails. */
  type Effects = Option<seq<Notice>>

  ghost predicate Matches(o: Outcome, state: State, r: Effects) {
    match o
    case Done(next, notices) => r == Some(notices) && state == next
    case Failed(next) => r == None && state == next
  }

  class OnChainPhase {
    const env: Env
    const settling: map<nat, Referee>
    var games: map<CoinString, Tracked>
    var moves: map<CoinString, PendingMove>
    var queue: seq<Action>
    var live: map<nat, Seat>

    ghost function Now(): State
      reads this
    {
      State(games, moves, queue, live, settling)
    }

    constructor (setting: Env, start: State)
      ensures Now() == start && env == setting
    {
      env := setting;
      settling := start.settling;
      games, moves, queue, live := start.games, start.moves, start.queue, start.live;
    }

    method CurrentCoin(id: nat) returns (coin: Option<CoinString>)
      requires OneCoinPerGame(games)
      ensures coin == CoinOf(games, id)
    {
      coin := None;
      var todo := games.Keys;
      while todo != {}
        invariant todo <= games.Keys && coin == None
        invariant forall c :: c in games && c !in todo ==> games[c].gameId != id
        decreases |todo|
      {
        var c :| c in todo;
        if games[c].gameId == id {
          return Some(c);
        }
        todo := todo - {c};
      }
    }

    method BuildTimeoutClaim(id: nat, coin: CoinString) returns (claim: Option<bool>)
      ensures claim == BuildClaim(env, Now(), id, coin)
    {
      hide R.TimeoutConditions, FirstTo, TimeoutSpendFor;
      if id !in live && id !in settling { return None; }
      var r := if id in live then live[id].referee else settling[id];
      var built := TimeoutTransaction(r, coin.ph);
      if built.Err? { return None; }
      if built.value.None? { return Some(false); }
      var spend := built.value.value;
      var conditions := R.TimeoutConditions(ArgsOfCoin(r, coin.ph).Curried(), spend.moverPayout, spend.waiterPayout);
      if conditions.None? { return None; }
      return Some(FirstTo(conditions.value, env.ours, 1).Some?);
    }

    // --- Actions --------------------------------------------------------------------------

    /** The move is made on the live game, which is put back as it was until the
        move has landed. */
    method DoOnChainMove(id: nat, readable: Program, entropy: Bytes) returns (r: Effects)
      requires OneCoinPerGame(games)
      modifies this`games, this`moves, this`live
      ensures Matches(DoMove(env, old(Now()), id, readable, entropy), Now(), r)
    {
      hide MyTurnMakeMove, R.TransactionForMove, Referee.OutcomePuzzleHash;
      var coin := CurrentCoin(id);
      if coin.None? || coin.value in moves { return None; }
      var game := games[coin.value];
      if !game.ourTurn || id !in live { return None; }
      var before := live[id];
      var made := MyTurnMakeMove(env.clvm, before.referee, readable, entropy, env.stateNumber);
      if made.Err? { return None; }
      var (moved, wire) := made.value;
      live := live[id := Seat(moved, moved.OutcomePuzzleHash())];
      if R.TransactionForMove(moved).Err? { return None; }
      var after := live[id];
      live := live[id := before];
      assert live == old(live);
      if game.pendingSlash.None? && wire.details.basic.moverShare == before.referee.fixed.amount {
        games := WithoutGame(games, id);
        return Some([Settled(id, ForfeitedSkippedReveal, 0)]);
      }
      if before.lastPh != coin.value.ph { return None; }
      moves := moves[coin.value := PendingMove(after.lastPh, id, after)];
      return Some([Submitted(coin.value)]);
    }

    method AcceptSettlement(id: nat) returns (r: Effects)
      requires OneCoinPerGame(games)
      modifies this`games
      ensures Matches(DoSettle(env, old(Now()), id), Now(), r)
    {
      hide BuildClaim;
      var coin := CurrentCoin(id);
      if coin.None? { return None; }
      var game := games[coin.value];
      if game.ourTurn && OurShare(State(games, moves, queue, live, settling), id) == Some(0) {
        games := games - {coin.value};
        return Some([Settled(id, ForfeitedWeAccepted, 0)]);
      }
      var claim := BuildTimeoutClaim(id, coin.value);
      if claim.None? { return None; }
      games := games[coin.value := game.(claimArmed := true, finished := true)];
      return Some(if claim.value then [Registered(coin.value, true)] else []);
    }

    method DoOnChainAction(action: Action) returns (r: Effects)
      requires OneCoinPerGame(games)
      modifies this`games, this`moves, this`live
      ensures Matches(DoAction(env, old(Now()), action), Now(), r) && OneCoinPerGame(games)
    {
      ActionIsFine(env, Now(), action);
      hide OneCoinPerGame, DoMove, DoSettle;
      match action {
        case MoveAction(id, readable, entropy) => r := DoOnChainMove(id, readable, entropy);
        case SettleAction(id) => r := AcceptSettlement(id);
        case IdleAction => r := Some([]);
        case ObsoleteAction => r := None;
      }
    }

    /** Goes on until an action has had an effect or has failed. */
    method ProcessQueuedAction() returns (r: Effects)
      requires OneCoinPerGame(games)
      modifies this
      ensures Matches(ProcessQueue(env, old(Now())), Now(), r) && OneCoinPerGame(games)
    {
      hide DoAction, OneCoinPerGame;
      while queue != []
        invariant OneCoinPerGame(games)
        invariant ProcessQueue(env, old(Now())) == ProcessQueue(env, Now())
        decreases |queue|
      {
        var action := queue[0];
        ghost var before := Now();
        queue := queue[1..];
        assert Now() == before.(queue := before.queue[1..]);
        r := DoOnChainAction(action);
        if r.None? || r.value != [] {
          return;
        }
      }
      r := Some([]);
    }

    /** The effects so far, and those of the queue. */
    method Unblock(notices: seq<Notice>) returns (r: Effects)
      requires OneCoinPerGame(games)
      modifies this
      ensures Matches(ThenQueue(env, old(Now()), notices), Now(), r) && OneCoinPerGame(games)
    {
      hide ProcessQueue, OneCoinPerGame;
      var more := ProcessQueuedAction();
      r := if more.Some? then Some(notices + more.value) else None;
    }

    // --- A coin is spent ------------------------------------------------------------------

    /** Registers the coin a game goes on in, with its claim. */
    method RegisterCoin(id: nat, ourTurn: bool, newCoin: CoinString) returns (r: Effects)
      requires OneCoinPerGame(games)
      modifies this
      ensures Matches(Registering(env, old(Now()), id, ourTurn, newCoin), Now(), r)
    {
      hide ThenQueue, OneCoinPerGame, BuildClaim;
      var claim := BuildTimeoutClaim(id, newCoin);
      if claim.None? { return None; }
      r := Unblock([TurnChanged(id, ourTurn), Registered(newCoin, claim.value)]);
    }

    method ConfirmMove(move: PendingMove, game: Tracked, newCoin: CoinString) returns (r: Effects)
      requires OneCoinPerGame(games) && !TracksGame(games, game.gameId)
      modifies this
      ensures Matches(MoveLanded(env, old(Now()), move, game, newCoin), Now(), r)
    {
      hide Registering, OneCoinPerGame;
      if move.gameId !in live { return None; }
      live := live[move.gameId := move.after];
      var next := game.(puzzleHash := newCoin.ph, ourTurn := false, finished := live[move.gameId].referee.IsGameOver());
      PutBack(games, newCoin, next);
      games := games[newCoin := next];
      r := RegisterCoin(move.gameId, false, newCoin);
    }

    method SpendArmed(game: Tracked, coin: CoinString, conditions: Conditions) returns (r: Effects)
      requires OneCoinPerGame(games) && !TracksGame(games, game.gameId)
      modifies this
      ensures Matches(ArmedSpend(env, old(Now()), game, coin, conditions), Now(), r)
    {
      hide ThenQueue, FirstTo, R.FirstCreate, CleanOr, UnlessSent, OneCoinPerGame, Registering;
      var ours := FirstTo(conditions, env.ours, 0);
      if ours.Some? {
        r := Unblock(UnlessSent(game, CleanOr(game, WeAccepted), ours.value));
        return;
      }
      if FirstTo(conditions, env.theirs, 0).Some? {
        r := Unblock(UnlessSent(game, CleanOr(game, WeAccepted), 0));
        return;
      }
      var created := R.FirstCreate(conditions);
      if created.None? {
        r := Unblock([]);
        return;
      }
      var newCoin := CoinString(IdOf(coin), created.value.0, created.value.1);
      var next := game.(puzzleHash := newCoin.ph, ourTurn := !game.ourTurn, claimArmed := true);
      PutBack(games, newCoin, next);
      games := games[newCoin := next];
      r := RegisterCoin(game.gameId, !game.ourTurn, newCoin);
    }

    method EmitLoserForfeitTerminal(id: nat) returns (r: Effects)
      requires OneCoinPerGame(games)
      modifies this
      ensures
        var forfeited := old(Now()).(games := WithoutGame(old(games), id));
        Matches(ThenQueue(env, forfeited, [Settled(id, ForfeitedOpponentWon, 0)]), Now(), r)
    {
      hide ThenQueue, OneCoinPerGame;
      Dropped(games, id);
      games := WithoutGame(games, id);
      r := Unblock([Settled(id, ForfeitedOpponentWon, 0)]);
    }

    method Advance(game: Tracked, newCoin: CoinString, myTurn: bool) returns (r: Effects)
      requires OneCoinPerGame(games) && !TracksGame(games, game.gameId)
      modifies this
      ensures Matches(Advanced(env, old(Now()), game, newCoin, myTurn), Now(), r)
    {
      hide ThenQueue, OneCoinPerGame, OurShare, RefereeOf, WithoutGame, Registering, BuildClaim;
      var id := game.gameId;
      if id !in live { return None; }
      var gameOver := live[id].referee.IsGameOver();
      var moved := game.(puzzleHash := newCoin.ph, ourTurn := myTurn, finished := game.finished || gameOver);
      var auto := AutoSettles(State(games, moves, queue, live, settling), id, myTurn);
      PutBack(games, newCoin, moved);
      PutBack(games, newCoin, moved.(finished := true));
      games := games[newCoin := moved];
      if auto.None? { return None; }
      if auto.value {
        assert games[newCoin := moved.(finished := true)] == old(games)[newCoin := moved.(finished := true)];
        games := games[newCoin := moved.(finished := true)];
        var claim := BuildTimeoutClaim(id, newCoin);
        if claim.None? { return None; }
        queue := queue + [SettleAction(id)];
        r := Unblock([TurnChanged(id, myTurn), Registered(newCoin, claim.value)]);
      } else if myTurn && gameOver {
        r := EmitLoserForfeitTerminal(id);
      } else {
        r := RegisterCoin(id, myTurn, newCoin);
      }
    }

    /** What the referee has made of a spend. */
    method FollowSpend(game: Tracked, coin: CoinString, slash: bool, info: SpentInfo) returns (r: Effects)
      requires OneCoinPerGame(games) && !TracksGame(games, game.gameId)
      modifies this
      ensures Matches(ReadSpend(env, old(Now()), game, coin, slash, info), Now(), r)
    {
      hide ThenQueue, OneCoinPerGame, Advanced, UnlessSent, TimeoutOutcome, UnexpectedOnOurTurn, TracksGame;
      if UnexpectedOnOurTurn(game, info) {
        r := Unblock([EndedError(game.gameId)]);
        return;
      }
      match info {
        case Expected(ph, amount) =>
          r := Advance(game, CoinString(IdOf(coin), ph, amount), !game.ourTurn);
        case Timedout(reward) =>
          r := Unblock(
            if !game.ourTurn && slash then UnlessSent(game, OpponentSlashedUs, 0)
            else UnlessSent(game, TimeoutOutcome(game), if reward.Some? then reward.value else 0));
        case Moved(newCoin) =>
          if newCoin.parent != IdOf(coin) { return None; }
          r := Advance(game, newCoin, true);
        case SlashReward(slashCoin, amount, share) =>
          games := games[slashCoin :=
            game.(pendingSlash := Some(amount), cheatingShare := Some(share), ourTurn := false)];
          r := Some([Submitted(slashCoin), IllegalMove(game.gameId), Registered(slashCoin, false)]);
        case OurReward(amount) => r := Unblock(UnlessSent(game, TimeoutOutcome(game), amount));
      }
    }

    method SpendByReferee(game: Tracked, coin: CoinString, conditions: Conditions, solution: Option<R.RefereeSolution>)
      returns (r: Effects)
      requires OneCoinPerGame(games) && !TracksGame(games, game.gameId)
      modifies this
      ensures Matches(RefereeSpend(env, old(Now()), game, coin, conditions, solution), Now(), r)
    {
      hide ThenQueue, OneCoinPerGame, ReadSpend, GameCoinSpent, TracksGame;
      if game.gameId !in live {
        r := Unblock([]);
        return;
      }
      if solution.None? { return None; }
      var read := GameCoinSpent(env, live[game.gameId], coin, conditions, solution.value);
      if read.None? {
        r := Unblock([EndedError(game.gameId)]);
        return;
      }
      live := live[game.gameId := read.value.0];
      r := FollowSpend(game, coin, solution.value.SlashSolution?, read.value.1);
    }

    /** A move of ours that waited on the coin, if there was one.  `resolved` says
        whether the spend is dealt with. */
    method ResolvePendingMove(coin: CoinString, conditions: Option<Conditions>) returns (resolved: bool, r: Effects)
      requires OneCoinPerGame(games)
      modifies this
      ensures
        match ResolveMove(env, old(Now()), coin, conditions)
        case Resolved(o) => resolved && Matches(o, Now(), r)
        case Continue(next) => !resolved && Now() == next && OneCoinPerGame(games)
    {
      hide ThenQueue, OneCoinPerGame, MoveLanded, R.FirstCreate, CleanOr, TracksGame;
      resolved, r := false, None;
      if coin !in moves {
        return;
      }
      var move := moves[coin];
      moves := moves - {coin};
      if conditions.None? {
        return true, None;
      }
      var created := R.FirstCreate(conditions.value);
      if created.None? {
        return;
      }
      if coin !in games {
        return true, None;
      }
      var game := games[coin];
      Replaced(games, coin, game.(ourTurn := false));
      TakenInHand(games, coin);
      assert (games - {coin})[coin := game.(ourTurn := false)] == games[coin := game.(ourTurn := false)];
      games := games - {coin};
      resolved := true;
      if created.value.0 == move.expectedPh {
        r := ConfirmMove(move, game, CoinString(IdOf(coin), created.value.0, created.value.1));
        return;
      }
      if created.value.0 == env.theirs {
        r := Unblock([Settled(game.gameId, CleanOr(game, AttemptToMoveFailed), 0)]);
        return;
      }
      resolved := false;
      games := games[coin := game.(ourTurn := false)];
    }

    method HandleGameCoinSpent(coin: CoinString, conditions: Option<Conditions>, solution: Option<R.RefereeSolution>)
      returns (r: Effects)
      requires OneCoinPerGame(games)
      modifies this
      ensures Matches(HandleSpend(env, old(Now()), coin, conditions, solution), Now(), r)
    {
      hide ThenQueue, OneCoinPerGame, ResolveMove, ArmedSpend, RefereeSpend, SlashEnding, TracksGame;
      var resolved, effects := ResolvePendingMove(coin, conditions);
      if resolved {
        return effects;
      }
      if coin !in games {
        return Some([]);
      }
      var game := games[coin];
      TakenInHand(games, coin);
      games := games - {coin};
      if conditions.None? {
        return None;
      }
      if game.pendingSlash.Some? {
        r := Unblock([SlashEnding(env, game, conditions.value)]);
      } else if game.claimArmed {
        r := SpendArmed(game, coin, conditions.value);
      } else {
        r := SpendByReferee(game, coin, conditions.value, solution);
      }
    }

    /** The host has no puzzle and solution for the spent coin. */
    method CoinSpentWithoutSolution(coin: CoinString) returns (r: Effects)
      requires OneCoinPerGame(games)
      modifies this
      ensures Matches(HandleUnknownSpend(env, old(Now()), coin), Now(), r)
    {
      hide ThenQueue, OneCoinPerGame;
      if coin !in games {
        return Some([]);
      }
      var game := games[coin];
      TakenInHand(games, coin);
      games := games - {coin};
      r := Unblock([EndedError(game.gameId)]);
    }
  }
}

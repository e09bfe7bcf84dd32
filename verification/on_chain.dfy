/** Games on chain (src/session_phases/on_chain.rs): which coin each game has now,
    whose turn it is there, and how each game ends, with the referees that read
    every spend. */
module OnChainGames {
  import opened Wrappers
  import opened Chain
  import opened Referees
  import R = RefereeOnChain
  import Channels
  import ChannelGames

  datatype Tracked = Tracked(
    gameId: nat,
    puzzleHash: PuzzleHash,
    ourTurn: bool,
    pendingSlash: Option<nat>,
    cheatingShare: Option<nat>,
    claimArmed: bool,
    notificationSent: bool,
    finished: bool)

  /** A live game: its referee, and the hash its coin was last known by. */
  datatype Seat = Seat(referee: Referee, lastPh: PuzzleHash)

  /** A move of ours submitted on chain, with the seat to take once it lands. */
  datatype PendingMove = PendingMove(expectedPh: PuzzleHash, gameId: nat, after: Seat)

  datatype Action =
    | MoveAction(gameId: nat, readable: Program, entropy: Bytes)
    | SettleAction(gameId: nat)
    | IdleAction
    | ObsoleteAction

  datatype Settlement =
    | SettledCleanly
    | AttemptToMoveFailed
    | OpponentCheated
    | SlashedOpponent
    | WeAccepted
    | TimedOutWaitingForOurMove
    | OpponentTimedOut
    | OpponentSlashedUs
    | ForfeitedOpponentWon
    | ForfeitedSkippedReveal
    | ForfeitedWeAccepted

  /** What the user and the wallet are told; the first two end a game.  A coin is
      registered with or without a claim of its timeout. */
  datatype Notice =
    | Settled(gameId: nat, outcome: Settlement, share: nat)
    | EndedError(gameId: nat)
    | TurnChanged(gameId: nat, ourTurn: bool)
    | IllegalMove(gameId: nat)
    | Registered(coin: CoinString, claim: bool)
    | Submitted(coin: CoinString)

  /** `settling` are the games whose result was accepted off chain. */
  datatype State = State(
    games: map<CoinString, Tracked>,
    moves: map<CoinString, PendingMove>,
    queue: seq<Action>,
    live: map<nat, Seat>,
    settling: map<nat, Referee>)

  /** On an error the effects gathered so far are lost, the state is not. */
  datatype Outcome = Done(state: State, notices: seq<Notice>) | Failed(state: State)

  /** What never changes: the programs, the two reward hashes, our state number. */
  datatype Env = Env(clvm: Clvm, ours: PuzzleHash, theirs: PuzzleHash, stateNumber: nat)

  type Conditions = seq<R.PuzzleCondition>

  // ---------------------------------------------------------------------------
  // Referees of games
  // ---------------------------------------------------------------------------

  function RefereeOf(s: State, id: nat): Option<Referee> {
    if id in s.live then Some(s.live[id].referee)
    else if id in s.settling then Some(s.settling[id])
    else None
  }

  function OurShare(s: State, id: nat): Option<nat> {
    match RefereeOf(s, id)
    case None => None
    case Some(r) => if r.OurCurrentShare().Ok? then Some(r.OurCurrentShare().value) else None
  }

  /** Amount of the first coin created for the puzzle hash, with at least `least`. */
  function FirstTo(conditions: Conditions, ph: PuzzleHash, least: nat): Option<nat> {
    if conditions == [] then None
    else if conditions[0].Create? && conditions[0].ph == ph && conditions[0].amount >= least then
      Some(conditions[0].amount)
    else FirstTo(conditions[1..], ph, least)
  }

  /** Whether a coin is registered with a claim: its timeout must pay us. None
      stands for an error. */
  function BuildClaim(env: Env, s: State, id: nat, coin: CoinString): Option<bool> {
    match RefereeOf(s, id)
    case None => None
    case Some(r) =>
      match TimeoutTransaction(r, coin.ph)
      case Err(_) => None
      case Ok(None) => Some(false)
      case Ok(Some(spend)) =>
        match R.TimeoutConditions(ArgsOfCoin(r, coin.ph).Curried(), spend.moverPayout, spend.waiterPayout)
        case None => None
        case Some(conditions) => Some(FirstTo(conditions, env.ours, 1).Some?)
  }

  // ---------------------------------------------------------------------------
  // Queued actions
  // ---------------------------------------------------------------------------

  ghost predicate TracksGame(games: map<CoinString, Tracked>, id: nat) {
    exists c :: c in games && games[c].gameId == id
  }

  ghost function CoinOf(games: map<CoinString, Tracked>, id: nat): (r: Option<CoinString>)
    ensures r.Some? ==> r.value in games && games[r.value].gameId == id
    ensures r.None? ==> !TracksGame(games, id)
  {
    if TracksGame(games, id) then
      var c :| c in games && games[c].gameId == id;
      Some(c)
    else None
  }

  function WithoutGame(games: map<CoinString, Tracked>, id: nat): map<CoinString, Tracked> {
    map c | c in games && games[c].gameId != id :: games[c]
  }

  /** The referee makes the move and is put back until the move lands; when the
      transaction cannot be built it is not put back. */
  ghost function DoMove(env: Env, s: State, id: nat, readable: Program, entropy: Bytes): Outcome {
    var coin := CoinOf(s.games, id);
    if coin.None? || coin.value in s.moves || !s.games[coin.value].ourTurn || id !in s.live then Failed(s)
    else
      var seat := s.live[id];
      match MyTurnMakeMove(env.clvm, seat.referee, readable, entropy, env.stateNumber)
      case Err(_) => Failed(s)
      case Ok((moved, wire)) =>
        var after := Seat(moved, moved.OutcomePuzzleHash());
        if R.TransactionForMove(moved).Err? then Failed(s.(live := s.live[id := after]))
        else if s.games[coin.value].pendingSlash.None? && wire.details.basic.moverShare == seat.referee.fixed.amount then
          Done(s.(games := WithoutGame(s.games, id)), [Settled(id, ForfeitedSkippedReveal, 0)])
        else if seat.lastPh != coin.value.ph then Failed(s)
        else
          Done(s.(moves := s.moves[coin.value := PendingMove(after.lastPh, id, after)]), [Submitted(coin.value)])
  }

  ghost function DoSettle(env: Env, s: State, id: nat): Outcome {
    var coin := CoinOf(s.games, id);
    if coin.None? then Failed(s)
    else
      var game := s.games[coin.value];
      if game.ourTurn && OurShare(s, id) == Some(0) then
        Done(s.(games := s.games - {coin.value}), [Settled(id, ForfeitedWeAccepted, 0)])
      else
        match BuildClaim(env, s, id, coin.value)
        case None => Failed(s)
        case Some(claim) =>
          Done(
            s.(games := s.games[coin.value := game.(claimArmed := true, finished := true)]),
            if claim then [Registered(coin.value, true)] else [])
  }

  ghost function DoAction(env: Env, s: State, action: Action): (o: Outcome)
    ensures o.state.queue == s.queue
  {
    match action
    case MoveAction(id, readable, entropy) => DoMove(env, s, id, readable, entropy)
    case SettleAction(id) => DoSettle(env, s, id)
    case IdleAction => Done(s, [])
    case ObsoleteAction => Failed(s)
  }

  /** Goes on until an action has had an effect. */
  ghost function ProcessQueue(env: Env, s: State): Outcome
    decreases |s.queue|
  {
    if s.queue == [] then Done(s, [])
    else
      match DoAction(env, s.(queue := s.queue[1..]), s.queue[0])
      case Failed(next) => Failed(next)
      case Done(next, notices) => if notices != [] then Done(next, notices) else ProcessQueue(env, next)
  }

  ghost function ThenQueue(env: Env, s: State, notices: seq<Notice>): Outcome {
    match ProcessQueue(env, s)
    case Done(next, more) => Done(next, notices + more)
    case Failed(next) => Failed(next)
  }

  // ---------------------------------------------------------------------------
  // A coin of ours is spent
  // ---------------------------------------------------------------------------

  function CleanOr(game: Tracked, outcome: Settlement): Settlement {
    if game.finished then SettledCleanly else outcome
  }

  function TimeoutOutcome(game: Tracked): Settlement {
    CleanOr(game, if game.ourTurn then TimedOutWaitingForOurMove else OpponentTimedOut)
  }

  function UnlessSent(game: Tracked, outcome: Settlement, share: nat): seq<Notice> {
    if game.notificationSent then [] else [Settled(game.gameId, outcome, share)]
  }

  /** The game goes on in a new coin, registered with its claim. */
  ghost function Registering(env: Env, s: State, id: nat, ourTurn: bool, newCoin: CoinString): Outcome {
    match BuildClaim(env, s, id, newCoin)
    case None => Failed(s)
    case Some(claim) => ThenQueue(env, s, [TurnChanged(id, ourTurn), Registered(newCoin, claim)])
  }

  /** The spend resolves a move of ours that was waiting on this coin: it landed,
      or the opponent's timeout came first, or something else happened. */
  datatype Resolution = Resolved(outcome: Outcome) | Continue(state: State)

  ghost function ResolveMove(env: Env, s: State, coin: CoinString, conditions: Option<Conditions>): Resolution {
    if coin !in s.moves then Continue(s)
    else
      var move := s.moves[coin];
      var taken := s.(moves := s.moves - {coin});
      if conditions.None? then Resolved(Failed(taken))
      else if R.FirstCreate(conditions.value).None? then Continue(taken)
      else if coin !in s.games then Resolved(Failed(taken))
      else
        var (ph, amount) := R.FirstCreate(conditions.value).value;
        var game := s.games[coin];
        var without := taken.(games := s.games - {coin});
        if ph == move.expectedPh then Resolved(MoveLanded(env, without, move, game, CoinString(IdOf(coin), ph, amount)))
        else if ph == env.theirs then
          Resolved(ThenQueue(env, without, [Settled(game.gameId, CleanOr(game, AttemptToMoveFailed), 0)]))
        else Continue(taken.(games := s.games[coin := game.(ourTurn := false)]))
  }

  ghost function MoveLanded(env: Env, s: State, move: PendingMove, game: Tracked, newCoin: CoinString): Outcome {
    if move.gameId !in s.live then Failed(s)
    else
      var next := game.(puzzleHash := newCoin.ph, ourTurn := false, finished := move.after.referee.IsGameOver());
      Registering(
        env, s.(games := s.games[newCoin := next], live := s.live[move.gameId := move.after]), move.gameId, false, newCoin)
  }

  /** We were slashing: the coin pays us, or the opponent's timeout landed first. */
  function SlashEnding(env: Env, game: Tracked, conditions: Conditions): Notice {
    if FirstTo(conditions, env.theirs, 1).Some? then
      Settled(game.gameId, OpponentCheated, if game.cheatingShare.Some? then game.cheatingShare.value else 0)
    else
      match FirstTo(conditions, env.ours, 1)
      case Some(amount) => Settled(game.gameId, SlashedOpponent, amount)
      case None => EndedError(game.gameId)
  }

  /** We have accepted the result and wait for the timeout to pay out. */
  ghost function ArmedSpend(env: Env, s: State, game: Tracked, coin: CoinString, conditions: Conditions): Outcome {
    var ours := FirstTo(conditions, env.ours, 0);
    if ours.Some? then ThenQueue(env, s, UnlessSent(game, CleanOr(game, WeAccepted), ours.value))
    else if FirstTo(conditions, env.theirs, 0).Some? then
      ThenQueue(env, s, UnlessSent(game, CleanOr(game, WeAccepted), 0))
    else
      match R.FirstCreate(conditions)
      case None => ThenQueue(env, s, [])
      case Some((ph, amount)) =>
        var newCoin := CoinString(IdOf(coin), ph, amount);
        var next := game.(puzzleHash := ph, ourTurn := !game.ourTurn, claimArmed := true);
        Registering(env, s.(games := s.games[newCoin := next]), game.gameId, next.ourTurn, newCoin)
  }

  /** Whether the game settles by itself on our turn; None is an error. */
  function AutoSettles(s: State, id: nat, myTurn: bool): Option<bool> {
    if !myTurn then Some(false)
    else if OurShare(s, id).None? then None
    else if OurShare(s, id).value == RefereeOf(s, id).value.fixed.amount then Some(true)
    else if id !in s.live then None
    else Some(s.live[id].referee.IsGameOver() && OurShare(s, id).value > 0)
  }

  /** The game goes on in a new coin, or ends because we are left with nothing. */
  ghost function Advanced(env: Env, s: State, game: Tracked, newCoin: CoinString, myTurn: bool): Outcome {
    var id := game.gameId;
    if id !in s.live then Failed(s)
    else
      var gameOver := s.live[id].referee.IsGameOver();
      var moved := game.(puzzleHash := newCoin.ph, ourTurn := myTurn, finished := game.finished || gameOver);
      match AutoSettles(s, id, myTurn)
      case None => Failed(s.(games := s.games[newCoin := moved]))
      case Some(true) =>
        AutoSettling(env, s.(games := s.games[newCoin := moved.(finished := true)]), id, newCoin)
      case Some(false) =>
        if myTurn && gameOver then
          ThenQueue(
            env, s.(games := WithoutGame(s.games[newCoin := moved], id)), [Settled(id, ForfeitedOpponentWon, 0)])
        else Registering(env, s.(games := s.games[newCoin := moved]), id, myTurn, newCoin)
  }

  /** The settlement is queued once the coin is registered. */
  ghost function AutoSettling(env: Env, s: State, id: nat, newCoin: CoinString): Outcome {
    match BuildClaim(env, s, id, newCoin)
    case None => Failed(s)
    case Some(claim) =>
      ThenQueue(
        env, s.(queue := s.queue + [SettleAction(id)]), [TurnChanged(id, true), Registered(newCoin, claim)])
  }

  datatype SpentInfo =
    | OurReward(amount: nat)
    | Timedout(reward: Option<nat>)
    | Expected(ph: PuzzleHash, amount: nat)
    | Moved(newCoin: CoinString)
    | SlashReward(slashCoin: CoinString, slashAmount: nat, moverShare: nat)

  function InfoOf(result: R.SpentResult): SpentInfo {
    match result
    case Expected(_, ph, amount) => Expected(ph, amount)
    case Timedout(reward) => Timedout(if reward.Some? then Some(reward.value.amount) else None)
    case Moved(coin, _, _, _) => Moved(coin)
    case Slashed(spend, reward, share) => SlashReward(spend.coin, reward.amount, share)
  }

  /** How a spend of a live game's coin is read, and the seat it leaves; None is
      an error.  A coin known from our own states is expected without asking the
      referee. */
  function GameCoinSpent(env: Env, seat: Seat, coin: CoinString, conditions: Conditions, solution: R.RefereeSolution)
    : Option<(Seat, SpentInfo)>
  {
    var r := seat.referee;
    match R.FirstCreate(conditions)
    case None => None
    case Some((ph, amount)) =>
      if ph == env.ours then Some((seat, OurReward(amount)))
      else if (ph == r.OnChainPuzzleHash() || ph == r.OutcomePuzzleHash()) && coin.ph != ph then
        Some((seat.(lastPh := ph), Expected(ph, amount)))
      else if r.IsGameOver() && solution.MoveSolution? then Some((seat.(lastPh := ph), Expected(ph, amount)))
      else
        match R.CoinSpent(env.clvm, r, coin, conditions, env.stateNumber, solution)
        case Err(_) => None
        case Ok((next, result)) =>
          var after := if next.Some? then next.value else r;
          Some((Seat(after, if result.Expected? then result.ph else after.OnChainPuzzleHash()), InfoOf(result)))
  }

  function UnexpectedOnOurTurn(game: Tracked, info: SpentInfo): bool {
    game.ourTurn && !(info.Expected? || info.Timedout? || info.OurReward?)
  }

  ghost function RefereeSpend(
    env: Env, s: State, game: Tracked, coin: CoinString, conditions: Conditions, solution: Option<R.RefereeSolution>): Outcome
  {
    if game.gameId !in s.live then ThenQueue(env, s, [])
    else if solution.None? then Failed(s)
    else
      match GameCoinSpent(env, s.live[game.gameId], coin, conditions, solution.value)
      case None => ThenQueue(env, s, [EndedError(game.gameId)])
      case Some((seat, info)) =>
        ReadSpend(env, s.(live := s.live[game.gameId := seat]), game, coin, solution.value.SlashSolution?, info)
  }

  ghost function ReadSpend(env: Env, s: State, game: Tracked, coin: CoinString, slash: bool, info: SpentInfo): Outcome {
    if UnexpectedOnOurTurn(game, info) then ThenQueue(env, s, [EndedError(game.gameId)])
    else
      match info
      case Expected(ph, amount) => Advanced(env, s, game, CoinString(IdOf(coin), ph, amount), !game.ourTurn)
      case Timedout(reward) =>
        ThenQueue(
          env, s,
          if !game.ourTurn && slash then UnlessSent(game, OpponentSlashedUs, 0)
          else UnlessSent(game, TimeoutOutcome(game), if reward.Some? then reward.value else 0))
      case Moved(newCoin) =>
        if newCoin.parent != IdOf(coin) then Failed(s) else Advanced(env, s, game, newCoin, true)
      case SlashReward(slashCoin, amount, share) =>
        Done(
          s.(games := s.games[slashCoin :=
            game.(pendingSlash := Some(amount), cheatingShare := Some(share), ourTurn := false)]),
          [Submitted(slashCoin), IllegalMove(game.gameId), Registered(slashCoin, false)])
      case OurReward(amount) => ThenQueue(env, s, UnlessSent(game, TimeoutOutcome(game), amount))
  }

  ghost function HandleSpend(
    env: Env, s: State, coin: CoinString, conditions: Option<Conditions>, solution: Option<R.RefereeSolution>): Outcome
  {
    match ResolveMove(env, s, coin, conditions)
    case Resolved(outcome) => outcome
    case Continue(next) =>
      if coin !in next.games then Done(next, [])
      else
        var game := next.games[coin];
        var without := next.(games := next.games - {coin});
        if conditions.None? then Failed(without)
        else if game.pendingSlash.Some? then ThenQueue(env, without, [SlashEnding(env, game, conditions.value)])
        else if game.claimArmed then ArmedSpend(env, without, game, coin, conditions.value)
        else RefereeSpend(env, without, game, coin, conditions.value, solution)
  }

  /** The spend of a coin for which no puzzle and solution can be had. */
  ghost function HandleUnknownSpend(env: Env, s: State, coin: CoinString): Outcome {
    if coin !in s.games then Done(s, [])
    else ThenQueue(env, s.(games := s.games - {coin}), [EndedError(s.games[coin].gameId)])
  }

  // ---------------------------------------------------------------------------
  // Runs
  // ---------------------------------------------------------------------------

  /** `conditions` and `solution` are None when they do not parse. */
  datatype Event =
    | CoinSpent(coin: CoinString, conditions: Option<Conditions>, solution: Option<R.RefereeSolution>)
    | CoinSpentUnknown(coin: CoinString)
    | UserAction(action: Action)

  ghost function Handle(env: Env, s: State, e: Event): Outcome {
    match e
    case CoinSpent(coin, conditions, solution) => HandleSpend(env, s, coin, conditions, solution)
    case CoinSpentUnknown(coin) => HandleUnknownSpend(env, s, coin)
    case UserAction(action) => DoAction(env, s, action)
  }

  function NoticesOf(o: Outcome): seq<Notice> {
    if o.Done? then o.notices else []
  }

  /** State after the events, and everything told on the way; an error in one
      event does not stop the next. */
  ghost function Run(env: Env, s: State, events: seq<Event>): (State, seq<Notice>)
    decreases |events|
  {
    if events == [] then (s, [])
    else
      var o := Handle(env, s, events[0]);
      var (end, notices) := Run(env, o.state, events[1..]);
      (end, NoticesOf(o) + notices)
  }

  // ---------------------------------------------------------------------------
  // At most one ending
  // ---------------------------------------------------------------------------

  function Ends(n: Notice, id: nat): nat {
    if (n.Settled? || n.EndedError?) && n.gameId == id then 1 else 0
  }

  function Endings(notices: seq<Notice>, id: nat): nat {
    if notices == [] then 0 else Ends(notices[0], id) + Endings(notices[1..], id)
  }

  lemma {:induction false} EndingsAdd(a: seq<Notice>, b: seq<Notice>, id: nat)
    ensures Endings(a + b, id) == Endings(a, id) + Endings(b, id)
  {
    if a == [] {
      assert [] + b == b;
    } else {
      assert (a + b)[1..] == a[1..] + b;
      EndingsAdd(a[1..], b, id);
    }
  }

  ghost function Tracks(games: map<CoinString, Tracked>, id: nat): nat {
    if TracksGame(games, id) then 1 else 0
  }

  ghost predicate OneCoinPerGame(games: map<CoinString, Tracked>) {
    forall c, d :: c in games && d in games && games[c].gameId == games[d].gameId ==> c == d
  }

  /** A game that is told to end was tracked, and is not tracked any more. */
  ghost predicate Settles(before: map<CoinString, Tracked>, after: map<CoinString, Tracked>, notices: seq<Notice>) {
    && OneCoinPerGame(after)
    && forall id :: Endings(notices, id) + Tracks(after, id) <= Tracks(before, id)
  }

  lemma SettlesThen(
    a: map<CoinString, Tracked>, b: map<CoinString, Tracked>, c: map<CoinString, Tracked>, m: seq<Notice>, n: seq<Notice>)
    requires Settles(a, b, m) && Settles(b, c, n)
    ensures Settles(a, c, m + n)
  {
    hide OneCoinPerGame, Tracks;
    forall id
      ensures Endings(m + n, id) + Tracks(c, id) <= Tracks(a, id)
    {
      EndingsAdd(m, n, id);
    }
  }

  lemma QuietNotices(notices: seq<Notice>, id: nat)
    requires |notices| <= 3 && forall i :: 0 <= i < |notices| ==> Ends(notices[i], id) == 0
    ensures Endings(notices, id) == 0
  {
    if notices != [] {
      assert forall i :: 0 <= i < |notices[1..]| ==> notices[1..][i] == notices[i + 1];
      if notices[1..] != [] {
        assert forall i :: 0 <= i < |notices[1..][1..]| ==> notices[1..][1..][i] == notices[i + 2];
      }
    }
  }

  ghost predicate Quiet(notices: seq<Notice>) {
    forall id :: Endings(notices, id) == 0
  }

  /** Taking a coin out stops tracking its game, and nothing else. */
  lemma TakenOut(games: map<CoinString, Tracked>, coin: CoinString)
    requires OneCoinPerGame(games) && coin in games
    ensures OneCoinPerGame(games - {coin})
    ensures forall id :: Tracks(games - {coin}, id) == if id == games[coin].gameId then 0 else Tracks(games, id)
  {
    var rest := games - {coin};
    forall id
      ensures Tracks(rest, id) == if id == games[coin].gameId then 0 else Tracks(games, id)
    {
      if id != games[coin].gameId && TracksGame(games, id) {
        var c :| c in games && games[c].gameId == id;
        assert c in rest;
      }
    }
  }

  /** Putting a game in under a new coin tracks that game and no other. */
  lemma PutBack(games: map<CoinString, Tracked>, coin: CoinString, game: Tracked)
    requires OneCoinPerGame(games) && !TracksGame(games, game.gameId)
    ensures OneCoinPerGame(games[coin := game])
    ensures forall id :: Tracks(games[coin := game], id) <= if id == game.gameId then 1 else Tracks(games, id)
  {
    var next := games[coin := game];
    forall id
      ensures Tracks(next, id) <= if id == game.gameId then 1 else Tracks(games, id)
    {
      if id != game.gameId && TracksGame(next, id) {
        var c :| c in next && next[c].gameId == id;
        assert c in games && games[c].gameId == id;
      }
    }
  }

  lemma Replaced(games: map<CoinString, Tracked>, coin: CoinString, game: Tracked)
    requires OneCoinPerGame(games) && coin in games && games[coin].gameId == game.gameId
    ensures OneCoinPerGame(games[coin := game])
    ensures forall id :: Tracks(games[coin := game], id) == Tracks(games, id)
  {
    var next := games[coin := game];
    forall id
      ensures Tracks(next, id) == Tracks(games, id)
    {
      if TracksGame(games, id) {
        var c :| c in games && games[c].gameId == id;
        assert c in next && next[c].gameId == id;
      }
      if TracksGame(next, id) {
        var c :| c in next && next[c].gameId == id;
        assert c in games && games[c].gameId == id;
      }
    }
  }

  lemma Dropped(games: map<CoinString, Tracked>, id: nat)
    requires OneCoinPerGame(games)
    ensures OneCoinPerGame(WithoutGame(games, id))
    ensures forall x :: Tracks(WithoutGame(games, id), x) == if x == id then 0 else Tracks(games, x)
  {
    var rest := WithoutGame(games, id);
    forall x
      ensures Tracks(rest, x) == if x == id then 0 else Tracks(games, x)
    {
      if x != id && TracksGame(games, x) {
        var c :| c in games && games[c].gameId == x;
        assert c in rest;
      }
    }
  }

  // --- Every step settles -------------------------------------------------------------

  ghost predicate Fine(s: State, o: Outcome) {
    Settles(s.games, o.state.games, NoticesOf(o))
  }

  lemma OneNotice(n: Notice, id: nat)
    ensures Endings([n], id) == Ends(n, id)
  {
    assert [n][1..] == [];
  }

  lemma NothingSettles(games: map<CoinString, Tracked>)
    requires OneCoinPerGame(games)
    ensures Settles(games, games, [])
  {
  }

  lemma ActionIsFine(env: Env, s: State, action: Action)
    requires OneCoinPerGame(s.games)
    ensures Fine(s, DoAction(env, s, action))
  {
    hide Tracks, OneCoinPerGame, BuildClaim, OurShare, MyTurnMakeMove, R.TransactionForMove, Referee.OutcomePuzzleHash;
    NothingSettles(s.games);
    if action.MoveAction? || action.SettleAction? {
      var id := action.gameId;
      var coin := CoinOf(s.games, id);
      forall x
        ensures Endings([Settled(id, ForfeitedSkippedReveal, 0)], x) == if x == id then 1 else 0
        ensures Endings([Settled(id, ForfeitedWeAccepted, 0)], x) == if x == id then 1 else 0
      {
        OneNotice(Settled(id, ForfeitedSkippedReveal, 0), x);
        OneNotice(Settled(id, ForfeitedWeAccepted, 0), x);
      }
      if coin.Some? {
        assert Tracks(s.games, id) == 1 by { TrackedCounts(s.games, coin.value); }
        forall x
          ensures Endings([Submitted(coin.value)], x) == 0 && Endings([Registered(coin.value, true)], x) == 0
        {
          OneNotice(Submitted(coin.value), x);
          OneNotice(Registered(coin.value, true), x);
        }
        Dropped(s.games, id);
        TakenOut(s.games, coin.value);
        Replaced(s.games, coin.value, s.games[coin.value].(claimArmed := true, finished := true));
      }
    }
  }

  lemma TrackedCounts(games: map<CoinString, Tracked>, coin: CoinString)
    requires coin in games
    ensures Tracks(games, games[coin].gameId) == 1
  {
  }

  lemma {:induction false} QueueIsFine(env: Env, s: State)
    requires OneCoinPerGame(s.games)
    ensures Fine(s, ProcessQueue(env, s))
    decreases |s.queue|
  {
    hide OneCoinPerGame, DoAction, Tracks;
    if s.queue == [] {
      NothingSettles(s.games);
    } else {
      var rest := s.(queue := s.queue[1..]);
      var o := DoAction(env, rest, s.queue[0]);
      ActionIsFine(env, rest, s.queue[0]);
      if o.Done? && o.notices == [] {
        QueueIsFine(env, o.state);
        var end := ProcessQueue(env, o.state);
        SettlesThen(s.games, o.state.games, end.state.games, [], NoticesOf(end));
        assert [] + NoticesOf(end) == NoticesOf(end);
      }
    }
  }

  lemma FailureLosesNotices(a: map<CoinString, Tracked>, b: map<CoinString, Tracked>, notices: seq<Notice>)
    requires Settles(a, b, notices)
    ensures Settles(a, b, [])
  {
    hide OneCoinPerGame, Tracks;
  }

  lemma ThenQueueIsFine(before: map<CoinString, Tracked>, env: Env, s: State, notices: seq<Notice>)
    requires Settles(before, s.games, notices)
    ensures
      var o := ThenQueue(env, s, notices);
      Settles(before, o.state.games, NoticesOf(o))
  {
    hide OneCoinPerGame, Tracks, ProcessQueue;
    assert OneCoinPerGame(s.games);
    QueueIsFine(env, s);
    var q := ProcessQueue(env, s);
    SettlesThen(before, s.games, q.state.games, notices, NoticesOf(q));
    if q.Failed? {
      FailureLosesNotices(before, q.state.games, notices + NoticesOf(q));
    }
  }

  /** The game whose coin was spent is in hand: out of the map, ended by nothing yet. */
  ghost predicate InHand(before: map<CoinString, Tracked>, games: map<CoinString, Tracked>, game: Tracked) {
    && OneCoinPerGame(games) && !TracksGame(games, game.gameId) && TracksGame(before, game.gameId)
    && forall id :: Tracks(games, id) <= Tracks(before, id)
  }

  lemma HandEnds(before: map<CoinString, Tracked>, games: map<CoinString, Tracked>, game: Tracked, notices: seq<Notice>)
    requires InHand(before, games, game)
    requires forall id :: Endings(notices, id) <= if id == game.gameId then 1 else 0
    ensures Settles(before, games, notices)
  {
  }

  lemma HandStops(before: map<CoinString, Tracked>, games: map<CoinString, Tracked>, game: Tracked)
    requires InHand(before, games, game)
    ensures Settles(before, games, [])
  {
    HandEnds(before, games, game, []);
  }

  lemma HandGoesOn(
    before: map<CoinString, Tracked>, games: map<CoinString, Tracked>, game: Tracked,
    coin: CoinString, next: Tracked, notices: seq<Notice>)
    requires InHand(before, games, game) && next.gameId == game.gameId
    requires forall id :: Endings(notices, id) == 0
    ensures Settles(before, games[coin := next], notices)
  {
    PutBack(games, coin, next);
  }

  lemma OneEnding(game: Tracked, outcome: Settlement, share: nat)
    ensures forall id :: Endings([Settled(game.gameId, outcome, share)], id) == if id == game.gameId then 1 else 0
    ensures forall id :: Endings([EndedError(game.gameId)], id) == if id == game.gameId then 1 else 0
    ensures forall id :: Endings(UnlessSent(game, outcome, share), id) <= if id == game.gameId then 1 else 0
    ensures forall id :: Endings([IllegalMove(game.gameId), Settled(game.gameId, outcome, share)], id)
                         == if id == game.gameId then 1 else 0
  {
    forall id
      ensures Endings([Settled(game.gameId, outcome, share)], id) == if id == game.gameId then 1 else 0
      ensures Endings([EndedError(game.gameId)], id) == if id == game.gameId then 1 else 0
      ensures Endings([IllegalMove(game.gameId), Settled(game.gameId, outcome, share)], id)
              == if id == game.gameId then 1 else 0
    {
      OneNotice(Settled(game.gameId, outcome, share), id);
      OneNotice(EndedError(game.gameId), id);
      var two := [IllegalMove(game.gameId), Settled(game.gameId, outcome, share)];
      assert two[1..] == [Settled(game.gameId, outcome, share)];
    }
  }

  lemma NoEnding(id: nat, ourTurn: bool, claim: bool, coin: CoinString)
    ensures Quiet([TurnChanged(id, ourTurn), Registered(coin, claim)])
    ensures Quiet([Submitted(coin), IllegalMove(id), Registered(coin, claim)])
  {
    forall x
      ensures Endings([TurnChanged(id, ourTurn), Registered(coin, claim)], x) == 0
      ensures Endings([Submitted(coin), IllegalMove(id), Registered(coin, claim)], x) == 0
    {
      QuietNotices([TurnChanged(id, ourTurn), Registered(coin, claim)], x);
      QuietNotices([Submitted(coin), IllegalMove(id), Registered(coin, claim)], x);
    }
  }

  /** A game put in under a new coin, which is then registered. */
  lemma RegisteringIsFine(
    before: map<CoinString, Tracked>, games: map<CoinString, Tracked>, game: Tracked,
    env: Env, s: State, newCoin: CoinString, next: Tracked, id: nat, ourTurn: bool)
    requires InHand(before, games, game) && next.gameId == game.gameId && s.games == games[newCoin := next]
    ensures
      var o := Registering(env, s, id, ourTurn, newCoin);
      Settles(before, o.state.games, NoticesOf(o))
    ensures
      var o := AutoSettling(env, s, id, newCoin);
      Settles(before, o.state.games, NoticesOf(o))
  {
    hide InHand, Settles, ThenQueue, OneCoinPerGame, BuildClaim;
    HandGoesOn(before, games, game, newCoin, next, []);
    var claim := BuildClaim(env, s, id, newCoin);
    if claim.Some? {
      NoEnding(id, ourTurn, claim.value, newCoin);
      NoEnding(id, true, claim.value, newCoin);
      var notices := [TurnChanged(id, ourTurn), Registered(newCoin, claim.value)];
      var settling := [TurnChanged(id, true), Registered(newCoin, claim.value)];
      HandGoesOn(before, games, game, newCoin, next, notices);
      HandGoesOn(before, games, game, newCoin, next, settling);
      ThenQueueIsFine(before, env, s, notices);
      ThenQueueIsFine(before, env, s.(queue := s.queue + [SettleAction(id)]), settling);
    }
  }

  lemma MoveLandedIsFine(
    before: map<CoinString, Tracked>, env: Env, s: State, move: PendingMove, game: Tracked, newCoin: CoinString)
    requires InHand(before, s.games, game)
    ensures
      var o := MoveLanded(env, s, move, game, newCoin);
      Settles(before, o.state.games, NoticesOf(o))
  {
    hide InHand, Settles, Registering, OneCoinPerGame;
    HandStops(before, s.games, game);
    if move.gameId in s.live {
      var next := game.(puzzleHash := newCoin.ph, ourTurn := false, finished := move.after.referee.IsGameOver());
      RegisteringIsFine(
        before, s.games, game, env,
        s.(games := s.games[newCoin := next], live := s.live[move.gameId := move.after]), newCoin, next, move.gameId, false);
    }
  }

  lemma ArmedIsFine(
    before: map<CoinString, Tracked>, env: Env, s: State, game: Tracked, coin: CoinString, conditions: Conditions)
    requires InHand(before, s.games, game)
    ensures
      var o := ArmedSpend(env, s, game, coin, conditions);
      Settles(before, o.state.games, NoticesOf(o))
  {
    hide InHand, Settles, ThenQueue, FirstTo, UnlessSent, CleanOr, Registering, R.FirstCreate;
    var ours := FirstTo(conditions, env.ours, 0);
    var share := if ours.Some? then ours.value else 0;
    var ending := UnlessSent(game, CleanOr(game, WeAccepted), share);
    OneEnding(game, CleanOr(game, WeAccepted), share);
    HandEnds(before, s.games, game, ending);
    HandStops(before, s.games, game);
    ThenQueueIsFine(before, env, s, ending);
    ThenQueueIsFine(before, env, s, []);
    if R.FirstCreate(conditions).Some? {
      var (ph, amount) := R.FirstCreate(conditions).value;
      var newCoin := CoinString(IdOf(coin), ph, amount);
      var next := game.(puzzleHash := ph, ourTurn := !game.ourTurn, claimArmed := true);
      RegisteringIsFine(
        before, s.games, game, env, s.(games := s.games[newCoin := next]), newCoin, next, game.gameId, next.ourTurn);
    }
  }

  lemma AdvancedIsFine(
    before: map<CoinString, Tracked>, env: Env, s: State, game: Tracked, newCoin: CoinString, myTurn: bool)
    requires InHand(before, s.games, game)
    ensures
      var o := Advanced(env, s, game, newCoin, myTurn);
      Settles(before, o.state.games, NoticesOf(o))
  {
    hide InHand, Settles, ThenQueue, AutoSettles, WithoutGame, Registering, AutoSettling;
    var id := game.gameId;
    HandStops(before, s.games, game);
    if id in s.live {
      var gameOver := s.live[id].referee.IsGameOver();
      var moved := game.(puzzleHash := newCoin.ph, ourTurn := myTurn, finished := game.finished || gameOver);
      var marked := moved.(finished := true);
      HandGoesOn(before, s.games, game, newCoin, moved, []);
      RegisteringIsFine(before, s.games, game, env, s.(games := s.games[newCoin := moved]), newCoin, moved, id, myTurn);
      RegisteringIsFine(before, s.games, game, env, s.(games := s.games[newCoin := marked]), newCoin, marked, id, true);
      var ending := [Settled(id, ForfeitedOpponentWon, 0)];
      OneEnding(game, ForfeitedOpponentWon, 0);
      ForfeitEnds(before, s.games, game, newCoin, moved, ending);
      ThenQueueIsFine(before, env, s.(games := WithoutGame(s.games[newCoin := moved], id)), ending);
    }
  }

  /** A game put back only to be forfeited is out again when it ends. */
  lemma ForfeitEnds(
    before: map<CoinString, Tracked>, games: map<CoinString, Tracked>, game: Tracked,
    coin: CoinString, next: Tracked, notices: seq<Notice>)
    requires InHand(before, games, game) && next.gameId == game.gameId
    requires forall id :: Endings(notices, id) == if id == game.gameId then 1 else 0
    ensures Settles(before, WithoutGame(games[coin := next], game.gameId), notices)
  {
    PutBack(games, coin, next);
    Dropped(games[coin := next], game.gameId);
  }

  lemma ReadIsFine(
    before: map<CoinString, Tracked>, env: Env, s: State, game: Tracked, coin: CoinString, slash: bool, info: SpentInfo)
    requires InHand(before, s.games, game)
    ensures
      var o := ReadSpend(env, s, game, coin, slash, info);
      Settles(before, o.state.games, NoticesOf(o))
  {
    hide InHand, Settles, ThenQueue, Advanced, UnlessSent, TimeoutOutcome, UnexpectedOnOurTurn;
    HandStops(before, s.games, game);
    OneEnding(game, OpponentSlashedUs, 0);
    HandEnds(before, s.games, game, [EndedError(game.gameId)]);
    HandEnds(before, s.games, game, UnlessSent(game, OpponentSlashedUs, 0));
    ThenQueueIsFine(before, env, s, [EndedError(game.gameId)]);
    ThenQueueIsFine(before, env, s, UnlessSent(game, OpponentSlashedUs, 0));
    match info {
      case Expected(ph, amount) =>
        AdvancedIsFine(before, env, s, game, CoinString(IdOf(coin), ph, amount), !game.ourTurn);
      case Timedout(reward) => PaidOutIsFine(before, env, s, game, if reward.Some? then reward.value else 0);
      case Moved(newCoin) => AdvancedIsFine(before, env, s, game, newCoin, true);
      case SlashReward(slashCoin, amount, share) =>
        NoEnding(game.gameId, false, false, slashCoin);
        HandGoesOn(
          before, s.games, game, slashCoin,
          game.(pendingSlash := Some(amount), cheatingShare := Some(share), ourTurn := false),
          [Submitted(slashCoin), IllegalMove(game.gameId), Registered(slashCoin, false)]);
      case OurReward(amount) => PaidOutIsFine(before, env, s, game, amount);
    }
  }

  lemma RefereeIsFine(
    before: map<CoinString, Tracked>, env: Env, s: State, game: Tracked, coin: CoinString, conditions: Conditions,
    solution: Option<R.RefereeSolution>)
    requires InHand(before, s.games, game)
    ensures
      var o := RefereeSpend(env, s, game, coin, conditions, solution);
      Settles(before, o.state.games, NoticesOf(o))
  {
    hide InHand, Settles, ThenQueue, ReadSpend, GameCoinSpent;
    HandStops(before, s.games, game);
    OneEnding(game, SettledCleanly, 0);
    HandEnds(before, s.games, game, [EndedError(game.gameId)]);
    ThenQueueIsFine(before, env, s, []);
    ThenQueueIsFine(before, env, s, [EndedError(game.gameId)]);
    if game.gameId in s.live && solution.Some? {
      var read := GameCoinSpent(env, s.live[game.gameId], coin, conditions, solution.value);
      if read.Some? {
        var (seat, info) := read.value;
        ReadIsFine(
          before, env, s.(live := s.live[game.gameId := seat]), game, coin, solution.value.SlashSolution?, info);
      }
    }
  }

  lemma PaidOutIsFine(before: map<CoinString, Tracked>, env: Env, s: State, game: Tracked, share: nat)
    requires InHand(before, s.games, game)
    ensures
      var o := ThenQueue(env, s, UnlessSent(game, TimeoutOutcome(game), share));
      Settles(before, o.state.games, NoticesOf(o))
  {
    hide InHand, Settles, ThenQueue, UnlessSent, TimeoutOutcome;
    OneEnding(game, TimeoutOutcome(game), share);
    HandEnds(before, s.games, game, UnlessSent(game, TimeoutOutcome(game), share));
    ThenQueueIsFine(before, env, s, UnlessSent(game, TimeoutOutcome(game), share));
  }

  lemma TakenInHand(games: map<CoinString, Tracked>, coin: CoinString)
    requires OneCoinPerGame(games) && coin in games
    ensures InHand(games, games - {coin}, games[coin])
  {
    TakenOut(games, coin);
  }

  lemma TrackedSpendIsFine(
    before: map<CoinString, Tracked>, env: Env, next: State, coin: CoinString, conditions: Option<Conditions>,
    solution: Option<R.RefereeSolution>)
    requires coin in next.games && coin !in next.moves && InHand(before, next.games - {coin}, next.games[coin])
    ensures
      var o := HandleSpend(env, next, coin, conditions, solution);
      Settles(before, o.state.games, NoticesOf(o))
  {
    hide InHand, Settles, ThenQueue, ArmedSpend, RefereeSpend, FirstTo;
    var game := next.games[coin];
    var without := next.(games := next.games - {coin});
    HandStops(before, without.games, game);
    if conditions.Some? {
      var ending := SlashEnding(env, game, conditions.value);
      if ending.Settled? {
        OneEnding(game, ending.outcome, ending.share);
      } else {
        OneEnding(game, SettledCleanly, 0);
      }
      HandEnds(before, without.games, game, [ending]);
      ThenQueueIsFine(before, env, without, [ending]);
      ArmedIsFine(before, env, without, game, coin, conditions.value);
      RefereeIsFine(before, env, without, game, coin, conditions.value, solution);
    }
  }

  lemma SpendIsFine(
    env: Env, s: State, coin: CoinString, conditions: Option<Conditions>, solution: Option<R.RefereeSolution>)
    requires OneCoinPerGame(s.games)
    ensures Fine(s, HandleSpend(env, s, coin, conditions, solution))
  {
    hide InHand, Settles, ThenQueue, MoveLanded, ArmedSpend, RefereeSpend, SlashEnding, OneCoinPerGame, R.FirstCreate;
    NothingSettles(s.games);
    if coin in s.games {
      TakenInHand(s.games, coin);
    }
    match ResolveMove(env, s, coin, conditions) {
      case Resolved(outcome) =>
        if conditions.Some? && R.FirstCreate(conditions.value).Some? && coin in s.games {
          ResolvedIsFine(env, s, coin, conditions.value);
        }
      case Continue(next) =>
        if coin in next.games {
          assert next.games - {coin} == s.games - {coin};
          assert next.games[coin].gameId == s.games[coin].gameId;
          HandIgnoresTurn(s.games, s.games - {coin}, s.games[coin], next.games[coin]);
          TrackedSpendIsFine(s.games, env, next, coin, conditions, solution);
          assert HandleSpend(env, s, coin, conditions, solution) == HandleSpend(env, next, coin, conditions, solution);
        }
    }
  }

  lemma HandIgnoresTurn(before: map<CoinString, Tracked>, games: map<CoinString, Tracked>, game: Tracked, other: Tracked)
    requires InHand(before, games, game) && other.gameId == game.gameId
    ensures InHand(before, games, other)
  {
  }

  lemma ResolvedIsFine(env: Env, s: State, coin: CoinString, conditions: Conditions)
    requires OneCoinPerGame(s.games) && coin in s.moves && coin in s.games
    requires R.FirstCreate(conditions).Some? && ResolveMove(env, s, coin, Some(conditions)).Resolved?
    ensures Fine(s, ResolveMove(env, s, coin, Some(conditions)).outcome)
  {
    hide InHand, Settles, ThenQueue, MoveLanded, CleanOr, R.FirstCreate;
    var game := s.games[coin];
    var (ph, amount) := R.FirstCreate(conditions).value;
    var without := s.(moves := s.moves - {coin}, games := s.games - {coin});
    TakenInHand(s.games, coin);
    MoveLandedIsFine(s.games, env, without, s.moves[coin], game, CoinString(IdOf(coin), ph, amount));
    var ending := [Settled(game.gameId, CleanOr(game, AttemptToMoveFailed), 0)];
    OneEnding(game, CleanOr(game, AttemptToMoveFailed), 0);
    HandEnds(s.games, without.games, game, ending);
    ThenQueueIsFine(s.games, env, without, ending);
  }

  lemma EventIsFine(env: Env, s: State, e: Event)
    requires OneCoinPerGame(s.games)
    ensures Fine(s, Handle(env, s, e))
  {
    hide HandleSpend, DoAction, OneCoinPerGame, Settles, ThenQueue, InHand;
    match e {
      case CoinSpent(coin, conditions, solution) => SpendIsFine(env, s, coin, conditions, solution);
      case CoinSpentUnknown(coin) =>
        NothingSettles(s.games);
        if coin in s.games {
          var game := s.games[coin];
          TakenInHand(s.games, coin);
          OneEnding(game, SettledCleanly, 0);
          HandEnds(s.games, s.games - {coin}, game, [EndedError(game.gameId)]);
          ThenQueueIsFine(s.games, env, s.(games := s.games - {coin}), [EndedError(game.gameId)]);
        }
      case UserAction(action) => ActionIsFine(env, s, action);
    }
  }

  lemma {:induction false} RunIsFine(env: Env, s: State, events: seq<Event>)
    requires OneCoinPerGame(s.games)
    ensures Settles(s.games, Run(env, s, events).0.games, Run(env, s, events).1)
    decreases |events|
  {
    hide Handle, OneCoinPerGame, Tracks;
    if events == [] {
      NothingSettles(s.games);
    } else {
      var o := Handle(env, s, events[0]);
      EventIsFine(env, s, events[0]);
      RunIsFine(env, o.state, events[1..]);
      var (end, notices) := Run(env, o.state, events[1..]);
      SettlesThen(s.games, o.state.games, end.games, NoticesOf(o), notices);
    }
  }

  /** Whatever is spent or asked for, in any order, and whatever the programs
      answer: each game keeps at most one coin, a game that is gone stays gone,
      and over the whole run each game is told to end at most once, and never
      while it is still tracked. */
  lemma OneEndingPerGame(env: Env, s: State, events: seq<Event>, id: nat)
    requires OneCoinPerGame(s.games)
    ensures
      var (end, notices) := Run(env, s, events);
      && OneCoinPerGame(end.games)
      && (TracksGame(end.games, id) ==> TracksGame(s.games, id))
      && Endings(notices, id) <= 1
      && (Endings(notices, id) == 1 ==> TracksGame(s.games, id) && !TracksGame(end.games, id))
  {
    hide Run, OneCoinPerGame;
    RunIsFine(env, s, events);
    var (end, notices) := Run(env, s, events);
    assert Endings(notices, id) + Tracks(end.games, id) <= Tracks(s.games, id);
  }

  // --- Where a run starts ----------------------------------------------------------------

  /** The games an unroll's coins were matched to. */
  function FromUnroll(found: map<CoinString, Channels.OnChainGameState>): map<CoinString, Tracked> {
    map c | c in found ::
      Tracked(
        found[c].gameId, found[c].puzzleHash, found[c].ourTurn, None, None, found[c].timeoutClaimArmed, false,
        found[c].gameFinished)
  }

  /** Matching an unroll's coins gives each game at most one of them, so a run
      that starts there ends each game at most once. */
  lemma UnrollStartsOneCoinPerGame(ch: Channels.Channel, unroll: CoinID, coins: seq<(PuzzleHash, nat)>)
    requires ChannelGames.Distinct(ChannelGames.KnownIds(ch))
    ensures OneCoinPerGame(FromUnroll(Channels.SetStateForCoins(ch, unroll, coins)))
  {
    ChannelGames.CoinsMatchDistinctGames(ch, unroll, coins);
  }
}

/** A game coin on chain (src/referee, clsp/referee/onchain/referee.clsp): what
    the referee puzzle lets a spend of it do, the solutions the referees build,
    and how they follow the coin from spend to spend. */
module RefereeOnChain {
  import opened Wrappers
  import opened Chain
  import opened Referees

  const U64_LIMIT: nat := 0x1_0000_0000_0000_0000

  // ---------------------------------------------------------------------------
  // Atoms as numbers
  // ---------------------------------------------------------------------------

  /** Big-endian value of an atom read as unsigned. */
  function Unsigned(b: Bytes): nat {
    if b == [] then 0 else Unsigned(b[..|b| - 1]) * 256 + b[|b| - 1] as nat
  }

  /** CLVM reads atoms as signed. */
  predicate NonNegative(b: Bytes) { b == [] || b[0] < 0x80 }

  predicate Canonical(b: Bytes) { b == CanonicalAtom(Unsigned(b)) }

  lemma {:induction false} BigEndianValue(n: nat)
    ensures Unsigned(BigEndian(n)) == n
    ensures n > 0 ==> BigEndian(n) != [] && BigEndian(n)[0] != 0
  {
    if n != 0 {
      BigEndianValue(n / 256);
      assert BigEndian(n)[..|BigEndian(n)| - 1] == BigEndian(n / 256);
    }
  }

  lemma {:induction false} LeadingZero(b: Bytes)
    ensures Unsigned([0] + b) == Unsigned(b)
    decreases |b|
  {
    if b != [] {
      LeadingZero(b[..|b| - 1]);
      assert ([0] + b)[..|b|] == [0] + b[..|b| - 1];
    }
  }

  lemma CanonicalValue(n: nat)
    ensures Unsigned(CanonicalAtom(n)) == n && NonNegative(CanonicalAtom(n)) && Canonical(CanonicalAtom(n))
  {
    BigEndianValue(n);
    LeadingZero(BigEndian(n));
  }

  lemma CanonicalIsInjective(m: nat, n: nat)
    requires CanonicalAtom(m) == CanonicalAtom(n)
    ensures m == n
  {
    CanonicalValue(m);
    CanonicalValue(n);
  }

  /** Two bytes hold the numbers below 2^15. */
  lemma TwoByteNumbers(n: nat)
    ensures |CanonicalAtom(n)| <= 2 <==> n < 0x8000
  {
    if n >= 0x1_0000 {
      BigEndianValue(n / 0x1_0000);
      assert n / 256 / 256 == n / 0x1_0000;
      assert |BigEndian(n)| == |BigEndian(n / 0x1_0000)| + 2;
    } else if n >= 0x100 {
      assert BigEndian(n / 256 / 256) == [];
      assert BigEndian(n / 256) == [(n / 256) as byte];
      assert BigEndian(n) == [(n / 256) as byte, (n % 256) as byte];
    } else {
      assert BigEndian(n / 256) == [];
    }
  }

  // ---------------------------------------------------------------------------
  // The referee puzzle
  // ---------------------------------------------------------------------------

  /** The info hash of a move: nil, the one byte of the initial state, 32 bytes,
      or an atom of another length. */
  datatype InfoAtom = Info(hash: ValidationInfoHash) | OtherLength

  datatype RefereeSolution =
    | TimeoutSolution(moverPayout: Option<PuzzleHash>, waiterPayout: Option<PuzzleHash>)
    | MoveSolution(newMove: Bytes, info: InfoAtom, moverShareRaw: Bytes, maxMoveSizeRaw: Bytes)
    | SlashSolution(state: Program, validator: StateUpdateProgram, evidence: Evidence, payout: PuzzleHash)

  datatype PuzzleCondition =
    | Create(ph: PuzzleHash, amount: nat)
    | AfterBlocks(blocks: nat)
    | BeforeBlocks(blocks: nat)
    | PayoutSigned(key: PublicKey, payout: PuzzleHash)
    | MoveSigned(key: PublicKey, solution: RefereeSolution)

  /** What the puzzle of the coin a move creates is curried with. */
  function Successor(c: CurriedReferee, move: RefereeSolution): CurriedReferee
    requires move.MoveSolution? && move.info.Info?
  {
    CurriedReferee(
      c.waiter, c.mover, c.timeout, c.amount, c.modHash, c.nonce,
      move.newMove, move.maxMoveSizeRaw, move.info.hash, move.moverShareRaw, c.validationInfo)
  }

  predicate MoveAllowed(c: CurriedReferee, move: RefereeSolution)
    requires move.MoveSolution?
  {
    && c.validationInfo != NoInfo
    && NonNegative(c.maxMoveSizeRaw) && |move.newMove| <= Unsigned(c.maxMoveSizeRaw)
    && |move.maxMoveSizeRaw| <= 2
    && NonNegative(move.moverShareRaw) && Unsigned(move.moverShareRaw) <= c.amount
    && move.info.Info? && move.info.hash != InitialInfo
  }

  function MoveConditions(c: CurriedReferee, move: RefereeSolution): Option<seq<PuzzleCondition>>
    requires move.MoveSolution?
  {
    if !MoveAllowed(c, move) then None
    else Some([
      BeforeBlocks(c.timeout), Create(RefereePh(c.modHash, Successor(c, move)), c.amount), MoveSigned(c.mover, move)])
  }

  /** One side's part of a timeout; a share of nil needs no payout and allows none. */
  function PayoutConditions(key: PublicKey, payout: Option<PuzzleHash>, share: nat, nonNil: bool)
    : Option<seq<PuzzleCondition>>
  {
    if nonNil != payout.Some? then None
    else if payout.None? then Some([])
    else Some([Create(payout.value, share), PayoutSigned(key, payout.value)])
  }

  function TimeoutConditions(c: CurriedReferee, moverPayout: Option<PuzzleHash>, waiterPayout: Option<PuzzleHash>)
    : Option<seq<PuzzleCondition>>
  {
    var share := Unsigned(c.moverShareRaw);
    if !NonNegative(c.moverShareRaw) || share > c.amount then None
    else
      var mover := PayoutConditions(c.mover, moverPayout, share, c.moverShareRaw != []);
      var waiter := PayoutConditions(c.waiter, waiterPayout, c.amount - share, c.amount > share);
      if mover.None? || waiter.None? then None else Some([AfterBlocks(c.timeout)] + mover.value + waiter.value)
  }

  function FirstCreate(conditions: seq<PuzzleCondition>): Option<(PuzzleHash, nat)> {
    if conditions == [] then None
    else if conditions[0].Create? then Some((conditions[0].ph, conditions[0].amount))
    else FirstCreate(conditions[1..])
  }

  // ---------------------------------------------------------------------------
  // Timeouts
  // ---------------------------------------------------------------------------

  function Created(conditions: seq<PuzzleCondition>): multiset<(PuzzleHash, nat)> {
    if conditions == [] then multiset{}
    else (if conditions[0].Create? then multiset{(conditions[0].ph, conditions[0].amount)} else multiset{})
         + Created(conditions[1..])
  }

  function Required(conditions: seq<PuzzleCondition>): multiset<Signature> {
    if conditions == [] then multiset{}
    else
      (if conditions[0].PayoutSigned?
       then multiset{HalfSignature(conditions[0].key, None, PayoutMessage(conditions[0].payout))} else multiset{})
      + Required(conditions[1..])
  }

  lemma {:induction false} OfAppend(a: seq<PuzzleCondition>, b: seq<PuzzleCondition>)
    ensures Created(a + b) == Created(a) + Created(b)
    ensures Required(a + b) == Required(a) + Required(b)
  {
    if a == [] {
      assert a + b == b;
    } else {
      assert (a + b)[1..] == a[1..] + b;
      OfAppend(a[1..], b);
    }
  }

  /** The payout signatures the two sides exchanged before the game. */
  ghost predicate PayoutsSigned(fixed: RefereeFixedContext) {
    && fixed.myPayoutSignature == HalfSignature(fixed.myKey, None, PayoutMessage(fixed.rewardPh))
    && fixed.theirPayoutSignature == HalfSignature(fixed.theirKey, None, PayoutMessage(fixed.theirRewardPh))
  }

  function Pays(ph: PuzzleHash, share: nat): multiset<(PuzzleHash, nat)> {
    if share > 0 then multiset{(ph, share)} else multiset{}
  }

  lemma PayoutPart(key: PublicKey, ph: PuzzleHash, share: nat)
    ensures
      var part := PayoutConditions(key, if share > 0 then Some(ph) else None, share, share > 0);
      && part.Some? && Created(part.value) == Pays(ph, share)
      && Required(part.value) == SignaturesFor(HalfSignature(key, None, PayoutMessage(ph)), share)
  {
    if share > 0 {
      var create, signed := [Create(ph, share)], [PayoutSigned(key, ph)];
      OfAppend(create, signed);
      assert create[1..] == [] && signed[1..] == [];
      assert [Create(ph, share), PayoutSigned(key, ph)] == create + signed;
    }
  }

  lemma TimeoutParts(c: CurriedReferee, moverPh: PuzzleHash, waiterPh: PuzzleHash, share: nat)
    requires c.moverShareRaw == CanonicalAtom(share) && share <= c.amount
    ensures
      var rest := c.amount - share;
      var conditions := TimeoutConditions(
                          c, if share > 0 then Some(moverPh) else None, if rest > 0 then Some(waiterPh) else None);
      && conditions.Some? && conditions.value[0] == AfterBlocks(c.timeout)
      && Created(conditions.value) == Pays(moverPh, share) + Pays(waiterPh, rest)
      && Required(conditions.value)
         == SignaturesFor(HalfSignature(c.mover, None, PayoutMessage(moverPh)), share)
            + SignaturesFor(HalfSignature(c.waiter, None, PayoutMessage(waiterPh)), rest)
  {
    hide CanonicalAtom, PayoutConditions, Pays, SignaturesFor, Created, Required;
    var rest := c.amount - share;
    CanonicalValue(share);
    NilIsZero(share);
    PayoutPart(c.mover, moverPh, share);
    PayoutPart(c.waiter, waiterPh, rest);
    var head := [AfterBlocks(c.timeout)];
    var mover := PayoutConditions(c.mover, if share > 0 then Some(moverPh) else None, share, share > 0).value;
    var waiter := PayoutConditions(c.waiter, if rest > 0 then Some(waiterPh) else None, rest, rest > 0).value;
    OfAppend(head + mover, waiter);
    OfAppend(head, mover);
    HeightOnly(c.timeout);
  }

  lemma HeightOnly(blocks: nat)
    ensures Created([AfterBlocks(blocks)]) == multiset{} && Required([AfterBlocks(blocks)]) == multiset{}
  {
    assert [AfterBlocks(blocks)][1..] == [];
  }

  lemma NilIsZero(n: nat)
    ensures CanonicalAtom(n) == [] <==> n == 0
  {
    BigEndianValue(n);
  }

  /** The timeout spend a referee builds satisfies the puzzle, pays each side
      its share of the whole amount, and carries exactly the signatures the
      puzzle asks for. */
  lemma TimeoutPaysShares(fixed: RefereeFixedContext, args: RefereePuzzleArgs)
    requires ArgsOf(fixed, args) && PayoutsSigned(fixed) && fixed.myKey != fixed.theirKey
    requires TimeoutSpendFor(fixed, args).Ok? && TimeoutSpendFor(fixed, args).value.Some?
    ensures
      var spend := TimeoutSpendFor(fixed, args).value.value;
      var conditions := TimeoutConditions(args.Curried(), spend.moverPayout, spend.waiterPayout);
      var share := args.gameMove.basic.moverShare;
      var mine := if args.mover == fixed.myKey then share else fixed.amount - share;
      && spend.puzzle == RefereePh(fixed.modHash, args.Curried())
      && conditions.Some? && conditions.value[0] == AfterBlocks(fixed.timeout)
      && Created(conditions.value) == Pays(fixed.rewardPh, mine) + Pays(fixed.theirRewardPh, fixed.amount - mine)
      && Required(conditions.value) == spend.signatures
  {
    hide CanonicalAtom, TimeoutConditions, Pays, SignaturesFor, Created, Required;
    var share := args.gameMove.basic.moverShare;
    if args.mover == fixed.myKey {
      TimeoutParts(args.Curried(), fixed.rewardPh, fixed.theirRewardPh, share);
    } else {
      TimeoutParts(args.Curried(), fixed.theirRewardPh, fixed.rewardPh, share);
    }
  }

  /** Whose shares they are: for the coin of its last agreed state the timeout
      pays our reward hash what the referee calls our current share, and the
      other side's the rest. */
  lemma TimeoutPaysOurShare(r: Referee)
    requires ValidReferee(r) && PayoutsSigned(r.fixed) && r.fixed.myKey != r.fixed.theirKey
    ensures
      var built := TimeoutSpendFor(r.fixed, r.spendThisCoin);
      && (built.Ok? <==> r.spendThisCoin.gameMove.basic.moverShare <= r.fixed.amount)
      && (built.Ok? ==> r.OurCurrentShare().Ok? && r.OurCurrentShare().value <= r.fixed.amount)
      && (built.Ok? && built.value.Some? ==>
            var conditions := TimeoutConditions(
                                r.spendThisCoin.Curried(), built.value.value.moverPayout, built.value.value.waiterPayout);
            var share := r.OurCurrentShare().value;
            conditions.Some? && Created(conditions.value)
            == Pays(r.fixed.rewardPh, share) + Pays(r.fixed.theirRewardPh, r.fixed.amount - share))
  {
    hide CanonicalAtom, TimeoutConditions, Pays, Created, Required;
    var built := TimeoutSpendFor(r.fixed, r.spendThisCoin);
    if built.Ok? && built.value.Some? {
      TimeoutPaysShares(r.fixed, r.spendThisCoin);
    }
  }

  // ---------------------------------------------------------------------------
  // Moves
  // ---------------------------------------------------------------------------

  /** The move solution, rebuilt from what was kept when the move was made. */
  function ToMove(m: MoveSpend): RefereeSolution {
    MoveSolution(
      m.newMove.basic.moveMade,
      Info(if m.newMove.validationInfo != NoInfo then KnownInfo(ValidationInfoOf(m.validator, m.state)) else NoInfo),
      CanonicalAtom(m.newMove.basic.moverShare),
      m.newMove.basic.maxMoveSizeRaw)
  }

  datatype MoveTransaction = MoveTransaction(puzzle: PuzzleHash, solution: RefereeSolution, signer: PublicKey)

  function TransactionForMove(r: Referee): Result<MoveTransaction, RefereeError> {
    var _ :- Require(r.moveSpend.Some?, NotMyTurn);
    var _ :- r.OurCurrentShare();
    Ok(MoveTransaction(r.fixed.PuzzleHashOf(r.moveSpend.value.beforeArgs), ToMove(r.moveSpend.value), r.fixed.myKey))
  }

  /** A game move that was made can be played on chain exactly when the mover's
      share is within the game's amount, the coin still allows moves, and the
      next size limit fits two bytes; it then creates the coin the mover expects. */
  lemma MovePlaysOnChainIff(clvm: Clvm, r: Referee, readable: Program, entropy: Bytes, n: nat)
    requires ValidReferee(r) && MyTurnMakeMove(clvm, r, readable, entropy, n).Ok?
    requires r.spendThisCoin.gameMove.basic.maxMoveSizeRaw == CanonicalAtom(r.MaxMoveSize())
    ensures
      var (next, wire) := MyTurnMakeMove(clvm, r, readable, entropy, n).value;
      var t := TransactionForMove(next);
      && (t.Ok? <==> wire.details.basic.moverShare <= r.fixed.amount)
      && (t.Ok? ==>
            && t.value.puzzle == r.OutcomePuzzleHash() && t.value.solution.MoveSolution?
            && var conditions := MoveConditions(r.spendThisCoin.Curried(), t.value.solution);
            && (conditions.Some? <==>
                  r.spendThisCoin.gameMove.validationInfo != NoInfo && wire.details.basic.maxMoveSize < 0x8000)
            && (conditions.Some? ==> conditions.value == [
                  BeforeBlocks(r.fixed.timeout), Create(next.OutcomePuzzleHash(), r.fixed.amount),
                  MoveSigned(t.value.signer, t.value.solution)]))
  {
    hide CanonicalAtom;
    var (next, wire) := MyTurnMakeMove(clvm, r, readable, entropy, n).value;
    CanonicalValue(r.MaxMoveSize());
    CanonicalValue(wire.details.basic.moverShare);
    TwoByteNumbers(wire.details.basic.maxMoveSize);
  }

  // ---------------------------------------------------------------------------
  // Following the coin
  // ---------------------------------------------------------------------------

  datatype SlashSpend = SlashSpend(coin: CoinString, puzzle: PuzzleHash, solution: RefereeSolution, signature: Signature)

  datatype SpentResult =
    | Expected(stateNumber: nat, ph: PuzzleHash, amount: nat)
    | Timedout(reward: Option<CoinString>)
    | Moved(coin: CoinString, moveNumber: nat, readable: Program, moverShare: nat)
    | Slashed(spend: SlashSpend, slashReward: CoinString, cheatShare: nat)

  datatype SpentError =
    | RefereeRefused(error: RefereeError)
    | CalledOnMyTurn
    | BadInfoHash
    | BadShare
    | ShareOverAmount
    | BadMaxMoveSize
    | NoCoinCreated
    | PuzzleHashMismatch

  /** What a move solution says, read with unsigned numbers. */
  function DetailsOf(fixed: RefereeFixedContext, move: RefereeSolution): Result<GameMoveDetails, SpentError>
    requires move.MoveSolution?
  {
    var _ :- Require(move.info.Info?, BadInfoHash);
    var share := Unsigned(move.moverShareRaw);
    var _ :- Require(share < U64_LIMIT, BadShare);
    var _ :- Require(share <= fixed.amount, ShareOverAmount);
    var size := Unsigned(move.maxMoveSizeRaw);
    var _ :- Require(size < U64_LIMIT, BadMaxMoveSize);
    Ok(GameMoveDetails(GameMoveStateInfo(move.newMove, share, size, move.maxMoveSizeRaw), move.info.hash, None))
  }

  /** The slash of the coin the move created, which the puzzle arguments must
      agree with. */
  function SlashOf(r: Referee, coin: CoinString, conditions: seq<PuzzleCondition>, details: GameMoveDetails, evidence: Evidence)
    : Result<SpentResult, SpentError>
    requires r.TheirTurn?
  {
    var created := FirstCreate(conditions);
    var _ :- Require(created.Some?, NoCoinCreated);
    var target := CoinString(IdOf(coin), created.value.0, r.fixed.amount);
    var args := RefereePuzzleArgs(
                  r.fixed.myKey, r.fixed.theirKey, r.fixed.timeout, r.fixed.amount, r.fixed.nonce, details,
                  r.slashValidator, r.spendThisCoin.gameMove.validationInfo, r.fixed.modHash);
    var _ :- Require(r.fixed.PuzzleHashOf(args) == created.value.0, PuzzleHashMismatch);
    Ok(Slashed(
      SlashSpend(
        target, r.fixed.PuzzleHashOf(args),
        SlashSolution(r.slashState, r.slashValidator, evidence, r.fixed.rewardPh), r.fixed.myPayoutSignature),
      CoinString(IdOf(target), r.fixed.rewardPh, r.fixed.amount), details.basic.moverShare))
  }

  function MoveSpent(
    clvm: Clvm, r: Referee, coin: CoinString, conditions: seq<PuzzleCondition>, n: nat, move: RefereeSolution)
    : Result<(Option<Referee>, SpentResult), SpentError>
    requires move.MoveSolution?
  {
    if r.MyTurn? then Err(CalledOnMyTurn)
    else
      var details :- DetailsOf(r.fixed, move);
      match TheirTurnMoveOffChain(clvm, r, details, n)
      case Err(e) => Err(RefereeRefused(e))
      case Ok((next, out)) =>
        if out.slash.Some? then
          var slashed :- SlashOf(r, coin, conditions, details, out.slash.value);
          Ok((None, slashed))
        else
          var moved := next.value.(createThisCoin := next.value.spendThisCoin);
          Ok((Some(moved), Moved(
            CoinString(IdOf(coin), r.fixed.PuzzleHashOf(moved.spendThisCoin), r.fixed.amount), n, out.readableMove,
            moved.spendThisCoin.gameMove.basic.moverShare)))
  }

  /** A spend of the game coin: one that creates the coin of our last agreed
      state is expected, whoever made it. */
  function CoinSpent(
    clvm: Clvm, r: Referee, coin: CoinString, conditions: seq<PuzzleCondition>, n: nat, solution: RefereeSolution)
    : Result<(Option<Referee>, SpentResult), SpentError>
  {
    var created := FirstCreate(conditions);
    if created.Some? && coin.ph == r.OnChainPuzzleHash() && created.value.0 == r.OutcomePuzzleHash() then
      Ok((Some(r), Expected(r.stateNumber, created.value.0, created.value.1)))
    else if solution.MoveSolution? then MoveSpent(clvm, r, coin, conditions, n, solution)
    else
      match r.OurCurrentShare()
      case Err(e) => Err(RefereeRefused(e))
      case Ok(share) =>
        Ok((Some(r), Timedout(if share > 0 then Some(CoinString(IdOf(coin), r.fixed.rewardPh, share)) else None)))
  }

  /** The coin a referee waits on: its last agreed state's, with two players. */
  ghost predicate Watches(r: Referee, coin: CoinString) {
    && ValidReferee(r) && r.fixed.myKey != r.fixed.theirKey
    && coin.ph == r.OutcomePuzzleHash() && coin.amount == r.fixed.amount < U64_LIMIT
  }

  function CreatedBy(r: Referee, coin: CoinString, move: RefereeSolution): CoinString
    requires move.MoveSolution? && move.info.Info?
  {
    CoinString(IdOf(coin), RefereePh(r.fixed.modHash, Successor(r.spendThisCoin.Curried(), move)), r.fixed.amount)
  }

  /** The arguments the waiter derives are those of the created coin exactly
      when the mover's share is a canonical atom. */
  lemma SuccessorArgsIff(r: Referee, move: RefereeSolution, validator: StateUpdateProgram)
    requires r.TheirTurn? && ValidReferee(r) && move.MoveSolution? && DetailsOf(r.fixed, move).Ok?
    ensures
      var args := ArgsAfterTheirMove(r, DetailsOf(r.fixed, move).value, validator);
      args.Curried() == Successor(r.spendThisCoin.Curried(), move) <==> Canonical(move.moverShareRaw)
  {
    hide CanonicalAtom;
  }

  lemma AllowedMoveReads(r: Referee, move: RefereeSolution)
    requires r.fixed.amount < U64_LIMIT && r.spendThisCoin.amount == r.fixed.amount
    requires move.MoveSolution? && MoveAllowed(r.spendThisCoin.Curried(), move)
    ensures DetailsOf(r.fixed, move).Ok?
  {
    hide CanonicalAtom;
    SmallAtom(move.maxMoveSizeRaw);
  }

  lemma SmallAtom(b: Bytes)
    requires |b| <= 2
    ensures Unsigned(b) < 0x1_0000
  {
    if |b| == 2 {
      assert Unsigned(b[..1]) == b[0] as nat by { assert b[..1][..0] == []; }
    } else if |b| == 1 {
      assert b[..0] == [];
    }
  }

  lemma FirstCreated(c: CurriedReferee, move: RefereeSolution)
    requires move.MoveSolution? && MoveAllowed(c, move)
    ensures FirstCreate(MoveConditions(c, move).value) == Some((RefereePh(c.modHash, Successor(c, move)), c.amount))
  {
    hide MoveAllowed;
    var conditions := MoveConditions(c, move).value;
    assert conditions[1..][0] == conditions[1];
  }

  lemma SpendExpected(clvm: Clvm, r: Referee, coin: CoinString, n: nat, move: RefereeSolution, conditions: seq<PuzzleCondition>)
    requires coin.ph == r.OnChainPuzzleHash() && FirstCreate(conditions) == Some((r.OutcomePuzzleHash(), r.fixed.amount))
    ensures CoinSpent(clvm, r, coin, conditions, n, move)
            == Ok((Some(r), Expected(r.stateNumber, r.OutcomePuzzleHash(), r.fixed.amount)))
  {
    hide MoveSpent;
  }

  lemma TakenMoveKeepsCoin(clvm: Clvm, r: Referee, details: GameMoveDetails, n: nat)
    requires r.TheirTurn? && TheirTurnMoveOffChain(clvm, r, details, n).Ok?
    requires TheirTurnMoveOffChain(clvm, r, details, n).value.1.slash.None?
    ensures
      var next := TheirTurnMoveOffChain(clvm, r, details, n).value.0;
      next.Some? && next.value.createThisCoin == r.spendThisCoin
  {
    hide CanonicalAtom;
  }

  lemma MovedArgs(clvm: Clvm, r: Referee, details: GameMoveDetails, n: nat)
    requires r.TheirTurn? && TheirTurnMoveOffChain(clvm, r, details, n).Ok?
    ensures
      var (next, out) := TheirTurnMoveOffChain(clvm, r, details, n).value;
      out.slash.None? ==>
        && next.Some? && next.value.MyTurn? && next.value.fixed == r.fixed
        && next.value.spendThisCoin == ArgsAfterTheirMove(r, details, r.theirValidator)
  {
    hide CanonicalAtom;
  }

  /** Whatever move the opponent plays on the coin we wait on, honest or not:
      reading it never fails; we refuse it, follow it, or slash it as off chain;
      and what we follow, or slash, is the coin it created exactly when its
      share is a canonical atom. */
  lemma FollowsCoinIff(clvm: Clvm, r: Referee, coin: CoinString, n: nat, move: RefereeSolution)
    requires Watches(r, coin) && r.TheirTurn?
    requires move.MoveSolution? && MoveAllowed(r.spendThisCoin.Curried(), move)
    ensures DetailsOf(r.fixed, move).Ok?
    ensures
      var conditions := MoveConditions(r.spendThisCoin.Curried(), move).value;
      var spent := CoinSpent(clvm, r, coin, conditions, n, move);
      match TheirTurnMoveOffChain(clvm, r, DetailsOf(r.fixed, move).value, n)
      case Err(e) => spent == Err(RefereeRefused(e))
      case Ok((_, out)) =>
        if out.slash.None? then
          && spent.Ok? && spent.value.0.Some? && spent.value.1.Moved?
          && var next := spent.value.0.value;
          && next.MyTurn? && next.fixed == r.fixed && next.OutcomePuzzleHash() == spent.value.1.coin.ph
          && next.spendThisCoin == next.createThisCoin
          && next.spendThisCoin == ArgsAfterTheirMove(r, DetailsOf(r.fixed, move).value, r.theirValidator)
          && (spent.value.1.coin == CreatedBy(r, coin, move) <==> Canonical(move.moverShareRaw))
        else if Canonical(move.moverShareRaw) then
          && spent.Ok? && spent.value.0.None? && spent.value.1.Slashed?
          && spent.value.1.spend.coin == CreatedBy(r, coin, move)
          && spent.value.1.spend.puzzle == CreatedBy(r, coin, move).ph
        else spent == Err(PuzzleHashMismatch)
  {
    hide CanonicalAtom, TheirTurnMoveOffChain, MoveConditions, MoveAllowed, DetailsOf, FirstCreate, Canonical;
    AllowedMoveReads(r, move);
    FirstCreated(r.spendThisCoin.Curried(), move);
    var details := DetailsOf(r.fixed, move).value;
    SuccessorArgsIff(r, move, r.theirValidator);
    SuccessorArgsIff(r, move, r.slashValidator);
    if TheirTurnMoveOffChain(clvm, r, details, n).Ok? {
      MovedArgs(clvm, r, details, n);
    }
  }

  /** Such an atom: the puzzle takes two bytes for the number five as a share,
      and creates a coin that is not the one followed. */
  lemma NonCanonicalShareIsNotFollowed(clvm: Clvm, r: Referee, coin: CoinString, n: nat, move: RefereeSolution)
    requires Watches(r, coin) && r.TheirTurn? && r.fixed.amount >= 5
    requires move.MoveSolution? && move.moverShareRaw == [0x00, 0x05] && move.info == Info(NoInfo)
    requires r.spendThisCoin.gameMove.validationInfo != NoInfo && move.newMove == [] && move.maxMoveSizeRaw == []
    requires r.spendThisCoin.gameMove.basic.maxMoveSizeRaw == CanonicalAtom(r.MaxMoveSize())
    ensures MoveAllowed(r.spendThisCoin.Curried(), move) && !Canonical(move.moverShareRaw)
    ensures
      var spent := CoinSpent(clvm, r, coin, MoveConditions(r.spendThisCoin.Curried(), move).value, n, move);
      spent.Ok? ==> spent.value.1.Moved? && spent.value.1.coin != CreatedBy(r, coin, move)
  {
    var raw := move.moverShareRaw;
    assert raw[..1] == [0x00] && raw[..1][..0] == [] && Unsigned(raw[..1]) == 0 && Unsigned(raw) == 5;
    assert CanonicalAtom(5) == [0x05] by { assert BigEndian(0) == [] && BigEndian(5) == [0x05]; }
    CanonicalValue(r.MaxMoveSize());
    hide CanonicalAtom, TheirTurnMoveOffChain, CoinSpent, DetailsOf;
    FollowsCoinIff(clvm, r, coin, n, move);
  }

  // ---------------------------------------------------------------------------
  // Slashing
  // ---------------------------------------------------------------------------

  /** The commitment of the last agreed state opens with what was kept for a slash. */
  ghost predicate SlashReady(r: Referee) {
    r.TheirTurn? && r.handler.Some? ==>
      r.spendThisCoin.gameMove.validationInfo == KnownInfo(ValidationInfoOf(r.slashValidator, r.slashState))
  }

  lemma NewIsSlashReady(fixed: RefereeFixedContext, start: GameStartInfo, n: nat)
    ensures SlashReady(NewReferee(fixed, start, n))
  {
    hide CanonicalAtom;
  }

  lemma MoverIsSlashReady(clvm: Clvm, r: Referee, readable: Program, entropy: Bytes, n: nat)
    requires MyTurnMakeMove(clvm, r, readable, entropy, n).Ok?
    ensures SlashReady(MyTurnMakeMove(clvm, r, readable, entropy, n).value.0)
  {
    hide CanonicalAtom;
  }

  /** A slash of a cheating move opens the commitment the slashed coin carries,
      and is signed for the payout it names by that coin's mover. */
  lemma SlashOpensCommitment(clvm: Clvm, r: Referee, coin: CoinString, n: nat, move: RefereeSolution)
    requires Watches(r, coin) && r.TheirTurn? && SlashReady(r) && PayoutsSigned(r.fixed)
    requires move.MoveSolution? && MoveAllowed(r.spendThisCoin.Curried(), move)
    ensures
      var conditions := MoveConditions(r.spendThisCoin.Curried(), move).value;
      var spent := CoinSpent(clvm, r, coin, conditions, n, move);
      spent.Ok? && spent.value.1.Slashed? ==>
        var slash := spent.value.1.spend.solution;
        var slashed := Successor(r.spendThisCoin.Curried(), move);
        && spent.value.1.spend.puzzle == RefereePh(r.fixed.modHash, slashed)
        && slash.SlashSolution?
        && slashed.previousValidationInfo == KnownInfo(ValidationInfoOf(slash.validator, slash.state))
        && spent.value.1.spend.signature == HalfSignature(slashed.mover, None, PayoutMessage(slash.payout))
  {
    hide CanonicalAtom, MoveConditions, MoveAllowed, DetailsOf, FirstCreate, Canonical;
    AllowedMoveReads(r, move);
    FirstCreated(r.spendThisCoin.Curried(), move);
    FollowsCoinIff(clvm, r, coin, n, move);
  }

  // ---------------------------------------------------------------------------
  // Games played on chain
  // ---------------------------------------------------------------------------

  /** Opposite turns over the same coin; what the coin before it was does not
      matter. */
  ghost predicate SameCoin(a: Referee, b: Referee) {
    && MirroredContext(a.fixed, b.fixed) && ValidReferee(a) && ValidReferee(b)
    && a.MyTurn? == b.TheirTurn?
    && a.spendThisCoin.Curried() == b.spendThisCoin.Curried()
    && SameNumbers(a.spendThisCoin, b.spendThisCoin)
  }

  lemma AgreeingShareCoin(a: Referee, b: Referee)
    requires Agree(a, b)
    ensures SameCoin(a, b)
  {
    hide CanonicalAtom;
  }

  /** What happened to the program hash of a move's details does not matter to
      the one who receives it. */
  lemma ProgramHashIsIgnored(clvm: Clvm, r: Referee, details: GameMoveDetails, n: nat)
    requires r.TheirTurn?
    ensures
      var bare := details.(validationProgramHash := None);
      match (TheirTurnMoveOffChain(clvm, r, details, n), TheirTurnMoveOffChain(clvm, r, bare, n))
      case (Ok((x, out)), Ok((y, out'))) =>
        && out == out' && x.Some? == y.Some?
        && (x.Some? && x.value.MyTurn? ==>
              y.value == x.value.(spendThisCoin := x.value.spendThisCoin.(gameMove := bare)))
      case (Err(e), Err(e')) => e == e'
      case _ => false
  {
    hide CanonicalAtom;
    assert ArgsAfterTheirMove(r, details, r.theirValidator).Swap().Curried()
        == ArgsAfterTheirMove(r, details.(validationProgramHash := None), r.theirValidator).Swap().Curried();
  }

  datatype OnChainGame = OnChainGame(a: Referee, b: Referee, coin: CoinString)

  /** One turn played on chain: the mover's transaction spends the coin, and the
      waiter reads the spend. None when the mover or the puzzle refuses, or the
      waiter does not follow. */
  function PlayTurn(clvm: Clvm, maker: Referee, taker: Referee, coin: CoinString, t: Turn)
    : Option<(Referee, Referee, CoinString)>
  {
    match MyTurnMakeMove(clvm, maker, t.readable, t.entropy, t.makerNumber)
    case Err(_) => None
    case Ok((moved, _)) =>
      match TransactionForMove(moved)
      case Err(_) => None
      case Ok(transaction) =>
        if transaction.puzzle != coin.ph || !transaction.solution.MoveSolution? then None
        else
          match MoveConditions(maker.spendThisCoin.Curried(), transaction.solution)
          case None => None
          case Some(conditions) =>
            match (FirstCreate(conditions), CoinSpent(clvm, taker, coin, conditions, t.takerNumber, transaction.solution))
            case (Some((ph, amount)), Ok((Some(followed), Moved(_, _, _, _)))) =>
              Some((moved, followed, CoinString(IdOf(coin), ph, amount)))
            case _ => None
  }

  function PlayOnChain(clvm: Clvm, g: OnChainGame, turns: seq<Turn>): Option<OnChainGame>
    decreases |turns|
  {
    if turns == [] then Some(g)
    else if g.a.MyTurn? then
      match PlayTurn(clvm, g.a, g.b, g.coin, turns[0])
      case None => None
      case Some((a, b, coin)) => PlayOnChain(clvm, OnChainGame(a, b, coin), turns[1..])
    else
      match PlayTurn(clvm, g.b, g.a, g.coin, turns[0])
      case None => None
      case Some((b, a, coin)) => PlayOnChain(clvm, OnChainGame(a, b, coin), turns[1..])
  }

  ghost predicate GameOk(a: Referee, b: Referee, coin: CoinString) {
    SameCoin(a, b) && Watches(a, coin) && Watches(b, coin)
  }

  /** The turn was played off chain as well: same outcome for both. */
  lemma MakerMoves(clvm: Clvm, maker: Referee, taker: Referee, t: Turn)
    requires SameCoin(maker, taker) && MyTurnMakeMove(clvm, maker, t.readable, t.entropy, t.makerNumber).Ok?
    ensures
      var (moved, wire) := MyTurnMakeMove(clvm, maker, t.readable, t.entropy, t.makerNumber).value;
      && maker.MyTurn? && taker.TheirTurn? && moved.TheirTurn? && moved.fixed == maker.fixed && ValidReferee(moved)
      && moved.spendThisCoin == ArgsAfterMyMove(maker, wire.details, moved.spendThisCoin.validator)
      && moved.spendThisCoin.Curried() == ArgsAfterTheirMove(taker, wire.details, taker.theirValidator).Curried()
      && wire.details.basic.maxMoveSizeRaw == CanonicalAtom(wire.details.basic.maxMoveSize)
      && moved.moveSpend.Some? && moved.moveSpend.value.newMove == wire.details
      && ToMove(moved.moveSpend.value).info == Info(wire.details.validationInfo)
      && moved.createThisCoin == maker.spendThisCoin
  {
    hide CanonicalAtom;
  }

  lemma TransactionReads(maker: Referee, move: RefereeSolution, details: GameMoveDetails)
    requires move.MoveSolution? && DetailsOf(maker.fixed, move).Ok?
    requires move == MoveSolution(
                       details.basic.moveMade, Info(details.validationInfo),
                       CanonicalAtom(details.basic.moverShare), details.basic.maxMoveSizeRaw)
    requires details.basic.maxMoveSizeRaw == CanonicalAtom(details.basic.maxMoveSize)
    ensures DetailsOf(maker.fixed, move).value == details.(validationProgramHash := None)
    ensures Canonical(move.moverShareRaw)
  {
    hide CanonicalAtom;
    CanonicalValue(details.basic.moverShare);
    CanonicalValue(details.basic.maxMoveSize);
  }

  /** A move made off chain and then played on chain is expected by both: by its
      maker, and by the one who had taken it off chain.  Neither referee changes. */
  lemma PlayedMoveIsExpected(
    clvm: Clvm, maker: Referee, taker: Referee, coin: CoinString, t: Turn, n: nat)
    requires GameOk(maker, taker, coin) && MyTurnMakeMove(clvm, maker, t.readable, t.entropy, t.makerNumber).Ok?
    requires TransactionForMove(MyTurnMakeMove(clvm, maker, t.readable, t.entropy, t.makerNumber).value.0).Ok?
    requires
      var moved := MyTurnMakeMove(clvm, maker, t.readable, t.entropy, t.makerNumber).value.0;
      MoveConditions(maker.spendThisCoin.Curried(), ToMove(moved.moveSpend.value)).Some?
    ensures
      var (moved, wire) := MyTurnMakeMove(clvm, maker, t.readable, t.entropy, t.makerNumber).value;
      var move := ToMove(moved.moveSpend.value);
      var conditions := MoveConditions(maker.spendThisCoin.Curried(), move).value;
      && CoinSpent(clvm, moved, coin, conditions, n, move)
         == Ok((Some(moved), Expected(moved.stateNumber, moved.OutcomePuzzleHash(), coin.amount)))
      && var received := TheirTurnMoveOffChain(clvm, taker, wire.details, t.takerNumber);
      (received.Ok? && received.value.1.slash.None? ==>
         && received.value.0.Some?
         && var taken := received.value.0.value;
         CoinSpent(clvm, taken, coin, conditions, n, move)
         == Ok((Some(taken), Expected(taken.stateNumber, moved.OutcomePuzzleHash(), coin.amount))))
  {
    hide CanonicalAtom, MyTurnMakeMove, TheirTurnMoveOffChain, MoveAllowed, FirstCreate, CoinSpent;
    MakerMoves(clvm, maker, taker, t);
    var (moved, wire) := MyTurnMakeMove(clvm, maker, t.readable, t.entropy, t.makerNumber).value;
    var move := ToMove(moved.moveSpend.value);
    var c := maker.spendThisCoin.Curried();
    FirstCreated(c, move);
    CanonicalValue(wire.details.basic.moverShare);
    assert Successor(c, move) == moved.spendThisCoin.Curried();
    SpendExpected(clvm, moved, coin, n, move, MoveConditions(c, move).value);
    var received := TheirTurnMoveOffChain(clvm, taker, wire.details, t.takerNumber);
    if received.Ok? && received.value.1.slash.None? {
      MovedArgs(clvm, taker, wire.details, t.takerNumber);
      TakenMoveKeepsCoin(clvm, taker, wire.details, t.takerNumber);
      SpendExpected(clvm, received.value.0.value, coin, n, move, MoveConditions(c, move).value);
    }
  }

  /** One on-chain turn: the waiter follows the very coin the puzzle created,
      both sides agree about it, and the mover sees the spend it expects. */
  lemma TurnKeepsGame(clvm: Clvm, maker: Referee, taker: Referee, coin: CoinString, t: Turn)
    requires GameOk(maker, taker, coin) && PlayTurn(clvm, maker, taker, coin, t).Some?
    ensures
      var (moved, followed, created) := PlayTurn(clvm, maker, taker, coin, t).value;
      && GameOk(moved, followed, created) && moved.fixed == maker.fixed && followed.fixed == taker.fixed
      && moved.TheirTurn? && coin.ph == moved.OnChainPuzzleHash() && created.ph == moved.OutcomePuzzleHash()
  {
    hide CanonicalAtom, MyTurnMakeMove, TheirTurnMoveOffChain, MoveAllowed, DetailsOf, FirstCreate, Canonical;
    hide CoinSpent;
    MakerMoves(clvm, maker, taker, t);
    var (moved, wire) := MyTurnMakeMove(clvm, maker, t.readable, t.entropy, t.makerNumber).value;
    var move := ToMove(moved.moveSpend.value);
    var c := taker.spendThisCoin.Curried();
    assert MoveAllowed(c, move);
    FirstCreated(c, move);
    FollowsCoinIff(clvm, taker, coin, t.takerNumber, move);
    TransactionReads(taker, move, wire.details);
    SuccessorArgsIff(taker, move, taker.theirValidator);
    var details := wire.details.(validationProgramHash := None);
    var followed := CoinSpent(clvm, taker, coin, MoveConditions(c, move).value, t.takerNumber, move).value.0.value;
    assert followed.spendThisCoin == ArgsAfterTheirMove(taker, details, taker.theirValidator);
    assert followed.spendThisCoin.Curried() == moved.spendThisCoin.Curried();
    assert SameNumbers(moved.spendThisCoin, followed.spendThisCoin);
    assert ValidReferee(followed);
  }

  /** A turn can be played on chain exactly when the move can be made, fits the
      coin, and would have been taken without a slash off chain. */
  lemma TurnPlaysIff(clvm: Clvm, maker: Referee, taker: Referee, coin: CoinString, t: Turn)
    requires GameOk(maker, taker, coin) && maker.MyTurn?
    ensures PlayTurn(clvm, maker, taker, coin, t).Some? <==>
              && MyTurnMakeMove(clvm, maker, t.readable, t.entropy, t.makerNumber).Ok?
              && var wire := MyTurnMakeMove(clvm, maker, t.readable, t.entropy, t.makerNumber).value.1;
              && wire.details.basic.moverShare <= maker.fixed.amount && wire.details.basic.maxMoveSize < 0x8000
              && maker.spendThisCoin.gameMove.validationInfo != NoInfo
              && var received := TheirTurnMoveOffChain(clvm, taker, wire.details, t.takerNumber);
              && received.Ok? && received.value.1.slash.None?
  {
    hide CanonicalAtom, MyTurnMakeMove, TheirTurnMoveOffChain, MoveAllowed, DetailsOf, FirstCreate, Canonical;
    hide CoinSpent;
    var made := MyTurnMakeMove(clvm, maker, t.readable, t.entropy, t.makerNumber);
    if made.Ok? {
      var wire := made.value.1;
      MakerMoves(clvm, maker, taker, t);
      MovePlaysOnChainIff(clvm, maker, t.readable, t.entropy, t.makerNumber);
      ProgramHashIsIgnored(clvm, taker, wire.details, t.takerNumber);
      var move := ToMove(made.value.0.moveSpend.value);
      var c := taker.spendThisCoin.Curried();
      if MoveConditions(c, move).Some? {
        FirstCreated(c, move);
        FollowsCoinIff(clvm, taker, coin, t.takerNumber, move);
        TransactionReads(taker, move, wire.details);
      }
    }
  }

  /** Timeouts of the coin both wait on: the same spend, paying the shares. */
  lemma TimeoutsAgree(a: Referee, b: Referee, coin: CoinString)
    requires GameOk(a, b, coin)
    ensures TimeoutTransaction(a, coin.ph) == TimeoutTransaction(b, coin.ph)
            == TimeoutSpendFor(a.fixed, a.spendThisCoin)
    ensures a.OurCurrentShare().Ok? || b.OurCurrentShare().Ok?
    ensures a.OurCurrentShare().Ok? && b.OurCurrentShare().Ok? ==>
              a.OurCurrentShare().value + b.OurCurrentShare().value == a.fixed.amount
  {
    hide CanonicalAtom, TimeoutSpendFor;
    TimeoutOfCoin(a, coin);
    TimeoutOfCoin(b, coin);
    TimeoutSpendsAgree(a.fixed, b.fixed, a.spendThisCoin, b.spendThisCoin);
  }

  lemma TimeoutOfCoin(r: Referee, coin: CoinString)
    requires Watches(r, coin)
    ensures TimeoutTransaction(r, coin.ph) == TimeoutSpendFor(r.fixed, r.spendThisCoin)
  {
    hide CanonicalAtom;
    if coin.ph == r.OnChainPuzzleHash() {
      assert r.createThisCoin.Curried() == r.spendThisCoin.Curried();
      CanonicalIsInjective(r.createThisCoin.gameMove.basic.moverShare, r.spendThisCoin.gameMove.basic.moverShare);
    }
  }

  /** However long a game goes on on chain, the coin that exists is the one both
      referees expect, both build the same timeout for it, and their shares make
      up its amount. */
  lemma {:induction false} OnChainGameAgrees(clvm: Clvm, g: OnChainGame, turns: seq<Turn>)
    requires GameOk(g.a, g.b, g.coin) && PlayOnChain(clvm, g, turns).Some?
    ensures
      var end := PlayOnChain(clvm, g, turns).value;
      && GameOk(end.a, end.b, end.coin)
      && end.a.OutcomePuzzleHash() == end.b.OutcomePuzzleHash() == end.coin.ph
      && end.coin.amount == g.coin.amount
      && TimeoutTransaction(end.a, end.coin.ph) == TimeoutTransaction(end.b, end.coin.ph)
    decreases |turns|
  {
    hide PlayTurn, TimeoutTransaction, Watches, CanonicalAtom;
    if turns == [] {
      TimeoutsAgree(g.a, g.b, g.coin);
      WatchedCoin(g.a, g.coin);
      WatchedCoin(g.b, g.coin);
    } else if g.a.MyTurn? {
      TurnKeepsGame(clvm, g.a, g.b, g.coin, turns[0]);
      var (a, b, coin) := PlayTurn(clvm, g.a, g.b, g.coin, turns[0]).value;
      WatchedCoin(g.a, g.coin);
      WatchedCoin(a, coin);
      OnChainGameAgrees(clvm, OnChainGame(a, b, coin), turns[1..]);
    } else {
      SameCoinSymmetric(g.a, g.b);
      TurnKeepsGame(clvm, g.b, g.a, g.coin, turns[0]);
      var (b, a, coin) := PlayTurn(clvm, g.b, g.a, g.coin, turns[0]).value;
      SameCoinSymmetric(b, a);
      WatchedCoin(g.b, g.coin);
      WatchedCoin(b, coin);
      OnChainGameAgrees(clvm, OnChainGame(a, b, coin), turns[1..]);
    }
  }

  lemma WatchedCoin(r: Referee, coin: CoinString)
    requires Watches(r, coin)
    ensures coin.ph == r.OutcomePuzzleHash() && coin.amount == r.fixed.amount
  {
  }

  lemma SameCoinSymmetric(a: Referee, b: Referee)
    ensures SameCoin(a, b) <==> SameCoin(b, a)
  {
    hide CanonicalAtom;
  }

  /** From a proposal both accepted, through any moves off chain and then any on
      chain: the game's coin is where both sides look for it. */
  lemma GameGoesOnChain(
    clvm: Clvm, fa: RefereeFixedContext, fb: RefereeFixedContext, sa: GameStartInfo, sb: GameStartInfo,
    na: nat, nb: nat, offChain: seq<Turn>, onChain: seq<Turn>, parent: CoinID)
    requires MirroredContext(fa, fb) && MirroredStart(sa, sb) && fa.myKey != fa.theirKey && fa.amount < U64_LIMIT
    requires Play(clvm, NewReferee(fa, sa, na), NewReferee(fb, sb, nb), offChain).Some?
    requires
      var (a, b) := Play(clvm, NewReferee(fa, sa, na), NewReferee(fb, sb, nb), offChain).value;
      PlayOnChain(clvm, OnChainGame(a, b, CoinString(parent, a.OutcomePuzzleHash(), fa.amount)), onChain).Some?
    ensures
      var (a, b) := Play(clvm, NewReferee(fa, sa, na), NewReferee(fb, sb, nb), offChain).value;
      var end := PlayOnChain(
                   clvm, OnChainGame(a, b, CoinString(parent, a.OutcomePuzzleHash(), fa.amount)), onChain).value;
      && end.a.OutcomePuzzleHash() == end.b.OutcomePuzzleHash() == end.coin.ph && end.coin.amount == fa.amount
      && TimeoutTransaction(end.a, end.coin.ph) == TimeoutTransaction(end.b, end.coin.ph)
  {
    hide PlayOnChain, Play, TimeoutTransaction, CanonicalAtom;
    var a0, b0 := NewReferee(fa, sa, na), NewReferee(fb, sb, nb);
    NewRefereesAgree(fa, fb, sa, sb, na, nb);
    PlayKeepsAgreement(clvm, a0, b0, offChain);
    PlayKeepsContext(clvm, a0, b0, offChain);
    var (a, b) := Play(clvm, a0, b0, offChain).value;
    AgreeingShareCoin(a, b);
    OnChainGameAgrees(clvm, OnChainGame(a, b, CoinString(parent, a.OutcomePuzzleHash(), fa.amount)), onChain);
  }
}

/** What the two referees of a game check of each other's moves (src/referee). */
module GameLaws {
  import opened Wrappers
  import opened Chain
  import opened Referees

  // ---------------------------------------------------------------------------
  // Slashing
  // ---------------------------------------------------------------------------

  /** What the validator says of a received move, given evidence against it. */
  function VerdictOn(clvm: Clvm, r: Referee, details: GameMoveDetails, evidence: Evidence): Result<Verdict, RefereeError>
    requires r.TheirTurn?
  {
    clvm.validate(
      r.theirValidator, ArgsAfterTheirMove(r, details, r.theirValidator).Swap().Curried(), r.state, evidence)
  }

  /** Evidence a slash carries convinces the validator ... */
  lemma {:induction false} FirstSlashConvinces(
    clvm: Clvm, validator: StateUpdateProgram, curried: CurriedReferee, state: Program, offered: seq<Evidence>)
    ensures
      match FirstSlash(clvm, validator, curried, state, offered)
      case Some(evidence) => evidence in offered && clvm.validate(validator, curried, state, evidence) == Ok(Slashable)
      case None => forall e <- offered :: clvm.validate(validator, curried, state, e) != Ok(Slashable)
  {
    if offered != [] {
      FirstSlashConvinces(clvm, validator, curried, state, offered[1..]);
    }
  }

  /** ... and a move is followed exactly when neither no evidence nor any that our
      handler offers convinces it, the handler having answered. */
  lemma SlashedIff(clvm: Clvm, r: Referee, details: GameMoveDetails, n: nat)
    requires r.TheirTurn? && TheirTurnMoveOffChain(clvm, r, details, n).Ok?
    ensures
      var (next, out) := TheirTurnMoveOffChain(clvm, r, details, n).value;
      && (next.None? <==> out.slash.Some?)
      && (out.slash.Some? ==> VerdictOn(clvm, r, details, out.slash.value) == Ok(Slashable))
      && (VerdictOn(clvm, r, details, NIL_EVIDENCE) == Ok(Slashable) ==> out.slash == Some(NIL_EVIDENCE))
      && (next.Some? ==>
            && VerdictOn(clvm, r, details, NIL_EVIDENCE) != Ok(Slashable)
            && exists answer: TheirTurnResult ::
                 && HandlerAnswers(clvm, r, details, answer)
                 && forall e <- answer.slashEvidence :: VerdictOn(clvm, r, details, e) != Ok(Slashable))
  {
    hide CanonicalAtom;
    var curried := ArgsAfterTheirMove(r, details, r.theirValidator).Swap().Curried();
    if TheirTurnMoveOffChain(clvm, r, details, n).value.0.Some? || VerdictOn(clvm, r, details, NIL_EVIDENCE) != Ok(Slashable) {
      var answer := clvm.theirTurn(
        r.handler.value,
        TheirTurnInputs(
          r.fixed.amount, r.state, StateAfterTheirs(clvm, r, details), details.basic.moveMade, details.basic.moverShare,
          details.(validationProgramHash := Some(r.theirValidator.hash)))).value;
      FirstSlashConvinces(clvm, r.theirValidator, curried, r.state, answer.slashEvidence);
      assert HandlerAnswers(clvm, r, details, answer);
    }
  }

  function StateAfterTheirs(clvm: Clvm, r: Referee, details: GameMoveDetails): Program
    requires r.TheirTurn?
  {
    var verdict := VerdictOn(clvm, r, details, NIL_EVIDENCE);
    if details.validationInfo != NoInfo && verdict.Ok? && verdict.value.Accepted? then verdict.value.state else NIL_PROGRAM
  }

  /** Our handler, asked about the move in the state it leads to. */
  ghost predicate HandlerAnswers(clvm: Clvm, r: Referee, details: GameMoveDetails, answer: TheirTurnResult)
    requires r.TheirTurn?
  {
    r.handler.Some? &&
    clvm.theirTurn(
      r.handler.value,
      TheirTurnInputs(
        r.fixed.amount, r.state, StateAfterTheirs(clvm, r, details), details.basic.moveMade, details.basic.moverShare,
        details.(validationProgramHash := Some(r.theirValidator.hash))))
    == Ok(answer)
  }

  // ---------------------------------------------------------------------------
  // Both sides check the same thing
  // ---------------------------------------------------------------------------

  /** The two referees hold the same game state, and the taker has been given the
      validator the maker's handler moves by. */
  ghost predicate SameRules(maker: Referee, taker: Referee, result: MyTurnResult) {
    taker.TheirTurn? && maker.state == taker.state && result.outgoing == taker.theirValidator
  }

  ghost predicate MakerAnswers(clvm: Clvm, r: Referee, readable: Program, entropy: Bytes, result: MyTurnResult) {
    r.handler.Some? &&
    clvm.myTurn(
      r.handler.value, MyTurnInputs(readable, r.fixed.amount, r.spendThisCoin.gameMove.basic.moverShare, entropy, r.state))
    == Ok(result)
  }

  /** What the maker has checked before it moves is what the taker checks: a move
      that goes out is never slashed without evidence, and both are left in the
      same game state, ready for each other's validators. */
  lemma CheckedMoveStands(
    clvm: Clvm, maker: Referee, taker: Referee, readable: Program, entropy: Bytes, na: nat, nb: nat, result: MyTurnResult)
    requires Agree(maker, taker) && MakerAnswers(clvm, maker, readable, entropy, result) && SameRules(maker, taker, result)
    requires MyTurnMakeMove(clvm, maker, readable, entropy, na).Ok?
    ensures
      var (moved, wire) := MyTurnMakeMove(clvm, maker, readable, entropy, na).value;
      && VerdictOn(clvm, taker, wire.details, NIL_EVIDENCE) != Ok(Slashable)
      && moved.theirValidator == result.incoming && moved.slashValidator == result.outgoing && moved.slashState == maker.state
      && moved.handler == result.waitingHandler
      && (TheirTurnMoveOffChain(clvm, taker, wire.details, nb).Ok?
          && TheirTurnMoveOffChain(clvm, taker, wire.details, nb).value.0.Some? ==>
            var next := TheirTurnMoveOffChain(clvm, taker, wire.details, nb).value.0.value;
            && (result.waitingHandler.Some? ==> next.state == moved.state)
            && exists answer: TheirTurnResult ::
                 HandlerAnswers(clvm, taker, wire.details, answer) && next.handler == answer.nextHandler)
  {
    hide CanonicalAtom;
    var (moved, wire) := MyTurnMakeMove(clvm, maker, readable, entropy, na).value;
    var made := ArgsAfterMyMove(maker, wire.details, result.outgoing);
    assert made.Swap().Curried() == ArgsAfterTheirMove(taker, wire.details, taker.theirValidator).Swap().Curried();
    var taken := TheirTurnMoveOffChain(clvm, taker, wire.details, nb);
    if taken.Ok? && taken.value.0.Some? {
      SlashedIff(clvm, taker, wire.details, nb);
      var answer :| HandlerAnswers(clvm, taker, wire.details, answer);
      assert taken.value.0.value.handler == answer.nextHandler;
    }
  }
}

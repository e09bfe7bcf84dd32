/** What each operation does to what the two sides own, and what a side lets in
    (src/channel_state/mod.rs). */
module ChannelLaws {
  import opened Wrappers
  import opened Chain
  import opened Referees
  import opened Channels
  import opened OffChainPeers

  // ---------------------------------------------------------------------------
  // What each side owns
  // ---------------------------------------------------------------------------

  /** What we would own if every live game were called off. */
  function Ours(ch: Channel): nat { ch.myOut + ch.myAllocated }

  function Theirs(ch: Channel): nat { ch.theirOut + ch.theirAllocated }

  /** At the start each side owns its contribution, and even numbers for games are
      those of the side whose channel is told that it starts with the potato. */
  lemma StartOwnsContributions(id: ChannelIdentity, start: bool, mine: nat, theirs: nat)
    requires NewChannel(id, start, mine, theirs).Ok?
    ensures
      var ch := NewChannel(id, start, mine, theirs).value;
      && Ours(ch) == ch.myOut == mine && Theirs(ch) == ch.theirOut == theirs
      && (ch.IsOurNonce(0) <==> start) && (ch.IsOurNonce(1) <==> !start)
      && {ch.myNextNonce, ch.theirNextNonce} == {0, 1}
  {
    hide UpdatedUnroll;
  }

  predicate OwnTheSame(ch: Channel, next: Channel) { Ours(next) == Ours(ch) && Theirs(next) == Theirs(ch) }

  /** Nothing but a settlement changes what a side owns: no acceptance or
      cancellation, ... */
  lemma ProposalsOwnNothing(ch: Channel, id: nat)
    ensures SendAcceptProposal(ch, id).Ok? ==> OwnTheSame(ch, SendAcceptProposal(ch, id).value)
    ensures ApplyReceivedAcceptProposal(ch, id).Ok? ==> OwnTheSame(ch, ApplyReceivedAcceptProposal(ch, id).value)
    ensures CancelProposal(ch, id).Ok? ==> OwnTheSame(ch, CancelProposal(ch, id).value)
  {
    hide RemoveAt;
  }

  /** ... and no move, ... */
  lemma MovesOwnNothing(clvm: Clvm, ch: Channel, id: nat, readable: Program, entropy: Bytes, details: GameMoveDetails)
    ensures
      SendMove(clvm, ch, id, readable, entropy).Ok? ==>
        OwnTheSame(ch, SendMove(clvm, ch, id, readable, entropy).value.0)
    ensures
      ApplyReceivedMove(clvm, ch, id, details).Ok? ==> OwnTheSame(ch, ApplyReceivedMove(clvm, ch, id, details).value.0)
  {
    hide MyTurnMakeMove, TheirTurnMoveOffChain, Referee.OutcomePuzzleHash;
  }

  /** ... but a settlement gives each side its share of the game for its stake in it. */
  lemma SettlementOwns(ch: Channel, id: nat)
    ensures
      SendAcceptSettlement(ch, id).Ok? ==>
        var (next, share) := SendAcceptSettlement(ch, id).value;
        var game := ch.live[LivePosition(ch.live, id).value];
        && game.referee.OurCurrentShare() == Ok(share) && share <= game.Amount()
        && Ours(next) + game.myContribution == Ours(ch) + share
        && Theirs(next) + game.theirContribution == Theirs(ch) + (game.Amount() - share)
    ensures
      ApplyReceivedAcceptSettlement(ch, id).Ok? ==>
        var (next, share) := ApplyReceivedAcceptSettlement(ch, id).value;
        var game := ch.live[LivePosition(ch.live, id).value];
        && game.referee.OurCurrentShare() == Ok(share) && share <= game.Amount()
        && Ours(next) + game.myContribution == Ours(ch) + share
        && Theirs(next) + game.theirContribution == Theirs(ch) + (game.Amount() - share)
  {
    hide Referee.OurCurrentShare, RemoveAt, Referee.IsGameOver;
  }

  // ---------------------------------------------------------------------------
  // From a factory's game to the stakes in it
  // ---------------------------------------------------------------------------

  lemma {:induction false} LastProposalFound(proposals: seq<ProposedGame>, p: ProposedGame)
    requires ProposalPosition(proposals, p.gameId).None?
    ensures ProposalPosition(proposals + [p], p.gameId) == Some(|proposals|)
  {
    if proposals == [] {
      assert [] + [p] == [p];
    } else {
      assert (proposals + [p])[1..] == proposals[1..] + [p];
      LastProposalFound(proposals[1..], p);
    }
  }

  /** A game a factory describes, proposed by one side and accepted by the other:
      the proposer puts in the sender's contribution and the other the receiver's,
      and the side the factory says goes first has the first turn, with its
      handler. */
  lemma GameStakesAsDescribed(
    sender: Channel, receiver: Channel, game: FactoryGame, id: nat, timeout: nat, groupId: nat)
    requires ProposalPosition(sender.proposed, id).None? && ProposalPosition(receiver.proposed, id).None?
    requires ApplyReceivedProposal(receiver, GameStart(game, id, timeout, false), groupId).Ok?
    ensures
      var proposed := SendProposeGame(sender, GameStart(game, id, timeout, true), groupId);
      var taken := ApplyReceivedProposal(receiver, GameStart(game, id, timeout, false), groupId).value;
      && (AcceptProposalInner(proposed, id).Ok? <==>
            game.senderContribution <= sender.myOut && game.receiverContribution <= sender.theirOut)
      && (AcceptProposalInner(taken, id).Ok? <==>
            game.receiverContribution <= receiver.myOut && game.senderContribution <= receiver.theirOut)
      && (AcceptProposalInner(proposed, id).Ok? ==>
            var next := AcceptProposalInner(proposed, id).value;
            && next.myOut == sender.myOut - game.senderContribution
            && next.theirOut == sender.theirOut - game.receiverContribution
            && |next.live| == |sender.live| + 1 && next.live[..|sender.live|] == sender.live
            && Opens(next.live[|sender.live|], game, id, timeout, true))
      && (AcceptProposalInner(taken, id).Ok? ==>
            var next := AcceptProposalInner(taken, id).value;
            && next.myOut == receiver.myOut - game.receiverContribution
            && next.theirOut == receiver.theirOut - game.senderContribution
            && |next.live| == |receiver.live| + 1 && next.live[..|receiver.live|] == receiver.live
            && Opens(next.live[|receiver.live|], game, id, timeout, false))
  {
    hide AcceptProposalInner, ProposalOf, Opens, GameStart;
    var ours, theirs := GameStart(game, id, timeout, true), GameStart(game, id, timeout, false);
    StartStakes(game, id, timeout);
    AcceptedStart(sender, SendProposeGame(sender, ours, groupId), ours, groupId);
    AcceptedStart(receiver, ApplyReceivedProposal(receiver, theirs, groupId).value, theirs, groupId);
    OpensAsDescribed(sender, game, id, timeout, groupId, true);
    OpensAsDescribed(receiver, game, id, timeout, groupId, false);
  }

  lemma StartStakes(game: FactoryGame, id: nat, timeout: nat)
    ensures GameStart(game, id, timeout, true).gameId == id == GameStart(game, id, timeout, false).gameId
    ensures GameStart(game, id, timeout, true).myContribution == game.senderContribution
            == GameStart(game, id, timeout, false).theirContribution
    ensures GameStart(game, id, timeout, true).theirContribution == game.receiverContribution
            == GameStart(game, id, timeout, false).myContribution
  {
  }

  function GameOf(p: ProposedGame): LiveGame {
    LiveGame(p.gameId, p.initialPh, p.referee, p.myContribution, p.theirContribution)
  }

  lemma AcceptedStart(ch: Channel, proposed: Channel, start: GameStartInfo, groupId: nat)
    requires ProposalPosition(ch.proposed, start.gameId).None?
    requires proposed == ch.(proposed := ch.proposed + [ProposalOf(ch, start, groupId)], theirNextNonce := proposed.theirNextNonce)
    ensures
      var r := AcceptProposalInner(proposed, start.gameId);
      && (r.Ok? <==> start.myContribution <= ch.myOut && start.theirContribution <= ch.theirOut)
      && (r.Ok? ==>
            && r.value.myOut == ch.myOut - start.myContribution && r.value.theirOut == ch.theirOut - start.theirContribution
            && r.value.live == ch.live + [GameOf(ProposalOf(ch, start, groupId))])
  {
    var p := ProposalOf(ch, start, groupId);
    assert p.gameId == start.gameId && p.myContribution == start.myContribution
        && p.theirContribution == start.theirContribution;
    hide ProposalOf, ProposalPosition, RemoveAt;
    LastProposalFound(ch.proposed, p);
  }

  lemma OpensAsDescribed(ch: Channel, game: FactoryGame, id: nat, timeout: nat, groupId: nat, senderSide: bool)
    ensures Opens(GameOf(ProposalOf(ch, GameStart(game, id, timeout, senderSide), groupId)), game, id, timeout, senderSide)
  {
    hide CanonicalAtom, Referee.OutcomePuzzleHash;
  }

  /** A live game just opened as the factory describes, for one side of it. */
  predicate Opens(live: LiveGame, game: FactoryGame, id: nat, timeout: nat, senderSide: bool) {
    var r := live.referee;
    && live.gameId == id && live.Amount() == game.amount
    && live.myContribution == (if senderSide then game.senderContribution else game.receiverContribution)
    && live.theirContribution == (if senderSide then game.receiverContribution else game.senderContribution)
    && (live.IsMyTurn() <==> senderSide == game.senderGoesFirst)
    && r.handler == Some(if live.IsMyTurn() then MyTurnHandler(game.myTurnHandler) else TheirTurnHandler(game.theirTurnHandler))
    && r.state == game.initialState && r.fixed.timeout == timeout
    && r.spendThisCoin.gameMove.basic.moveMade == game.initialMove
    && r.spendThisCoin.gameMove.basic.moverShare == game.initialMoverShare
    && r.MaxMoveSize() == game.initialMaxMoveSize
    && (r.TheirTurn? ==> r.theirValidator == StateUpdateProgram(game.validator, game.validatorHash))
  }

  // ---------------------------------------------------------------------------
  // What is let in
  // ---------------------------------------------------------------------------

  /** A received proposal gets in exactly when its number is one the peer may use
      next and not far ahead, its amount is the sum of the stakes and fits 64 bits,
      its timeout is positive, and there are not too many proposals already. */
  lemma ProposalLetInIff(ch: Channel, start: GameStartInfo, groupId: nat)
    ensures ApplyReceivedProposal(ch, start, groupId).Ok? <==>
              && start.gameId % 2 == ch.theirNextNonce % 2
              && ch.theirNextNonce <= start.gameId <= ch.theirNextNonce + 1000
              && start.amount == start.myContribution + start.theirContribution < U64_LIMIT
              && start.timeout > 0 && |ch.proposed| < 100
    ensures
      var r := ApplyReceivedProposal(ch, start, groupId);
      r.Ok? ==>
        && |r.value.proposed| == |ch.proposed| + 1 <= 100 && r.value.proposed[..|ch.proposed|] == ch.proposed
        && r.value.proposed[|ch.proposed|].referee.fixed.timeout > 0
        && r.value.proposed[|ch.proposed|].gameId == start.gameId < r.value.theirNextNonce
        && r.value.proposed[|ch.proposed|].groupId == groupId
  {
    hide CanonicalAtom, Referee.OutcomePuzzleHash;
  }

  /** The peer's acceptance gets in exactly when it is of an open proposal of ours,
      by its number, that both balances cover. */
  lemma AcceptLetInIff(ch: Channel, id: nat)
    ensures
      var at := ProposalPosition(ch.proposed, id);
      ApplyReceivedAcceptProposal(ch, id).Ok? <==>
        && at.Some? && id % 2 == ch.myNextNonce % 2
        && ch.proposed[at.value].myContribution <= ch.myOut && ch.proposed[at.value].theirContribution <= ch.theirOut
  {
    hide RemoveAt, ProposalPosition;
  }

  /** A received move gets in exactly when it is for a live game at the peer's
      turn, its share is within the amount and its size within the limit, and our
      referee follows it; the share of the coin it makes then fits the game. */
  lemma MoveLetInIff(clvm: Clvm, ch: Channel, id: nat, details: GameMoveDetails)
    ensures
      var at := LivePosition(ch.live, id);
      var r := ApplyReceivedMove(clvm, ch, id, details);
      && (r.Ok? <==>
            && at.Some? && !ch.live[at.value].IsMyTurn()
            && details.basic.moverShare <= ch.live[at.value].Amount()
            && |details.basic.moveMade| <= ch.live[at.value].referee.MaxMoveSize()
            && var taken := TheirTurnMoveOffChain(clvm, ch.live[at.value].referee, details, ch.stateNumber);
            taken.Ok? && taken.value.0.Some? && taken.value.1.slash.None?)
      && (r.Ok? ==>
            && r.value.0.live[at.value].IsMyTurn()
            && r.value.0.live[at.value].referee.spendThisCoin.gameMove == details
            && r.value.0.live[at.value].referee.OurCurrentShare() == Ok(details.basic.moverShare)
            && details.basic.moverShare <= r.value.0.live[at.value].Amount())
  {
    hide CanonicalAtom;
  }

  // ---------------------------------------------------------------------------
  // Reports of settlements
  // ---------------------------------------------------------------------------

  /** A settlement we send is reported, once it stands, with what it paid us. */
  lemma SettlementIsReported(ch: Channel, id: nat)
    requires SendAcceptSettlement(ch, id).Ok?
    ensures
      var (next, share) := SendAcceptSettlement(ch, id).value;
      var game := ch.live[LivePosition(ch.live, id).value];
      && next.myOut == ch.myOut + share && |next.cached| == |ch.cached| + 1
      && next.cached[|ch.cached|].atStake == game.Amount() == share + (next.theirOut - ch.theirOut)
      && SettlementReports(next.cached) == SettlementReports(ch.cached) + [(id, share, game.referee.IsGameOver())]
  {
    hide Referee.OurCurrentShare, RemoveAt, Referee.IsGameOver, Referee.OutcomePuzzleHash;
    var next := SendAcceptSettlement(ch, id).value.0;
    ReportsOfAppend(ch.cached, next.cached[|ch.cached|]);
  }

  lemma {:induction false} ReportsOfAppend(cached: seq<CachedRedo>, e: CachedRedo)
    ensures SettlementReports(cached + [e])
            == SettlementReports(cached) + if e.CachedAcceptSettlement? then [(e.gameId, e.ourShare, e.finished)] else []
  {
    if cached == [] {
      assert [] + [e] == [e] && [e][1..] == [];
    } else {
      var rest, first := cached[1..], cached[0];
      var report := if first.CachedAcceptSettlement? then [(first.gameId, first.ourShare, first.finished)] else [];
      assert (cached + [e])[0] == first && (cached + [e])[1..] == rest + [e];
      assert SettlementReports(cached + [e]) == report + SettlementReports(rest + [e]);
      assert SettlementReports(cached) == report + SettlementReports(rest);
      hide SettlementReports;
      ReportsOfAppend(rest, e);
    }
  }

  /** Taking in a state loses none of them, and no move is kept for replay. */
  lemma {:induction false} ReportsSurvive(cached: seq<CachedRedo>)
    ensures SettlementReports(OnlySettlements(cached)) == SettlementReports(cached)
    ensures SettlementReports(WithoutSettlements(cached)) == []
  {
    if cached != [] {
      ReportsSurvive(cached[1..]);
      if cached[0].CachedAcceptSettlement? {
        assert OnlySettlements(cached)[1..] == OnlySettlements(cached[1..]);
        assert WithoutSettlements(cached) == WithoutSettlements(cached[1..]);
      } else {
        assert OnlySettlements(cached) == OnlySettlements(cached[1..]);
        assert WithoutSettlements(cached)[1..] == WithoutSettlements(cached[1..]);
      }
    }
  }
}

/** The games of a channel are played by its two players (src/channel_state): what
    their referees would pay, and whose turn they are at when they go on chain. */
module ChannelReferees {
  import opened Wrappers
  import opened Chain
  import opened Referees
  import opened Channels
  import opened OffChainPeers
  import R = RefereeOnChain

  // ---------------------------------------------------------------------------
  // Games that belong to the channel
  // ---------------------------------------------------------------------------

  ghost predicate OfChannel(id: ChannelIdentity, r: Referee) {
    && ValidReferee(r)
    && r.fixed.modHash == id.refereeModHash
    && r.fixed.myKey == id.myRefereeKey && r.fixed.theirKey == id.theirRefereeKey
    && r.fixed.rewardPh == id.rewardPh && r.fixed.theirRewardPh == id.theirRewardPh
    && r.fixed.myPayoutSignature == id.MyPayoutSignature()
    && r.fixed.theirPayoutSignature == id.theirPayoutSignature
  }

  ghost predicate GameOfChannel(id: ChannelIdentity, g: LiveGame) {
    OfChannel(id, g.referee) && g.lastPh == g.referee.OutcomePuzzleHash() && g.gameId == g.referee.fixed.nonce
  }

  ghost predicate ProposalOfChannel(id: ChannelIdentity, p: ProposedGame) {
    OfChannel(id, p.referee) && p.initialPh == p.referee.OutcomePuzzleHash() && p.gameId == p.referee.fixed.nonce
  }

  /** A cached move is from a coin with us as its mover to one with them. */
  ghost predicate RedoOfChannel(id: ChannelIdentity, e: CachedRedo) {
    e.CachedSendMove? ==>
      && OfChannel(id, e.savedReferee) && e.savedReferee.TheirTurn? && e.savedReferee.fixed.nonce == e.gameId
      && e.savedLastPh == e.savedReferee.OutcomePuzzleHash()
      && e.matchPuzzleHash == e.puzzleHash == e.savedReferee.OnChainPuzzleHash()
      && e.amount == e.savedReferee.spendThisCoin.gameMove.basic.moverShare
      && e.matchPuzzleHash.RefereePh?
      && e.matchPuzzleHash.curried.mover == id.myRefereeKey && e.matchPuzzleHash.curried.waiter == id.theirRefereeKey
  }

  ghost predicate Belongs(ch: Channel) {
    && (forall i :: 0 <= i < |ch.live| ==> GameOfChannel(ch.id, ch.live[i]))
    && (forall i :: 0 <= i < |ch.pending| ==> GameOfChannel(ch.id, ch.pending[i]))
    && (forall i :: 0 <= i < |ch.proposed| ==> ProposalOfChannel(ch.id, ch.proposed[i]))
    && (forall i :: 0 <= i < |ch.cached| ==> RedoOfChannel(ch.id, ch.cached[i]))
  }

  /** Games settled since the last state came in were settled on our turn. */
  ghost predicate PendingOurs(ch: Channel) { forall i :: 0 <= i < |ch.pending| ==> ch.pending[i].IsMyTurn() }

  /** No state has been signed or taken in. */
  ghost predicate SameStates(ch: Channel, next: Channel) {
    && next.id == ch.id && next.latestSent == ch.latestSent && next.latestReceived == ch.latestReceived
    && next.unrollMap == ch.unrollMap
  }

  ghost predicate Kept(ch: Channel, next: Channel) {
    && SameStates(ch, next)
    && (Belongs(ch) ==> Belongs(next)) && (Belongs(ch) && PendingOurs(ch) ==> PendingOurs(next))
  }

  lemma KeptThrough(a: Channel, b: Channel, c: Channel)
    requires Kept(a, b) && Kept(b, c)
    ensures Kept(a, c)
  {
  }

  // --- Operations -------------------------------------------------------------------

  lemma ProposedBelongs(ch: Channel, start: GameStartInfo, groupId: nat)
    ensures ProposalOfChannel(ch.id, ProposalOf(ch, start, groupId))
    ensures Kept(ch, SendProposeGame(ch, start, groupId))
    ensures ApplyReceivedProposal(ch, start, groupId).Ok? ==>
              Kept(ch, ApplyReceivedProposal(ch, start, groupId).value)
  {
    hide CanonicalAtom;
  }

  lemma InnerBelongs(ch: Channel, id: nat)
    requires AcceptProposalInner(ch, id).Ok?
    ensures Kept(ch, AcceptProposalInner(ch, id).value)
  {
    hide OfChannel, Referee.OutcomePuzzleHash, RedoOfChannel, GameOfChannel, ProposalOfChannel;
    var at := ProposalPosition(ch.proposed, id).value;
    if Belongs(ch) {
      ProposalBecomesGame(ch.id, ch.proposed[at]);
    }
  }

  lemma AcceptedBelongs(ch: Channel, id: nat)
    ensures SendAcceptProposal(ch, id).Ok? ==> Kept(ch, SendAcceptProposal(ch, id).value)
    ensures ApplyReceivedAcceptProposal(ch, id).Ok? ==> Kept(ch, ApplyReceivedAcceptProposal(ch, id).value)
    ensures CancelProposal(ch, id).Ok? ==> Kept(ch, CancelProposal(ch, id).value)
  {
    hide AcceptProposalInner, GameOfChannel, ProposalOfChannel, OfChannel;
    if AcceptProposalInner(ch, id).Ok? {
      InnerBelongs(ch, id);
    }
  }

  lemma ProposalBecomesGame(id: ChannelIdentity, p: ProposedGame)
    requires ProposalOfChannel(id, p)
    ensures GameOfChannel(id, LiveGame(p.gameId, p.initialPh, p.referee, p.myContribution, p.theirContribution))
  {
    hide OfChannel;
  }

  lemma MovedBelongs(clvm: Clvm, id: ChannelIdentity, r: Referee, readable: Program, entropy: Bytes, n: nat)
    requires OfChannel(id, r) && MyTurnMakeMove(clvm, r, readable, entropy, n).Ok?
    ensures
      var (moved, wire) := MyTurnMakeMove(clvm, r, readable, entropy, n).value;
      && OfChannel(id, moved) && moved.TheirTurn? && moved.fixed == r.fixed
      && wire.puzzleHashForUnroll == moved.OnChainPuzzleHash()
      && wire.details == moved.spendThisCoin.gameMove && wire.puzzleHashForUnroll.RefereePh?
      && wire.puzzleHashForUnroll.curried.mover == id.myRefereeKey
      && wire.puzzleHashForUnroll.curried.waiter == id.theirRefereeKey
  {
    hide CanonicalAtom;
  }

  lemma SentMoveBelongs(clvm: Clvm, ch: Channel, id: nat, readable: Program, entropy: Bytes)
    requires SendMove(clvm, ch, id, readable, entropy).Ok?
    ensures Kept(ch, SendMove(clvm, ch, id, readable, entropy).value.0)
  {
    var at := LivePosition(ch.live, id).value;
    var r := ch.live[at].referee;
    if Belongs(ch) {
      assert GameOfChannel(ch.id, ch.live[at]);
      MovedBelongs(clvm, ch.id, r, readable, entropy, ch.stateNumber);
      hide MyTurnMakeMove, OfChannel, Referee.OutcomePuzzleHash, Referee.OnChainPuzzleHash, ProposalOfChannel;
      var next := SendMove(clvm, ch, id, readable, entropy).value.0;
      assert GameOfChannel(ch.id, next.live[at]);
      assert RedoOfChannel(ch.id, next.cached[|ch.cached|]);
    }
  }

  lemma TakenBelongs(clvm: Clvm, id: ChannelIdentity, r: Referee, details: GameMoveDetails, n: nat)
    requires OfChannel(id, r) && TheirTurnMoveOffChain(clvm, r, details, n).Ok?
    ensures
      var next := TheirTurnMoveOffChain(clvm, r, details, n).value.0;
      next.Some? ==> OfChannel(id, next.value) && next.value.fixed == r.fixed
  {
    hide CanonicalAtom;
  }

  lemma ReceivedMoveBelongs(clvm: Clvm, ch: Channel, id: nat, details: GameMoveDetails)
    requires ApplyReceivedMove(clvm, ch, id, details).Ok?
    ensures Kept(ch, ApplyReceivedMove(clvm, ch, id, details).value.0)
  {
    var at := LivePosition(ch.live, id).value;
    if Belongs(ch) {
      assert GameOfChannel(ch.id, ch.live[at]);
      TakenBelongs(clvm, ch.id, ch.live[at].referee, details, ch.stateNumber);
      hide TheirTurnMoveOffChain, OfChannel, Referee.OutcomePuzzleHash, ProposalOfChannel, RedoOfChannel;
    }
  }

  /** Taking one game out of those that are live. */
  lemma WithoutGameBelongs(ch: Channel, at: nat, next: Channel)
    requires Belongs(ch) && at < |ch.live| && next.id == ch.id && next.live == RemoveAt(ch.live, at)
    requires next.pending == ch.pending || next.pending == ch.pending + [ch.live[at]]
    requires next.proposed == ch.proposed
    requires next.cached == ch.cached
             || (next.cached != [] && next.cached[..|next.cached| - 1] == ch.cached
                 && next.cached[|next.cached| - 1].CachedAcceptSettlement?)
    ensures Belongs(next)
    ensures PendingOurs(ch) && ch.live[at].IsMyTurn() ==> PendingOurs(next)
  {
    hide GameOfChannel, ProposalOfChannel, OfChannel;
    var last := |next.cached| - 1;
    forall i | 0 <= i < |next.cached|
      ensures RedoOfChannel(ch.id, next.cached[i])
    {
      if next.cached != ch.cached && i < last {
        assert next.cached[i] == next.cached[..last][i] == ch.cached[i];
      }
    }
  }

  lemma SettledBelongs(ch: Channel, id: nat)
    ensures SendAcceptSettlement(ch, id).Ok? ==> Kept(ch, SendAcceptSettlement(ch, id).value.0)
    ensures Kept(ch, AfterFailedSettlement(ch, id))
    ensures ApplyReceivedAcceptSettlement(ch, id).Ok? && Belongs(ch) ==>
              Belongs(ApplyReceivedAcceptSettlement(ch, id).value.0)
    ensures ApplyReceivedAcceptSettlement(ch, id).Ok? ==> SameStates(ch, ApplyReceivedAcceptSettlement(ch, id).value.0)
  {
    hide Belongs, PendingOurs, Referee.OurCurrentShare, Referee.IsGameOver, RemoveAt, LiveGame.Amount, LiveGame.IsMyTurn;
    var at := LivePosition(ch.live, id);
    if at.Some? && Belongs(ch) {
      var sent, received := SendAcceptSettlement(ch, id), ApplyReceivedAcceptSettlement(ch, id);
      if sent.Ok? {
        WithoutGameBelongs(ch, at.value, sent.value.0);
      }
      if received.Ok? {
        WithoutGameBelongs(ch, at.value, received.value.0);
      }
      if AfterFailedSettlement(ch, id) != ch {
        WithoutGameBelongs(ch, at.value, AfterFailedSettlement(ch, id));
      }
    }
  }

  lemma {:induction false} OnlySettlementsBelong(id: ChannelIdentity, cached: seq<CachedRedo>)
    requires forall i :: 0 <= i < |cached| ==> RedoOfChannel(id, cached[i])
    ensures forall e :: e in OnlySettlements(cached) ==> RedoOfChannel(id, e)
    ensures forall e :: e in WithoutSettlements(cached) ==> RedoOfChannel(id, e)
  {
    hide RedoOfChannel;
    if cached != [] {
      assert forall i :: 0 <= i < |cached[1..]| ==> cached[1..][i] == cached[i + 1];
      OnlySettlementsBelong(id, cached[1..]);
    }
  }

  /** Taking in a state leaves nothing pending. */
  lemma VerifiedBelongs(ch: Channel, signatures: StateUpdateSignatures)
    requires Belongs(ch) && VerifyReceivedBatch(ch, signatures).Ok?
    ensures
      var next := DrainSettlements(VerifyReceivedBatch(ch, signatures).value);
      Belongs(next) && PendingOurs(next) && next.id == ch.id
  {
    hide GameOfChannel, ProposalOfChannel, RedoOfChannel, UpdatedUnroll, VerifyUnroll, VerifyChannel;
    OnlySettlementsBelong(ch.id, ch.cached);
    var kept := OnlySettlements(ch.cached);
    assert forall i :: 0 <= i < |kept| ==> kept[i] in kept;
    OnlySettlementsBelong(ch.id, kept);
    var next := DrainSettlements(VerifyReceivedBatch(ch, signatures).value);
    forall i | 0 <= i < |next.cached|
      ensures RedoOfChannel(ch.id, next.cached[i])
    {
      assert next.cached[i] in WithoutSettlements(kept);
    }
  }

  lemma SignedBelongs(ch: Channel)
    requires Belongs(ch) && PendingOurs(ch)
    ensures Belongs(UpdateCachedUnrollState(ch).0) && PendingOurs(UpdateCachedUnrollState(ch).0)
  {
    hide UpdatedUnroll, GameOfChannel, ProposalOfChannel, RedoOfChannel;
  }

  // --- Draining and applying -----------------------------------------------------------

  lemma {:induction false} SentGroupBelongs(ch: Channel, games: seq<GameStartInfo>, groupId: nat)
    ensures Kept(ch, SendGroup(ch, games, groupId))
  {
    hide Belongs, PendingOurs, SendProposeGame;
    if games != [] {
      var last := |games| - 1;
      SentGroupBelongs(ch, games[..last], groupId);
      ProposedBelongs(SendGroup(ch, games[..last], groupId), games[last], groupId);
    }
  }

  lemma {:induction false} AppliedGroupBelongs(ch: Channel, games: seq<GameStartInfo>, groupId: nat)
    requires ApplyGroup(ch, games, groupId).Ok?
    ensures Kept(ch, ApplyGroup(ch, games, groupId).value)
  {
    hide Belongs, PendingOurs, ApplyReceivedProposal;
    if games != [] {
      var last := |games| - 1;
      AppliedGroupBelongs(ch, games[..last], groupId);
      ProposedBelongs(ApplyGroup(ch, games[..last], groupId).value, games[last], groupId);
    }
  }

  lemma DrainActionBelongs(clvm: Clvm, st: Draining, action: GameAction)
    requires DrainAction(clvm, st, action).Ok?
    ensures Kept(st.ch, DrainAction(clvm, st, action).value.ch)
  {
    hide Belongs, PendingOurs, SendMove, SendAcceptSettlement, SendAcceptProposal, CancelProposal, AfterFailedSettlement,
         ShutdownConditions;
    match action {
      case QueuedMove(id, readable, entropy) =>
        if SendMove(clvm, st.ch, id, readable, entropy).Ok? {
          SentMoveBelongs(clvm, st.ch, id, readable, entropy);
        }
      case QueuedSettlement(id) => SettledBelongs(st.ch, id);
      case QueuedGroup(games, wire) => SentGroupBelongs(st.ch, games, wire.groupId);
      case QueuedAccept(id) => AcceptedBelongs(st.ch, id);
      case QueuedCancel(id) => AcceptedBelongs(st.ch, id);
      case QueuedSilentCancel(id) => AcceptedBelongs(st.ch, id);
      case QueuedShutdown => NoProposalsBelong(st.ch);
    }
  }

  lemma NoProposalsBelong(ch: Channel)
    ensures Kept(ch, ch.(proposed := []))
  {
    hide GameOfChannel, RedoOfChannel;
  }

  /** A drain, whether it fails or not. */
  lemma {:induction false} DrainBelongs(clvm: Clvm, ch: Channel, queue: seq<GameAction>)
    ensures
      match DrainAll(clvm, ch, queue)
      case Ok(st) => Kept(ch, st.ch)
      case Err(f) => Kept(ch, f.ch)
    decreases |queue|
  {
    hide Belongs, PendingOurs, DrainAction, AfterFailedSettlement;
    if queue != [] {
      var last := |queue| - 1;
      DrainBelongs(clvm, ch, queue[..last]);
      var before := DrainAll(clvm, ch, queue[..last]);
      if before.Ok? {
        var st := before.value;
        if DrainAction(clvm, st, queue[last]).Ok? {
          DrainActionBelongs(clvm, st, queue[last]);
        } else if queue[last].QueuedSettlement? {
          SettledBelongs(st.ch, queue[last].gameId);
        }
      }
    }
  }

  lemma {:induction false} ApplyBelongs(clvm: Clvm, factories: Factories, ch: Channel, actions: seq<BatchAction>)
    requires ApplyActions(clvm, factories, ch, actions).Ok?
    ensures
      var next := ApplyActions(clvm, factories, ch, actions).value;
      SameStates(ch, next) && (Belongs(ch) ==> Belongs(next))
    decreases |actions|
  {
    hide Belongs, PendingOurs, ApplyReceivedMove, ApplyReceivedAcceptSettlement, ApplyReceivedAcceptProposal, CancelProposal,
         Hydrate, ApplyGroup;
    if actions != [] {
      var last := |actions| - 1;
      ApplyBelongs(clvm, factories, ch, actions[..last]);
      var before := ApplyActions(clvm, factories, ch, actions[..last]).value;
      match actions[last] {
        case ProposeGroup(wire) =>
          if wire.start.gameType in factories {
            AppliedGroupBelongs(before, Hydrate(clvm, factories, wire).value, wire.groupId);
          }
        case AcceptProposal(id) => AcceptedBelongs(before, id);
        case CancelledProposal(id) => AcceptedBelongs(before, id);
        case Move(id, details) => ReceivedMoveBelongs(clvm, before, id, details);
        case AcceptSettlement(id, _) => SettledBelongs(before, id);
      }
    }
  }

  // ---------------------------------------------------------------------------
  // What a settlement pays
  // ---------------------------------------------------------------------------

  /** Both sides' payouts are signed, by two different keys. */
  ghost predicate PayoutsAgreed(id: ChannelIdentity) {
    && id.myRefereeKey != id.theirRefereeKey
    && id.theirPayoutSignature == HalfSignature(id.theirRefereeKey, None, PayoutMessage(id.theirRewardPh))
  }

  /** What the timeout of the game's latest coin would pay: `mine` to our reward
      hash and `theirs` to the other. */
  ghost predicate TimeoutPays(id: ChannelIdentity, game: LiveGame, mine: nat, theirs: nat) {
    var r := game.referee;
    var built := TimeoutSpendFor(r.fixed, r.spendThisCoin);
    && mine + theirs == game.Amount() && built.Ok?
    && (built.value.Some? ==>
          && built.value.value.puzzle == game.lastPh
          && var conditions := R.TimeoutConditions(
                                 r.spendThisCoin.Curried(), built.value.value.moverPayout, built.value.value.waiterPayout);
          conditions.Some? && R.Created(conditions.value) == R.Pays(id.rewardPh, mine) + R.Pays(id.theirRewardPh, theirs))
  }

  lemma ShareIsTimeouts(id: ChannelIdentity, game: LiveGame)
    requires GameOfChannel(id, game) && PayoutsAgreed(id) && game.referee.OurCurrentShare().Ok?
    requires game.referee.OurCurrentShare().value <= game.Amount()
    ensures
      var share := game.referee.OurCurrentShare().value;
      TimeoutPays(id, game, share, game.Amount() - share)
  {
    hide CanonicalAtom, R.TimeoutConditions, R.Created, R.Pays, TimeoutSpendFor;
    R.TimeoutPaysOurShare(game.referee);
    BuiltForCoin(game.referee);
  }

  lemma BuiltForCoin(r: Referee)
    ensures
      var built := TimeoutSpendFor(r.fixed, r.spendThisCoin);
      built.Ok? && built.value.Some? ==> built.value.value.puzzle == r.OutcomePuzzleHash()
  {
  }

  /** A settlement we send moves to each side what the timeout of the game's coin
      would pay it ... */
  lemma SentSettlementPaysTimeout(ch: Channel, id: nat)
    requires Belongs(ch) && PayoutsAgreed(ch.id) && SendAcceptSettlement(ch, id).Ok?
    ensures
      var (next, share) := SendAcceptSettlement(ch, id).value;
      var game := ch.live[LivePosition(ch.live, id).value];
      && next.myOut >= ch.myOut && next.theirOut >= ch.theirOut && share == next.myOut - ch.myOut
      && TimeoutPays(ch.id, game, next.myOut - ch.myOut, next.theirOut - ch.theirOut)
  {
    hide TimeoutPays, GameOfChannel, Referee.OurCurrentShare;
    ShareIsTimeouts(ch.id, ch.live[LivePosition(ch.live, id).value]);
  }

  /** ... and so does one we receive. */
  lemma ReceivedSettlementPaysTimeout(ch: Channel, id: nat)
    requires Belongs(ch) && PayoutsAgreed(ch.id) && ApplyReceivedAcceptSettlement(ch, id).Ok?
    ensures
      var (next, share) := ApplyReceivedAcceptSettlement(ch, id).value;
      var game := ch.live[LivePosition(ch.live, id).value];
      && next.myOut >= ch.myOut && next.theirOut >= ch.theirOut && share == next.myOut - ch.myOut
      && TimeoutPays(ch.id, game, next.myOut - ch.myOut, next.theirOut - ch.theirOut)
  {
    hide TimeoutPays, GameOfChannel, Referee.OurCurrentShare;
    ShareIsTimeouts(ch.id, ch.live[LivePosition(ch.live, id).value]);
  }
}

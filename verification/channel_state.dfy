/** The channel state object (src/channel_state/mod.rs): its fields are updated
    in place, and each method is proved against its operation on values. */
module ChannelStates {
  import opened Wrappers
  import opened Chain
  import opened Referees
  import opened Channels

  class ChannelState {
    const id: ChannelIdentity
    var myOut: nat
    var theirOut: nat
    var myAllocated: nat
    var theirAllocated: nat
    var havePotato: bool
    var cached: seq<CachedRedo>
    var stateNumber: nat
    var myNextNonce: nat
    var theirNextNonce: nat
    var latestSent: UnrollRecord
    var latestReceived: Option<UnrollRecord>
    var unrollMap: map<PuzzleHash, HistoricalUnroll>
    var live: seq<LiveGame>
    var pending: seq<LiveGame>
    var proposed: seq<ProposedGame>

    function View(): Channel
      reads this
    {
      Channel(
        id, myOut, theirOut, myAllocated, theirAllocated, havePotato, cached, stateNumber, myNextNonce, theirNextNonce,
        latestSent, latestReceived, unrollMap, live, pending, proposed)
    }

    constructor Of(ch: Channel)
      ensures View() == ch
    {
      id := ch.id;
      myOut, theirOut := ch.myOut, ch.theirOut;
      myAllocated, theirAllocated := ch.myAllocated, ch.theirAllocated;
      havePotato := ch.havePotato;
      cached := ch.cached;
      stateNumber := ch.stateNumber;
      myNextNonce, theirNextNonce := ch.myNextNonce, ch.theirNextNonce;
      latestSent, latestReceived := ch.latestSent, ch.latestReceived;
      unrollMap := ch.unrollMap;
      live, pending, proposed := ch.live, ch.pending, ch.proposed;
    }

    /** Puts a snapshot back. */
    method Restore(ch: Channel)
      requires ch.id == id
      modifies this
      ensures View() == ch
    {
      myOut, theirOut, myAllocated, theirAllocated := ch.myOut, ch.theirOut, ch.myAllocated, ch.theirAllocated;
      RestoreStates(ch);
      live, pending, proposed := ch.live, ch.pending, ch.proposed;
    }

    method RestoreStates(ch: Channel)
      requires ch.id == id
      modifies this`havePotato, this`cached, this`stateNumber, this`myNextNonce, this`theirNextNonce,
        this`latestSent, this`latestReceived, this`unrollMap
      ensures
        && havePotato == ch.havePotato && cached == ch.cached && stateNumber == ch.stateNumber
        && myNextNonce == ch.myNextNonce && theirNextNonce == ch.theirNextNonce
        && latestSent == ch.latestSent && latestReceived == ch.latestReceived && unrollMap == ch.unrollMap
    {
      havePotato, cached, stateNumber := ch.havePotato, ch.cached, ch.stateNumber;
      myNextNonce, theirNextNonce := ch.myNextNonce, ch.theirNextNonce;
      latestSent, latestReceived, unrollMap := ch.latestSent, ch.latestReceived, ch.unrollMap;
    }

    static method New(identity: ChannelIdentity, weStartWithPotato: bool, myContribution: nat, theirContribution: nat)
      returns (r: Result<ChannelState, ChannelError>)
      ensures
        match NewChannel(identity, weStartWithPotato, myContribution, theirContribution)
        case Ok(ch) => r.Ok? && fresh(r.value) && r.value.View() == ch
        case Err(e) => r == Err(e)
    {
      hide UpdatedUnroll, UnrollPuzzleHash, HistoricalOf;
      if identity.theirChannelKey == identity.myChannelKey { return Err(DuplicateKey); }
      if identity.theirUnrollKey == identity.myUnrollKey { return Err(DuplicateKey); }
      if identity.unrollTimeout == 0 { return Err(BadTimeout); }
      var inputs := UnrollInputs(
        identity.rewardPh, identity.theirRewardPh, myContribution, theirContribution, [], identity.unrollTimeout);
      var coin := UpdatedUnroll(identity, weStartWithPotato, 0, inputs);
      var myNonce, theirNonce := if weStartWithPotato then 0 else 1, if weStartWithPotato then 1 else 0;
      var state := new ChannelState.Of(Channel(
        identity, myContribution, theirContribution, 0, 0, weStartWithPotato, [], 0, myNonce, theirNonce,
        UnrollRecord(coin, NO_SIGNATURES), None, map[], [], [], []));
      state.RecordUnrollPuzzleHash(coin);
      return Ok(state);
    }

    method AllocateMyNonce() returns (n: nat)
      modifies this`myNextNonce
      ensures n == old(myNextNonce) && View() == old(View()).(myNextNonce := n + 2)
    {
      n := myNextNonce;
      myNextNonce := myNextNonce + 2;
    }

    method VerifyAndStoreInitialPeerSignatures(signatures: StateUpdateSignatures) returns (r: Result<(), ChannelError>)
      modifies this`latestReceived
      ensures
        match StoreInitialPeerSignatures(old(View()), signatures)
        case Ok(ch) => r.Ok? && View() == ch
        case Err(e) => r == Err(e) && View() == old(View())
    {
      if !VerifyUnroll(id, latestSent.coin, signatures.unrollHalf) {
        return Err(BadUnrollSignature);
      }
      if !VerifyChannel(id, ChannelSpendConditions(id, latestSent.coin), signatures.channelHalf) {
        return Err(BadChannelSignature);
      }
      latestReceived := Some(UnrollRecord(latestSent.coin, signatures));
      return Ok(());
    }

    method RecordUnrollPuzzleHash(coin: UnrollCoin)
      modifies this`unrollMap
      ensures unrollMap == old(unrollMap)[UnrollPuzzleHash(id, coin) := HistoricalOf(coin)]
    {
      unrollMap := unrollMap[UnrollPuzzleHash(id, coin) := HistoricalOf(coin)];
    }

    /** Signs the current state as the next one and gives the potato away. */
    method SignNextState() returns (signatures: StateUpdateSignatures)
      modifies this
      ensures (View(), signatures) == UpdateCachedUnrollState(old(View()))
    {
      hide UpdatedUnroll, UnrollPuzzleHash, HistoricalOf, OurChannelHalf, ChannelSpendConditions, GameCoins;
      var inputs := UnrollInputs(id.rewardPh, id.theirRewardPh, myOut, theirOut, GameCoins(live), id.unrollTimeout);
      stateNumber := stateNumber + 1;
      var coin := UpdatedUnroll(id, latestSent.coin.startedWithPotato, stateNumber, inputs);
      latestSent := UnrollRecord(coin, latestSent.signatures);
      RecordUnrollPuzzleHash(coin);
      latestSent := UnrollRecord(coin, NO_SIGNATURES);
      havePotato := false;
      return StateUpdateSignatures(OurChannelHalf(id, ChannelSpendConditions(id, coin)), coin.outcome.signature);
    }

    /** Keeps only the settlements not yet reported. */
    method RetainSettlements()
      modifies this`cached
      ensures cached == OnlySettlements(old(cached))
    {
      var kept: seq<CachedRedo> := [];
      var i := 0;
      while i < |cached|
        invariant 0 <= i <= |cached| && cached == old(cached)
        invariant OnlySettlements(cached) == kept + OnlySettlements(cached[i..])
      {
        assert cached[i..][1..] == cached[i + 1..];
        if cached[i].CachedAcceptSettlement? {
          kept := kept + [cached[i]];
        }
        i := i + 1;
      }
      cached := kept;
    }

    /** On success the verified state becomes the latest received one; on failure
        the settlements kept for the last round trip are already gone. */
    method VerifyReceivedBatchSignatures(signatures: StateUpdateSignatures) returns (r: Result<(), ChannelError>)
      modifies this`pending, this`stateNumber, this`latestReceived, this`unrollMap, this`havePotato, this`cached
      ensures
        match VerifyReceivedBatch(old(View()), signatures)
        case Ok(ch) => r.Ok? && View() == ch
        case Err(e) => r == Err(e) && View() == old(View()).(pending := [])
    {
      hide UpdatedUnroll, UnrollPuzzleHash, HistoricalOf, VerifyUnroll, VerifyChannel, ChannelSpendConditions,
           OnlySettlements, GameCoins;
      var inputs := UnrollInputs(id.rewardPh, id.theirRewardPh, myOut, theirOut, GameCoins(live), id.unrollTimeout);
      pending := [];
      var coin := UpdatedUnroll(id, latestSent.coin.startedWithPotato, stateNumber + 1, inputs);
      if !VerifyUnroll(id, coin, signatures.unrollHalf) {
        return Err(BadUnrollSignature);
      }
      if !VerifyChannel(id, ChannelSpendConditions(id, coin), signatures.channelHalf) {
        return Err(BadChannelSignature);
      }
      TakeState(coin, signatures);
      return Ok(());
    }

    /** Both half signatures of the peer's next state have verified. */
    method TakeState(coin: UnrollCoin, signatures: StateUpdateSignatures)
      modifies this`stateNumber, this`latestReceived, this`unrollMap, this`havePotato, this`cached
      ensures
        View() == old(View()).(
          stateNumber := old(stateNumber) + 1, latestReceived := Some(UnrollRecord(coin, signatures)),
          unrollMap := old(unrollMap)[UnrollPuzzleHash(id, coin) := HistoricalOf(coin)], havePotato := true,
          cached := OnlySettlements(old(cached)))
    {
      hide UnrollPuzzleHash, HistoricalOf, OnlySettlements;
      stateNumber := stateNumber + 1;
      RecordUnrollPuzzleHash(coin);
      latestReceived := Some(UnrollRecord(coin, signatures));
      havePotato := true;
      RetainSettlements();
    }

    method DrainCachedAcceptSettlements() returns (reports: seq<(nat, nat, bool)>)
      modifies this`cached
      ensures View() == DrainSettlements(old(View())) && reports == SettlementReports(old(cached))
    {
      reports := [];
      var kept: seq<CachedRedo> := [];
      var i := 0;
      while i < |cached|
        invariant 0 <= i <= |cached| && cached == old(cached)
        invariant WithoutSettlements(cached) == kept + WithoutSettlements(cached[i..])
        invariant SettlementReports(cached) == reports + SettlementReports(cached[i..])
      {
        assert cached[i..][1..] == cached[i + 1..];
        if cached[i].CachedAcceptSettlement? {
          reports := reports + [(cached[i].gameId, cached[i].ourShare, cached[i].finished)];
        } else {
          kept := kept + [cached[i]];
        }
        i := i + 1;
      }
      cached := kept;
    }

    // --- Proposals ----------------------------------------------------------------

    method ProposeGame(start: GameStartInfo, groupId: nat)
      modifies this`proposed
      ensures View() == SendProposeGame(old(View()), start, groupId)
    {
      var referee := NewReferee(id.GameContext(start), start, stateNumber);
      proposed := proposed + [
        ProposedGame(
          start.gameId, groupId, referee.OutcomePuzzleHash(), referee, start.myContribution, start.theirContribution)];
    }

    method ReceiveProposal(start: GameStartInfo, groupId: nat) returns (r: Result<(), ChannelError>)
      modifies this`proposed, this`theirNextNonce
      ensures
        match ApplyReceivedProposal(old(View()), start, groupId)
        case Ok(ch) => r.Ok? && View() == ch
        case Err(e) => r == Err(e) && View() == old(View())
    {
      var nonce := start.gameId;
      if nonce % 2 != theirNextNonce % 2 { return Err(WrongParity); }
      if nonce < theirNextNonce { return Err(NonceTooLow); }
      if nonce > theirNextNonce + MAX_NONCE_GAP { return Err(NonceTooFar); }
      var sum := start.myContribution + start.theirContribution;
      if sum >= U64_LIMIT || start.amount != sum { return Err(BadAmount); }
      if start.timeout == 0 { return Err(BadTimeout); }
      if |proposed| >= MAX_PROPOSALS { return Err(TooManyProposals); }
      theirNextNonce := nonce + 2;
      ProposeGame(start, groupId);
      return Ok(());
    }

    /** Removes the proposal, and puts it back where it was when the balances do
        not cover it. */
    method AcceptInner(gameId: nat) returns (r: Result<(), ChannelError>)
      modifies this`proposed, this`live, this`myOut, this`theirOut, this`myAllocated, this`theirAllocated
      ensures
        match AcceptProposalInner(old(View()), gameId)
        case Ok(ch) => r.Ok? && View() == ch
        case Err(e) => r == Err(e) && View() == old(View())
    {
      hide ProposalPosition;
      var at := ProposalPosition(proposed, gameId);
      if at.None? { return Err(NoSuchProposal); }
      var p := proposed[at.value];
      proposed := RemoveAt(proposed, at.value);
      if p.myContribution > myOut || p.theirContribution > theirOut {
        proposed := proposed[..at.value] + [p] + proposed[at.value..];
        return Err(InsufficientBalance);
      }
      myAllocated := myAllocated + p.myContribution;
      theirAllocated := theirAllocated + p.theirContribution;
      myOut := myOut - p.myContribution;
      theirOut := theirOut - p.theirContribution;
      live := live + [LiveGame(p.gameId, p.initialPh, p.referee, p.myContribution, p.theirContribution)];
      return Ok(());
    }

    method Accept(gameId: nat) returns (r: Result<(), ChannelError>)
      modifies this
      ensures
        match SendAcceptProposal(old(View()), gameId)
        case Ok(ch) => r.Ok? && View() == ch
        case Err(e) => r == Err(e) && View() == old(View())
    {
      var inner := AcceptInner(gameId);
      if inner.Ok? {
        cached := cached + [CachedProposalAccepted(gameId)];
      }
      return inner;
    }

    method ReceiveAccept(gameId: nat) returns (r: Result<(), ChannelError>)
      modifies this
      ensures
        match ApplyReceivedAcceptProposal(old(View()), gameId)
        case Ok(ch) => r.Ok? && View() == ch
        case Err(e) => r == Err(e) && View() == old(View())
    {
      if gameId % 2 != myNextNonce % 2 { return Err(OwnProposal); }
      r := AcceptInner(gameId);
    }

    method Cancel(gameId: nat) returns (r: Result<(), ChannelError>)
      modifies this`proposed
      ensures
        match CancelProposal(old(View()), gameId)
        case Ok(ch) => r.Ok? && View() == ch
        case Err(e) => r == Err(e) && View() == old(View())
    {
      var at := ProposalPosition(proposed, gameId);
      if at.None? { return Err(NoSuchProposal); }
      proposed := RemoveAt(proposed, at.value);
      return Ok(());
    }

    method CancelAll()
      modifies this`proposed
      ensures View() == old(View()).(proposed := [])
    {
      proposed := [];
    }

    // --- Moves and settlements ------------------------------------------------------

    method MakeMove(clvm: Clvm, gameId: nat, readable: Program, entropy: Bytes)
      returns (r: Result<GameMoveDetails, ChannelError>)
      modifies this`live, this`cached
      ensures
        match SendMove(clvm, old(View()), gameId, readable, entropy)
        case Ok((ch, details)) => r == Ok(details) && View() == ch
        case Err(e) => r == Err(e) && View() == old(View())
    {
      var at := LivePosition(live, gameId);
      if at.None? { return Err(NoSuchGame); }
      var m := at.value;
      var made := MyTurnMakeMove(clvm, live[m].referee, readable, entropy, stateNumber);
      if made.Err? { return Err(RefereeFailed(made.error)); }
      var (referee, wire) := made.value;
      live := live[m := live[m].(referee := referee)];
      live := live[m := live[m].(lastPh := referee.OutcomePuzzleHash())];
      assert live == old(live)[m := old(live)[m].(referee := referee, lastPh := referee.OutcomePuzzleHash())];
      cached := cached + [
        CachedSendMove(
          gameId, wire.puzzleHashForUnroll, wire.puzzleHashForUnroll, wire.details.basic.moverShare, stateNumber,
          referee, live[m].lastPh)];
      return Ok(wire.details);
    }

    method ReceiveMove(clvm: Clvm, gameId: nat, details: GameMoveDetails)
      returns (r: Result<TheirTurnMoveResult, ChannelError>)
      modifies this`live
      ensures
        match ApplyReceivedMove(clvm, old(View()), gameId, details)
        case Ok((ch, out)) => r == Ok(out) && View() == ch
        case Err(e) => r == Err(e) && View() == old(View())
    {
      var at := LivePosition(live, gameId);
      if at.None? { return Err(NoSuchGame); }
      var m := at.value;
      if details.basic.moverShare > live[m].Amount() { return Err(BadAmount); }
      if |details.basic.moveMade| > live[m].referee.MaxMoveSize() { return Err(MoveTooLarge); }
      var taken := TheirTurnMoveOffChain(clvm, live[m].referee, details, stateNumber);
      if taken.Err? { return Err(RefereeFailed(taken.error)); }
      var (next, out) := taken.value;
      if out.slash.Some? || next.None? { return Err(SlashOffChain); }
      live := live[m := live[m].(referee := next.value, lastPh := next.value.OutcomePuzzleHash())];
      return Ok(out);
    }

    /** Takes a game's contributions out of the allocated balances, ours first. */
    method ReleaseStakes(game: LiveGame) returns (ok: bool)
      modifies this`myAllocated, this`theirAllocated
      ensures ok == (game.myContribution <= old(myAllocated) && game.theirContribution <= old(theirAllocated))
      ensures myAllocated
              == if game.myContribution <= old(myAllocated) then old(myAllocated) - game.myContribution else old(myAllocated)
      ensures theirAllocated
              == if ok then old(theirAllocated) - game.theirContribution else old(theirAllocated)
    {
      if game.myContribution > myAllocated { return false; }
      myAllocated := myAllocated - game.myContribution;
      if game.theirContribution > theirAllocated { return false; }
      theirAllocated := theirAllocated - game.theirContribution;
      return true;
    }

    /** A failure after the turn check leaves the game taken out of `live`, and
        perhaps our share paid without theirs. */
    method Settle(gameId: nat) returns (r: Result<nat, ChannelError>)
      modifies this`live, this`pending, this`cached, this`myOut, this`theirOut, this`myAllocated, this`theirAllocated
      ensures
        match SendAcceptSettlement(old(View()), gameId)
        case Ok((ch, share)) => r == Ok(share) && View() == ch
        case Err(e) => r == Err(e) && View() == AfterFailedSettlement(old(View()), gameId)
    {
      hide RemoveAt, Referee.OurCurrentShare, LivePosition, LiveGame.IsMyTurn, LiveGame.Amount;
      if !havePotato { return Err(NoPotato); }
      var at := LivePosition(live, gameId);
      if at.None? { return Err(NoSuchGame); }
      if !live[at.value].IsMyTurn() { return Err(WrongTurn); }
      r := SettleAt(at.value);
    }

    method SettleAt(m: nat) returns (r: Result<nat, ChannelError>)
      requires havePotato && m < |live| && LivePosition(live, live[m].gameId) == Some(m) && live[m].IsMyTurn()
      modifies this`live, this`pending, this`cached, this`myOut, this`theirOut, this`myAllocated, this`theirAllocated
      ensures
        match SendAcceptSettlement(old(View()), old(live[m].gameId))
        case Ok((ch, share)) => r == Ok(share) && View() == ch
        case Err(e) => r == Err(e) && View() == AfterFailedSettlement(old(View()), old(live[m].gameId))
    {
      hide RemoveAt, Referee.OurCurrentShare, LivePosition, LiveGame.IsMyTurn, Referee.IsGameOver, LiveGame.Amount;
      var game := live[m];
      live := RemoveAt(live, m);
      var released := ReleaseStakes(game);
      if !released { return Err(Underflow); }
      var share := game.referee.OurCurrentShare();
      if share.Err? { return Err(RefereeFailed(share.error)); }
      pending := pending + [game];
      myOut := myOut + share.value;
      if share.value > game.Amount() { return Err(Underflow); }
      theirOut := theirOut + (game.Amount() - share.value);
      cached := cached + [
        CachedAcceptSettlement(
          game.gameId, game.lastPh, game, game.Amount(), share.value, game.referee.IsGameOver())];
      return Ok(share.value);
    }

    method ReceiveSettlement(gameId: nat) returns (r: Result<nat, ChannelError>)
      modifies this`live, this`pending, this`myOut, this`theirOut, this`myAllocated, this`theirAllocated
      ensures
        match ApplyReceivedAcceptSettlement(old(View()), gameId)
        case Ok((ch, share)) => r == Ok(share) && View() == ch
        case Err(e) => r == Err(e) && View() == AfterFailedReceivedSettlement(old(View()), gameId)
    {
      hide RemoveAt, Referee.OurCurrentShare, LivePosition, LiveGame.IsMyTurn, LiveGame.Amount, Referee.IsGameOver;
      var at := LivePosition(live, gameId);
      if at.None? { return Err(NoSuchGame); }
      var game := live[at.value];
      if game.IsMyTurn() { return Err(WrongTurn); }
      var share := game.referee.OurCurrentShare();
      if share.Err? { return Err(RefereeFailed(share.error)); }
      if share.value > game.Amount() { return Err(Underflow); }
      var released := ReleaseStakes(game);
      if !released { return Err(Underflow); }
      myOut := myOut + share.value;
      theirOut := theirOut + (game.Amount() - share.value);
      live := RemoveAt(live, at.value);
      pending := pending + [game];
      return Ok(share.value);
    }

    // --- Unrolls seen on chain -------------------------------------------------------

    method ResolveUnrollFromConditions(conditions: seq<Condition>) returns (r: Result<(nat, ConditionsHash), ChannelError>)
      ensures r == ResolveUnroll(View(), conditions)
    {
      var i := 0;
      while i < |conditions|
        invariant 0 <= i <= |conditions|
        invariant ResolveUnroll(View(), conditions) == ResolveUnroll(View(), conditions[i..])
      {
        var c := conditions[i];
        if c.CreateCoin? && c.ph in unrollMap {
          return Ok((unrollMap[c.ph].stateNumber, unrollMap[c.ph].conditionsHash));
        }
        assert conditions[i..][1..] == conditions[i + 1..];
        i := i + 1;
      }
      return Err(UnknownUnroll);
    }

    method SetStateForCoinsInMap(unrollCoin: CoinID, coins: seq<(PuzzleHash, nat)>)
      returns (found: map<CoinString, OnChainGameState>)
      ensures found == SetStateForCoins(View(), unrollCoin, coins)
    {
      found := map[];
      var matched: set<nat> := {};
      var i := 0;
      while i < |coins|
        invariant 0 <= i <= |coins|
        invariant SetStateForCoins(View(), unrollCoin, coins)
                  == MatchCoinsFrom(View(), unrollCoin, coins[i..], matched, found)
      {
        var (ph, amount) := coins[i];
        assert coins[i..][1..] == coins[i + 1..];
        var latest := FindLatest(live, matched, ph, amount);
        var redo := if latest.None? then FindRedo(cached, live, matched, ph, amount) else None;
        var settled := FindPending(pending, ph, amount);
        var coin := CoinString(unrollCoin, ph, amount);
        if latest.Some? {
          var g := latest.value;
          matched := matched + {g.gameId};
          found := found[coin := OnChainGameState(
            g.gameId, ph, g.IsMyTurn(), stateNumber, false, g.referee.fixed.timeout, g.referee.IsGameOver())];
        } else if redo.Some? {
          var g := redo.value;
          matched := matched + {g.gameId};
          found := found[coin := OnChainGameState(
            g.gameId, ph, true, stateNumber, false, g.referee.fixed.timeout, g.referee.IsGameOver())];
        } else if settled.Some? {
          var g := settled.value;
          found := found[coin := OnChainGameState(
            g.gameId, ph, true, stateNumber, true, g.referee.fixed.timeout, false)];
        }
        i := i + 1;
      }
    }
  }
}

/** The off-chain phase object (src/session_phases/mod.rs): its queue, potato
    state and channel state are updated step by step, and each method is proved
    against the step it carries out on values. */
module OffChainPhases {
  import opened Wrappers
  import opened Chain
  import opened Referees
  import opened Channels
  import opened ChannelStates
  import O = OffChainPeers

  type Outgoing = seq<O.PeerMessage>

  /** A failure part of the way through a queue leaves what is behind it queued. */
  lemma {:induction false} DrainErrorStays(
    clvm: Clvm, ch: Channel, done: seq<O.GameAction>, action: O.GameAction, rest: seq<O.GameAction>)
    requires O.DrainAll(clvm, ch, done + [action]).Err?
    ensures
      var f := O.DrainAll(clvm, ch, done + [action]).error;
      O.DrainAll(clvm, ch, done + [action] + rest) == Err(f.(queue := f.queue + rest))
    decreases |rest|
  {
    hide O.DrainAction, O.AfterFailure;
    var all := done + [action] + rest;
    var f := O.DrainAll(clvm, ch, done + [action]).error;
    if rest == [] {
      assert all == done + [action];
      assert f.queue + rest == f.queue;
    } else {
      assert all[..|all| - 1] == done + [action] + rest[..|rest| - 1];
      DrainErrorStays(clvm, ch, done, action, rest[..|rest| - 1]);
      assert f.queue + rest == f.queue + rest[..|rest| - 1] + [rest[|rest| - 1]];
    }
  }

  lemma DrainOneMore(clvm: Clvm, ch: Channel, done: seq<O.GameAction>, action: O.GameAction)
    requires O.DrainAll(clvm, ch, done).Ok?
    ensures
      var st := O.DrainAll(clvm, ch, done).value;
      O.DrainAll(clvm, ch, done + [action])
      == match O.DrainAction(clvm, st, action)
         case Ok(next) => Ok(next)
         case Err(e) => Err(O.Failure(O.AfterFailure(st.ch, action), [], action, st.batch, st.ch, e))
  {
    hide O.DrainAction, O.AfterFailure;
    assert (done + [action])[..|done|] == done;
  }

  /** The same for the actions of a received batch. */
  lemma {:induction false} ApplyErrorStays(
    clvm: Clvm, factories: O.Factories, ch: Channel, actions: seq<O.BatchAction>, i: nat)
    requires i < |actions| && O.ApplyActions(clvm, factories, ch, actions[..i + 1]).Err?
    ensures O.ApplyActions(clvm, factories, ch, actions) == O.ApplyActions(clvm, factories, ch, actions[..i + 1])
    decreases |actions|
  {
    hide O.ApplyAction;
    if i + 1 < |actions| {
      var last := |actions| - 1;
      assert actions[..last][..i + 1] == actions[..i + 1];
      ApplyErrorStays(clvm, factories, ch, actions[..last], i);
    } else {
      assert actions[..i + 1] == actions;
    }
  }

  class OffChainPhase {
    const initiator: bool
    const factories: O.Factories
    const channel: ChannelState
    var potato: O.PotatoState
    var queue: seq<O.GameAction>
    var peerWants: bool
    var pendingShutdown: bool
    var closed: bool
    /** The move or settlement being drained, for reporting its failure. */
    var failedAction: Option<O.GameAction>

    function View(): O.Peer
      reads this, channel
    {
      O.Peer(initiator, potato, queue, peerWants, channel.View(), factories, pendingShutdown, closed)
    }

    constructor FromCompletedHandshake(
      isInitiator: bool, state: ChannelState, gameTypes: O.Factories, potatoState: O.PotatoState)
      ensures channel == state
      ensures View() == O.Peer(isInitiator, potatoState, [], false, state.View(), gameTypes, false, false)
    {
      initiator := isInitiator;
      factories := gameTypes;
      channel := state;
      potato := potatoState;
      queue := [];
      peerWants, pendingShutdown, closed := false, false, false;
      failedAction := None;
    }

    // --- Local requests ------------------------------------------------------------

    method SendPotatoRequestIfNeeded() returns (out: Outgoing)
      modifies this`potato
      ensures View() == O.SendPotatoRequestIfNeeded(old(View())).0 && out == O.SendPotatoRequestIfNeeded(old(View())).1
    {
      if potato.Present? {
        return [];
      }
      if potato.Absent? {
        potato := O.Requested;
        return [O.RequestPotato];
      }
      return [];
    }

    method DoGameAction(action: O.GameAction) returns (out: Outgoing)
      modifies this`queue, this`potato
      ensures View() == O.DoGameAction(old(View()), action).0 && out == O.DoGameAction(old(View()), action).1
    {
      queue := queue + [action];
      assert View() == old(View()).(queue := queue);
      out := SendPotatoRequestIfNeeded();
    }

    method DoGameActions(actions: seq<O.GameAction>) returns (out: Outgoing)
      modifies this`queue, this`potato
      ensures View() == O.DoGameActions(old(View()), actions).0 && out == O.DoGameActions(old(View()), actions).1
    {
      hide O.DoGameAction;
      out := [];
      var i := 0;
      assert actions[0..] == actions;
      while i < |actions|
        invariant 0 <= i <= |actions|
        invariant O.DoGameActions(old(View()), actions).0 == O.DoGameActions(View(), actions[i..]).0
        invariant O.DoGameActions(old(View()), actions).1 == out + O.DoGameActions(View(), actions[i..]).1
      {
        assert actions[i..][1..] == actions[i + 1..];
        var sent := DoGameAction(actions[i]);
        out := out + sent;
        i := i + 1;
      }
    }

    method RemoveQueuedShutdowns()
      modifies this`queue
      ensures queue == O.WithoutShutdown(old(queue))
    {
      var kept: seq<O.GameAction> := [];
      var i := 0;
      while i < |queue|
        invariant 0 <= i <= |queue| && queue == old(queue)
        invariant O.WithoutShutdown(queue) == kept + O.WithoutShutdown(queue[i..])
      {
        assert queue[i..][1..] == queue[i + 1..];
        if !queue[i].QueuedShutdown? {
          kept := kept + [queue[i]];
        }
        i := i + 1;
      }
      queue := kept;
    }

    method RemoveQueuedGroups()
      modifies this`queue
      ensures queue == O.WithoutGroups(old(queue))
    {
      var kept: seq<O.GameAction> := [];
      var i := 0;
      while i < |queue|
        invariant 0 <= i <= |queue| && queue == old(queue)
        invariant O.WithoutGroups(queue) == kept + O.WithoutGroups(queue[i..])
      {
        assert queue[i..][1..] == queue[i + 1..];
        if !queue[i].QueuedGroup? {
          kept := kept + [queue[i]];
        }
        i := i + 1;
      }
      queue := kept;
    }

    /** Allocates one nonce for each game of the group. */
    method ProposeGames(clvm: Clvm, start: O.GameProposal) returns (out: Outgoing)
      modifies this`queue, this`potato, channel`myNextNonce
      ensures View() == O.ProposeGames(clvm, old(View()), start).0 && out == O.ProposeGames(clvm, old(View()), start).1
    {
      hide O.PeerProposalPending, O.FactoryGames, O.WithoutShutdown, O.SendPotatoRequestIfNeeded, O.OurStarts, O.OurMembers;
      RemoveQueuedShutdowns();
      assert View() == old(View()).(queue := O.WithoutShutdown(old(queue)));
      if O.PeerProposalPending(channel.View()) {
        var _ := channel.AllocateMyNonce();
        return [];
      }
      var built := O.FactoryGames(clvm, factories, start);
      if built.Err? || built.value == [] {
        return [];
      }
      var first := channel.myNextNonce;
      var starts, members := StartGames(built.value, start.timeout);
      out := DoGameAction(O.QueuedGroup(starts, O.WireGroup(start, members, first)));
    }

    /** Every game of a group gets the next nonce of ours. */
    method StartGames(games: seq<FactoryGame>, timeout: nat)
      returns (starts: seq<GameStartInfo>, members: seq<O.WireGameSpec>)
      modifies channel`myNextNonce
      ensures starts == O.OurStarts(games, old(channel.myNextNonce), timeout)
      ensures members == O.OurMembers(games, old(channel.myNextNonce))
      ensures channel.View() == old(channel.View()).(myNextNonce := old(channel.myNextNonce) + 2 * |games|)
    {
      hide O.GameStart, O.WireSpec;
      var first := channel.myNextNonce;
      starts, members := [], [];
      var i := 0;
      while i < |games|
        invariant 0 <= i <= |games|
        invariant channel.View() == old(channel.View()).(myNextNonce := first + 2 * i)
        invariant starts == O.OurStarts(games, first, timeout)[..i]
        invariant members == O.OurMembers(games, first)[..i]
      {
        var nonce := channel.AllocateMyNonce();
        starts := starts + [O.GameStart(games[i], nonce, timeout, true)];
        members := members + [O.WireSpec(games[i], nonce)];
        i := i + 1;
      }
    }

    /** The whole group of a proposal, accepted, or cancelled when either side
        lacks the balance for all of it. */
    method AcceptGroupOf(id: nat) returns (out: Outgoing)
      modifies this`queue, this`potato
      ensures View() == O.AcceptProposals(old(View()), id).0 && out == O.AcceptProposals(old(View()), id).1
    {
      hide O.DoGameActions;
      var at := ProposalPosition(channel.proposed, id);
      if at.None? {
        return [];
      }
      var groupId := channel.proposed[at.value].groupId;
      var ids := O.MembersOf(channel.proposed, groupId);
      var (mine, theirs) := O.Contributions(channel.proposed, groupId);
      var short := mine > channel.myOut || theirs > channel.theirOut;
      out := DoGameActions(
        O.ForEach(ids, (gid: nat) => if short then O.QueuedSilentCancel(gid) else O.QueuedAccept(gid)));
    }

    method CancelGroupOf(id: nat) returns (out: Outgoing)
      modifies this`queue, this`potato
      ensures View() == O.CancelProposals(old(View()), id).0 && out == O.CancelProposals(old(View()), id).1
    {
      hide O.DoGameActions;
      var members := O.GroupMembers(channel.View(), id);
      if members.None? {
        return [];
      }
      out := DoGameActions(O.ForEach(members.value, (gid: nat) => O.QueuedCancel(gid)));
    }

    // --- Sending -----------------------------------------------------------------------

    method SendGroup(games: seq<GameStartInfo>, groupId: nat)
      modifies channel`proposed
      ensures channel.View() == O.SendGroup(old(channel.View()), games, groupId)
    {
      var i := 0;
      while i < |games|
        invariant 0 <= i <= |games|
        invariant channel.View() == O.SendGroup(old(channel.View()), games[..i], groupId)
      {
        assert games[..i + 1][..i] == games[..i];
        channel.ProposeGame(games[i], groupId);
        i := i + 1;
      }
      assert games[..i] == games;
    }

    /** Carries out one queued action; what it packs is handed back.  Only a
        settlement that fails leaves its mark on the channel. */
    method DrainOne(
      clvm: Clvm, action: O.GameAction, batch: seq<O.BatchAction>, deferred: seq<O.GameAction>,
      shutdown: Option<O.Shutdown>)
      returns (r: Result<(seq<O.BatchAction>, seq<O.GameAction>, Option<O.Shutdown>), O.PeerError>)
      modifies channel
      ensures
        match O.DrainAction(clvm, O.Draining(old(channel.View()), batch, deferred, shutdown), action)
        case Ok(st) => r == Ok((st.batch, st.deferred, st.shutdown)) && channel.View() == st.ch
        case Err(e) => r == Err(e) && channel.View() == O.AfterFailure(old(channel.View()), action)
    {
      hide AfterFailedSettlement, SendMove, SendAcceptSettlement, SendAcceptProposal, CancelProposal, O.SendGroup, OurChannelHalf, LivePosition;
      match action {
        case QueuedMove(id, readable, entropy) =>
          if O.GameIsMyTurn(channel.View(), id) != Some(true) {
            return Ok((batch, deferred + [action], shutdown));
          }
          var made := channel.MakeMove(clvm, id, readable, entropy);
          if made.Ok? {
            return Ok((batch + [O.Move(id, made.value)], deferred, shutdown));
          }
          if made.error.RefereeFailed? && made.error.error.MoveRejected? {
            return Ok((batch, deferred, shutdown));
          }
          return Err(O.ChannelFailed(made.error));
        case QueuedSettlement(id) =>
          var settled := channel.Settle(id);
          if settled.Err? { return Err(O.ChannelFailed(settled.error)); }
          return Ok((batch + [O.AcceptSettlement(id, settled.value)], deferred, shutdown));
        case QueuedGroup(games, wire) =>
          SendGroup(games, wire.groupId);
          return Ok((batch + [O.ProposeGroup(wire)], deferred, shutdown));
        case QueuedAccept(id) =>
          var at := ProposalPosition(channel.proposed, id);
          if at.None? { return Err(O.MissingProposal); }
          if id % 2 == channel.myNextNonce % 2 { return Err(O.OwnProposalAccepted); }
          var p := channel.proposed[at.value];
          if p.myContribution > channel.myOut || p.theirContribution > channel.theirOut {
            var dropped := channel.Cancel(id);
            if dropped.Err? { return Err(O.ChannelFailed(dropped.error)); }
            return Ok((batch + [O.CancelledProposal(id)], deferred, shutdown));
          }
          var accepted := channel.Accept(id);
          if accepted.Err? { return Err(O.ChannelFailed(accepted.error)); }
          return Ok((batch + [O.AcceptProposal(id)], deferred, shutdown));
        case QueuedCancel(id) =>
          var dropped := channel.Cancel(id);
          if dropped.Err? { return Err(O.ChannelFailed(dropped.error)); }
          return Ok((batch + [O.CancelledProposal(id)], deferred, shutdown));
        case QueuedSilentCancel(id) =>
          var dropped := channel.Cancel(id);
          if dropped.Err? { return Err(O.ChannelFailed(dropped.error)); }
          return Ok((batch + [O.CancelledProposal(id)], deferred, shutdown));
        case QueuedShutdown =>
          if channel.live != [] { return Err(O.GamesActive); }
          channel.CancelAll();
          var conditions := O.ShutdownConditions(channel.View());
          return Ok((batch, deferred, Some(O.Shutdown(OurChannelHalf(channel.id, conditions), conditions))));
      }
    }

    /** Takes the queue from the front.  After a failure the actions already
        carried out stay carried out, and what is behind it stays queued. */
    method DrainActions(clvm: Clvm)
      returns (r: Result<(seq<O.BatchAction>, seq<O.GameAction>, Option<O.Shutdown>), O.PeerError>)
      modifies this`queue, this`failedAction, channel
      ensures
        match O.DrainAll(clvm, old(channel.View()), old(queue))
        case Ok(st) => r == Ok((st.batch, st.deferred, st.shutdown)) && channel.View() == st.ch && queue == []
        case Err(f) =>
          && r == Err(f.error) && channel.View() == f.ch && queue == f.queue
          && failedAction == if O.CanFailAlone(f.item) then Some(f.item) else None
    {
      hide O.DrainAction, O.DrainAll, O.AfterFailure;
      ghost var before := channel.View();
      ghost var done: seq<O.GameAction> := [];
      var batch: seq<O.BatchAction> := [];
      var deferred: seq<O.GameAction> := [];
      var shutdown: Option<O.Shutdown> := None;
      DrainNothing(clvm, before);
      while queue != []
        invariant old(queue) == done + queue
        invariant O.DrainAll(clvm, before, done) == Ok(O.Draining(channel.View(), batch, deferred, shutdown))
        decreases |queue|
      {
        var action := queue[0];
        queue := queue[1..];
        failedAction := if O.CanFailAlone(action) then Some(action) else None;
        DrainOneMore(clvm, before, done, action);
        var step := DrainOne(clvm, action, batch, deferred, shutdown);
        assert old(queue) == done + [action] + queue;
        if step.Err? {
          DrainErrorStays(clvm, before, done, action, queue);
          assert [] + queue == queue;
          return Err(step.error);
        }
        batch, deferred, shutdown := step.value.0, step.value.1, step.value.2;
        done := done + [action];
      }
      assert done == old(queue);
      return Ok((batch, deferred, shutdown));
    }

    /** What cannot be sent yet stays queued; the rest goes out as one batch. */
    method DrainQueueIntoBatch(clvm: Clvm) returns (r: Result<Outgoing, O.PeerError>)
      requires potato.Present?
      modifies this, channel
      ensures
        match O.DrainQueueIntoBatch(clvm, old(View()))
        case Ok((p, out)) => r == Ok(out) && View() == p && failedAction == None
        case Err(stop) =>
          r == Err(stop.error) && View() == stop.peer && failedAction == if stop.IsActionFailed() then stop.item else None
    {
      hide O.DrainAction, O.DrainAll, UpdateCachedUnrollState;
      var drained := DrainActions(clvm);
      if drained.Err? {
        return Err(drained.error);
      }
      var (batch, deferred, shutdown) := drained.value;
      queue := deferred;
      failedAction := None;
      if batch == [] && shutdown.None? {
        return Ok([]);
      }
      var signatures := channel.SignNextState();
      potato := O.Absent;
      if shutdown.Some? {
        pendingShutdown := true;
      }
      return Ok([O.Batch(batch, signatures, shutdown)]);
    }

    /** What failed is handed on, to be reported; the phase goes on as it is. */
    method FlushPendingActions(clvm: Clvm) returns (r: Result<Outgoing, O.PeerError>)
      modifies this, channel
      ensures View() == O.FlushPendingActions(clvm, old(View())).0
      ensures O.FlushPendingActions(clvm, old(View())).1 == if r.Ok? then r.value else []
    {
      hide O.DrainQueueIntoBatch;
      failedAction := None;
      assert View() == old(View());
      if !potato.Present? || queue == [] {
        return Ok([]);
      }
      r := DrainQueueIntoBatch(clvm);
    }

    method SendEmptyPotato() returns (out: Outgoing)
      modifies this`potato, channel
      ensures View() == O.SendEmptyPotato(old(View())).0 && out == O.SendEmptyPotato(old(View())).1
    {
      hide UpdateCachedUnrollState;
      var signatures := channel.SignNextState();
      potato := O.Absent;
      return [O.Batch([], signatures, None)];
    }

    // --- Receiving ---------------------------------------------------------------------

    method ApplyGroup(games: seq<GameStartInfo>, groupId: nat) returns (r: Result<(), O.PeerError>)
      modifies channel
      ensures
        match ApplyGroupOf(old(channel.View()), games, groupId)
        case Ok(ch) => r.Ok? && channel.View() == ch
        case Err(e) => r == Err(e)
    {
      hide ApplyReceivedProposal;
      ghost var before := channel.View();
      var i := 0;
      while i < |games|
        invariant 0 <= i <= |games|
        invariant O.ApplyGroup(before, games[..i], groupId) == Ok(channel.View())
      {
        assert games[..i + 1][..i] == games[..i];
        var step := channel.ReceiveProposal(games[i], groupId);
        if step.Err? {
          GroupErrorStays(before, games, groupId, i);
          return Err(O.ChannelFailed(step.error));
        }
        i := i + 1;
      }
      assert games[..i] == games;
      return Ok(());
    }

    static function ApplyGroupOf(ch: Channel, games: seq<GameStartInfo>, groupId: nat): Result<Channel, O.PeerError> {
      O.LiftChannel(O.ApplyGroup(ch, games, groupId))
    }

    /** Applies one action of a batch and adds what follows from it to the queue
        and to the replies. */
    method ApplyOne(clvm: Clvm, action: O.BatchAction) returns (r: Result<Outgoing, O.PeerError>)
      modifies this`queue, channel
      ensures
        match O.ApplyAction(clvm, factories, old(channel.View()), action)
        case Ok(ch) =>
          && r == Ok(O.ReplyTo(clvm, old(channel.View()), action)) && channel.View() == ch
          && queue == O.QueueAfterAction(ch, old(queue), action)
        case Err(e) => r == Err(e)
    {
      hide O.Hydrate, ApplyReceivedAcceptProposal, CancelProposal, ApplyReceivedMove, ApplyReceivedAcceptSettlement,
           O.ApplyGroup;
      match action {
        case ProposeGroup(wire) =>
          RemoveQueuedGroups();
          if wire.start.gameType in factories {
            var games := O.Hydrate(clvm, factories, wire);
            if games.Err? { return Err(games.error); }
            var applied := ApplyGroup(games.value, wire.groupId);
            if applied.Err? { return Err(applied.error); }
          }
          return Ok([]);
        case AcceptProposal(id) =>
          var accepted := channel.ReceiveAccept(id);
          if accepted.Err? { return Err(O.ChannelFailed(accepted.error)); }
          return Ok([]);
        case CancelledProposal(id) =>
          var dropped := channel.Cancel(id);
          if dropped.Err? { return Err(O.ChannelFailed(dropped.error)); }
          return Ok([]);
        case Move(id, details) =>
          var taken := channel.ReceiveMove(clvm, id, details);
          if taken.Err? { return Err(O.ChannelFailed(taken.error)); }
          if O.FinishedForUs(channel.View(), id) {
            queue := queue + [O.QueuedSettlement(id)];
          }
          return Ok(if taken.value.message != [] then [O.GameMessage(id, taken.value.message)] else []);
        case AcceptSettlement(id, _) =>
          var settled := channel.ReceiveSettlement(id);
          if settled.Err? { return Err(O.ChannelFailed(settled.error)); }
          return Ok([]);
      }
    }

    /** All actions of a batch, from first to last. */
    method ApplyBatch(clvm: Clvm, actions: seq<O.BatchAction>) returns (r: Result<Outgoing, O.PeerError>)
      modifies this`queue, channel
      ensures
        match O.ApplyBatch(clvm, old(View()), actions)
        case Ok(ch) =>
          && r == Ok(O.Replies(clvm, factories, old(channel.View()), actions))
          && View() == old(View()).(ch := ch, queue := O.QueueAfterBatch(clvm, old(View()), actions))
        case Err(e) => r == Err(e)
    {
      hide O.ApplyAction, O.WholeGroups, O.ReplyTo, O.QueueAfterAction;
      ghost var before := View();
      if !O.WholeGroups(channel.View(), O.AcceptedIds(actions)) { return Err(O.PartialGroup); }
      if !O.WholeGroups(channel.View(), O.CancelledIds(actions)) { return Err(O.PartialGroup); }
      var replies: Outgoing := [];
      var i := 0;
      while i < |actions|
        invariant 0 <= i <= |actions|
        invariant O.ApplyActions(clvm, factories, before.ch, actions[..i]) == Ok(channel.View())
        invariant queue == O.QueueAfterActions(clvm, factories, before.ch, before.queue, actions[..i])
        invariant replies == O.Replies(clvm, factories, before.ch, actions[..i])
        invariant View() == before.(queue := queue, ch := channel.View())
      {
        assert actions[..i + 1][..i] == actions[..i];
        var step := ApplyOne(clvm, actions[i]);
        if step.Err? {
          ApplyErrorStays(clvm, factories, before.ch, actions, i);
          return Err(step.error);
        }
        replies := replies + step.value;
        i := i + 1;
      }
      assert actions[..i] == actions;
      if O.HasNewGame(actions) {
        RemoveQueuedShutdowns();
      }
      return Ok(replies);
    }

    method CloseCleanly(shutdown: O.Shutdown) returns (r: Result<Outgoing, O.PeerError>)
      modifies this`queue, this`potato, this`closed, channel`proposed, channel`cached
      ensures
        match O.CloseCleanly(old(View()), old(channel.View()), shutdown)
        case Ok((p, out)) => r == Ok(out) && View() == p
        case Err(e) => r == Err(e)
    {
      hide WithoutSettlements, SettlementReports, O.ShutdownConditions, VerifyChannel;
      ghost var before := View();
      if channel.live != [] { return Err(O.GamesActive); }
      channel.CancelAll();
      assert O.ShutdownConditions(channel.View()) == O.ShutdownConditions(before.ch) by {
        SamePayout(before.ch, channel.View());
      }
      if multiset(shutdown.conditions) != multiset(O.ShutdownConditions(channel.View())) {
        return Err(O.ShutdownMismatch);
      }
      if !VerifyChannel(channel.id, shutdown.conditions, shutdown.signature) {
        return Err(O.ChannelFailed(BadChannelSignature));
      }
      var reports := channel.DrainCachedAcceptSettlements();
      queue := [];
      potato := O.Present;
      closed := true;
      return Ok(if channel.myOut == 0 then [] else [O.CleanShutdownComplete]);
    }

    /** Our own work first, then the peer's request, then the answer to a
        settlement; a move or settlement that fails is reported, and that is all. */
    method UsePotato(clvm: Clvm, sendBack: bool) returns (r: Result<Outgoing, O.PeerError>)
      requires potato.Present?
      modifies this, channel
      ensures
        match O.UsePotato(clvm, old(View()), sendBack)
        case Ok((p, out)) => r == Ok(out) && View() == p
        case Err(e) => r == Err(e)
    {
      hide O.DrainQueueIntoBatch, O.SendEmptyPotato;
      r := DrainQueueIntoBatch(clvm);
      if r.Err? && failedAction.Some? {
        failedAction := None;
        return Ok([]);
      }
      if r.Ok? && r.value == [] && (peerWants || sendBack) {
        ghost var drained := View();
        peerWants := false;
        assert View() == drained.(peerWants := false);
        var out := SendEmptyPotato();
        r := Ok(out);
      }
    }

    /** What a verified batch leads to (update_channel_coin_after_receive). */
    method UpdateAfterReceive(clvm: Clvm, sendBack: bool) returns (r: Result<Outgoing, O.PeerError>)
      modifies this, channel
      ensures
        var received := old(View()).(ch := DrainSettlements(old(channel.View())), potato := O.Present);
        var finish := sendBack && received.ch.theirOut == 0 && received.ch.live == [];
        var asking := if finish then received.queue + [O.QueuedShutdown] else received.queue;
        match O.UsePotato(clvm, received.(queue := asking), sendBack)
        case Ok((p, out)) => r == Ok(out) && View() == p
        case Err(e) => r == Err(e)
    {
      hide O.UsePotato, SettlementReports;
      potato := O.Present;
      var reports := channel.DrainCachedAcceptSettlements();
      if sendBack && channel.theirOut == 0 && channel.live == [] {
        queue := queue + [O.QueuedShutdown];
      }
      r := UsePotato(clvm, sendBack);
    }

    method ProcessReceivedBatch(clvm: Clvm, m: O.PeerMessage) returns (r: Result<Outgoing, O.PeerError>)
      requires m.Batch?
      modifies this, channel
      ensures
        match O.ProcessBatch(clvm, old(View()), m)
        case Ok((p, out)) => r == Ok(out) && View() == p
        case Err(e) => r == Err(e)
    {
      hide O.ApplyBatch, O.QueueAfterBatch, O.Replies, O.UsePotato, VerifyReceivedBatch, DrainSettlements, O.HasSettlement,
           O.ShutdownConditions, VerifyChannel;
      var replies := ApplyBatch(clvm, m.actions);
      if replies.Err? {
        return replies;
      }
      if m.shutdown.Some? {
        CloseIgnoresQueue(old(View()), View(), channel.View(), m.shutdown.value);
        var closing := CloseCleanly(m.shutdown.value);
        return if closing.Ok? then Ok(replies.value + closing.value) else closing;
      }
      var verified := channel.VerifyReceivedBatchSignatures(m.signatures);
      if verified.Err? {
        return Err(O.ChannelFailed(verified.error));
      }
      var out := UpdateAfterReceive(clvm, O.HasSettlement(m.actions));
      return if out.Ok? then Ok(replies.value + out.value) else out;
    }

    /** A message from the peer.  A batch that is refused puts the channel state
        and the queue back as they were, and the phase goes on chain; so does one
        after which something other than a move or settlement of ours fails. */
    method ProcessQueuedMessage(clvm: Clvm, m: O.PeerMessage) returns (r: Result<Outgoing, O.PeerError>)
      modifies this, channel
      ensures
        match O.ProcessMessage(clvm, old(View()), m)
        case Ok((p, out)) => r == Ok(out) && View() == p
        case Err(e) => r == Err(e) && channel.View() == old(channel.View()) && queue == old(queue)
    {
      hide O.ProcessBatch, O.SendEmptyPotato;
      if pendingShutdown {
        match m {
          case CleanShutdownComplete =>
            closed := true;
            queue := [];
            return Ok([]);
          case RequestPotato => return Ok([]);
          case _ => return Err(O.UnexpectedMessage);
        }
      }
      match m {
        case RequestPotato =>
          if potato.Present? {
            peerWants := false;
            var out := SendEmptyPotato();
            return Ok(out);
          }
          peerWants := true;
          return Ok([]);
        case Batch(_, _, _) =>
          if potato.Present? {
            return Err(O.DoublePotato);
          }
          var snapshot, queued := channel.View(), queue;
          r := ProcessReceivedBatch(clvm, m);
          if r.Err? {
            channel.Restore(snapshot);
            queue := queued;
          }
        case GameMessage(_, _) =>
          var taken := O.ProcessGameMessage(clvm, View(), m);
          return if taken.Ok? then Ok([]) else Err(taken.error);
        case CleanShutdownComplete => return Ok([]);
      }
    }
  }

  /** Closing looks at the channel and the shutdown, not at the queue it empties. */
  lemma CloseIgnoresQueue(p: O.Peer, q: O.Peer, ch: Channel, shutdown: O.Shutdown)
    requires q == p.(queue := q.queue, ch := q.ch)
    ensures O.CloseCleanly(p, ch, shutdown) == O.CloseCleanly(q, ch, shutdown)
  {
  }

  lemma SamePayout(a: Channel, b: Channel)
    requires a.id == b.id && a.myOut == b.myOut && a.theirOut == b.theirOut
    ensures O.ShutdownConditions(a) == O.ShutdownConditions(b)
  {
  }

  lemma DrainNothing(clvm: Clvm, ch: Channel)
    ensures O.DrainAll(clvm, ch, []) == Ok(O.Draining(ch, [], [], None))
  {
  }

  lemma {:induction false} GroupErrorStays(ch: Channel, games: seq<GameStartInfo>, groupId: nat, i: nat)
    requires i < |games| && O.ApplyGroup(ch, games[..i + 1], groupId).Err?
    ensures O.ApplyGroup(ch, games, groupId) == O.ApplyGroup(ch, games[..i + 1], groupId)
    decreases |games|
  {
    hide ApplyReceivedProposal;
    if i + 1 < |games| {
      var last := |games| - 1;
      assert games[..last][..i + 1] == games[..i + 1];
      GroupErrorStays(ch, games[..last], groupId, i);
    } else {
      assert games[..i + 1] == games;
    }
  }
}

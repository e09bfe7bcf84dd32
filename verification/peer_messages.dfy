/** What a peer does with single messages and with its queue
    (src/session_phases/mod.rs). */
module PeerMessages {
  import opened Wrappers
  import opened Chain
  import opened Referees
  import opened Channels
  import opened OffChainPeers
  import opened PeerLaws

  // ---------------------------------------------------------------------------
  // What becomes of queued items
  // ---------------------------------------------------------------------------

  lemma {:induction false} DeferredStays(clvm: Clvm, ch: Channel, queue: seq<GameAction>, k: nat)
    requires DrainAll(clvm, ch, queue).Ok? && k < |queue| && queue[k].QueuedMove?
    requires DrainAll(clvm, ch, queue[..k]).Ok? && !Tried(DrainAll(clvm, ch, queue[..k]).value.ch, queue[k].gameId)
    ensures queue[k] in DrainAll(clvm, ch, queue).value.deferred
    decreases |queue|
  {
    hide DrainAction;
    var last := |queue| - 1;
    if k < last {
      assert queue[..last][..k] == queue[..k];
      DeferredStays(clvm, ch, queue[..last], k);
      DeferredGrows(clvm, DrainAll(clvm, ch, queue[..last]).value, queue[last]);
    } else {
      assert queue[..k] == queue[..last];
      MoveDrains(clvm, DrainAll(clvm, ch, queue[..last]).value, queue[last]);
    }
  }

  lemma DeferredGrows(clvm: Clvm, st: Draining, item: GameAction)
    requires DrainAction(clvm, st, item).Ok?
    ensures forall x <- st.deferred :: x in DrainAction(clvm, st, item).value.deferred
  {
    hide SendMove, SendAcceptSettlement, SendAcceptProposal, CancelProposal, SendGroup;
  }

  /** A move that a drain finds out of turn is still queued afterwards. */
  lemma WaitingMoveStays(clvm: Clvm, p: Peer, k: nat)
    requires p.potato.Present? && DrainQueueIntoBatch(clvm, p).Ok? && k < |p.queue| && p.queue[k].QueuedMove?
    requires DrainAll(clvm, p.ch, p.queue[..k]).Ok?
    requires !Tried(DrainAll(clvm, p.ch, p.queue[..k]).value.ch, p.queue[k].gameId)
    ensures p.queue[k] in DrainQueueIntoBatch(clvm, p).value.0.queue
  {
    hide DrainAll, Tried, UpdateCachedUnrollState;
    DeferredStays(clvm, p.ch, p.queue, k);
  }

  /** A settlement is told with what it has paid us. */
  lemma SettlementIsTold(clvm: Clvm, st: Draining, id: nat)
    requires DrainAction(clvm, st, QueuedSettlement(id)).Ok?
    ensures
      var next := DrainAction(clvm, st, QueuedSettlement(id)).value;
      && next.ch.myOut >= st.ch.myOut
      && next.batch == st.batch + [AcceptSettlement(id, next.ch.myOut - st.ch.myOut)]
  {
    hide Referee.OurCurrentShare, RemoveAt;
  }

  /** Flushing sends what a drain has to send; when one fails, what was done by
      then stays done and nothing is sent. */
  lemma FlushStops(clvm: Clvm, p: Peer)
    ensures
      var (next, out) := FlushPendingActions(clvm, p);
      var drained := DrainAll(clvm, p.ch, p.queue);
      && (!p.potato.Present? ==> next == p && out == [])
      && (p.potato.Present? && drained.Err? ==>
            next == p.(ch := drained.error.ch, queue := drained.error.queue) && out == [])
      && (p.potato.Present? && drained.Ok? && (drained.value.batch != [] || drained.value.shutdown.Some?) ==>
            next.potato.Absent? && |out| == 1 && out[0].Batch? && out[0].actions == drained.value.batch)
  {
    hide UpdateCachedUnrollState;
  }

  // ---------------------------------------------------------------------------
  // Messages
  // ---------------------------------------------------------------------------

  /** What can fail of a potato received is the drain of our own queue, and of that
      only what is neither a move nor a settlement; a failed move or settlement
      leaves the potato with us, and what the drain had done by then. */
  lemma PotatoIsUsedIff(clvm: Clvm, p: Peer, sendBack: bool)
    requires p.potato.Present?
    ensures
      var drained := DrainAll(clvm, p.ch, p.queue);
      var used := UsePotato(clvm, p, sendBack);
      && (used.Ok? <==> drained.Ok? || drained.error.item.QueuedMove? || drained.error.item.QueuedSettlement?)
      && (used.Ok? && drained.Err? ==> used.value == (p.(ch := drained.error.ch, queue := drained.error.queue), []))
      && (used.Err? ==> used.error == drained.error.error)
  {
    hide DrainAll, UpdateCachedUnrollState;
  }

  /** A request for the potato is answered at once by its holder, with a batch of
      nothing; ... */
  lemma HolderAnswersRequest(clvm: Clvm, p: Peer)
    requires !p.pendingShutdown
    ensures
      var asked := ProcessMessage(clvm, p, RequestPotato);
      && asked.Ok?
      && (p.potato.Present? ==>
            && asked.value.0.potato.Absent? && !asked.value.0.peerWants && asked.value.0.queue == p.queue
            && |asked.value.1| == 1 && asked.value.1[0].Batch?
            && asked.value.1[0].actions == [] && asked.value.1[0].shutdown.None?)
      && (!p.potato.Present? ==> asked.value.1 == [] && asked.value.0.potato == p.potato && asked.value.0.ch == p.ch)
  {
    hide UpdateCachedUnrollState;
  }

  /** ... one that comes before the potato does is answered as soon as that has
      come, with our own work if there is any. */
  lemma EarlyRequestIsAnswered(clvm: Clvm, p: Peer, m: PeerMessage)
    requires !p.pendingShutdown && !p.potato.Present? && m.Batch? && m.shutdown.None?
    requires ProcessMessage(clvm, ProcessMessage(clvm, p, RequestPotato).value.0, m).Ok?
    ensures
      var asked := ProcessMessage(clvm, p, RequestPotato).value.0;
      var (next, out) := ProcessMessage(clvm, asked, m).value;
      var received := ReceivePotato(clvm, asked, m.actions, m.signatures).value;
      DrainAll(clvm, received.ch, received.queue).Ok? ==>
        next.potato.Absent? && out != [] && out[|out| - 1].Batch?
  {
    hide ReceivePotato, DrainAll, UpdateCachedUnrollState, Replies;
    var asked := ProcessMessage(clvm, p, RequestPotato).value.0;
    ReceivedIsHeld(clvm, asked, m.actions, m.signatures);
    assert ProcessMessage(clvm, asked, m) == ProcessBatch(clvm, asked, m);
    hide ProcessMessage;
    var received := ReceivePotato(clvm, asked, m.actions, m.signatures).value;
    PotatoIsKeptIff(clvm, received, HasSettlement(m.actions));
  }

  lemma ReceivedIsHeld(clvm: Clvm, p: Peer, actions: seq<BatchAction>, signatures: StateUpdateSignatures)
    requires ReceivePotato(clvm, p, actions, signatures).Ok?
    ensures
      var received := ReceivePotato(clvm, p, actions, signatures).value;
      received.potato.Present? && received.peerWants == p.peerWants
  {
    hide ApplyBatch, QueueAfterBatch, VerifyReceivedBatch;
  }

  /** A channel is closed by a batch with a shutdown, or, once we have sent one, by
      its acknowledgement; nothing is queued then. */
  lemma ClosesIff(clvm: Clvm, p: Peer, m: PeerMessage)
    requires !p.closed && ProcessMessage(clvm, p, m).Ok?
    ensures
      var (next, out) := ProcessMessage(clvm, p, m).value;
      && (next.closed <==> if p.pendingShutdown then m.CleanShutdownComplete? else m.Batch? && m.shutdown.Some?)
      && (next.closed ==> next.queue == [])
      && (p.pendingShutdown ==> out == [] && next.ch == p.ch && next.potato == p.potato)
  {
    hide ApplyBatch, ReceivePotato, DrainAll, Replies, UpdateCachedUnrollState, ShutdownConditions, VerifyChannel;
    if !p.pendingShutdown && m.Batch? && m.shutdown.None? {
      StaysOpen(clvm, p, m.actions, m.signatures);
    }
  }

  lemma StaysOpen(clvm: Clvm, p: Peer, actions: seq<BatchAction>, signatures: StateUpdateSignatures)
    requires ReceivePotato(clvm, p, actions, signatures).Ok?
    ensures ReceivePotato(clvm, p, actions, signatures).value.closed == p.closed
  {
    hide ApplyBatch, QueueAfterBatch, VerifyReceivedBatch;
  }

  /** A second potato is refused, and so is, once we have sent a shutdown, anything
      but its acknowledgement and requests; a game's own message is taken exactly
      at the peer's turn of a live game whose program can read it, and changes
      nothing. */
  lemma MessageIsRefusedIff(clvm: Clvm, p: Peer, m: PeerMessage)
    ensures p.pendingShutdown ==>
              (ProcessMessage(clvm, p, m).Err? <==> m.Batch? || m.GameMessage?)
    ensures !p.pendingShutdown && m.Batch? && p.potato.Present? ==> ProcessMessage(clvm, p, m) == Err(DoublePotato)
    ensures !p.pendingShutdown && m.GameMessage? ==>
              var at := LivePosition(p.ch.live, m.gameId);
              && (ProcessMessage(clvm, p, m).Ok? <==>
                    && at.Some? && p.ch.live[at.value].referee.TheirTurn?
                    && clvm.message(p.ch.live[at.value].referee, m.bytes).Ok?)
              && (ProcessMessage(clvm, p, m).Ok? ==> ProcessMessage(clvm, p, m).value == (p, []))
  {
    hide ProcessBatch;
  }
}

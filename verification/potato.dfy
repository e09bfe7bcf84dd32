/** The potato alone: who holds it, and who has asked for it, over two FIFO queues. */
module Potato {
  import opened Wrappers
  import opened OffChainPeers

  function Batches(q: seq<PeerMessage>): nat {
    if q == [] then 0 else (if q[0].Batch? then 1 else 0) + Batches(q[1..])
  }

  function FirstBatch(q: seq<PeerMessage>): (m: PeerMessage)
    requires Batches(q) > 0
    ensures m.Batch? && m in q
  {
    if q[0].Batch? then q[0] else FirstBatch(q[1..])
  }

  /** A request is queued behind every batch. */
  predicate Asked(q: seq<PeerMessage>) {
    q != [] && var m := q[|q| - 1]; (m.RequestPotato? || (!m.Batch? && Asked(q[..|q| - 1])))
  }

  function Held(p: PotatoState): nat {
    if p.Present? then 1 else 0
  }

  /** Exactly one potato, at a peer or in a batch on its way. */
  predicate OnePotato(a: PotatoState, b: PotatoState, ab: seq<PeerMessage>, ba: seq<PeerMessage>) {
    Held(a) + Held(b) + Batches(ab) + Batches(ba) == 1
  }

  /** A peer that waits for the potato has it coming, or its request is still
      on the way behind everything it has sent. */
  predicate RequestAlive(own: PotatoState, out: seq<PeerMessage>, incoming: seq<PeerMessage>) {
    own.Requested? ==> Batches(incoming) >= 1 || Asked(out)
  }

  predicate PotatoInv(a: PotatoState, b: PotatoState, ab: seq<PeerMessage>, ba: seq<PeerMessage>) {
    && OnePotato(a, b, ab, ba)
    && RequestAlive(a, ab, ba)
    && RequestAlive(b, ba, ab)
  }

  // --- Queues -------------------------------------------------------------------

  lemma {:induction false} BatchesOfAppend(q: seq<PeerMessage>, more: seq<PeerMessage>)
    ensures Batches(q + more) == Batches(q) + Batches(more)
    ensures Batches(q) > 0 ==> FirstBatch(q + more) == FirstBatch(q)
    ensures Batches(q) == 0 && Batches(more) > 0 ==> FirstBatch(q + more) == FirstBatch(more)
  {
    if q == [] {
      assert [] + more == more;
    } else {
      assert (q + more)[1..] == q[1..] + more;
      BatchesOfAppend(q[1..], more);
    }
  }

  lemma {:induction false} AskedAfterOther(q: seq<PeerMessage>, more: seq<PeerMessage>)
    requires Asked(q) && Batches(more) == 0
    ensures Asked(q + more)
    decreases |more|
  {
    if more == [] {
      assert q + more == q;
    } else {
      var last := |more| - 1;
      BatchesOfAppend(more[..last], [more[last]]);
      assert more[..last] + [more[last]] == more;
      AskedAfterOther(q, more[..last]);
      assert (q + more)[..|q + more| - 1] == q + more[..last];
    }
  }

  /** Taking the front message leaves a later request in place. */
  lemma {:induction false} AskedAfterTaking(q: seq<PeerMessage>)
    requires Asked(q) && (!q[0].RequestPotato? || Batches(q) > 0)
    ensures Asked(q[1..])
    decreases |q|
  {
    var last := |q| - 1;
    if last > 0 {
      assert q[1..][|q[1..]| - 1] == q[last];
      if !q[last].RequestPotato? {
        assert q[..last] + [q[last]] == q;
        BatchesOfAppend(q[..last], [q[last]]);
        AskedAfterTaking(q[..last]);
        assert q[1..][..|q[1..]| - 1] == q[..last][1..];
      }
    }
  }

  // --- Steps of one side, seen from that side -------------------------------------

  lemma SendOther(
    a: PotatoState, b: PotatoState, ab: seq<PeerMessage>, ba: seq<PeerMessage>, out: seq<PeerMessage>)
    requires PotatoInv(a, b, ab, ba) && Batches(out) == 0
    ensures PotatoInv(a, b, ab + out, ba)
  {
    BatchesOfAppend(ab, out);
    if Asked(ab) {
      AskedAfterOther(ab, out);
    }
  }

  lemma SendRequest(a: PotatoState, b: PotatoState, ab: seq<PeerMessage>, ba: seq<PeerMessage>)
    requires PotatoInv(a, b, ab, ba) && a.Absent?
    ensures PotatoInv(Requested, b, ab + [RequestPotato], ba)
  {
    BatchesOfAppend(ab, [RequestPotato]);
  }

  lemma SendBatch(a: PotatoState, b: PotatoState, ab: seq<PeerMessage>, ba: seq<PeerMessage>, m: PeerMessage)
    requires PotatoInv(a, b, ab, ba) && a.Present? && m.Batch?
    ensures PotatoInv(Absent, b, ab + [m], ba)
    ensures Batches(ab) == 0 && FirstBatch(ab + [m]) == m
  {
    BatchesOfAppend(ab, [m]);
  }

  /** A message other than the potato is taken in without holding the potato;
      if it was a request, the potato is already on its way to the asker. */
  lemma TakeOther(a: PotatoState, b: PotatoState, ab: seq<PeerMessage>, ba: seq<PeerMessage>)
    requires PotatoInv(a, b, ab, ba) && ba != [] && !ba[0].Batch?
    requires ba[0].RequestPotato? ==> !a.Present?
    ensures PotatoInv(a, b, ab, ba[1..])
  {
    if b.Requested? && Asked(ba) && Batches(ab) == 0 {
      AskedAfterTaking(ba);
    }
  }

  lemma TakeBatch(a: PotatoState, b: PotatoState, ab: seq<PeerMessage>, ba: seq<PeerMessage>)
    requires PotatoInv(a, b, ab, ba) && ba != [] && ba[0].Batch?
    ensures PotatoInv(Present, b, ab, ba[1..])
    ensures !a.Present? && !b.Present? && Batches(ab) == 0 && Batches(ba) == 1 && FirstBatch(ba) == ba[0]
    ensures Batches(ba[1..]) == 0
  {
    if b.Requested? {
      AskedAfterTaking(ba);
    }
  }

  lemma PotatoInvSymmetric(a: PotatoState, b: PotatoState, ab: seq<PeerMessage>, ba: seq<PeerMessage>)
    ensures PotatoInv(a, b, ab, ba) <==> PotatoInv(b, a, ba, ab)
  {
  }
}

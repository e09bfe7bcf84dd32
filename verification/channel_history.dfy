/** Unroll history: every state ever sent or received stays identifiable, and a
    stale one we sent can be preempted. */
module ChannelHistory {
  import opened Wrappers
  import opened Chain
  import opened Referees
  import opened Channels

  /** The map holds exactly one entry for each number up to the current one,
      stored under its own puzzle hash. */
  ghost predicate History(ch: Channel) {
    && (forall ph :: ph in ch.unrollMap ==> EntryOk(ch, ph))
    && (forall n: nat :: n <= ch.stateNumber ==> HasHistorical(ch, n))
    && (forall p, q ::
          (p in ch.unrollMap && q in ch.unrollMap && ch.unrollMap[p].stateNumber == ch.unrollMap[q].stateNumber)
          ==> p == q)
  }

  ghost predicate EntryOk(ch: Channel, ph: PuzzleHash)
    requires ph in ch.unrollMap
  {
    var info := ch.unrollMap[ph];
    && info.stateNumber <= ch.stateNumber
    && info.conditionsHash == ConditionsHash(info.timeoutConditions)
    && ph == UnrollPh(ch.id.UnrollKey(), info.stateNumber, info.conditionsHash)
  }

  /** Sends and receives alternate: one of the two full records is the current
      state and the other the one before it, except at the shared state 0. */
  ghost predicate Alternates(ch: Channel) {
    && ch.latestSent.signatures == NO_SIGNATURES
    && ch.latestReceived.Some?
    && var sent := ch.latestSent.coin.stateNumber;
    var received := ch.latestReceived.value.coin.stateNumber;
    && VerifyUnroll(ch.id, ch.latestReceived.value.coin, ch.latestReceived.value.signatures.unrollHalf)
    && RecordOk(ch, ch.latestReceived.value.coin)
    && (ch.stateNumber == 0 ==> sent == 0 && received == 0)
    && (ch.stateNumber > 0 && ch.havePotato ==> received == ch.stateNumber && sent == ch.stateNumber - 1)
    && (ch.stateNumber > 0 && !ch.havePotato ==> sent == ch.stateNumber && received == ch.stateNumber - 1)
  }

  /** A full record signed by us whose conditions start with its own number. */
  ghost predicate RecordOk(ch: Channel, coin: UnrollCoin) {
    && coin.outcome.stateNumber == coin.stateNumber
    && |coin.outcome.baseConditions| >= 3
    && coin.outcome.baseConditions[0] == Rem(coin.stateNumber)
    && coin.outcome.signature
       == HalfSignature(ch.id.myUnrollKey, Some(ch.id.UnrollKey()), UnrollMessage(coin.outcome.baseConditions))
  }

  /** Parity of the numbers this side sends, once it has sent or received. */
  function SentParity(ch: Channel): nat {
    if ch.havePotato then (ch.stateNumber + 1) % 2 else ch.stateNumber % 2
  }

  // --- The invariants hold from the handshake on ------------------------------

  lemma InitialHistory(id: ChannelIdentity, start: bool, mine: nat, theirs: nat, signatures: StateUpdateSignatures)
    requires NewChannel(id, start, mine, theirs).Ok?
    requires StoreInitialPeerSignatures(NewChannel(id, start, mine, theirs).value, signatures).Ok?
    ensures
      var ch := StoreInitialPeerSignatures(NewChannel(id, start, mine, theirs).value, signatures).value;
      History(ch) && Alternates(ch)
  {
    var ch := StoreInitialPeerSignatures(NewChannel(id, start, mine, theirs).value, signatures).value;
    var ph := UnrollPuzzleHash(id, ch.latestSent.coin);
    assert ph in ch.unrollMap && ch.unrollMap[ph].stateNumber == 0;
  }

  lemma RecordingKeepsHistory(ch: Channel, coin: UnrollCoin, next: Channel)
    requires History(ch)
    requires coin.stateNumber == ch.stateNumber + 1 && coin.outcome.stateNumber == coin.stateNumber
    requires next.id == ch.id && next.stateNumber == coin.stateNumber
    requires next.unrollMap == ch.unrollMap[UnrollPuzzleHash(ch.id, coin) := HistoricalOf(coin)]
    ensures History(next)
  {
    var ph := UnrollPuzzleHash(ch.id, coin);
    forall q | q in ch.unrollMap
      ensures q != ph && ch.unrollMap[q].stateNumber < coin.stateNumber && EntryOk(next, q)
    {
      assert EntryOk(ch, q);
    }
    assert EntryOk(next, ph);
    forall n: nat | n <= next.stateNumber
      ensures HasHistorical(next, n)
    {
      if n == next.stateNumber {
        assert next.unrollMap[ph].stateNumber == n;
      } else {
        assert HasHistorical(ch, n);
        var q :| q in ch.unrollMap && ch.unrollMap[q].stateNumber == n;
        assert next.unrollMap[q].stateNumber == n;
      }
    }
  }

  lemma SendKeepsHistory(ch: Channel)
    requires History(ch) && Alternates(ch) && (ch.havePotato || ch.stateNumber == 0)
    ensures
      var next := UpdateCachedUnrollState(ch).0;
      History(next) && Alternates(next) && (ch.stateNumber > 0 ==> SentParity(next) == SentParity(ch))
  {
    var next := UpdateCachedUnrollState(ch).0;
    RecordingKeepsHistory(ch, next.latestSent.coin, next);
  }

  lemma ReceiveKeepsHistory(ch: Channel, signatures: StateUpdateSignatures)
    requires History(ch) && Alternates(ch) && (!ch.havePotato || ch.stateNumber == 0)
    requires VerifyReceivedBatch(ch, signatures).Ok?
    ensures
      var next := VerifyReceivedBatch(ch, signatures).value;
      History(next) && Alternates(next) && (ch.stateNumber > 0 ==> SentParity(next) == SentParity(ch))
  {
    var next := VerifyReceivedBatch(ch, signatures).value;
    RecordingKeepsHistory(ch, next.latestReceived.value.coin, next);
  }

  // --- What they give ------------------------------------------------------------

  lemma HistoricalIsUnique(ch: Channel, ph: PuzzleHash)
    requires History(ch) && ph in ch.unrollMap
    ensures HasHistorical(ch, ch.unrollMap[ph].stateNumber)
    ensures HistoricalFor(ch, ch.unrollMap[ph].stateNumber) == ch.unrollMap[ph]
  {
  }

  predicate NoneStored(ch: Channel, conditions: seq<Condition>) {
    forall c <- conditions :: c.CreateCoin? ==> c.ph !in ch.unrollMap
  }

  /** Conditions resolve to a state number only through that state's own puzzle
      hash, the first that is stored. */
  lemma {:induction false} ResolvedIsStored(ch: Channel, conditions: seq<Condition>)
    requires History(ch) && ResolveUnroll(ch, conditions).Ok?
    ensures
      var (number, hash) := ResolveUnroll(ch, conditions).value;
      && number <= ch.stateNumber
      && UnrollPh(ch.id.UnrollKey(), number, hash) in ch.unrollMap
      && ch.unrollMap[UnrollPh(ch.id.UnrollKey(), number, hash)].stateNumber == number
      && ch.unrollMap[UnrollPh(ch.id.UnrollKey(), number, hash)].conditionsHash == hash
      && exists i :: 0 <= i < |conditions| && conditions[i].CreateCoin?
                     && conditions[i].ph == UnrollPh(ch.id.UnrollKey(), number, hash)
                     && NoneStored(ch, conditions[..i])
  {
    if conditions[0].CreateCoin? && conditions[0].ph in ch.unrollMap {
      assert EntryOk(ch, conditions[0].ph);
      assert NoneStored(ch, conditions[..0]);
    } else {
      ResolvedIsStored(ch, conditions[1..]);
      var (number, hash) := ResolveUnroll(ch, conditions).value;
      var i :| 0 <= i < |conditions[1..]| && conditions[1..][i].CreateCoin?
               && conditions[1..][i].ph == UnrollPh(ch.id.UnrollKey(), number, hash) && NoneStored(ch, conditions[1..][..i]);
      assert conditions[i + 1] == conditions[1..][i];
      assert conditions[..i + 1] == [conditions[0]] + conditions[1..][..i];
      assert NoneStored(ch, conditions[..i + 1]);
    }
  }

  /** The unroll of each number up to the current one resolves from a channel
      spend that creates it, and its timeout spend can be built. */
  lemma EveryStateResolves(ch: Channel, number: nat, amount: nat)
    requires History(ch) && number <= ch.stateNumber
    ensures
      var info := HistoricalFor(ch, number);
      var conditions := [CreateCoin(UnrollPh(ch.id.UnrollKey(), number, info.conditionsHash), amount)];
      && ResolveUnroll(ch, conditions) == Ok((number, info.conditionsHash))
      && TimeoutUnrollSpend(ch, number, info.conditionsHash).Ok?
      && ConditionsHash(TimeoutUnrollSpend(ch, number, info.conditionsHash).value.solution) == info.conditionsHash
  {
    assert HasHistorical(ch, number);
    var ph :| ph in ch.unrollMap && ch.unrollMap[ph].stateNumber == number;
    HistoricalIsUnique(ch, ph);
    assert EntryOk(ch, ph);
  }

  /** A channel coin spend is handled exactly when one of its created coins is a
      stored unroll, whoever made it. */
  lemma ChannelCoinSpentSucceedsIff(ch: Channel, byMyself: bool, conditions: seq<Condition>)
    requires History(ch)
    ensures ChannelCoinSpent(ch, byMyself, conditions).Ok? <==> ResolveUnroll(ch, conditions).Ok?
    ensures ChannelCoinSpent(ch, byMyself, conditions).Ok? ==>
              var (number, hash) := ResolveUnroll(ch, conditions).value;
              var spend := ChannelCoinSpent(ch, byMyself, conditions).value;
              && spend.puzzle == UnrollPh(ch.id.UnrollKey(), number, hash) && spend.stateNumber == number
              && (spend.timeout <==> byMyself || number == ch.stateNumber || PreemptionSource(ch, number).None?)
              && (spend.timeout ==> ConditionsHash(spend.solution) == hash && spend.signatures == multiset{})
  {
    if ResolveUnroll(ch, conditions).Ok? {
      ResolvedIsStored(ch, conditions);
      var (number, hash) := ResolveUnroll(ch, conditions).value;
      HistoricalIsUnique(ch, UnrollPh(ch.id.UnrollKey(), number, hash));
      assert EntryOk(ch, UnrollPh(ch.id.UnrollKey(), number, hash));
    }
  }

  /** An unroll is unrecoverable exactly when none of the conditions is a known
      unroll and the claimed number is beyond ours, so never up to our number; and
      it is preempted exactly when it is a known one, stale, and something of ours
      preempts it. */
  lemma UnrecoverableIff(ch: Channel, conditions: seq<Condition>, onChainNumber: nat)
    requires History(ch)
    ensures ClassifyUnroll(ch, conditions, onChainNumber).Unrecoverable? <==>
              ResolveUnroll(ch, conditions).Err? && onChainNumber > ch.stateNumber
    ensures ClassifyUnroll(ch, conditions, onChainNumber).Preempted? <==>
              && ResolveUnroll(ch, conditions).Ok?
              && ResolveUnroll(ch, conditions).value.0 < ch.stateNumber
              && PreemptionSource(ch, ResolveUnroll(ch, conditions).value.0).Some?
    ensures ClassifyUnroll(ch, conditions, onChainNumber).Preempted? ==>
              !ClassifyUnroll(ch, conditions, onChainNumber).spend.timeout
  {
    ChannelCoinSpentSucceedsIff(ch, false, conditions);
    if HasHistorical(ch, onChainNumber) {
      var ph :| ph in ch.unrollMap && ch.unrollMap[ph].stateNumber == onChainNumber;
      assert EntryOk(ch, ph);
    }
  }

  /** Only the latest received record can preempt, and it does so exactly for the
      opposite parity. */
  lemma PreemptionSourceIff(ch: Channel, oldNumber: nat)
    requires Alternates(ch)
    ensures PreemptionSource(ch, oldNumber).Some? <==>
              ch.latestReceived.value.coin.stateNumber % 2 != oldNumber % 2
    ensures PreemptionSource(ch, oldNumber).Some? ==> PreemptionSource(ch, oldNumber) == ch.latestReceived
  {
  }

  /** A state this side sent that is no longer current: a newer state with the
      other parity and the peer's signature exists, and it is what the spend of
      the stale unroll uses. */
  lemma StaleSentUnrollIsPreempted(ch: Channel, number: nat, amount: nat)
    requires History(ch) && Alternates(ch)
    requires 1 <= number < ch.stateNumber && number % 2 == SentParity(ch)
    ensures
      var source := PreemptionSource(ch, number);
      && source.Some?
      && source.value.coin.stateNumber > number
      && source.value.coin.stateNumber % 2 != number % 2
      && VerifyUnroll(ch.id, source.value.coin, source.value.signatures.unrollHalf)
      && source.value.signatures.unrollHalf != DefaultSignature
    ensures
      var source := PreemptionSource(ch, number).value;
      var hash := HistoricalFor(ch, number).conditionsHash;
      var spent := ChannelCoinSpent(ch, false, [CreateCoin(UnrollPh(ch.id.UnrollKey(), number, hash), amount)]);
      && spent.Ok? && !spent.value.timeout
      && spent.value.puzzle == UnrollPh(ch.id.UnrollKey(), number, hash)
      && spent.value.solution == source.coin.outcome.baseConditions
      && spent.value.solution[0] == Rem(source.coin.stateNumber)
      && spent.value.signatures == multiset{
           HalfSignature(ch.id.myUnrollKey, Some(ch.id.UnrollKey()), UnrollMessage(spent.value.solution)),
           HalfSignature(ch.id.theirUnrollKey, Some(ch.id.UnrollKey()), UnrollMessage(spent.value.solution))}
  {
    PreemptionSourceIff(ch, number);
    EveryStateResolves(ch, number, amount);
  }

  /** State 0 is shared, and the parity argument does not reach it: it can be
      preempted exactly when the peer sends the odd states and has sent one. */
  lemma InitialUnrollIsPreemptibleIff(ch: Channel)
    requires Alternates(ch) && ch.stateNumber > 0
    ensures PreemptionSource(ch, 0).Some? <==> SentParity(ch) == 0
  {
  }
}

/** Who is paid what by the conditions a channel signs (src/channel_state,
    src/shutdown.rs): an unroll, a channel coin spend, a clean shutdown. */
module ChannelPayouts {
  import opened Wrappers
  import opened Chain
  import opened Referees
  import opened Channels
  import opened ChannelMoney
  import opened OffChainPeers

  // ---------------------------------------------------------------------------
  // Adding up created coins
  // ---------------------------------------------------------------------------

  function Created(c: Condition): nat { if c.CreateCoin? then c.amount else 0 }

  function CreatedTo(c: Condition, ph: PuzzleHash): nat { if c.CreateCoin? && c.ph == ph then c.amount else 0 }

  function PaidTo(conditions: seq<Condition>, ph: PuzzleHash): nat {
    if conditions == [] then 0 else CreatedTo(conditions[0], ph) + PaidTo(conditions[1..], ph)
  }

  function PaidInAll(conditions: seq<Condition>): nat {
    if conditions == [] then 0 else Created(conditions[0]) + PaidInAll(conditions[1..])
  }

  lemma {:induction false} PaidOfAppend(a: seq<Condition>, b: seq<Condition>)
    ensures PaidInAll(a + b) == PaidInAll(a) + PaidInAll(b)
    ensures forall ph :: PaidTo(a + b, ph) == PaidTo(a, ph) + PaidTo(b, ph)
  {
    if a == [] {
      assert [] + b == b;
    } else {
      assert (a + b)[1..] == a[1..] + b;
      PaidOfAppend(a[1..], b);
    }
  }

  lemma PaidOfOne(c: Condition)
    ensures PaidInAll([c]) == Created(c) && forall ph :: PaidTo([c], ph) == CreatedTo(c, ph)
  {
    assert [c][1..] == [];
  }

  lemma PaidOfRemove(b: seq<Condition>, i: nat)
    requires i < |b|
    ensures
      var rest := b[..i] + b[i + 1..];
      && multiset(rest) == multiset(b) - multiset{b[i]}
      && PaidInAll(b) == Created(b[i]) + PaidInAll(rest)
      && forall ph :: PaidTo(b, ph) == CreatedTo(b[i], ph) + PaidTo(rest, ph)
  {
    hide PaidInAll, PaidTo;
    assert b == b[..i] + [b[i]] + b[i + 1..];
    PaidOfAppend(b[..i] + [b[i]], b[i + 1..]);
    PaidOfAppend(b[..i], [b[i]]);
    PaidOfAppend(b[..i], b[i + 1..]);
    PaidOfOne(b[i]);
  }

  /** The order of conditions does not matter. */
  lemma {:induction false} PaidOfPermutation(a: seq<Condition>, b: seq<Condition>)
    requires multiset(a) == multiset(b)
    ensures PaidInAll(a) == PaidInAll(b) && forall ph :: PaidTo(a, ph) == PaidTo(b, ph)
    decreases |a|
  {
    assert |a| == |multiset(a)| == |multiset(b)| == |b|;
    if a != [] {
      hide PaidInAll, PaidTo;
      assert a[0] in multiset(b);
      var i :| 0 <= i < |b| && b[i] == a[0];
      PaidOfRemove(a, 0);
      PaidOfRemove(b, i);
      assert a[..0] + a[0 + 1..] == a[1..];
      PaidOfPermutation(a[1..], b[..i] + b[i + 1..]);
    }
  }

  // ---------------------------------------------------------------------------
  // Unrolls
  // ---------------------------------------------------------------------------

  /** What a state pays to a puzzle hash: each side's balance to its reward hash,
      and every live game's amount to its coin. */
  function DueTo(ch: Channel, ph: PuzzleHash): nat {
    (if ph == ch.id.rewardPh then ch.myOut else 0)
    + (if ph == ch.id.theirRewardPh then ch.theirOut else 0)
    + AmountsTo(ch.live, ph)
  }

  function AmountsTo(games: seq<LiveGame>, ph: PuzzleHash): nat {
    if games == [] then 0 else (if games[0].lastPh == ph then games[0].Amount() else 0) + AmountsTo(games[1..], ph)
  }

  function Amounts(games: seq<LiveGame>): nat {
    if games == [] then 0 else games[0].Amount() + Amounts(games[1..])
  }

  lemma {:induction false} CoinsPay(games: seq<LiveGame>)
    ensures PaidInAll(CoinConditions(GameCoins(games))) == Amounts(games)
    ensures forall ph :: PaidTo(CoinConditions(GameCoins(games)), ph) == AmountsTo(games, ph)
  {
    var conditions := CoinConditions(GameCoins(games));
    if games != [] {
      assert conditions[1..] == CoinConditions(GameCoins(games[1..]));
      CoinsPay(games[1..]);
    }
  }

  lemma {:induction false} StakesAreAmounts(games: seq<LiveGame>)
    requires forall i :: 0 <= i < |games| ==> AddsUp(games[i])
    ensures Amounts(games) == SumMine(games) + SumTheirs(games)
  {
    if games != [] {
      assert AddsUp(games[0]);
      StakesAreAmounts(games[1..]);
    }
  }

  /** The conditions of a state pay exactly what is due, to our reward hash our
      balance and to theirs their own; the two rewards come right after the
      number, first that of the side that started with the potato. */
  lemma UnrollPaysBalances(ch: Channel, started: bool, number: nat)
    ensures
      var base := UpdatedUnroll(ch.id, started, number, CurrentInputs(ch)).outcome.baseConditions;
      var ours, theirs := CreateCoin(ch.id.rewardPh, ch.myOut), CreateCoin(ch.id.theirRewardPh, ch.theirOut);
      && |base| == 3 + |ch.live| && base[0] == Rem(number)
      && base[1] == (if started then ours else theirs) && base[2] == (if started then theirs else ours)
      && (forall ph :: PaidTo(base, ph) == DueTo(ch, ph))
      && PaidInAll(base) == ch.myOut + ch.theirOut + Amounts(ch.live)
  {
    var ours, theirs := CreateCoin(ch.id.rewardPh, ch.myOut), CreateCoin(ch.id.theirRewardPh, ch.theirOut);
    var games := CoinConditions(GameCoins(ch.live));
    var base := BaseConditions(started, number, CurrentInputs(ch));
    CoinsPay(ch.live);
    var (first, second) := if started then (ours, theirs) else (theirs, ours);
    assert base == [Rem(number)] + [first] + [second] + games;
    PaidOfAppend([Rem(number)] + [first] + [second], games);
    PaidOfAppend([Rem(number)] + [first], [second]);
    PaidOfAppend([Rem(number)], [first]);
    PaidOfOne(Rem(number));
    PaidOfOne(first);
    PaidOfOne(second);
  }

  /** So a state pays out the whole channel amount. */
  lemma UnrollPaysAll(ch: Channel, started: bool, number: nat, total: nat)
    requires Money(ch, total)
    ensures PaidInAll(UpdatedUnroll(ch.id, started, number, CurrentInputs(ch)).outcome.baseConditions) == total
  {
    UnrollPaysBalances(ch, started, number);
    StakesAreAmounts(ch.live);
  }

  /** Spent by timeout it pays the same, but only after the unroll timeout. */
  lemma TimeoutWaits(ch: Channel, started: bool, number: nat)
    requires ch.id.unrollTimeout > 0
    ensures
      var outcome := UpdatedUnroll(ch.id, started, number, CurrentInputs(ch)).outcome;
      && outcome.timeoutConditions != [] && outcome.timeoutConditions[0] == AssertHeightRelative(ch.id.unrollTimeout)
      && outcome.timeoutConditions[1..] == outcome.baseConditions
      && PaidInAll(outcome.timeoutConditions) == PaidInAll(outcome.baseConditions)
      && forall ph :: PaidTo(outcome.timeoutConditions, ph) == PaidTo(outcome.baseConditions, ph)
  {
    hide BaseConditions;
  }

  // ---------------------------------------------------------------------------
  // Spends of the channel coin
  // ---------------------------------------------------------------------------

  /** Signing a state signs a spend of the channel coin that puts all of it into
      that state's unroll, which the channel then resolves. */
  lemma ChannelSpendFundsUnroll(ch: Channel)
    ensures
      var (next, signatures) := UpdateCachedUnrollState(ch);
      var coin := next.latestSent.coin;
      var spend := ChannelSpendConditions(ch.id, coin);
      && PaidTo(spend, UnrollPuzzleHash(ch.id, coin)) == PaidInAll(spend) == ch.id.channelCoin.amount
      && signatures.channelHalf == OurChannelHalf(ch.id, spend)
      && ResolveUnroll(next, spend) == Ok((ch.stateNumber + 1, ConditionsHash(coin.outcome.timeoutConditions)))
  {
    var next := UpdateCachedUnrollState(ch).0;
    hide UpdatedUnroll, CurrentInputs;
    PaidOfOne(ChannelSpendConditions(ch.id, next.latestSent.coin)[0]);
    var coin := next.latestSent.coin;
    assert coin.outcome.stateNumber == coin.stateNumber == ch.stateNumber + 1 by { NumberedAlike(ch); }
  }

  lemma NumberedAlike(ch: Channel)
    ensures
      var coin := UpdateCachedUnrollState(ch).0.latestSent.coin;
      coin.outcome.stateNumber == coin.stateNumber == ch.stateNumber + 1
  {
  }

  /** What is signed binds: the same half signature of a channel spend means the
      same signer, channel coin and conditions, and of an unroll the same number
      and payouts. */
  lemma SignaturesBind(
    a: ChannelIdentity, b: ChannelIdentity, x: seq<Condition>, y: seq<Condition>, started: bool, started': bool, m: nat, n: nat,
    inputs: UnrollInputs, inputs': UnrollInputs)
    ensures OurChannelHalf(a, x) == OurChannelHalf(b, y) ==>
              a.myChannelKey == b.myChannelKey && IdOf(a.channelCoin) == IdOf(b.channelCoin) && x == y
    ensures
      var coin, coin' := UpdatedUnroll(a, started, m, inputs), UpdatedUnroll(b, started', n, inputs');
      coin.outcome.signature == coin'.outcome.signature ==>
        && a.myUnrollKey == b.myUnrollKey && m == n
        && coin.outcome.baseConditions == coin'.outcome.baseConditions
  {
    assert BaseConditions(started, m, inputs)[0] == Rem(m) && BaseConditions(started', n, inputs')[0] == Rem(n);
  }

  // ---------------------------------------------------------------------------
  // Clean shutdowns
  // ---------------------------------------------------------------------------

  /** A clean shutdown pays each reward hash that side's balance, and nothing
      else; and it creates no coin of nothing. */
  lemma ShutdownPaysBalances(ch: Channel)
    ensures
      var conditions := ShutdownConditions(ch);
      && (forall ph :: PaidTo(conditions, ph)
                       == (if ph == ch.id.rewardPh then ch.myOut else 0)
                          + (if ph == ch.id.theirRewardPh then ch.theirOut else 0))
      && PaidInAll(conditions) == ch.myOut + ch.theirOut
      && forall i :: 0 <= i < |conditions| ==> conditions[i].CreateCoin? && conditions[i].amount > 0
  {
    var ours := if ch.myOut != 0 then [CreateCoin(ch.id.rewardPh, ch.myOut)] else [];
    var theirs := if ch.theirOut != 0 then [CreateCoin(ch.id.theirRewardPh, ch.theirOut)] else [];
    PaidOfAppend(ours, theirs);
    PaidOfOne(CreateCoin(ch.id.rewardPh, ch.myOut));
    PaidOfOne(CreateCoin(ch.id.theirRewardPh, ch.theirOut));
  }

  /** The payout a close accepts pays us our balance and them theirs, in whatever
      order the other side signed it, and is one it did sign; with the games over
      that is the whole channel amount, and what is acknowledged is told exactly
      when we get something. */
  lemma ClosePaysBalances(p: Peer, ch: Channel, shutdown: Shutdown, total: nat)
    requires Money(ch, total) && CloseCleanly(p, ch, shutdown).Ok?
    ensures PaidInAll(shutdown.conditions) == ch.myOut + ch.theirOut == total
    ensures forall ph :: PaidTo(shutdown.conditions, ph)
                         == (if ph == ch.id.rewardPh then ch.myOut else 0)
                            + (if ph == ch.id.theirRewardPh then ch.theirOut else 0)
    ensures shutdown.signature
            == HalfSignature(ch.id.theirChannelKey, Some(ch.id.ChannelKey()), ChannelMessageFor(ch.id, shutdown.conditions))
    ensures CloseCleanly(p, ch, shutdown).value.1 != [] <==> ch.myOut > 0
  {
    PaidOfPermutation(shutdown.conditions, ShutdownConditions(ch));
    ShutdownPaysBalances(ch);
  }
}

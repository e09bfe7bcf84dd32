/** Transactions the manager has handed out and keeps so that it can hand them
    out again (src/transaction_manager.rs). */
module Submissions {
  import opened Wrappers
  import opened Chain

  /** A spend bundle: an identity and the coins it spends, in order. */
  datatype SpendBundle = SpendBundle(id: nat, spends: seq<CoinString>)

  type Key = seq<CoinID>

  datatype SubmittedTx = SubmittedTx(
    bundle: SpendBundle, key: Key, outputs: seq<CoinString>, landed: bool, expiry: Option<nat>)

  /** The coins a bundle's conditions create, or nothing when they do not parse. */
  type Parser = SpendBundle -> Option<seq<CoinString>>

  const CHANNEL_EXPIRY_BUFFER: nat := 6

  function KeyOf(bundle: SpendBundle): (r: Key)
    ensures |r| == |bundle.spends|
  {
    seq(|bundle.spends|, i requires 0 <= i < |bundle.spends| => IdOf(bundle.spends[i]))
  }

  /** Two bundles are retained under one key exactly when they spend the same
      coins in the same order. */
  lemma KeysTellSpends(a: SpendBundle, b: SpendBundle)
    ensures KeyOf(a) == KeyOf(b) <==> a.spends == b.spends
  {
    if KeyOf(a) == KeyOf(b) {
      assert |a.spends| == |b.spends|;
      forall i | 0 <= i < |a.spends|
        ensures a.spends[i] == b.spends[i]
      {
        assert KeyOf(a)[i] == KeyOf(b)[i];
      }
    }
  }

  function MinExpiry(a: Option<nat>, b: Option<nat>): Option<nat> {
    match (a, b)
    case (Some(x), Some(y)) => Some(if x <= y then x else y)
    case (None, _) => b
    case (_, None) => a
  }

  /** Position of the first entry retained under the key. */
  function Retained(submitted: seq<SubmittedTx>, key: Key): (r: Option<nat>)
    ensures r.Some? ==> r.value < |submitted| && submitted[r.value].key == key
    ensures r.None? ==> forall i :: 0 <= i < |submitted| ==> submitted[i].key != key
  {
    if submitted == [] then None
    else if submitted[0].key == key then Some(0)
    else
      match Retained(submitted[1..], key)
      case None => None
      case Some(i) => Some(i + 1)
  }

  // ---------------------------------------------------------------------------
  // Draining
  // ---------------------------------------------------------------------------

  type Pending = (SpendBundle, Option<nat>)

  /** Every bundle not retained yet has conditions that parse. */
  predicate AllParse(parse: Parser, submitted: seq<SubmittedTx>, pending: seq<Pending>) {
    forall i :: 0 <= i < |pending| ==>
      Retained(submitted, KeyOf(pending[i].0)).Some? || parse(pending[i].0).Some?
  }

  /** A bundle retained already only tightens its expiry. */
  function Retain(parse: Parser, submitted: seq<SubmittedTx>, item: Pending): seq<SubmittedTx> {
    var key := KeyOf(item.0);
    match Retained(submitted, key)
    case Some(i) => submitted[i := submitted[i].(expiry := MinExpiry(submitted[i].expiry, item.1))]
    case None =>
      match parse(item.0)
      case Some(outputs) => submitted + [SubmittedTx(item.0, key, outputs, false, item.1)]
      case None => submitted
  }

  function RetainAll(parse: Parser, submitted: seq<SubmittedTx>, pending: seq<Pending>): seq<SubmittedTx> {
    if pending == [] then submitted
    else
      var last := |pending| - 1;
      Retain(parse, RetainAll(parse, submitted, pending[..last]), pending[last])
  }

  // ---------------------------------------------------------------------------
  // Dropping and replaying
  // ---------------------------------------------------------------------------

  function Keep(submitted: seq<SubmittedTx>, keep: SubmittedTx -> bool): seq<SubmittedTx> {
    if submitted == [] then []
    else (if keep(submitted[0]) then [submitted[0]] else []) + Keep(submitted[1..], keep)
  }

  predicate NotExpired(tx: SubmittedTx, height: nat) { tx.expiry.None? || height < tx.expiry.value }

  /** Requeued after a reload: what can still be included. */
  function Requeued(submitted: seq<SubmittedTx>, height: nat): seq<SubmittedTx> {
    Keep(submitted, tx => NotExpired(tx, height))
  }

  function AsPending(submitted: seq<SubmittedTx>): seq<Pending> {
    seq(|submitted|, i requires 0 <= i < |submitted| => (submitted[i].bundle, submitted[i].expiry))
  }

  /** Creates the coin, but too long past its expiry to be worth replaying. */
  predicate DeadCreator(tx: SubmittedTx, coin: CoinString, height: nat) {
    coin.parent in tx.key && tx.expiry.Some? && height >= tx.expiry.value + CHANNEL_EXPIRY_BUFFER
  }

  function WithoutDeadCreators(submitted: seq<SubmittedTx>, coin: CoinString, height: nat): seq<SubmittedTx> {
    Keep(submitted, tx => !DeadCreator(tx, coin, height))
  }

  /** The last retained transaction that created the coin. */
  function CreatorOf(submitted: seq<SubmittedTx>, coin: CoinString): Option<Pending> {
    if submitted == [] then None
    else
      var tx := submitted[|submitted| - 1];
      if coin.parent in tx.key then Some((tx.bundle, tx.expiry)) else CreatorOf(submitted[..|submitted| - 1], coin)
  }

  function WithoutSpendersOf(submitted: seq<SubmittedTx>, coin: CoinID): seq<SubmittedTx> {
    Keep(submitted, (tx: SubmittedTx) => coin !in tx.key)
  }

  predicate CreatesAny(tx: SubmittedTx, created: set<CoinString>) {
    exists i :: 0 <= i < |tx.outputs| && tx.outputs[i] in created
  }

  predicate SpendsAny(tx: SubmittedTx, spent: set<CoinID>) {
    exists i :: 0 <= i < |tx.key| && tx.key[i] in spent
  }

  function Landed(submitted: seq<SubmittedTx>, created: set<CoinString>): (r: seq<SubmittedTx>)
    ensures |r| == |submitted|
  {
    seq(|submitted|, i requires 0 <= i < |submitted| =>
      submitted[i].(landed := submitted[i].landed || CreatesAny(submitted[i], created)))
  }

  /** Local intents that lost to another spend of the same coin are dropped. */
  function Observed(submitted: seq<SubmittedTx>, created: set<CoinString>, spent: set<CoinID>): seq<SubmittedTx> {
    Keep(Landed(submitted, created), (tx: SubmittedTx) => !SpendsAny(tx, spent) || tx.landed || tx.outputs == [])
  }

  // ---------------------------------------------------------------------------
  // What every run keeps
  // ---------------------------------------------------------------------------

  datatype Operation =
    | Queue(bundle: SpendBundle, expiry: Option<nat>)
    | Drain
    | Requeue(height: nat)
    | Resubmit(coin: CoinString, height: nat)
    | Evict(spentCoin: CoinID)
    | Observe(created: set<CoinString>, spent: set<CoinID>)

  /** `drained` lists, for each retained key, the expiries drained under it since
      it was retained. */
  datatype Ledger = Ledger(
    submitted: seq<SubmittedTx>, pending: seq<Pending>, drained: map<Key, seq<Option<nat>>>)

  function DrainedOnto(drained: map<Key, seq<Option<nat>>>, item: Pending): map<Key, seq<Option<nat>>> {
    var key := KeyOf(item.0);
    drained[key := (if key in drained then drained[key] else []) + [item.1]]
  }

  function DrainedAllOnto(drained: map<Key, seq<Option<nat>>>, pending: seq<Pending>): map<Key, seq<Option<nat>>> {
    if pending == [] then drained
    else DrainedOnto(DrainedAllOnto(drained, pending[..|pending| - 1]), pending[|pending| - 1])
  }

  function Keys(submitted: seq<SubmittedTx>): set<Key> {
    set i | 0 <= i < |submitted| :: submitted[i].key
  }

  function KeptOnly(drained: map<Key, seq<Option<nat>>>, submitted: seq<SubmittedTx>): map<Key, seq<Option<nat>>> {
    map key | key in drained && key in Keys(submitted) :: drained[key]
  }

  function WithSubmitted(s: Ledger, submitted: seq<SubmittedTx>): Ledger {
    s.(submitted := submitted, drained := KeptOnly(s.drained, submitted))
  }

  function Apply(parse: Parser, s: Ledger, op: Operation): Ledger {
    match op
    case Queue(bundle, expiry) => s.(pending := s.pending + [(bundle, expiry)])
    case Drain =>
      if AllParse(parse, s.submitted, s.pending) then
        Ledger(RetainAll(parse, s.submitted, s.pending), [], DrainedAllOnto(s.drained, s.pending))
      else s
    case Requeue(height) =>
      var left := Requeued(s.submitted, height);
      WithSubmitted(s, left).(pending := s.pending + AsPending(left))
    case Resubmit(coin, height) =>
      var left := WithoutDeadCreators(s.submitted, coin, height);
      var creator := CreatorOf(left, coin);
      WithSubmitted(s, left).(pending := s.pending + if creator.Some? then [creator.value] else [])
    case Evict(coin) => WithSubmitted(s, WithoutSpendersOf(s.submitted, coin))
    case Observe(created, spent) => WithSubmitted(s, Observed(s.submitted, created, spent))
  }

  function Run(parse: Parser, s: Ledger, ops: seq<Operation>): Ledger
    decreases |ops|
  {
    if ops == [] then s else Run(parse, Apply(parse, s, ops[0]), ops[1..])
  }

  ghost predicate UniqueKeys(submitted: seq<SubmittedTx>) {
    forall i, j :: 0 <= i < j < |submitted| ==> submitted[i].key != submitted[j].key
  }

  /** The tightest of the expiries; `None` constrains nothing. */
  function Tightest(expiries: seq<Option<nat>>): Option<nat> {
    if expiries == [] then None else MinExpiry(Tightest(expiries[..|expiries| - 1]), expiries[|expiries| - 1])
  }

  lemma {:induction false} TightestIsLeast(expiries: seq<Option<nat>>)
    ensures Tightest(expiries).None? <==> forall i :: 0 <= i < |expiries| ==> expiries[i].None?
    ensures Tightest(expiries).Some? ==> Tightest(expiries) in expiries
    ensures forall i :: 0 <= i < |expiries| && expiries[i].Some? ==>
              Tightest(expiries).Some? && Tightest(expiries).value <= expiries[i].value
  {
    if expiries != [] {
      var last := |expiries| - 1;
      TightestIsLeast(expiries[..last]);
      assert forall i :: 0 <= i < last ==> expiries[i] == expiries[..last][i];
    }
  }

  ghost predicate TxOk(drained: map<Key, seq<Option<nat>>>, tx: SubmittedTx) {
    tx.key == KeyOf(tx.bundle) && tx.key in drained && tx.expiry == Tightest(drained[tx.key])
  }

  /** Keys are unique, each expiry is the tightest drained under its key, and
      only retained keys are remembered. */
  ghost predicate LedgerOk(s: Ledger) {
    && UniqueKeys(s.submitted)
    && (forall i :: 0 <= i < |s.submitted| ==> TxOk(s.drained, s.submitted[i]))
    && (forall key :: key in s.drained ==> key in Keys(s.submitted))
  }

  lemma {:induction false} KeepIsSubset(submitted: seq<SubmittedTx>, keep: SubmittedTx -> bool)
    requires UniqueKeys(submitted)
    ensures UniqueKeys(Keep(submitted, keep))
    ensures forall i :: 0 <= i < |Keep(submitted, keep)| ==>
              Keep(submitted, keep)[i] in submitted && keep(Keep(submitted, keep)[i])
    ensures forall i :: 0 <= i < |submitted| && keep(submitted[i]) ==> submitted[i] in Keep(submitted, keep)
  {
    if submitted != [] {
      var tail := submitted[1..];
      var rest := Keep(tail, keep);
      assert UniqueKeys(tail) by { TailIsUnique(submitted); }
      KeepIsSubset(tail, keep);
      forall i | 0 <= i < |rest|
        ensures rest[i] in submitted && rest[i].key != submitted[0].key
      {
        var j :| 0 <= j < |tail| && tail[j] == rest[i];
        assert submitted[j + 1] == rest[i];
      }
      hide Keep;
      assert Keep(submitted, keep) == (if keep(submitted[0]) then [submitted[0]] else []) + rest by { KeepUnfolds(submitted, keep); }
    }
  }

  lemma TailIsUnique(submitted: seq<SubmittedTx>)
    requires UniqueKeys(submitted) && submitted != []
    ensures UniqueKeys(submitted[1..])
  {
    assert forall i, j :: 0 <= i < j < |submitted[1..]| ==>
        submitted[1..][i].key == submitted[i + 1].key && submitted[1..][j].key == submitted[j + 1].key;
  }

  lemma KeepUnfolds(submitted: seq<SubmittedTx>, keep: SubmittedTx -> bool)
    requires submitted != []
    ensures Keep(submitted, keep) == (if keep(submitted[0]) then [submitted[0]] else []) + Keep(submitted[1..], keep)
  {
  }

  lemma KeptIsOk(s: Ledger, keep: SubmittedTx -> bool)
    requires LedgerOk(s)
    ensures LedgerOk(WithSubmitted(s, Keep(s.submitted, keep)))
  {
    KeepIsSubset(s.submitted, keep);
    var next := WithSubmitted(s, Keep(s.submitted, keep));
    forall i | 0 <= i < |next.submitted|
      ensures TxOk(next.drained, next.submitted[i])
    {
      var j :| 0 <= j < |s.submitted| && s.submitted[j] == next.submitted[i];
      assert TxOk(s.drained, s.submitted[j]);
      assert next.submitted[i].key in Keys(next.submitted);
    }
  }

  lemma LandedIsOk(s: Ledger, created: set<CoinString>)
    requires LedgerOk(s)
    ensures LedgerOk(s.(submitted := Landed(s.submitted, created)))
  {
    var next := Landed(s.submitted, created);
    forall i | 0 <= i < |next|
      ensures TxOk(s.drained, next[i]) && next[i].key == s.submitted[i].key
    {
      assert TxOk(s.drained, s.submitted[i]);
    }
    forall key | key in Keys(s.submitted)
      ensures key in Keys(next)
    {
      var i :| 0 <= i < |s.submitted| && s.submitted[i].key == key;
      assert next[i].key == key;
    }
  }

  lemma RetainedIff(submitted: seq<SubmittedTx>, key: Key)
    ensures Retained(submitted, key).Some? <==> key in Keys(submitted)
  {
    if key in Keys(submitted) {
      var i :| 0 <= i < |submitted| && submitted[i].key == key;
    }
  }

  lemma RetainIsOk(parse: Parser, s: Ledger, item: Pending)
    requires LedgerOk(s) && (Retained(s.submitted, KeyOf(item.0)).Some? || parse(item.0).Some?)
    ensures LedgerOk(s.(submitted := Retain(parse, s.submitted, item), drained := DrainedOnto(s.drained, item)))
    ensures Keys(s.submitted) <= Keys(Retain(parse, s.submitted, item))
  {
    var next := Retain(parse, s.submitted, item);
    var drained := DrainedOnto(s.drained, item);
    var key := KeyOf(item.0);
    var at := Retained(s.submitted, key);
    assert drained[key][..|drained[key]| - 1] == if key in s.drained then s.drained[key] else [];
    forall i | 0 <= i < |s.submitted|
      ensures next[i].key == s.submitted[i].key && TxOk(drained, next[i])
    {
      assert TxOk(s.drained, s.submitted[i]);
    }
    if at.None? {
      RetainedIff(s.submitted, key);
      assert drained[key] == [item.1];
      assert Tightest([item.1]) == item.1 by { assert [item.1][..0] == []; }
      assert next[|s.submitted|].key == key;
    }
    forall k | k in Keys(s.submitted)
      ensures k in Keys(next)
    {
      var i :| 0 <= i < |s.submitted| && s.submitted[i].key == k;
      assert next[i].key == k;
    }
    assert key in Keys(next) by {
      if at.Some? {
        assert next[at.value].key == key;
      } else {
        assert next[|s.submitted|].key == key;
      }
    }
  }

  lemma {:induction false} RetainAllIsOk(parse: Parser, s: Ledger, pending: seq<Pending>)
    requires LedgerOk(s) && AllParse(parse, s.submitted, pending)
    ensures LedgerOk(s.(
                submitted := RetainAll(parse, s.submitted, pending), drained := DrainedAllOnto(s.drained, pending)))
    ensures Keys(s.submitted) <= Keys(RetainAll(parse, s.submitted, pending))
    decreases |pending|
  {
    hide LedgerOk, Keys, Retain, DrainedOnto, Retained;
    if pending != [] {
      var last := |pending| - 1;
      assert forall i :: 0 <= i < last ==> pending[..last][i] == pending[i];
      RetainAllIsOk(parse, s, pending[..last]);
      var mid := s.(
        submitted := RetainAll(parse, s.submitted, pending[..last]),
        drained := DrainedAllOnto(s.drained, pending[..last]));
      var key := KeyOf(pending[last].0);
      RetainedIff(s.submitted, key);
      RetainedIff(mid.submitted, key);
      RetainIsOk(parse, mid, pending[last]);
    }
  }

  lemma ApplyKeepsLedger(parse: Parser, s: Ledger, op: Operation)
    requires LedgerOk(s)
    ensures LedgerOk(Apply(parse, s, op))
  {
    match op {
      case Queue(_, _) =>
      case Drain =>
        if AllParse(parse, s.submitted, s.pending) {
          RetainAllIsOk(parse, s, s.pending);
        }
      case Requeue(height) => KeptIsOk(s, tx => NotExpired(tx, height));
      case Resubmit(coin, height) => KeptIsOk(s, tx => !DeadCreator(tx, coin, height));
      case Evict(coin) => KeptIsOk(s, (tx: SubmittedTx) => coin !in tx.key);
      case Observe(created, spent) =>
        LandedIsOk(s, created);
        var marked := s.(submitted := Landed(s.submitted, created));
        KeptIsOk(marked, (tx: SubmittedTx) => !SpendsAny(tx, spent) || tx.landed || tx.outputs == []);
    }
  }

  lemma {:induction false} RunKeepsLedger(parse: Parser, s: Ledger, ops: seq<Operation>)
    requires LedgerOk(s)
    ensures LedgerOk(Run(parse, s, ops))
    decreases |ops|
  {
    hide LedgerOk;
    if ops != [] {
      ApplyKeepsLedger(parse, s, ops[0]);
      RunKeepsLedger(parse, Apply(parse, s, ops[0]), ops[1..]);
    }
  }

  /** Over every run, no two retained transactions spend the same list of coins,
      and each carries the tightest expiry drained under its key since it was
      retained. */
  lemma RetainedSubmissions(parse: Parser, ops: seq<Operation>)
    ensures
      var s := Run(parse, Ledger([], [], map[]), ops);
      && (forall i, j :: 0 <= i < j < |s.submitted| ==> s.submitted[i].key != s.submitted[j].key)
      && (forall i :: 0 <= i < |s.submitted| ==>
            && s.submitted[i].key == KeyOf(s.submitted[i].bundle)
            && s.submitted[i].key in s.drained
            && s.submitted[i].expiry == Tightest(s.drained[s.submitted[i].key]))
  {
    RunKeepsLedger(parse, Ledger([], [], map[]), ops);
  }

  /** What is replayed for a vanished coin is a retained transaction that spends
      the coin's parent and is not past its expiry by more than the buffer. */
  lemma {:induction false} ReplayedCreator(submitted: seq<SubmittedTx>, coin: CoinString, height: nat)
    requires UniqueKeys(submitted)
    ensures
      var creator := CreatorOf(WithoutDeadCreators(submitted, coin, height), coin);
      && (creator.Some? ==>
            exists i :: 0 <= i < |submitted| && coin.parent in submitted[i].key
                        && !DeadCreator(submitted[i], coin, height)
                        && creator.value == (submitted[i].bundle, submitted[i].expiry))
      && (creator.None? ==>
            forall i :: 0 <= i < |submitted| && coin.parent in submitted[i].key ==> DeadCreator(submitted[i], coin, height))
  {
    var left := WithoutDeadCreators(submitted, coin, height);
    KeepIsSubset(submitted, tx => !DeadCreator(tx, coin, height));
    CreatorIsRetained(left, coin);
    if CreatorOf(left, coin).Some? {
      var k :| 0 <= k < |left| && coin.parent in left[k].key
               && CreatorOf(left, coin).value == (left[k].bundle, left[k].expiry);
      var i :| 0 <= i < |submitted| && submitted[i] == left[k];
    }
  }

  lemma {:induction false} CreatorIsRetained(left: seq<SubmittedTx>, coin: CoinString)
    ensures CreatorOf(left, coin).Some? ==>
              exists k :: 0 <= k < |left| && coin.parent in left[k].key
                          && CreatorOf(left, coin).value == (left[k].bundle, left[k].expiry)
    ensures CreatorOf(left, coin).None? ==> forall k :: 0 <= k < |left| ==> coin.parent !in left[k].key
    decreases |left|
  {
    if left != [] {
      var last := |left| - 1;
      CreatorIsRetained(left[..last], coin);
      if coin.parent !in left[last].key && CreatorOf(left, coin).Some? {
        var k :| 0 <= k < last && coin.parent in left[..last][k].key
                 && CreatorOf(left, coin).value == (left[..last][k].bundle, left[..last][k].expiry);
        assert left[k] == left[..last][k];
      }
    }
  }

  // ---------------------------------------------------------------------------
  // What is forgotten, and why
  // ---------------------------------------------------------------------------

  /** Why an operation forgets a retained transaction: it can no longer be
      included, it is six blocks past that and would be replayed, one of its coins
      is spent for good, or one of them went to another transaction. */
  predicate Forgets(op: Operation, tx: SubmittedTx) {
    match op
    case Requeue(height) => tx.expiry.Some? && tx.expiry.value <= height
    case Resubmit(coin, height) => coin.parent in tx.key && tx.expiry.Some? && tx.expiry.value + 6 <= height
    case Evict(coin) => coin in tx.key
    case Observe(created, spent) =>
      SpendsAny(tx, spent) && !tx.landed && !CreatesAny(tx, created) && tx.outputs != []
    case _ => false
  }

  /** A retained transaction is forgotten exactly for one of these reasons; one
      that is kept keeps its bundle, and its expiry unless it is drained again. */
  lemma ForgottenIff(parse: Parser, s: Ledger, op: Operation, i: nat)
    requires UniqueKeys(s.submitted) && i < |s.submitted|
    ensures Retained(Apply(parse, s, op).submitted, s.submitted[i].key).None? <==> Forgets(op, s.submitted[i])
    ensures
      var after := Apply(parse, s, op).submitted;
      var at := Retained(after, s.submitted[i].key);
      at.Some? ==>
        && after[at.value].bundle == s.submitted[i].bundle && after[at.value].outputs == s.submitted[i].outputs
        && (!op.Drain? ==> after[at.value].expiry == s.submitted[i].expiry)
        && (after[at.value].landed <==> s.submitted[i].landed || (op.Observe? && CreatesAny(s.submitted[i], op.created)))
  {
    hide Retained, Keep, KeptOnly, SpendsAny, CreatesAny, Landed;
    var tx := s.submitted[i];
    match op {
      case Queue(_, _) => RetainedAt(s.submitted, i);
      case Drain => DrainKeeps(parse, s, i);
      case Requeue(height) => KeptOrNot(s.submitted, t => NotExpired(t, height), i);
      case Resubmit(coin, height) => KeptOrNot(s.submitted, t => !DeadCreator(t, coin, height), i);
      case Evict(coin) => KeptOrNot(s.submitted, (t: SubmittedTx) => coin !in t.key, i);
      case Observe(created, spent) =>
        var landed := Landed(s.submitted, created);
        assert landed[i] == tx.(landed := tx.landed || CreatesAny(tx, created)) by { LandedAt(s.submitted, created, i); }
        assert UniqueKeys(landed) by { LandedUnique(s.submitted, created); }
        assert SpendsAny(landed[i], spent) == SpendsAny(tx, spent) by { SameKeySpends(landed[i], tx, spent); }
        KeptOrNot(landed, (t: SubmittedTx) => !SpendsAny(t, spent) || t.landed || t.outputs == [], i);
    }
  }

  lemma SameKeySpends(a: SubmittedTx, b: SubmittedTx, spent: set<CoinID>)
    requires a.key == b.key
    ensures SpendsAny(a, spent) == SpendsAny(b, spent)
  {
  }

  lemma LandedAt(submitted: seq<SubmittedTx>, created: set<CoinString>, i: nat)
    requires i < |submitted|
    ensures Landed(submitted, created)[i]
            == submitted[i].(landed := submitted[i].landed || CreatesAny(submitted[i], created))
  {
  }

  lemma LandedUnique(submitted: seq<SubmittedTx>, created: set<CoinString>)
    requires UniqueKeys(submitted)
    ensures UniqueKeys(Landed(submitted, created))
  {
  }

  lemma RetainedAt(submitted: seq<SubmittedTx>, i: nat)
    requires UniqueKeys(submitted) && i < |submitted|
    ensures Retained(submitted, submitted[i].key) == Some(i)
  {
  }

  lemma KeptOrNot(submitted: seq<SubmittedTx>, keep: SubmittedTx -> bool, i: nat)
    requires UniqueKeys(submitted) && i < |submitted|
    ensures
      var left := Keep(submitted, keep);
      var at := Retained(left, submitted[i].key);
      && (at.Some? <==> keep(submitted[i])) && (at.Some? ==> left[at.value] == submitted[i])
  {
    hide Keep;
    KeepIsSubset(submitted, keep);
    var left := Keep(submitted, keep);
    RetainedAt(submitted, i);
    if keep(submitted[i]) {
      var j :| 0 <= j < |left| && left[j] == submitted[i];
      RetainedAt(left, j);
    } else {
      forall k | 0 <= k < |left|
        ensures left[k].key != submitted[i].key
      {
        assert left[k] in submitted;
        var j :| 0 <= j < |submitted| && submitted[j] == left[k];
        assert j != i;
      }
    }
  }

  /** Draining forgets nothing, and retains everything handed out. */
  lemma DrainKeeps(parse: Parser, s: Ledger, i: nat)
    requires UniqueKeys(s.submitted) && i < |s.submitted|
    ensures
      var after := Apply(parse, s, Drain).submitted;
      var at := Retained(after, s.submitted[i].key);
      && at.Some? && after[at.value].bundle == s.submitted[i].bundle && after[at.value].outputs == s.submitted[i].outputs
      && after[at.value].landed == s.submitted[i].landed
  {
    RetainedAt(s.submitted, i);
    AllRetained(parse, s.submitted, s.pending, i);
  }

  lemma {:induction false} AllRetained(parse: Parser, submitted: seq<SubmittedTx>, pending: seq<Pending>, i: nat)
    requires i < |submitted| && Retained(submitted, submitted[i].key) == Some(i)
    ensures
      var after := RetainAll(parse, submitted, pending);
      && i < |after| && Retained(after, submitted[i].key) == Some(i)
      && after[i] == submitted[i].(expiry := after[i].expiry)
    decreases |pending|
  {
    hide Retained;
    if pending != [] {
      var last := |pending| - 1;
      AllRetained(parse, submitted, pending[..last], i);
      var before := RetainAll(parse, submitted, pending[..last]);
      RetainKeepsPlace(parse, before, pending[last], i);
    }
  }

  lemma RetainKeepsPlace(parse: Parser, submitted: seq<SubmittedTx>, item: Pending, i: nat)
    requires i < |submitted| && Retained(submitted, submitted[i].key) == Some(i)
    ensures
      var after := Retain(parse, submitted, item);
      && i < |after| && after[i] == submitted[i].(expiry := after[i].expiry)
      && Retained(after, submitted[i].key) == Some(i)
  {
    var after := Retain(parse, submitted, item);
    assert |submitted| <= |after| && forall k :: 0 <= k < |submitted| ==> after[k].key == submitted[k].key;
    FirstOfKey(submitted, i);
    SamePlace(submitted, after, i);
  }

  lemma {:induction false} FirstOfKey(submitted: seq<SubmittedTx>, i: nat)
    requires i < |submitted| && Retained(submitted, submitted[i].key) == Some(i)
    ensures forall k :: 0 <= k < i ==> submitted[k].key != submitted[i].key
  {
    if i > 0 {
      FirstOfKey(submitted[1..], i - 1);
      assert forall k :: 1 <= k < i ==> submitted[k] == submitted[1..][k - 1];
    }
  }

  lemma {:induction false} SamePlace(a: seq<SubmittedTx>, b: seq<SubmittedTx>, i: nat)
    requires i < |a| <= |b| && forall k :: 0 <= k < |a| ==> b[k].key == a[k].key
    requires forall k :: 0 <= k < i ==> a[k].key != a[i].key
    ensures Retained(b, a[i].key) == Some(i)
  {
    if i > 0 {
      assert b[0].key != a[i].key;
      assert forall k :: 0 <= k < |a[1..]| ==> b[1..][k] == b[k + 1] && a[1..][k] == a[k + 1];
      SamePlace(a[1..], b[1..], i - 1);
    }
  }

  /** What is handed out is retained, under the coins it spends. */
  lemma {:induction false} HandedOutIsRetained(parse: Parser, submitted: seq<SubmittedTx>, pending: seq<Pending>, k: nat)
    requires k < |pending| && AllParse(parse, submitted, pending)
    ensures Retained(RetainAll(parse, submitted, pending), KeyOf(pending[k].0)).Some?
    decreases |pending|
  {
    hide KeyOf;
    var last := |pending| - 1;
    var before := RetainAll(parse, submitted, pending[..last]);
    if k < last {
      HandedOutIsRetained(parse, submitted, pending[..last], k);
      var at := Retained(before, KeyOf(pending[k].0)).value;
      assert Retain(parse, before, pending[last])[at].key == before[at].key;
    } else {
      if Retained(submitted, KeyOf(pending[k].0)).Some? {
        OldStaysRetained(parse, submitted, pending[..last], KeyOf(pending[k].0));
      }
      var after := Retain(parse, before, pending[last]);
      if Retained(before, KeyOf(pending[k].0)).Some? {
        assert after[Retained(before, KeyOf(pending[k].0)).value].key == KeyOf(pending[k].0);
      } else {
        assert parse(pending[k].0).Some?;
        assert after[|before|].key == KeyOf(pending[k].0);
      }
    }
  }

  lemma {:induction false} OldStaysRetained(parse: Parser, submitted: seq<SubmittedTx>, pending: seq<Pending>, key: Key)
    requires Retained(submitted, key).Some?
    ensures Retained(RetainAll(parse, submitted, pending), key).Some?
    decreases |pending|
  {
    hide KeyOf;
    if pending != [] {
      var last := |pending| - 1;
      OldStaysRetained(parse, submitted, pending[..last], key);
      var before := RetainAll(parse, submitted, pending[..last]);
      var at := Retained(before, key).value;
      assert Retain(parse, before, pending[last])[at].key == key;
    }
  }
}

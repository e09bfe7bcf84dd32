/** The transaction manager object (src/transaction_manager.rs): maps, sets and
    queues updated in place, proved coin by coin against CoinLifecycle and,
    for what it hands out, against Submissions. */
module TransactionManagers {
  import opened Wrappers
  import opened Chain
  import opened CoinLifecycle
  import S = Submissions

  type CoinRecord = (CoinString, Record)

  const MAX_REPORTED_HEIGHT: nat := 1_000_000_000_000

  datatype ManagerError = HeightTooLarge | UnparsableBundle

  /** The record a report has for a coin. */
  function RecordOf(records: seq<CoinRecord>, coin: CoinString): (r: Option<Record>)
    ensures r.Some? <==> exists i :: 0 <= i < |records| && records[i].0 == coin
  {
    if records == [] then None
    else if records[0].0 == coin then Some(records[0].1)
    else RecordOf(records[1..], coin)
  }

  predicate OneRecordPerCoin(records: seq<CoinRecord>) {
    forall i, j :: 0 <= i < j < |records| ==> records[i].0 != records[j].0
  }

  /** One coin as the records of a report change it, one after the other. */
  function WithRecords(v: View, reorg: bool, records: seq<CoinRecord>, coin: CoinString): View {
    if records == [] then v
    else
      var last := |records| - 1;
      var before := WithRecords(v, reorg, records[..last], coin);
      if records[last].0 == coin then WithRecord(before, reorg, Some(records[last].1)) else before
  }

  predicate LiveIn(records: seq<CoinRecord>, coin: CoinString) {
    records != []
    && var last := |records| - 1;
    LiveIn(records[..last], coin) || (records[last].0 == coin && records[last].1.Live())
  }

  /** Some record is the first to learn that the coin is spent. */
  predicate FirstSeenIn(v: View, reorg: bool, records: seq<CoinRecord>, coin: CoinString) {
    records != []
    && var last := |records| - 1;
    || FirstSeenIn(v, reorg, records[..last], coin)
    || (records[last].0 == coin && FirstSeenSpent(WithRecords(v, reorg, records[..last], coin), records[last].1))
  }

  predicate HeightOk(h: Option<nat>) { h.None? || h.value <= MAX_REPORTED_HEIGHT }

  predicate RecordsInRange(records: seq<CoinRecord>) {
    forall i :: 0 <= i < |records| ==> HeightOk(records[i].1.created) && HeightOk(records[i].1.spent)
  }

  ghost predicate NoDuplicates(s: seq<CoinString>) {
    forall i, j :: 0 <= i < j < |s| ==> s[i] != s[j]
  }

  function ResubmitAll(submitted: seq<S.SubmittedTx>, coins: seq<CoinString>, height: nat): seq<S.SubmittedTx> {
    if coins == [] then submitted
    else S.WithoutDeadCreators(ResubmitAll(submitted, coins[..|coins| - 1], height), coins[|coins| - 1], height)
  }

  function Resubmissions(submitted: seq<S.SubmittedTx>, coins: seq<CoinString>, height: nat): seq<S.Pending> {
    if coins == [] then []
    else
      var creator := S.CreatorOf(ResubmitAll(submitted, coins, height), coins[|coins| - 1]);
      Resubmissions(submitted, coins[..|coins| - 1], height) + if creator.Some? then [creator.value] else []
  }

  function EvictAll(submitted: seq<S.SubmittedTx>, coins: seq<CoinString>): seq<S.SubmittedTx> {
    if coins == [] then submitted
    else S.WithoutSpendersOf(EvictAll(submitted, coins[..|coins| - 1]), IdOf(coins[|coins| - 1]))
  }

  /** What a snapshot leads to: the two sets of observations, the coins whose
      claims were queued, those freshly vanished and those evicted. */
  datatype SnapshotResult = SnapshotResult(
    created: set<CoinString>,
    spent: set<CoinString>,
    queued: seq<CoinString>,
    vanished: seq<CoinString>,
    evicted: seq<CoinString>)

  class TransactionManager {
    var watched: map<CoinString, Watched>
    var presentCoins: set<CoinString>
    var vanishedCoins: set<CoinString>
    var submitted: seq<S.SubmittedTx>
    var pending: seq<S.Pending>
    var unwatched: seq<CoinString>
    var lastHeight: nat
    var lastSnapshotHeight: nat
    var rollbackHeight: Option<nat>

    constructor ()
      ensures forall c :: ViewOf(c) == View(None, false, false)
      ensures Now() == Clock(0, 0, None) && submitted == [] && pending == []
    {
      watched := map[];
      presentCoins, vanishedCoins := {}, {};
      submitted, pending, unwatched := [], [], [];
      lastHeight, lastSnapshotHeight := 0, 0;
      rollbackHeight := None;
    }

    ghost function ViewOf(c: CoinString): View
      reads this
    {
      View(if c in watched then Some(watched[c]) else None, c in presentCoins, c in vanishedCoins)
    }

    ghost function Now(): Clock
      reads this
    {
      Clock(lastHeight, lastSnapshotHeight, rollbackHeight)
    }

    method RegisterWatch(coin: CoinString, timeout: nat, spend: Option<S.SpendBundle>, semantic: Option<nat>)
      modifies this`watched
      ensures ViewOf(coin) == Registered(old(ViewOf(coin)), timeout, spend, semantic)
      ensures forall c :: c != coin ==> ViewOf(c) == old(ViewOf(c))
    {
      if coin in watched {
        var w := watched[coin].(timeout := timeout);
        if spend.Some? {
          w := w.(spend := spend, semantic := semantic);
        }
        watched := watched[coin := w];
      } else {
        watched := watched[coin := Watched(timeout, None, None, false, spend, semantic)];
      }
    }

    // --- Submissions -------------------------------------------------------------------

    /** Parses every new bundle before it consumes the queue, so a bundle that
        does not parse leaves everything as it was. */
    method DrainSubmissions(parse: S.Parser) returns (r: Result<seq<S.SpendBundle>, ManagerError>)
      modifies this`submitted, this`pending
      ensures r.Ok? <==> S.AllParse(parse, old(submitted), old(pending))
      ensures r.Err? ==> submitted == old(submitted) && pending == old(pending)
      ensures r.Ok? ==>
                && submitted == S.RetainAll(parse, old(submitted), old(pending)) && pending == []
                && |r.value| == |old(pending)| && forall i :: 0 <= i < |r.value| ==> r.value[i] == old(pending)[i].0
    {
      var i := 0;
      while i < |pending|
        invariant 0 <= i <= |pending| && pending == old(pending) && submitted == old(submitted)
        invariant forall k :: 0 <= k < i ==>
                    S.Retained(submitted, S.KeyOf(pending[k].0)).Some? || parse(pending[k].0).Some?
      {
        var bundle := pending[i].0;
        if S.Retained(submitted, S.KeyOf(bundle)).None? && parse(bundle).None? {
          return Err(UnparsableBundle);
        }
        i := i + 1;
      }
      var taken := pending;
      pending := [];
      RetainDrained(parse, taken);
      return Ok(seq(|taken|, k requires 0 <= k < |taken| => taken[k].0));
    }

    /** Tightens what is retained already and keeps the rest. */
    method RetainDrained(parse: S.Parser, taken: seq<S.Pending>)
      modifies this`submitted
      ensures submitted == S.RetainAll(parse, old(submitted), taken)
    {
      hide S.KeyOf, S.MinExpiry;
      var i := 0;
      while i < |taken|
        invariant 0 <= i <= |taken|
        invariant submitted == S.RetainAll(parse, old(submitted), taken[..i])
      {
        assert taken[..i + 1][..i] == taken[..i];
        var (bundle, expiry) := taken[i];
        var key := S.KeyOf(bundle);
        var at := S.Retained(submitted, key);
        if at.Some? {
          var known := submitted[at.value];
          submitted := submitted[at.value := known.(expiry := S.MinExpiry(known.expiry, expiry))];
        } else {
          var outputs := parse(bundle);
          if outputs.Some? {
            submitted := submitted + [S.SubmittedTx(bundle, key, outputs.value, false, expiry)];
          }
        }
        i := i + 1;
      }
      assert taken[..i] == taken;
    }

    method RequeueSubmitted()
      modifies this`submitted, this`pending
      ensures submitted == S.Requeued(old(submitted), lastHeight)
      ensures pending == old(pending) + S.AsPending(submitted)
    {
      submitted := S.Requeued(submitted, lastHeight);
      var i := 0;
      while i < |submitted|
        invariant 0 <= i <= |submitted| && submitted == S.Requeued(old(submitted), lastHeight)
        invariant pending == old(pending) + S.AsPending(submitted)[..i]
      {
        pending := pending + [(submitted[i].bundle, submitted[i].expiry)];
        i := i + 1;
      }
    }

    // --- Rollbacks and timeout claims -----------------------------------------------------

    method InvalidateTimeoutClaims(height: nat, rollback: bool)
      modifies this`watched, this`rollbackHeight
      ensures rollbackHeight == EpochAfter(old(Now()), height, rollback)
      ensures watched.Keys == old(watched.Keys)
      ensures forall c :: c in watched ==>
                watched[c] == if StartsEpoch(old(Now()), height, rollback) then Invalidated(old(watched)[c], height)
                              else old(watched)[c]
    {
      if !rollback {
        if rollbackHeight.Some? && height > rollbackHeight.value {
          rollbackHeight := None;
        }
        return;
      }
      if rollbackHeight == Some(height) {
        return;
      }
      rollbackHeight := Some(height);
      var todo := watched.Keys;
      while todo != {}
        invariant todo <= watched.Keys == old(watched.Keys) && rollbackHeight == Some(height)
        invariant forall c :: c in watched ==>
                    watched[c] == if c in todo then old(watched)[c] else Invalidated(old(watched)[c], height)
        decreases |todo|
      {
        var c :| c in todo;
        var w := watched[c];
        if w.spentAt.Some? && w.spentAt.value > height {
          w := w.(spentAt := None);
        }
        if w.claimed {
          w := w.(claimed := false);
        }
        watched := watched[c := w];
        todo := todo - {c};
      }
    }

    /** Queues every claim that is due, in some order. */
    method EvaluateMatureTimeoutClaims(height: nat) returns (queued: seq<CoinString>)
      modifies this`watched, this`pending
      ensures forall c :: ViewOf(c) == Claimed(old(ViewOf(c)), height)
      ensures NoDuplicates(queued) && forall c :: c in queued <==> Queues(old(ViewOf(c)), height)
      ensures |pending| == |old(pending)| + |queued| && pending[..|old(pending)|] == old(pending)
      ensures forall i :: 0 <= i < |queued| ==>
                queued[i] in old(watched) && old(watched)[queued[i]].spend.Some?
                && pending[|old(pending)| + i] == (old(watched)[queued[i]].spend.value, None)
    {
      queued := [];
      var bundles: seq<S.Pending> := [];
      var todo := watched.Keys;
      while todo != {}
        invariant todo <= watched.Keys == old(watched.Keys) && pending == old(pending)
        invariant forall c :: c in watched ==>
                    watched[c] == if c !in todo && Ripe(old(watched)[c], height) then old(watched)[c].(claimed := true)
                                  else old(watched)[c]
        invariant forall c :: c in queued <==> c in watched && c !in todo && Ripe(old(watched)[c], height)
        invariant NoDuplicates(queued) && |bundles| == |queued|
        invariant forall i :: 0 <= i < |queued| ==>
                    queued[i] in old(watched) && old(watched)[queued[i]].spend.Some?
                    && bundles[i] == (old(watched)[queued[i]].spend.value, None)
        decreases |todo|
      {
        var c :| c in todo;
        var w := watched[c];
        if Ripe(w, height) {
          queued := queued + [c];
          bundles := bundles + [(w.spend.value, None)];
          watched := watched[c := w.(claimed := true)];
        }
        todo := todo - {c};
      }
      pending := pending + bundles;
    }

    /** A bare height: no coin is created or spent by it. */
    method ReportHeight(height: nat) returns (r: Result<seq<CoinString>, ManagerError>)
      modifies this`watched, this`pending, this`lastHeight, this`rollbackHeight
      ensures r.Ok? <==> height <= MAX_REPORTED_HEIGHT
      ensures r.Err? ==> Now() == old(Now()) && watched == old(watched) && pending == old(pending)
      ensures r.Ok? ==> forall c, stream, n: nat, m: nat ::
                var before := Track(old(Now()), old(ViewOf(c)), stream, n, m);
                && Now() == AfterHeight(before, height).clock
                && ViewOf(c) == AfterHeight(before, height).view
                && AfterHeight(before, height).queued == n + (if c in r.value then 1 else 0)
    {
      if height > MAX_REPORTED_HEIGHT {
        return Err(HeightTooLarge);
      }
      var rollback := height < lastHeight;
      ghost var clock := Now();
      lastHeight := height;
      assert StartsEpoch(Now(), height, rollback) == StartsEpoch(clock, height, rollback);
      assert EpochAfter(Now(), height, rollback) == EpochAfter(clock, height, rollback);
      InvalidateTimeoutClaims(height, rollback);
      var queued := EvaluateMatureTimeoutClaims(height);
      return Ok(queued);
    }

    // --- Snapshots -----------------------------------------------------------------------

    /** Coins created above the new tip lose their birthday and vanish. */
    method RollBackBirthdays(height: nat) returns (newly: seq<CoinString>)
      modifies this`watched, this`vanishedCoins
      ensures forall c :: ViewOf(c) == RolledBack(old(ViewOf(c)), height)
      ensures NoDuplicates(newly) && forall c :: c in newly <==> ViewOf(c).vanished && !old(ViewOf(c)).vanished
    {
      newly := [];
      var todo := watched.Keys;
      while todo != {}
        invariant todo <= watched.Keys == old(watched.Keys)
        invariant forall c :: c in watched ==>
                    watched[c] == if c !in todo && Above(old(watched)[c].birthday, height)
                                  then old(watched)[c].(birthday := None, claimed := false) else old(watched)[c]
        invariant forall c :: c in vanishedCoins <==>
                    c in old(vanishedCoins) || (c in watched && c !in todo && Above(old(watched)[c].birthday, height))
        invariant NoDuplicates(newly)
        invariant forall c :: c in newly <==> c in vanishedCoins && c !in old(vanishedCoins)
        decreases |todo|
      {
        var c :| c in todo;
        var w := watched[c];
        if w.birthday.Some? && w.birthday.value > height {
          watched := watched[c := w.(birthday := None, claimed := false)];
          if c !in vanishedCoins {
            vanishedCoins := vanishedCoins + {c};
            newly := newly + [c];
          }
        }
        todo := todo - {c};
      }
    }

    /** One record: a birth may have moved, and a spend may be news. */
    method ReconcileRecord(reorg: bool, coin: CoinString, rec: Record) returns (first: bool)
      modifies this`watched, this`vanishedCoins
      ensures first == FirstSeenSpent(old(ViewOf(coin)), rec)
      ensures ViewOf(coin) == WithRecord(old(ViewOf(coin)), reorg, Some(rec))
      ensures forall c :: c != coin ==> ViewOf(c) == old(ViewOf(c))
    {
      first := false;
      if reorg && rec.created.Some? {
        vanishedCoins := vanishedCoins - {coin};
      }
      if coin in watched {
        var w := watched[coin];
        if rec.created.Some? && w.birthday != rec.created {
          w := w.(birthday := rec.created, claimed := false);
        }
        if rec.spent.Some? {
          first := w.spentAt.None? && coin !in presentCoins;
          w := w.(spentAt := rec.spent);
        }
        watched := watched[coin := w];
      }
    }

    /** Goes through the records in order; the live set and the coins first seen
        already spent are handed back. */
    method ReconcileRecords(reorg: bool, records: seq<CoinRecord>)
      returns (live: set<CoinString>, firstSeen: set<CoinString>)
      modifies this`watched, this`vanishedCoins
      ensures forall c :: ViewOf(c) == WithRecords(old(ViewOf(c)), reorg, records, c)
      ensures forall c :: c in live <==> LiveIn(records, c)
      ensures forall c :: c in firstSeen <==> FirstSeenIn(old(ViewOf(c)), reorg, records, c)
    {
      live, firstSeen := {}, {};
      var i := 0;
      while i < |records|
        invariant 0 <= i <= |records| && presentCoins == old(presentCoins)
        invariant forall c :: ViewOf(c) == WithRecords(old(ViewOf(c)), reorg, records[..i], c)
        invariant forall c :: c in live <==> LiveIn(records[..i], c)
        invariant forall c :: c in firstSeen <==> FirstSeenIn(old(ViewOf(c)), reorg, records[..i], c)
      {
        hide WithRecord, FirstSeenSpent;
        var (coin, rec) := records[i];
        assert records[..i + 1][..i] == records[..i];
        if rec.Live() {
          live := live + {coin};
        }
        var first := ReconcileRecord(reorg, coin, rec);
        if first {
          firstSeen := firstSeen + {coin};
        }
        i := i + 1;
      }
      assert records[..i] == records;
    }

    /** A spend without a height is as old as the report. */
    method StampSpends(spent: set<CoinString>, height: nat)
      modifies this`watched
      ensures watched.Keys == old(watched.Keys)
      ensures forall c :: c in watched ==>
                watched[c] == if c in spent && old(watched)[c].spentAt.None?
                              then old(watched)[c].(spentAt := Some(height)) else old(watched)[c]
    {
      var todo := spent;
      while todo != {}
        invariant todo <= spent && watched.Keys == old(watched.Keys)
        invariant forall c :: c in watched ==>
                    watched[c] == if c in spent && c !in todo && old(watched)[c].spentAt.None?
                                  then old(watched)[c].(spentAt := Some(height)) else old(watched)[c]
        decreases |todo|
      {
        var c :| c in todo;
        if c in watched && watched[c].spentAt.None? {
          watched := watched[c := watched[c].(spentAt := Some(height))];
        }
        todo := todo - {c};
      }
    }

    /** The symmetric difference with the previous report, as observations. */
    method SettleObservations(live: set<CoinString>, firstSeen: set<CoinString>, height: nat)
      returns (created: set<CoinString>, spent: set<CoinString>)
      modifies this`watched, this`presentCoins, this`vanishedCoins
      ensures forall c :: ViewOf(c) == Settled(old(ViewOf(c)), c in live, c in firstSeen, height).view
      ensures forall c :: c in created <==> Settled(old(ViewOf(c)), c in live, c in firstSeen, height).created
      ensures forall c :: c in spent <==> Settled(old(ViewOf(c)), c in live, c in firstSeen, height).spent
    {
      created := live - presentCoins;
      var deleted := presentCoins - live;
      presentCoins := live;
      spent := deleted - vanishedCoins;
      created := created + firstSeen;
      spent := spent + firstSeen;
      StampSpends(spent, height);
      vanishedCoins := vanishedCoins - created;
    }

    method ResubmitVanished(newly: seq<CoinString>, height: nat)
      modifies this`submitted, this`pending
      ensures submitted == ResubmitAll(old(submitted), newly, height)
      ensures pending == old(pending) + Resubmissions(old(submitted), newly, height)
    {
      hide S.WithoutDeadCreators, S.CreatorOf;
      var i := 0;
      while i < |newly|
        invariant 0 <= i <= |newly|
        invariant submitted == ResubmitAll(old(submitted), newly[..i], height)
        invariant pending == old(pending) + Resubmissions(old(submitted), newly[..i], height)
      {
        assert newly[..i + 1][..i] == newly[..i];
        submitted := S.WithoutDeadCreators(submitted, newly[i], height);
        var creator := S.CreatorOf(submitted, newly[i]);
        if creator.Some? {
          pending := pending + [creator.value];
        }
        i := i + 1;
      }
      assert newly[..i] == newly;
    }

    /** Stops watching the coins whose spend is buried. */
    method TakeBuried(height: nat) returns (evicted: seq<CoinString>)
      modifies this`watched
      ensures forall c :: c in watched <==> c in old(watched) && !Buried(old(ViewOf(c)), height)
      ensures forall c :: c in watched ==> watched[c] == old(watched)[c]
      ensures NoDuplicates(evicted) && forall c :: c in evicted <==> Buried(old(ViewOf(c)), height)
    {
      evicted := [];
      var todo := watched.Keys;
      while todo != {}
        invariant todo <= watched.Keys <= old(watched.Keys)
        invariant forall c :: c in old(watched) ==> (c in watched <==> c in todo || !Buried(old(ViewOf(c)), height))
        invariant forall c :: c in watched ==> watched[c] == old(watched)[c]
        invariant NoDuplicates(evicted)
        invariant forall c :: c in evicted <==> c in old(watched) && c !in watched
        decreases |todo|
      {
        var c :| c in todo;
        var w := watched[c];
        todo := todo - {c};
        if w.spentAt.Some? && w.spentAt.value + CONFIRMATION_DEPTH <= height {
          evicted := evicted + [c];
          watched := watched - {c};
        }
      }
    }

    method EvictConfirmedSpends(height: nat) returns (evicted: seq<CoinString>)
      modifies this`watched, this`presentCoins, this`vanishedCoins, this`submitted, this`unwatched
      ensures forall c :: ViewOf(c) == Evicted(old(ViewOf(c)), height)
      ensures NoDuplicates(evicted) && forall c :: c in evicted <==> Buried(old(ViewOf(c)), height)
      ensures submitted == EvictAll(old(submitted), evicted) && unwatched == old(unwatched) + evicted
    {
      evicted := TakeBuried(height);
      Forget(evicted);
    }

    method Forget(evicted: seq<CoinString>)
      modifies this`presentCoins, this`vanishedCoins, this`submitted, this`unwatched
      ensures forall c :: c in presentCoins <==> c in old(presentCoins) && c !in evicted
      ensures forall c :: c in vanishedCoins <==> c in old(vanishedCoins) && c !in evicted
      ensures submitted == EvictAll(old(submitted), evicted) && unwatched == old(unwatched) + evicted
    {
      hide S.WithoutSpendersOf;
      var i := 0;
      while i < |evicted|
        invariant 0 <= i <= |evicted|
        invariant forall c :: c in presentCoins <==> c in old(presentCoins) && c !in evicted[..i]
        invariant forall c :: c in vanishedCoins <==> c in old(vanishedCoins) && c !in evicted[..i]
        invariant submitted == EvictAll(old(submitted), evicted[..i]) && unwatched == old(unwatched) + evicted[..i]
      {
        assert evicted[..i + 1] == evicted[..i] + [evicted[i]];
        var c := evicted[i];
        presentCoins := presentCoins - {c};
        vanishedCoins := vanishedCoins - {c};
        submitted := S.WithoutSpendersOf(submitted, IdOf(c));
        unwatched := unwatched + [c];
        i := i + 1;
      }
      assert evicted[..i] == evicted;
    }

    /** Marks what has landed and drops local intents that lost. */
    method ReconcileSubmitted(created: set<CoinString>, spent: set<CoinID>)
      modifies this`submitted
      ensures submitted == S.Observed(old(submitted), created, spent)
    {
      hide S.CreatesAny, S.SpendsAny;
      var i := 0;
      while i < |submitted|
        invariant 0 <= i <= |submitted| == |old(submitted)|
        invariant forall k :: 0 <= k < i ==> submitted[k] == S.Landed(old(submitted), created)[k]
        invariant forall k :: i <= k < |submitted| ==> submitted[k] == old(submitted)[k]
      {
        if !submitted[i].landed && S.CreatesAny(submitted[i], created) {
          submitted := submitted[i := submitted[i].(landed := true)];
        }
        i := i + 1;
      }
      assert submitted == S.Landed(old(submitted), created);
      if spent != {} {
        submitted := S.Keep(submitted, (tx: S.SubmittedTx) => !S.SpendsAny(tx, spent) || tx.landed || tx.outputs == []);
      } else {
        SpendsNothing(submitted);
        KeepAll(submitted, (tx: S.SubmittedTx) => !S.SpendsAny(tx, spent) || tx.landed || tx.outputs == []);
      }
    }

    /** The rollback part of a snapshot. */
    method EnterHeight(height: nat, reorg: bool) returns (newly: seq<CoinString>)
      modifies this`watched, this`vanishedCoins, this`rollbackHeight
      ensures rollbackHeight == EpochAfter(old(Now()), height, reorg)
      ensures forall c :: ViewOf(c)
                          == InRollback(InEpoch(old(ViewOf(c)), StartsEpoch(old(Now()), height, reorg), height), reorg, height)
      ensures NoDuplicates(newly) && forall c :: c in newly <==> ViewOf(c).vanished && !old(ViewOf(c)).vanished
    {
      hide EpochAfter;
      InvalidateTimeoutClaims(height, reorg);
      newly := [];
      if reorg {
        newly := RollBackBirthdays(height);
      }
    }

    /** Everything up to the observations. */
    method Reconcile(height: nat, reorg: bool, records: seq<CoinRecord>)
      returns (newly: seq<CoinString>, created: set<CoinString>, spent: set<CoinString>)
      requires OneRecordPerCoin(records)
      modifies this`watched, this`presentCoins, this`vanishedCoins, this`rollbackHeight, this`submitted
      ensures NoDuplicates(newly) && forall c :: c in newly <==> Vanishes(old(ViewOf(c)), reorg, height)
      ensures rollbackHeight == EpochAfter(old(Now()), height, reorg)
      ensures forall c ::
                var o := Reconciled(
                           old(ViewOf(c)), StartsEpoch(old(Now()), height, reorg), reorg, height, RecordOf(records, c));
                ViewOf(c) == o.view && (c in created <==> o.created) && (c in spent <==> o.spent)
      ensures submitted == S.Observed(old(submitted), CreatedIn(records), SpentIn(records))
    {
      hide Settled, InRollback, InEpoch, WithRecord, FirstSeenSpent, RecordOf, EpochAfter, S.Observed, StartsEpoch,
           WithRecords, LiveIn, FirstSeenIn;
      newly := EnterHeight(height, reorg);
      assert forall c :: c in newly <==> Vanishes(old(ViewOf(c)), reorg, height) by {
        forall c
          ensures c in newly <==> Vanishes(old(ViewOf(c)), reorg, height)
        {
          VanishesInRollback(old(ViewOf(c)), StartsEpoch(old(Now()), height, reorg), reorg, height);
        }
      }
      label entered:
      var live, firstSeen := ReconcileRecords(reorg, records);
      forall c: CoinString {
        OneRecordCounts(old@entered(ViewOf(c)), reorg, records, c);
      }
      ReconcileSubmitted(CreatedIn(records), SpentIn(records));
      created, spent := SettleObservations(live, firstSeen, height);
    }

    /** What follows the observations: replays, claims that are due, evictions. */
    method FinishReport(height: nat, newly: seq<CoinString>) returns (queued: seq<CoinString>, evicted: seq<CoinString>)
      modifies this`watched, this`presentCoins, this`vanishedCoins, this`submitted, this`pending, this`unwatched
      ensures NoDuplicates(queued) && NoDuplicates(evicted)
      ensures forall c ::
                && ViewOf(c) == Evicted(Claimed(old(ViewOf(c)), height), height)
                && (c in queued <==> Queues(old(ViewOf(c)), height))
                && (c in evicted <==> Buried(Claimed(old(ViewOf(c)), height), height))
      ensures submitted == EvictAll(ResubmitAll(old(submitted), newly, height), evicted)
      ensures
        var replayed := old(pending) + Resubmissions(old(submitted), newly, height);
        && |pending| == |replayed| + |queued| && pending[..|replayed|] == replayed
        && forall i :: 0 <= i < |queued| ==>
             && HasSpend(old(ViewOf(queued[i])))
             && pending[|replayed| + i] == (old(ViewOf(queued[i])).watched.value.spend.value, None)
    {
      hide Claimed, Evicted, Buried, Queues, Resubmissions, ResubmitAll, EvictAll;
      ResubmitVanished(newly, height);
      assert forall c :: ViewOf(c) == old(ViewOf(c));
      queued := EvaluateMatureTimeoutClaims(height);
      evicted := EvictConfirmedSpends(height);
    }

    /** A full snapshot. */
    method ReportCoinStates(height: nat, records: seq<CoinRecord>) returns (r: Result<SnapshotResult, ManagerError>)
      requires OneRecordPerCoin(records)
      modifies this
      ensures r.Ok? <==> height <= MAX_REPORTED_HEIGHT && RecordsInRange(records)
      ensures r.Err? ==>
                && Now() == old(Now()) && (forall c :: ViewOf(c) == old(ViewOf(c)))
                && submitted == old(submitted) && pending == old(pending) && unwatched == old(unwatched)
      ensures r.Ok? ==> Now() == Clock(height, height, EpochAfter(old(Now()), height, height < old(lastSnapshotHeight)))
      ensures r.Ok? ==> forall c ::
                CoinReported(old(Now()), old(ViewOf(c)), height, RecordOf(records, c), ViewOf(c),
                             c in r.value.created, c in r.value.spent, c in r.value.queued, c in r.value.evicted)
      ensures r.Ok? ==> NoDuplicates(r.value.vanished) && NoDuplicates(r.value.queued) && NoDuplicates(r.value.evicted)
      ensures r.Ok? ==> forall c ::
                c in r.value.vanished <==> Vanishes(old(ViewOf(c)), height < old(lastSnapshotHeight), height)
      ensures r.Ok? ==>
                submitted == EvictAll(
                  ResubmitAll(
                    S.Observed(old(submitted), CreatedIn(records), SpentIn(records)), r.value.vanished, height),
                  r.value.evicted)
      ensures r.Ok? ==>
                var replayed := old(pending) + Resubmissions(
                  S.Observed(old(submitted), CreatedIn(records), SpentIn(records)), r.value.vanished, height);
                && |pending| == |replayed| + |r.value.queued| && pending[..|replayed|] == replayed
                && forall i :: 0 <= i < |r.value.queued| ==>
                     && HasSpend(old(ViewOf(r.value.queued[i])))
                     && pending[|replayed| + i] == (old(ViewOf(r.value.queued[i])).watched.value.spend.value, None)
    {
      hide Reconciled, Claimed, Evicted, RecordOf, EpochAfter, S.Observed, StartsEpoch, Buried, Queues, Resubmissions,
           ResubmitAll, EvictAll, Vanishes;
      if height > MAX_REPORTED_HEIGHT || !RecordsInRange(records) {
        return Err(HeightTooLarge);
      }
      ghost var clock := Now();
      var reorg := height < lastSnapshotHeight;
      lastHeight := height;
      lastSnapshotHeight := height;
      SameEpoch(clock, Now(), height, reorg);
      var newly, created, spent := Reconcile(height, reorg, records);
      ghost var epoch := StartsEpoch(clock, height, reorg);
      forall c
        ensures HasSpend(ViewOf(c)) ==>
                  HasSpend(old(ViewOf(c))) && ViewOf(c).watched.value.spend == old(ViewOf(c)).watched.value.spend
      {
        SpendIsKept(old(ViewOf(c)), epoch, reorg, height, RecordOf(records, c));
      }
      var queued, evicted := FinishReport(height, newly);
      return Ok(SnapshotResult(created, spent, queued, newly, evicted));
    }
  }

  /** A report has done to one coin what its lifecycle says, and has observed,
      queued and evicted exactly the coins it says. */
  ghost predicate CoinReported(
    clock: Clock, before: View, height: nat, rec: Option<Record>, after: View,
    created: bool, spent: bool, queued: bool, evicted: bool)
  {
    var reorg := height < clock.lastSnapshotHeight;
    var o := Reconciled(before, StartsEpoch(clock, height, reorg), reorg, height, rec);
    && after == Evicted(Claimed(o.view, height), height)
    && created == o.created && spent == o.spent
    && queued == Queues(o.view, height) && evicted == Buried(Claimed(o.view, height), height)
  }

  // ---------------------------------------------------------------------------
  // A report as operations on the ledger of submissions
  // ---------------------------------------------------------------------------

  lemma {:induction false} LedgerOneMore(parse: S.Parser, s: S.Ledger, ops: seq<S.Operation>, op: S.Operation)
    ensures S.Run(parse, s, ops + [op]) == S.Apply(parse, S.Run(parse, s, ops), op)
    decreases |ops|
  {
    hide S.Apply;
    if ops == [] {
      assert [] + [op] == [op] && [op][1..] == [];
    } else {
      assert (ops + [op])[1..] == ops[1..] + [op];
      LedgerOneMore(parse, S.Apply(parse, s, ops[0]), ops[1..], op);
    }
  }

  lemma {:induction false} LedgerThen(parse: S.Parser, s: S.Ledger, a: seq<S.Operation>, b: seq<S.Operation>)
    ensures S.Run(parse, s, a + b) == S.Run(parse, S.Run(parse, s, a), b)
    decreases |a|
  {
    hide S.Apply;
    if a == [] {
      assert [] + b == b;
    } else {
      assert (a + b)[1..] == a[1..] + b;
      LedgerThen(parse, S.Apply(parse, s, a[0]), a[1..], b);
    }
  }

  function ResubmitOps(coins: seq<CoinString>, height: nat): seq<S.Operation> {
    if coins == [] then [] else ResubmitOps(coins[..|coins| - 1], height) + [S.Resubmit(coins[|coins| - 1], height)]
  }

  function QueueOps(claims: seq<S.Pending>): seq<S.Operation> {
    if claims == [] then []
    else QueueOps(claims[..|claims| - 1]) + [S.Queue(claims[|claims| - 1].0, claims[|claims| - 1].1)]
  }

  function EvictOps(coins: seq<CoinString>): seq<S.Operation> {
    if coins == [] then [] else EvictOps(coins[..|coins| - 1]) + [S.Evict(IdOf(coins[|coins| - 1]))]
  }

  lemma {:induction false} ResubmitsRun(parse: S.Parser, s: S.Ledger, coins: seq<CoinString>, height: nat)
    ensures
      var end := S.Run(parse, s, ResubmitOps(coins, height));
      && end.submitted == ResubmitAll(s.submitted, coins, height)
      && end.pending == s.pending + Resubmissions(s.submitted, coins, height)
    decreases |coins|
  {
    hide S.WithoutDeadCreators, S.CreatorOf, S.KeptOnly;
    if coins != [] {
      var last := |coins| - 1;
      ResubmitsRun(parse, s, coins[..last], height);
      LedgerOneMore(parse, s, ResubmitOps(coins[..last], height), S.Resubmit(coins[last], height));
      hide S.Run;
      var creator := S.CreatorOf(ResubmitAll(s.submitted, coins, height), coins[last]);
      var more := if creator.Some? then [creator.value] else [];
      assert s.pending + Resubmissions(s.submitted, coins[..last], height) + more
          == s.pending + (Resubmissions(s.submitted, coins[..last], height) + more);
    } else {
      assert s.pending + [] == s.pending;
    }
  }

  lemma {:induction false} QueuesRun(parse: S.Parser, s: S.Ledger, claims: seq<S.Pending>)
    ensures
      var end := S.Run(parse, s, QueueOps(claims));
      end.submitted == s.submitted && end.pending == s.pending + claims
    decreases |claims|
  {
    if claims != [] {
      var last := |claims| - 1;
      QueuesRun(parse, s, claims[..last]);
      LedgerOneMore(parse, s, QueueOps(claims[..last]), S.Queue(claims[last].0, claims[last].1));
      hide S.Run;
      assert s.pending + claims[..last] + [claims[last]] == s.pending + claims by {
        assert claims[..last] + [claims[last]] == claims;
      }
    } else {
      assert s.pending + [] == s.pending;
    }
  }

  lemma {:induction false} EvictsRun(parse: S.Parser, s: S.Ledger, coins: seq<CoinString>)
    ensures
      var end := S.Run(parse, s, EvictOps(coins));
      end.submitted == EvictAll(s.submitted, coins) && end.pending == s.pending
    decreases |coins|
  {
    hide S.WithoutSpendersOf, S.KeptOnly;
    if coins != [] {
      var last := |coins| - 1;
      EvictsRun(parse, s, coins[..last]);
      LedgerOneMore(parse, s, EvictOps(coins[..last]), S.Evict(IdOf(coins[last])));
      hide S.Run;
    }
  }

  function ReportOps(
    created: set<CoinString>, spent: set<CoinID>, vanished: seq<CoinString>, height: nat, claims: seq<S.Pending>,
    evicted: seq<CoinString>) : seq<S.Operation>
  {
    [S.Observe(created, spent)] + (ResubmitOps(vanished, height) + (QueueOps(claims) + EvictOps(evicted)))
  }

  /** What a successful report leaves in `submitted` and `pending` is what these
      operations leave there, so what every run of operations keeps, every run
      of reports keeps. */
  lemma ReportRunsLedger(
    parse: S.Parser, s: S.Ledger, created: set<CoinString>, spent: set<CoinID>, vanished: seq<CoinString>, height: nat,
    claims: seq<S.Pending>, evicted: seq<CoinString>)
    ensures
      var end := S.Run(parse, s, ReportOps(created, spent, vanished, height, claims, evicted));
      var observed := S.Observed(s.submitted, created, spent);
      && end.submitted == EvictAll(ResubmitAll(observed, vanished, height), evicted)
      && end.pending == s.pending + Resubmissions(observed, vanished, height) + claims
  {
    hide S.Observed, S.KeptOnly, EvictAll, ResubmitAll, Resubmissions, ResubmitOps, QueueOps, EvictOps;
    var first := [S.Observe(created, spent)];
    var mid := S.Run(parse, s, first);
    LedgerOneMore(parse, s, [], first[0]);
    assert [] + [first[0]] == first;
    LedgerThen(parse, s, first, ResubmitOps(vanished, height) + (QueueOps(claims) + EvictOps(evicted)));
    LedgerThen(parse, mid, ResubmitOps(vanished, height), QueueOps(claims) + EvictOps(evicted));
    var replayed := S.Run(parse, mid, ResubmitOps(vanished, height));
    LedgerThen(parse, replayed, QueueOps(claims), EvictOps(evicted));
    hide S.Run;
    ResubmitsRun(parse, mid, vanished, height);
    QueuesRun(parse, replayed, claims);
    EvictsRun(parse, S.Run(parse, replayed, QueueOps(claims)), evicted);
  }

  predicate HasSpend(v: View) { v.watched.Some? && v.watched.value.spend.Some? }

  /** The report that rolls back a coin's creation. */
  predicate Vanishes(v: View, reorg: bool, height: nat) {
    reorg && !v.vanished && v.watched.Some? && Above(v.watched.value.birthday, height)
  }

  lemma VanishesInRollback(v: View, epoch: bool, reorg: bool, height: nat)
    ensures Vanishes(v, reorg, height) <==> InRollback(InEpoch(v, epoch, height), reorg, height).vanished && !v.vanished
  {
  }

  /** Reports change neither the eager spend nor, by themselves, what is watched. */
  lemma SpendIsKept(v: View, epoch: bool, reorg: bool, height: nat, rec: Option<Record>)
    ensures
      var after := Reconciled(v, epoch, reorg, height, rec).view;
      after.watched.Some? ==> v.watched.Some? && after.watched.value.spend == v.watched.value.spend
  {
  }

  lemma SpendsNothing(submitted: seq<S.SubmittedTx>)
    ensures forall i :: 0 <= i < |submitted| ==> !S.SpendsAny(submitted[i], {})
  {
  }

  lemma SameEpoch(a: Clock, b: Clock, height: nat, rollback: bool)
    requires a.rollbackHeight == b.rollbackHeight
    ensures StartsEpoch(a, height, rollback) == StartsEpoch(b, height, rollback)
    ensures EpochAfter(a, height, rollback) == EpochAfter(b, height, rollback)
  {
  }

  function CreatedIn(records: seq<CoinRecord>): set<CoinString> {
    set i | 0 <= i < |records| && records[i].1.created.Some? :: records[i].0
  }

  function SpentIn(records: seq<CoinRecord>): set<CoinID> {
    set i | 0 <= i < |records| && records[i].1.spent.Some? :: IdOf(records[i].0)
  }

  predicate SpendsRecorded(tx: S.SubmittedTx, records: seq<CoinRecord>) {
    exists k :: 0 <= k < |records| && records[k].1.spent.Some? && IdOf(records[k].0) in tx.key
  }

  predicate CreatesRecorded(tx: S.SubmittedTx, records: seq<CoinRecord>) {
    exists k :: 0 <= k < |records| && records[k].1.created.Some? && records[k].0 in tx.outputs
  }

  /** A report forgets a transaction as beaten exactly when it has never landed, one
      of its coins is recorded spent, and none of its outputs is recorded created. */
  lemma BeatenIff(parse: S.Parser, s: S.Ledger, records: seq<CoinRecord>, i: nat)
    requires S.UniqueKeys(s.submitted) && i < |s.submitted|
    ensures
      var tx := s.submitted[i];
      S.Retained(S.Observed(s.submitted, CreatedIn(records), SpentIn(records)), tx.key).None? <==>
        tx.outputs != [] && !tx.landed && SpendsRecorded(tx, records) && !CreatesRecorded(tx, records)
  {
    var tx := s.submitted[i];
    S.ForgottenIff(parse, s, S.Observe(CreatedIn(records), SpentIn(records)), i);
    hide S.Observed, S.Retained;
    assert S.SpendsAny(tx, SpentIn(records)) <==> SpendsRecorded(tx, records);
    assert S.CreatesAny(tx, CreatedIn(records)) <==> CreatesRecorded(tx, records);
  }

  lemma {:induction false} KeepAll(submitted: seq<S.SubmittedTx>, keep: S.SubmittedTx -> bool)
    requires forall i :: 0 <= i < |submitted| ==> keep(submitted[i])
    ensures S.Keep(submitted, keep) == submitted
  {
    if submitted != [] {
      KeepAll(submitted[1..], keep);
    }
  }

  /** With no two records for a coin, its own is all that counts. */
  lemma {:induction false} OneRecordCounts(v: View, reorg: bool, records: seq<CoinRecord>, coin: CoinString)
    requires OneRecordPerCoin(records)
    ensures
      var rec := RecordOf(records, coin);
      && WithRecords(v, reorg, records, coin) == WithRecord(v, reorg, rec)
      && (LiveIn(records, coin) <==> rec.Some? && rec.value.Live())
      && (FirstSeenIn(v, reorg, records, coin) <==> rec.Some? && FirstSeenSpent(v, rec.value))
    decreases |records|
  {
    hide WithRecord, FirstSeenSpent, RecordOf, Record.Live;
    NoRecordNoChange(v, reorg);
    if records == [] {
      assert RecordOf(records, coin).None? by { NoRecords(coin); }
    } else {
      var last := |records| - 1;
      OneRecordCounts(v, reorg, records[..last], coin);
      PrefixRecords(records, last);
      assert records[..last + 1] == records;
    }
  }

  lemma NoRecords(coin: CoinString)
    ensures RecordOf([], coin).None?
  {
  }

  lemma NoRecordNoChange(v: View, reorg: bool)
    ensures WithRecord(v, reorg, None) == v
  {
  }

  lemma PrefixRecords(records: seq<CoinRecord>, i: nat)
    requires OneRecordPerCoin(records) && i < |records|
    ensures RecordOf(records[..i], records[i].0).None?
    ensures forall c :: RecordOf(records[..i + 1], c)
                        == if c == records[i].0 then Some(records[i].1) else RecordOf(records[..i], c)
  {
    forall c
      ensures RecordOf(records[..i + 1], c)
              == if c == records[i].0 then Some(records[i].1) else RecordOf(records[..i], c)
    {
      PrefixRecord(records, i, c);
    }
    assert forall k :: 0 <= k < i ==> records[..i][k].0 == records[k].0 != records[i].0;
  }

  lemma {:induction false} PrefixRecord(records: seq<CoinRecord>, i: nat, c: CoinString)
    requires OneRecordPerCoin(records) && i < |records|
    ensures RecordOf(records[..i + 1], c)
            == if c == records[i].0 then Some(records[i].1) else RecordOf(records[..i], c)
    decreases i
  {
    if i > 0 {
      assert records[0].0 != records[i].0;
      assert OneRecordPerCoin(records[1..]) by {
        forall a, b | 0 <= a < b < |records[1..]|
          ensures records[1..][a].0 != records[1..][b].0
        {
          assert records[a + 1].0 != records[b + 1].0;
        }
      }
      assert records[..i + 1][1..] == records[1..][..i] && records[..i][1..] == records[1..][..i - 1];
      PrefixRecord(records[1..], i - 1, c);
    }
  }
}

/** One coin in the transaction manager (src/transaction_manager.rs): how a report
    changes what is known about it, what is observed, and when its timeout claim
    is queued.  A report treats every coin on its own. */
module CoinLifecycle {
  import opened Wrappers
  import S = Submissions

  /** What one report says about a coin: heights of creation and spend. */
  datatype Record = Record(created: Option<nat>, spent: Option<nat>)
  {
    predicate Live() { created.Some? && spent.None? }
  }

  datatype Watched = Watched(
    timeout: nat,
    birthday: Option<nat>,
    spentAt: Option<nat>,
    claimed: bool,
    spend: Option<S.SpendBundle>,
    semantic: Option<nat>)

  datatype View = View(watched: Option<Watched>, present: bool, vanished: bool)

  datatype Clock = Clock(lastHeight: nat, lastSnapshotHeight: nat, rollbackHeight: Option<nat>)

  datatype Observation = Created | Spent

  const CONFIRMATION_DEPTH: nat := 32

  function Above(h: Option<nat>, height: nat): bool { h.Some? && h.value > height }

  // ---------------------------------------------------------------------------
  // The pieces of a report
  // ---------------------------------------------------------------------------

  /** A rollback epoch is acted on once for its height. */
  predicate StartsEpoch(clock: Clock, height: nat, rollback: bool) {
    rollback && clock.rollbackHeight != Some(height)
  }

  function EpochAfter(clock: Clock, height: nat, rollback: bool): Option<nat> {
    if rollback then Some(height)
    else if clock.rollbackHeight.Some? && height > clock.rollbackHeight.value then None
    else clock.rollbackHeight
  }

  /** A new epoch drops spends above the tip and re-arms the claim. */
  function Invalidated(w: Watched, height: nat): Watched {
    w.(spentAt := if Above(w.spentAt, height) then None else w.spentAt, claimed := false)
  }

  /** A coin created above the new tip is gone until it appears again. */
  function RolledBack(v: View, height: nat): View {
    if v.watched.Some? && Above(v.watched.value.birthday, height) then
      v.(watched := Some(v.watched.value.(birthday := None, claimed := false)), vanished := true)
    else v
  }

  /** A creation height that differs from the one known re-arms the claim. */
  function Recorded(w: Watched, rec: Record): Watched {
    var born :=
      if rec.created.Some? && w.birthday != rec.created then w.(birthday := rec.created, claimed := false) else w;
    if rec.spent.Some? then born.(spentAt := rec.spent) else born
  }

  /** A watched coin whose spend is learned without it ever having been seen live. */
  predicate FirstSeenSpent(v: View, rec: Record) {
    v.watched.Some? && rec.spent.Some? && v.watched.value.spentAt.None? && !v.present
  }

  function InEpoch(v: View, epoch: bool, height: nat): View {
    if epoch && v.watched.Some? then v.(watched := Some(Invalidated(v.watched.value, height))) else v
  }

  function InRollback(v: View, reorg: bool, height: nat): View {
    if reorg then RolledBack(v, height) else v
  }

  /** What the record says of a coin; one with a creation is back after a rollback. */
  function WithRecord(v: View, reorg: bool, rec: Option<Record>): View {
    var back := if reorg && rec.Some? && rec.value.created.Some? then v.(vanished := false) else v;
    if rec.Some? && back.watched.Some? then back.(watched := Some(Recorded(back.watched.value, rec.value))) else back
  }

  datatype Outcome = Outcome(view: View, created: bool, spent: bool)

  /** Creations and spends against the previous report; a vanished coin did not
      leave by being spent, and a spend without a height is as old as the report. */
  function Settled(v: View, live: bool, firstSeen: bool, height: nat): Outcome {
    var created := (live && !v.present) || firstSeen;
    var spent := (v.present && !live && !v.vanished) || firstSeen;
    var closed :=
      if spent && v.watched.Some? && v.watched.value.spentAt.None? then
        v.(watched := Some(v.watched.value.(spentAt := Some(height))))
      else v;
    Outcome(closed.(present := live, vanished := v.vanished && !created), created, spent)
  }

  /** Reconciles one coin with a report, up to the timeout claims. */
  function Reconciled(v: View, epoch: bool, reorg: bool, height: nat, rec: Option<Record>): Outcome {
    var rolled := InRollback(InEpoch(v, epoch, height), reorg, height);
    Settled(
      WithRecord(rolled, reorg, rec), rec.Some? && rec.value.Live(),
      rec.Some? && FirstSeenSpent(rolled, rec.value), height)
  }

  /** The eager timeout spend is due: mature, not yet queued, not spent. */
  predicate Ripe(w: Watched, height: nat) {
    && w.birthday.Some? && w.birthday.value + w.timeout <= height
    && !w.claimed && w.spentAt.None? && w.spend.Some?
  }

  predicate Queues(v: View, height: nat) { v.watched.Some? && Ripe(v.watched.value, height) }

  function Claimed(v: View, height: nat): View {
    if Queues(v, height) then v.(watched := Some(v.watched.value.(claimed := true))) else v
  }

  predicate Buried(v: View, height: nat) {
    && v.watched.Some? && v.watched.value.spentAt.Some?
    && v.watched.value.spentAt.value + CONFIRMATION_DEPTH <= height
  }

  function Evicted(v: View, height: nat): View {
    if Buried(v, height) then View(None, false, false) else v
  }

  function Registered(v: View, timeout: nat, spend: Option<S.SpendBundle>, semantic: Option<nat>): View {
    match v.watched
    case Some(w) =>
      var timed := w.(timeout := timeout);
      v.(watched := Some(if spend.Some? then timed.(spend := spend, semantic := semantic) else timed))
    case None => v.(watched := Some(Watched(timeout, None, None, false, spend, semantic)))
  }

  // ---------------------------------------------------------------------------
  // Runs
  // ---------------------------------------------------------------------------

  /** One coin's part of what happens to the manager. */
  datatype Event =
    | Report(height: nat, rec: Option<Record>)
    | HeightOnly(height: nat)
    | Watch(timeout: nat, spend: Option<S.SpendBundle>, semantic: Option<nat>)

  /** `stream` is what has been observed of the coin; `queued` and `rearmed`
      count since it was last watched anew. */
  datatype Track = Track(clock: Clock, view: View, stream: seq<Observation>, queued: nat, rearmed: nat)

  function Rearms(before: View, after: View): nat {
    if before.watched.Some? && before.watched.value.claimed && after.watched.Some? && !after.watched.value.claimed
    then 1 else 0
  }

  function Observations(o: Outcome): seq<Observation> {
    (if o.created then [Created] else []) + (if o.spent then [Spent] else [])
  }

  predicate Rewinds(t: Track, height: nat) { height < t.clock.lastSnapshotHeight }

  /** What a report makes of the coin, up to the timeout claims. */
  function OutcomeOf(t: Track, height: nat, rec: Option<Record>): Outcome {
    var reorg := Rewinds(t, height);
    Reconciled(t.view, StartsEpoch(t.clock, height, reorg), reorg, height, rec)
  }

  function AfterReport(t: Track, height: nat, rec: Option<Record>): Track {
    var reorg := Rewinds(t, height);
    var o := OutcomeOf(t, height, rec);
    var claimed := Claimed(o.view, height);
    var end := Evicted(claimed, height);
    var queued := t.queued + (if Queues(o.view, height) then 1 else 0);
    var rearmed := t.rearmed + Rearms(t.view, o.view);
    Track(
      Clock(height, height, EpochAfter(t.clock, height, reorg)), end, t.stream + Observations(o),
      if end.watched.Some? then queued else 0, if end.watched.Some? then rearmed else 0)
  }

  function AtHeight(t: Track, height: nat): View {
    InEpoch(t.view, StartsEpoch(t.clock, height, height < t.clock.lastHeight), height)
  }

  function AfterHeight(t: Track, height: nat): Track {
    var rollback := height < t.clock.lastHeight;
    var invalidated := AtHeight(t, height);
    Track(
      t.clock.(lastHeight := height, rollbackHeight := EpochAfter(t.clock, height, rollback)),
      Claimed(invalidated, height), t.stream,
      t.queued + (if Queues(invalidated, height) then 1 else 0), t.rearmed + Rearms(t.view, invalidated))
  }

  function After(t: Track, e: Event): Track {
    match e
    case Report(height, rec) => AfterReport(t, height, rec)
    case HeightOnly(height) => AfterHeight(t, height)
    case Watch(timeout, spend, semantic) => t.(view := Registered(t.view, timeout, spend, semantic))
  }

  function Run(t: Track, events: seq<Event>): Track
    decreases |events|
  {
    if events == [] then t else Run(After(t, events[0]), events[1..])
  }

  const START: Track := Track(Clock(0, 0, None), View(None, false, false), [], 0, 0)

  // ---------------------------------------------------------------------------
  // Coin observation order
  // ---------------------------------------------------------------------------

  /** A creation that no spend has followed yet. */
  predicate OpenCreation(stream: seq<Observation>) {
    exists j :: 0 <= j < |stream| && stream[j] == Created && Spent !in stream[j..]
  }

  /** Every spend comes after a creation with no other spend in between. */
  ghost predicate Ordered(stream: seq<Observation>) {
    forall i :: 0 <= i < |stream| && stream[i] == Spent ==> OpenCreation(stream[..i])
  }

  ghost predicate LifecycleOk(t: Track) {
    && !(t.view.vanished && t.view.present)
    && (t.view.vanished ==> t.view.watched.Some?)
    && (t.view.present ==> OpenCreation(t.stream))
    && Ordered(t.stream)
    && (t.view.watched.Some? ==> t.queued == t.rearmed + if t.view.watched.value.claimed then 1 else 0)
    && (t.view.watched.None? ==> t.queued == 0 && t.rearmed == 0)
  }

  lemma CreationKeepsOrder(stream: seq<Observation>)
    requires Ordered(stream)
    ensures Ordered(stream + [Created]) && OpenCreation(stream + [Created])
  {
    var next := stream + [Created];
    assert next[|stream|] == Created && next[|stream|..] == [Created];
    forall i | 0 <= i < |next| && next[i] == Spent
      ensures OpenCreation(next[..i])
    {
      assert next[..i] == stream[..i];
    }
  }

  lemma SpendKeepsOrder(stream: seq<Observation>)
    requires Ordered(stream) && OpenCreation(stream)
    ensures Ordered(stream + [Spent])
  {
    var next := stream + [Spent];
    forall i | 0 <= i < |next| && next[i] == Spent
      ensures OpenCreation(next[..i])
    {
      assert next[..i] == stream[..i];
      assert stream[..|stream|] == stream;
    }
  }

  lemma ObservationsKeepOrder(stream: seq<Observation>, o: Outcome)
    requires Ordered(stream) && (o.spent ==> o.created || OpenCreation(stream))
    ensures Ordered(stream + Observations(o))
    ensures o.created && !o.spent ==> OpenCreation(stream + Observations(o))
    ensures !o.created && !o.spent ==> stream + Observations(o) == stream
  {
    if o.created {
      CreationKeepsOrder(stream);
      if o.spent {
        SpendKeepsOrder(stream + [Created]);
        assert stream + Observations(o) == stream + [Created] + [Spent];
      } else {
        assert Observations(o) == [Created];
      }
    } else if o.spent {
      SpendKeepsOrder(stream);
      assert Observations(o) == [Spent];
    } else {
      assert stream + [] == stream;
    }
  }

  lemma ReportKeepsLifecycle(t: Track, height: nat, rec: Option<Record>)
    requires LifecycleOk(t)
    ensures LifecycleOk(AfterReport(t, height, rec))
  {
    var o := OutcomeOf(t, height, rec);
    hide OpenCreation, Ordered;
    ObservationsKeepOrder(t.stream, o);
  }

  lemma {:induction false} RunKeepsLifecycle(t: Track, events: seq<Event>)
    requires LifecycleOk(t)
    ensures LifecycleOk(Run(t, events))
    decreases |events|
  {
    if events != [] {
      match events[0] {
        case Report(height, rec) => ReportKeepsLifecycle(t, height, rec);
        case HeightOnly(_) =>
        case Watch(_, _, _) =>
      }
      RunKeepsLifecycle(After(t, events[0]), events[1..]);
    }
  }

  lemma {:induction false} RunOneMore(t: Track, events: seq<Event>, e: Event)
    ensures Run(t, events + [e]) == After(Run(t, events), e)
    decreases |events|
  {
    hide After;
    if events == [] {
      assert [] + [e] == [e] && [e][1..] == [];
    } else {
      assert (events + [e])[1..] == events[1..] + [e];
      RunOneMore(After(t, events[0]), events[1..], e);
    }
  }

  lemma RunToNext(events: seq<Event>, k: nat)
    requires k < |events|
    ensures Run(START, events[..k + 1]) == After(Run(START, events[..k]), events[k])
  {
    assert events[..k + 1] == events[..k] + [events[k]];
    RunOneMore(START, events[..k], events[k]);
  }

  // ---------------------------------------------------------------------------
  // What is observed, exactly
  // ---------------------------------------------------------------------------

  predicate IsLive(rec: Option<Record>) { rec.Some? && rec.value.Live() }

  /** A spend learned before stands, unless this report starts a rollback epoch
      below it. */
  predicate SpendStands(t: Track, height: nat) {
    && t.view.watched.Some? && t.view.watched.value.spentAt.Some?
    && !(StartsEpoch(t.clock, height, Rewinds(t, height)) && Above(t.view.watched.value.spentAt, height))
  }

  /** The report is the first to tell of a spend of a watched coin that was not
      live at the report before. */
  predicate NewlySpent(t: Track, height: nat, rec: Option<Record>) {
    t.view.watched.Some? && SaysSpent(rec) && !t.view.present && !SpendStands(t, height)
  }

  /** The coin is gone for a rollback, and the report does not bring it back. */
  predicate StaysGone(t: Track, height: nat, rec: Option<Record>) {
    Gone(t, height) && !(Rewinds(t, height) && rec.Some? && rec.value.created.Some?)
  }

  /** Every report of every run, in both directions: a creation is observed of a
      coin that is live now and was not, a spend of one that was live, is not,
      and has not been rolled back; and both of one first seen spent. */
  lemma ObservedIff(events: seq<Event>, k: nat)
    requires k < |events| && events[k].Report?
    ensures
      var t := Run(START, events[..k]);
      var next := Run(START, events[..k + 1]);
      var (height, rec) := (events[k].height, events[k].rec);
      var created := (IsLive(rec) && !t.view.present) || NewlySpent(t, height, rec);
      var spent := (t.view.present && !IsLive(rec) && !StaysGone(t, height, rec)) || NewlySpent(t, height, rec);
      && next.stream == t.stream + (if created then [Created] else []) + (if spent then [Spent] else [])
      && (next.view.present <==> IsLive(rec) && !Buried(Claimed(OutcomeOf(t, height, rec).view, height), height))
  {
    RunToNext(events, k);
    hide Run;
  }

  /** What the record of a report and a rollback leave of a watched coin, before
      claims are looked at. */
  lemma OutcomeTeaches(t: Track, height: nat, rec: Option<Record>)
    requires t.view.watched.Some? && !(t.view.vanished && t.view.present)
    ensures
      var w := t.view.watched.value;
      var epoch := StartsEpoch(t.clock, height, Rewinds(t, height));
      var created := if rec.Some? then rec.value.created else None;
      var undone := Rewinds(t, height) && Above(w.birthday, height);
      var known := if undone then None else w.birthday;
      var standing := if epoch && Above(w.spentAt, height) then None else w.spentAt;
      var missed := t.view.present && !IsLive(rec) && !StaysGone(t, height, rec);
      var spent := if SaysSpent(rec) then rec.value.spent else if standing.None? && missed then Some(height) else standing;
      var rearmed := epoch || undone || (created.Some? && created != known);
      OutcomeOf(t, height, rec).view.watched
      == Some(Watched(
                w.timeout, if created.Some? then created else known, spent, w.claimed && !rearmed, w.spend, w.semantic))
  {
  }

  /** What a report teaches about a watched coin, from one end to the other: the
      creation it tells is believed, a rollback forgets creations, and an epoch
      spends, above the new tip; a claim is queued exactly when it is due and not
      out already, or re-armed; and the coin is forgotten once its spend is 32
      blocks deep. */
  lemma ReportTeaches(t: Track, height: nat, rec: Option<Record>)
    requires t.view.watched.Some? && !(t.view.vanished && t.view.present)
    ensures
      var w := t.view.watched.value;
      var epoch := StartsEpoch(t.clock, height, Rewinds(t, height));
      var next := AfterReport(t, height, rec);
      var created := if rec.Some? then rec.value.created else None;
      var undone := Rewinds(t, height) && Above(w.birthday, height);
      var known := if undone then None else w.birthday;
      var birthday := if created.Some? then created else known;
      var standing := if epoch && Above(w.spentAt, height) then None else w.spentAt;
      var missed := t.view.present && !IsLive(rec) && !StaysGone(t, height, rec);
      var spent := if SaysSpent(rec) then rec.value.spent else if standing.None? && missed then Some(height) else standing;
      var rearmed := epoch || undone || (created.Some? && created != known);
      var due := && birthday.Some? && birthday.value + w.timeout <= height && spent.None? && w.spend.Some?
                 && (rearmed || !w.claimed);
      && (next.view.watched.None? <==> spent.Some? && spent.value + 32 <= height)
      && (next.view.watched.Some? ==>
            next.view.watched.value
            == Watched(w.timeout, birthday, spent, due || (w.claimed && !rearmed), w.spend, w.semantic))
      && (due <==> QueuesClaim(t, Report(height, rec)))
      && next.clock == Clock(
           height, height,
           if height < t.clock.lastSnapshotHeight then Some(height)
           else if t.clock.rollbackHeight.Some? && t.clock.rollbackHeight.value < height then None
           else t.clock.rollbackHeight)
  {
    OutcomeTeaches(t, height, rec);
    hide OutcomeOf, Gone;
  }

  /** A height on its own starts an epoch when it falls below the last one, once
      for a height until the chain has grown past it; births and sightings wait
      for a snapshot. */
  lemma HeightTeaches(t: Track, height: nat)
    requires t.view.watched.Some?
    ensures
      var w := t.view.watched.value;
      var fell := height < t.clock.lastHeight;
      var epoch := fell && t.clock.rollbackHeight != Some(height);
      var next := AfterHeight(t, height);
      var spent := if epoch && Above(w.spentAt, height) then None else w.spentAt;
      var due := && w.birthday.Some? && w.birthday.value + w.timeout <= height && spent.None? && w.spend.Some?
                 && (epoch || !w.claimed);
      && next.view
         == View(Some(Watched(w.timeout, w.birthday, spent, due || (w.claimed && !epoch), w.spend, w.semantic)),
                 t.view.present, t.view.vanished)
      && (due <==> QueuesClaim(t, HeightOnly(height))) && next.stream == t.stream
      && next.clock == Clock(
           height, t.clock.lastSnapshotHeight,
           if fell then Some(height)
           else if t.clock.rollbackHeight.Some? && t.clock.rollbackHeight.value < height then None
           else t.clock.rollbackHeight)
  {
  }

  /** Watching a coin again updates its timeout, and its claim when a new one is
      given; what is known of the coin stays. */
  lemma WatchTeaches(t: Track, timeout: nat, spend: Option<S.SpendBundle>, semantic: Option<nat>)
    ensures
      var next := After(t, Watch(timeout, spend, semantic));
      && next.view.present == t.view.present && next.view.vanished == t.view.vanished && next.clock == t.clock
      && next.stream == t.stream && next.view.watched.Some?
      && var w := next.view.watched.value;
      && w.timeout == timeout
      && (spend.Some? || t.view.watched.None? ==> w.spend == spend && w.semantic == semantic)
      && (t.view.watched.None? ==> w.birthday.None? && w.spentAt.None? && !w.claimed)
      && (t.view.watched.Some? ==>
            var before := t.view.watched.value;
            && w.birthday == before.birthday && w.spentAt == before.spentAt && w.claimed == before.claimed
            && (spend.None? ==> w.spend == before.spend && w.semantic == before.semantic))
  {
  }

  /** Over every run: after a report or a height no claim that is due is left out. */
  lemma NoDueClaimIsLeft(events: seq<Event>, k: nat)
    requires k < |events| && !events[k].Watch?
    ensures
      var next := Run(START, events[..k + 1]);
      next.view.watched.Some? ==>
        var w := next.view.watched.value;
        w.birthday.Some? && w.birthday.value + w.timeout <= Height(events[k]) && w.spentAt.None? && w.spend.Some?
        ==> w.claimed
  {
    RunToNext(events, k);
    hide Run, OutcomeOf;
  }

  lemma {:induction false} PresentUntilReport(events: seq<Event>, k: nat, l: nat)
    requires k <= l <= |events| && forall m :: k <= m < l ==> !events[m].Report?
    ensures
      var (t, end) := (Run(START, events[..k]), Run(START, events[..l]));
      && end.view.present == t.view.present && end.view.vanished == t.view.vanished && end.stream == t.stream
      && end.clock.lastSnapshotHeight == t.clock.lastSnapshotHeight
    decreases l - k
  {
    if k < l {
      PresentUntilReport(events, k, l - 1);
      RunToNext(events, l - 1);
      hide Run;
    }
  }

  /** No spend is missed: a coin live at one snapshot and not at the next one, of
      the same height or above, is observed spent in between, once. */
  lemma SpendIsNotMissed(events: seq<Event>, k: nat, l: nat)
    requires k < l < |events| && events[k].Report? && events[l].Report?
    requires forall m :: k < m < l ==> !events[m].Report?
    requires Run(START, events[..k + 1]).view.present
    requires events[l].height >= events[k].height && !IsLive(events[l].rec)
    ensures Run(START, events[..l + 1]).stream == Run(START, events[..k + 1]).stream + [Spent]
    ensures !Run(START, events[..l + 1]).view.present
  {
    RunKeepsLifecycle(START, events[..k + 1]);
    RunToNext(events, k);
    PresentUntilReport(events, k + 1, l);
    ObservedIff(events, l);
    hide Run, Ordered, OpenCreation;
    var t := Run(START, events[..l]);
    assert t.stream + [] + [Spent] == t.stream + [Spent];
  }

  /** Nor is a creation: a coin not live at one snapshot and live at the next is
      observed created in between. */
  lemma CreationIsNotMissed(events: seq<Event>, k: nat, l: nat)
    requires k < l < |events| && events[l].Report?
    requires forall m :: k < m < l ==> !events[m].Report?
    requires !Run(START, events[..k + 1]).view.present && IsLive(events[l].rec)
    ensures Run(START, events[..l + 1]).stream == Run(START, events[..k + 1]).stream + [Created]
  {
    PresentUntilReport(events, k + 1, l);
    ObservedIff(events, l);
    hide Run;
    var t := Run(START, events[..l]);
    assert t.stream + [Created] + [] == t.stream + [Created];
  }

  /** The coin's creation has been rolled back, by this report or before it, and
      the coin has not been seen again. */
  predicate Gone(t: Track, height: nat) {
    t.view.vanished || (Rewinds(t, height) && t.view.watched.Some? && Above(t.view.watched.value.birthday, height))
  }

  predicate SaysSpent(rec: Option<Record>) { rec.Some? && rec.value.spent.Some? }

  /** Over every run of snapshots, height reports and registrations, across any
      number of rollbacks: a vanished coin is watched and not live, and no report
      calls it spent for being absent; each spend is observed after a creation of
      its own; and while the coin stays watched its claim is queued once more
      than it is re-armed, or as often. */
  lemma CoinLifecycle(events: seq<Event>)
    ensures
      var t := Run(START, events);
      && !(t.view.vanished && t.view.present)
      && (t.view.vanished ==> t.view.watched.Some?)
      && (forall height, rec :: Gone(t, height) && OutcomeOf(t, height, rec).spent ==> SaysSpent(rec))
      && (forall i :: 0 <= i < |t.stream| && t.stream[i] == Spent ==>
            exists j :: 0 <= j < i && t.stream[j] == Created && Spent !in t.stream[j..i])
      && (t.view.watched.Some? ==> t.queued == t.rearmed + if t.view.watched.value.claimed then 1 else 0)
  {
    RunKeepsLifecycle(START, events);
    var t := Run(START, events);
    forall height, rec | Gone(t, height) && OutcomeOf(t, height, rec).spent
      ensures SaysSpent(rec)
    {
      GoneIsNotSpent(t, height, rec);
    }
    forall i | 0 <= i < |t.stream| && t.stream[i] == Spent
      ensures exists j :: 0 <= j < i && t.stream[j] == Created && Spent !in t.stream[j..i]
    {
      assert OpenCreation(t.stream[..i]);
      var j :| 0 <= j < i && t.stream[..i][j] == Created && Spent !in t.stream[..i][j..];
      assert t.stream[..i][j..] == t.stream[j..i];
    }
  }

  lemma GoneIsNotSpent(t: Track, height: nat, rec: Option<Record>)
    requires LifecycleOk(t) && Gone(t, height) && OutcomeOf(t, height, rec).spent
    ensures SaysSpent(rec)
  {
    hide OpenCreation, Ordered;
  }

  /** Every report of every run: one that finds the coin gone tells of a spend
      only if its record does. */
  lemma VanishedIsNotSpent(events: seq<Event>, k: nat)
    requires k < |events| && events[k].Report?
    requires Gone(Run(START, events[..k]), events[k].height)
    ensures
      var t := Run(START, events[..k]);
      var next := Run(START, events[..k + 1]);
      && (OutcomeOf(t, events[k].height, events[k].rec).spent ==> SaysSpent(events[k].rec))
      && (!SaysSpent(events[k].rec) ==> next.stream == t.stream || next.stream == t.stream + [Created])
  {
    CoinLifecycle(events[..k]);
    RunToNext(events, k);
    hide Run;
    var t := Run(START, events[..k]);
    var o := OutcomeOf(t, events[k].height, events[k].rec);
    hide OutcomeOf;
    assert t.stream + [] == t.stream;
    assert !SaysSpent(events[k].rec) ==> !o.spent;
  }

  // ---------------------------------------------------------------------------
  // Timeout claims
  // ---------------------------------------------------------------------------

  /** The event queues the coin's timeout claim, at this height. */
  predicate QueuesClaim(t: Track, e: Event) {
    match e
    case Report(height, rec) => Queues(OutcomeOf(t, height, rec).view, height)
    case HeightOnly(height) => Queues(AtHeight(t, height), height)
    case Watch(_, _, _) => false
  }

  function Height(e: Event): nat {
    match e
    case Report(height, _) => height
    case HeightOnly(height) => height
    case Watch(_, _, _) => 0
  }

  /** Some report so far said that the coin was created at this height. */
  ghost predicate WasReported(events: seq<Event>, height: nat) {
    exists j :: 0 <= j < |events| && events[j].Report? && events[j].rec.Some? && events[j].rec.value.created == Some(height)
  }

  ghost predicate BirthdayReported(events: seq<Event>, v: View) {
    v.watched.Some? && v.watched.value.birthday.Some? ==> WasReported(events, v.watched.value.birthday.value)
  }

  lemma ReportedBefore(events: seq<Event>, e: Event, v: View)
    requires BirthdayReported(events, v)
    ensures BirthdayReported(events + [e], v)
  {
    if v.watched.Some? && v.watched.value.birthday.Some? {
      var height := v.watched.value.birthday.value;
      var j :| 0 <= j < |events| && events[j].Report? && events[j].rec.Some? && events[j].rec.value.created == Some(height);
      assert (events + [e])[j] == events[j];
    }
  }

  /** A birthday is the one before, or what this report says. */
  lemma ReportedNow(events: seq<Event>, t: Track, height: nat, rec: Option<Record>)
    requires BirthdayReported(events, t.view)
    ensures BirthdayReported(events + [Report(height, rec)], OutcomeOf(t, height, rec).view)
  {
    hide BirthdayReported;
    var after := events + [Report(height, rec)];
    var v := OutcomeOf(t, height, rec).view;
    ReportedBefore(events, Report(height, rec), t.view);
    assert after[|events|] == Report(height, rec);
    if v.watched.Some? && v.watched.value.birthday.Some? {
      if rec.Some? && rec.value.created == v.watched.value.birthday {
        SaysSo(after, |events|, v);
      } else {
        SameBirthday(after, t.view, v);
      }
    } else {
      NoBirthday(after, v);
    }
  }

  lemma SaysSo(events: seq<Event>, j: nat, v: View)
    requires j < |events| && events[j].Report? && events[j].rec.Some?
    requires v.watched.Some? && events[j].rec.value.created == v.watched.value.birthday
    ensures BirthdayReported(events, v)
  {
  }

  lemma SameBirthday(events: seq<Event>, before: View, v: View)
    requires BirthdayReported(events, before) && before.watched.Some? && v.watched.Some?
    requires before.watched.value.birthday == v.watched.value.birthday
    ensures BirthdayReported(events, v)
  {
  }

  lemma NoBirthday(events: seq<Event>, v: View)
    requires v.watched.None? || v.watched.value.birthday.None?
    ensures BirthdayReported(events, v)
  {
  }

  lemma {:induction false} BirthdaysAreReported(events: seq<Event>)
    ensures BirthdayReported(events, Run(START, events).view)
    decreases |events|
  {
    if events != [] {
      var k := |events| - 1;
      var before, e := events[..k], events[k];
      assert events == before + [e] && events[..k + 1] == events;
      BirthdaysAreReported(before);
      RunToNext(events, k);
      hide Run, BirthdayReported;
      var t := Run(START, before);
      ReportedBefore(before, e, t.view);
      match e {
        case Report(height, rec) =>
          ReportedNow(before, t, height, rec);
          LaterSameBirthday(events, OutcomeOf(t, height, rec).view, After(t, e).view);
        case HeightOnly(height) => LaterSameBirthday(events, t.view, After(t, e).view);
        case Watch(_, _, _) => LaterSameBirthday(events, t.view, After(t, e).view);
      }
    }
  }

  lemma LaterSameBirthday(events: seq<Event>, before: View, v: View)
    requires BirthdayReported(events, before)
    requires v.watched.Some? && v.watched.value.birthday.Some? ==>
               before.watched.Some? && before.watched.value.birthday == v.watched.value.birthday
    ensures BirthdayReported(events, v)
  {
  }

  /** In every run a claim is queued only once some report has told of the coin's
      creation, the timeout registered for it since has passed, and no spend of
      it stands. */
  lemma QueuedClaimsAreDue(events: seq<Event>, k: nat)
    requires k < |events| && QueuesClaim(Run(START, events[..k]), events[k])
    ensures
      var next := Run(START, events[..k + 1]);
      && next.view.watched.Some?
      && var w := next.view.watched.value;
      && w.spentAt.None? && w.claimed && w.birthday.Some? && WasReported(events[..k + 1], w.birthday.value)
      && w.birthday.value + w.timeout <= Height(events[k])
  {
    RunToNext(events, k);
    BirthdaysAreReported(events[..k + 1]);
    hide Run, WasReported;
  }

  predicate WatchedAfter(events: seq<Event>, m: nat) {
    m <= |events| && Run(START, events[..m]).view.watched.Some?
  }

  lemma CountsGrow(t: Track, e: Event)
    requires LifecycleOk(t) && t.view.watched.Some? && After(t, e).view.watched.Some?
    ensures After(t, e).rearmed >= t.rearmed
    ensures After(t, e).queued == t.queued + if QueuesClaim(t, e) then 1 else 0
  {
    hide OpenCreation, Ordered;
  }

  /** While the coin stays watched its claim is queued again only after it has
      been re-armed. */
  lemma QueuedAgainOnlyAfterRearm(events: seq<Event>, k: nat, l: nat)
    requires k < l < |events| && forall m :: k <= m <= l + 1 ==> WatchedAfter(events, m)
    requires QueuesClaim(Run(START, events[..k]), events[k]) && QueuesClaim(Run(START, events[..l]), events[l])
    ensures Run(START, events[..k + 1]).rearmed < Run(START, events[..l + 1]).rearmed
  {
    assert WatchedAfter(events, k + 1) && WatchedAfter(events, l) && WatchedAfter(events, l + 1);
    QueuedGrows(events, k + 1, l);
    RunToNext(events, k);
    RunToNext(events, l);
    RunKeepsLifecycle(START, events[..k + 1]);
    RunKeepsLifecycle(START, events[..l]);
    RunKeepsLifecycle(START, events[..l + 1]);
    hide Run, QueuesClaim, OpenCreation, Ordered;
    ClaimedAfter(Run(START, events[..k]), events[k]);
    ClaimedAfter(Run(START, events[..l]), events[l]);
    CountsGrow(Run(START, events[..l]), events[l]);
  }

  lemma {:induction false} QueuedGrows(events: seq<Event>, k: nat, l: nat)
    requires k <= l <= |events| && forall m :: k <= m <= l ==> WatchedAfter(events, m)
    ensures Run(START, events[..k]).queued <= Run(START, events[..l]).queued
    decreases l - k
  {
    if k < l {
      assert WatchedAfter(events, l - 1) && WatchedAfter(events, l);
      QueuedGrows(events, k, l - 1);
      RunToNext(events, l - 1);
      RunKeepsLifecycle(START, events[..l - 1]);
      hide Run;
      CountsGrow(Run(START, events[..l - 1]), events[l - 1]);
    }
  }

  lemma ClaimedAfter(t: Track, e: Event)
    requires QueuesClaim(t, e) && After(t, e).view.watched.Some?
    ensures After(t, e).view.watched.value.claimed
  {
  }

  /** The record does not move the coin's birthday. */
  predicate KeepsBirthday(v: View, rec: Option<Record>, height: nat) {
    v.watched.Some? ==>
      && !Above(v.watched.value.birthday, height)
      && (rec.Some? && rec.value.created.Some? ==> v.watched.value.birthday == rec.value.created)
  }

  /** A rollback learned from a bare height and then confirmed by a snapshot at
      the same height is one rollback: the snapshot queues no further claim. */
  lemma OneRollbackOneClaim(t: Track, height: nat, rec: Option<Record>)
    requires height < t.clock.lastHeight
    requires KeepsBirthday(AfterHeight(t, height).view, rec, height)
    ensures
      var once := AfterHeight(t, height);
      var twice := AfterReport(once, height, rec);
      twice.view.watched.Some? ==> twice.queued == once.queued && twice.rearmed == once.rearmed
  {
  }

  /** Without the kept birthday a further claim needs the coin to have moved. */
  lemma FurtherClaimMeansMovedBirthday(t: Track, height: nat, rec: Option<Record>)
    requires height < t.clock.lastHeight
    requires AfterReport(AfterHeight(t, height), height, rec).view.watched.Some?
    requires AfterReport(AfterHeight(t, height), height, rec).queued > AfterHeight(t, height).queued
    ensures
      var v := AfterHeight(t, height).view;
      v.watched.Some? && rec.Some? && rec.value.created.Some? && v.watched.value.birthday != rec.value.created
  {
  }
}

/** How old an object's last sync can get, and how soon it can be queued again. */
module SyncBounds {
  import opened Text
  import opened Objects
  import opened Tracker
  import opened Ownership
  import opened Cascade
  import opened Deletion
  import opened Machine

  // ---------------------------------------------------------------- time

  function NowOf(a: Action): Option<int> {
    match a
    case Create(_, now) => Some(now)
    case Update(_, now) => Some(now)
    case DeleteSection(_, now, _, _) => Some(now)
    case GcRun(_, now, _, _) => Some(now)
    case SyncScan(now, _) => Some(now)
    case SyncRun(_, now) => Some(now)
    case _ => None
  }

  /** `times[i]` is when `acts[i]` happens; the clock does not run backwards. */
  ghost predicate Timed(acts: seq<Action>, times: seq<int>, start: int, period: int) {
    && |times| == |acts|
    && (forall i, j | 0 <= i <= j < |times| :: times[i] <= times[j])
    && (forall i | 0 <= i < |times| :: start <= times[i])
    && (forall i | 0 <= i < |acts| :: NowOf(acts[i]) == None || NowOf(acts[i]) == Some(times[i]))
    && (forall i | 0 <= i < |acts| && acts[i].SyncScan? :: acts[i].period == period)
  }

  /** The time of the last scan before step `n`, or of the start. */
  function LastScan(acts: seq<Action>, times: seq<int>, start: int, n: nat): int
    requires n <= |acts| == |times|
  {
    if n == 0 then start
    else if acts[n - 1].SyncScan? then times[n - 1]
    else LastScan(acts, times, start, n - 1)
  }

  /** Since when `x` has been in the sync queue without a break. */
  function Since(run: seq<Group>, acts: seq<Action>, times: seq<int>, n: nat, x: Ref): Option<int>
    requires n <= |acts| == |times| && |run| == |acts| + 1
  {
    if n == 0 || x !in run[n].syncQueue then None
    else
      var before := Since(run, acts, times, n - 1, x);
      if before.Some? && !(acts[n - 1].SyncRun? && acts[n - 1].x == x) then before else Some(times[n - 1])
  }

  /** No step comes later than `gap` after the last scan. */
  ghost predicate ScansEvery(acts: seq<Action>, times: seq<int>, start: int, gap: int)
    requires |acts| == |times|
  {
    forall n | 0 <= n < |acts| :: times[n] <= LastScan(acts, times, start, n) + gap
  }

  /** No request has waited longer than `latency`. */
  ghost predicate WaitsAtMost(run: seq<Group>, acts: seq<Action>, times: seq<int>, latency: int)
    requires |acts| == |times| && |run| == |acts| + 1
  {
    forall n, x | 0 <= n < |acts| && Since(run, acts, times, n, x).Some? ::
      times[n] <= Since(run, acts, times, n, x).value + latency
  }

  // ---------------------------------------------------------------- stamps

  /** In `t`, an object is in its old version with its old stamp, or has the present one. */
  ghost predicate Restamps(s: State, t: State, now: Option<int>) {
    forall x | x in t.objs ::
      || (x in s.objs && t.objs[x].lastSync == s.objs[x].lastSync && t.objs[x].version == s.objs[x].version)
      || (now.Some? && t.objs[x].lastSync == Some(Stamp(now.value)))
  }

  lemma StoreRestamps(s: State, obj: Obj, replace: bool, now: int)
    requires WellKept(s)
    ensures Restamps(s, Store(s, obj, replace, now).0, Some(now))
  {
    StoreSucceedsWhen(s, obj, replace, now);
    if Store(s, obj, replace, now).1.None? {
      var stored := if replace then BeforeUpdate(s.objs[obj.Id()], obj, now) else BeforeCreate(obj, now);
      assert Store(s, obj, replace, now).0.objs == s.objs[obj.Id() := stored];
    }
  }

  lemma CallRestamps(s: State, x: Ref, now: int, ord: Order, o: Outcome)
    requires IsOrder(ord) && Ends(s, x, now, ord, o)
    ensures Restamps(s, o.s, Some(now))
  {
    CallTouchesOnlyClosure(s, x, now, ord, o);
  }

  lemma StepRestamps(g: Group, a: Action)
    requires WellKept(g.t) && CanRun(g, a)
    ensures Restamps(g.t, Run(g, a).t, NowOf(a))
    ensures a.SyncRun? && a.x in Run(g, a).t.objs ==> Run(g, a).t.objs[a.x].lastSync == Some(Stamp(a.now))
  {
    match a
    case Create(obj, now) => StoreRestamps(g.t, obj, false, now);
    case Update(obj, now) => StoreRestamps(g.t, obj, true, now);
    case DeleteSection(x, now, ord, o) => CallRestamps(g.t, x, now, ord, o);
    case GcRun(x, now, ord, o) => CallRestamps(g.t, x, now, ord, o);
    case _ =>
  }

  lemma {:induction false} LastScanPast(acts: seq<Action>, times: seq<int>, start: int, period: int, n: nat)
    requires Timed(acts, times, start, period) && n < |acts|
    ensures LastScan(acts, times, start, n) <= times[n]
  {
    if n > 0 { LastScanPast(acts, times, start, period, n - 1); }
  }

  lemma {:induction false} SincePast(run: seq<Group>, acts: seq<Action>, times: seq<int>, start: int, period: int,
                                     n: nat, x: Ref)
    requires |run| == |acts| + 1 && Timed(acts, times, start, period) && n < |acts|
    ensures Since(run, acts, times, n, x).Some? ==> Since(run, acts, times, n, x).value <= times[n]
  {
    if n > 0 { SincePast(run, acts, times, start, period, n - 1, x); }
  }

  // ---------------------------------------------------------------- the upper bound

  /** The last scan came too early for `x`, or `x` waits since a scan that came soon enough. */
  ghost predicate OnWatch(run: seq<Group>, acts: seq<Action>, times: seq<int>, start: int, period: int, gap: int,
                          n: nat, x: Ref)
    requires n <= |acts| == |times| && |run| == |acts| + 1
  {
    x in run[n].t.objs ==>
      && run[n].t.objs[x].lastSync.Some?
      && var due := run[n].t.objs[x].lastSync.value * SECOND + period;
         || LastScan(acts, times, start, n) < due
         || (Since(run, acts, times, n, x).Some? && Since(run, acts, times, n, x).value < due + gap)
  }

  lemma OnWatchStep(run: seq<Group>, acts: seq<Action>, times: seq<int>, start: int, period: int, gap: int, n: nat, x: Ref)
    requires IsHistory(run, acts) && Timed(acts, times, start, period) && ScansEvery(acts, times, start, gap)
    requires period >= SECOND && n < |acts| && OnWatch(run, acts, times, start, period, gap, n, x)
    ensures OnWatch(run, acts, times, start, period, gap, n + 1, x)
  {
    HistoryWellKept(run, acts, n);
    StepOf(run, acts, n);
    StepRestamps(run[n], acts[n]);
    LastScanPast(acts, times, start, period, n);
    SincePast(run, acts, times, start, period, n, x);
    if x in run[n + 1].t.objs && run[n + 1].t.objs[x].lastSync != Some(Stamp(times[n])) {
      assert run[n + 1].t.objs[x].lastSync == run[n].t.objs[x].lastSync;
      assert x in run[n].syncQueue ==> x in run[n + 1].syncQueue;
    }
  }

  lemma {:induction false} HistoryOnWatch(run: seq<Group>, acts: seq<Action>, times: seq<int>, start: int, period: int,
                                          gap: int, n: nat, x: Ref)
    requires IsHistory(run, acts) && Timed(acts, times, start, period) && ScansEvery(acts, times, start, gap)
    requires period >= SECOND && n < |run|
    ensures OnWatch(run, acts, times, start, period, gap, n, x)
  {
    if n > 0 {
      HistoryOnWatch(run, acts, times, start, period, gap, n - 1, x);
      OnWatchStep(run, acts, times, start, period, gap, n - 1, x);
    }
  }

  /** Scans at most `gap` apart, each request handled within `latency`: every tracked object's last sync is younger
      than the sum of period, gap and latency. */
  lemma StalenessBound(run: seq<Group>, acts: seq<Action>, times: seq<int>, start: int, period: int, gap: int, latency: nat,
                       n: nat, x: Ref)
    requires IsHistory(run, acts) && Timed(acts, times, start, period) && period >= SECOND
    requires ScansEvery(acts, times, start, gap) && WaitsAtMost(run, acts, times, latency)
    requires n < |acts| && x in run[n].t.objs
    ensures run[n].t.objs[x].lastSync.Some?
    ensures times[n] < run[n].t.objs[x].lastSync.value * SECOND + period + gap + latency
  {
    HistoryOnWatch(run, acts, times, start, period, gap, n, x);
  }

  /** Requests are all handled before the next scan. */
  ghost predicate HandledBeforeNextScan(run: seq<Group>, acts: seq<Action>)
    requires |run| == |acts| + 1
  {
    forall n | 0 <= n < |acts| && acts[n].SyncScan? :: run[n].syncQueue == {}
  }

  /** Nothing but a scan adds to the sync queue, and a sync takes its request out. */
  lemma OnlyScansQueue(g: Group, a: Action, x: Ref)
    requires CanRun(g, a) && !a.SyncScan? && x in Run(g, a).syncQueue
    ensures x in g.syncQueue && !(a.SyncRun? && a.x == x)
  {
  }

  lemma QueuedBefore(run: seq<Group>, acts: seq<Action>, i: nat, x: Ref)
    requires IsHistory(run, acts) && i < |acts| && !acts[i].SyncScan? && x in run[i + 1].syncQueue
    ensures x in run[i].syncQueue && !(acts[i].SyncRun? && acts[i].x == x)
  {
    StepOf(run, acts, i);
    OnlyScansQueue(run[i], acts[i], x);
  }

  lemma {:induction false} SinceLastScan(run: seq<Group>, acts: seq<Action>, times: seq<int>, start: int, n: nat, x: Ref)
    requires IsHistory(run, acts) && |times| == |acts| && HandledBeforeNextScan(run, acts) && n <= |acts|
    requires Since(run, acts, times, n, x).Some?
    ensures Since(run, acts, times, n, x).value == LastScan(acts, times, start, n)
  {
    if !acts[n - 1].SyncScan? {
      QueuedBefore(run, acts, n - 1, x);
      SinceLastScan(run, acts, times, start, n - 1, x);
    }
  }

  /** Handling every request before the next scan gives one more gap, not one more second. */
  lemma StalenessBeforeNextScan(run: seq<Group>, acts: seq<Action>, times: seq<int>, start: int, period: int, gap: nat,
                                n: nat, x: Ref)
    requires IsHistory(run, acts) && Timed(acts, times, start, period) && period >= SECOND
    requires ScansEvery(acts, times, start, gap) && HandledBeforeNextScan(run, acts)
    requires n < |acts| && x in run[n].t.objs
    ensures run[n].t.objs[x].lastSync.Some?
    ensures times[n] < run[n].t.objs[x].lastSync.value * SECOND + period + 2 * gap
  {
    forall k, y | 0 <= k < |acts| && Since(run, acts, times, k, y).Some?
      ensures times[k] <= Since(run, acts, times, k, y).value + gap
    {
      SinceLastScan(run, acts, times, start, k, y);
    }
    StalenessBound(run, acts, times, start, period, gap, gap, n, x);
  }

  // ---------------------------------------------------------------- the upper bound is attained

  /** The `i`th of the scans that start at `first`. */
  function ScanAt(first: nat, gap: nat, i: nat): nat {
    if i == 0 then first else ScanAt(first, gap, i - 1) + gap
  }

  lemma {:induction false} ScansRise(first: nat, gap: nat, i: nat, j: nat)
    requires i <= j
    ensures first <= ScanAt(first, gap, i) <= ScanAt(first, gap, j)
    decreases j
  {
    if i < j { ScansRise(first, gap, i, j - 1); } else if i > 0 { ScansRise(first, gap, 0, i - 1); }
  }

  /** Scans can be laid out so that one comes at `p`. */
  lemma {:induction false} ScanCanHit(p: nat, gap: nat) returns (first: nat, k: nat)
    requires gap > 0
    ensures first < gap && ScanAt(first, gap, k) == p
    decreases p
  {
    if p < gap {
      first, k := p, 0;
    } else {
      first, k := ScanCanHit(p - gap, gap);
      k := k + 1;
    }
  }

  /** How many scans come before a request of scan `k + 1` is handled. */
  lemma {:induction false} ScansBefore(first: nat, gap: nat, k: nat, latency: nat) returns (n: nat)
    requires gap > 0
    ensures n >= k + 2 && (latency <= gap ==> n == k + 2)
    ensures ScanAt(first, gap, n - 1) <= ScanAt(first, gap, k + 1) + latency <= ScanAt(first, gap, n)
    decreases latency
  {
    if latency <= gap {
      n := k + 2;
    } else {
      n := ScansBefore(first, gap, k, latency - gap);
      n := n + 1;
    }
  }

  /** One object, created at time 0; `n` scans, of which number `k` comes just before the object is due and number
      `k + 1` queues it; its sync at time `end`. */
  datatype Late = Late(obj: Obj, period: nat, first: nat, gap: nat, k: nat, n: nat, end: nat) {
    function Acts(): seq<Action> {
      seq(n + 2, i requires 0 <= i < n + 2 =>
        if i == 0 then Create(obj, 0)
        else if i <= n then SyncScan(ScanAt(first, gap, i - 1), period)
        else SyncRun(obj.Id(), end))
    }

    function TimeOf(i: nat): nat {
      if i == 0 then 0 else if i <= n then ScanAt(first, gap, i - 1) else end
    }

    function Times(): (times: seq<int>)
      ensures |times| == n + 2 && forall i | 0 <= i < n + 2 :: times[i] == TimeOf(i)
    {
      seq(n + 2, i requires 0 <= i < n + 2 => TimeOf(i))
    }

    ghost predicate Valid() {
      && obj.key.name != "" && obj.owners == []
      && 0 < period && first < gap && n >= k + 2
      && ScanAt(first, gap, k) == period - 1
      && ScanAt(first, gap, n - 1) <= end <= ScanAt(first, gap, n)
    }
  }

  lemma LateTime(l: Late, i: nat, j: nat)
    requires l.Valid() && i <= j < l.n + 2
    ensures l.TimeOf(i) <= l.TimeOf(j)
  {
    if 0 < i <= l.n {
      ScansRise(l.first, l.gap, i - 1, l.n - 1);
      if j <= l.n { ScansRise(l.first, l.gap, i - 1, j - 1); }
    }
  }

  lemma LateTimed(l: Late)
    requires l.Valid()
    ensures Timed(l.Acts(), l.Times(), 0, l.period)
  {
    forall i, j | 0 <= i <= j < |l.Times()|
      ensures 0 <= l.Times()[i] <= l.Times()[j]
    {
      LateTime(l, i, j);
    }
    forall i | 0 <= i < |l.Times()| ensures 0 <= l.Times()[i] { LateTime(l, i, i); }
  }

  lemma {:induction false} LateLastScan(l: Late, i: nat)
    requires l.Valid() && i < l.n + 2
    ensures LastScan(l.Acts(), l.Times(), 0, i) == if i <= 1 then 0 else ScanAt(l.first, l.gap, i - 2)
  {
    if i > 0 { LateLastScan(l, i - 1); }
  }

  lemma LateScans(l: Late)
    requires l.Valid()
    ensures ScansEvery(l.Acts(), l.Times(), 0, l.gap)
  {
    forall i | 0 <= i < |l.Acts()|
      ensures l.Times()[i] <= LastScan(l.Acts(), l.Times(), 0, i) + l.gap
    {
      LateLastScan(l, i);
      if i == l.n + 1 { assert ScanAt(l.first, l.gap, l.n) == ScanAt(l.first, l.gap, l.n - 1) + l.gap; }
    }
  }

  /** The states: empty, with the object, with its request, synced. */
  ghost function LateRun(l: Late, g: Group, h: Group): seq<Group>
    requires l.obj.Id() in h.syncQueue
  {
    seq(l.n + 3, i requires 0 <= i < l.n + 3 =>
      if i == 0 then INITIAL else if i <= l.k + 2 then g else if i <= l.n + 1 then h
      else Run(h, SyncRun(l.obj.Id(), l.end)))
  }

  /** Scans before the object is due change nothing; the first one after queues it, and the others find it queued. */
  ghost predicate LateStates(l: Late, g: Group, h: Group) {
    && g == Run(INITIAL, Create(l.obj, 0))
    && g.syncQueue == {} && h.syncQueue == {l.obj.Id()} && h.t == g.t
    && (forall now | now < l.period :: Run(g, SyncScan(now, l.period)) == g)
    && (forall now | now >= l.period :: Run(g, SyncScan(now, l.period)) == h && Run(h, SyncScan(now, l.period)) == h)
  }

  /** A scan among them. */
  lemma LateScan(l: Late, g: Group, h: Group, i: nat)
    requires l.Valid() && LateStates(l, g, h) && i < l.n
    ensures Run(if i <= l.k + 1 then g else h, SyncScan(ScanAt(l.first, l.gap, i), l.period)) == if i <= l.k then g else h
  {
    if i <= l.k { ScansRise(l.first, l.gap, i, l.k); } else { ScansRise(l.first, l.gap, l.k + 1, i); }
  }

  lemma LateIsHistory(l: Late, g: Group, h: Group)
    requires l.Valid() && LateStates(l, g, h)
    ensures IsHistory(LateRun(l, g, h), l.Acts())
  {
    var run, acts := LateRun(l, g, h), l.Acts();
    forall i | 0 <= i < |acts|
      ensures Takes(run, acts, i)
    {
      if 0 < i <= l.n { LateScan(l, g, h, i - 1); }
    }
  }

  lemma {:induction false} LateSince(l: Late, g: Group, h: Group, i: nat, x: Ref)
    requires l.Valid() && LateStates(l, g, h) && i <= l.n + 1
    ensures Since(LateRun(l, g, h), l.Acts(), l.Times(), i, x)
         == if x == l.obj.Id() && i >= l.k + 3 then Some(ScanAt(l.first, l.gap, l.k + 1)) else None
  {
    if i > 0 {
      LateSince(l, g, h, i - 1, x);
      assert x in LateRun(l, g, h)[i].syncQueue <==> x == l.obj.Id() && i >= l.k + 3;
      assert !l.Acts()[i - 1].SyncRun?;
    }
  }

  lemma LateWaits(l: Late, g: Group, h: Group, latency: nat)
    requires l.Valid() && LateStates(l, g, h) && l.end == ScanAt(l.first, l.gap, l.k + 1) + latency
    ensures WaitsAtMost(LateRun(l, g, h), l.Acts(), l.Times(), latency)
  {
    LateTimed(l);
    forall i, x | 0 <= i < |l.Acts()| && Since(LateRun(l, g, h), l.Acts(), l.Times(), i, x).Some?
      ensures l.Times()[i] <= Since(LateRun(l, g, h), l.Acts(), l.Times(), i, x).value + latency
    {
      LateSince(l, g, h, i, x);
      assert l.Times()[i] <= l.Times()[l.n + 1];
    }
  }

  lemma LateHandled(l: Late, g: Group, h: Group)
    requires l.Valid() && LateStates(l, g, h) && l.n == l.k + 2
    ensures HandledBeforeNextScan(LateRun(l, g, h), l.Acts())
  {
  }

  lemma LateBegins(l: Late) returns (g: Group, h: Group)
    requires l.Valid()
    ensures LateStates(l, g, h) && g.t.objs == map[l.obj.Id() := BeforeCreate(l.obj, 0)]
  {
    g := Run(INITIAL, Create(l.obj, 0));
    CreatedAlone(l.obj, g);
    h := g.(syncQueue := {l.obj.Id()});
    forall now
      ensures DueRefs(g.t.objs, now, l.period) == if now < l.period then {} else {l.obj.Id()}
    {
      assert SyncDue(g.t.objs[l.obj.Id()], now, l.period) <==> now >= l.period;
    }
  }

  lemma LateObserved(l: Late, latency: nat) returns (run: seq<Group>)
    requires l.Valid() && l.end == ScanAt(l.first, l.gap, l.k + 1) + latency
    ensures IsHistory(run, l.Acts()) && Timed(l.Acts(), l.Times(), 0, l.period)
    ensures ScansEvery(l.Acts(), l.Times(), 0, l.gap) && WaitsAtMost(run, l.Acts(), l.Times(), latency)
    ensures l.n == l.k + 2 ==> HandledBeforeNextScan(run, l.Acts())
    ensures |run| > l.n + 1 && l.obj.Id() in run[l.n + 1].t.objs
            && run[l.n + 1].t.objs[l.obj.Id()].lastSync == Some(0)
  {
    var g, h := LateBegins(l);
    run := LateRun(l, g, h);
    LateTimed(l);
    LateScans(l);
    LateIsHistory(l, g, h);
    LateWaits(l, g, h, latency);
    if l.n == l.k + 2 { LateHandled(l, g, h); }
  }

  const EXAMPLE := Obj(Gvk("", "v1", "K"), Key("ns", "a"), [], [], None, 0, "", None, "")

  /** A last sync does get as old as period, gap and latency together, less a nanosecond. Where the latency is at
      most the gap, every request is handled before the next scan. */
  lemma BoundAttained(period: nat, gap: nat, latency: nat)
    returns (run: seq<Group>, acts: seq<Action>, times: seq<int>, n: nat, x: Ref)
    requires period > 0 && gap > 0
    ensures IsHistory(run, acts) && Timed(acts, times, 0, period) && ScansEvery(acts, times, 0, gap)
    ensures WaitsAtMost(run, acts, times, latency) && (latency <= gap ==> HandledBeforeNextScan(run, acts))
    ensures n < |acts| && x in run[n].t.objs && run[n].t.objs[x].lastSync.Some?
    ensures times[n] == run[n].t.objs[x].lastSync.value * SECOND + period + gap + latency - 1
  {
    var first, k := ScanCanHit(period - 1, gap);
    var scans := ScansBefore(first, gap, k, latency);
    var l := Late(EXAMPLE, period, first, gap, k, scans, period - 1 + gap + latency);
    run := LateObserved(l, latency);
    acts, times, n, x := l.Acts(), l.Times(), l.n + 1, l.obj.Id();
  }

  /** `x` is tracked when step `n` comes, in a timed history with such scans. */
  ghost predicate Observed(run: seq<Group>, acts: seq<Action>, times: seq<int>, start: int, period: int, gap: int,
                           n: nat, x: Ref) {
    && IsHistory(run, acts) && Timed(acts, times, start, period) && ScansEvery(acts, times, start, gap)
    && n < |acts| && x in run[n].t.objs
  }

  predicate NotOlder(g: Group, x: Ref, now: int, age: int)
    requires x in g.t.objs
  {
    g.t.objs[x].lastSync.Some? && now - g.t.objs[x].lastSync.value * SECOND <= age
  }

  /** No last sync is ever older than `age`. */
  ghost predicate NeverOlder(period: int, gap: int, latency: int, age: int) {
    forall run, acts, times, start, n, x | Observed(run, acts, times, start, period, gap, n, x) ::
      WaitsAtMost(run, acts, times, latency) ==> NotOlder(run[n], x, times[n], age)
  }

  ghost predicate NeverOlderWhenHandled(period: int, gap: int, age: int) {
    forall run, acts, times, start, n, x | Observed(run, acts, times, start, period, gap, n, x) ::
      HandledBeforeNextScan(run, acts) ==> NotOlder(run[n], x, times[n], age)
  }

  /** Exactly how old a last sync can get, for requests handled within a latency. */
  lemma StalenessIff(period: nat, gap: nat, latency: nat, age: int)
    requires period >= SECOND && gap > 0
    ensures NeverOlder(period, gap, latency, age) <==> age >= period + gap + latency - 1
  {
    if age >= period + gap + latency - 1 {
      forall run, acts, times, start, n, x
        | Observed(run, acts, times, start, period, gap, n, x) && WaitsAtMost(run, acts, times, latency)
        ensures NotOlder(run[n], x, times[n], age)
      {
        StalenessBound(run, acts, times, start, period, gap, latency, n, x);
      }
    } else {
      var run, acts, times, n, x := BoundAttained(period, gap, latency);
      assert Observed(run, acts, times, 0, period, gap, n, x) && !NotOlder(run[n], x, times[n], age);
    }
  }

  /** Scans every quarter period: "1.25 periods and a second" holds if and only if requests are handled within a
      second and a nanosecond. */
  lemma QuarterBoundIff(quarter: nat, latency: nat)
    requires 4 * quarter >= SECOND
    ensures NeverOlder(4 * quarter, quarter, latency, 5 * quarter + SECOND) <==> latency <= SECOND + 1
  {
    StalenessIff(4 * quarter, quarter, latency, 5 * quarter + SECOND);
  }

  /** Exactly how old it can get when requests are handled before the next scan. */
  lemma HandledStalenessIff(period: nat, gap: nat, age: int)
    requires period >= SECOND && gap > 0
    ensures NeverOlderWhenHandled(period, gap, age) <==> age >= period + 2 * gap - 1
  {
    if age >= period + 2 * gap - 1 {
      forall run, acts, times, start, n, x
        | Observed(run, acts, times, start, period, gap, n, x) && HandledBeforeNextScan(run, acts)
        ensures NotOlder(run[n], x, times[n], age)
      {
        StalenessBeforeNextScan(run, acts, times, start, period, gap, n, x);
      }
    } else {
      var run, acts, times, n, x := BoundAttained(period, gap, gap);
      assert Observed(run, acts, times, 0, period, gap, n, x) && !NotOlder(run[n], x, times[n], age);
    }
  }

  const TEN_MINUTES := 600 * SECOND

  /** With the program's period, scans every quarter of it and each request handled before the next scan, a last sync
      older than 1.25 periods and a second. */
  lemma BeforeNextScanIsNotASecond() returns (run: seq<Group>, acts: seq<Action>, times: seq<int>, n: nat, x: Ref)
    ensures IsHistory(run, acts) && Timed(acts, times, 0, TEN_MINUTES)
    ensures ScansEvery(acts, times, 0, TEN_MINUTES / 4) && HandledBeforeNextScan(run, acts)
    ensures n < |acts| && x in run[n].t.objs && run[n].t.objs[x].lastSync.Some?
    ensures times[n] > run[n].t.objs[x].lastSync.value * SECOND + TEN_MINUTES + TEN_MINUTES / 4 + SECOND
  {
    run, acts, times, n, x := BoundAttained(TEN_MINUTES, TEN_MINUTES / 4, TEN_MINUTES / 4);
  }

  lemma CreatedAlone(obj: Obj, g: Group)
    requires obj.key.name != "" && obj.owners == [] && g == Run(INITIAL, Create(obj, 0))
    ensures g.t.objs == map[obj.Id() := BeforeCreate(obj, 0)] && g.syncQueue == {}
  {
    StoreSucceedsWhen(EMPTY, obj, false, 0);
  }

  // ---------------------------------------------------------------- the lower bound

  lemma StampAfter(g: Group, a: Action, time: int, low: int, x: Ref)
    requires WellKept(g.t) && CanRun(g, a) && (NowOf(a) == None || NowOf(a) == Some(time)) && low <= Stamp(time)
    requires x in g.t.objs ==> g.t.objs[x].lastSync.Some? && low <= g.t.objs[x].lastSync.value
    ensures var t := Run(g, a).t;
            x in t.objs ==> t.objs[x].lastSync.Some? && low <= t.objs[x].lastSync.value
  {
    StepRestamps(g, a);
  }

  lemma StampStep(run: seq<Group>, acts: seq<Action>, times: seq<int>, start: int, period: int, k: nat, low: int, x: Ref)
    requires IsHistory(run, acts) && Timed(acts, times, start, period) && k < |acts| && low <= Stamp(times[k])
    requires x in run[k].t.objs ==> run[k].t.objs[x].lastSync.Some? && low <= run[k].t.objs[x].lastSync.value
    ensures x in run[k + 1].t.objs ==>
              run[k + 1].t.objs[x].lastSync.Some? && low <= run[k + 1].t.objs[x].lastSync.value
  {
    HistoryWellKept(run, acts, k);
    StepOf(run, acts, k);
    StampAfter(run[k], acts[k], times[k], low, x);
  }

  lemma {:induction false} StampsRise(run: seq<Group>, acts: seq<Action>, times: seq<int>, start: int, period: int,
                                      i: nat, j: nat, x: Ref)
    requires IsHistory(run, acts) && Timed(acts, times, start, period) && i < j < |run|
    requires x in run[i + 1].t.objs && run[i + 1].t.objs[x].lastSync == Some(Stamp(times[i]))
    ensures x in run[j].t.objs ==>
              run[j].t.objs[x].lastSync.Some? && Stamp(times[i]) <= run[j].t.objs[x].lastSync.value
    decreases j
  {
    if i + 1 < j {
      StampsRise(run, acts, times, start, period, i, j - 1, x);
      assert times[i] <= times[j - 1];
      StampStep(run, acts, times, start, period, j - 1, Stamp(times[i]), x);
    }
  }

  /** An object created, synced or brought to a new version at step `i` is queued by no scan that comes before the
      whole second of that step plus the period. */
  lemma NotQueuedEarly(run: seq<Group>, acts: seq<Action>, times: seq<int>, start: int, period: int, i: nat, j: nat, x: Ref)
    requires IsHistory(run, acts) && Timed(acts, times, start, period) && i < j < |acts|
    requires x in run[i + 1].t.objs
    requires || x !in run[i].t.objs
             || run[i].t.objs[x].version != run[i + 1].t.objs[x].version
             || (acts[i].SyncRun? && acts[i].x == x)
    requires acts[j].SyncScan? && times[j] < Stamp(times[i]) * SECOND + period
    ensures x !in DueRefs(run[j].t.objs, acts[j].now, acts[j].period)
  {
    HistoryWellKept(run, acts, i);
    StepOf(run, acts, i);
    StepRestamps(run[i], acts[i]);
    StampsRise(run, acts, times, start, period, i, j, x);
    assert acts[j].now == times[j] && acts[j].period == period;
  }
}

/** Control plane endpoints through reconciles, patches, deletions, crashes and hot restarts. */
module Endpoints {
  import opened Text
  import opened Mux

  // ---------------------------------------------------------------- resource groups

  datatype ClusterRef = ClusterRef(namespace: string, name: string)

  /** `klog.KObj(cluster).String()`, the name of the cluster's resource group and of its listener. */
  function GroupOf(c: ClusterRef): string {
    if c.namespace == "" then c.name else c.namespace + "/" + c.name
  }

  predicate Named(c: ClusterRef) {
    '/' !in c.namespace && '/' !in c.name
  }

  lemma GroupOfIs(c: ClusterRef)
    ensures c.namespace == "" ==> GroupOf(c) == c.name
    ensures c.namespace != "" ==> GroupOf(c) == c.namespace + "/" + c.name
    ensures c == ClusterRef("ns", "a") ==> GroupOf(c) == "ns/a"
  {
  }

  lemma GroupOfInjective(a: ClusterRef, b: ClusterRef)
    requires Named(a) && Named(b)
    ensures GroupOf(a) == GroupOf(b) <==> a == b
  {
    if GroupOf(a) == GroupOf(b) {
      var g := GroupOf(a);
      assert a.namespace != "" ==> g[|a.namespace|] == '/' && a.namespace == g[..|a.namespace|];
      assert b.namespace != "" ==> g[|b.namespace|] == '/' && b.namespace == g[..|b.namespace|];
      assert a.namespace != "" ==> forall i | |a.namespace| < i < |g| :: g[i] == a.name[i - |a.namespace| - 1];
      assert b.namespace != "" ==> forall i | |b.namespace| < i < |g| :: g[i] == b.name[i - |b.namespace| - 1];
      assert a.namespace != "" ==> a.name == g[|a.namespace| + 1..];
      assert b.namespace != "" ==> b.name == g[|b.namespace| + 1..];
    }
  }

  // ---------------------------------------------------------------- the system

  /** What matters of a GoofyCluster: its control plane endpoint and its resource group annotation. */
  datatype Record = Record(host: string, port: int, group: Option<string>)

  const UNSET := Record("", 0, None)

  /** A reconcile between its Get and its deferred patch: the object as read, and as changed so far. */
  datatype Flight = Flight(before: Record, local: Record)

  /** GoofyClusters are known by the Cluster that owns them, one each. */
  datatype Sys = Sys(
    store: map<ClusterRef, Record>,
    mux: State,
    done: bool,
    flights: map<ClusterRef, Flight>)

  datatype Action =
    | Create(c: ClusterRef)
    | Delete(c: ClusterRef)
    | Begin(c: ClusterRef, seen: Record)
    | HotRestart(order: seq<ClusterRef>)
    | Normal(c: ClusterRef)
    | Patch(c: ClusterRef)
    | Drop(c: ClusterRef)
    | Crash

  function ItemOf(r: Record): Item {
    Item(r.host, r.port, r.group)
  }

  predicate Lists(order: seq<ClusterRef>, store: map<ClusterRef, Record>) {
    && (forall c | c in order :: c in store)
    && (forall c | c in store :: c in order)
    && (forall i, j | 0 <= i < j < |order| :: order[i] != order[j])
  }

  function Items(order: seq<ClusterRef>, store: map<ClusterRef, Record>): (items: seq<Item>)
    requires forall c | c in order :: c in store
    ensures |items| == |order| && forall i | 0 <= i < |items| :: items[i] == ItemOf(store[order[i]])
  {
    seq(|order|, i requires 0 <= i < |order| => ItemOf(store[order[i]]))
  }

  /** A cached read may be of any age: it may miss writes that the API server has accepted, or show an object that
      has been deleted or recreated since. */
  predicate MayBeRead(s: Sys, c: ClusterRef, seen: Record) {
    || (c in s.store && seen == s.store[c])
    || (Named(c) && (seen.host == "" ==> seen.port == 0) && (seen.group == None || seen.group == Some(GroupOf(c))))
  }

  /** A merge patch: only the fields that the reconcile changed are written. */
  function Written(stored: Record, f: Flight): Record {
    Record(
      if f.local.host != f.before.host then f.local.host else stored.host,
      if f.local.port != f.before.port then f.local.port else stored.port,
      if f.local.group != f.before.group then f.local.group else stored.group)
  }

  /** `reconcileNormal`: the annotation first, then the listener, then an endpoint that is not yet set. */
  function Reconciled(r: Record, group: string, l: Option<Listener>): Record {
    var r1 := r.(group := Some(group));
    if l.Some? && r1.host == "" then r1.(host := l.value.host, port := l.value.port) else r1
  }

  predicate CanRun(s: Sys, a: Action) {
    match a
    case Create(c) => Named(c) && c !in s.store
    case Delete(c) => c in s.store
    case Begin(c, seen) => c !in s.flights && MayBeRead(s, c, seen)
    case HotRestart(order) => !s.done && Lists(order, s.store)
    case Normal(c) => s.done && c in s.flights
    case Patch(c) => c in s.flights
    case Drop(c) => c in s.flights
    case Crash => true
  }

  function Run(s: Sys, a: Action): Sys
    requires CanRun(s, a)
  {
    match a
    case Create(c) => s.(store := s.store[c := UNSET])
    case Delete(c) => s.(store := s.store - {c})
    case Begin(c, seen) => s.(flights := s.flights[c := Flight(seen, seen)])
    case HotRestart(order) =>
      var end := Restart(s.mux, Items(order, s.store));
      s.(mux := end.0, done := end.1)
    case Normal(c) =>
      var (m, l) := Init(s.mux, GroupOf(c));
      var f := s.flights[c];
      s.(mux := m, flights := s.flights[c := f.(local := Reconciled(f.local, GroupOf(c), l))])
    case Patch(c) =>
      var s1 := s.(flights := s.flights - {c});
      if c in s.store then s1.(store := s.store[c := Written(s.store[c], s.flights[c])]) else s1
    case Drop(c) => s.(flights := s.flights - {c})
    case Crash => s.(mux := Fresh(s.mux.host, s.mux.minPort, s.mux.maxPort), done := false, flights := map[])
  }

  function Start(host: string): Sys {
    Sys(map[], Fresh(host, MIN_PORT, MAX_PORT), false, map[])
  }

  ghost predicate Ran(before: Sys, a: Action, after: Sys) {
    CanRun(before, a) && after == Run(before, a)
  }

  ghost predicate IsHistory(host: string, run: seq<Sys>, acts: seq<Action>) {
    && |run| == |acts| + 1
    && run[0] == Start(host)
    && forall i | 0 <= i < |acts| :: Ran(run[i], acts[i], run[i + 1])
  }

  // ---------------------------------------------------------------- what every step keeps

  /** A stored record of `c`: nothing set, or an endpoint of the mux's host and range with its annotation. */
  ghost predicate Sane(m: State, c: ClusterRef, r: Record) {
    && (r.group == None || r.group == Some(GroupOf(c)))
    && (r.host == "" ==> r.port == 0)
    && (r.host != "" ==> r.host == m.host && m.minPort <= r.port <= m.maxPort && r.group.Some?)
  }

  ghost predicate Serves(m: State, c: ClusterRef, r: Record) {
    GroupOf(c) in m.listeners && m.listeners[GroupOf(c)] == Listener(r.host, r.port)
  }

  /** A flight's own view: a change of the endpoint is the listener's, and comes with the annotation. */
  ghost predicate Honest(s: Sys, c: ClusterRef, f: Flight) {
    && (f.before.host == "" ==> f.before.port == 0)
    && (f.before.group == None || f.before.group == Some(GroupOf(c)))
    && (f.local == f.before || (s.done && f.local.group == Some(GroupOf(c))))
    && ((f.local.host == f.before.host && f.local.port == f.before.port)
        || (f.before.host == "" && Serves(s.mux, c, f.local) && f.local.host == s.mux.host))
  }

  ghost predicate NoSharedPort(store: map<ClusterRef, Record>) {
    forall a, b | a in store && b in store && a != b && store[a].host != "" && store[b].host != "" ::
      store[a].port != store[b].port
  }

  ghost predicate StoreSane(s: Sys) {
    forall c | c in s.store :: Named(c) && Sane(s.mux, c, s.store[c])
  }

  ghost predicate FlightsSane(s: Sys) {
    forall c | c in s.flights :: Named(c) && Honest(s, c, s.flights[c])
  }

  ghost predicate AllServed(s: Sys) {
    forall c | c in s.store && s.store[c].host != "" :: Serves(s.mux, c, s.store[c])
  }

  ghost predicate Inv(s: Sys) {
    && s.mux.host != "" && Sound(s.mux)
    && StoreSane(s) && FlightsSane(s) && NoSharedPort(s.store)
    && (s.done ==> AllServed(s))
    && (!s.done ==> s.mux == Fresh(s.mux.host, s.mux.minPort, s.mux.maxPort))
  }

  /** A listing of a sane store can be restarted from. */
  lemma ListingFits(s: Sys, order: seq<ClusterRef>)
    requires StoreSane(s) && NoSharedPort(s.store) && Lists(order, s.store)
    ensures var items := Items(order, s.store);
            AllRestartable(s.mux.host, items) && DistinctGroups(items) && DistinctPorts(items)
            && forall c | c in items && c.host != "" :: s.mux.minPort <= c.port <= s.mux.maxPort
  {
    var items := Items(order, s.store);
    forall c | c in items
      ensures Restartable(s.mux.host, c) && (c.host != "" ==> s.mux.minPort <= c.port <= s.mux.maxPort)
    {
      var i :| 0 <= i < |items| && items[i] == c;
      assert order[i] in s.store;
    }
    forall i, j | 0 <= i < j < |items| && items[i].host != "" && items[j].host != ""
      ensures items[i].group != items[j].group && items[i].port != items[j].port
    {
      assert order[i] in s.store && order[j] in s.store;
      GroupOfInjective(order[i], order[j]);
    }
  }

  lemma RestoredServes(s: Sys, order: seq<ClusterRef>, t: State)
    requires StoreSane(s) && Lists(order, s.store) && t.host == s.mux.host && Restored(t, Items(order, s.store))
    ensures AllServed(s.(mux := t))
  {
    var items := Items(order, s.store);
    forall c | c in s.store && s.store[c].host != ""
      ensures Serves(t, c, s.store[c])
    {
      var i :| 0 <= i < |order| && order[i] == c;
      assert items[i] in items;
      assert ListenerOf(t, items[i].group.value, items[i]);
    }
  }

  /** Hot restart on the fresh mux always succeeds, and every persisted endpoint is its listener's again. */
  lemma HotRestartServes(s: Sys, order: seq<ClusterRef>)
    requires Inv(s) && CanRun(s, HotRestart(order))
    ensures var t := Run(s, HotRestart(order));
            t.done && Sound(t.mux) && AllServed(t) && t.mux.host == s.mux.host
            && t.mux.minPort == s.mux.minPort && t.mux.maxPort == s.mux.maxPort
  {
    var m, items := s.mux, Items(order, s.store);
    ListingFits(s, order);
    var t := RestartSound(m.host, m.minPort, m.maxPort, items);
    var same := RestartRestores(m.host, m.minPort, m.maxPort, items);
    RestoredServes(s, order, t);
  }

  lemma NormalKeeps(s: Sys, c: ClusterRef)
    requires Inv(s) && CanRun(s, Normal(c))
    ensures Inv(Run(s, Normal(c)))
  {
    InitKeeps(s.mux, GroupOf(c));
    var t := Run(s, Normal(c));
    assert t.mux.host == s.mux.host && t.mux.minPort == s.mux.minPort && t.mux.maxPort == s.mux.maxPort;
    assert forall d | d in t.flights :: Honest(t, d, t.flights[d]);
  }

  /** The guard of a patch: it writes no endpoint, or the annotation is there, or it writes that too. */
  predicate Annotated(s: Sys, a: Action)
    requires CanRun(s, a)
  {
    a.Patch? && a.c in s.store ==>
      var r, f := s.store[a.c], s.flights[a.c];
      f.local.host == f.before.host || r.group.Some? || f.before.group == None
  }

  /** A patch never changes a set endpoint, writes one only as its listener has it, and leaves a sane record if
      and only if it meets its guard. */
  lemma PatchSane(s: Sys, c: ClusterRef)
    requires Inv(s) && CanRun(s, Patch(c)) && c in s.store
    ensures var r := Written(s.store[c], s.flights[c]);
            && (Sane(s.mux, c, r) <==> Annotated(s, Patch(c)))
            && (r.host != "" && s.done ==> Serves(s.mux, c, r))
            && (r == s.store[c] || s.done)
            && (s.store[c].host != "" ==> r == s.store[c])
  {
    assert Honest(s, c, s.flights[c]) && Sane(s.mux, c, s.store[c]);
  }

  lemma PatchKeeps(s: Sys, c: ClusterRef)
    requires Inv(s) && CanRun(s, Patch(c))
    ensures Inv(Run(s, Patch(c))) <==> Annotated(s, Patch(c))
  {
    var t := Run(s, Patch(c));
    if c in s.store {
      PatchSane(s, c);
      assert t.store[c] == Written(s.store[c], s.flights[c]);
      if s.done && Annotated(s, Patch(c)) {
        assert AllServed(t);
        PortsApart(t);
      }
    }
  }

  /** Listeners keep the endpoints that they serve apart. */
  lemma PortsApart(s: Sys)
    requires Sound(s.mux) && AllServed(s) && forall c | c in s.store :: Named(c)
    ensures NoSharedPort(s.store)
  {
    forall a, b | a in s.store && b in s.store && a != b && s.store[a].host != "" && s.store[b].host != ""
      ensures s.store[a].port != s.store[b].port
    {
      GroupOfInjective(a, b);
      if s.store[a].port == s.store[b].port { PortsDistinct(s.mux, GroupOf(a), GroupOf(b)); }
    }
  }

  lemma UserStepKeeps(s: Sys, a: Action)
    requires Inv(s) && CanRun(s, a) && (a.Create? || a.Delete?)
    ensures Inv(Run(s, a)) && Run(s, a).mux == s.mux
  {
  }

  lemma FlightStepKeeps(s: Sys, a: Action)
    requires Inv(s) && CanRun(s, a) && (a.Begin? || a.Drop?)
    ensures Inv(Run(s, a)) && Run(s, a).mux == s.mux
  {
  }

  lemma HotRestartKeeps(s: Sys, a: Action)
    requires Inv(s) && CanRun(s, a) && a.HotRestart?
    ensures Inv(Run(s, a)) && Run(s, a).mux.host == s.mux.host
  {
    HotRestartServes(s, a.order);
  }

  /** Every step keeps the invariant, a patch if and only if it meets its guard. */
  lemma StepKeeps(s: Sys, a: Action)
    requires Inv(s) && CanRun(s, a)
    ensures Inv(Run(s, a)) <==> Annotated(s, a)
    ensures Run(s, a).mux.host == s.mux.host
  {
    match a
    case HotRestart(_) => HotRestartKeeps(s, a);
    case Normal(c) => NormalKeeps(s, c);
    case Patch(c) => PatchKeeps(s, c);
    case Crash => FreshSound(s.mux.host, s.mux.minPort, s.mux.maxPort);
    case Create(_) => UserStepKeeps(s, a);
    case Delete(_) => UserStepKeeps(s, a);
    case Begin(_, _) => FlightStepKeeps(s, a);
    case Drop(_) => FlightStepKeeps(s, a);
  }

  ghost predicate AnnotatedUpTo(run: seq<Sys>, acts: seq<Action>, n: nat)
    requires n <= |acts| < |run|
  {
    forall i | 0 <= i < n :: CanRun(run[i], acts[i]) && Annotated(run[i], acts[i])
  }

  lemma {:induction false} HistoryKeeps(host: string, run: seq<Sys>, acts: seq<Action>, i: nat)
    requires host != "" && IsHistory(host, run, acts) && i < |run| && AnnotatedUpTo(run, acts, i)
    ensures Inv(run[i]) && run[i].mux.host == host
  {
    if i == 0 {
      FreshSound(host, MIN_PORT, MAX_PORT);
    } else {
      HistoryKeeps(host, run, acts, i - 1);
      assert Ran(run[i - 1], acts[i - 1], run[i - 1 + 1]);
      StepKeeps(run[i - 1], acts[i - 1]);
    }
  }

  // ---------------------------------------------------------------- endpoints over whole runs

  /** No step changes a record that has an endpoint. */
  lemma StepStable(s: Sys, a: Action, c: ClusterRef)
    requires Inv(s) && CanRun(s, a) && c in s.store && s.store[c].host != ""
    ensures c in Run(s, a).store ==> Run(s, a).store[c] == s.store[c]
  {
    if a == Patch(c) { PatchSane(s, c); }
  }

  lemma StableAt(host: string, run: seq<Sys>, acts: seq<Action>, k: nat, c: ClusterRef)
    requires host != "" && IsHistory(host, run, acts) && k < |acts| && AnnotatedUpTo(run, acts, k)
    requires c in run[k].store && run[k].store[c].host != "" && c in run[k + 1].store
    ensures run[k + 1].store[c] == run[k].store[c]
  {
    HistoryKeeps(host, run, acts, k);
    assert Ran(run[k], acts[k], run[k + 1]);
    StepStable(run[k], acts[k], c);
  }

  /** As long as the cluster is not deleted, its endpoint stays, whatever runs or crashes in between. */
  lemma {:induction false} EndpointStable(host: string, run: seq<Sys>, acts: seq<Action>, i: nat, j: nat, c: ClusterRef)
    requires host != "" && IsHistory(host, run, acts) && i <= j < |run| && AnnotatedUpTo(run, acts, j)
    requires forall k | i <= k <= j :: c in run[k].store
    requires run[i].store[c].host != ""
    ensures run[j].store[c] == run[i].store[c]
    decreases j
  {
    if i < j {
      EndpointStable(host, run, acts, i, j - 1, c);
      StableAt(host, run, acts, j - 1, c);
    }
  }

  /** In every reachable state, endpoints of different clusters are different addresses. */
  lemma EndpointsDiffer(host: string, run: seq<Sys>, acts: seq<Action>, i: nat, a: ClusterRef, b: ClusterRef)
    requires host != "" && IsHistory(host, run, acts) && i < |run| && AnnotatedUpTo(run, acts, i)
    requires a in run[i].store && b in run[i].store && run[i].store[a].host != "" && run[i].store[b].host != ""
    ensures var la, lb := Listener(run[i].store[a].host, run[i].store[a].port),
                          Listener(run[i].store[b].host, run[i].store[b].port);
            la.HostPort() == lb.HostPort() <==> a == b
  {
    HistoryKeeps(host, run, acts, i);
    HostPortInjective(Listener(run[i].store[a].host, run[i].store[a].port),
                      Listener(run[i].store[b].host, run[i].store[b].port));
  }

  /** Whenever a hot restart is attempted, it succeeds, and the next state serves every persisted endpoint. */
  lemma RestartAlwaysSucceeds(host: string, run: seq<Sys>, acts: seq<Action>, i: nat)
    requires host != "" && IsHistory(host, run, acts) && i < |acts| && acts[i].HotRestart? && AnnotatedUpTo(run, acts, i)
    ensures run[i + 1].done && AllServed(run[i + 1])
  {
    HistoryKeeps(host, run, acts, i);
    assert Ran(run[i], acts[i], run[i + 1]);
    HotRestartServes(run[i], acts[i].order);
  }

  /** Once the hot restart is done, a request to the endpoint that a cluster was ever given reaches that
      cluster's resource group, however many crashes later. */
  lemma RequestsReachTheirCluster(host: string, run: seq<Sys>, acts: seq<Action>, i: nat, j: nat, c: ClusterRef)
    requires host != "" && IsHistory(host, run, acts) && i <= j < |run| && AnnotatedUpTo(run, acts, j)
    requires forall k | i <= k <= j :: c in run[k].store
    requires run[i].store[c].host != "" && run[j].done
    ensures var l := Listener(run[i].store[c].host, run[i].store[c].port);
            Resolve(run[j].mux, l.HostPort()) == Some(GroupOf(c))
  {
    EndpointStable(host, run, acts, i, j, c);
    HistoryKeeps(host, run, acts, j);
    assert Serves(run[j].mux, c, run[j].store[c]);
  }

  // ---------------------------------------------------------------- when patches meet their guard

  /** The cached read may miss writes that the API server has already accepted. */
  predicate MayLag(seen: Record, stored: Record) {
    && (seen.group == None || seen.group == stored.group)
    && ((seen.host == "" && seen.port == 0) || (seen.host == stored.host && seen.port == stored.port))
  }

  /** Reads are of the object as it is or was, and nobody recreates an object under a reconcile that has read its
      annotation but no endpoint. */
  predicate Gentle(s: Sys, a: Action) {
    match a
    case Create(c) => c in s.flights ==> s.flights[c].before.host != "" || s.flights[c].before.group == None
    case Begin(c, seen) => c in s.store && MayLag(seen, s.store[c])
    case _ => true
  }

  /** An annotation that a reconcile without an endpoint has read is there. */
  ghost predicate Behind(s: Sys) {
    forall c | c in s.flights && c in s.store && s.flights[c].before.host == "" && s.flights[c].before.group.Some? ::
      s.store[c].group.Some?
  }

  lemma GentleStep(s: Sys, a: Action)
    requires Inv(s) && Behind(s) && CanRun(s, a) && Gentle(s, a)
    ensures Annotated(s, a) && Behind(Run(s, a))
  {
    if a.Patch? { assert Honest(s, a.c, s.flights[a.c]); }
  }

  /** Gentle histories need no other guard. */
  lemma {:induction false} GentleIsAnnotated(host: string, run: seq<Sys>, acts: seq<Action>, n: nat)
    requires host != "" && IsHistory(host, run, acts) && n <= |acts|
    requires forall i | 0 <= i < n :: Gentle(run[i], acts[i])
    ensures AnnotatedUpTo(run, acts, n) && Inv(run[n]) && Behind(run[n])
  {
    if n == 0 {
      HistoryKeeps(host, run, acts, 0);
    } else {
      GentleIsAnnotated(host, run, acts, n - 1);
      assert Ran(run[n - 1], acts[n - 1], run[n - 1 + 1]);
      GentleStep(run[n - 1], acts[n - 1]);
      StepKeeps(run[n - 1], acts[n - 1]);
    }
  }

  // ---------------------------------------------------------------- when one does not

  /** A crash with an endpoint stored without its annotation: no reconcile has got past the hot restart. */
  ghost predicate Stuck(s: Sys, c: ClusterRef) {
    && !s.done
    && c in s.store && s.store[c].host != "" && s.store[c].group == None
    && forall d | d in s.flights :: s.flights[d].local == s.flights[d].before
  }

  /** From there, every hot restart fails, and nothing but the object's deletion helps. */
  lemma StuckStays(s: Sys, a: Action, c: ClusterRef)
    requires Stuck(s, c) && CanRun(s, a) && a != Delete(c)
    ensures Stuck(Run(s, a), c)
  {
    if a.HotRestart? {
      var i :| 0 <= i < |a.order| && a.order[i] == c;
      var items := Items(a.order, s.store);
      assert items[i] in items && !Restartable(s.mux.host, items[i]);
      RestartSucceedsWhen(s.mux, items);
      RestartItemsFrame(s.mux, items, s.mux.minPort - 1);
    }
  }

  lemma {:induction false} StuckForGood(host: string, run: seq<Sys>, acts: seq<Action>, i: nat, j: nat, c: ClusterRef)
    requires IsHistory(host, run, acts) && i <= j < |run| && Stuck(run[i], c)
    requires forall k | i <= k < j :: acts[k] != Delete(c)
    ensures Stuck(run[j], c)
    decreases j
  {
    if i < j {
      StuckForGood(host, run, acts, i, j - 1, c);
      assert Ran(run[j - 1], acts[j - 1], run[j - 1 + 1]);
      StuckStays(run[j - 1], acts[j - 1], c);
    }
  }

  /** A patch that misses its guard, and a crash before the next reconcile of the object: stuck. */
  lemma UnannotatedSticks(s: Sys, c: ClusterRef)
    requires Inv(s) && CanRun(s, Patch(c)) && !Annotated(s, Patch(c))
    ensures Stuck(Run(Run(s, Patch(c)), Crash), c)
  {
    assert Honest(s, c, s.flights[c]);
  }

  lemma {:induction false} SomeOrder(store: map<ClusterRef, Record>) returns (order: seq<ClusterRef>)
    ensures Lists(order, store)
    decreases |store.Keys|
  {
    if store == map[] {
      order := [];
    } else {
      var c :| c in store;
      var rest := store - {c};
      assert rest.Keys == store.Keys - {c};
      order := SomeOrder(rest);
      order := [c] + order;
    }
  }

  /** A GoofyCluster recreated under a reconcile that has an endpoint to write or has read one: after that
      reconcile's patch and a crash, every hot restart succeeds if and only if the reconcile had read an endpoint
      or no annotation. */
  lemma RecreatedMidFlight(s: Sys, c: ClusterRef)
    requires Inv(s) && CanRun(s, Create(c)) && c in s.flights && s.flights[c].local.host != ""
    ensures var s1 := Run(s, Create(c));
            CanRun(s1, Patch(c))
            && var s2 := Run(Run(s1, Patch(c)), Crash);
               (forall order | Lists(order, s2.store) :: Run(s2, HotRestart(order)).done)
               <==> s.flights[c].before.host != "" || s.flights[c].before.group == None
  {
    assert Honest(s, c, s.flights[c]);
    var s1 := Run(s, Create(c));
    UserStepKeeps(s, Create(c));
    var s2 := Run(Run(s1, Patch(c)), Crash);
    if s.flights[c].before.host != "" || s.flights[c].before.group == None {
      StepKeeps(s1, Patch(c));
      StepKeeps(Run(s1, Patch(c)), Crash);
      forall order | Lists(order, s2.store) ensures Run(s2, HotRestart(order)).done { HotRestartServes(s2, order); }
    } else {
      UnannotatedSticks(s1, c);
      var order := SomeOrder(s2.store);
      StuckStays(s2, HotRestart(order), c);
    }
  }

  // ---------------------------------------------------------------- a history that gets stuck

  lemma Extend(host: string, run: seq<Sys>, acts: seq<Action>, a: Action) returns (run': seq<Sys>, acts': seq<Action>)
    requires IsHistory(host, run, acts) && CanRun(run[|run| - 1], a)
    ensures IsHistory(host, run', acts') && |run'| == |run| + 1 && run'[|run'| - 1] == Run(run[|run| - 1], a)
  {
    run', acts' := run + [Run(run[|run| - 1], a)], acts + [a];
    forall i | 0 <= i < |acts'|
      ensures Ran(run'[i], acts'[i], run'[i + 1])
    {
      if i < |acts| { assert Ran(run[i], acts[i], run[i + 1]); }
    }
  }

  /** Clusters told apart by the length of their names. */
  function Nth(k: nat): ClusterRef {
    ClusterRef("", seq(k + 1, _ => 'a'))
  }

  /** Nothing is stored, and `k` ports are gone. */
  ghost predicate UsedUp(s: Sys, host: string, k: nat) {
    && s.store == map[] && s.done && s.flights == map[]
    && s.mux.host == host && s.mux.minPort == MIN_PORT && s.mux.maxPort == MAX_PORT && s.mux.portIndex == MIN_PORT + k
    && forall n | n in s.mux.listeners :: |n| <= k
  }

  lemma OneMorePort(s: Sys, host: string, k: nat)
    requires UsedUp(s, host, k) && MIN_PORT + k <= MAX_PORT
    ensures var c := Nth(k);
            && CanRun(s, Create(c)) && CanRun(Run(s, Create(c)), Begin(c, UNSET))
            && var s2 := Run(Run(s, Create(c)), Begin(c, UNSET));
            && CanRun(s2, Normal(c)) && CanRun(Run(s2, Normal(c)), Drop(c))
            && var s4 := Run(Run(s2, Normal(c)), Drop(c));
            && CanRun(s4, Delete(c)) && UsedUp(Run(s4, Delete(c)), host, k + 1)
  {
    assert GroupOf(Nth(k)) !in s.mux.listeners;
    assert map[Nth(k) := UNSET] - {Nth(k)} == map[];
  }

  /** Ports of deleted clusters are not used again before a restart. */
  lemma {:induction false} UseUp(host: string, k: nat) returns (run: seq<Sys>, acts: seq<Action>)
    requires MIN_PORT + k <= MAX_PORT + 1
    ensures IsHistory(host, run, acts) && UsedUp(run[|run| - 1], host, k)
  {
    if k == 0 {
      run, acts := Extend(host, [Start(host)], [], HotRestart([]));
    } else {
      run, acts := UseUp(host, k - 1);
      var c := Nth(k - 1);
      OneMorePort(run[|run| - 1], host, k - 1);
      run, acts := Extend(host, run, acts, Create(c));
      run, acts := Extend(host, run, acts, Begin(c, UNSET));
      run, acts := Extend(host, run, acts, Normal(c));
      run, acts := Extend(host, run, acts, Drop(c));
      run, acts := Extend(host, run, acts, Delete(c));
    }
  }

  /** With no port left, the first reconcile of a cluster leaves its annotation alone. */
  lemma AnnotationAlone(s: Sys, host: string, c: ClusterRef)
    requires UsedUp(s, host, MAX_PORT + 1 - MIN_PORT) && c == Nth(MAX_PORT + 1 - MIN_PORT)
    ensures var noEndpoint := Record("", 0, Some(GroupOf(c)));
            && CanRun(s, Create(c)) && CanRun(Run(s, Create(c)), Begin(c, UNSET))
            && var s2 := Run(Run(s, Create(c)), Begin(c, UNSET));
            && CanRun(s2, Normal(c)) && CanRun(Run(s2, Normal(c)), Patch(c))
            && Run(Run(Run(s2, Normal(c)), Patch(c)), Crash)
               == Start(host).(store := map[c := noEndpoint])
  {
    assert GroupOf(c) !in s.mux.listeners;
  }

  /** The next process has nothing to restart from. */
  lemma RestartsFresh(host: string, c: ClusterRef)
    ensures var s0 := Start(host).(store := map[c := Record("", 0, Some(GroupOf(c)))]);
            CanRun(s0, HotRestart([c])) && Run(s0, HotRestart([c])) == s0.(done := true)
  {
    var s0 := Start(host).(store := map[c := Record("", 0, Some(GroupOf(c)))]);
    assert Items([c], s0.store) == [ItemOf(s0.store[c])];
    assert RestartItems(s0.mux, Items([c], s0.store), MIN_PORT - 1) == Loop(s0.mux, true, MIN_PORT - 1);
  }

  /** It reconciles the object, which is deleted and created again before the patch. */
  lemma RecreationSticks(s1: Sys, host: string, c: ClusterRef)
    requires host != "" && Named(c)
    requires s1 == Start(host).(store := map[c := Record("", 0, Some(GroupOf(c)))], done := true)
    ensures CanRun(s1, Begin(c, Record("", 0, Some(GroupOf(c)))))
            && var s2 := Run(s1, Begin(c, Record("", 0, Some(GroupOf(c)))));
            && CanRun(s2, Normal(c)) && CanRun(Run(s2, Normal(c)), Delete(c))
            && var s4 := Run(Run(s2, Normal(c)), Delete(c));
            && CanRun(s4, Create(c)) && CanRun(Run(s4, Create(c)), Patch(c))
            && Stuck(Run(Run(Run(s4, Create(c)), Patch(c)), Crash), c)
  {
  }

  /** Such a history exists: all ports used up once, an annotation alone, a crash, a recreation mid-flight, a crash. */
  lemma RecreationCanStick(host: string) returns (run: seq<Sys>, acts: seq<Action>, c: ClusterRef)
    requires host != ""
    ensures IsHistory(host, run, acts) && Stuck(run[|run| - 1], c)
  {
    c := Nth(MAX_PORT + 1 - MIN_PORT);
    run, acts := UseUp(host, MAX_PORT + 1 - MIN_PORT);
    AnnotationAlone(run[|run| - 1], host, c);
    RestartsFresh(host, c);
    RecreationSticks(Start(host).(store := map[c := Record("", 0, Some(GroupOf(c)))], done := true), host, c);
    run, acts := Extend(host, run, acts, Create(c));
    run, acts := Extend(host, run, acts, Begin(c, UNSET));
    run, acts := Extend(host, run, acts, Normal(c));
    run, acts := Extend(host, run, acts, Patch(c));
    run, acts := Extend(host, run, acts, Crash);
    run, acts := Extend(host, run, acts, HotRestart([c]));
    run, acts := Extend(host, run, acts, Begin(c, Record("", 0, Some(GroupOf(c)))));
    run, acts := Extend(host, run, acts, Normal(c));
    run, acts := Extend(host, run, acts, Delete(c));
    run, acts := Extend(host, run, acts, Create(c));
    run, acts := Extend(host, run, acts, Patch(c));
    run, acts := Extend(host, run, acts, Crash);
  }

  // ---------------------------------------------------------------- the program

  /** A reconcile that nothing interleaves with: read, act, patch. */
  ghost function Uninterrupted(s: Sys, c: ClusterRef): Sys
    requires s.done && s.flights == map[] && c in s.store
  {
    Run(Run(Run(s, Begin(c, s.store[c])), Normal(c)), Patch(c))
  }

  lemma UninterruptedIs(s: Sys, c: ClusterRef, after: Record)
    requires s.done && s.flights == map[] && c in s.store
    requires after == Reconciled(s.store[c], GroupOf(c), Init(s.mux, GroupOf(c)).1)
    ensures Uninterrupted(s, c).store == s.store[c := Written(s.store[c], Flight(s.store[c], after))]
    ensures Uninterrupted(s, c).mux == Init(s.mux, GroupOf(c)).0
    ensures Uninterrupted(s, c).done && Uninterrupted(s, c).flights == map[]
  {
  }

  /** A patch writes the fields in which the reconcile's copy differs from what it read, to this record alone. */
  lemma PatchMerges(s: Sys, c: ClusterRef)
    requires CanRun(s, Patch(c)) && c in s.store
    ensures var t, r, f := Run(s, Patch(c)), s.store[c], s.flights[c];
            && t.mux == s.mux && t.done == s.done && t.flights == s.flights - {c}
            && t.store.Keys == s.store.Keys && (forall d | d in s.store && d != c :: t.store[d] == s.store[d])
            && t.store[c].host == (if f.local.host == f.before.host then r.host else f.local.host)
            && t.store[c].port == (if f.local.port == f.before.port then r.port else f.local.port)
            && t.store[c].group == (if f.local.group == f.before.group then r.group else f.local.group)
  {
  }

  /** A reconcile of a cluster without an endpoint that nothing interrupts: the record gets the annotation, and as
      its endpoint that of the group's listener, or of a new one at the next port. With the ports used up it gets
      the annotation alone. */
  lemma FirstReconcile(s: Sys, c: ClusterRef, g: string)
    requires Inv(s) && s.done && s.flights == map[] && c in s.store && s.store[c].host == ""
    requires g == if c.namespace == "" then c.name else c.namespace + "/" + c.name
    ensures var t, m := Uninterrupted(s, c), s.mux;
            && t.flights == map[] && t.done
            && t.store == s.store[c := t.store[c]] && t.store[c].group == Some(g)
            && (if g in m.listeners then
                  && t.mux == m
                  && t.store[c].host == m.listeners[g].host && t.store[c].port == m.listeners[g].port
                else if m.portIndex <= m.maxPort then
                  && t.mux.portIndex == m.portIndex + 1
                  && t.mux.listeners == m.listeners[g := Listener(m.host, m.portIndex)]
                  && t.store[c].host == m.host && t.store[c].port == m.portIndex
                else t.mux == m && t.store[c].host == "" && t.store[c].port == 0)
  {
    InitKeeps(s.mux, g);
    UninterruptedIs(s, c, Reconciled(s.store[c], g, Init(s.mux, g).1));
  }

  /** A reconcile of a cluster with an endpoint that nothing interrupts changes nothing. */
  lemma LaterReconcile(s: Sys, c: ClusterRef)
    requires Inv(s) && s.done && s.flights == map[] && c in s.store && s.store[c].host != ""
    ensures Uninterrupted(s, c) == s
  {
    assert Serves(s.mux, c, s.store[c]);
    UninterruptedIs(s, c, s.store[c]);
  }

  class GoofyClusterReconciler {
    const mux: WorkloadClustersMux
    var hotRestartDone: bool

    constructor (mux: WorkloadClustersMux)
      ensures this.mux == mux && !hotRestartDone
    {
      this.mux, hotRestartDone := mux, false;
    }

    ghost function Value(store: map<ClusterRef, Record>): Sys
      reads this, mux
    {
      Sys(store, mux.Value(), hotRestartDone, map[])
    }

    method ReconcileHotRestart(items: seq<Item>) returns (ok: bool)
      modifies this, mux
      ensures if old(hotRestartDone) then ok && hotRestartDone && mux.Value() == old(mux.Value())
              else (mux.Value(), ok) == Restart(old(mux.Value()), items) && hotRestartDone == ok
    {
      if hotRestartDone { return true; }
      ok := mux.HotRestart(items);
      if !ok { return; }
      hotRestartDone := true;
    }

    method ReconcileNormal(cluster: ClusterRef, goofyCluster: Record) returns (after: Record, ok: bool)
      modifies mux
      ensures var (m, l) := Init(old(mux.Value()), GroupOf(cluster));
              mux.Value() == m && ok == l.Some? && after == Reconciled(goofyCluster, GroupOf(cluster), l)
      ensures after.group == Some(GroupOf(cluster))
      ensures goofyCluster.host != "" || !ok ==> after.host == goofyCluster.host && after.port == goofyCluster.port
      ensures ok ==>
                && GroupOf(cluster) in mux.workloadClusterListeners
                && (goofyCluster.host == "" ==>
                      Listener(after.host, after.port) == mux.workloadClusterListeners[GroupOf(cluster)])
    {
      var resourceGroup := GroupOf(cluster);
      after := goofyCluster.(group := Some(resourceGroup));
      var listener := mux.InitWorkloadClusterListener(resourceGroup);
      if listener.None? { return after, false; }
      if after.host == "" {
        after := after.(host := listener.value.host, port := listener.value.port);
      }
      return after, true;
    }

    /** One reconcile on the API server's objects takes the steps of the protocol. Without the object or an owner it
        does nothing; when the hot restart fails the object is not patched; a missing finalizer or a deletion comes
        before everything else; when the ports are used up the patch has the annotation alone. */
    method Reconcile(store: map<ClusterRef, Record>, order: seq<ClusterRef>, c: ClusterRef,
                     hasOwner: bool, hasFinalizer: bool, deleting: bool)
      returns (store': map<ClusterRef, Record>, ok: bool)
      requires Lists(order, store)
      modifies this, mux
      ensures var s0 := old(Value(store));
              if c !in store || !hasOwner then ok && Value(store') == s0
              else
                var s1 := if s0.done then s0 else Run(s0, HotRestart(order));
                if !s1.done then !ok && Value(store') == s1
                else if !hasFinalizer || deleting then
                  ok && Value(store') == Run(Run(s1, Begin(c, store[c])), Patch(c))
                else Value(store') == Uninterrupted(s1, c)
    {
      if c !in store || !hasOwner { return store, true; }
      ok := ReconcileHotRestart(Items(order, store));
      if !ok { return store, false; }
      ghost var s1 := Value(store);
      var after := store[c];
      if !hasFinalizer || deleting {
        assert store[c := store[c]] == store;
      } else {
        after, ok := ReconcileNormal(c, store[c]);
        UninterruptedIs(s1, c, after);
      }
      store' := store[c := Written(store[c], Flight(store[c], after))];
    }
  }
}

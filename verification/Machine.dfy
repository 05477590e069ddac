/** One resource group over time: clients, the garbage collector and the syncer, in any interleaving. */
module Machine {
  import opened Text
  import opened Objects
  import opened Tracker
  import opened Ownership
  import opened Cascade
  import opened Closure
  import opened Deletion
  import opened Forest

  /** `t.gc` are the queued collection requests, `delayed` those waiting to be queued again, `workers` and
      `callers` those held by a worker or by a Delete between its locked section and its queue add.
      For the statements only: `byDelete` are the objects the delete path has marked, `rank` numbers
      incarnations in order of creation. */
  datatype Group = Group(
    t: State,
    delayed: set<Ref>,
    workers: multiset<Ref>,
    callers: multiset<Ref>,
    syncQueue: set<Ref>,
    byDelete: set<Ref>,
    rank: map<Ref, nat>,
    next: nat)

  const INITIAL := Group(EMPTY, {}, multiset{}, multiset{}, {}, {}, map[], 0)

  /** `ord` is the visiting order and `o` the outcome of a cascade. */
  datatype Action =
    | Create(obj: Obj, now: int)
    | Update(obj: Obj, now: int)
    | DeleteSection(x: Ref, now: int, ord: Order, o: Outcome)
    | DeleteEnqueue(x: Ref)
    | GcTake(x: Ref)
    | GcRun(x: Ref, now: int, ord: Order, o: Outcome)
    | GcWake(x: Ref)
    | SyncScan(now: int, period: int)
    | SyncRun(x: Ref, now: int)

  /** The scan's test for an object that needs syncing. */
  predicate SyncDue(obj: Obj, now: int, period: int) {
    obj.lastSync.None? || obj.lastSync.value * SECOND <= now - period
  }

  function DueRefs(objs: map<Ref, Obj>, now: int, period: int): set<Ref> {
    set r | r in objs && SyncDue(objs[r], now, period)
  }

  /** An object is due when it was never synced, or when the period has passed since the second of its last sync. */
  lemma DueIff(objs: map<Ref, Obj>, now: int, period: int, x: Ref)
    ensures x in DueRefs(objs, now, period)
       <==> x in objs && (objs[x].lastSync == None || now >= objs[x].lastSync.value * 1_000_000_000 + period)
  {
  }

  function MarkedBy(byDelete: set<Ref>, s: State, t: State): set<Ref> {
    set r | r in t.objs && (r in byDelete || (r in s.objs && s.objs[r].deletion.None? && t.objs[r].deletion.Some?))
  }

  function AfterCascade(g: Group, s: State): Group {
    g.(t := s, byDelete := MarkedBy(g.byDelete, g.t, s))
  }

  ghost predicate CanRun(g: Group, a: Action) {
    match a
    case Create(_, _) => true
    case Update(_, _) => true
    case DeleteSection(x, now, ord, o) => IsOrder(ord) && Ends(g.t, x, now, ord, o)
    case DeleteEnqueue(x) => x in g.callers
    case GcTake(x) => x in g.t.gc
    case GcRun(x, now, ord, o) => x in g.workers && IsOrder(ord) && Ends(g.t, x, now, ord, o)
    case GcWake(x) => x in g.delayed
    case SyncScan(_, _) => true
    case SyncRun(x, _) => x in g.syncQueue
  }

  ghost function Run(g: Group, a: Action): Group
    requires CanRun(g, a)
  {
    match a
    case Create(obj, now) =>
      var (s, err) := Store(g.t, obj, false, now);
      if err.Some? then g
      else g.(t := s, rank := g.rank[obj.Id() := g.next], next := g.next + 1, byDelete := g.byDelete - {obj.Id()})
    case Update(obj, now) =>
      g.(t := Store(g.t, obj, true, now).0)
    case DeleteSection(x, now, ord, o) =>
      AfterCascade(g, o.s).(callers := if o.err.None? && !o.deleted then g.callers + multiset{x} else g.callers)
    case DeleteEnqueue(x) =>
      g.(t := g.t.(gc := g.t.gc + {x}), callers := g.callers - multiset{x})
    case GcTake(x) =>
      g.(t := g.t.(gc := g.t.gc - {x}), workers := g.workers + multiset{x})
    case GcRun(x, now, ord, o) =>
      AfterCascade(g, o.s).(
        workers := g.workers - multiset{x},
        delayed := if o.err.None? && o.deleted then g.delayed else g.delayed + {x})
    case GcWake(x) =>
      g.(t := g.t.(gc := g.t.gc + {x}), delayed := g.delayed - {x})
    case SyncScan(now, period) =>
      g.(syncQueue := g.syncQueue + DueRefs(g.t.objs, now, period))
    case SyncRun(x, now) =>
      g.(t := Sync(g.t, x, now), syncQueue := g.syncQueue - {x})
  }

  /** A finite history: `run[i + 1]` is `run[i]` after `acts[i]`. */
  ghost predicate IsHistory(run: seq<Group>, acts: seq<Action>) {
    && |run| == |acts| + 1
    && run[0] == INITIAL
    && (forall i | 0 <= i < |acts| :: Takes(run, acts, i))
  }

  ghost predicate Takes(run: seq<Group>, acts: seq<Action>, i: nat)
    requires i < |acts| < |run|
  {
    CanRun(run[i], acts[i]) && run[i + 1] == Run(run[i], acts[i])
  }

  lemma StepOf(run: seq<Group>, acts: seq<Action>, i: nat)
    requires IsHistory(run, acts) && i < |acts|
    ensures CanRun(run[i], acts[i]) && run[i + 1] == Run(run[i], acts[i])
  {
    assert Takes(run, acts, i);
  }

  lemma LongerHistory(run: seq<Group>, acts: seq<Action>, a: Action, g: Group)
    requires IsHistory(run, acts) && CanRun(run[|run| - 1], a) && g == Run(run[|run| - 1], a)
    ensures IsHistory(run + [g], acts + [a])
  {
    var more, steps := run + [g], acts + [a];
    forall i | 0 <= i < |steps|
      ensures Takes(more, steps, i)
    {
      if i < |acts| {
        assert Takes(run, acts, i);
      } else {
        assert more[i] == run[|run| - 1] && steps[i] == a;
      }
    }
  }

  // ---------------------------------------------------------------- structure and referential integrity

  lemma SyncKeeps(s: State, x: Ref, now: int)
    requires WellKept(s)
    ensures WellKept(Sync(s, x, now))
    ensures Complete(s) && OwnersTracked(s) ==> Complete(Sync(s, x, now)) && OwnersTracked(Sync(s, x, now))
  {
    var t := Sync(s, x, now);
    assert t.objs.Keys == s.objs.Keys && t.idx == s.idx;
    forall r | r in s.objs
      ensures t.objs[r].owners == s.objs[r].owners && t.objs[r].Id() == s.objs[r].Id()
      ensures t.objs[r].deletion == s.objs[r].deletion
      ensures OwnersOk(t.objs, t.objs[r]) <==> OwnersOk(s.objs, s.objs[r])
      ensures forall q :: ListsOwner(t.objs[r], q) <==> ListsOwner(s.objs[r], q)
    {
    }
  }

  lemma StepWellKept(g: Group, a: Action)
    requires WellKept(g.t) && CanRun(g, a)
    ensures WellKept(Run(g, a).t)
  {
    match a
    case Create(obj, now) => StoreWellKept(g.t, obj, false, now);
    case Update(obj, now) => StoreWellKept(g.t, obj, true, now);
    case DeleteSection(x, now, ord, o) => CallKeeps(g.t, x, now, ord, o);
    case GcRun(x, now, ord, o) => CallKeeps(g.t, x, now, ord, o);
    case SyncRun(x, now) => SyncKeeps(g.t, x, now);
    case _ =>
  }

  /** The guard of an Update: unless the object is marked, no owner loses one of several references to it. */
  ghost predicate EdgeSafe(g: Group, a: Action) {
    a.Update? && Store(g.t, a.obj, true, a.now).1.None? ==>
      || Store(g.t, a.obj, true, a.now).0.objs[a.obj.Id()].deletion.Some?
      || KeepsEdges(a.obj.key.namespace, PriorOwners(g.t, a.obj), a.obj.owners)
  }

  lemma NewObjectKeepsEdges(ns: string, now: seq<OwnerRef>)
    ensures KeepsEdges(ns, [], now)
  {
  }

  /** One step from a complete index leads to a complete index exactly when it is edge-safe, and referential
      integrity survives in any case. */
  lemma StepIntegrity(g: Group, a: Action)
    requires WellKept(g.t) && Complete(g.t) && OwnersTracked(g.t) && CanRun(g, a)
    ensures OwnersTracked(Run(g, a).t)
    ensures Complete(Run(g, a).t) <==> EdgeSafe(g, a)
  {
    match a
    case Create(obj, now) =>
      if Store(g.t, obj, false, now).1.None? {
        StoreComplete(g.t, obj, false, now);
        NewObjectKeepsEdges(obj.key.namespace, obj.owners);
      }
    case Update(obj, now) =>
      StoreSucceedsWhen(g.t, obj, true, now);
      if Store(g.t, obj, true, now).1.None? { StoreComplete(g.t, obj, true, now); }
    case DeleteSection(x, now, ord, o) => CallKeeps(g.t, x, now, ord, o);
    case GcRun(x, now, ord, o) => CallKeeps(g.t, x, now, ord, o);
    case SyncRun(x, now) => SyncKeeps(g.t, x, now);
    case _ =>
  }

  ghost predicate EdgeSafeUpTo(run: seq<Group>, acts: seq<Action>, n: nat)
    requires n <= |acts| <= |run|
  {
    forall i | 0 <= i < n :: EdgeSafe(run[i], acts[i])
  }

  /** In every state of every history the structure is kept. */
  lemma {:induction false} HistoryWellKept(run: seq<Group>, acts: seq<Action>, n: nat)
    requires IsHistory(run, acts) && n < |run|
    ensures WellKept(run[n].t)
  {
    if n > 0 {
      HistoryWellKept(run, acts, n - 1);
      StepOf(run, acts, n - 1);
      StepWellKept(run[n - 1], acts[n - 1]);
    }
  }

  /** In every state of every history with edge-safe updates, whatever cascades failed on the way, the index is
      complete and the owners of unmarked objects are tracked. */
  lemma {:induction false} HistoryIntegrity(run: seq<Group>, acts: seq<Action>, n: nat)
    requires IsHistory(run, acts) && n < |run|
    requires EdgeSafeUpTo(run, acts, n)
    ensures Complete(run[n].t) && OwnersTracked(run[n].t)
  {
    if n > 0 {
      HistoryIntegrity(run, acts, n - 1);
      HistoryWellKept(run, acts, n - 1);
      StepOf(run, acts, n - 1);
      StepIntegrity(run[n - 1], acts[n - 1]);
    }
  }

  /** No owner loses one of several references to it in an accepted Update. */
  ghost predicate EdgesKept(g: Group, a: Action) {
    a.Update? && Store(g.t, a.obj, true, a.now).1.None? ==>
      KeepsEdges(a.obj.key.namespace, PriorOwners(g.t, a.obj), a.obj.owners)
  }

  lemma StepExact(g: Group, a: Action)
    requires WellKept(g.t) && Exact(g.t) && CanRun(g, a) && (a.Create? || a.Update?) && EdgesKept(g, a)
    ensures Exact(Run(g, a).t)
  {
    StoreSucceedsWhen(g.t, a.obj, a.Update?, a.now);
    if Store(g.t, a.obj, a.Update?, a.now).1.None? {
      StoreExact(g.t, a.obj, a.Update?, a.now);
      NewObjectKeepsEdges(a.obj.key.namespace, a.obj.owners);
    }
  }

  /** Step `i` is a Create, or an Update that keeps edges or is not accepted. */
  ghost predicate StoresWithEdges(run: seq<Group>, acts: seq<Action>, i: nat)
    requires i < |acts| < |run|
  {
    (acts[i].Create? || acts[i].Update?) && EdgesKept(run[i], acts[i])
  }

  lemma ExactAfter(run: seq<Group>, acts: seq<Action>, i: nat)
    requires IsHistory(run, acts) && i < |acts| && StoresWithEdges(run, acts, i)
    requires WellKept(run[i].t) && Exact(run[i].t)
    ensures WellKept(run[i + 1].t) && Exact(run[i + 1].t)
  {
    StepOf(run, acts, i);
    StepWellKept(run[i], acts[i]);
    StepExact(run[i], acts[i]);
  }

  /** While only Creates and Updates run, the index is the exact inverse of the owner references as long as
      edges are kept. */
  lemma {:induction false} HistoryExact(run: seq<Group>, acts: seq<Action>, n: nat)
    requires IsHistory(run, acts) && n < |run|
    requires forall i | 0 <= i < n :: StoresWithEdges(run, acts, i)
    ensures WellKept(run[n].t) && Exact(run[n].t)
  {
    if n > 0 {
      HistoryExact(run, acts, n - 1);
      ExactAfter(run, acts, n - 1);
    }
  }

  // ---------------------------------------------------------------- termination over histories

  /** An Update adds only owners created before the object. */
  ghost predicate AddsOlderOwners(g: Group, a: Action) {
    a.Update? && Store(g.t, a.obj, true, a.now).1.None? ==>
      forall r | OnlyIn(a.obj.key.namespace, a.obj.owners, PriorOwners(g.t, a.obj), r) ::
        r in g.rank && a.obj.Id() in g.rank && g.rank[r] < g.rank[a.obj.Id()]
  }

  lemma StoreOlder(g: Group, obj: Obj, replace: bool, now: int, rank: map<Ref, nat>, next: nat)
    requires WellKept(g.t) && OlderOwners(g.t, g.rank, g.next)
    requires Store(g.t, obj, replace, now).1.None?
    requires if replace then rank == g.rank && next == g.next else rank == g.rank[obj.Id() := g.next] && next == g.next + 1
    requires replace ==> forall r | OnlyIn(obj.key.namespace, obj.owners, PriorOwners(g.t, obj), r) ::
                           r in g.rank && g.rank[r] < g.rank[obj.Id()]
    ensures OlderOwners(Store(g.t, obj, replace, now).0, rank, next)
  {
    StoreSucceedsWhen(g.t, obj, replace, now);
    StoreStores(g.t, obj, replace, now);
    StoredOlder(g.t, Store(g.t, obj, replace, now).0, obj, g.rank, g.next, rank, next);
  }

  lemma StoredOlder(s: State, t: State, obj: Obj, rank: map<Ref, nat>, next: nat, rank': map<Ref, nat>, next': nat)
    requires WellKept(s) && OlderOwners(s, rank, next) && Stored(s, t, obj)
    requires obj.Id() in s.objs ==> rank' == rank && next' == next
    requires obj.Id() !in s.objs ==> rank' == rank[obj.Id() := next] && next' == next + 1
    requires obj.Id() in s.objs ==> forall r | OnlyIn(obj.key.namespace, obj.owners, PriorOwners(s, obj), r) ::
                                      r in rank && rank[r] < rank[obj.Id()]
    ensures OlderOwners(t, rank', next')
  {
    forall r, c | r in t.objs && c in t.objs && c in Owned(t.idx, r)
      ensures rank'[r] < rank'[c]
    {
      StoredEdges(s, t, obj, r);
      if r !in s.idx { NamedOwner(s, obj, r); }
    }
  }

  lemma CallOlder(g: Group, x: Ref, now: int, ord: Order, o: Outcome)
    requires OlderOwners(g.t, g.rank, g.next) && IsOrder(ord) && Ends(g.t, x, now, ord, o)
    ensures OlderOwners(o.s, g.rank, g.next)
  {
    CallTouchesOnlyClosure(g.t, x, now, ord, o);
    assert forall r, c | c in Owned(o.s.idx, r) :: c in Owned(g.t.idx, r);
  }

  lemma StepOlder(g: Group, a: Action)
    requires WellKept(g.t) && OlderOwners(g.t, g.rank, g.next) && CanRun(g, a) && AddsOlderOwners(g, a)
    ensures OlderOwners(Run(g, a).t, Run(g, a).rank, Run(g, a).next)
  {
    match a
    case Create(obj, now) =>
      if Store(g.t, obj, false, now).1.None? {
        StoreOlder(g, obj, false, now, g.rank[obj.Id() := g.next], g.next + 1);
      }
    case Update(obj, now) =>
      StoreSucceedsWhen(g.t, obj, true, now);
      if Store(g.t, obj, true, now).1.None? { StoreOlder(g, obj, true, now, g.rank, g.next); }
    case DeleteSection(x, now, ord, o) => CallOlder(g, x, now, ord, o);
    case GcRun(x, now, ord, o) => CallOlder(g, x, now, ord, o);
    case _ =>
  }

  /** If updates add only older owners, no history leads to a state in which a deletion may fail to return. */
  lemma {:induction false} HistoryTerminates(run: seq<Group>, acts: seq<Action>, n: nat)
    requires IsHistory(run, acts) && n < |run|
    requires forall i | 0 <= i < n :: AddsOlderOwners(run[i], acts[i])
    ensures OlderOwners(run[n].t, run[n].rank, run[n].next)
    ensures forall x, now :: AlwaysReturns(run[n].t, x, now)
  {
    if n > 0 {
      HistoryTerminates(run, acts, n - 1);
      HistoryWellKept(run, acts, n - 1);
      StepOf(run, acts, n - 1);
      StepOlder(run[n - 1], acts[n - 1]);
    }
    forall x, now
      ensures AlwaysReturns(run[n].t, x, now)
    {
      OlderOwnersBounded(run[n].t, run[n].rank, run[n].next, x);
      FinishesIffBounded(run[n].t, x, now);
    }
  }

  // ---------------------------------------------------------------- stranded entries

  /** No step clears a stranded entry: it stops being stranded exactly when the object is created again. */
  lemma StepStranded(g: Group, a: Action, owner: Ref, c: Ref)
    requires WellKept(g.t) && CanRun(g, a) && Stranded(g.t, owner, c)
    ensures c in Owned(Run(g, a).t.idx, owner)
    ensures Stranded(Run(g, a).t, owner, c) <==> c !in Run(g, a).t.objs
  {
    match a
    case Create(obj, now) => StoreLeavesStranded(g.t, obj, false, now, owner, c);
    case Update(obj, now) => StoreLeavesStranded(g.t, obj, true, now, owner, c);
    case DeleteSection(x, now, ord, o) => CallLeavesStranded(g.t, x, now, ord, o, owner, c);
    case GcRun(x, now, ord, o) => CallLeavesStranded(g.t, x, now, ord, o, owner, c);
    case _ =>
  }

  lemma StoreLeavesStranded(s: State, obj: Obj, replace: bool, now: int, owner: Ref, c: Ref)
    requires WellKept(s) && Stranded(s, owner, c)
    ensures c in Owned(Store(s, obj, replace, now).0.idx, owner)
  {
    StoreSucceedsWhen(s, obj, replace, now);
    if Store(s, obj, replace, now).1.None? {
      StoreStores(s, obj, replace, now);
      StoredEdges(s, Store(s, obj, replace, now).0, obj, owner);
    }
  }

  /** `c` is not tracked from state `i` to state `j`. */
  ghost predicate StaysAway(run: seq<Group>, i: nat, j: nat, c: Ref)
    requires j < |run|
  {
    forall k | i <= k <= j :: c !in run[k].t.objs
  }

  lemma StrandedAfter(run: seq<Group>, acts: seq<Action>, k: nat, owner: Ref, c: Ref)
    requires IsHistory(run, acts) && k < |acts| && Stranded(run[k].t, owner, c) && c !in run[k + 1].t.objs
    ensures Stranded(run[k + 1].t, owner, c)
  {
    HistoryWellKept(run, acts, k);
    StepOf(run, acts, k);
    StepStranded(run[k], acts[k], owner, c);
  }

  lemma {:induction false} HistoryStranded(run: seq<Group>, acts: seq<Action>, i: nat, j: nat, owner: Ref, c: Ref)
    requires IsHistory(run, acts) && i <= j < |run| && Stranded(run[i].t, owner, c) && StaysAway(run, i, j, c)
    ensures Stranded(run[j].t, owner, c)
    decreases j
  {
    if i < j {
      HistoryStranded(run, acts, i, j - 1, owner, c);
      StrandedAfter(run, acts, j - 1, owner, c);
    }
  }

  /** A client's or the collector's deletion. */
  predicate Deletes(a: Action, x: Ref) {
    (a.DeleteSection? || a.GcRun?) && a.x == x
  }

  /** Once an owned object has been deleted on its own, every deletion of its owner fails until the object is created
      again. */
  lemma DirectDeleteBreaksOwner(run: seq<Group>, acts: seq<Action>, i: nat, j: nat, owner: Ref, c: Ref)
    requires IsHistory(run, acts) && i < j < |acts|
    requires Deletes(acts[i], c) && acts[i].o.Finished? && acts[i].o.err.None? && acts[i].o.deleted
    requires c in Owned(run[i].t.idx, owner) && !Reaches(run[i].t, c, owner)
    requires StaysAway(run, i + 1, j, c)
    requires Deletes(acts[j], owner)
    ensures acts[j].o.Finished? && acts[j].o.err == Some(NotFound)
  {
    StepOf(run, acts, i);
    StepOf(run, acts, j);
    DirectDeleteStrands(run[i].t, owner, c, acts[i].now, acts[i].ord, acts[i].o);
    HistoryStranded(run, acts, i + 1, j, owner, c);
    StrandedFails(run[j].t, owner, c, acts[j].now, acts[j].ord, acts[j].o);
  }
}

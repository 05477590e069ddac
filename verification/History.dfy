/** What every history of a resource group shows: versions, finalizers, collection requests, notifications. */
module History {
  import opened Text
  import opened Objects
  import opened Tracker
  import opened Ownership
  import opened Cascade
  import opened Deletion
  import opened Machine

  // ---------------------------------------------------------------- one object across one step

  /** An object that stays: its version never falls, the same version means the same content, and neither its
      creation nor a deletion time once set changes. */
  ghost predicate Evolves(a: Obj, b: Obj) {
    && VersionNumber(a.version) <= VersionNumber(b.version)
    && (a.version == b.version ==> SameContent(a, b))
    && a.creation == b.creation
    && (a.deletion.Some? ==> b.deletion == a.deletion)
  }

  /** Every object that is there before and after evolves; one with finalizers is there after. */
  ghost predicate AllEvolve(s: State, t: State) {
    && (forall r | r in s.objs && r in t.objs :: Evolves(s.objs[r], t.objs[r]))
    && (forall r | r in s.objs && Kept(s.objs[r]) :: r in t.objs)
  }

  lemma UpdateEvolves(was: Obj, obj: Obj, now: int)
    requires WellVersioned(was.version)
    ensures Evolves(was, BeforeUpdate(was, obj, now))
    ensures !DeepEqual(BeforeUpdate(was, obj, now), was) ==>
              VersionNumber(BeforeUpdate(was, obj, now).version) == VersionNumber(was.version) + 1
  {
    BumpRaises(was.version);
  }

  lemma StoreEvolves(s: State, obj: Obj, replace: bool, now: int)
    requires WellKept(s) && Versioned(s)
    ensures AllEvolve(s, Store(s, obj, replace, now).0)
  {
    var r, t := obj.Id(), Store(s, obj, replace, now).0;
    StoreSucceedsWhen(s, obj, replace, now);
    if Store(s, obj, replace, now).1.None? {
      if replace {
        UpdateEvolves(s.objs[r], obj, now);
        assert t.objs == s.objs[r := BeforeUpdate(s.objs[r], obj, now)];
      } else {
        assert t.objs == s.objs[r := BeforeCreate(obj, now)];
      }
    }
  }

  /** `stored` has the caller's content, with the managed fields the tracker's. */
  ghost predicate Manages(obj: Obj, stored: Obj) {
    && stored.Id() == obj.Id()
    && stored.owners == obj.owners && stored.finalizers == obj.finalizers && stored.payload == obj.payload
  }

  /** An Update that changes nothing, pointers aside, keeps version and stamp; any other gets the next version. */
  lemma UpdateManages(was: Obj, obj: Obj, now: int)
    requires WellVersioned(was.version) && obj.Id() == was.Id()
    ensures var stored := BeforeUpdate(was, obj, now);
            && Manages(obj, stored)
            && stored.creation == was.creation
            && stored.deletion == (if was.deletion.Some? then was.deletion else obj.deletion)
            && if DeepEqual(stored, was) then stored.version == was.version && stored.lastSync == was.lastSync
               else VersionNumber(stored.version) == VersionNumber(was.version) + 1 && stored.lastSync == Some(Stamp(now))
  {
    UpdateEvolves(was, obj, now);
    if DeepEqual(BeforeUpdate(was, obj, now), was) { DeepEqualFields(BeforeUpdate(was, obj, now), was); }
  }

  lemma CreateManages(obj: Obj, now: int)
    ensures var stored := BeforeCreate(obj, now);
            && Manages(obj, stored)
            && stored.creation == now && stored.deletion == obj.deletion
            && VersionNumber(stored.version) == 1 && stored.lastSync == Some(Stamp(now))
  {
    VersionParses(1);
  }

  /** What an accepted Create or Update leaves: the managed object under its name, and every other as it was. */
  lemma ContentIsCallers(s: State, obj: Obj, replace: bool, now: int)
    requires WellKept(s) && Versioned(s) && Store(s, obj, replace, now).1.None?
    ensures replace <==> obj.Id() in s.objs
    ensures var stored := if replace then BeforeUpdate(s.objs[obj.Id()], obj, now) else BeforeCreate(obj, now);
            Manages(obj, stored) && Store(s, obj, replace, now).0.objs == s.objs[obj.Id() := stored]
  {
    StoreSucceedsWhen(s, obj, replace, now);
    if replace { UpdateManages(s.objs[obj.Id()], obj, now); } else { CreateManages(obj, now); }
  }

  lemma MarkEvolves(obj: Obj, now: int)
    requires WellVersioned(obj.version) && obj.deletion.None?
    ensures Evolves(obj, Mark(obj, now)) && VersionNumber(Mark(obj, now).version) == VersionNumber(obj.version) + 1
  {
    BumpRaises(obj.version);
  }

  lemma CallEvolves(s: State, x: Ref, now: int, ord: Order, o: Outcome)
    requires Versioned(s) && IsOrder(ord) && Ends(s, x, now, ord, o)
    ensures AllEvolve(s, o.s)
  {
    CallTouchesOnlyClosure(s, x, now, ord, o);
    forall r | r in s.objs && r in o.s.objs
      ensures Evolves(s.objs[r], o.s.objs[r])
    {
      if o.s.objs[r] != s.objs[r] { MarkEvolves(s.objs[r], now); }
    }
  }

  /** Every step keeps versions well formed. */
  lemma StepVersioned(g: Group, a: Action)
    requires WellKept(g.t) && Versioned(g.t) && CanRun(g, a)
    ensures Versioned(Run(g, a).t)
  {
    match a
    case Create(obj, now) => StoreVersioned(g.t, obj, false, now);
    case Update(obj, now) => StoreVersioned(g.t, obj, true, now);
    case DeleteSection(x, now, ord, o) => CallVersioned(g.t, x, now, ord, o);
    case GcRun(x, now, ord, o) => CallVersioned(g.t, x, now, ord, o);
    case _ =>
  }

  lemma StoreVersioned(s: State, obj: Obj, replace: bool, now: int)
    requires WellKept(s) && Versioned(s)
    ensures Versioned(Store(s, obj, replace, now).0)
  {
    if obj.Id() in s.objs { BumpRaises(s.objs[obj.Id()].version); } else { VersionParses(1); }
  }

  lemma CallVersioned(s: State, x: Ref, now: int, ord: Order, o: Outcome)
    requires Versioned(s) && IsOrder(ord) && Ends(s, x, now, ord, o)
    ensures Versioned(o.s)
  {
    CallTouchesOnlyClosure(s, x, now, ord, o);
    forall r | r in o.s.objs ensures WellVersioned(o.s.objs[r].version) { BumpRaises(s.objs[r].version); }
  }

  lemma {:induction false} HistoryVersioned(run: seq<Group>, acts: seq<Action>, n: nat)
    requires IsHistory(run, acts) && n < |run|
    ensures Versioned(run[n].t)
  {
    if n > 0 {
      HistoryVersioned(run, acts, n - 1);
      HistoryWellKept(run, acts, n - 1);
      StepOf(run, acts, n - 1);
      StepVersioned(run[n - 1], acts[n - 1]);
    }
  }

  /** Finalizer safety and version discipline, for every step. */
  lemma StepEvolves(g: Group, a: Action)
    requires WellKept(g.t) && Versioned(g.t) && CanRun(g, a)
    ensures AllEvolve(g.t, Run(g, a).t)
  {
    match a
    case Create(obj, now) => StoreEvolves(g.t, obj, false, now);
    case Update(obj, now) => StoreEvolves(g.t, obj, true, now);
    case DeleteSection(x, now, ord, o) => CallEvolves(g.t, x, now, ord, o);
    case GcRun(x, now, ord, o) => CallEvolves(g.t, x, now, ord, o);
    case _ =>
  }

  // ---------------------------------------------------------------- incarnations

  ghost predicate Ranked(g: Group) {
    && (forall r | r in g.t.objs :: r in g.rank)
    && (forall r | r in g.rank :: g.rank[r] < g.next)
  }

  /** Ranks only grow; a new object gets a new rank, one that stays keeps its rank. */
  ghost predicate RanksGrow(g: Group, h: Group) {
    && g.next <= h.next
    && (forall r | r in g.rank :: r in h.rank && g.rank[r] <= h.rank[r])
    && (forall r | r in h.t.objs && r !in g.t.objs :: r in h.rank && h.rank[r] >= g.next)
    && (forall r | r in h.t.objs && r in g.t.objs :: r in g.rank && r in h.rank && h.rank[r] == g.rank[r])
  }

  lemma StepRanks(g: Group, a: Action)
    requires WellKept(g.t) && Ranked(g) && CanRun(g, a)
    ensures Ranked(Run(g, a)) && RanksGrow(g, Run(g, a))
  {
    match a
    case Create(obj, now) => StoreSucceedsWhen(g.t, obj, false, now);
    case Update(obj, now) =>
      StoreSucceedsWhen(g.t, obj, true, now);
      if Store(g.t, obj, true, now).1.None? { StoreStores(g.t, obj, true, now); }
    case DeleteSection(x, now, ord, o) => CallTouchesOnlyClosure(g.t, x, now, ord, o);
    case GcRun(x, now, ord, o) => CallTouchesOnlyClosure(g.t, x, now, ord, o);
    case _ =>
  }

  /** What two consecutive states of a history have in common. */
  ghost predicate Linked(run: seq<Group>, i: nat)
    requires 0 < i < |run|
  {
    Versioned(run[i - 1].t) && Versioned(run[i].t) && AllEvolve(run[i - 1].t, run[i].t)
  }

  ghost predicate RankLinked(run: seq<Group>, i: nat)
    requires 0 < i < |run|
  {
    Ranked(run[i - 1]) && RanksGrow(run[i - 1], run[i])
  }

  ghost predicate Lives(run: seq<Group>) {
    forall i | 0 < i < |run| :: Linked(run, i)
  }

  ghost predicate RanksLive(run: seq<Group>) {
    forall i | 0 < i < |run| :: RankLinked(run, i)
  }

  lemma {:induction false} HistoryRanked(run: seq<Group>, acts: seq<Action>, n: nat)
    requires IsHistory(run, acts) && n < |run|
    ensures Ranked(run[n])
  {
    if n > 0 {
      HistoryRanked(run, acts, n - 1);
      HistoryWellKept(run, acts, n - 1);
      StepOf(run, acts, n - 1);
      StepRanks(run[n - 1], acts[n - 1]);
    }
  }

  lemma HistoryLives(run: seq<Group>, acts: seq<Action>)
    requires IsHistory(run, acts)
    ensures Lives(run) && RanksLive(run)
  {
    forall i | 0 < i < |run|
      ensures Linked(run, i) && RankLinked(run, i)
    {
      HistoryWellKept(run, acts, i - 1);
      HistoryVersioned(run, acts, i - 1);
      HistoryVersioned(run, acts, i);
      HistoryRanked(run, acts, i - 1);
      StepOf(run, acts, i - 1);
      StepEvolves(run[i - 1], acts[i - 1]);
      StepRanks(run[i - 1], acts[i - 1]);
    }
  }

  /** `r` is tracked at `i` and at `j`, in the same incarnation. */
  ghost predicate SameLife(run: seq<Group>, i: nat, j: nat, r: Ref)
    requires i < |run| && j < |run|
  {
    && r in run[i].t.objs && r in run[j].t.objs
    && r in run[i].rank && r in run[j].rank && run[i].rank[r] == run[j].rank[r]
  }

  lemma {:induction false} RanksGrowOver(run: seq<Group>, i: nat, j: nat, r: Ref)
    requires RanksLive(run) && i <= j < |run| && r in run[i].rank
    ensures r in run[j].rank && run[i].rank[r] <= run[j].rank[r] && run[i].next <= run[j].next
    decreases j
  {
    if i < j {
      RanksGrowOver(run, i, j - 1, r);
      assert RankLinked(run, j);
    }
  }

  lemma SameLifeBefore(run: seq<Group>, i: nat, j: nat, r: Ref)
    requires RanksLive(run) && i < j < |run| && SameLife(run, i, j, r)
    ensures SameLife(run, i, j - 1, r)
  {
    RanksGrowOver(run, i, j - 1, r);
    assert RankLinked(run, j);
  }

  lemma EvolvesChain(a: Obj, b: Obj, c: Obj)
    requires Evolves(a, b) && Evolves(b, c)
    requires WellVersioned(a.version) && WellVersioned(b.version) && WellVersioned(c.version)
    ensures Evolves(a, c)
  {
  }

  /** Within one incarnation, over any history: versions never fall, equal versions mean equal content up to the
      last-sync annotation, and a deletion time once set stays. */
  lemma {:induction false} LifeEvolves(run: seq<Group>, i: nat, j: nat, r: Ref)
    requires Lives(run) && RanksLive(run) && i <= j < |run| && SameLife(run, i, j, r)
    ensures Evolves(run[i].t.objs[r], run[j].t.objs[r])
    decreases j
  {
    if i < j {
      SameLifeBefore(run, i, j, r);
      LifeEvolves(run, i, j - 1, r);
      assert Linked(run, j) && Linked(run, i + 1);
      EvolvesChain(run[i].t.objs[r], run[j - 1].t.objs[r], run[j].t.objs[r]);
    }
  }

  // ---------------------------------------------------------------- telling incarnations apart

  /** Step `m` is an accepted Create of `r`. */
  ghost predicate Creates(run: seq<Group>, acts: seq<Action>, m: nat, r: Ref)
    requires m < |acts| < |run|
  {
    acts[m].Create? && acts[m].obj.Id() == r && Store(run[m].t, acts[m].obj, false, acts[m].now).1.None?
  }

  /** The clock does not show the same time when an object is created twice. */
  ghost predicate ClockMoves(run: seq<Group>, acts: seq<Action>)
    requires |run| == |acts| + 1
  {
    forall m, n, r | 0 <= m < n < |acts| && Creates(run, acts, m, r) && Creates(run, acts, n, r) ::
      acts[m].now != acts[n].now
  }

  /** A new object comes from an accepted Create, with the time as its creation and a fresh rank. */
  lemma NewIsCreated(g: Group, a: Action, r: Ref)
    requires WellKept(g.t) && CanRun(g, a) && r !in g.t.objs && r in Run(g, a).t.objs
    ensures a.Create? && a.obj.Id() == r && Store(g.t, a.obj, false, a.now).1.None?
    ensures Run(g, a).t.objs[r].creation == a.now && r in Run(g, a).rank && Run(g, a).rank[r] == g.next
  {
    match a
    case Create(obj, now) =>
      StoreSucceedsWhen(g.t, obj, false, now);
      assert Store(g.t, obj, false, now).1.None? ==>
               Store(g.t, obj, false, now).0.objs == g.t.objs[obj.Id() := BeforeCreate(obj, now)];
    case Update(obj, now) =>
      StoreSucceedsWhen(g.t, obj, true, now);
      if Store(g.t, obj, true, now).1.None? { StoreStores(g.t, obj, true, now); }
      assert false;
    case DeleteSection(x, now, ord, o) =>
      CallTouchesOnlyClosure(g.t, x, now, ord, o);
      assert false;
    case GcRun(x, now, ord, o) =>
      CallTouchesOnlyClosure(g.t, x, now, ord, o);
      assert false;
    case _ => assert false;
  }

  lemma BornAt(run: seq<Group>, acts: seq<Action>, k: nat, r: Ref)
    requires IsHistory(run, acts) && k < |acts| && r !in run[k].t.objs && r in run[k + 1].t.objs
    ensures Creates(run, acts, k, r) && run[k + 1].t.objs[r].creation == acts[k].now
    ensures r in run[k + 1].rank && run[k + 1].rank[r] == run[k].next
  {
    HistoryWellKept(run, acts, k);
    StepOf(run, acts, k);
    NewIsCreated(run[k], acts[k], r);
  }

  lemma StaysCreated(run: seq<Group>, acts: seq<Action>, k: nat, r: Ref)
    requires IsHistory(run, acts) && k < |acts| && r in run[k].t.objs && r in run[k + 1].t.objs
    ensures run[k + 1].t.objs[r].creation == run[k].t.objs[r].creation
    ensures r in run[k].rank && r in run[k + 1].rank && run[k + 1].rank[r] == run[k].rank[r]
  {
    HistoryLives(run, acts);
    assert Linked(run, k + 1) && RankLinked(run, k + 1);
  }

  /** The Create that began the present incarnation. */
  lemma {:induction false} CreatedBy(run: seq<Group>, acts: seq<Action>, n: nat, r: Ref) returns (m: nat)
    requires IsHistory(run, acts) && n < |run| && r in run[n].t.objs
    ensures m < n && Creates(run, acts, m, r) && run[n].t.objs[r].creation == acts[m].now
    ensures r in run[n].rank && run[n].rank[r] == run[m].next
    decreases n
  {
    if r in run[n - 1].t.objs {
      m := CreatedBy(run, acts, n - 1, r);
      StaysCreated(run, acts, n - 1, r);
    } else {
      BornAt(run, acts, n - 1, r);
      m := n - 1;
    }
  }

  /** Two views of an object are of one incarnation if and only if they show the same creation time. */
  lemma SameLifeIffCreation(run: seq<Group>, acts: seq<Action>, i: nat, j: nat, r: Ref)
    requires IsHistory(run, acts) && ClockMoves(run, acts) && i <= j < |run|
    requires r in run[i].t.objs && r in run[j].t.objs
    ensures SameLife(run, i, j, r) <==> run[i].t.objs[r].creation == run[j].t.objs[r].creation
  {
    var m := CreatedBy(run, acts, i, r);
    var n := CreatedBy(run, acts, j, r);
    if SameLife(run, i, j, r) {
      HistoryLives(run, acts);
      LifeEvolves(run, i, j, r);
    }
  }

  // ---------------------------------------------------------------- lost updates

  /** An Update accepted at `k` with the version its client read at `i` replaces exactly the content that the client
      read, if the object still has the creation time that the client read. */
  lemma NoLostUpdate(run: seq<Group>, acts: seq<Action>, i: nat, k: nat, obj: Obj, now: int)
    requires IsHistory(run, acts) && ClockMoves(run, acts) && i <= k < |run|
    requires Store(run[k].t, obj, true, now).1.None?
    requires obj.Id() in run[i].t.objs && run[i].t.objs[obj.Id()].version == obj.version
    ensures obj.Id() in run[k].t.objs
    ensures run[i].t.objs[obj.Id()].creation == run[k].t.objs[obj.Id()].creation ==>
              SameContent(run[i].t.objs[obj.Id()], run[k].t.objs[obj.Id()])
  {
    StoreSucceedsWhen(run[k].t, obj, true, now);
    SameLifeIffCreation(run, acts, i, k, obj.Id());
    if SameLife(run, i, k, obj.Id()) {
      HistoryLives(run, acts);
      LifeEvolves(run, i, k, obj.Id());
    }
  }

  /** A patch keeps identity and version, and looks at content alone. */
  ghost predicate PatchesContent(patch: Obj -> Option<Obj>) {
    && (forall a | patch(a).Some? :: patch(a).value.Id() == a.Id() && patch(a).value.version == a.version)
    && (forall a, b | SameContent(a, b) ::
          && (patch(a).Some? <==> patch(b).Some?)
          && (patch(a).Some? ==> patch(a).value.(lastSync := None) == patch(b).value.(lastSync := None)))
  }

  /** What Update makes of an object does not depend on the stamp that it carries. */
  lemma StampIsManaged(s: State, a: Obj, b: Obj, now: int)
    requires a.(lastSync := None) == b.(lastSync := None)
    ensures Store(s, a, true, now) == Store(s, b, true, now)
  {
    assert a.Id() == b.Id() && a.owners == b.owners && a.version == b.version;
    assert OwnersOk(s.objs, a) <==> OwnersOk(s.objs, b);
    if a.Id() in s.objs {
      assert BeforeUpdate(s.objs[a.Id()], a, now) == BeforeUpdate(s.objs[a.Id()], b, now);
    }
  }

  /** Patch reads in one locked section and writes in another. Whatever happens in between, if its write is accepted
      and the object still has the creation time it read, it has the effect of a patch of the object as it is. */
  lemma PatchIsAtomic(run: seq<Group>, acts: seq<Action>, i: nat, k: nat, x: Ref, patch: Obj -> Option<Obj>, now: int)
    requires IsHistory(run, acts) && ClockMoves(run, acts) && i <= k < |run| && PatchesContent(patch)
    requires x in run[i].t.objs && x in run[k].t.objs && patch(run[i].t.objs[x]).Some?
    requires Store(run[k].t, patch(run[i].t.objs[x]).value, true, now).1.None?
    requires run[i].t.objs[x].creation == run[k].t.objs[x].creation
    ensures patch(run[k].t.objs[x]).Some?
    ensures Store(run[k].t, patch(run[i].t.objs[x]).value, true, now)
         == Store(run[k].t, patch(run[k].t.objs[x]).value, true, now)
  {
    HistoryWellKept(run, acts, i);
    var read, current := run[i].t.objs[x], run[k].t.objs[x];
    NoLostUpdate(run, acts, i, k, patch(read).value, now);
    StampIsManaged(run[k].t, patch(read).value, patch(current).value, now);
  }

  lemma VersionsRise(run: seq<Group>, acts: seq<Action>, i: nat, j: nat, r: Ref)
    requires IsHistory(run, acts) && ClockMoves(run, acts) && i <= j < |run|
    requires r in run[i].t.objs && r in run[j].t.objs && run[i].t.objs[r].creation == run[j].t.objs[r].creation
    ensures VersionNumber(run[i].t.objs[r].version) <= VersionNumber(run[j].t.objs[r].version)
  {
    HistoryLives(run, acts);
    SameLifeIffCreation(run, acts, i, j, r);
    LifeEvolves(run, i, j, r);
  }

  /** Once an Update has changed something, an Update with the version it carried is not accepted again while the
      object has its creation time. */
  lemma VersionUsedOnce(run: seq<Group>, acts: seq<Action>, k: nat, obj: Obj, now: int, m: nat, other: Obj, later: int)
    requires IsHistory(run, acts) && ClockMoves(run, acts) && k < m < |run|
    requires Store(run[k].t, obj, true, now).1.None? && run[k + 1].t == Store(run[k].t, obj, true, now).0
    requires obj.Id() in run[k].t.objs && obj.Id() in run[k + 1].t.objs
    requires !DeepEqual(run[k + 1].t.objs[obj.Id()], run[k].t.objs[obj.Id()])
    requires other.Id() == obj.Id() && other.version == obj.version
    ensures obj.Id() in run[m].t.objs && run[m].t.objs[obj.Id()].creation == run[k].t.objs[obj.Id()].creation ==>
              Store(run[m].t, other, true, later).1 in {Some(Conflict), Some(BadRequest)}
  {
    BumpedAt(run, acts, k, obj, now);
    if obj.Id() in run[m].t.objs && run[m].t.objs[obj.Id()].creation == run[k].t.objs[obj.Id()].creation {
      VersionsRise(run, acts, k + 1, m, obj.Id());
      StoreSucceedsWhen(run[m].t, other, true, later);
    }
  }

  lemma BumpedAt(run: seq<Group>, acts: seq<Action>, k: nat, obj: Obj, now: int)
    requires IsHistory(run, acts) && k < |acts|
    requires Store(run[k].t, obj, true, now).1.None? && run[k + 1].t == Store(run[k].t, obj, true, now).0
    requires obj.Id() in run[k].t.objs && obj.Id() in run[k + 1].t.objs
    requires !DeepEqual(run[k + 1].t.objs[obj.Id()], run[k].t.objs[obj.Id()])
    ensures VersionNumber(run[k + 1].t.objs[obj.Id()].version) > VersionNumber(obj.version)
    ensures run[k + 1].t.objs[obj.Id()].creation == run[k].t.objs[obj.Id()].creation
  {
    HistoryWellKept(run, acts, k);
    HistoryVersioned(run, acts, k);
    EffectiveUpdateBumps(run[k].t, obj, now);
  }

  lemma EffectiveUpdateBumps(s: State, obj: Obj, now: int)
    requires WellKept(s) && Versioned(s) && Store(s, obj, true, now).1.None? && obj.Id() in s.objs
    ensures var t := Store(s, obj, true, now).0;
            && obj.Id() in t.objs && t.objs[obj.Id()].creation == s.objs[obj.Id()].creation
            && (!DeepEqual(t.objs[obj.Id()], s.objs[obj.Id()]) ==>
                  VersionNumber(t.objs[obj.Id()].version) > VersionNumber(obj.version))
  {
    StoreSucceedsWhen(s, obj, true, now);
    UpdateEvolves(s.objs[obj.Id()], obj, now);
  }

  // ---------------------------------------------------------------- collection requests

  /** Every tracked object that the delete path marked has a request queued, delayed or in somebody's hand. */
  ghost predicate Covered(g: Group) {
    forall r | r in g.byDelete ::
      r in g.t.objs && g.t.objs[r].deletion.Some?
      && (r in g.t.gc || r in g.delayed || r in g.workers || r in g.callers)
  }

  lemma CallCovers(g: Group, x: Ref, now: int, ord: Order, o: Outcome)
    requires Covered(g) && Versioned(g.t) && IsOrder(ord) && Ends(g.t, x, now, ord, o)
    ensures forall r | r in MarkedBy(g.byDelete, g.t, o.s) ::
              && r in o.s.objs && o.s.objs[r].deletion.Some?
              && (r in o.s.gc || r in g.delayed || r in g.workers || r in g.callers || (r == x && o.err.None? && !o.deleted))
    ensures o.err.None? && o.deleted ==> x !in o.s.objs
  {
    CallTouchesOnlyClosure(g.t, x, now, ord, o);
    CallEvolves(g.t, x, now, ord, o);
    forall r | r in o.s.objs && r in g.t.objs && g.t.objs[r].deletion.None? && o.s.objs[r].deletion.Some?
      ensures r in o.s.gc || (r == x && o.err.None? && !o.deleted)
    {
      MarkedAreRequested(g.t, x, now, ord, o, r);
    }
    if o.err.None? {
      SuccessIsExact(g.t, x, now, ord, o);
      Closure.ReachesSelf(g.t, x);
    }
  }

  lemma StoreCovers(g: Group, a: Action)
    requires WellKept(g.t) && Versioned(g.t) && Covered(g) && CanRun(g, a) && (a.Create? || a.Update?)
    ensures Covered(Run(g, a))
  {
    StoreSucceedsWhen(g.t, a.obj, a.Update?, a.now);
    StoreEvolves(g.t, a.obj, a.Update?, a.now);
    if Store(g.t, a.obj, a.Update?, a.now).1.None? { StoreStores(g.t, a.obj, a.Update?, a.now); }
  }

  lemma CallStepCovers(g: Group, a: Action)
    requires WellKept(g.t) && Versioned(g.t) && Covered(g) && CanRun(g, a) && (a.DeleteSection? || a.GcRun?)
    ensures Covered(Run(g, a))
  {
    CallCovers(g, a.x, a.now, a.ord, a.o);
  }

  lemma StepCovers(g: Group, a: Action)
    requires WellKept(g.t) && Versioned(g.t) && Covered(g) && CanRun(g, a)
    ensures Covered(Run(g, a))
  {
    match a
    case Create(_, _) => StoreCovers(g, a);
    case Update(_, _) => StoreCovers(g, a);
    case DeleteSection(_, _, _, _) => CallStepCovers(g, a);
    case GcRun(_, _, _, _) => CallStepCovers(g, a);
    case _ =>
  }

  /** Coverage in every state of every history, failed cascades included. */
  lemma {:induction false} HistoryCovered(run: seq<Group>, acts: seq<Action>, n: nat)
    requires IsHistory(run, acts) && n < |run|
    ensures Covered(run[n])
  {
    if n > 0 {
      HistoryCovered(run, acts, n - 1);
      HistoryWellKept(run, acts, n - 1);
      HistoryVersioned(run, acts, n - 1);
      StepOf(run, acts, n - 1);
      StepCovers(run[n - 1], acts[n - 1]);
    }
  }

  lemma StaysByDelete(g: Group, a: Action, r: Ref)
    requires WellKept(g.t) && CanRun(g, a) && !(a.Create? && a.obj.Id() == r)
    requires r in g.t.objs ==> r in g.byDelete
    ensures r in Run(g, a).t.objs ==> r in Run(g, a).byDelete
  {
    match a
    case Create(obj, now) => StoreSucceedsWhen(g.t, obj, false, now);
    case Update(obj, now) => StoreSucceedsWhen(g.t, obj, true, now);
    case DeleteSection(x, now, ord, o) => CallTouchesOnlyClosure(g.t, x, now, ord, o);
    case GcRun(x, now, ord, o) => CallTouchesOnlyClosure(g.t, x, now, ord, o);
    case _ =>
  }

  lemma {:induction false} ByDeleteUntilCreated(run: seq<Group>, acts: seq<Action>, k: nat, j: nat, r: Ref)
    requires IsHistory(run, acts) && k <= j < |run| && r in run[k].byDelete
    requires forall i | k <= i < j :: !(acts[i].Create? && acts[i].obj.Id() == r)
    ensures r in run[j].t.objs ==> r in run[j].byDelete
    decreases j
  {
    if k < j {
      ByDeleteUntilCreated(run, acts, k, j - 1, r);
      HistoryWellKept(run, acts, j - 1);
      StepOf(run, acts, j - 1);
      StaysByDelete(run[j - 1], acts[j - 1], r);
    }
  }

  /** The same in plain fields: an object that a deletion, by a client or the collector, marks at some step is in the
      collector's queue, delayed, or in the hand of a worker or a caller at every later step at which it is tracked,
      unless it is created again in between. */
  lemma MarkedStaysRequested(run: seq<Group>, acts: seq<Action>, k: nat, j: nat, r: Ref)
    requires IsHistory(run, acts) && k < j < |run| && (acts[k].DeleteSection? || acts[k].GcRun?)
    requires r in run[k].t.objs && run[k].t.objs[r].deletion == None
    requires r in run[k + 1].t.objs && run[k + 1].t.objs[r].deletion != None
    requires forall i | k < i < j :: !(acts[i].Create? && acts[i].obj.Id() == r)
    requires r in run[j].t.objs
    ensures r in run[j].t.gc || r in run[j].delayed || r in run[j].workers || r in run[j].callers
    ensures run[j].t.objs[r].deletion != None
  {
    StepOf(run, acts, k);
    assert r in run[k + 1].byDelete;
    ByDeleteUntilCreated(run, acts, k + 1, j, r);
    HistoryCovered(run, acts, j);
  }

  // ---------------------------------------------------------------- steps in plain fields

  lemma StoreKeepsOthers(s: State, obj: Obj, replace: bool, now: int, r: Ref)
    requires WellKept(s) && r in s.objs
    ensures var t := Store(s, obj, replace, now).0;
            r in t.objs && (!replace || obj.Id() != r ==> t.objs[r] == s.objs[r])
  {
    StoreSucceedsWhen(s, obj, replace, now);
    if Store(s, obj, replace, now).1.None? { StoreStores(s, obj, replace, now); }
  }

  /** No step removes an object that has finalizers, and none but an Update of that object changes them. */
  lemma FinalizedStays(g: Group, a: Action, r: Ref)
    requires WellKept(g.t) && CanRun(g, a) && r in g.t.objs && g.t.objs[r].finalizers != []
    ensures r in Run(g, a).t.objs
    ensures !(a.Update? && a.obj.Id() == r) ==> Run(g, a).t.objs[r].finalizers == g.t.objs[r].finalizers
  {
    match a
    case Create(obj, now) => StoreKeepsOthers(g.t, obj, false, now, r);
    case Update(obj, now) => StoreKeepsOthers(g.t, obj, true, now, r);
    case DeleteSection(x, now, ord, o) => FinalizersProtect(g.t, x, now, ord, o, r);
    case GcRun(x, now, ord, o) => FinalizersProtect(g.t, x, now, ord, o, r);
    case _ =>
  }

  /** What counts as a change when an object is updated: payload, finalizers, a deletion time where there was none, and
      owner references in what they say, pointers followed. */
  ghost predicate Differs(was: Obj, obj: Obj) {
    || obj.payload != was.payload || obj.finalizers != was.finalizers
    || (was.deletion.None? && obj.deletion.Some?)
    || |obj.owners| != |was.owners|
    || exists i | 0 <= i < |was.owners| ::
         var o, p := was.owners[i], obj.owners[i];
         || o.apiVersion != p.apiVersion || o.kind != p.kind || o.name != p.name || o.uid != p.uid
         || (o.controller == Nil) != (p.controller == Nil)
         || (o.controller != Nil && p.controller != Nil && o.controller.value != p.controller.value)
         || (o.blockOwnerDeletion == Nil) != (p.blockOwnerDeletion == Nil)
         || (o.blockOwnerDeletion != Nil && p.blockOwnerDeletion != Nil
             && o.blockOwnerDeletion.value != p.blockOwnerDeletion.value)
  }

  lemma DiffersIff(was: Obj, obj: Obj, now: int)
    requires was.Id() == obj.Id()
    ensures Differs(was, obj) <==>
              !DeepEqual(obj.(creation := was.creation, version := was.version, lastSync := was.lastSync,
                              deletion := if was.deletion.Some? then was.deletion else obj.deletion), was)
  {
    var kept := obj.(creation := was.creation, version := was.version, lastSync := was.lastSync,
                     deletion := if was.deletion.Some? then was.deletion else obj.deletion);
    DeepEqualIff(kept, was);
    assert was.gvk == was.Id().gvk && was.key == was.Id().key;
  }

  /** An accepted Update raises the version by one, renews the stamp and notifies exactly if it differs; it notifies a
      deletion if it sets the deletion time and an update otherwise. If it does not differ, version and stamp stay and
      nothing is notified. */
  lemma UpdateNoticesChange(s: State, obj: Obj, now: int)
    requires WellKept(s) && Versioned(s) && Store(s, obj, true, now).1.None?
    ensures obj.Id() in s.objs && obj.Id() in Store(s, obj, true, now).0.objs
    ensures var was, t := s.objs[obj.Id()], Store(s, obj, true, now).0;
            var stored := t.objs[obj.Id()];
            if Differs(was, obj) then
              && VersionNumber(stored.version) == VersionNumber(was.version) + 1
              && stored.lastSync == Some(now / 1_000_000_000)
              && t.log == s.log + [if was.deletion.None? && stored.deletion.Some? then Deleted(stored)
                                   else Updated(was, stored)]
            else
              stored.version == was.version && stored.lastSync == was.lastSync && t.log == s.log
  {
    StoreSucceedsWhen(s, obj, true, now);
    var was := s.objs[obj.Id()];
    DiffersIff(was, obj, now);
    BumpRaises(was.version);
    BumpDiffers(was, obj, now);
  }

  /** What is stored is a visible change exactly if the Update differs. */
  lemma BumpDiffers(was: Obj, obj: Obj, now: int)
    requires WellVersioned(was.version) && was.Id() == obj.Id()
    ensures DeepEqual(BeforeUpdate(was, obj, now), was) <==> !Differs(was, obj)
  {
    DiffersIff(was, obj, now);
    BumpRaises(was.version);
    DeepEqualIff(BeforeUpdate(was, obj, now), was);
  }
}

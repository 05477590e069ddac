/** When the index holds only real owner references, and what a cascade then means in terms of references. */
module References {
  import opened Text
  import opened Objects
  import opened Tracker
  import opened Ownership
  import opened Cascade
  import opened Closure
  import opened Deletion
  import opened Machine

  /** Every tracked object that is recorded under an owner names it. */
  ghost predicate NamedEdges(s: State) {
    forall p, c | c in Owned(s.idx, p) && c in s.objs :: ListsOwner(s.objs[c], p)
  }

  /** The guard of a Create: where its name is still recorded, the new object names the owner. */
  ghost predicate ClaimsEntries(g: Group, a: Action) {
    a.Create? && Store(g.t, a.obj, false, a.now).1.None? ==>
      forall p | a.obj.Id() in Owned(g.t.idx, p) :: ListsOwner(a.obj, p)
  }

  // ---------------------------------------------------------------- one step

  lemma CreateNamed(s: State, t: State, obj: Obj)
    requires NamedEdges(s) && Stored(s, t, obj) && obj.Id() !in s.objs
    ensures NamedEdges(t) <==> forall p | obj.Id() in Owned(s.idx, p) :: ListsOwner(obj, p)
  {
    var c := obj.Id();
    forall p
      ensures c in Owned(t.idx, p) <==> c in Owned(s.idx, p) || ListsOwner(obj, p)
      ensures forall d | d != c :: d in Owned(t.idx, p) <==> d in Owned(s.idx, p)
      ensures ListsOwner(t.objs[c], p) <==> ListsOwner(obj, p)
    {
      StoredEdges(s, t, obj, p);
    }
  }

  lemma UpdateNamed(s: State, t: State, obj: Obj)
    requires NamedEdges(s) && Stored(s, t, obj) && obj.Id() in s.objs && s.objs[obj.Id()].key == obj.key
    ensures NamedEdges(t)
  {
    var c := obj.Id();
    forall p, d | d in Owned(t.idx, p) && d in t.objs
      ensures ListsOwner(t.objs[d], p)
    {
      StoredEdges(s, t, obj, p);
      if d == c && !OnlyIn(obj.key.namespace, obj.owners, PriorOwners(s, obj), p) {
        assert ListsOwner(s.objs[c], p);
        var o :| o in s.objs[c].owners && OwnerOf(obj.key.namespace, o) == Some(p);
        assert o in obj.owners;
      }
    }
  }

  lemma CallNamed(s: State, x: Ref, now: int, ord: Order, o: Outcome)
    requires IsOrder(ord) && Ends(s, x, now, ord, o) && NamedEdges(s)
    ensures NamedEdges(o.s)
  {
    CallTouchesOnlyClosure(s, x, now, ord, o);
    forall p, c | c in Owned(o.s.idx, p) && c in o.s.objs
      ensures ListsOwner(o.s.objs[c], p)
    {
      assert c in Owned(s.idx, p) && ListsOwner(s.objs[c], p);
      assert o.s.objs[c].owners == s.objs[c].owners && o.s.objs[c].key == s.objs[c].key;
    }
  }

  lemma SyncNamed(s: State, x: Ref, now: int)
    requires NamedEdges(s)
    ensures NamedEdges(Sync(s, x, now))
  {
    var t := Sync(s, x, now);
    forall p, c | c in Owned(t.idx, p) && c in t.objs
      ensures ListsOwner(t.objs[c], p)
    {
      assert c in Owned(s.idx, p) && ListsOwner(s.objs[c], p);
      assert t.objs[c].owners == s.objs[c].owners && t.objs[c].key == s.objs[c].key;
    }
  }

  lemma StoreNamed(g: Group, a: Action)
    requires WellKept(g.t) && NamedEdges(g.t) && CanRun(g, a) && (a.Create? || a.Update?)
    ensures NamedEdges(Run(g, a).t) <==> ClaimsEntries(g, a)
  {
    StoreSucceedsWhen(g.t, a.obj, a.Update?, a.now);
    if Store(g.t, a.obj, a.Update?, a.now).1.None? {
      var t := Store(g.t, a.obj, a.Update?, a.now).0;
      StoreStores(g.t, a.obj, a.Update?, a.now);
      if a.Create? { CreateNamed(g.t, t, a.obj); } else { UpdateNamed(g.t, t, a.obj); }
    }
  }

  /** Every step keeps the index to real references, a Create if and only if it names the owners that its name is
      still recorded under. */
  lemma StepNamed(g: Group, a: Action)
    requires WellKept(g.t) && NamedEdges(g.t) && CanRun(g, a)
    ensures NamedEdges(Run(g, a).t) <==> ClaimsEntries(g, a)
  {
    match a
    case Create(_, _) => StoreNamed(g, a);
    case Update(_, _) => StoreNamed(g, a);
    case DeleteSection(x, now, ord, o) => CallNamed(g.t, x, now, ord, o);
    case GcRun(x, now, ord, o) => CallNamed(g.t, x, now, ord, o);
    case SyncRun(x, now) => SyncNamed(g.t, x, now);
    case _ =>
  }

  ghost predicate ClaimsUpTo(run: seq<Group>, acts: seq<Action>, n: nat)
    requires n <= |acts| <= |run|
  {
    forall i | 0 <= i < n :: ClaimsEntries(run[i], acts[i])
  }

  /** In every state of every history whose Creates do so, only real references are recorded. */
  lemma {:induction false} HistoryNamed(run: seq<Group>, acts: seq<Action>, n: nat)
    requires IsHistory(run, acts) && n < |run| && ClaimsUpTo(run, acts, n)
    ensures NamedEdges(run[n].t)
  {
    if n > 0 {
      HistoryNamed(run, acts, n - 1);
      NamedAfter(run, acts, n - 1);
    }
  }

  lemma NamedAfter(run: seq<Group>, acts: seq<Action>, k: nat)
    requires IsHistory(run, acts) && k < |acts| && NamedEdges(run[k].t) && ClaimsEntries(run[k], acts[k])
    ensures NamedEdges(run[k + 1].t)
  {
    HistoryWellKept(run, acts, k);
    StepOf(run, acts, k);
    StepNamed(run[k], acts[k]);
  }

  // ---------------------------------------------------------------- cascades by references

  /** `c` is `n` owner references below `x`. */
  ghost predicate Descends(s: State, x: Ref, c: Ref, n: nat)
    decreases n
  {
    if n == 0 then c == x
    else c in s.objs && exists p :: Descends(s, x, p, n - 1) && ListsOwner(s.objs[c], p)
  }

  ghost predicate IsDescendant(s: State, x: Ref, c: Ref) {
    exists n: nat :: n > 0 && Descends(s, x, c, n)
  }

  lemma {:induction false} BelowDescends(s: State, x: Ref, c: Ref, n: nat)
    requires WellKept(s) && NamedEdges(s) && Below(s, x, c, n)
    requires n > 0 ==> c in s.objs
    ensures Descends(s, x, c, n)
    decreases n
  {
    if n > 0 {
      var p :| Below(s, x, p, n - 1) && c in Owned(s.idx, p);
      BelowDescends(s, x, p, n - 1);
      assert ListsOwner(s.objs[c], p);
    }
  }

  /** Owners of recorded objects are tracked, so a chain of index edges to a tracked object is one of references. */
  lemma ReachedDescends(s: State, x: Ref, c: Ref)
    requires WellKept(s) && NamedEdges(s) && Reaches(s, x, c) && c in s.objs && c != x
    ensures IsDescendant(s, x, c)
  {
    var n: nat :| Below(s, x, c, n);
    assert n > 0;
    BelowDescends(s, x, c, n);
  }

  /** Whatever a deletion removes or changes, its target aside, is a descendant of the target by owner references:
      on every outcome. */
  lemma OnlyDescendantsChange(s: State, x: Ref, now: int, ord: Order, o: Outcome, c: Ref)
    requires IsOrder(ord) && Ends(s, x, now, ord, o) && WellKept(s) && NamedEdges(s)
    requires c in s.objs && c != x && (c !in o.s.objs || o.s.objs[c] != s.objs[c])
    ensures IsDescendant(s, x, c)
    ensures exists p :: Reaches(s, x, p) && ListsOwner(s.objs[c], p)
  {
    CallTouchesOnlyClosure(s, x, now, ord, o);
    ReachedDescends(s, x, c);
    var n: nat :| Below(s, x, c, n);
    assert n > 0;
    var p :| Below(s, x, p, n - 1) && c in Owned(s.idx, p);
    assert Reaches(s, x, p) && ListsOwner(s.objs[c], p);
  }

  /** A descendant by a chain of objects none of which is marked, `x` aside. */
  ghost predicate LiveDescends(s: State, x: Ref, c: Ref, n: nat)
    decreases n
  {
    if n == 0 then c == x
    else c in s.objs && s.objs[c].deletion.None? && exists p :: LiveDescends(s, x, p, n - 1) && ListsOwner(s.objs[c], p)
  }

  lemma {:induction false} LiveIsBelow(s: State, x: Ref, c: Ref, n: nat)
    requires Complete(s) && LiveDescends(s, x, c, n)
    ensures Below(s, x, c, n)
    decreases n
  {
    if n > 0 {
      var p :| LiveDescends(s, x, p, n - 1) && ListsOwner(s.objs[c], p);
      LiveIsBelow(s, x, p, n - 1);
      assert c in Owned(s.idx, p);
    }
  }

  /** With a complete index, a successful deletion leaves no live descendant without a mark. */
  lemma LiveDescendantsGo(s: State, x: Ref, now: int, ord: Order, o: Outcome, c: Ref, n: nat)
    requires IsOrder(ord) && Ends(s, x, now, ord, o) && o.err.None? && Complete(s) && LiveDescends(s, x, c, n)
    ensures c in o.s.objs ==> Kept(s.objs[c]) && o.s.objs[c].deletion.Some?
  {
    SuccessIsExact(s, x, now, ord, o);
    LiveIsBelow(s, x, c, n);
    assert Reaches(s, x, c);
  }

  /** No object but perhaps the target is marked. */
  ghost predicate NoneMarked(s: State, x: Ref) {
    forall d | d in s.objs && d != x :: s.objs[d].deletion.None?
  }

  lemma {:induction false} UnmarkedLive(s: State, x: Ref, c: Ref, n: nat)
    requires NoneMarked(s, x) && Descends(s, x, c, n)
    requires c != x || n == 0
    ensures exists m: nat :: LiveDescends(s, x, c, m) && (n > 0 ==> m > 0)
    decreases n
  {
    if n == 0 {
      assert LiveDescends(s, x, c, 0);
    } else {
      var p :| Descends(s, x, p, n - 1) && ListsOwner(s.objs[c], p);
      if p == x {
        assert LiveDescends(s, x, x, 0);
        assert LiveDescends(s, x, c, 1);
      } else {
        UnmarkedLive(s, x, p, n - 1);
        var m: nat :| LiveDescends(s, x, p, m);
        assert LiveDescends(s, x, c, m + 1);
      }
    }
  }

  /** With a complete index of real references and nothing marked yet, what lies under an object in the index are
      exactly its descendants. */
  lemma ReachesIffDescendant(s: State, x: Ref, c: Ref)
    requires WellKept(s) && NamedEdges(s) && Complete(s) && NoneMarked(s, x)
    requires c in s.objs && c != x
    ensures Reaches(s, x, c) <==> IsDescendant(s, x, c)
  {
    if Reaches(s, x, c) { ReachedDescends(s, x, c); }
    if IsDescendant(s, x, c) {
      var n: nat :| n > 0 && Descends(s, x, c, n);
      UnmarkedLive(s, x, c, n);
      var m: nat :| LiveDescends(s, x, c, m);
      LiveIsBelow(s, x, c, m);
    }
  }

  /** Then a successful deletion removes exactly the descendants without finalizers and marks exactly the others. */
  lemma SuccessByReferences(s: State, x: Ref, now: int, ord: Order, o: Outcome, c: Ref)
    requires IsOrder(ord) && Ends(s, x, now, ord, o) && o.err.None?
    requires WellKept(s) && NamedEdges(s) && Complete(s) && NoneMarked(s, x)
    requires c in s.objs && c != x
    ensures c !in o.s.objs <==> IsDescendant(s, x, c) && !Kept(s.objs[c])
    ensures c in o.s.objs ==>
              o.s.objs[c] == if IsDescendant(s, x, c) then Mark(s.objs[c], now) else s.objs[c]
  {
    SuccessIsExact(s, x, now, ord, o);
    ReachesIffDescendant(s, x, c);
  }
}

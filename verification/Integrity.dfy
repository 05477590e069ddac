/** Exactly which states keep referential integrity, whatever comes. */
module Integrity {
  import opened Text
  import opened Objects
  import opened Tracker
  import opened Ownership
  import opened Cascade
  import opened Settled
  import opened Deletion
  import opened Machine

  /** Every unmarked object is recorded under each owner that it names, itself aside. */
  ghost predicate RecordsOthers(s: State) {
    forall c, r | c in s.objs && s.objs[c].deletion.None? && ListsOwner(s.objs[c], r) && r != c :: c in Owned(s.idx, r)
  }

  /** No owner other than the object loses one of several references to it. */
  ghost predicate KeepsOtherEdges(ns: string, was: seq<OwnerRef>, now: seq<OwnerRef>, c: Ref) {
    forall r | r != c :: OnlyIn(ns, was, now, r) && Names(ns, now, r) ==> OnlyIn(ns, now, was, r)
  }

  ghost predicate OthersSafe(g: Group, a: Action) {
    a.Update? && Store(g.t, a.obj, true, a.now).1.None? ==>
      || Store(g.t, a.obj, true, a.now).0.objs[a.obj.Id()].deletion.Some?
      || KeepsOtherEdges(a.obj.key.namespace, PriorOwners(g.t, a.obj), a.obj.owners, a.obj.Id())
  }

  // ---------------------------------------------------------------- one step

  lemma StoredRecords(s: State, t: State, obj: Obj)
    requires WellKept(s) && RecordsOthers(s) && OwnersTracked(s) && Stored(s, t, obj)
    ensures OwnersTracked(t)
    ensures RecordsOthers(t) <==>
              || t.objs[obj.Id()].deletion.Some?
              || KeepsOtherEdges(obj.key.namespace, PriorOwners(s, obj), obj.owners, obj.Id())
  {
    var ns, was, c := obj.key.namespace, PriorOwners(s, obj), obj.Id();
    forall d, r | d != c && d in s.objs && s.objs[d].deletion.None? && ListsOwner(s.objs[d], r) && r != d
      ensures d in Owned(t.idx, r)
    {
      StoredEdges(s, t, obj, r);
    }
    if t.objs[c].deletion.None? {
      forall r | r != c
        ensures Names(ns, obj.owners, r) ==>
                  (c in Owned(t.idx, r) <==> (OnlyIn(ns, was, obj.owners, r) ==> OnlyIn(ns, obj.owners, was, r)))
      {
        StoredEdges(s, t, obj, r);
        if Names(ns, obj.owners, r) && !OnlyIn(ns, obj.owners, was, r) {
          assert Names(ns, was, r);
          assert ListsOwner(s.objs[c], r);
        }
      }
      assert forall r :: ListsOwner(t.objs[c], r) <==> Names(ns, obj.owners, r);
    }
  }

  /** An object that a cascade leaves unmarked keeps its owners, and its entries under others. */
  lemma UnmarkedOthers(s: State, done: seq<Ref>, now: int, c: Ref)
    requires Topo(s, done) && WellKept(s) && RecordsOthers(s) && OwnersTracked(s)
    requires c in Apply(s, done, now).objs && Apply(s, done, now).objs[c].deletion.None?
    ensures c !in done && Apply(s, done, now).objs[c] == s.objs[c]
    ensures forall r | ListsOwner(s.objs[c], r) :: r !in done && (r != c ==> c in Owned(Apply(s, done, now).idx, r))
    ensures OwnersOk(Apply(s, done, now).objs, s.objs[c])
  {
    forall r | ListsOwner(s.objs[c], r)
      ensures r !in done && (r != c ==> c in Owned(s.idx, r))
    {
      if r != c && r in done { OwnedSettled(s, done, r, c); }
    }
    forall o | o in s.objs[c].owners
      ensures OwnerOf(c.key.namespace, o).Some? && OwnerOf(c.key.namespace, o).value in Apply(s, done, now).objs
    {
      assert ListsOwner(s.objs[c], OwnerOf(c.key.namespace, o).value);
    }
  }

  lemma CallRecords(s: State, x: Ref, now: int, ord: Order, o: Outcome)
    requires IsOrder(ord) && Ends(s, x, now, ord, o) && WellKept(s) && RecordsOthers(s) && OwnersTracked(s)
    ensures RecordsOthers(o.s) && OwnersTracked(o.s)
  {
    var done := WhatRan(s, x, now, ord, o);
    assert o.s.objs == Apply(s, done, now).objs && o.s.idx == Apply(s, done, now).idx;
    forall c | c in o.s.objs && o.s.objs[c].deletion.None?
      ensures c in s.objs && o.s.objs[c] == s.objs[c]
      ensures forall r | ListsOwner(s.objs[c], r) && r != c :: c in Owned(o.s.idx, r)
      ensures OwnersOk(o.s.objs, o.s.objs[c])
    {
      UnmarkedOthers(s, done, now, c);
    }
  }

  lemma SyncRecords(s: State, x: Ref, now: int)
    requires WellKept(s) && RecordsOthers(s) && OwnersTracked(s)
    ensures RecordsOthers(Sync(s, x, now)) && OwnersTracked(Sync(s, x, now))
  {
    var t := Sync(s, x, now);
    assert t.objs.Keys == s.objs.Keys && t.idx == s.idx;
    forall r | r in s.objs
      ensures t.objs[r].owners == s.objs[r].owners && t.objs[r].Id() == s.objs[r].Id()
      ensures t.objs[r].deletion == s.objs[r].deletion
      ensures OwnersOk(t.objs, t.objs[r]) <==> OwnersOk(s.objs, s.objs[r])
      ensures forall q :: ListsOwner(t.objs[r], q) <==> ListsOwner(s.objs[r], q)
    {
    }
  }

  lemma NewObjectKeepsOtherEdges(ns: string, now: seq<OwnerRef>, c: Ref)
    ensures KeepsOtherEdges(ns, [], now, c)
  {
  }

  lemma StoreStepRecords(g: Group, a: Action)
    requires WellKept(g.t) && RecordsOthers(g.t) && OwnersTracked(g.t) && CanRun(g, a) && (a.Create? || a.Update?)
    ensures OwnersTracked(Run(g, a).t)
    ensures RecordsOthers(Run(g, a).t) <==> OthersSafe(g, a)
  {
    StoreSucceedsWhen(g.t, a.obj, a.Update?, a.now);
    if Store(g.t, a.obj, a.Update?, a.now).1.None? {
      var t := Store(g.t, a.obj, a.Update?, a.now).0;
      StoreStores(g.t, a.obj, a.Update?, a.now);
      StoredRecords(g.t, t, a.obj);
      if a.Create? { NewObjectKeepsOtherEdges(a.obj.key.namespace, a.obj.owners, a.obj.Id()); }
    }
  }

  /** Every step keeps owners tracked, and keeps the records if and only if it is safe for other owners. */
  lemma StepRecords(g: Group, a: Action)
    requires WellKept(g.t) && RecordsOthers(g.t) && OwnersTracked(g.t) && CanRun(g, a)
    ensures OwnersTracked(Run(g, a).t)
    ensures RecordsOthers(Run(g, a).t) <==> OthersSafe(g, a)
  {
    match a
    case Create(_, _) => StoreStepRecords(g, a);
    case Update(_, _) => StoreStepRecords(g, a);
    case DeleteSection(x, now, ord, o) => CallRecords(g.t, x, now, ord, o);
    case GcRun(x, now, ord, o) => CallRecords(g.t, x, now, ord, o);
    case SyncRun(x, now) => SyncRecords(g.t, x, now);
    case _ =>
  }

  // ---------------------------------------------------------------- what comes next

  /** `acts` are safe steps that lead from `g` to `h`. */
  ghost predicate Leads(g: Group, acts: seq<Action>, h: Group)
    decreases acts
  {
    if acts == [] then h == g
    else CanRun(g, acts[0]) && OthersSafe(g, acts[0]) && Leads(Run(g, acts[0]), acts[1..], h)
  }

  lemma {:induction false} LeadsThen(g: Group, a: seq<Action>, h: Group, b: seq<Action>, k: Group)
    requires Leads(g, a, h) && Leads(h, b, k)
    ensures Leads(g, a + b, k)
    decreases a
  {
    if a == [] {
      assert a + b == b;
    } else {
      LeadsThen(Run(g, a[0]), a[1..], h, b, k);
      assert (a + b)[1..] == a[1..] + b;
    }
  }

  lemma OneStepLeads(g: Group, a: Action)
    requires CanRun(g, a) && OthersSafe(g, a)
    ensures Leads(g, [a], Run(g, a))
  {
    assert [a][1..] == [];
  }

  lemma {:induction false} LeadsKeeps(g: Group, acts: seq<Action>, h: Group)
    requires WellKept(g.t) && RecordsOthers(g.t) && OwnersTracked(g.t) && Leads(g, acts, h)
    ensures OwnersTracked(h.t)
    decreases acts
  {
    if acts != [] {
      StepRecords(g, acts[0]);
      StepWellKept(g, acts[0]);
      LeadsKeeps(Run(g, acts[0]), acts[1..], h);
    }
  }

  // ---------------------------------------------------------------- an unrecorded object can be left dangling

  /** `c` names its owner `r` by `o`, and `r` does not know. */
  ghost predicate Loose(g: Group, r: Ref, c: Ref, o: OwnerRef) {
    && WellKept(g.t) && r in g.t.objs && c in g.t.objs && r != c
    && g.t.objs[c].deletion.None? && o in g.t.objs[c].owners && OwnerOf(c.key.namespace, o) == Some(r)
    && c !in Owned(g.t.idx, r)
  }

  /** What storing another object leaves of it. */
  lemma StaysLoose(g: Group, a: Action, r: Ref, c: Ref, o: OwnerRef)
    requires Loose(g, r, c, o) && (a.Create? || a.Update?) && a.obj.Id() != c
    requires Store(g.t, a.obj, a.Update?, a.now).1.None?
    ensures Loose(Run(g, a), r, c, o) && Stored(g.t, Run(g, a).t, a.obj)
  {
    StepWellKept(g, a);
    StoreStores(g.t, a.obj, a.Update?, a.now);
    StoredEdges(g.t, Run(g, a).t, a.obj, r);
  }

  /** The object `d`, rewritten by a client: other owners, other finalizers. */
  function Rewritten(g: Group, d: Ref, owners: seq<OwnerRef>, finalizers: seq<string>): Action
    requires d in g.t.objs
  {
    Update(g.t.objs[d].(owners := owners, finalizers := finalizers), 0)
  }

  lemma RewriteRuns(g: Group, r: Ref, c: Ref, o: OwnerRef, d: Ref, owners: seq<OwnerRef>, finalizers: seq<string>)
    requires Loose(g, r, c, o) && d in g.t.objs && d != c
    requires owners == [] || (owners == [o] && d.key.namespace == c.key.namespace && !ListsOwner(g.t.objs[d], r))
    ensures var a, h := Rewritten(g, d, owners, finalizers), Run(g, Rewritten(g, d, owners, finalizers));
            && Leads(g, [a], h) && Loose(h, r, c, o) && Stored(g.t, h.t, a.obj) && a.obj.Id() == d
            && h.t.objs[d].finalizers == finalizers
  {
    var a := Rewritten(g, d, owners, finalizers);
    assert a.obj.Id() == d && PriorOwners(g.t, a.obj) == g.t.objs[d].owners;
    StoreSucceedsWhen(g.t, a.obj, true, 0);
    assert OwnersOk(g.t.objs, a.obj);
    StaysLoose(g, a, r, c, o);
    RewriteSafe(g.t.objs[d].key.namespace, g.t.objs[d].owners, owners, o, r);
    OneStepLeads(g, a);
  }

  lemma RewriteSafe(ns: string, was: seq<OwnerRef>, owners: seq<OwnerRef>, o: OwnerRef, r: Ref)
    requires owners == [] || (owners == [o] && OwnerOf(ns, o) == Some(r) && !Names(ns, was, r))
    ensures KeepsEdges(ns, was, owners)
  {
  }

  /** Storing `d` with the reference `o` alone leaves its entry under `r`. */
  lemma EntryStays(s: State, t: State, obj: Obj, r: Ref, o: OwnerRef)
    requires Stored(s, t, obj) && obj.owners == [o] && OwnerOf(obj.key.namespace, o) == Some(r)
    requires obj.Id() in Owned(s.idx, r)
    requires !Names(obj.key.namespace, PriorOwners(s, obj), r)
    ensures Owned(t.idx, r) == Owned(s.idx, r) && ListsOwner(t.objs[obj.Id()], r)
  {
    StoredEdges(s, t, obj, r);
    assert o in t.objs[obj.Id()].owners;
  }

  /** Storing `d` without the references to `r` that it had takes it out. */
  lemma EntryGoes(s: State, t: State, obj: Obj, r: Ref)
    requires Stored(s, t, obj) && obj.owners == [] && obj.Id() in s.objs && ListsOwner(s.objs[obj.Id()], r)
    requires s.objs[obj.Id()].key == obj.key
    ensures Owned(t.idx, r) == Owned(s.idx, r) - {obj.Id()}
  {
    StoredEdges(s, t, obj, r);
    var p :| p in s.objs[obj.Id()].owners && OwnerOf(obj.key.namespace, p) == Some(r);
    assert OnlyIn(obj.key.namespace, PriorOwners(s, obj), [], r);
  }

  lemma CreateNaming(g: Group, r: Ref, c: Ref, o: OwnerRef, d: Ref) returns (acts: seq<Action>, h: Group)
    requires Loose(g, r, c, o) && d in Owned(g.t.idx, r) && d !in g.t.objs
    ensures Leads(g, acts, h) && Loose(h, r, c, o) && Owned(h.t.idx, r) == Owned(g.t.idx, r)
    ensures d in h.t.objs && ListsOwner(h.t.objs[d], r)
  {
    var a := Create(Obj(d.gvk, d.key, [o], [], None, 0, "", None, ""), 0);
    StoreSucceedsWhen(g.t, a.obj, false, 0);
    StaysLoose(g, a, r, c, o);
    OneStepLeads(g, a);
    acts, h := [a], Run(g, a);
    EntryStays(g.t, h.t, a.obj, r, o);
  }

  lemma RewriteNaming(g: Group, r: Ref, c: Ref, o: OwnerRef, d: Ref) returns (acts: seq<Action>, h: Group)
    requires Loose(g, r, c, o) && d in Owned(g.t.idx, r) && d in g.t.objs && !ListsOwner(g.t.objs[d], r)
    ensures Leads(g, acts, h) && Loose(h, r, c, o) && Owned(h.t.idx, r) == Owned(g.t.idx, r)
    ensures d in h.t.objs && ListsOwner(h.t.objs[d], r)
  {
    var a := Rewritten(g, d, [o], g.t.objs[d].finalizers);
    RewriteRuns(g, r, c, o, d, [o], g.t.objs[d].finalizers);
    acts, h := [a], Run(g, a);
    EntryStays(g.t, h.t, a.obj, r, o);
  }

  /** Makes `d`, which is in the entry of `r`, name `r`. */
  lemma NameOwner(g: Group, r: Ref, c: Ref, o: OwnerRef, d: Ref) returns (acts: seq<Action>, h: Group)
    requires Loose(g, r, c, o) && d in Owned(g.t.idx, r)
    ensures Leads(g, acts, h) && Loose(h, r, c, o) && Owned(h.t.idx, r) == Owned(g.t.idx, r)
    ensures d in h.t.objs && ListsOwner(h.t.objs[d], r)
  {
    if d !in g.t.objs {
      acts, h := CreateNaming(g, r, c, o, d);
    } else if !ListsOwner(g.t.objs[d], r) {
      acts, h := RewriteNaming(g, r, c, o, d);
    } else {
      acts, h := [], g;
    }
  }

  /** Takes `d` out of the entry of `r`. */
  lemma ClearOne(g: Group, r: Ref, c: Ref, o: OwnerRef, d: Ref) returns (acts: seq<Action>, h: Group)
    requires Loose(g, r, c, o) && d in Owned(g.t.idx, r)
    ensures Leads(g, acts, h) && Loose(h, r, c, o) && Owned(h.t.idx, r) == Owned(g.t.idx, r) - {d}
  {
    var named;
    acts, named := NameOwner(g, r, c, o, d);
    var last;
    last, h := Unname(named, r, c, o, d);
    LeadsThen(g, acts, named, last, h);
    acts := acts + last;
  }

  lemma Unname(g: Group, r: Ref, c: Ref, o: OwnerRef, d: Ref) returns (acts: seq<Action>, h: Group)
    requires Loose(g, r, c, o) && d in g.t.objs && d != c && ListsOwner(g.t.objs[d], r)
    ensures Leads(g, acts, h) && Loose(h, r, c, o) && Owned(h.t.idx, r) == Owned(g.t.idx, r) - {d}
  {
    var a := Rewritten(g, d, [], g.t.objs[d].finalizers);
    RewriteRuns(g, r, c, o, d, [], g.t.objs[d].finalizers);
    acts, h := [a], Run(g, a);
    EntryGoes(g.t, h.t, a.obj, r);
  }

  lemma {:induction false} ClearAll(g: Group, r: Ref, c: Ref, o: OwnerRef) returns (acts: seq<Action>, h: Group)
    requires Loose(g, r, c, o)
    ensures Leads(g, acts, h) && Loose(h, r, c, o) && Owned(h.t.idx, r) == {}
    decreases |Owned(g.t.idx, r)|
  {
    if Owned(g.t.idx, r) == {} {
      acts, h := [], g;
    } else {
      var d :| d in Owned(g.t.idx, r);
      var first, mid := ClearOne(g, r, c, o, d);
      var rest;
      rest, h := ClearAll(mid, r, c, o);
      LeadsThen(g, first, mid, rest, h);
      acts := first + rest;
    }
  }

  /** With an empty entry and no finalizers, the owner goes and leaves `c` behind. */
  lemma RemoveOwner(g: Group, r: Ref, c: Ref, o: OwnerRef) returns (acts: seq<Action>, h: Group)
    requires Loose(g, r, c, o) && Owned(g.t.idx, r) == {}
    ensures Leads(g, acts, h) && !OwnersTracked(h.t)
  {
    var a := Rewritten(g, r, [], []);
    RewriteRuns(g, r, c, o, r, [], []);
    var bare := Run(g, a);
    StoredEdges(g.t, bare.t, a.obj, r);
    assert r !in bare.t.idx;
    var ord, out := DeleteLeaf(bare.t, r, 0);
    var last := DeleteSection(r, 0, ord, out);
    OneStepLeads(bare, last);
    h := Run(bare, last);
    LeadsThen(g, [a], bare, [last], h);
    acts := [a] + [last];
    assert h.t.objs[c] == bare.t.objs[c] && !OwnersOk(h.t.objs, h.t.objs[c]);
  }

  lemma LooseDangles(g: Group, r: Ref, c: Ref, o: OwnerRef) returns (acts: seq<Action>, h: Group)
    requires Loose(g, r, c, o)
    ensures Leads(g, acts, h) && !OwnersTracked(h.t)
  {
    var first, mid := ClearAll(g, r, c, o);
    var rest;
    rest, h := RemoveOwner(mid, r, c, o);
    LeadsThen(g, first, mid, rest, h);
    acts := first + rest;
  }

  // ---------------------------------------------------------------- exactly

  lemma UnrecordedDangles(g: Group) returns (acts: seq<Action>, h: Group)
    requires WellKept(g.t) && OwnersTracked(g.t) && !RecordsOthers(g.t)
    ensures Leads(g, acts, h) && !OwnersTracked(h.t)
  {
    var c, r :| c in g.t.objs && g.t.objs[c].deletion.None? && ListsOwner(g.t.objs[c], r) && r != c && c !in Owned(g.t.idx, r);
    var o :| o in g.t.objs[c].owners && OwnerOf(g.t.objs[c].key.namespace, o) == Some(r);
    acts, h := LooseDangles(g, r, c, o);
  }

  ghost predicate AlwaysIntegral(g: Group) {
    forall acts, h | Leads(g, acts, h) :: OwnersTracked(h.t)
  }

  /** Whatever safe steps come, owners stay tracked, if and only if every unmarked object is recorded under each other
      object that it names. */
  lemma IntegrityIff(g: Group)
    requires WellKept(g.t) && OwnersTracked(g.t)
    ensures AlwaysIntegral(g) <==> RecordsOthers(g.t)
  {
    if RecordsOthers(g.t) {
      forall acts, h | Leads(g, acts, h) ensures OwnersTracked(h.t) { LeadsKeeps(g, acts, h); }
    } else {
      var acts, h := UnrecordedDangles(g);
    }
  }

  ghost predicate SafeUpTo(run: seq<Group>, acts: seq<Action>, n: nat)
    requires n <= |acts| <= |run|
  {
    forall i | 0 <= i < n :: OthersSafe(run[i], acts[i])
  }

  /** In every state of every history of safe steps the records are kept and owners are tracked. */
  lemma {:induction false} HistoryRecords(run: seq<Group>, acts: seq<Action>, n: nat)
    requires IsHistory(run, acts) && n < |run| && SafeUpTo(run, acts, n)
    ensures RecordsOthers(run[n].t) && OwnersTracked(run[n].t)
  {
    if n > 0 {
      HistoryRecords(run, acts, n - 1);
      HistoryWellKept(run, acts, n - 1);
      StepOf(run, acts, n - 1);
      StepRecords(run[n - 1], acts[n - 1]);
    }
  }

  /** The guard on updates is exact: after safe steps, the next one leaves integrity certain if and only if it is safe. */
  lemma GuardIsExact(run: seq<Group>, acts: seq<Action>, n: nat)
    requires IsHistory(run, acts) && n < |acts| && SafeUpTo(run, acts, n)
    ensures AlwaysIntegral(run[n + 1]) <==> OthersSafe(run[n], acts[n])
  {
    HistoryRecords(run, acts, n);
    HistoryWellKept(run, acts, n);
    HistoryWellKept(run, acts, n + 1);
    StepOf(run, acts, n);
    StepRecords(run[n], acts[n]);
    IntegrityIff(run[n + 1]);
  }
}

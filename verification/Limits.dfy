/** Histories that show the guards of the theorems are needed. */
module Limits {
  import opened Text
  import opened Objects
  import opened Tracker
  import opened Ownership
  import opened Cascade
  import opened Closure
  import opened Deletion
  import opened Machine
  import Forest

  const KIND := Gvk("", "v1", "K")
  const OWNER := Ref(KIND, Key("ns", "owner"))
  const CHILD := Ref(KIND, Key("ns", "child"))

  function Plain(r: Ref, owners: seq<OwnerRef>, version: string): Obj {
    Obj(r.gvk, r.key, owners, [], None, 0, version, None, "")
  }

  /** A reference to an object of the example kind. */
  function To(r: Ref, uid: string): OwnerRef {
    OwnerRef("v1", "K", r.key.name, uid, Nil, Nil)
  }

  lemma ToNames(r: Ref, uid: string)
    requires r.gvk == KIND && r.key.namespace == "ns"
    ensures OwnerOf("ns", To(r, uid)) == Some(r)
  {
    assert "v1"[1..] == "1" && "1"[1..] == "";
    assert Slashes("v1") == 0;
  }

  /** An object that owns itself is in a cycle. */
  lemma {:induction false} SelfOwnerNotDeep(s: State, x: Ref, n: nat)
    requires x in s.objs && x in Owned(s.idx, x)
    ensures !Deep(s, x, n)
  {
    if n > 0 { SelfOwnerNotDeep(s, x, n - 1); }
  }

  /** Nothing stops an Update from making an object its own owner, and then its deletion need not return. */
  lemma CycleIsReachable() returns (run: seq<Group>, acts: seq<Action>)
    ensures IsHistory(run, acts)
    ensures !AlwaysReturns(run[|run| - 1].t, CHILD, 0)
  {
    var first, second := Plain(CHILD, [], ""), Plain(CHILD, [To(CHILD, "1")], "v1");
    var g1 := Run(INITIAL, Create(first, 0));
    LongerHistory([INITIAL], [], Create(first, 0), g1);
    OwnsItself(g1, first, second);
    var g2 := Run(g1, Update(second, 0));
    LongerHistory([INITIAL] + [g1], [] + [Create(first, 0)], Update(second, 0), g2);
    run, acts := [INITIAL] + [g1] + [g2], [] + [Create(first, 0)] + [Update(second, 0)];
    forall n: nat ensures !Deep(g2.t, CHILD, n) { SelfOwnerNotDeep(g2.t, CHILD, n); }
    FinishesIffBounded(g2.t, CHILD, 0);
  }

  lemma OwnsItself(g: Group, first: Obj, second: Obj)
    requires first == Plain(CHILD, [], "") && second == Plain(CHILD, [To(CHILD, "1")], "v1")
    requires g == Run(INITIAL, Create(first, 0))
    ensures CHILD in Run(g, Update(second, 0)).t.objs
    ensures CHILD in Owned(Run(g, Update(second, 0)).t.idx, CHILD)
  {
    ToNames(CHILD, "1");
    assert VersionOf(1) == "v1";
    assert g.t.objs == map[CHILD := BeforeCreate(first, 0)];
    assert OwnersOk(g.t.objs, second);
    StoreSucceedsWhen(g.t, second, true, 0);
    assert OnlyIn("ns", second.owners, [], CHILD) by { assert To(CHILD, "1") in second.owners; }
    ReindexOwned(g.t.idx, "ns", [], second.owners, CHILD, CHILD);
    assert Run(g, Update(second, 0)).t.idx == Reindex(g.t.idx, "ns", [], second.owners, CHILD);
  }

  const ONE := To(OWNER, "1")
  const TWO := To(OWNER, "2")
  const PARENT := Plain(OWNER, [], "")
  const TWICE := Plain(CHILD, [ONE, TWO], "")
  const ONCE := Plain(CHILD, [ONE], "v1")

  /** The owner, and a child that lists it twice. */
  lemma BothCreated() returns (g1: Group, g2: Group)
    ensures g1 == Run(INITIAL, Create(PARENT, 0)) && g2 == Run(g1, Create(TWICE, 0))
    ensures g2.t.objs == map[OWNER := BeforeCreate(PARENT, 0), CHILD := BeforeCreate(TWICE, 0)]
    ensures Owned(g2.t.idx, OWNER) == {CHILD} && g2.t.idx.Keys <= {OWNER}
  {
    ToNames(OWNER, "1");
    ToNames(OWNER, "2");
    g1, g2 := Run(INITIAL, Create(PARENT, 0)), Run(Run(INITIAL, Create(PARENT, 0)), Create(TWICE, 0));
    assert g1.t.objs.Keys == {OWNER} && g1.t.idx == map[];
    assert OwnersOk(g1.t.objs, TWICE);
    assert g2.t.idx == Reindex(map[], "ns", [], [ONE, TWO], CHILD);
    assert OnlyIn("ns", [ONE, TWO], [], OWNER) by { assert ONE in [ONE, TWO]; }
    ReindexOwned(map[], "ns", [], [ONE, TWO], CHILD, OWNER);
    forall r | r in g2.t.idx ensures r == OWNER { ReindexOwned(map[], "ns", [], [ONE, TWO], CHILD, r); }
  }

  /** Dropping one of the two references drops the only edge. */
  lemma DropLosesEdge(g2: Group)
    requires g2.t.objs == map[OWNER := BeforeCreate(PARENT, 0), CHILD := BeforeCreate(TWICE, 0)]
    requires Owned(g2.t.idx, OWNER) == {CHILD} && g2.t.idx[OWNER] != {}
    ensures var g3 := Run(g2, Update(ONCE, 0));
            && g3.t.objs.Keys == {OWNER, CHILD} && g3.t.objs[OWNER] == BeforeCreate(PARENT, 0)
            && g3.t.objs[CHILD].owners == [ONE] && g3.t.objs[CHILD].deletion.None? && g3.t.objs[CHILD].key == CHILD.key
            && OWNER !in g3.t.idx
  {
    ToNames(OWNER, "1");
    ToNames(OWNER, "2");
    assert VersionOf(1) == "v1";
    assert OwnersOk(g2.t.objs, ONCE);
    StoreSucceedsWhen(g2.t, ONCE, true, 0);
    assert OnlyIn("ns", [ONE, TWO], [ONE], OWNER) by { assert TWO in [ONE, TWO] && TWO !in [ONE]; }
    assert !OnlyIn("ns", [ONE], [ONE, TWO], OWNER);
    ReindexOwned(g2.t.idx, "ns", [ONE, TWO], [ONE], CHILD, OWNER);
    assert Run(g2, Update(ONCE, 0)).t.idx == Reindex(g2.t.idx, "ns", [ONE, TWO], [ONE], CHILD);
  }

  /** A child that lists its owner twice loses its index entry when an Update drops one of the two references;
      deleting the owner then leaves the child with an owner that does not exist. */
  lemma DoubleReferenceBreaksIntegrity() returns (run: seq<Group>, acts: seq<Action>)
    ensures IsHistory(run, acts)
    ensures !OwnersTracked(run[|run| - 1].t)
  {
    var g1, g2 := BothCreated();
    DropLosesEdge(g2);
    var g3 := Run(g2, Update(ONCE, 0));
    var ord, o := DeleteLeaf(g3.t, OWNER, 0);
    var last := DeleteSection(OWNER, 0, ord, o);
    LongerHistory([INITIAL], [], Create(PARENT, 0), g1);
    LongerHistory([INITIAL] + [g1], [] + [Create(PARENT, 0)], Create(TWICE, 0), g2);
    run, acts := [INITIAL] + [g1] + [g2], [] + [Create(PARENT, 0)] + [Create(TWICE, 0)];
    LongerHistory(run, acts, Update(ONCE, 0), g3);
    run, acts := run + [g3], acts + [Update(ONCE, 0)];
    LongerHistory(run, acts, last, Run(g3, last));
    run, acts := run + [Run(g3, last)], acts + [last];
    Dangles(o.s, g3.t);
  }

  lemma Dangles(s: State, before: State)
    requires CHILD in before.objs && s.objs == before.objs - {OWNER}
    requires before.objs[CHILD].owners == [ONE] && before.objs[CHILD].deletion.None? && before.objs[CHILD].key == CHILD.key
    ensures !OwnersTracked(s)
  {
    ToNames(OWNER, "1");
    assert ONE in s.objs[CHILD].owners;
  }

  // ---------------------------------------------------------------- a lost update

  const FIRST := Plain(CHILD, [], "").(payload := "first")
  const SECOND_LIFE := Plain(CHILD, [], "").(payload := "second")
  const MINE := Plain(CHILD, [], "v1").(payload := "mine")

  lemma CreatedFresh(g: Group, obj: Obj, now: int)
    requires g.t.objs == map[] && g.t.idx == map[] && obj.owners == []
    ensures var h := Run(g, Create(obj, now));
            h.t.objs == map[obj.Id() := BeforeCreate(obj, now)] && h.t.idx == map[]
  {
    StoreSucceedsWhen(g.t, obj, false, now);
  }

  lemma DeleteOnly(g: Group) returns (gone: Action)
    requires g.t.objs.Keys == {CHILD} && !Kept(g.t.objs[CHILD]) && g.t.idx == map[]
    ensures CanRun(g, gone) && Run(g, gone).t.objs == map[] && Run(g, gone).t.idx == map[]
  {
    var ord, o := DeleteLeaf(g.t, CHILD, 0);
    gone := DeleteSection(CHILD, 0, ord, o);
    CallTouchesOnlyClosure(g.t, CHILD, 0, ord, o);
    assert o.s.idx == map[];
  }

  lemma Overwrites(g: Group)
    requires g.t.objs == map[CHILD := BeforeCreate(SECOND_LIFE, 1)]
    ensures Store(g.t, MINE, true, 2).1.None?
    ensures CHILD in Run(g, Update(MINE, 2)).t.objs && Run(g, Update(MINE, 2)).t.objs[CHILD].payload == "mine"
  {
    assert VersionOf(1) == "v1";
    StoreSucceedsWhen(g.t, MINE, true, 2);
  }

  /** An object is created, deleted and created again. */
  lemma TwoLives() returns (run: seq<Group>, acts: seq<Action>)
    ensures IsHistory(run, acts) && |run| == 4
    ensures run[1].t.objs == map[CHILD := BeforeCreate(FIRST, 0)] && CHILD !in run[2].t.objs
    ensures run[3].t.objs == map[CHILD := BeforeCreate(SECOND_LIFE, 1)]
  {
    var g1 := Run(INITIAL, Create(FIRST, 0));
    CreatedFresh(INITIAL, FIRST, 0);
    var gone := DeleteOnly(g1);
    var g2 := Run(g1, gone);
    var g3 := Run(g2, Create(SECOND_LIFE, 1));
    CreatedFresh(g2, SECOND_LIFE, 1);
    run, acts := TwoSteps([INITIAL], [], g1, g2, Create(FIRST, 0), gone);
    LongerHistory(run, acts, Create(SECOND_LIFE, 1), g3);
    run, acts := run + [g3], acts + [Create(SECOND_LIFE, 1)];
  }

  /** An Update with the version of the first object is then accepted and overwrites the second, which its client
      never saw. */
  lemma RecreationLosesUpdate() returns (run: seq<Group>, acts: seq<Action>)
    ensures IsHistory(run, acts) && |run| == 5 && acts[3] == Update(MINE, 2)
    ensures CHILD in run[1].t.objs && run[1].t.objs[CHILD].version == MINE.version && CHILD !in run[2].t.objs
    ensures Store(run[3].t, MINE, true, 2).1.None? && CHILD in run[3].t.objs && CHILD in run[4].t.objs
    ensures !SameContent(run[1].t.objs[CHILD], run[3].t.objs[CHILD])
    ensures run[1].t.objs[CHILD].payload == "first" && run[3].t.objs[CHILD].payload == "second"
            && run[4].t.objs[CHILD].payload == "mine"
  {
    run, acts := TwoLives();
    assert VersionOf(1) == "v1";
    Overwrites(run[3]);
    var g4 := Run(run[3], Update(MINE, 2));
    LongerHistory(run, acts, Update(MINE, 2), g4);
    run, acts := run + [g4], acts + [Update(MINE, 2)];
  }

  lemma TwoSteps(run: seq<Group>, acts: seq<Action>, g1: Group, g2: Group, a1: Action, a2: Action)
    returns (run': seq<Group>, acts': seq<Action>)
    requires IsHistory(run, acts) && CanRun(run[|run| - 1], a1) && g1 == Run(run[|run| - 1], a1)
    requires CanRun(g1, a2) && g2 == Run(g1, a2)
    ensures run' == run + [g1, g2] && acts' == acts + [a1, a2] && IsHistory(run', acts')
  {
    LongerHistory(run, acts, a1, g1);
    LongerHistory(run + [g1], acts + [a1], a2, g2);
    run', acts' := run + [g1] + [g2], acts + [a1] + [a2];
  }

  // ---------------------------------------------------------------- a stale entry

  const OWNED_CHILD := Plain(CHILD, [ONE], "")
  const FREE_CHILD := Plain(CHILD, [], "")

  /** The owner and the child, without finalizers, and the child under the owner. */
  ghost predicate Family(s: State) {
    && s.objs.Keys == {OWNER, CHILD} && !Kept(s.objs[OWNER]) && !Kept(s.objs[CHILD])
    && s.idx == map[OWNER := {CHILD}]
  }

  lemma OneEdge()
    ensures Reindex(map[], "ns", [], [ONE], CHILD) == map[OWNER := {CHILD}]
  {
    ToNames(OWNER, "1");
    var none: Index := map[];
    assert DropEdges(none, "ns", [], [ONE], CHILD) == none;
    assert [ONE][1..] == [];
    assert Owned(none, OWNER) + {CHILD} == {CHILD};
    assert AddEdge(none, OWNER, CHILD) == map[OWNER := {CHILD}];
    assert OwnerOf("ns", [ONE][0]) == Some(OWNER);
    assert AddEdges(none, "ns", [], [ONE], CHILD) == AddEdges(AddEdge(none, OWNER, CHILD), "ns", [], [ONE][1..], CHILD);
  }

  lemma OwnedCreated() returns (g1: Group, g2: Group)
    ensures g1 == Run(INITIAL, Create(PARENT, 0)) && g2 == Run(g1, Create(OWNED_CHILD, 0)) && Family(g2.t)
  {
    ToNames(OWNER, "1");
    CreatedFresh(INITIAL, PARENT, 0);
    g1, g2 := Run(INITIAL, Create(PARENT, 0)), Run(Run(INITIAL, Create(PARENT, 0)), Create(OWNED_CHILD, 0));
    assert OwnersOk(g1.t.objs, OWNED_CHILD);
    StoreSucceedsWhen(g1.t, OWNED_CHILD, false, 0);
    OneEdge();
    assert g2.t.idx == Reindex(map[], "ns", [], [ONE], CHILD);
  }

  /** Deleting the child alone leaves the entry, which then holds for its successor. */
  lemma ChildRecreated(g: Group) returns (gone: Action)
    requires Family(g.t)
    ensures CanRun(g, gone) && gone.DeleteSection? && gone.x == CHILD
    ensures var h := Run(Run(g, gone), Create(FREE_CHILD, 1));
            Family(h.t) && h.t.objs[CHILD].owners == []
  {
    var ord, o := DeleteLeaf(g.t, CHILD, 0);
    gone := DeleteSection(CHILD, 0, ord, o);
    CallTouchesOnlyClosure(g.t, CHILD, 0, ord, o);
    assert o.s.idx == g.t.idx by {
      assert OWNER in o.s.idx by { if OWNER !in o.s.idx { OnlyItself(g.t); } }
    }
    assert o.s.objs == g.t.objs - {CHILD};
    StoreSucceedsWhen(o.s, FREE_CHILD, false, 1);
  }

  lemma OnlyItself(s: State)
    requires Family(s)
    ensures !Reaches(s, CHILD, OWNER)
  {
    forall n: nat ensures !Below(s, CHILD, OWNER, n) {
      assert forall p :: OWNER !in Owned(s.idx, p);
    }
  }

  lemma OnlyMember(q: seq<Ref>, r: Ref)
    requires Enumerates(q, {r})
    ensures q == [r]
  {
    assert r in q;
    forall i | 0 <= i < |q| ensures q[i] == r { assert q[i] in q; }
    Forest.DistinctFit(q, {r});
  }

  lemma DeleteFamily(s: State, now: int) returns (ord: Order, o: Outcome)
    requires Family(s)
    ensures IsOrder(ord) && Ends(s, OWNER, now, ord, o) && o.err.None? && o.s.objs == map[]
  {
    ord := WorstOrder(s);
    var refs := ord(OWNER, {CHILD});
    assert Enumerates(refs, {CHILD});
    OnlyMember(refs, CHILD);
    o := Try(s, OWNER, now, ord, 3);
    assert Try(s, CHILD, now, ord, 2) == Finished(s.(objs := s.objs - {CHILD}, idx := s.idx - {CHILD}), true, None);
    var left := s.(objs := s.objs - {CHILD}, idx := s.idx - {CHILD});
    assert TryAll(left, refs[1..], now, ord, 2) == Finished(left, true, None);
    assert left.objs - {OWNER} == map[];
  }

  /** A child is deleted on its own and created again without owners. */
  lemma RecreatedChild() returns (run: seq<Group>, acts: seq<Action>)
    ensures IsHistory(run, acts) && |run| == 5
    ensures acts[2].DeleteSection? && acts[2].x == CHILD && acts[3] == Create(FREE_CHILD, 1)
    ensures Family(run[4].t) && run[4].t.objs[CHILD].owners == []
  {
    var g1, g2 := OwnedCreated();
    var gone := ChildRecreated(g2);
    var g3 := Run(g2, gone);
    run, acts := TwoSteps([INITIAL], [], g1, g2, Create(PARENT, 0), Create(OWNED_CHILD, 0));
    run, acts := TwoSteps(run, acts, g3, Run(g3, Create(FREE_CHILD, 1)), gone, Create(FREE_CHILD, 1));
  }

  /** Deleting its former owner then succeeds, and takes away an object that never named it. */
  lemma RecreationIsCaught() returns (run: seq<Group>, acts: seq<Action>)
    ensures IsHistory(run, acts) && |run| == 6
    ensures acts[2].DeleteSection? && acts[2].x == CHILD && acts[3] == Create(FREE_CHILD, 1)
    ensures CHILD in run[4].t.objs && run[4].t.objs[CHILD].owners == []
    ensures acts[4].DeleteSection? && acts[4].x == OWNER && acts[4].o.Finished? && acts[4].o.err.None? && CHILD !in run[5].t.objs
  {
    run, acts := RecreatedChild();
    var g := run[4];
    var ord, o := DeleteFamily(g.t, 2);
    var last := DeleteSection(OWNER, 2, ord, o);
    LongerHistory(run, acts, last, Run(g, last));
    run, acts := run + [Run(g, last)], acts + [last];
  }

  // ---------------------------------------------------------------- an equal reference behind other pointers

  /** A controller reference to the example owner, and the same read or decoded again. */
  const CONTROLLED := To(OWNER, "1").(controller := Pointer.To(true, 1))
  const CONTROLLED_AGAIN := To(OWNER, "1").(controller := Pointer.To(true, 2))
  const GUARDED_CHILD := Plain(CHILD, [CONTROLLED], "").(finalizers := ["f"])
  const OWNED_PARENT := Plain(OWNER, [To(CHILD, "2")], "")

  lemma ControlledNames()
    ensures OwnerOf("ns", CONTROLLED) == OwnerOf("ns", CONTROLLED_AGAIN) == Some(OWNER)
    ensures OwnerOf("ns", To(CHILD, "2")) == Some(CHILD)
  {
    ToNames(OWNER, "1");
    ToNames(CHILD, "2");
  }

  /** The index entry of one owner for one child with a single reference. */
  lemma OneNewEdge(idx: Index, o: OwnerRef, owner: Ref, c: Ref)
    requires OwnerOf("ns", o) == Some(owner)
    ensures Reindex(idx, "ns", [], [o], c) == AddEdge(idx, owner, c)
  {
    assert DropEdges(idx, "ns", [], [o], c) == idx;
    assert [o][1..] == [] && [o][0] == o;
    assert AddEdges(idx, "ns", [], [o], c) == AddEdges(AddEdge(idx, owner, c), "ns", [], [o][1..], c);
  }

  lemma GuardedCreated() returns (g1: Group, g2: Group)
    ensures g1 == Run(INITIAL, Create(PARENT, 0)) && g2 == Run(g1, Create(GUARDED_CHILD, 0))
    ensures g2.t.objs == map[OWNER := BeforeCreate(PARENT, 0), CHILD := BeforeCreate(GUARDED_CHILD, 0)]
    ensures g2.t.idx == map[OWNER := {CHILD}]
  {
    ControlledNames();
    CreatedFresh(INITIAL, PARENT, 0);
    g1, g2 := Run(INITIAL, Create(PARENT, 0)), Run(Run(INITIAL, Create(PARENT, 0)), Create(GUARDED_CHILD, 0));
    StoreSucceedsWhen(g1.t, GUARDED_CHILD, false, 0);
    OneNewEdge(map[], CONTROLLED, OWNER, CHILD);
    assert g2.t.idx == Reindex(map[], "ns", [], [CONTROLLED], CHILD);
    assert Owned(map[], OWNER) + {CHILD} == {CHILD};
  }

  /** Deleting the owner marks the child and clears the entry. */
  lemma DeleteGuarded(s: State) returns (ord: Order, o: Outcome)
    requires s.objs == map[OWNER := BeforeCreate(PARENT, 0), CHILD := BeforeCreate(GUARDED_CHILD, 0)]
    requires s.idx == map[OWNER := {CHILD}]
    ensures IsOrder(ord) && Ends(s, OWNER, 0, ord, o) && o.err.None?
    ensures o.s.objs == map[CHILD := Mark(BeforeCreate(GUARDED_CHILD, 0), 0)] && o.s.idx == map[]
  {
    ord := WorstOrder(s);
    var refs := ord(OWNER, {CHILD});
    OnlyMember(refs, CHILD);
    o := Try(s, OWNER, 0, ord, 3);
    var child := Try(s, CHILD, 0, ord, 2);
    assert child == Settle(s.(idx := s.idx - {CHILD}), CHILD, s.objs[CHILD], 0);
    assert child.s.objs == s.objs[CHILD := Mark(s.objs[CHILD], 0)] && child.s.idx == s.idx;
    var left := child.s.(gc := child.s.gc + {CHILD});
    assert TryAll(left, refs[1..], 0, ord, 2) == Finished(left, true, None);
  }

  /** The next owner of that name is owned by the child. */
  lemma OwnedParentCreated(g: Group)
    requires g.t.objs == map[CHILD := Mark(BeforeCreate(GUARDED_CHILD, 0), 0)] && g.t.idx == map[]
    ensures var h := Run(g, Create(OWNED_PARENT, 1));
            && h.t.objs == g.t.objs[OWNER := BeforeCreate(OWNED_PARENT, 1)] && h.t.idx == map[CHILD := {OWNER}]
  {
    ControlledNames();
    StoreSucceedsWhen(g.t, OWNED_PARENT, false, 1);
    OneNewEdge(map[], To(CHILD, "2"), CHILD, OWNER);
    assert Owned(map[], CHILD) + {OWNER} == {OWNER};
  }

  /** An Update that changes nothing puts the child back under its owner. */
  lemma ReaddedEdge(g: Group, obj: Obj)
    requires g.t.objs == map[CHILD := Mark(BeforeCreate(GUARDED_CHILD, 0), 0), OWNER := BeforeCreate(OWNED_PARENT, 1)]
    requires g.t.idx == map[CHILD := {OWNER}] && obj == g.t.objs[CHILD].(owners := [CONTROLLED_AGAIN])
    ensures var h := Run(g, Update(obj, 2));
            && h.t.objs.Keys == g.t.objs.Keys && DeepEqual(h.t.objs[CHILD], g.t.objs[CHILD])
            && OWNER in Owned(h.t.idx, CHILD) && CHILD in Owned(h.t.idx, OWNER)
  {
    ControlledNames();
    var was := g.t.objs[CHILD];
    StoreSucceedsWhen(g.t, obj, true, 2);
    assert Followed(obj).owners == Followed(was).owners;
    assert BeforeUpdate(was, obj, 2) == obj;
    var idx := Run(g, Update(obj, 2)).t.idx;
    assert idx == Reindex(g.t.idx, "ns", [CONTROLLED], [CONTROLLED_AGAIN], CHILD);
    assert OnlyIn("ns", [CONTROLLED_AGAIN], [CONTROLLED], OWNER) by { assert CONTROLLED_AGAIN in [CONTROLLED_AGAIN]; }
    ReindexOwned(g.t.idx, "ns", [CONTROLLED], [CONTROLLED_AGAIN], CHILD, OWNER);
    ReindexOwned(g.t.idx, "ns", [CONTROLLED], [CONTROLLED_AGAIN], CHILD, CHILD);
    assert Names("ns", [CONTROLLED], CHILD) ==> OwnerOf("ns", CONTROLLED) == Some(CHILD);
  }

  lemma {:induction false} PairNotDeep(s: State, a: Ref, b: Ref, n: nat)
    requires a in s.objs && b in s.objs && b in Owned(s.idx, a) && a in Owned(s.idx, b)
    ensures !Deep(s, a, n)
    decreases n
  {
    if n > 0 { PairNotDeep(s, b, a, n - 1); }
  }

  /** The owner is deleted and created again, owned by the marked child. */
  lemma GuardedHistory() returns (run: seq<Group>, acts: seq<Action>)
    ensures IsHistory(run, acts) && |run| == 5 && forall i | 0 <= i < 4 :: !acts[i].Update?
    ensures run[4].t.objs == map[CHILD := Mark(BeforeCreate(GUARDED_CHILD, 0), 0), OWNER := BeforeCreate(OWNED_PARENT, 1)]
    ensures run[4].t.idx == map[CHILD := {OWNER}]
  {
    var g1, g2 := GuardedCreated();
    var ord, o := DeleteGuarded(g2.t);
    var gone := DeleteSection(OWNER, 0, ord, o);
    var g3 := Run(g2, gone);
    OwnedParentCreated(g3);
    run, acts := TwoSteps([INITIAL], [], g1, g2, Create(PARENT, 0), Create(GUARDED_CHILD, 0));
    run, acts := TwoSteps(run, acts, g3, Run(g3, Create(OWNED_PARENT, 1)), gone, Create(OWNED_PARENT, 1));
  }

  /** No Update here names an owner that its object did not name, and the last one changes nothing that DeepEqual
      sees; its reference is the same behind another pointer. That closes a cycle. */
  lemma ReaddedReferenceCloses() returns (run: seq<Group>, acts: seq<Action>)
    ensures IsHistory(run, acts) && |run| == 6 && acts[4].Update? && acts[4].obj.Id() == CHILD
    ensures forall i | 0 <= i < 4 :: !acts[i].Update?
    ensures CHILD in run[4].t.objs && CHILD in run[5].t.objs && DeepEqual(run[5].t.objs[CHILD], run[4].t.objs[CHILD])
    ensures !AlwaysReturns(run[5].t, OWNER, 0)
  {
    run, acts := GuardedHistory();
    var g4 := run[4];
    var again := Update(g4.t.objs[CHILD].(owners := [CONTROLLED_AGAIN]), 2);
    ReaddedEdge(g4, again.obj);
    var g5 := Run(g4, again);
    LongerHistory(run, acts, again, g5);
    forall n: nat ensures !Deep(g5.t, OWNER, n) { PairNotDeep(g5.t, OWNER, CHILD, n); }
    FinishesIffBounded(g5.t, OWNER, 0);
    run, acts := run + [g5], acts + [again];
  }
}

/** What one lock-held section does to the tracker of a resource group, on values. */
module Tracker {
  import opened Text
  import opened Objects

  /** A notification sent to the informer of the object's kind. */
  datatype Event =
    | Created(obj: Obj)
    | Updated(was: Obj, obj: Obj)
    | Deleted(obj: Obj)
    | Synced(obj: Obj)

  type Index = map<Ref, set<Ref>>

  /** `idx` maps an owner to the objects recorded as owned by it; `gc` are the garbage-collection requests
      in the queue; `log` are all notifications sent so far. */
  datatype State = State(objs: map<Ref, Obj>, idx: Index, gc: set<Ref>, log: seq<Event>)

  const EMPTY := State(map[], map[], {}, [])

  function Owned(idx: Index, r: Ref): set<Ref> {
    if r in idx then idx[r] else {}
  }

  // ---------------------------------------------------------------- index maintenance

  function DropEdge(idx: Index, owner: Ref, c: Ref): Index {
    if owner !in idx then idx
    else if idx[owner] - {c} == {} then idx - {owner}
    else idx[owner := idx[owner] - {c}]
  }

  function AddEdge(idx: Index, owner: Ref, c: Ref): Index {
    idx[owner := Owned(idx, owner) + {c}]
  }

  /** Forgets the edges to `c` of the references in `was` that `now` no longer lists. */
  function DropEdges(idx: Index, ns: string, was: seq<OwnerRef>, now: seq<OwnerRef>, c: Ref): Index {
    if was == [] then idx
    else
      var next := if was[0] !in now && OwnerOf(ns, was[0]).Some?
                  then DropEdge(idx, OwnerOf(ns, was[0]).value, c) else idx;
      DropEdges(next, ns, was[1..], now, c)
  }

  /** Records the edges to `c` of the references in `now` that `was` did not list. */
  function AddEdges(idx: Index, ns: string, was: seq<OwnerRef>, now: seq<OwnerRef>, c: Ref): Index
    decreases now
  {
    if now == [] then idx
    else
      var next := if now[0] !in was && OwnerOf(ns, now[0]).Some?
                  then AddEdge(idx, OwnerOf(ns, now[0]).value, c) else idx;
      AddEdges(next, ns, was, now[1..], c)
  }

  /** `updateTrackerOwnerReferences`: `was` is empty for a new object. */
  function Reindex(idx: Index, ns: string, was: seq<OwnerRef>, now: seq<OwnerRef>, c: Ref): Index {
    AddEdges(DropEdges(idx, ns, was, now, c), ns, was, now, c)
  }

  // ---------------------------------------------------------------- store

  /** Every owner parses and is tracked. */
  predicate OwnersOk(objs: map<Ref, Obj>, obj: Obj) {
    forall o | o in obj.owners ::
      OwnerOf(obj.key.namespace, o).Some? && OwnerOf(obj.key.namespace, o).value in objs
  }

  /** Who is told about a change of a tracked object. */
  function AfterUpdate(was: Obj, obj: Obj): seq<Event> {
    if was.deletion.None? && obj.deletion.Some? then [Deleted(obj)]
    else if !DeepEqual(obj, was) then [Updated(was, obj)]
    else []
  }

  function Replace(s: State, was: Obj, obj: Obj): State {
    State(
      s.objs[was.Id() := obj],
      Reindex(s.idx, was.key.namespace, was.owners, obj.owners, was.Id()),
      s.gc,
      s.log + AfterUpdate(was, obj))
  }

  function Insert(s: State, obj: Obj): State {
    State(
      s.objs[obj.Id() := obj],
      Reindex(s.idx, obj.key.namespace, [], obj.owners, obj.Id()),
      s.gc,
      s.log + [Created(obj)])
  }

  /** The locked part of `store`. */
  function Store(s: State, obj: Obj, replace: bool, now: int): (State, Option<Error>) {
    if !OwnersOk(s.objs, obj) then (s, Some(BadRequest))
    else if obj.Id() in s.objs then
      if !replace then (s, Some(AlreadyExists))
      else if s.objs[obj.Id()].version != obj.version then (s, Some(Conflict))
      else (Replace(s, s.objs[obj.Id()], BeforeUpdate(s.objs[obj.Id()], obj, now)), None)
    else if replace then (s, Some(NotFound))
    else (Insert(s, BeforeCreate(obj, now)), None)
  }

  // ---------------------------------------------------------------- sync

  /** The locked part of `processSyncWorkItem`. */
  function Sync(s: State, r: Ref, now: int): State {
    if r in s.objs then
      var obj := s.objs[r].(lastSync := Some(Stamp(now)));
      s.(objs := s.objs[r := obj], log := s.log + [Synced(obj)])
    else s
  }

  // ---------------------------------------------------------------- what the tracker keeps

  /** Kept by every step, without conditions: objects sit under their own names, stored references parse, and
      the index mentions only tracked owners, has no empty entry and stays within one namespace. */
  ghost predicate WellKept(s: State) {
    && (forall r | r in s.objs :: s.objs[r].Id() == r)
    && (forall r, o | r in s.objs && o in s.objs[r].owners :: OwnerOf(r.key.namespace, o).Some?)
    && (forall r | r in s.idx :: r in s.objs && s.idx[r] != {})
    && (forall r, c | c in Owned(s.idx, r) :: c.key.namespace == r.key.namespace)
  }

  /** Every resource version is "v" followed by a decimal of at least 1 that parses back. */
  ghost predicate Versioned(s: State) {
    forall r | r in s.objs :: WellVersioned(s.objs[r].version)
  }

  /** Index completeness: an owner knows its children, except those already marked for deletion. */
  ghost predicate Complete(s: State) {
    forall c, r | c in s.objs && s.objs[c].deletion.None? && ListsOwner(s.objs[c], r) :: c in Owned(s.idx, r)
  }

  /** Referential integrity: owners of unmarked objects are tracked. */
  ghost predicate OwnersTracked(s: State) {
    forall c | c in s.objs && s.objs[c].deletion.None? :: OwnersOk(s.objs, s.objs[c])
  }

  /** The index is the exact inverse of the owner references of the tracked objects. */
  ghost predicate Exact(s: State) {
    forall r, c :: c in Owned(s.idx, r) <==> (c in s.objs && ListsOwner(s.objs[c], r))
  }

  // ---------------------------------------------------------------- what Reindex computes

  /** A reference to `r` in `a` that `b` does not repeat. */
  ghost predicate OnlyIn(ns: string, a: seq<OwnerRef>, b: seq<OwnerRef>, r: Ref) {
    exists o | o in a :: o !in b && OwnerOf(ns, o) == Some(r)
  }

  lemma {:induction false} DropEdgesOwned(idx: Index, ns: string, was: seq<OwnerRef>, now: seq<OwnerRef>, c: Ref, r: Ref)
    ensures Owned(DropEdges(idx, ns, was, now, c), r)
         == Owned(idx, r) - (if OnlyIn(ns, was, now, r) then {c} else {})
    ensures r in DropEdges(idx, ns, was, now, c) ==> r in idx
    ensures (r in idx ==> idx[r] != {}) ==>
              (r in DropEdges(idx, ns, was, now, c) ==> DropEdges(idx, ns, was, now, c)[r] != {})
  {
    if was != [] {
      var next := if was[0] !in now && OwnerOf(ns, was[0]).Some?
                  then DropEdge(idx, OwnerOf(ns, was[0]).value, c) else idx;
      DropEdgesOwned(next, ns, was[1..], now, c, r);
      assert was == [was[0]] + was[1..];
      assert OnlyIn(ns, was, now, r) <==>
             (was[0] !in now && OwnerOf(ns, was[0]) == Some(r)) || OnlyIn(ns, was[1..], now, r);
    }
  }

  lemma {:induction false} AddEdgesOwned(idx: Index, ns: string, was: seq<OwnerRef>, now: seq<OwnerRef>, c: Ref, r: Ref)
    ensures Owned(AddEdges(idx, ns, was, now, c), r)
         == Owned(idx, r) + (if OnlyIn(ns, now, was, r) then {c} else {})
    ensures r in AddEdges(idx, ns, was, now, c) ==> r in idx || OnlyIn(ns, now, was, r)
    ensures (r in idx ==> idx[r] != {}) ==>
              (r in AddEdges(idx, ns, was, now, c) ==> AddEdges(idx, ns, was, now, c)[r] != {})
    decreases now
  {
    if now != [] {
      var next := if now[0] !in was && OwnerOf(ns, now[0]).Some?
                  then AddEdge(idx, OwnerOf(ns, now[0]).value, c) else idx;
      AddEdgesOwned(next, ns, was, now[1..], c, r);
      assert now == [now[0]] + now[1..];
      assert OnlyIn(ns, now, was, r) <==>
             (now[0] !in was && OwnerOf(ns, now[0]) == Some(r)) || OnlyIn(ns, now[1..], was, r);
    }
  }

  /** The net effect on one owner's entry: dropped references lose the child, added ones gain it. */
  lemma ReindexOwned(idx: Index, ns: string, was: seq<OwnerRef>, now: seq<OwnerRef>, c: Ref, r: Ref)
    ensures Owned(Reindex(idx, ns, was, now, c), r)
         == Owned(idx, r) - (if OnlyIn(ns, was, now, r) then {c} else {})
                          + (if OnlyIn(ns, now, was, r) then {c} else {})
    ensures r in Reindex(idx, ns, was, now, c) ==> r in idx || OnlyIn(ns, now, was, r)
    ensures (r in idx ==> idx[r] != {}) ==>
              (r in Reindex(idx, ns, was, now, c) ==> Reindex(idx, ns, was, now, c)[r] != {})
  {
    DropEdgesOwned(idx, ns, was, now, c, r);
    AddEdgesOwned(DropEdges(idx, ns, was, now, c), ns, was, now, c, r);
  }

  /** No owner loses one of several references to it while an old one stays: the guard under which the
      difference-based maintenance is right. An object that never lists an owner twice always meets it. */
  ghost predicate KeepsEdges(ns: string, was: seq<OwnerRef>, now: seq<OwnerRef>) {
    forall r :: OnlyIn(ns, was, now, r) && Names(ns, now, r) ==> OnlyIn(ns, now, was, r)
  }

  /** At most one reference per owner. */
  ghost predicate OneRefPerOwner(ns: string, a: seq<OwnerRef>) {
    forall o, p | o in a && p in a && OwnerOf(ns, o) == OwnerOf(ns, p) :: o == p
  }

  lemma SingleRefsKeepEdges(ns: string, was: seq<OwnerRef>, now: seq<OwnerRef>)
    requires OneRefPerOwner(ns, was)
    ensures KeepsEdges(ns, was, now)
  {
    forall r | OnlyIn(ns, was, now, r) && Names(ns, now, r)
      ensures OnlyIn(ns, now, was, r)
    {
      var o :| o in was && o !in now && OwnerOf(ns, o) == Some(r);
      var p :| p in now && OwnerOf(ns, p) == Some(r);
      assert p !in was;
    }
  }

  /** Incremental equals rebuild, exactly: from an exact index, a Create or Update of `c` (which keeps
      identity and namespace) gives an exact index if and only if it keeps edges. */
  lemma ReindexExact(idx: Index, ns: string, was: seq<OwnerRef>, now: seq<OwnerRef>, c: Ref)
    requires forall r :: c in Owned(idx, r) <==> Names(ns, was, r)
    ensures (forall r :: c in Owned(Reindex(idx, ns, was, now, c), r) <==> Names(ns, now, r))
            <==> KeepsEdges(ns, was, now)
    ensures forall r, d | d != c :: d in Owned(Reindex(idx, ns, was, now, c), r) <==> d in Owned(idx, r)
  {
    forall r
      ensures c in Owned(Reindex(idx, ns, was, now, c), r)
              <==> (Names(ns, was, r) && !OnlyIn(ns, was, now, r)) || OnlyIn(ns, now, was, r)
      ensures forall d | d != c :: d in Owned(Reindex(idx, ns, was, now, c), r) <==> d in Owned(idx, r)
      ensures Names(ns, now, r) && !OnlyIn(ns, now, was, r) ==> Names(ns, was, r)
      ensures Names(ns, was, r) && !OnlyIn(ns, was, now, r) ==> Names(ns, now, r)
      ensures OnlyIn(ns, now, was, r) ==> Names(ns, now, r)
    {
      ReindexOwned(idx, ns, was, now, c, r);
    }
  }
}

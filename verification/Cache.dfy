/** The cache as the program runs it: trackers with two-level maps updated in place, each locked section proved
    against its description on values. */
module Cache {
  import opened Text
  import opened Objects
  import opened Tracker
  import opened Cascade
  import opened Deletion
  import Ownership
  import Machine

  type Store2 = map<Gvk, map<Key, Obj>>

  /** The flat view of the two-level map. */
  function Flatten(objects: Store2): map<Ref, Obj> {
    map g, k | g in objects && k in objects[g] :: Ref(g, k) := objects[g][k]
  }

  function Bucket(objects: Store2, g: Gvk): map<Key, Obj> {
    if g in objects then objects[g] else map[]
  }

  lemma FlattenPut(objects: Store2, g: Gvk, k: Key, obj: Obj)
    ensures Flatten(objects[g := Bucket(objects, g)[k := obj]]) == Flatten(objects)[Ref(g, k) := obj]
  {
    var after := objects[g := Bucket(objects, g)[k := obj]];
    forall r
      ensures r in Flatten(after) <==> r in Flatten(objects) || r == Ref(g, k)
      ensures r in Flatten(after) ==> Flatten(after)[r] == if r == Ref(g, k) then obj else Flatten(objects)[r]
    {
      FlattenAt(objects, r);
      FlattenAt(after, r);
    }
  }

  lemma FlattenAt(objects: Store2, r: Ref)
    ensures r in Flatten(objects) <==> r.gvk in objects && r.key in objects[r.gvk]
    ensures r in Flatten(objects) ==> Flatten(objects)[r] == objects[r.gvk][r.key]
  {
    assert r == Ref(r.gvk, r.key);
  }

  lemma FlattenDelete(objects: Store2, g: Gvk, k: Key)
    ensures Flatten(objects[g := Bucket(objects, g) - {k}]) == Flatten(objects) - {Ref(g, k)}
  {
  }

  /** Creating an empty bucket changes nothing in the flat view. */
  lemma FlattenBucket(objects: Store2, g: Gvk)
    ensures Flatten(objects[g := Bucket(objects, g)]) == Flatten(objects)
  {
  }

  class ResourceGroupTracker {
    var objects: Store2
    var ownedObjects: Index
    ghost var log: seq<Event>

    constructor ()
      ensures objects == map[] && ownedObjects == map[] && log == []
    {
      objects, ownedObjects, log := map[], map[], [];
    }

    /** The first half of `updateTrackerOwnerReferences`: references that the object lost. */
    method DropOwnerReferences(ns: string, before: seq<OwnerRef>, after: seq<OwnerRef>, ref: Ref)
      requires forall o | o in before :: OwnerOf(ns, o).Some?
      modifies this`ownedObjects
      ensures ownedObjects == DropEdges(old(ownedObjects), ns, before, after, ref)
    {
      for i := 0 to |before|
        invariant DropEdges(old(ownedObjects), ns, before, after, ref)
               == DropEdges(ownedObjects, ns, before[i..], after, ref)
      {
        var stillExists := false;
        for j := 0 to |after|
          invariant stillExists <==> before[i] in after[..j]
        {
          if before[i] == after[j] { stillExists := true; }
        }
        assert after[..|after|] == after;
        ghost var prior := ownedObjects;
        if !stillExists {
          var owner := OwnerOf(ns, before[i]).value;
          if owner in ownedObjects {
            ownedObjects := ownedObjects[owner := ownedObjects[owner] - {ref}];
            if ownedObjects[owner] == {} {
              ownedObjects := ownedObjects - {owner};
              assert ownedObjects == prior - {owner};
            }
          }
          assert ownedObjects == DropEdge(prior, owner, ref);
        }
        assert before[i..][0] == before[i] && before[i..][1..] == before[i + 1..];
      }
    }

    /** The second half: references that the object gained. */
    method AddOwnerReferences(ns: string, before: seq<OwnerRef>, after: seq<OwnerRef>, ref: Ref)
      requires forall o | o in after :: OwnerOf(ns, o).Some?
      modifies this`ownedObjects
      ensures ownedObjects == AddEdges(old(ownedObjects), ns, before, after, ref)
    {
      for i := 0 to |after|
        invariant AddEdges(old(ownedObjects), ns, before, after, ref)
               == AddEdges(ownedObjects, ns, before, after[i..], ref)
      {
        var alreadyExisted := false;
        for j := 0 to |before|
          invariant alreadyExisted <==> after[i] in before[..j]
        {
          if after[i] == before[j] { alreadyExisted := true; }
        }
        assert before[..|before|] == before;
        ghost var prior := ownedObjects;
        if !alreadyExisted {
          var owner := OwnerOf(ns, after[i]).value;
          if owner !in ownedObjects {
            ownedObjects := ownedObjects[owner := {}];
          }
          ownedObjects := ownedObjects[owner := ownedObjects[owner] + {ref}];
          assert ownedObjects == AddEdge(prior, owner, ref);
        }
        assert after[i..][0] == after[i] && after[i..][1..] == after[i + 1..];
      }
    }

    /** `updateTrackerOwnerReferences`. Parsing cannot fail here, so its ignored errors are safe. */
    method UpdateOwnerReferences(was: Option<Obj>, obj: Obj, ref: Ref)
      requires forall o | o in obj.owners :: OwnerOf(obj.key.namespace, o).Some?
      requires was.Some? ==> forall o | o in was.value.owners :: OwnerOf(obj.key.namespace, o).Some?
      modifies this`ownedObjects
      ensures ownedObjects == Reindex(old(ownedObjects), obj.key.namespace,
                                      if was.Some? then was.value.owners else [], obj.owners, ref)
    {
      var before := if was.Some? then was.value.owners else [];
      DropOwnerReferences(obj.key.namespace, before, obj.owners, ref);
      AddOwnerReferences(obj.key.namespace, before, obj.owners, ref);
    }

    /** A stored object takes the place of `was`. */
    method Change(was: Obj, stored: Obj)
      requires stored.Id() == was.Id()
      requires was.gvk in objects && was.key in objects[was.gvk] && objects[was.gvk][was.key] == was
      requires forall o | o in was.owners :: OwnerOf(was.key.namespace, o).Some?
      requires forall o | o in stored.owners :: OwnerOf(was.key.namespace, o).Some?
      modifies this
      ensures Flatten(objects) == old(Flatten(objects))[was.Id() := stored]
      ensures ownedObjects == Reindex(old(ownedObjects), was.key.namespace, was.owners, stored.owners, was.Id())
      ensures log == old(log) + AfterUpdate(was, stored)
    {
      FlattenPut(objects, was.gvk, was.key, stored);
      objects := objects[was.gvk := objects[was.gvk][was.key := stored]];
      UpdateOwnerReferences(Some(was), stored, was.Id());
      log := log + AfterUpdate(was, stored);
    }

    /** A new object enters its bucket. */
    method Add(stored: Obj)
      requires stored.gvk in objects
      requires forall o | o in stored.owners :: OwnerOf(stored.key.namespace, o).Some?
      modifies this
      ensures Flatten(objects) == old(Flatten(objects))[stored.Id() := stored]
      ensures ownedObjects == Reindex(old(ownedObjects), stored.key.namespace, [], stored.owners, stored.Id())
      ensures log == old(log) + [Created(stored)]
    {
      FlattenPut(objects, stored.gvk, stored.key, stored);
      objects := objects[stored.gvk := objects[stored.gvk][stored.key := stored]];
      UpdateOwnerReferences(None, stored, stored.Id());
      log := log + [Created(stored)];
    }

    /** The tracker as a value, given the collection requests of its group. */
    ghost function Content(gc: set<Ref>): State
      reads this
    {
      State(Flatten(objects), ownedObjects, gc, log)
    }

    /** Every owner must exist. */
    method OwnersExist(obj: Obj) returns (ok: bool)
      ensures ok <==> OwnersOk(Flatten(objects), obj)
    {
      for i := 0 to |obj.owners|
        invariant forall o | o in obj.owners[..i] ::
                    && OwnerOf(obj.key.namespace, o).Some?
                    && OwnerOf(obj.key.namespace, o).value in Flatten(objects)
      {
        var ref := OwnerOf(obj.key.namespace, obj.owners[i]);
        if ref.None? { return false; }
        if ref.value.gvk !in objects { return false; }
        if ref.value.key !in objects[ref.value.gvk] { return false; }
      }
      return true;
    }

    /** The part of `store` that runs under the lock; `out` is the caller's object afterwards. */
    method Store(obj: Obj, replace: bool, now: int, ghost gc: set<Ref>) returns (out: Obj, err: Option<Error>)
      requires WellKept(Content(gc))
      modifies this
      ensures (Content(gc), err) == Tracker.Store(old(Content(gc)), obj, replace, now)
      ensures if err.None? then obj.Id() in Content(gc).objs && Content(gc).objs[obj.Id()] == out else out == obj
    {
      var ok := OwnersExist(obj);
      if !ok { return obj, Some(BadRequest); }
      EnsureBucket(obj.gvk, gc);
      if obj.key in objects[obj.gvk] {
        out, err := StoreTracked(objects[obj.gvk][obj.key], obj, replace, now, gc);
      } else {
        out, err := StoreUntracked(obj, replace, now, gc);
      }
    }

    /** An empty bucket for a kind seen for the first time. */
    method EnsureBucket(gvk: Gvk, ghost gc: set<Ref>)
      modifies this`objects
      ensures gvk in objects && Content(gc) == old(Content(gc))
    {
      if gvk !in objects {
        FlattenBucket(objects, gvk);
        objects := objects[gvk := map[]];
      }
    }

    method StoreTracked(was: Obj, obj: Obj, replace: bool, now: int, ghost gc: set<Ref>)
      returns (out: Obj, err: Option<Error>)
      requires WellKept(Content(gc)) && OwnersOk(Flatten(objects), obj)
      requires obj.gvk in objects && obj.key in objects[obj.gvk] && was == objects[obj.gvk][obj.key]
      modifies this
      ensures (Content(gc), err) == Tracker.Store(old(Content(gc)), obj, replace, now)
      ensures if err.None? then obj.Id() in Content(gc).objs && Content(gc).objs[obj.Id()] == out else out == obj
    {
      assert Content(gc).objs[obj.Id()] == was && was.Id() == obj.Id();
      if !replace { return obj, Some(AlreadyExists); }
      if was.version != obj.version { return obj, Some(Conflict); }
      out := BeforeUpdate(was, obj, now);
      Change(was, out);
      assert Content(gc) == Replace(old(Content(gc)), was, out);
      return out, None;
    }

    method StoreUntracked(obj: Obj, replace: bool, now: int, ghost gc: set<Ref>) returns (out: Obj, err: Option<Error>)
      requires WellKept(Content(gc)) && OwnersOk(Flatten(objects), obj)
      requires obj.gvk in objects && obj.key !in objects[obj.gvk]
      modifies this
      ensures (Content(gc), err) == Tracker.Store(old(Content(gc)), obj, replace, now)
      ensures if err.None? then obj.Id() in Content(gc).objs && Content(gc).objs[obj.Id()] == out else out == obj
    {
      assert obj.Id() !in Content(gc).objs;
      if replace { return obj, Some(NotFound); }
      out := BeforeCreate(obj, now);
      Add(out);
      assert Content(gc) == Insert(old(Content(gc)), out);
      return out, None;
    }

    /** The end of `doTryDeleteLocked`: mark an object with finalizers, remove one without. */
    method Settle(gvk: Gvk, key: Key, obj: Obj, now: int, ghost gc: set<Ref>) returns (deleted: bool)
      requires gvk in objects
      modifies this
      ensures Finished(Content(gc), deleted, None) == Cascade.Settle(old(Content(gc)), Ref(gvk, key), obj, now)
      ensures deleted <==> obj.finalizers == []
      ensures Ref(gvk, key) in Content(gc).objs <== obj.finalizers != [] && Ref(gvk, key) in old(Content(gc).objs)
      ensures objects.Keys == old(objects.Keys)
    {
      if |obj.finalizers| > 0 {
        if obj.deletion.Some? { return false; }
        var marked := BeforeUpdate(obj, obj.(deletion := Some(now)), now);
        marked := marked.(deletion := Some(now));
        FlattenPut(objects, gvk, key, marked);
        objects := objects[gvk := objects[gvk][key := marked]];
        log := log + AfterUpdate(obj, marked);
        return false;
      }
      FlattenDelete(objects, gvk, key);
      objects := objects[gvk := objects[gvk] - {key}];
      return true;
    }
  }

  /** A request in the collector's or the syncer's queue. */
  datatype Request = Request(group: string, ref: Ref)

  function Requests(q: set<Request>, group: string): set<Ref> {
    set r | r in q && r.group == group :: r.ref
  }

  ghost predicate SameElsewhere(a: set<Request>, b: set<Request>, group: string) {
    forall r: Request | r.group != group :: r in a <==> r in b
  }

  lemma RequestsAdd(q: set<Request>, group: string, ref: Ref)
    ensures Requests(q + {Request(group, ref)}, group) == Requests(q, group) + {ref}
  {
    assert forall r | r in Requests(q, group) :: Request(group, r) in q + {Request(group, ref)};
    assert Request(group, ref) in q + {Request(group, ref)};
  }

  /** Between two queues, exactly the requests for `due` in the group have been added. */
  ghost predicate Queued(a: set<Request>, b: set<Request>, group: string, due: set<Ref>) {
    SameElsewhere(b, a, group) && Requests(b, group) == Requests(a, group) + due
  }

  lemma QueuedThen(a: set<Request>, b: set<Request>, c: set<Request>, group: string, d: set<Ref>, e: set<Ref>)
    requires Queued(a, b, group, d) && Queued(b, c, group, e)
    ensures Queued(a, c, group, d + e)
  {
  }

  lemma RequestsRemove(q: set<Request>, group: string, ref: Ref)
    ensures Requests(q - {Request(group, ref)}, group) == Requests(q, group) - {ref}
  {
    assert forall r | r in Requests(q, group) - {ref} :: Request(group, r) in q - {Request(group, ref)};
  }

  lemma RequestsElsewhere(a: set<Request>, b: set<Request>, group: string, other: string)
    requires SameElsewhere(a, b, group) && other != group
    ensures Requests(a, other) == Requests(b, other)
  {
    assert forall r | r in Requests(a, other) :: Request(other, r) in b;
    assert forall r | r in Requests(b, other) :: Request(other, r) in a;
  }

  /** The checks before a Create or Update takes the tracker's lock. */
  function StoreCheck(group: string, known: bool, scheme: set<Gvk>, obj: Option<Obj>, replace: bool): Option<Error> {
    if group == "" || obj.None? then Some(BadRequest)
    else if obj.value.gvk !in scheme then Some(Internal)
    else if replace && obj.value.key.name == "" then Some(BadRequest)
    else if !known then Some(BadRequest)
    else None
  }

  /** The caller's object or list: its kind, and whether a tracked object can be converted into it. */
  datatype Target = Target(gvk: Gvk, accepts: Obj -> bool)

  /** What a patch makes of an object: codecs and unknown patch types may fail. */
  datatype Patched = Applied(obj: Obj) | Failed(err: Error)

  /** The checks before a Get takes the tracker's lock. */
  function GetCheck(group: string, known: bool, scheme: set<Gvk>, key: Key, into: Option<Target>): Option<Error> {
    if group == "" || key.name == "" then Some(BadRequest) else ListCheck(group, known, scheme, into)
  }

  function ListCheck(group: string, known: bool, scheme: set<Gvk>, into: Option<Target>): Option<Error> {
    if group == "" || into.None? then Some(BadRequest)
    else if into.value.gvk !in scheme then Some(Internal)
    else if !known then Some(BadRequest)
    else None
  }

  function PatchOf(s: State, x: Ref, into: Target, patch: Obj -> Patched): Patched {
    if x !in s.objs then Failed(NotFound)
    else if !into.accepts(s.objs[x]) then Failed(Internal)
    else patch(s.objs[x])
  }

  /** An Update with a patched object, from the checks on. */
  function UpdateOf(group: string, scheme: set<Gvk>, s: State, patched: Patched, now: int): (State, Option<Error>) {
    match patched
    case Failed(e) => (s, Some(e))
    case Applied(obj) =>
      var check := StoreCheck(group, true, scheme, Some(obj), true);
      if check.Some? then (s, check) else Tracker.Store(s, obj, true, now)
  }

  /** The checks before a Delete takes the tracker's lock. */
  function DeleteCheck(group: string, known: bool, scheme: set<Gvk>, obj: Option<Obj>): Option<Error> {
    if group == "" || obj.None? || obj.value.key.name == "" then Some(BadRequest)
    else if obj.value.gvk !in scheme then Some(Internal)
    else if !known then Some(BadRequest)
    else None
  }

  /** Some recursion depth suffices. */
  ghost predicate Returns(s: State, x: Ref, now: int, ord: Order) {
    exists fuel: nat :: Try(s, x, now, ord, fuel).Finished?
  }

  ghost function BucketDue(objects: map<Key, Obj>, gvk: Gvk, now: int, period: int): set<Ref> {
    set k | k in objects && Machine.SyncDue(objects[k], now, period) :: Ref(gvk, k)
  }

  lemma BucketOfAll(objects: Store2, gvk: Gvk, now: int, period: int)
    requires gvk in objects
    ensures BucketDue(objects[gvk], gvk, now, period)
         == set r | r in Machine.DueRefs(Flatten(objects), now, period) && r.gvk == gvk
  {
    forall r | r in Machine.DueRefs(Flatten(objects), now, period) && r.gvk == gvk
      ensures r in BucketDue(objects[gvk], gvk, now, period)
    {
      assert r.key in objects[gvk] && Ref(gvk, r.key) == r;
    }
  }

  ghost function OutsideOf(all: set<Ref>, gvks: set<Gvk>): set<Ref> {
    set r | r in all && r.gvk !in gvks
  }

  lemma OutsideGrows(all: set<Ref>, gvks: set<Gvk>, gvk: Gvk, here: set<Ref>)
    requires gvk in gvks && here == set r | r in all && r.gvk == gvk
    ensures OutsideOf(all, gvks - {gvk}) == OutsideOf(all, gvks) + here
    ensures |OutsideOf(all, gvks - {gvk})| == |OutsideOf(all, gvks)| + |here|
  {
    assert OutsideOf(all, gvks) !! here;
  }

  /** One more bucket scanned. */
  lemma ScanGrows(objects: Store2, gvks: set<Gvk>, gvk: Gvk, now: int, period: int)
    requires gvk in gvks && gvk in objects
    ensures var all, here := Machine.DueRefs(Flatten(objects), now, period), BucketDue(objects[gvk], gvk, now, period);
            && OutsideOf(all, gvks - {gvk}) == OutsideOf(all, gvks) + here
            && |OutsideOf(all, gvks - {gvk})| == |OutsideOf(all, gvks)| + |here|
  {
    BucketOfAll(objects, gvk, now, period);
    OutsideGrows(Machine.DueRefs(Flatten(objects), now, period), gvks, gvk, BucketDue(objects[gvk], gvk, now, period));
  }

  /** A bucket holds the tracked objects of its kind. */
  lemma BucketOfKind(objects: Store2, g: Gvk)
    requires forall r | r in Flatten(objects) :: Flatten(objects)[r].Id() == r
    ensures forall k | k in Bucket(objects, g) :: Bucket(objects, g)[k].Id() == Ref(g, k)
    ensures forall o: Obj | o.gvk == g ::
              (o.Id() in Flatten(objects) && Flatten(objects)[o.Id()] == o)
              <==> (o.key in Bucket(objects, g) && Bucket(objects, g)[o.key] == o)
  {
    forall k | k in Bucket(objects, g)
      ensures Ref(g, k) in Flatten(objects) && Bucket(objects, g)[k].Id() == Ref(g, k)
    {
      assert Flatten(objects)[Ref(g, k)] == objects[g][k];
    }
  }

  /** The kind of a list's items: the list's kind without its "List" suffix. */
  function ItemKind(gvk: Gvk): Gvk {
    if |gvk.kind| >= 4 && gvk.kind[|gvk.kind| - 4..] == "List" then gvk.(kind := gvk.kind[..|gvk.kind| - 4]) else gvk
  }

  /** A List asks for `obj`: an empty namespace stands for all. */
  predicate Selects(gvk: Gvk, namespace: string, selector: Obj -> bool, obj: Obj) {
    obj.gvk == ItemKind(gvk) && (namespace == "" || obj.key.namespace == namespace) && selector(obj)
  }

  // ---------------------------------------------------------------- the checks, in plain fields

  lemma ChecksAre(group: string, known: bool, scheme: set<Gvk>, key: Key, into: Option<Target>, obj: Option<Obj>,
                  replace: bool)
    ensures GetCheck(group, known, scheme, key, into)
         == if group == "" || key.name == "" || into == None then Some(BadRequest)
            else if into.value.gvk !in scheme then Some(Internal) else if !known then Some(BadRequest) else None
    ensures ListCheck(group, known, scheme, into)
         == if group == "" || into == None then Some(BadRequest)
            else if into.value.gvk !in scheme then Some(Internal) else if !known then Some(BadRequest) else None
    ensures StoreCheck(group, known, scheme, obj, replace)
         == if group == "" || obj == None then Some(BadRequest)
            else if obj.value.gvk !in scheme then Some(Internal)
            else if replace && obj.value.key.name == "" then Some(BadRequest)
            else if !known then Some(BadRequest) else None
    ensures DeleteCheck(group, known, scheme, obj)
         == if group == "" || obj == None || obj.value.key.name == "" then Some(BadRequest)
            else if obj.value.gvk !in scheme then Some(Internal) else if !known then Some(BadRequest) else None
  {
  }

  /** A list's items are of the list's kind without "List" at its end. */
  lemma ItemKindIs(gvk: Gvk)
    ensures ItemKind(gvk).group == gvk.group && ItemKind(gvk).version == gvk.version
    ensures if |gvk.kind| >= 4 && gvk.kind[|gvk.kind| - 4..] == "List" then ItemKind(gvk).kind + "List" == gvk.kind
            else ItemKind(gvk).kind == gvk.kind
  {
  }

  /** What a list asks for: with "List" at the end of its kind, the objects of the kind before it, in the namespace if
      one is named. */
  lemma SelectsIff(gvk: Gvk, kind: string, namespace: string, selector: Obj -> bool, obj: Obj)
    requires gvk.kind == kind + "List"
    ensures Selects(gvk, namespace, selector, obj)
       <==> obj.gvk == Gvk(gvk.group, gvk.version, kind)
            && (namespace == "" || obj.key.namespace == namespace) && selector(obj)
  {
    assert gvk.kind[|kind|..] == "List" && gvk.kind[..|kind|] == kind;
  }

  /** A patch of an object that is missing, cannot be converted or cannot be patched, or that changes the version,
      fails and leaves everything as it was. */
  lemma PatchRefuses(group: string, scheme: set<Gvk>, s: State, key: Key, into: Target, patch: Obj -> Patched, now: int)
    ensures var x := Ref(into.gvk, key);
            var (t, err) := UpdateOf(group, scheme, s, PatchOf(s, x, into, patch), now);
            && (err.Some? ==> t == s)
            && (x !in s.objs ==> err == Some(NotFound))
            && (x in s.objs && !into.accepts(s.objs[x]) ==> err == Some(Internal))
            && (x in s.objs && into.accepts(s.objs[x]) && patch(s.objs[x]).Failed? ==>
                  err == Some(patch(s.objs[x]).err))
            && (x in s.objs && into.accepts(s.objs[x]) && patch(s.objs[x]).Applied? ==>
                  var obj := patch(s.objs[x]).obj;
                  Ref(obj.gvk, obj.key) == x && obj.version != s.objs[x].version ==> err.Some?)
  {
    var patched := PatchOf(s, Ref(into.gvk, key), into, patch);
    if patched.Applied? { Ownership.StoreSucceedsWhen(s, patched.obj, true, now); }
  }

  /** What a patch that is accepted leaves: when the object is tracked and convertible, the patch applies and keeps
      identity and version, the owners are tracked and the checks pass, there is no error, and the patched content is
      stored under its name with everything else as it was. */
  lemma PatchStores(group: string, scheme: set<Gvk>, s: State, key: Key, into: Target, patch: Obj -> Patched, now: int)
    requires WellKept(s) && group != "" && key.name != "" && into.gvk in scheme && Ref(into.gvk, key) in s.objs
    requires into.accepts(s.objs[Ref(into.gvk, key)]) && patch(s.objs[Ref(into.gvk, key)]).Applied?
    requires var was, obj := s.objs[Ref(into.gvk, key)], patch(s.objs[Ref(into.gvk, key)]).obj;
             && obj.gvk == was.gvk && obj.key == was.key && obj.version == was.version
             && forall o | o in obj.owners ::
                  OwnerOf(obj.key.namespace, o).Some? && OwnerOf(obj.key.namespace, o).value in s.objs
    ensures var x, obj := Ref(into.gvk, key), patch(s.objs[Ref(into.gvk, key)]).obj;
            var (t, err) := UpdateOf(group, scheme, s, PatchOf(s, x, into, patch), now);
            && err == None && x in t.objs
            && t.objs[x].payload == obj.payload
            && t.objs[x].owners == obj.owners && t.objs[x].finalizers == obj.finalizers
            && t.objs[x].creation == s.objs[x].creation && t.objs[x].gvk == into.gvk && t.objs[x].key == key
            && t.objs[x].version == (if DeepEqual(t.objs[x], s.objs[x]) then s.objs[x].version
                                     else Bump(s.objs[x].version))
            && t.objs[x].deletion == (if s.objs[x].deletion.Some? then s.objs[x].deletion else obj.deletion)
            && t.objs.Keys == s.objs.Keys && (forall r | r in s.objs && r != x :: t.objs[r] == s.objs[r])
  {
    Ownership.StoreSucceedsWhen(s, patch(s.objs[Ref(into.gvk, key)]).obj, true, now);
  }

  class Cache {
    const scheme: set<Gvk>
    const syncPeriod: int
    var resourceGroups: map<string, ResourceGroupTracker>
    var gcQueue: set<Request>
    var gcDelayed: set<Request>
    var syncQueue: set<Request>

    constructor (scheme: set<Gvk>)
      ensures Valid() && resourceGroups == map[] && gcQueue == gcDelayed == syncQueue == {}
      ensures this.scheme == scheme && syncPeriod == 600 * SECOND
    {
      this.scheme, syncPeriod := scheme, 600 * SECOND;
      resourceGroups, gcQueue, gcDelayed, syncQueue := map[], {}, {}, {};
    }

    /** Resource groups do not share trackers. */
    ghost predicate Valid()
      reads this
    {
      forall a, b | a in resourceGroups && b in resourceGroups && resourceGroups[a] == resourceGroups[b] :: a == b
    }

    /** A resource group as the value that the theorems speak about. */
    ghost function Group(name: string): State
      requires name in resourceGroups
      reads this`resourceGroups, this`gcQueue, resourceGroups[name]
    {
      var t := resourceGroups[name];
      State(Flatten(t.objects), t.ownedObjects, Requests(gcQueue, name), t.log)
    }

    // -------------------------------------------------------------- resource groups

    method AddResourceGroup(name: string)
      requires Valid()
      modifies this`resourceGroups
      ensures Valid() && resourceGroups.Keys == old(resourceGroups.Keys) + {name}
      ensures name in old(resourceGroups) ==> resourceGroups == old(resourceGroups)
      ensures name !in old(resourceGroups) ==> Group(name) == EMPTY.(gc := Requests(gcQueue, name))
      ensures forall n | n in old(resourceGroups) :: resourceGroups[n] == old(resourceGroups[n])
    {
      if name in resourceGroups { return; }
      var tracker := new ResourceGroupTracker();
      resourceGroups := resourceGroups[name := tracker];
    }

    method DeleteResourceGroup(name: string)
      requires Valid()
      modifies this`resourceGroups
      ensures Valid() && resourceGroups == old(resourceGroups) - {name}
    {
      resourceGroups := resourceGroups - {name};
    }

    // -------------------------------------------------------------- reading

    /** `Get`: the tracked object, copied into the caller's. */
    method Get(group: string, key: Key, into: Option<Target>) returns (obj: Option<Obj>, err: Option<Error>)
      ensures var check := GetCheck(group, group in resourceGroups, scheme, key, into);
              check.Some? ==> err == check
      ensures GetCheck(group, group in resourceGroups, scheme, key, into).None? ==>
                var x, objs := Ref(into.value.gvk, key), Group(group).objs;
                if x !in objs then err == Some(NotFound)
                else if !into.value.accepts(objs[x]) then err == Some(Internal)
                else err.None? && obj == Some(objs[x])
      ensures err.Some? ==> obj.None?
    {
      if group == "" { return None, Some(BadRequest); }
      if key.name == "" { return None, Some(BadRequest); }
      if into.None? { return None, Some(BadRequest); }
      var gvk := into.value.gvk;
      if gvk !in scheme { return None, Some(Internal); }
      if group !in resourceGroups { return None, Some(BadRequest); }
      var tracker := resourceGroups[group];
      if gvk !in tracker.objects { return None, Some(NotFound); }
      if key !in tracker.objects[gvk] { return None, Some(NotFound); }
      if !into.value.accepts(tracker.objects[gvk][key]) { return None, Some(Internal); }
      return Some(tracker.objects[gvk][key]), None;
    }

    /** `List`: the tracked objects asked for, each once, in any order; it fails when one of them cannot be converted. */
    method List(group: string, into: Option<Target>, namespace: string, selector: Obj -> bool)
      returns (items: seq<Obj>, err: Option<Error>)
      requires group in resourceGroups ==> WellKept(Group(group))
      ensures var check := ListCheck(group, group in resourceGroups, scheme, into);
              check.Some? ==> err == check && items == []
      ensures ListCheck(group, group in resourceGroups, scheme, into).None? ==>
                var objs, list := Group(group).objs, into.value;
                if exists r | r in objs :: Selects(list.gvk, namespace, selector, objs[r]) && !list.accepts(objs[r]) then
                  err == Some(Internal) && items == []
                else
                  err.None? && forall o :: o in items <==>
                    o.Id() in objs && objs[o.Id()] == o && Selects(list.gvk, namespace, selector, o)
      ensures forall i, j | 0 <= i < j < |items| :: items[i].Id() != items[j].Id()
    {
      items := [];
      if group == "" { return items, Some(BadRequest); }
      if into.None? { return items, Some(BadRequest); }
      var gvk := into.value.gvk;
      if gvk !in scheme { return items, Some(Internal); }
      if group !in resourceGroups { return items, Some(BadRequest); }
      err := None;
      var tracker := resourceGroups[group];
      var kind := ItemKind(gvk);
      BucketOfKind(tracker.objects, kind);
      ghost var objs := Group(group).objs;
      assert forall r | r in objs && objs[r].gvk == kind :: objs[r].Id() == r;
      if kind !in tracker.objects { return; }
      var ok;
      items, ok := ListBucket(tracker.objects[kind], into.value, namespace, selector);
      if !ok { return [], Some(Internal); }
    }

    method ListBucket(objects: map<Key, Obj>, list: Target, namespace: string, selector: Obj -> bool)
      returns (items: seq<Obj>, ok: bool)
      requires forall k | k in objects :: objects[k].Id() == Ref(ItemKind(list.gvk), k)
      ensures ok <==> forall k | k in objects :: Selects(list.gvk, namespace, selector, objects[k]) ==> list.accepts(objects[k])
      ensures ok ==> forall o :: o in items <==>
                o.key in objects && objects[o.key] == o && Selects(list.gvk, namespace, selector, o)
      ensures forall i, j | 0 <= i < j < |items| :: items[i].Id() != items[j].Id()
    {
      items := [];
      var keys := objects.Keys;
      while keys != {}
        invariant keys <= objects.Keys
        invariant forall k | k in objects && k !in keys ::
                    Selects(list.gvk, namespace, selector, objects[k]) ==> list.accepts(objects[k])
        invariant forall o :: o in items <==>
                    o.key in objects && o.key !in keys && objects[o.key] == o && Selects(list.gvk, namespace, selector, o)
        invariant forall i, j | 0 <= i < j < |items| :: items[i].Id() != items[j].Id()
        decreases |keys|
      {
        var key :| key in keys;
        keys := keys - {key};
        if namespace != "" && objects[key].key.namespace != namespace { continue; }
        if !selector(objects[key]) { continue; }
        if !list.accepts(objects[key]) { return items, false; }
        assert objects[key] !in items;
        items := items + [objects[key]];
      }
      return items, true;
    }

    // -------------------------------------------------------------- Create, Update, Patch

    /** `store`: `out` is the caller's object afterwards. */
    method Store(group: string, obj: Option<Obj>, replace: bool, now: int) returns (out: Option<Obj>, err: Option<Error>)
      requires Valid() && (group in resourceGroups ==> WellKept(Group(group)))
      modifies if group in resourceGroups then {resourceGroups[group]} else {}
      ensures var check := StoreCheck(group, group in resourceGroups, scheme, obj, replace);
              check.Some? ==> err == check && (group in resourceGroups ==> Group(group) == old(Group(group)))
      ensures StoreCheck(group, group in resourceGroups, scheme, obj, replace).None? ==>
                && Group(group) == Tracker.Store(old(Group(group)), obj.value, replace, now).0
                && err == Tracker.Store(old(Group(group)), obj.value, replace, now).1
                && (err.None? ==> out.Some? && Group(group).objs[obj.value.Id()] == out.value)
      ensures err.Some? ==> out == obj
      ensures group in resourceGroups ==> WellKept(Group(group))
    {
      if group == "" { return obj, Some(BadRequest); }
      if obj.None? { return obj, Some(BadRequest); }
      var gvk := obj.value.gvk;
      if gvk !in scheme { return obj, Some(Internal); }
      if replace && obj.value.key.name == "" { return obj, Some(BadRequest); }
      if group !in resourceGroups { return obj, Some(BadRequest); }
      Ownership.StoreWellKept(Group(group), obj.value, replace, now);
      var stored;
      stored, err := resourceGroups[group].Store(obj.value, replace, now, Requests(gcQueue, group));
      return Some(stored), err;
    }

    /** The first section of `Patch`: reads the object and applies the patch to it. */
    method PatchRead(group: string, key: Key, into: Target, patch: Obj -> Patched) returns (patched: Patched)
      ensures var check := GetCheck(group, group in resourceGroups, scheme, key, Some(into));
              if check.Some? then patched == Failed(check.value)
              else patched == PatchOf(Group(group), Ref(into.gvk, key), into, patch)
    {
      var obj, e := Get(group, key, Some(into));
      if e.Some? { return Failed(e.value); }
      return patch(obj.value);
    }

    /** `Patch`: the object as patched goes through Update. Every failure of the first section leaves all as it was. */
    method Patch(group: string, key: Key, into: Target, patch: Obj -> Patched, now: int) returns (err: Option<Error>)
      requires Valid() && (group in resourceGroups ==> WellKept(Group(group)))
      modifies if group in resourceGroups then {resourceGroups[group]} else {}
      ensures group in resourceGroups ==> WellKept(Group(group))
      ensures GetCheck(group, group in resourceGroups, scheme, key, Some(into)).Some? ==>
                err == GetCheck(group, group in resourceGroups, scheme, key, Some(into))
                && (group in resourceGroups ==> Group(group) == old(Group(group)))
      ensures GetCheck(group, group in resourceGroups, scheme, key, Some(into)).None? ==>
                (Group(group), err) == UpdateOf(group, scheme, old(Group(group)),
                                                PatchOf(old(Group(group)), Ref(into.gvk, key), into, patch), now)
    {
      var patched := PatchRead(group, key, into, patch);
      if patched.Failed? { return Some(patched.err); }
      err := PatchWrite(group, patched.obj, now);
    }

    /** The second section of `Patch`. */
    method PatchWrite(group: string, obj: Obj, now: int) returns (err: Option<Error>)
      requires Valid() && group in resourceGroups && WellKept(Group(group))
      modifies resourceGroups[group]
      ensures WellKept(Group(group))
      ensures (Group(group), err) == UpdateOf(group, scheme, old(Group(group)), Applied(obj), now)
    {
      ghost var s := Group(group);
      var out;
      out, err := Store(group, Some(obj), true, now);
      if StoreCheck(group, true, scheme, Some(obj), true).None? {
        assert Group(group) == Tracker.Store(s, obj, true, now).0 && err == Tracker.Store(s, obj, true, now).1;
      }
    }

    // -------------------------------------------------------------- Delete

    /** `doTryDeleteLocked`; `fuel` bounds the depth of the recursion. */
    method DoTryDeleteLocked(group: string, tracker: ResourceGroupTracker, gvk: Gvk, key: Key, now: int, ord: Order,
                             ghost fuel: nat)
      returns (deleted: bool, err: Option<Error>)
      requires group in resourceGroups && tracker == resourceGroups[group]
      requires Try(Group(group), Ref(gvk, key), now, ord, fuel).Finished?
      modifies this`gcQueue, tracker
      ensures Try(old(Group(group)), Ref(gvk, key), now, ord, fuel) == Finished(Group(group), deleted, err)
      ensures SameElsewhere(gcQueue, old(gcQueue), group)
      ensures old(tracker.objects.Keys) <= tracker.objects.Keys
      decreases fuel
    {
      ghost var s := Group(group);
      var x := Ref(gvk, key);
      if gvk !in tracker.objects { return true, Some(NotFound); }
      if key !in tracker.objects[gvk] { return true, Some(NotFound); }
      var obj := tracker.objects[gvk][key];
      assert x in s.objs && s.objs[x] == obj;

      if x in tracker.ownedObjects {
        var refs := ord(x, tracker.ownedObjects[x]);
        for i := 0 to |refs|
          invariant SameElsewhere(gcQueue, old(gcQueue), group)
          invariant old(tracker.objects.Keys) <= tracker.objects.Keys
          invariant TryAll(s, refs, now, ord, fuel - 1) == TryAll(Group(group), refs[i..], now, ord, fuel - 1)
        {
          assert refs[i..][0] == refs[i] && refs[i..][1..] == refs[i + 1..];
          var d, e := DoTryDeleteLocked(group, tracker, refs[i].gvk, refs[i].key, now, ord, fuel - 1);
          if e.Some? { return false, e; }
          if !d {
            RequestsAdd(gcQueue, group, refs[i]);
            gcQueue := gcQueue + {Request(group, refs[i])};
          }
        }
        tracker.ownedObjects := tracker.ownedObjects - {x};
      } else {
        assert tracker.ownedObjects - {x} == tracker.ownedObjects;
      }

      deleted := tracker.Settle(gvk, key, obj, now, Requests(gcQueue, group));
      err := None;
    }

    /** `tryDelete`; the precondition holds, in every order, exactly when no ownership cycle lies under `x`. */
    method TryDelete(group: string, x: Ref, now: int, ord: Order) returns (deleted: bool, err: Option<Error>)
      requires group in resourceGroups ==> Returns(Group(group), x, now, ord)
      modifies this`gcQueue, if group in resourceGroups then {resourceGroups[group]} else {}
      ensures group !in resourceGroups ==> deleted && err == Some(BadRequest) && gcQueue == old(gcQueue)
      ensures group in resourceGroups ==> Ends(old(Group(group)), x, now, ord, Finished(Group(group), deleted, err))
      ensures SameElsewhere(gcQueue, old(gcQueue), group)
    {
      if group !in resourceGroups { return true, Some(BadRequest); }
      ghost var fuel: nat :| Try(Group(group), x, now, ord, fuel).Finished?;
      deleted, err := DoTryDeleteLocked(group, resourceGroups[group], x.gvk, x.key, now, ord, fuel);
    }

    /** The locked section of a Delete, and the caller's request when the object is still there. */
    method DeleteTracked(group: string, x: Ref, now: int, ord: Order) returns (err: Option<Error>, ghost o: Outcome)
      requires Valid() && group in resourceGroups && Returns(Group(group), x, now, ord)
      modifies this`gcQueue, resourceGroups[group]
      ensures Ends(old(Group(group)), x, now, ord, o) && err == o.err
      ensures Group(group) == if o.err.None? && !o.deleted then o.s.(gc := o.s.gc + {x}) else o.s
      ensures IsOrder(ord) && err.None? ==> (x in Group(group).objs <==> HasFinalizers(old(Group(group)), x))
      ensures SameElsewhere(gcQueue, old(gcQueue), group)
    {
      var deleted;
      ghost var s := Group(group);
      deleted, err := TryDelete(group, x, now, ord);
      o := Finished(Group(group), deleted, err);
      if IsOrder(ord) && err.None? { TargetFate(s, x, now, ord, o); }
      if err.None? && !deleted {
        RequestsAdd(gcQueue, group, x);
        gcQueue := gcQueue + {Request(group, x)};
      }
    }

    /** `Delete`: `o` is the outcome of the locked section. */
    method Delete(group: string, obj: Option<Obj>, now: int, ord: Order) returns (err: Option<Error>, ghost o: Outcome)
      requires Valid()
      requires DeleteCheck(group, group in resourceGroups, scheme, obj).None? ==>
                 Returns(Group(group), obj.value.Id(), now, ord)
      modifies this`gcQueue, if group in resourceGroups then {resourceGroups[group]} else {}
      ensures var check := DeleteCheck(group, group in resourceGroups, scheme, obj);
              check.Some? ==> err == check && gcQueue == old(gcQueue)
                              && (group in resourceGroups ==> Group(group) == old(Group(group)))
      ensures DeleteCheck(group, group in resourceGroups, scheme, obj).None? ==>
                && Ends(old(Group(group)), obj.value.Id(), now, ord, o) && err == o.err
                && Group(group) == if o.err.None? && !o.deleted then o.s.(gc := o.s.gc + {obj.value.Id()}) else o.s
      ensures IsOrder(ord) && err.None? ==>
                group in resourceGroups && obj.Some?
                && (obj.value.Id() in Group(group).objs <==> HasFinalizers(old(Group(group)), obj.value.Id()))
      ensures forall n | n in resourceGroups && n != group :: Group(n) == old(Group(n))
    {
      o := OutOfFuel;
      if group == "" { return Some(BadRequest), o; }
      if obj.None? { return Some(BadRequest), o; }
      if obj.value.key.name == "" { return Some(BadRequest), o; }
      if obj.value.gvk !in scheme { return Some(Internal), o; }
      if group !in resourceGroups { return Some(BadRequest), o; }
      err, o := DeleteTracked(group, obj.value.Id(), now, ord);
      forall n | n in resourceGroups && n != group
        ensures Group(n) == old(Group(n))
      {
        RequestsElsewhere(gcQueue, old(gcQueue), group, n);
      }
    }

    // -------------------------------------------------------------- garbage collector

    /** One item of the collector's worker loop, as taken from the queue: gone, or scheduled again. */
    method ProcessGarbageCollectorWorkItem(item: Request, now: int, ord: Order) returns (ghost o: Outcome)
      requires Valid() && item in gcQueue
      requires item.group in resourceGroups ==>
                 Returns(Group(item.group).(gc := Group(item.group).gc - {item.ref}), item.ref, now, ord)
      modifies this`gcQueue, this`gcDelayed, if item.group in resourceGroups then {resourceGroups[item.group]} else {}
      ensures item.group in resourceGroups ==>
                var s := old(Group(item.group));
                && Ends(s.(gc := s.gc - {item.ref}), item.ref, now, ord, o)
                && Group(item.group) == o.s
                && gcDelayed == if o.err.None? && o.deleted then old(gcDelayed) else old(gcDelayed) + {item}
      ensures item.group !in resourceGroups ==>
                gcQueue == old(gcQueue) - {item} && gcDelayed == old(gcDelayed) + {item}
      ensures forall n | n in resourceGroups && n != item.group :: Group(n) == old(Group(n))
    {
      var deleted, err;
      deleted, err, o := Collect(item, now, ord);
      if err.None? && deleted {
      } else {
        gcDelayed := gcDelayed + {item};
      }
    }

    /** Takes the item out of the queue and tries to delete its object. */
    method Collect(item: Request, now: int, ord: Order) returns (deleted: bool, err: Option<Error>, ghost o: Outcome)
      requires Valid() && item in gcQueue
      requires item.group in resourceGroups ==>
                 Returns(Group(item.group).(gc := Group(item.group).gc - {item.ref}), item.ref, now, ord)
      modifies this`gcQueue, if item.group in resourceGroups then {resourceGroups[item.group]} else {}
      ensures item.group in resourceGroups ==>
                var s := old(Group(item.group));
                Ends(s.(gc := s.gc - {item.ref}), item.ref, now, ord, o) && o == Finished(Group(item.group), deleted, err)
      ensures item.group !in resourceGroups ==> err.Some? && gcQueue == old(gcQueue) - {item}
      ensures forall n | n in resourceGroups && n != item.group :: Group(n) == old(Group(n))
    {
      RequestsRemove(gcQueue, item.group, item.ref);
      gcQueue := gcQueue - {item};
      assert item.group in resourceGroups ==>
               Group(item.group) == old(Group(item.group)).(gc := Requests(old(gcQueue), item.group) - {item.ref});
      deleted, err := TryDelete(item.group, item.ref, now, ord);
      o := if item.group in resourceGroups then Finished(Group(item.group), deleted, err) else OutOfFuel;
      forall n | n in resourceGroups && n != item.group
        ensures Group(n) == old(Group(n))
      {
        RequestsElsewhere(gcQueue, old(gcQueue), item.group, n);
      }
    }

    // -------------------------------------------------------------- syncer

    /** The scan of one group: queues exactly the objects that are due, and counts them. */
    method SyncResourceGroupTracker(group: string, now: int) returns (queued: nat)
      requires group in resourceGroups
      modifies this`syncQueue
      ensures var due := Machine.DueRefs(old(Group(group).objs), now, syncPeriod);
              queued == |due| && Queued(old(syncQueue), syncQueue, group, due)
    {
      var tracker := resourceGroups[group];
      ghost var all := Machine.DueRefs(Flatten(tracker.objects), now, syncPeriod);
      queued := 0;
      var gvks := tracker.objects.Keys;
      assert OutsideOf(all, gvks) == {};
      while gvks != {}
        invariant gvks <= tracker.objects.Keys
        invariant queued == |OutsideOf(all, gvks)| && Queued(old(syncQueue), syncQueue, group, OutsideOf(all, gvks))
        decreases |gvks|
      {
        var gvk :| gvk in gvks;
        ScanGrows(tracker.objects, gvks, gvk, now, syncPeriod);
        ghost var before := syncQueue;
        var more := SyncBucket(group, tracker.objects[gvk], gvk, now);
        QueuedThen(old(syncQueue), before, syncQueue, group, OutsideOf(all, gvks),
                   BucketDue(tracker.objects[gvk], gvk, now, syncPeriod));
        gvks, queued := gvks - {gvk}, queued + more;
      }
      assert OutsideOf(all, {}) == all;
    }

    /** The scan's inner loop. */
    method SyncBucket(group: string, objects: map<Key, Obj>, gvk: Gvk, now: int) returns (queued: nat)
      modifies this`syncQueue
      ensures var due := BucketDue(objects, gvk, now, syncPeriod);
              queued == |due| && Queued(old(syncQueue), syncQueue, group, due)
    {
      ghost var due: set<Ref> := {};
      queued := 0;
      var keys := objects.Keys;
      while keys != {}
        invariant keys <= objects.Keys
        invariant due == set r | r in BucketDue(objects, gvk, now, syncPeriod) && r.key !in keys
        invariant queued == |due| && Queued(old(syncQueue), syncQueue, group, due)
        decreases |keys|
      {
        var key :| key in keys;
        keys := keys - {key};
        if Machine.SyncDue(objects[key], now, syncPeriod) {
          var x := Ref(gvk, key);
          assert x !in due;
          RequestsAdd(syncQueue, group, x);
          QueuedThen(old(syncQueue), syncQueue, syncQueue + {Request(group, x)}, group, due, {x});
          queued, due := queued + 1, due + {x};
          syncQueue := syncQueue + {Request(group, x)};
        }
      }
      assert due == BucketDue(objects, gvk, now, syncPeriod);
    }

    method ProcessSyncWorkItem(item: Request, now: int)
      requires Valid() && item in syncQueue
      modifies this`syncQueue, if item.group in resourceGroups then {resourceGroups[item.group]} else {}
      ensures syncQueue == old(syncQueue) - {item}
      ensures item.group in resourceGroups ==> Group(item.group) == Sync(old(Group(item.group)), item.ref, now)
      ensures forall n | n in resourceGroups && n != item.group :: Group(n) == old(Group(n))
    {
      syncQueue := syncQueue - {item};
      if item.group !in resourceGroups { return; }
      var tracker := resourceGroups[item.group];
      if item.ref.gvk !in tracker.objects { return; }
      if item.ref.key !in tracker.objects[item.ref.gvk] { return; }
      var obj := tracker.objects[item.ref.gvk][item.ref.key].(lastSync := Some(Stamp(now)));
      FlattenPut(tracker.objects, item.ref.gvk, item.ref.key, obj);
      tracker.objects := tracker.objects[item.ref.gvk := tracker.objects[item.ref.gvk][item.ref.key := obj]];
      tracker.log := tracker.log + [Synced(obj)];
    }
  }
}

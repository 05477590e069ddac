/** What Create and Update keep of the ownership index. */
module Ownership {
  import opened Text
  import opened Objects
  import opened Tracker

  /** The owners that a Create or Update of `obj` replaces. */
  function PriorOwners(s: State, obj: Obj): seq<OwnerRef> {
    if obj.Id() in s.objs then s.objs[obj.Id()].owners else []
  }

  /** `t` is `s` after storing an object with the identity and owners of `obj`. */
  ghost predicate Stored(s: State, t: State, obj: Obj) {
    && OwnersOk(s.objs, obj)
    && t.objs.Keys == s.objs.Keys + {obj.Id()}
    && (forall r | r in s.objs && r != obj.Id() :: t.objs[r] == s.objs[r])
    && t.objs[obj.Id()].Id() == obj.Id()
    && t.objs[obj.Id()].owners == obj.owners
    && t.idx == Reindex(s.idx, obj.key.namespace, PriorOwners(s, obj), obj.owners, obj.Id())
    && (obj.Id() in s.objs && s.objs[obj.Id()].deletion.Some? ==> t.objs[obj.Id()].deletion.Some?)
  }

  lemma StoreStores(s: State, obj: Obj, replace: bool, now: int)
    requires WellKept(s) && Store(s, obj, replace, now).1.None?
    ensures Stored(s, Store(s, obj, replace, now).0, obj)
  {
  }

  /** A Create or Update succeeds exactly under these conditions; otherwise it changes nothing. */
  lemma StoreSucceedsWhen(s: State, obj: Obj, replace: bool, now: int)
    ensures Store(s, obj, replace, now).1.Some? ==> Store(s, obj, replace, now).0 == s
    ensures Store(s, obj, replace, now).1.None? <==>
            && OwnersOk(s.objs, obj)
            && (replace <==> obj.Id() in s.objs)
            && (replace ==> s.objs[obj.Id()].version == obj.version)
  {
  }

  /** One owner's entry after storing `obj`. */
  lemma StoredEdges(s: State, t: State, obj: Obj, r: Ref)
    requires Stored(s, t, obj)
    ensures var ns, was, c := obj.key.namespace, PriorOwners(s, obj), obj.Id();
            && (c in Owned(t.idx, r) <==> (c in Owned(s.idx, r) && !OnlyIn(ns, was, obj.owners, r))
                                          || OnlyIn(ns, obj.owners, was, r))
            && (forall d | d != c :: d in Owned(t.idx, r) <==> d in Owned(s.idx, r))
    ensures r in t.idx ==> r in s.idx || Names(obj.key.namespace, obj.owners, r)
    ensures (r in s.idx ==> s.idx[r] != {}) ==> (r in t.idx ==> t.idx[r] != {})
  {
    ReindexOwned(s.idx, obj.key.namespace, PriorOwners(s, obj), obj.owners, obj.Id(), r);
  }

  /** An owner named by a stored object is tracked, in the object's namespace. */
  lemma NamedOwner(s: State, obj: Obj, r: Ref)
    requires OwnersOk(s.objs, obj) && Names(obj.key.namespace, obj.owners, r)
    ensures r in s.objs && r.key.namespace == obj.key.namespace
  {
  }

  lemma StoredWellKept(s: State, t: State, obj: Obj)
    requires WellKept(s) && Stored(s, t, obj)
    ensures WellKept(t)
  {
    forall r | r in t.idx
      ensures r in t.objs && t.idx[r] != {}
    {
      StoredEdges(s, t, obj, r);
      if r !in s.idx { NamedOwner(s, obj, r); }
    }
    forall r, d | d in Owned(t.idx, r)
      ensures d.key.namespace == r.key.namespace
    {
      StoredEdges(s, t, obj, r);
      if d !in Owned(s.idx, r) { NamedOwner(s, obj, r); }
    }
    forall r, o | r in t.objs && o in t.objs[r].owners
      ensures OwnerOf(r.key.namespace, o).Some?
    {
    }
  }

  lemma StoreWellKept(s: State, obj: Obj, replace: bool, now: int)
    requires WellKept(s)
    ensures WellKept(Store(s, obj, replace, now).0)
  {
    if Store(s, obj, replace, now).1.None? {
      StoreStores(s, obj, replace, now);
      StoredWellKept(s, Store(s, obj, replace, now).0, obj);
    }
  }

  lemma StoredComplete(s: State, t: State, obj: Obj)
    requires WellKept(s) && Complete(s) && OwnersTracked(s) && Stored(s, t, obj)
    ensures OwnersTracked(t)
    ensures Complete(t) <==> t.objs[obj.Id()].deletion.Some?
                             || KeepsEdges(obj.key.namespace, PriorOwners(s, obj), obj.owners)
  {
    var ns, was, c := obj.key.namespace, PriorOwners(s, obj), obj.Id();
    forall d, r | d != c && d in s.objs && s.objs[d].deletion.None? && ListsOwner(s.objs[d], r)
      ensures d in Owned(t.idx, r)
    {
      StoredEdges(s, t, obj, r);
    }
    if t.objs[c].deletion.None? {
      forall r
        ensures Names(ns, obj.owners, r) ==>
                  (c in Owned(t.idx, r) <==> (OnlyIn(ns, was, obj.owners, r) ==> OnlyIn(ns, obj.owners, was, r)))
      {
        StoredEdges(s, t, obj, r);
        if Names(ns, obj.owners, r) && !OnlyIn(ns, obj.owners, was, r) {
          assert Names(ns, was, r);
          assert ListsOwner(s.objs[c], r);
        }
      }
      assert forall r :: ListsOwner(t.objs[c], r) <==> Names(ns, obj.owners, r);
    }
  }

  /** Completeness after a Create or Update, exactly: it needs the edges kept, unless the stored object is
      marked for deletion. Referential integrity needs nothing. */
  lemma StoreComplete(s: State, obj: Obj, replace: bool, now: int)
    requires WellKept(s) && Complete(s) && OwnersTracked(s)
    requires Store(s, obj, replace, now).1.None?
    ensures var t := Store(s, obj, replace, now).0;
            && OwnersTracked(t)
            && obj.Id() in t.objs
            && (Complete(t) <==> t.objs[obj.Id()].deletion.Some?
                                 || KeepsEdges(obj.key.namespace, PriorOwners(s, obj), obj.owners))
  {
    StoreStores(s, obj, replace, now);
    StoredComplete(s, Store(s, obj, replace, now).0, obj);
  }

  /** Incremental equals rebuild: after a Create or Update the exact index is exact again if and only if the
      edges were kept. */
  lemma StoreExact(s: State, obj: Obj, replace: bool, now: int)
    requires WellKept(s) && Exact(s)
    requires Store(s, obj, replace, now).1.None?
    ensures Exact(Store(s, obj, replace, now).0)
            <==> KeepsEdges(obj.key.namespace, PriorOwners(s, obj), obj.owners)
  {
    var t := Store(s, obj, replace, now).0;
    StoreStores(s, obj, replace, now);
    var ns, was, c := obj.key.namespace, PriorOwners(s, obj), obj.Id();
    assert c !in s.objs ==> forall r :: !Names(ns, was, r);
    ReindexExact(s.idx, ns, was, obj.owners, c);
    assert forall r :: ListsOwner(t.objs[c], r) <==> Names(ns, obj.owners, r);
    assert Exact(t) ==> forall r :: c in Owned(t.idx, r) <==> Names(ns, obj.owners, r);
  }

  /** Why a Create or Update is refused, in the order of the checks. */
  lemma StoreRefuses(s: State, obj: Obj, replace: bool, now: int)
    ensures var err := Store(s, obj, replace, now).1;
            if exists o | o in obj.owners ::
                 OwnerOf(obj.key.namespace, o).None? || OwnerOf(obj.key.namespace, o).value !in s.objs
            then err == Some(BadRequest)
            else if Ref(obj.gvk, obj.key) in s.objs then
              if !replace then err == Some(AlreadyExists)
              else if s.objs[Ref(obj.gvk, obj.key)].version != obj.version then err == Some(Conflict)
              else err == None
            else if replace then err == Some(NotFound)
            else err == None
  {
  }

  /** A sync sets the stamp of one object, notifies it, and changes nothing else. */
  lemma SyncStamps(s: State, x: Ref, now: int)
    ensures x !in s.objs ==> Sync(s, x, now) == s
    ensures x in s.objs ==>
            var t := Sync(s, x, now);
            && t.objs.Keys == s.objs.Keys && t.idx == s.idx && t.gc == s.gc
            && (forall r | r in s.objs && r != x :: t.objs[r] == s.objs[r])
            && t.objs[x] == s.objs[x].(lastSync := Some(now / 1_000_000_000))
            && t.log == s.log + [Synced(t.objs[x])]
  {
  }
}

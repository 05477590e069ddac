/** What one call of `doTryDeleteLocked` does, for every order in which it may visit owned objects. */
module Deletion {
  import opened Text
  import opened Objects
  import opened Tracker
  import opened Cascade
  import opened Settled
  import opened Closure

  /** The call comes back with `o`. */
  ghost predicate Ends(s: State, x: Ref, now: int, ord: Order, o: Outcome) {
    o.Finished? && exists fuel: nat :: Try(s, x, now, ord, fuel) == o
  }

  /** The call was a walk that settled `done`. */
  ghost predicate Ran(s: State, x: Ref, now: int, o: Outcome, done: seq<Ref>) {
    && o.Finished? && Topo(s, done)
    && (forall c | c in done :: Reaches(s, x, c))
    && (o.err.Some? ==> o.err == Some(NotFound) && o.s == Apply(s, done, now))
    && (o.err.None? ==>
          && done != [] && done[|done| - 1] == x && o.s == ApplyButLast(s, done, now)
          && o.deleted == !Kept(s.objs[x])
          && Clean(s, x) && forall c :: c in done <==> Reaches(s, x, c))
  }

  /** A walk from nothing. */
  lemma WalkFacts(s: State, x: Ref, ord: Order, fuel: nat)
    requires IsOrder(ord) && Visit(s, [], x, ord, fuel).Walked?
    ensures var w := Visit(s, [], x, ord, fuel);
            && Topo(s, w.done) && (forall c | c in w.done :: Reaches(s, x, c))
            && (w.ok ==> w.done != [] && w.done[|w.done| - 1] == x && Clean(s, x)
                         && forall c :: c in w.done <==> Reaches(s, x, c))
  {
    VisitExtends(s, [], x, ord, fuel);
    ReachesSelf(s, x);
    VisitReaches(s, [], x, ord, fuel, x);
    if Visit(s, [], x, ord, fuel).ok { SuccessIsClean(s, x, ord, fuel); }
  }

  lemma WhatRan(s: State, x: Ref, now: int, ord: Order, o: Outcome) returns (done: seq<Ref>)
    requires IsOrder(ord) && Ends(s, x, now, ord, o)
    ensures Ran(s, x, now, o, done)
  {
    var fuel: nat :| Try(s, x, now, ord, fuel) == o;
    ApplyNothing(s, now);
    TryIsWalk(s, [], x, now, ord, fuel);
    WalkFacts(s, x, ord, fuel);
    done := Visit(s, [], x, ord, fuel).done;
  }

  // ---------------------------------------------------------------- success, exactly

  /** A call that comes back succeeds if and only if the closure of its target is clean, whatever the order. */
  lemma SucceedsIffClean(s: State, x: Ref, now: int, ord: Order, o: Outcome)
    requires IsOrder(ord) && Ends(s, x, now, ord, o)
    ensures o.err.None? <==> Clean(s, x)
    ensures o.err.Some? ==> o.err == Some(NotFound)
  {
    var done := WhatRan(s, x, now, ord, o);
    if Clean(s, x) {
      var more := CleanSucceeds(s, x, ord);
      var fuel: nat :| Try(s, x, now, ord, fuel) == o;
      var top := if fuel < more then more else fuel;
      ApplyNothing(s, now);
      TryIsWalk(s, [], x, now, ord, fuel);
      VisitMore(s, [], x, ord, fuel, top);
      VisitMore(s, [], x, ord, more, top);
    }
  }

  ghost predicate AlwaysReturns(s: State, x: Ref, now: int) {
    forall ord | IsOrder(ord) :: exists o :: Ends(s, x, now, ord, o)
  }

  /** The call comes back in every order if and only if no ownership cycle lies under its target. */
  lemma FinishesIffBounded(s: State, x: Ref, now: int)
    ensures AlwaysReturns(s, x, now) <==> Bounded(s, x)
  {
    ApplyNothing(s, now);
    if Bounded(s, x) {
      var n: nat :| Deep(s, x, n);
      forall ord | IsOrder(ord)
        ensures exists o :: Ends(s, x, now, ord, o)
      {
        DeepFinishes(s, [], x, ord, n);
        TryIsWalk(s, [], x, now, ord, n);
        assert Ends(s, x, now, ord, Try(s, x, now, ord, n));
      }
    } else {
      var ord := WorstOrder(s);
      forall o
        ensures !Ends(s, x, now, ord, o)
      {
        forall fuel: nat
          ensures Try(s, x, now, ord, fuel) == OutOfFuel
        {
          UnboundedSticks(s, x, fuel);
          TryIsWalk(s, [], x, now, ord, fuel);
        }
      }
    }
  }

  // ---------------------------------------------------------------- the effect of a call

  /** On any outcome: only members of the closure change; what has finalizers stays and changes in nothing
      but its mark; index entries are only removed; only survivors get requests. */
  ghost predicate OnlyClosure(s: State, x: Ref, now: int, t: State) {
    && (forall r | r in t.objs :: r in s.objs)
    && (forall r | r in s.objs && r !in t.objs :: Reaches(s, x, r) && !Kept(s.objs[r]))
    && (forall r | r in t.objs && t.objs[r] != s.objs[r] ::
          Reaches(s, x, r) && Kept(s.objs[r]) && s.objs[r].deletion.None? && t.objs[r] == Mark(s.objs[r], now))
    && (forall r | r in t.idx :: r in s.idx && t.idx[r] == s.idx[r])
    && (forall r | r in s.idx && r !in t.idx :: Reaches(s, x, r))
    && s.gc <= t.gc
    && (forall r | r in t.gc && r !in s.gc :: Reaches(s, x, r) && r in t.objs && t.objs[r].deletion.Some?)
  }

  lemma AppliedOnlyClosure(s: State, x: Ref, now: int, done: seq<Ref>, t: State)
    requires forall c | c in done :: Reaches(s, x, c)
    requires t.objs == Apply(s, done, now).objs && t.idx == Apply(s, done, now).idx
    requires s.gc <= t.gc <= s.gc + Survivors(s, done)
    ensures OnlyClosure(s, x, now, t)
  {
  }

  /** What lies in other namespaces than the target's: objects, index entries and requests. */
  ghost predicate OtherNamespacesUntouched(s: State, x: Ref, t: State) {
    forall r: Ref | r.key.namespace != x.key.namespace ::
      && (r in t.objs <==> r in s.objs) && (r in s.objs ==> t.objs[r] == s.objs[r])
      && (r in t.idx <==> r in s.idx) && (r in s.idx ==> t.idx[r] == s.idx[r])
      && (r in t.gc <==> r in s.gc)
  }

  lemma OnlyClosureOnlyNamespace(s: State, x: Ref, now: int, t: State)
    requires WellKept(s) && OnlyClosure(s, x, now, t)
    ensures OtherNamespacesUntouched(s, x, t)
  {
    forall r: Ref | r.key.namespace != x.key.namespace
      ensures !Reaches(s, x, r)
    {
      if Reaches(s, x, r) {
        ReachesStaysInNamespace(s, x, r);
        assert false;
      }
    }
  }

  lemma CallTouchesOnlyClosure(s: State, x: Ref, now: int, ord: Order, o: Outcome)
    requires IsOrder(ord) && Ends(s, x, now, ord, o)
    ensures OnlyClosure(s, x, now, o.s)
    ensures WellKept(s) ==> OtherNamespacesUntouched(s, x, o.s)
  {
    var done := WhatRan(s, x, now, ord, o);
    AppliedOnlyClosure(s, x, now, done, o.s);
    if WellKept(s) { OnlyClosureOnlyNamespace(s, x, now, o.s); }
  }

  /** Every object that a call marks has a request in the queue, except the target of a call that came back
      without an error and without deleting: its request is the caller's to add. */
  lemma MarkedAreRequested(s: State, x: Ref, now: int, ord: Order, o: Outcome, r: Ref)
    requires IsOrder(ord) && Ends(s, x, now, ord, o)
    requires r in s.objs && r in o.s.objs && s.objs[r].deletion.None? && o.s.objs[r].deletion.Some?
    ensures r in o.s.gc || (r == x && o.err.None? && !o.deleted)
  {
    var done := WhatRan(s, x, now, ord, o);
    assert o.s.objs == Apply(s, done, now).objs;
    assert r in Survivors(s, done);
    if o.err.None? {
      var init := done[..|done| - 1];
      assert done == init + [x];
      assert o.s.gc == s.gc + Survivors(s, init);
      assert r != x ==> r in Survivors(s, init);
    }
  }

  /** The index stays complete and owners stay tracked on every outcome, failed cascades included. */
  lemma CallKeeps(s: State, x: Ref, now: int, ord: Order, o: Outcome)
    requires IsOrder(ord) && Ends(s, x, now, ord, o) && WellKept(s)
    ensures WellKept(o.s)
    ensures Complete(s) && OwnersTracked(s) ==> Complete(o.s) && OwnersTracked(o.s)
  {
    var done := WhatRan(s, x, now, ord, o);
    ApplyWellKept(s, done, now);
    assert o.s.objs == Apply(s, done, now).objs && o.s.idx == Apply(s, done, now).idx;
    if Complete(s) && OwnersTracked(s) { ApplyComplete(s, done, now); }
  }

  lemma OwnedSettled(s: State, done: seq<Ref>, r: Ref, c: Ref)
    requires Topo(s, done) && r in done && c in Owned(s.idx, r)
    ensures c in done
  {
    TopoOwnedSettled(s, done, r, c);
  }

  lemma ApplyWellKept(s: State, done: seq<Ref>, now: int)
    requires Topo(s, done) && WellKept(s)
    ensures WellKept(Apply(s, done, now))
  {
    var t := Apply(s, done, now);
    forall r | r in t.objs
      ensures t.objs[r].Id() == r && t.objs[r].owners == s.objs[r].owners
    {
    }
    forall r | r in t.idx
      ensures r in s.idx && r in t.objs && t.idx[r] != {}
    {
    }
    forall r, c | c in Owned(t.idx, r)
      ensures c.key.namespace == r.key.namespace
    {
      assert c in Owned(s.idx, r);
    }
  }

  lemma ApplyComplete(s: State, done: seq<Ref>, now: int)
    requires Topo(s, done) && WellKept(s) && Complete(s) && OwnersTracked(s)
    ensures Complete(Apply(s, done, now)) && OwnersTracked(Apply(s, done, now))
  {
    var t := Apply(s, done, now);
    forall c | c in t.objs && t.objs[c].deletion.None?
      ensures c !in done && c in s.objs && t.objs[c] == s.objs[c]
      ensures forall r | ListsOwner(s.objs[c], r) :: c in Owned(t.idx, r) && r !in done
      ensures OwnersOk(t.objs, t.objs[c])
    {
      UnmarkedOwners(s, done, now, c);
    }
  }

  lemma UnmarkedOwners(s: State, done: seq<Ref>, now: int, c: Ref)
    requires Topo(s, done) && WellKept(s) && Complete(s) && OwnersTracked(s)
    requires c in Apply(s, done, now).objs && Apply(s, done, now).objs[c].deletion.None?
    ensures c !in done && Apply(s, done, now).objs[c] == s.objs[c]
    ensures forall r | ListsOwner(s.objs[c], r) :: c in Owned(Apply(s, done, now).idx, r) && r !in done
    ensures OwnersOk(Apply(s, done, now).objs, s.objs[c])
  {
    forall r | ListsOwner(s.objs[c], r)
      ensures c in Owned(s.idx, r) && r !in done
    {
      if r in done { OwnedSettled(s, done, r, c); }
    }
    forall o | o in s.objs[c].owners
      ensures OwnerOf(c.key.namespace, o).Some? && OwnerOf(c.key.namespace, o).value in Apply(s, done, now).objs
    {
      assert ListsOwner(s.objs[c], OwnerOf(c.key.namespace, o).value);
    }
  }

  lemma SuccessObjects(s: State, x: Ref, now: int, o: Outcome, done: seq<Ref>)
    requires Ran(s, x, now, o, done) && o.err.None?
    ensures forall r :: r in o.s.objs <==> r in s.objs && !(Reaches(s, x, r) && !Kept(s.objs[r]))
    ensures forall r | r in o.s.objs ::
              o.s.objs[r] == if Reaches(s, x, r) then MarkOnce(s.objs[r], now) else s.objs[r]
  {
    assert o.s.objs == Apply(s, done, now).objs;
  }

  lemma SuccessIndex(s: State, x: Ref, now: int, o: Outcome, done: seq<Ref>)
    requires Ran(s, x, now, o, done) && o.err.None?
    ensures forall r :: r in o.s.idx <==> r in s.idx && !Reaches(s, x, r)
    ensures forall r | r in o.s.idx :: o.s.idx[r] == s.idx[r]
  {
    assert o.s.idx == Apply(s, done, now).idx;
  }

  lemma SuccessRequests(s: State, x: Ref, now: int, o: Outcome, done: seq<Ref>)
    requires Ran(s, x, now, o, done) && o.err.None?
    ensures forall r :: r in o.s.gc <==> r in s.gc || (r != x && Reaches(s, x, r) && r in s.objs && Kept(s.objs[r]))
  {
    var init := done[..|done| - 1];
    assert o.s.gc == s.gc + Survivors(s, init);
    assert done == init + [x];
    assert x !in init;
    assert forall r :: r in init <==> r in done && r != x;
  }

  /** A successful call, exactly: the closure's finalizer-free objects are gone, the others are marked, the
      closure's index entries are gone, and every survivor but the target has a request. */
  lemma SuccessIsExact(s: State, x: Ref, now: int, ord: Order, o: Outcome)
    requires IsOrder(ord) && Ends(s, x, now, ord, o) && o.err.None?
    ensures x in s.objs && o.deleted == !Kept(s.objs[x])
    ensures forall r :: r in o.s.objs <==> r in s.objs && !(Reaches(s, x, r) && !Kept(s.objs[r]))
    ensures forall r | r in o.s.objs ::
              o.s.objs[r] == if Reaches(s, x, r) then MarkOnce(s.objs[r], now) else s.objs[r]
    ensures forall r :: r in o.s.idx <==> r in s.idx && !Reaches(s, x, r)
    ensures forall r | r in o.s.idx :: o.s.idx[r] == s.idx[r]
    ensures forall r :: r in o.s.gc <==> r in s.gc || (r != x && Reaches(s, x, r) && r in s.objs && Kept(s.objs[r]))
  {
    var done := WhatRan(s, x, now, ord, o);
    SuccessObjects(s, x, now, o, done);
    SuccessIndex(s, x, now, o, done);
    SuccessRequests(s, x, now, o, done);
  }

  /** An object without finalizers and without an index entry can always be deleted. */
  lemma DeleteLeaf(s: State, x: Ref, now: int) returns (ord: Order, o: Outcome)
    requires x in s.objs && !Kept(s.objs[x]) && x !in s.idx
    ensures IsOrder(ord) && Ends(s, x, now, ord, o) && o.s.objs == s.objs - {x}
  {
    ord := WorstOrder(s);
    o := Try(s, x, now, ord, 1);
  }

  // ---------------------------------------------------------------- notifications

  ghost predicate NewlyMarked(s: State, done: seq<Ref>, r: Ref) {
    r in done && r in s.objs && Kept(s.objs[r]) && s.objs[r].deletion.None?
  }

  /** One Delete notification for every object newly marked, and no other. */
  lemma {:induction false} NoticesFacts(s: State, done: seq<Ref>, now: int)
    requires WellKept(s) && forall i, j | 0 <= i < j < |done| :: done[i] != done[j]
    ensures forall e :: e in Notices(s, done, now)
              <==> e.Deleted? && NewlyMarked(s, done, e.obj.Id()) && e.obj == Mark(s.objs[e.obj.Id()], now)
    ensures forall i, j | 0 <= i < j < |Notices(s, done, now)| :: Notices(s, done, now)[i] != Notices(s, done, now)[j]
  {
    if done != [] {
      var init, r := done[..|done| - 1], done[|done| - 1];
      NoticesFacts(s, init, now);
      assert done == init + [r];
      assert r !in init;
      assert forall q :: NewlyMarked(s, done, q) <==> NewlyMarked(s, init, q) || (q == r && NewlyMarked(s, [r], r));
      assert r in s.objs ==> Mark(s.objs[r], now).Id() == r;
    }
  }

  /** The notifications of one call, on any outcome: each object it marks is reported deleted exactly once,
      and nothing else is reported. */
  lemma CallNotices(s: State, x: Ref, now: int, ord: Order, o: Outcome) returns (notices: seq<Event>)
    requires IsOrder(ord) && Ends(s, x, now, ord, o) && WellKept(s)
    ensures o.s.log == s.log + notices
    ensures forall e :: e in notices <==>
              e.Deleted? && e.obj.Id() in o.s.objs && o.s.objs[e.obj.Id()] == e.obj
              && e.obj.Id() in s.objs && s.objs[e.obj.Id()].deletion.None? && e.obj.deletion.Some?
    ensures forall i, j | 0 <= i < j < |notices| :: notices[i] != notices[j]
  {
    var done := WhatRan(s, x, now, ord, o);
    notices := Notices(s, done, now);
    NoticesFacts(s, done, now);
    ApplyWellKept(s, done, now);
    assert o.s.objs == Apply(s, done, now).objs;
    forall r | r in o.s.objs && s.objs[r].deletion.None? && o.s.objs[r].deletion.Some?
      ensures NewlyMarked(s, done, r) && o.s.objs[r] == Mark(s.objs[r], now)
    {
    }
  }

  // ---------------------------------------------------------------- independence of the order

  lemma {:induction false} SameElements<T>(a: seq<T>, b: seq<T>)
    requires forall e :: e in a <==> e in b
    requires forall i, j | 0 <= i < j < |a| :: a[i] != a[j]
    requires forall i, j | 0 <= i < j < |b| :: b[i] != b[j]
    ensures multiset(a) == multiset(b)
  {
    forall e
      ensures multiset(a)[e] == multiset(b)[e]
    {
      CountsOnce(a, e);
      CountsOnce(b, e);
    }
  }

  lemma {:induction false} CountsOnce<T>(a: seq<T>, e: T)
    requires forall i, j | 0 <= i < j < |a| :: a[i] != a[j]
    ensures multiset(a)[e] == if e in a then 1 else 0
  {
    if a != [] {
      assert a == [a[0]] + a[1..];
      CountsOnce(a[1..], e);
    }
  }

  /** Two calls in different orders agree on success, and two successful calls agree on everything but the
      order of their notifications. */
  lemma OrderDoesNotMatter(s: State, x: Ref, now: int, ord1: Order, ord2: Order, o1: Outcome, o2: Outcome)
    requires IsOrder(ord1) && IsOrder(ord2) && WellKept(s)
    requires Ends(s, x, now, ord1, o1) && Ends(s, x, now, ord2, o2)
    ensures o1.err == o2.err
    ensures o1.err.None? ==>
              && o1.deleted == o2.deleted
              && o1.s.objs == o2.s.objs && o1.s.idx == o2.s.idx && o1.s.gc == o2.s.gc
              && multiset(o1.s.log) == multiset(o2.s.log)
  {
    SucceedsIffClean(s, x, now, ord1, o1);
    SucceedsIffClean(s, x, now, ord2, o2);
    if o1.err.None? {
      SuccessIsExact(s, x, now, ord1, o1);
      SuccessIsExact(s, x, now, ord2, o2);
      assert o1.s.objs == o2.s.objs;
      assert o1.s.idx == o2.s.idx;
      assert o1.s.gc == o2.s.gc;
      var n1 := CallNotices(s, x, now, ord1, o1);
      var n2 := CallNotices(s, x, now, ord2, o2);
      SameElements(n1, n2);
    }
  }

  // ---------------------------------------------------------------- where the code falls short

  /** The index records `c` under `owner`, and `c` is not tracked. */
  ghost predicate Stranded(s: State, owner: Ref, c: Ref) {
    c in Owned(s.idx, owner) && c !in s.objs
  }

  /** Deleting an owned object on its own leaves it in its owner's entry. */
  lemma DirectDeleteStrands(s: State, owner: Ref, c: Ref, now: int, ord: Order, o: Outcome)
    requires IsOrder(ord) && Ends(s, c, now, ord, o) && o.err.None? && o.deleted
    requires c in Owned(s.idx, owner) && !Reaches(s, c, owner)
    ensures Stranded(o.s, owner, c)
  {
    SuccessIsExact(s, c, now, ord, o);
    ReachesSelf(s, c);
  }

  /** With a stranded entry no deletion of the owner succeeds. */
  lemma StrandedFails(s: State, owner: Ref, c: Ref, now: int, ord: Order, o: Outcome)
    requires IsOrder(ord) && Ends(s, owner, now, ord, o) && Stranded(s, owner, c)
    ensures o.err == Some(NotFound)
  {
    ReachesSelf(s, owner);
    ReachesNext(s, owner, owner, c);
    SucceedsIffClean(s, owner, now, ord, o);
  }

  /** No cascade, whatever its target and outcome, clears a stranded entry. */
  lemma CallLeavesStranded(s: State, x: Ref, now: int, ord: Order, o: Outcome, owner: Ref, c: Ref)
    requires IsOrder(ord) && Ends(s, x, now, ord, o) && Stranded(s, owner, c)
    ensures Stranded(o.s, owner, c)
  {
    var done := WhatRan(s, x, now, ord, o);
    assert o.s.objs == Apply(s, done, now).objs && o.s.idx == Apply(s, done, now).idx;
    if owner in done {
      OwnedSettled(s, done, owner, c);
      assert false;
    }
  }

  // ---------------------------------------------------------------- finalizers, in plain fields

  /** No call removes an object with finalizers or touches them, whatever its outcome. */
  lemma FinalizersProtect(s: State, x: Ref, now: int, ord: Order, o: Outcome, r: Ref)
    requires IsOrder(ord) && Ends(s, x, now, ord, o)
    requires r in s.objs && s.objs[r].finalizers != []
    ensures r in o.s.objs && o.s.objs[r].finalizers == s.objs[r].finalizers
  {
    CallTouchesOnlyClosure(s, x, now, ord, o);
  }

  /** A successful call reports its target deleted exactly if that has no finalizers. Of the tracked objects it removes
      exactly those under the target that have none; those that have some it leaves with a deletion time, the one they
      had or the present with the next version and a new stamp; and it leaves all others alone. */
  lemma SuccessInPlainFields(s: State, x: Ref, now: int, ord: Order, o: Outcome, r: Ref)
    requires IsOrder(ord) && Ends(s, x, now, ord, o) && o.err.None? && r in s.objs
    ensures x in s.objs && (o.deleted <==> s.objs[x].finalizers == [])
    ensures r !in o.s.objs <==> Reaches(s, x, r) && s.objs[r].finalizers == []
    ensures r in o.s.objs && (!Reaches(s, x, r) || s.objs[r].deletion.Some?) ==> o.s.objs[r] == s.objs[r]
    ensures r in o.s.objs && Reaches(s, x, r) && s.objs[r].deletion.None? ==>
              o.s.objs[r] == s.objs[r].(deletion := Some(now), lastSync := Some(now / 1_000_000_000),
                                        version := Bump(s.objs[r].version))
  {
    SuccessIsExact(s, x, now, ord, o);
    if s.objs[r].deletion.None? { MarkFacts(s.objs[r], now); }
  }

  /** The requests that a successful call adds are for the objects under its target that have finalizers, the target
      aside; the index loses the entries of everything under the target. */
  lemma SuccessRequestsInPlainFields(s: State, x: Ref, now: int, ord: Order, o: Outcome, r: Ref)
    requires IsOrder(ord) && Ends(s, x, now, ord, o) && o.err.None?
    ensures r in o.s.gc <==> r in s.gc || (r != x && Reaches(s, x, r) && r in s.objs && s.objs[r].finalizers != [])
    ensures if Reaches(s, x, r) then r !in o.s.idx else Owned(o.s.idx, r) == Owned(s.idx, r)
  {
    SuccessIsExact(s, x, now, ord, o);
  }

  /** What a failed call has done stays done: of two owned objects the first, without finalizers or objects of its own,
      is gone when the second turns out to be missing; the target and its index entry are as before. */
  lemma FailureIsNotUndone(s: State, x: Ref, a: Ref, b: Ref, now: int, ord: Order, o: Outcome)
    requires Ends(s, x, now, ord, o)
    requires x in s.objs && x in s.idx && s.idx[x] == {a, b} && ord(x, {a, b}) == [a, b]
    requires a in s.objs && a !in s.idx && s.objs[a].finalizers == [] && b !in s.objs && a != b
    ensures o == Finished(s.(objs := s.objs - {a}), false, Some(NotFound))
  {
    var fuel: nat :| Try(s, x, now, ord, fuel) == o;
    var t := s.(objs := s.objs - {a});
    assert s.idx - {a} == s.idx;
    assert ord(x, s.idx[x]) == [a, b] && ([a, b])[1..] == [b];
    assert TryAll(s, [a, b], now, ord, 0) == OutOfFuel by { assert Try(s, a, now, ord, 0) == OutOfFuel; }
    assert fuel >= 2 && Try(s, a, now, ord, fuel - 1) == Finished(t, true, None);
    assert Try(t, b, now, ord, fuel - 1) == Finished(t, true, Some(NotFound));
    assert TryAll(t, [b], now, ord, fuel - 1) == Finished(t, false, Some(NotFound));
    assert TryAll(s, [a, b], now, ord, fuel - 1) == Finished(t, false, Some(NotFound));
  }

  ghost predicate HasFinalizers(s: State, x: Ref) {
    x in s.objs && s.objs[x].finalizers != []
  }

  lemma TargetFate(s: State, x: Ref, now: int, ord: Order, o: Outcome)
    requires IsOrder(ord) && Ends(s, x, now, ord, o) && o.err.None?
    ensures x in s.objs && (x in o.s.objs <==> HasFinalizers(s, x)) && (o.deleted <==> !HasFinalizers(s, x))
  {
    SuccessIsExact(s, x, now, ord, o);
    ReachesSelf(s, x);
    SuccessInPlainFields(s, x, now, ord, o, x);
  }
}

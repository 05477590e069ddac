/** The objects under a root in the index, how deep they go, and when a cascade over them succeeds. */
module Closure {
  import opened Objects
  import opened Tracker
  import opened Cascade

  /** `c` is `n` index edges below `x`. */
  ghost predicate Below(s: State, x: Ref, c: Ref, n: nat)
    decreases n
  {
    if n == 0 then c == x else exists p :: Below(s, x, p, n - 1) && c in Owned(s.idx, p)
  }

  ghost predicate Reaches(s: State, x: Ref, c: Ref) {
    exists n: nat :: Below(s, x, c, n)
  }

  /** Every chain of tracked owners that starts at `x` has fewer than `n` members. */
  ghost predicate Deep(s: State, x: Ref, n: nat)
    decreases n
  {
    n > 0 && (x in s.objs ==> forall c | c in Owned(s.idx, x) :: Deep(s, c, n - 1))
  }

  /** No ownership cycle below `x`. */
  ghost predicate Bounded(s: State, x: Ref) {
    exists n: nat :: Deep(s, x, n)
  }

  /** Everything under `x` is tracked, in no cycle, and what has no finalizer is recorded under one owner. */
  ghost predicate Clean(s: State, x: Ref) {
    && Bounded(s, x)
    && (forall c | Reaches(s, x, c) :: c in s.objs)
    && OneOwnerUnder(s, x)
  }

  ghost predicate OneOwnerUnder(s: State, x: Ref) {
    forall c, p, q | Reaches(s, x, p) && Reaches(s, x, q) && c in Owned(s.idx, p) && c in Owned(s.idx, q)
                     && c in s.objs && !Kept(s.objs[c]) :: p == q
  }

  lemma ReachesSelf(s: State, x: Ref)
    ensures Reaches(s, x, x)
  {
    assert Below(s, x, x, 0);
  }

  lemma ReachesNext(s: State, x: Ref, p: Ref, c: Ref)
    requires Reaches(s, x, p) && c in Owned(s.idx, p)
    ensures Reaches(s, x, c)
  {
    var n: nat :| Below(s, x, p, n);
    assert Below(s, x, c, n + 1);
  }

  lemma {:induction false} BelowStaysInNamespace(s: State, x: Ref, c: Ref, n: nat)
    requires WellKept(s) && Below(s, x, c, n)
    ensures c.key.namespace == x.key.namespace
    decreases n
  {
    if n > 0 {
      var p :| Below(s, x, p, n - 1) && c in Owned(s.idx, p);
      BelowStaysInNamespace(s, x, p, n - 1);
    }
  }

  /** Nothing outside the target's namespace is under it. */
  lemma ReachesStaysInNamespace(s: State, x: Ref, c: Ref)
    requires WellKept(s) && Reaches(s, x, c)
    ensures c.key.namespace == x.key.namespace
  {
    var n: nat :| Below(s, x, c, n);
    BelowStaysInNamespace(s, x, c, n);
  }

  lemma {:induction false} DeepMore(s: State, x: Ref, n: nat, m: nat)
    requires Deep(s, x, n) && n <= m
    ensures Deep(s, x, m)
    decreases n
  {
    if x in s.objs {
      forall c | c in Owned(s.idx, x) ensures Deep(s, c, m - 1) { DeepMore(s, c, n - 1, m - 1); }
    }
  }

  /** The least depth. */
  lemma {:induction false} Least(s: State, x: Ref, n: nat) returns (k: nat)
    requires Deep(s, x, n)
    ensures 0 < k <= n && Deep(s, x, k) && !Deep(s, x, k - 1)
    decreases n
  {
    if Deep(s, x, n - 1) { k := Least(s, x, n - 1); } else { k := n; }
  }

  // ---------------------------------------------------------------- what a walk settles

  /** A walk settles only what is under its target. */
  lemma {:induction false} VisitReaches(s: State, done: seq<Ref>, x: Ref, ord: Order, fuel: nat, root: Ref)
    requires IsOrder(ord) && Reaches(s, root, x)
    ensures var w := Visit(s, done, x, ord, fuel);
            w.Walked? ==> forall c | c in w.done :: c in done || Reaches(s, root, c)
    decreases fuel, 0
  {
    if fuel > 0 && x in s.objs && x !in done && x in s.idx {
      var refs := ord(x, s.idx[x]);
      assert Enumerates(refs, s.idx[x]);
      forall r | r in refs ensures Reaches(s, root, r) { ReachesNext(s, root, x, r); }
      VisitAllReaches(s, done, refs, ord, fuel - 1, root);
    }
  }

  lemma {:induction false} VisitAllReaches(s: State, done: seq<Ref>, refs: seq<Ref>, ord: Order, fuel: nat, root: Ref)
    requires IsOrder(ord) && forall r | r in refs :: Reaches(s, root, r)
    ensures var w := VisitAll(s, done, refs, ord, fuel);
            w.Walked? ==> forall c | c in w.done :: c in done || Reaches(s, root, c)
    decreases fuel, |refs| + 1
  {
    if refs != [] {
      VisitReaches(s, done, refs[0], ord, fuel, root);
      var w := Visit(s, done, refs[0], ord, fuel);
      if w.Walked? && w.ok {
        VisitAllReaches(s, w.done, refs[1..], ord, fuel, root);
      }
    }
  }

  /** A topological list with `x` holds everything under `x`. */
  lemma {:induction false} TopoClosed(s: State, done: seq<Ref>, x: Ref, c: Ref, n: nat)
    requires Topo(s, done) && x in done && Below(s, x, c, n)
    ensures c in done
    decreases n
  {
    if n > 0 {
      var p :| Below(s, x, p, n - 1) && c in Owned(s.idx, p);
      TopoClosed(s, done, x, p, n - 1);
    }
  }

  lemma SettledEarlier(s: State, done: seq<Ref>, i: nat, c: Ref) returns (j: nat)
    requires Topo(s, done) && i < |done| && c in Owned(s.idx, done[i])
    ensures j < i && done[j] == c
  {
    assert c in done[..i];
    j :| 0 <= j < i && done[..i][j] == c;
  }

  lemma {:induction false} TopoDeep(s: State, done: seq<Ref>, i: nat, x: Ref)
    requires Topo(s, done) && i < |done| && done[i] == x
    ensures Deep(s, x, i + 1)
    decreases i
  {
    forall c | c in Owned(s.idx, x)
      ensures Deep(s, c, i)
    {
      var j := SettledEarlier(s, done, i, c);
      TopoDeep(s, done, j, c);
      DeepMore(s, c, j + 1, i);
    }
  }

  // ---------------------------------------------------------------- success needs a clean closure

  /** `p` was settled between `from` and `to`. */
  ghost predicate New(from: seq<Ref>, to: seq<Ref>, p: Ref) {
    p in to && p !in from
  }

  /** What was newly settled found its finalizer-free objects unsettled, each under one owner. */
  ghost predicate Fresh(s: State, from: seq<Ref>, to: seq<Ref>) {
    && (forall p, c | New(from, to, p) && c in Owned(s.idx, p) && c in s.objs && !Kept(s.objs[c]) :: c !in from)
    && (forall p, q, c | New(from, to, p) && New(from, to, q) && c in Owned(s.idx, p) && c in Owned(s.idx, q)
                         && c in s.objs && !Kept(s.objs[c]) :: p == q)
  }

  /** The same for the roots of a loop. */
  ghost predicate FreshRoots(s: State, from: seq<Ref>, to: seq<Ref>, refs: seq<Ref>) {
    forall r | r in refs && r in s.objs && !Kept(s.objs[r]) ::
      r !in from && forall p | New(from, to, p) :: r !in Owned(s.idx, p)
  }

  lemma TopoOwnedSettled(s: State, done: seq<Ref>, p: Ref, c: Ref)
    requires Topo(s, done) && p in done && c in Owned(s.idx, p)
    ensures c in done && done[|done| - 1] != c
  {
    var j :| 0 <= j < |done| && done[j] == p;
    assert c in done[..j];
  }

  lemma {:induction false} VisitFresh(s: State, done: seq<Ref>, x: Ref, ord: Order, fuel: nat)
    requires IsOrder(ord) && Topo(s, done)
    requires Visit(s, done, x, ord, fuel).Walked? && Visit(s, done, x, ord, fuel).ok
    ensures Fresh(s, done, Visit(s, done, x, ord, fuel).done)
    decreases fuel, 0
  {
    if x !in done {
      if x in s.idx {
        var refs := ord(x, s.idx[x]);
        assert Enumerates(refs, s.idx[x]);
        VisitAllFresh(s, done, refs, ord, fuel - 1);
        var to := VisitAll(s, done, refs, ord, fuel - 1).done;
        assert forall p | New(done, to + [x], p) :: New(done, to, p) || p == x;
      } else {
        assert forall p | New(done, done + [x], p) :: p == x;
      }
    }
  }

  lemma {:induction false} VisitAllFresh(s: State, done: seq<Ref>, refs: seq<Ref>, ord: Order, fuel: nat)
    requires IsOrder(ord) && Topo(s, done)
    requires forall i, j | 0 <= i < j < |refs| :: refs[i] != refs[j]
    requires VisitAll(s, done, refs, ord, fuel).Walked? && VisitAll(s, done, refs, ord, fuel).ok
    ensures Fresh(s, done, VisitAll(s, done, refs, ord, fuel).done)
    ensures FreshRoots(s, done, VisitAll(s, done, refs, ord, fuel).done, refs)
    decreases fuel, |refs| + 1
  {
    if refs != [] {
      var mid := Visit(s, done, refs[0], ord, fuel).done;
      VisitFresh(s, done, refs[0], ord, fuel);
      VisitExtends(s, done, refs[0], ord, fuel);
      VisitAllFresh(s, mid, refs[1..], ord, fuel);
      VisitAllExtends(s, mid, refs[1..], ord, fuel);
      var to := VisitAll(s, mid, refs[1..], ord, fuel).done;
      FreshChain(s, done, mid, to, refs[0], refs[1..]);
      assert refs == [refs[0]] + refs[1..];
    }
  }

  lemma FreshChain(s: State, from: seq<Ref>, mid: seq<Ref>, to: seq<Ref>, r: Ref, rest: seq<Ref>)
    requires from <= mid <= to && Topo(s, mid) && Topo(s, to)
    requires Fresh(s, from, mid) && Fresh(s, mid, to) && FreshRoots(s, mid, to, rest)
    requires r in mid && (r !in from ==> mid[|mid| - 1] == r)
    requires r in s.objs && !Kept(s.objs[r]) ==> r !in from
    ensures Fresh(s, from, to) && FreshRoots(s, from, to, [r] + rest)
  {
    forall c | c in from ensures c in mid { SettledStays(from, mid, c); }
    forall c | c in mid ensures c in to { SettledStays(mid, to, c); }
    forall p, c | New(from, to, p) && c in Owned(s.idx, p) && c in s.objs && !Kept(s.objs[c])
      ensures c !in from
      ensures New(from, mid, p) ==> c in mid && c != mid[|mid| - 1]
      ensures !New(from, mid, p) ==> New(mid, to, p) && c !in mid
    {
      if New(from, mid, p) { TopoOwnedSettled(s, mid, p, c); }
    }
    forall p, q, c | New(from, to, p) && New(from, to, q) && c in Owned(s.idx, p) && c in Owned(s.idx, q)
                     && c in s.objs && !Kept(s.objs[c])
      ensures p == q
    {
      assert New(from, mid, p) <==> New(from, mid, q);
    }
  }

  lemma SettledStays(from: seq<Ref>, to: seq<Ref>, c: Ref)
    requires from <= to && c in from
    ensures c in to
  {
    var i :| 0 <= i < |from| && from[i] == c;
    assert to[i] == c;
  }

  /** A walk that succeeds from nothing settles exactly the closure, and the closure is clean. */
  lemma SuccessIsClean(s: State, x: Ref, ord: Order, fuel: nat)
    requires IsOrder(ord)
    requires Visit(s, [], x, ord, fuel).Walked? && Visit(s, [], x, ord, fuel).ok
    ensures Clean(s, x)
    ensures forall c :: c in Visit(s, [], x, ord, fuel).done <==> Reaches(s, x, c)
  {
    var to := Visit(s, [], x, ord, fuel).done;
    VisitExtends(s, [], x, ord, fuel);
    VisitFresh(s, [], x, ord, fuel);
    ReachesSelf(s, x);
    VisitReaches(s, [], x, ord, fuel, x);
    forall c | Reaches(s, x, c)
      ensures c in to && c in s.objs
    {
      var n: nat :| Below(s, x, c, n);
      TopoClosed(s, to, x, c, n);
    }
    TopoDeep(s, to, |to| - 1, x);
    assert forall c | Reaches(s, x, c) :: New([], to, c);
  }

  // ---------------------------------------------------------------- a clean closure succeeds

  /** Unsettled members of bounded depth have their finalizer-free objects unsettled too. */
  ghost predicate Untouched(s: State, root: Ref, done: seq<Ref>, n: nat) {
    forall q, c | Reaches(s, root, q) && q !in done && Deep(s, q, n) && c in Owned(s.idx, q)
                  && c in s.objs && !Kept(s.objs[c]) :: c !in done
  }

  ghost predicate AllUnsettled(s: State, done: seq<Ref>, refs: seq<Ref>) {
    forall r | r in refs && r in s.objs && !Kept(s.objs[r]) :: r !in done
  }

  lemma {:induction false} CleanVisits(s: State, root: Ref, done: seq<Ref>, x: Ref, ord: Order, fuel: nat, n: nat)
    requires IsOrder(ord) && Topo(s, done) && Clean(s, root) && Reaches(s, root, x)
    requires 0 < n <= fuel && Deep(s, x, n) && !Deep(s, x, n - 1)
    requires AllUnsettled(s, done, [x]) && Untouched(s, root, done, n)
    ensures Visit(s, done, x, ord, fuel).Walked? && Visit(s, done, x, ord, fuel).ok
    decreases fuel, 0
  {
    if x !in done && x in s.idx {
      var refs := ord(x, s.idx[x]);
      assert Enumerates(refs, s.idx[x]);
      forall q, c | Reaches(s, root, q) && q !in done && Deep(s, q, n - 1) && c in Owned(s.idx, q)
                    && c in s.objs && !Kept(s.objs[c])
        ensures c !in done
      {
        DeepMore(s, q, n - 1, n);
      }
      CleanVisitsAll(s, root, done, x, refs, ord, fuel - 1, n - 1);
    }
  }

  lemma {:induction false} CleanVisitsAll(s: State, root: Ref, done: seq<Ref>, p: Ref, refs: seq<Ref>, ord: Order,
                                          fuel: nat, n: nat)
    requires IsOrder(ord) && Topo(s, done) && Clean(s, root) && Reaches(s, root, p) && p !in done
    requires n <= fuel && !Deep(s, p, n)
    requires forall i, j | 0 <= i < j < |refs| :: refs[i] != refs[j]
    requires forall r | r in refs :: r in Owned(s.idx, p) && Deep(s, r, n)
    requires AllUnsettled(s, done, refs) && Untouched(s, root, done, n)
    ensures VisitAll(s, done, refs, ord, fuel).Walked? && VisitAll(s, done, refs, ord, fuel).ok
    decreases fuel, |refs| + 1
  {
    if refs != [] {
      var x := refs[0];
      ReachesNext(s, root, p, x);
      var k := Least(s, x, n);
      forall q, c | Reaches(s, root, q) && q !in done && Deep(s, q, k) && c in Owned(s.idx, q)
                    && c in s.objs && !Kept(s.objs[c])
        ensures c !in done
      {
        DeepMore(s, q, k, n);
      }
      CleanVisits(s, root, done, x, ord, fuel, k);
      VisitExtends(s, done, x, ord, fuel);
      VisitReaches(s, done, x, ord, fuel, root);
      var to := Visit(s, done, x, ord, fuel).done;
      StillUnsettled(s, root, done, to, p, x, refs[1..], n);
      CleanVisitsAll(s, root, to, p, refs[1..], ord, fuel, n);
    }
  }

  /** Settling `x` under `p` does not disturb what is still to come. */
  lemma StillUnsettled(s: State, root: Ref, done: seq<Ref>, to: seq<Ref>, p: Ref, x: Ref, rest: seq<Ref>, n: nat)
    requires Clean(s, root) && Reaches(s, root, p) && p !in done && !Deep(s, p, n)
    requires done <= to && Topo(s, to) && Rooted(s, done, to, [x]) && x in Owned(s.idx, p)
    requires forall c | c in to :: c in done || Reaches(s, root, c)
    requires x !in rest && forall r | r in rest :: r in Owned(s.idx, p)
    requires AllUnsettled(s, done, rest) && Untouched(s, root, done, n)
    ensures p !in to && AllUnsettled(s, to, rest) && Untouched(s, root, to, n)
  {
    if |to| > |done| {
      LastIsRoot(s, done, to, [x]);
      assert to[|to| - 1] == x;
    }
    assert p !in to;
    forall q, c | Reaches(s, root, q) && q !in to && c in Owned(s.idx, q) && c in s.objs && !Kept(s.objs[c])
                  && c !in done && c in to
      ensures c == x && q == p
    {
      OnlyOwnerIsNew(s, root, done, to, x, c, q);
      assert c in Owned(s.idx, p) && OneOwnerUnder(s, root);
    }
    forall r | r in rest && r in s.objs && !Kept(s.objs[r])
      ensures r !in to
    {
      assert r in Owned(s.idx, p);
    }
    forall q, c | Reaches(s, root, q) && q !in to && Deep(s, q, n) && c in Owned(s.idx, q)
                  && c in s.objs && !Kept(s.objs[c])
      ensures c !in to
    {
      if q in done { SettledStays(done, to, q); }
    }
  }

  /** Something newly settled without finalizers is the target, or all its owners under the root are settled. */
  lemma OnlyOwnerIsNew(s: State, root: Ref, done: seq<Ref>, to: seq<Ref>, x: Ref, c: Ref, q: Ref)
    requires Clean(s, root) && done <= to && Topo(s, to) && Rooted(s, done, to, [x])
    requires forall d | d in to :: d in done || Reaches(s, root, d)
    requires c in to && c !in done && c in s.objs && !Kept(s.objs[c])
    requires Reaches(s, root, q) && c in Owned(s.idx, q) && q !in to
    ensures c == x
  {
    if c != x {
      var p := NewOwner(s, root, done, to, x, c);
    }
  }

  lemma NewOwner(s: State, root: Ref, done: seq<Ref>, to: seq<Ref>, x: Ref, c: Ref) returns (p: Ref)
    requires done <= to && Topo(s, to) && Rooted(s, done, to, [x])
    requires forall d | d in to :: d in done || Reaches(s, root, d)
    requires c in to && c !in done && c != x
    ensures p in to && c in Owned(s.idx, p) && Reaches(s, root, p)
  {
    var i :| 0 <= i < |to| && to[i] == c;
    assert forall k | 0 <= k < |done| :: to[k] == done[k];
    assert IsNew(done, to, c);
    var j :| |done| <= j < |to| && c in Owned(s.idx, to[j]);
    NewReaches(s, root, done, to, j);
    p := to[j];
  }

  lemma NewReaches(s: State, root: Ref, done: seq<Ref>, to: seq<Ref>, j: nat)
    requires done <= to && Topo(s, to) && |done| <= j < |to|
    requires forall c | c in to :: c in done || Reaches(s, root, c)
    ensures Reaches(s, root, to[j])
  {
    assert forall i | 0 <= i < |done| :: done[i] == to[i];
  }

  lemma CleanSucceeds(s: State, x: Ref, ord: Order) returns (fuel: nat)
    requires IsOrder(ord) && Clean(s, x)
    ensures Visit(s, [], x, ord, fuel).Walked? && Visit(s, [], x, ord, fuel).ok
  {
    var n: nat :| Deep(s, x, n);
    fuel := Least(s, x, n);
    ReachesSelf(s, x);
    CleanVisits(s, x, [], x, ord, fuel, fuel);
  }

  // ---------------------------------------------------------------- termination

  /** More fuel never changes a finished walk. */
  lemma {:induction false} VisitMore(s: State, done: seq<Ref>, x: Ref, ord: Order, fuel: nat, more: nat)
    requires Visit(s, done, x, ord, fuel).Walked? && fuel <= more
    ensures Visit(s, done, x, ord, more) == Visit(s, done, x, ord, fuel)
    decreases fuel, 0
  {
    if x in s.objs && x !in done && x in s.idx {
      VisitAllMore(s, done, ord(x, s.idx[x]), ord, fuel - 1, more - 1);
    }
  }

  lemma {:induction false} VisitAllMore(s: State, done: seq<Ref>, refs: seq<Ref>, ord: Order, fuel: nat, more: nat)
    requires VisitAll(s, done, refs, ord, fuel).Walked? && fuel <= more
    ensures VisitAll(s, done, refs, ord, more) == VisitAll(s, done, refs, ord, fuel)
    decreases fuel, |refs| + 1
  {
    if refs != [] {
      VisitMore(s, done, refs[0], ord, fuel, more);
      var w := Visit(s, done, refs[0], ord, fuel);
      if w.ok { VisitAllMore(s, w.done, refs[1..], ord, fuel, more); }
    }
  }

  /** Bounded depth is enough fuel, in every order and whatever is settled. */
  lemma {:induction false} DeepFinishes(s: State, done: seq<Ref>, x: Ref, ord: Order, fuel: nat)
    requires IsOrder(ord) && Deep(s, x, fuel)
    ensures Visit(s, done, x, ord, fuel).Walked?
    decreases fuel, 0
  {
    if x in s.objs && x !in done && x in s.idx {
      var refs := ord(x, s.idx[x]);
      assert Enumerates(refs, s.idx[x]);
      assert forall r | r in refs :: r in Owned(s.idx, x);
      DeepAllFinishes(s, done, refs, ord, fuel - 1);
    }
  }

  lemma {:induction false} DeepAllFinishes(s: State, done: seq<Ref>, refs: seq<Ref>, ord: Order, fuel: nat)
    requires IsOrder(ord) && forall r | r in refs :: Deep(s, r, fuel)
    ensures VisitAll(s, done, refs, ord, fuel).Walked?
    decreases fuel, |refs| + 1
  {
    if refs != [] {
      DeepFinishes(s, done, refs[0], ord, fuel);
      var w := Visit(s, done, refs[0], ord, fuel);
      if w.ok { DeepAllFinishes(s, w.done, refs[1..], ord, fuel); }
    }
  }

  ghost function Listing(S: set<Ref>): (q: seq<Ref>)
    ensures Enumerates(q, S)
  {
    if S == {} then []
    else
      var r :| r in S;
      var q := Listing(S - {r});
      assert forall x :: x in [r] + q <==> x in S;
      [r] + q
  }

  /** Any listing that starts, if it can, with an object that leads into a cycle. */
  ghost function WorstFirst(s: State, S: set<Ref>): (q: seq<Ref>)
    ensures Enumerates(q, S)
    ensures (exists c | c in S :: !Bounded(s, c)) ==> q != [] && !Bounded(s, q[0])
  {
    if exists c | c in S :: !Bounded(s, c) then
      var c :| c in S && !Bounded(s, c);
      var q := Listing(S - {c});
      assert forall x :: x in [c] + q <==> x in S;
      [c] + q
    else Listing(S)
  }

  ghost function WorstOrder(s: State): (ord: Order)
    ensures IsOrder(ord)
  {
    (r: Ref, S: set<Ref>) => WorstFirst(s, S)
  }

  lemma {:induction false} CommonBound(s: State, S: set<Ref>) returns (n: nat)
    requires forall c | c in S :: Bounded(s, c)
    ensures forall c | c in S :: Deep(s, c, n)
  {
    n := 1;
    if S != {} {
      var c :| c in S;
      var k := CommonBound(s, S - {c});
      var m: nat :| Deep(s, c, m);
      n := if k < m then m else k;
      DeepMore(s, c, m, n);
      forall d | d in S && d != c ensures Deep(s, d, n) { DeepMore(s, d, k, n); }
    }
  }

  /** In the worst order, an unbounded walk never comes back. */
  lemma {:induction false} UnboundedSticks(s: State, x: Ref, fuel: nat)
    requires !Bounded(s, x)
    ensures Visit(s, [], x, WorstOrder(s), fuel) == Stuck
    decreases fuel
  {
    if fuel > 0 {
      assert !Deep(s, x, 1);
      if forall c | c in Owned(s.idx, x) :: Bounded(s, c) {
        var n := CommonBound(s, Owned(s.idx, x));
        assert Deep(s, x, n + 1);
      }
      var refs := WorstOrder(s)(x, s.idx[x]);
      assert refs == WorstFirst(s, s.idx[x]);
      UnboundedSticks(s, refs[0], fuel - 1);
    }
  }
}

/** When deletion is certain to come back, and certain to succeed. */
module Forest {
  import opened Text
  import opened Objects
  import opened Tracker
  import opened Cascade
  import opened Closure

  // ---------------------------------------------------------------- older owners

  /** Index edges to tracked objects go from older to newer incarnations. */
  ghost predicate OlderOwners(s: State, rank: map<Ref, nat>, next: nat) {
    && (forall r | r in s.objs :: r in rank && rank[r] < next)
    && (forall r, c | r in s.objs && c in s.objs && c in Owned(s.idx, r) :: rank[r] < rank[c])
  }

  lemma {:induction false} OlderOwnersBounded(s: State, rank: map<Ref, nat>, next: nat, x: Ref)
    requires OlderOwners(s, rank, next)
    ensures Bounded(s, x)
    ensures Deep(s, x, if x in s.objs then next - rank[x] + 1 else 1)
    decreases if x in s.objs then next - rank[x] else 0
  {
    if x in s.objs {
      forall c | c in Owned(s.idx, x)
        ensures Deep(s, c, next - rank[x])
      {
        OlderOwnersBounded(s, rank, next, c);
        DeepMore(s, c, if c in s.objs then next - rank[c] + 1 else 1, next - rank[x]);
      }
    }
    assert Deep(s, x, if x in s.objs then next - rank[x] + 1 else 1);
  }

  // ---------------------------------------------------------------- single owners

  ghost predicate SingleOwners(s: State) {
    forall c, p, q | c in s.objs && ListsOwner(s.objs[c], p) && ListsOwner(s.objs[c], q) :: p == q
  }

  /** A chain of distinct tracked objects from `x`, each owned by the one before. */
  ghost predicate Chain(s: State, x: Ref, p: seq<Ref>) {
    && p != [] && p[0] == x
    && (forall i | 0 <= i < |p| :: p[i] in s.objs)
    && (forall i | 0 < i < |p| :: p[i] in Owned(s.idx, p[i - 1]))
    && (forall i, j | 0 <= i < j < |p| :: p[i] != p[j])
  }

  lemma {:induction false} DistinctFit<T>(p: seq<T>, S: set<T>)
    requires forall i, j | 0 <= i < j < |p| :: p[i] != p[j]
    requires forall i | 0 <= i < |p| :: p[i] in S
    ensures |p| <= |S|
  {
    if p != [] {
      DistinctFit(p[1..], S - {p[0]});
    }
  }

  ghost predicate Ownerless(s: State, x: Ref) {
    x in s.objs && forall r :: !ListsOwner(s.objs[x], r)
  }

  lemma LongerChain(s: State, x: Ref, p: seq<Ref>, c: Ref)
    requires Exact(s) && SingleOwners(s) && Ownerless(s, x)
    requires Chain(s, x, p) && c in Owned(s.idx, p[|p| - 1])
    ensures Chain(s, x, p + [c])
  {
    assert ListsOwner(s.objs[c], p[|p| - 1]);
    assert c != x;
    forall j | 0 <= j < |p|
      ensures p[j] != c
    {
      assert j > 0 ==> ListsOwner(s.objs[p[j]], p[j - 1]);
    }
  }

  lemma {:induction false} ChainDeep(s: State, x: Ref, p: seq<Ref>)
    requires Exact(s) && SingleOwners(s) && Ownerless(s, x)
    requires Chain(s, x, p)
    ensures |p| <= |s.objs| && Deep(s, p[|p| - 1], |s.objs| - |p| + 1)
    decreases |s.objs| - |p|
  {
    DistinctFit(p, s.objs.Keys);
    var last := p[|p| - 1];
    forall c | c in Owned(s.idx, last)
      ensures Deep(s, c, |s.objs| - |p|)
    {
      LongerChain(s, x, p, c);
      DistinctFit(p + [c], s.objs.Keys);
      ChainDeep(s, x, p + [c]);
    }
  }

  lemma OwnedIsTracked(s: State, x: Ref, c: Ref)
    requires Exact(s) && x in s.objs && Reaches(s, x, c)
    ensures c in s.objs
  {
    var n: nat :| Below(s, x, c, n);
    if n > 0 {
      var p :| Below(s, x, p, n - 1) && c in Owned(s.idx, p);
    }
  }

  /** With an exact index and at most one owner per object, an object without owners has a clean closure: its
      deletion always comes back and never fails. */
  lemma OwnerlessIsClean(s: State, x: Ref)
    requires Exact(s) && SingleOwners(s) && Ownerless(s, x)
    ensures Clean(s, x)
  {
    ChainDeep(s, x, [x]);
    forall c | Reaches(s, x, c) ensures c in s.objs { OwnedIsTracked(s, x, c); }
    forall c, p, q | c in Owned(s.idx, p) && c in Owned(s.idx, q)
      ensures p == q
    {
      assert ListsOwner(s.objs[c], p) && ListsOwner(s.objs[c], q);
    }
  }
}

/** The recursive deletion `doTryDeleteLocked`, and the depth-first walk over the index that it performs. */
module Cascade {
  import opened Text
  import opened Objects
  import opened Tracker

  /** The order in which the range over a set of owned references visits them: the runtime may pick any. */
  type Order = (Ref, set<Ref>) -> seq<Ref>

  ghost predicate Enumerates(q: seq<Ref>, S: set<Ref>) {
    && (forall i, j | 0 <= i < j < |q| :: q[i] != q[j])
    && (forall r :: r in q <==> r in S)
  }

  ghost predicate IsOrder(ord: Order) {
    forall r, S :: Enumerates(ord(r, S), S)
  }

  predicate Kept(obj: Obj) {
    |obj.finalizers| > 0
  }

  // ---------------------------------------------------------------- the program

  /** `OutOfFuel` is a recursion deeper than `fuel`. */
  datatype Outcome = OutOfFuel | Finished(s: State, deleted: bool, err: Option<Error>)

  /** The end of `doTryDeleteLocked`, after the owned objects are handled. */
  function Settle(s: State, x: Ref, obj: Obj, now: int): Outcome {
    if Kept(obj) then
      if obj.deletion.Some? then Finished(s, false, None)
      else
        var marked := Mark(obj, now);
        Finished(s.(objs := s.objs[x := marked], log := s.log + AfterUpdate(obj, marked)), false, None)
    else Finished(s.(objs := s.objs - {x}), true, None)
  }

  /** `doTryDeleteLocked`. */
  function Try(s: State, x: Ref, now: int, ord: Order, fuel: nat): Outcome
    decreases fuel, 0
  {
    if fuel == 0 then OutOfFuel
    else if x !in s.objs then Finished(s, true, Some(NotFound))
    else
      var looped := if x in s.idx then TryAll(s, ord(x, s.idx[x]), now, ord, fuel - 1) else Finished(s, true, None);
      if looped.OutOfFuel? then OutOfFuel
      else if looped.err.Some? then Finished(looped.s, false, looped.err)
      else Settle(looped.s.(idx := looped.s.idx - {x}), x, s.objs[x], now)
  }

  /** The loop over owned references: stops at the first error; a survivor gets a garbage-collection request. */
  function TryAll(s: State, refs: seq<Ref>, now: int, ord: Order, fuel: nat): Outcome
    decreases fuel, |refs| + 1
  {
    if refs == [] then Finished(s, true, None)
    else
      var first := Try(s, refs[0], now, ord, fuel);
      if first.OutOfFuel? then OutOfFuel
      else if first.err.Some? then Finished(first.s, false, first.err)
      else
        var next := if first.deleted then first.s else first.s.(gc := first.s.gc + {refs[0]});
        TryAll(next, refs[1..], now, ord, fuel)
  }

  // ---------------------------------------------------------------- the walk

  /** `done` lists the objects settled so far, in order. */
  datatype Walk = Stuck | Walked(done: seq<Ref>, ok: bool)

  /** The same recursion on the unchanging graph `s`, given what is settled already. */
  function Visit(s: State, done: seq<Ref>, x: Ref, ord: Order, fuel: nat): Walk
    decreases fuel, 0
  {
    if fuel == 0 then Stuck
    else if x !in s.objs then Walked(done, false)
    else if x in done then Walked(done, Kept(s.objs[x]))
    else
      var looped := if x in s.idx then VisitAll(s, done, ord(x, s.idx[x]), ord, fuel - 1) else Walked(done, true);
      if looped.Walked? && looped.ok then Walked(looped.done + [x], true) else looped
  }

  function VisitAll(s: State, done: seq<Ref>, refs: seq<Ref>, ord: Order, fuel: nat): Walk
    decreases fuel, |refs| + 1
  {
    if refs == [] then Walked(done, true)
    else
      var first := Visit(s, done, refs[0], ord, fuel);
      if first.Walked? && first.ok then VisitAll(s, first.done, refs[1..], ord, fuel) else first
  }

  /** `done` holds tracked objects, once each, every one after all the objects it owns. */
  ghost predicate Topo(s: State, done: seq<Ref>) {
    && (forall i, j | 0 <= i < j < |done| :: done[i] != done[j])
    && (forall i | 0 <= i < |done| :: done[i] in s.objs && forall c | c in Owned(s.idx, done[i]) :: c in done[..i])
  }

  /** What `to` adds to `from` are roots, or are owned by something else it adds. */
  ghost predicate Rooted(s: State, from: seq<Ref>, to: seq<Ref>, roots: seq<Ref>) {
    forall c | IsNew(from, to, c) :: c in roots || OwnedByNew(s, from, to, c)
  }

  ghost predicate IsNew(from: seq<Ref>, to: seq<Ref>, c: Ref) {
    exists i | |from| <= i < |to| :: to[i] == c
  }

  ghost predicate OwnedByNew(s: State, from: seq<Ref>, to: seq<Ref>, c: Ref) {
    exists j | |from| <= j < |to| :: c in Owned(s.idx, to[j])
  }

  /** The last addition is a root, so nothing that owns it can be settled yet. */
  lemma LastIsRoot(s: State, from: seq<Ref>, to: seq<Ref>, roots: seq<Ref>)
    requires from <= to && |from| < |to| && Topo(s, to) && Rooted(s, from, to, roots)
    ensures to[|to| - 1] in roots
    ensures forall p | to[|to| - 1] in Owned(s.idx, p) :: p !in to
  {
    forall i | 0 <= i < |to|
      ensures to[|to| - 1] !in Owned(s.idx, to[i])
    {
      assert to[|to| - 1] !in to[..i];
    }
    assert IsNew(from, to, to[|to| - 1]);
  }

  /** Settling `x` once everything it owns is settled. */
  lemma AppendOwner(s: State, done: seq<Ref>, x: Ref, refs: seq<Ref>, to: seq<Ref>)
    requires x in s.objs && x !in done && done <= to && Topo(s, to) && Rooted(s, done, to, refs)
    requires forall r :: r in refs <==> r in Owned(s.idx, x)
    requires forall r | r in refs :: r in to
    ensures x !in to && Topo(s, to + [x]) && Rooted(s, done, to + [x], [x])
  {
    if x in to {
      LastIsRoot(s, done, to, refs);
    }
    var all := to + [x];
    forall i | 0 <= i < |all|
      ensures all[i] in s.objs && forall c | c in Owned(s.idx, all[i]) :: c in all[..i]
    {
      assert all[..i] == to[..i];
    }
    forall c | IsNew(done, all, c)
      ensures c in [x] || OwnedByNew(s, done, all, c)
    {
      if c in refs {
        assert all[|to|] == x;
      } else if c != x {
        var i :| |done| <= i < |all| && all[i] == c;
        assert to[i] == c;
        assert IsNew(done, to, c);
        var j :| |done| <= j < |to| && c in Owned(s.idx, to[j]);
        assert all[j] == to[j];
      }
    }
  }

  lemma RootedChain(s: State, a: seq<Ref>, b: seq<Ref>, c: seq<Ref>, r: Ref, rest: seq<Ref>)
    requires a <= b <= c && Rooted(s, a, b, [r]) && Rooted(s, b, c, rest)
    ensures Rooted(s, a, c, [r] + rest)
  {
    forall d | IsNew(a, c, d)
      ensures d in [r] + rest || OwnedByNew(s, a, c, d)
    {
      var i :| |a| <= i < |c| && c[i] == d;
      if i < |b| {
        assert b[i] == d;
        assert IsNew(a, b, d);
        if d != r {
          var j :| |a| <= j < |b| && d in Owned(s.idx, b[j]);
          assert c[j] == b[j];
        }
      } else {
        assert IsNew(b, c, d);
      }
    }
  }

  /** A walk only extends what is settled, in topological order; on success it settles its target last. */
  lemma {:induction false} VisitExtends(s: State, done: seq<Ref>, x: Ref, ord: Order, fuel: nat)
    requires IsOrder(ord) && Topo(s, done)
    ensures var w := Visit(s, done, x, ord, fuel);
            w.Walked? ==>
              && done <= w.done && Topo(s, w.done)
              && (w.ok ==> x in w.done && Rooted(s, done, w.done, [x]))
              && (w.ok && x in done ==> w.done == done)
              && (w.ok && x !in done ==> |w.done| > |done| && w.done[|w.done| - 1] == x)
    decreases fuel, 0
  {
    if fuel > 0 && x in s.objs && x !in done {
      var refs := if x in s.idx then ord(x, s.idx[x]) else [];
      assert forall r :: r in refs <==> r in Owned(s.idx, x) by {
        if x in s.idx { assert Enumerates(refs, s.idx[x]); }
      }
      var w := Walked(done, true);
      if x in s.idx {
        VisitAllExtends(s, done, refs, ord, fuel - 1);
        w := VisitAll(s, done, refs, ord, fuel - 1);
      }
      if w.Walked? && w.ok {
        AppendOwner(s, done, x, refs, w.done);
      }
    }
  }

  lemma {:induction false} VisitAllExtends(s: State, done: seq<Ref>, refs: seq<Ref>, ord: Order, fuel: nat)
    requires IsOrder(ord) && Topo(s, done)
    ensures var w := VisitAll(s, done, refs, ord, fuel);
            w.Walked? ==>
              && done <= w.done && Topo(s, w.done)
              && (w.ok ==> Rooted(s, done, w.done, refs) && forall r | r in refs :: r in w.done)
    decreases fuel, |refs| + 1
  {
    if refs != [] {
      VisitExtends(s, done, refs[0], ord, fuel);
      var w := Visit(s, done, refs[0], ord, fuel);
      if w.Walked? && w.ok {
        VisitAllExtends(s, w.done, refs[1..], ord, fuel);
        var v := VisitAll(s, w.done, refs[1..], ord, fuel);
        if v.Walked? && v.ok {
          RootedChain(s, done, w.done, v.done, refs[0], refs[1..]);
          assert refs == [refs[0]] + refs[1..];
        }
      }
    }
  }
}

/** The state a cascade leaves behind, as a function of the state it found and the list of objects it settled. */
module Settled {
  import opened Text
  import opened Objects
  import opened Tracker
  import opened Cascade

  predicate Gone(s: State, done: seq<Ref>, r: Ref) {
    r in done && r in s.objs && !Kept(s.objs[r])
  }

  function MarkOnce(obj: Obj, now: int): Obj {
    if obj.deletion.Some? then obj else Mark(obj, now)
  }

  /** The notifications of a cascade: one for every object newly marked, in the order they were settled. */
  function Notices(s: State, done: seq<Ref>, now: int): seq<Event> {
    if done == [] then []
    else
      var r := done[|done| - 1];
      Notices(s, done[..|done| - 1], now) +
      (if r in s.objs && Kept(s.objs[r]) && s.objs[r].deletion.None? then [Deleted(Mark(s.objs[r], now))] else [])
  }

  function Survivors(s: State, done: seq<Ref>): set<Ref> {
    set r | r in done && r in s.objs && Kept(s.objs[r])
  }

  function Apply(s: State, done: seq<Ref>, now: int): State {
    State(
      map r | r in s.objs && !Gone(s, done, r) :: if r in done then MarkOnce(s.objs[r], now) else s.objs[r],
      map r | r in s.idx && r !in done :: s.idx[r],
      s.gc + Survivors(s, done),
      s.log + Notices(s, done, now))
  }

  /** On success the root's own request is left to the caller. */
  function ApplyButLast(s: State, done: seq<Ref>, now: int): State
    requires done != []
  {
    Apply(s, done, now).(gc := s.gc + Survivors(s, done[..|done| - 1]))
  }

  lemma ApplyNothing(s: State, now: int)
    ensures Apply(s, [], now) == s
  {
    assert Apply(s, [], now).objs == s.objs;
    assert Apply(s, [], now).idx == s.idx;
  }

  lemma MarkFacts(obj: Obj, now: int)
    requires obj.deletion.None?
    ensures Mark(obj, now)
         == obj.(deletion := Some(now), lastSync := Some(Stamp(now)), version := Bump(obj.version))
    ensures AfterUpdate(obj, Mark(obj, now)) == [Deleted(Mark(obj, now))]
  {
  }

  /** What settling `x` does to the index and to the requests. */
  lemma SettleRest(s: State, done: seq<Ref>, x: Ref, now: int)
    requires x !in done
    ensures Apply(s, done, now).idx - {x} == Apply(s, done + [x], now).idx
    ensures ApplyButLast(s, done + [x], now).gc == Apply(s, done, now).gc
  {
    assert (done + [x])[..|done + [x]| - 1] == done;
  }

  lemma SettleNotices(s: State, done: seq<Ref>, x: Ref, now: int)
    requires x in s.objs
    ensures Notices(s, done + [x], now) == Notices(s, done, now) +
              (if Kept(s.objs[x]) && s.objs[x].deletion.None? then [Deleted(Mark(s.objs[x], now))] else [])
  {
    assert (done + [x])[..|done + [x]| - 1] == done;
  }

  lemma SettleObjects(s: State, done: seq<Ref>, x: Ref, now: int)
    requires x in s.objs && x !in done
    ensures Apply(s, done + [x], now).objs
         == if Kept(s.objs[x]) then Apply(s, done, now).objs[x := MarkOnce(s.objs[x], now)]
            else Apply(s, done, now).objs - {x}
  {
  }

  lemma SettleMarked(s: State, done: seq<Ref>, x: Ref, now: int)
    requires x in s.objs && x !in done && Kept(s.objs[x]) && s.objs[x].deletion.Some?
    ensures Settle(Apply(s, done, now).(idx := Apply(s, done, now).idx - {x}), x, s.objs[x], now)
         == Finished(ApplyButLast(s, done + [x], now), false, None)
  {
    SettleRest(s, done, x, now);
    SettleNotices(s, done, x, now);
    SettleObjects(s, done, x, now);
    SameEntry(Apply(s, done, now).objs, x, s.objs[x]);
  }

  lemma SameEntry<K, V>(m: map<K, V>, k: K, v: V)
    requires k in m && m[k] == v
    ensures m[k := v] == m
  {
  }

  lemma SettleUnmarked(s: State, done: seq<Ref>, x: Ref, now: int)
    requires x in s.objs && x !in done && Kept(s.objs[x]) && s.objs[x].deletion.None?
    ensures Settle(Apply(s, done, now).(idx := Apply(s, done, now).idx - {x}), x, s.objs[x], now)
         == Finished(ApplyButLast(s, done + [x], now), false, None)
  {
    SettleRest(s, done, x, now);
    SettleNotices(s, done, x, now);
    SettleObjects(s, done, x, now);
    MarkFacts(s.objs[x], now);
  }

  /** Settling one more object, after everything it owns. */
  lemma SettleOne(s: State, done: seq<Ref>, x: Ref, now: int)
    requires x in s.objs && x !in done
    ensures Settle(Apply(s, done, now).(idx := Apply(s, done, now).idx - {x}), x, s.objs[x], now)
         == Finished(ApplyButLast(s, done + [x], now), !Kept(s.objs[x]), None)
  {
    if Kept(s.objs[x]) {
      if s.objs[x].deletion.Some? { SettleMarked(s, done, x, now); } else { SettleUnmarked(s, done, x, now); }
    } else {
      SettleRest(s, done, x, now);
      SettleNotices(s, done, x, now);
      SettleObjects(s, done, x, now);
    }
  }

  /** What `Try` does when it finds the objects in `done` settled. */
  ghost predicate TryMatches(s: State, done: seq<Ref>, x: Ref, now: int, o: Outcome, w: Walk) {
    match w
    case Stuck => o == OutOfFuel
    case Walked(to, false) => o.Finished? && o.s == Apply(s, to, now) && o.err == Some(NotFound)
    case Walked(to, true) =>
      && x in s.objs
      && o == Finished(if x in done then Apply(s, to, now) else if to != [] then ApplyButLast(s, to, now) else s,
                       !Kept(s.objs[x]), None)
  }

  ghost predicate TryAllMatches(s: State, now: int, o: Outcome, w: Walk) {
    match w
    case Stuck => o == OutOfFuel
    case Walked(to, ok) =>
      o.Finished? && o.s == Apply(s, to, now) && o.err == if ok then None else Some(NotFound)
  }

  /** An object that is settled already: marked again without effect, or gone. */
  lemma AlreadySettled(s: State, done: seq<Ref>, x: Ref, now: int, ord: Order, fuel: nat)
    requires fuel > 0 && x in s.objs && x in done
    ensures TryMatches(s, done, x, now, Try(Apply(s, done, now), x, now, ord, fuel), Visit(s, done, x, ord, fuel))
  {
    if Kept(s.objs[x]) {
      var a := Apply(s, done, now);
      assert a.idx - {x} == a.idx;
      assert a.(idx := a.idx) == a;
      if s.objs[x].deletion.None? { MarkFacts(s.objs[x], now); }
    }
  }

  /** The walk explains the program: every outcome, failures included, is `Apply` of what the walk settled. */
  lemma {:induction false} TryIsWalk(s: State, done: seq<Ref>, x: Ref, now: int, ord: Order, fuel: nat)
    requires IsOrder(ord) && Topo(s, done)
    ensures TryMatches(s, done, x, now, Try(Apply(s, done, now), x, now, ord, fuel), Visit(s, done, x, ord, fuel))
    decreases fuel, 0
  {
    if fuel == 0 || x !in s.objs {
    } else if x in done {
      AlreadySettled(s, done, x, now, ord, fuel);
    } else {
      if x in s.idx { TryAllIsWalk(s, done, ord(x, s.idx[x]), now, ord, fuel - 1); }
      FirstVisit(s, done, x, now, ord, fuel);
    }
  }

  /** An object that is not settled yet, when its loop is explained. */
  lemma FirstVisit(s: State, done: seq<Ref>, x: Ref, now: int, ord: Order, fuel: nat)
    requires IsOrder(ord) && Topo(s, done) && fuel > 0 && x in s.objs && x !in done
    requires x in s.idx ==>
               TryAllMatches(s, now, TryAll(Apply(s, done, now), ord(x, s.idx[x]), now, ord, fuel - 1),
                             VisitAll(s, done, ord(x, s.idx[x]), ord, fuel - 1))
    ensures TryMatches(s, done, x, now, Try(Apply(s, done, now), x, now, ord, fuel), Visit(s, done, x, ord, fuel))
  {
    var w := if x in s.idx then VisitAll(s, done, ord(x, s.idx[x]), ord, fuel - 1) else Walked(done, true);
    if w.Walked? && w.ok {
      NotYet(s, done, x, ord, fuel);
      SettleOne(s, w.done, x, now);
    }
  }

  /** The walk of what `x` owns does not settle `x`. */
  lemma NotYet(s: State, done: seq<Ref>, x: Ref, ord: Order, fuel: nat)
    requires IsOrder(ord) && Topo(s, done) && fuel > 0 && x in s.objs && x !in done
    requires Visit(s, done, x, ord, fuel).Walked? && Visit(s, done, x, ord, fuel).ok
    ensures var to := Visit(s, done, x, ord, fuel).done;
            to != [] && to[|to| - 1] == x && x !in to[..|to| - 1]
  {
    VisitExtends(s, done, x, ord, fuel);
  }

  lemma {:induction false} TryAllIsWalk(s: State, done: seq<Ref>, refs: seq<Ref>, now: int, ord: Order, fuel: nat)
    requires IsOrder(ord) && Topo(s, done)
    ensures TryAllMatches(s, now, TryAll(Apply(s, done, now), refs, now, ord, fuel), VisitAll(s, done, refs, ord, fuel))
    decreases fuel, |refs| + 1
  {
    if refs != [] {
      TryIsWalk(s, done, refs[0], now, ord, fuel);
      VisitExtends(s, done, refs[0], ord, fuel);
      var w, o := Visit(s, done, refs[0], ord, fuel), Try(Apply(s, done, now), refs[0], now, ord, fuel);
      if w.Walked? && w.ok {
        var next := if o.deleted then o.s else o.s.(gc := o.s.gc + {refs[0]});
        RequestAdded(s, done, w.done, refs[0], now, o);
        TryAllIsWalk(s, w.done, refs[1..], now, ord, fuel);
      }
    }
  }

  /** The loop's request completes what the recursion left to it. */
  lemma RequestAdded(s: State, done: seq<Ref>, to: seq<Ref>, x: Ref, now: int, o: Outcome)
    requires TryMatches(s, done, x, now, o, Walked(to, true))
    requires x in to && (x in done ==> to == done) && (x !in done ==> to[|to| - 1] == x)
    ensures o.Finished? && o.err.None?
    ensures (if o.deleted then o.s else o.s.(gc := o.s.gc + {x})) == Apply(s, to, now)
  {
    if x !in done {
      assert to == to[..|to| - 1] + [x];
      assert Survivors(s, to) == Survivors(s, to[..|to| - 1]) + (if Kept(s.objs[x]) then {x} else {});
    } else if Kept(s.objs[x]) {
      assert x in Survivors(s, to);
      assert Apply(s, to, now).gc + {x} == Apply(s, to, now).gc;
    }
  }
}

/** The notifications of a resource group against what its tracker holds. */
module Notifications {
  import opened Text
  import opened Objects
  import opened Tracker
  import opened Ownership
  import opened Cascade
  import opened Deletion
  import opened Machine
  import opened History

  /** The object in the last notification about `r`. */
  function LastAbout(log: seq<Event>, r: Ref): Option<Obj> {
    if log == [] then None
    else if log[|log| - 1].obj.Id() == r then Some(log[|log| - 1].obj)
    else LastAbout(log[..|log| - 1], r)
  }

  /** `news` says exactly what changed from `s` to `t`, pointers aside: a creation for each new object, a deletion for
      each object newly marked, an update for each other version change; each once, with the object as tracked. */
  ghost predicate Reports(s: State, t: State, news: seq<Event>) {
    && (forall i, j | 0 <= i < j < |news| :: news[i] != news[j])
    && (forall e | e in news :: e.obj.Id() in t.objs && t.objs[e.obj.Id()] == e.obj)
    && (forall r | r in t.objs && (r in s.objs ==> !DeepEqual(t.objs[r], s.objs[r])) ::
          exists e | e in news :: e.obj.Id() == r)
    && (forall o :: Created(o) in news <==> o.Id() !in s.objs && o.Id() in t.objs && t.objs[o.Id()] == o)
    && (forall o :: Deleted(o) in news <==>
          && o.Id() in s.objs && o.Id() in t.objs && t.objs[o.Id()] == o
          && s.objs[o.Id()].deletion.None? && o.deletion.Some?)
    && (forall w, o :: Updated(w, o) in news <==>
          && o.Id() in s.objs && o.Id() in t.objs && s.objs[o.Id()] == w && t.objs[o.Id()] == o
          && w.version != o.version && !(w.deletion.None? && o.deletion.Some?))
  }

  lemma NothingToReport(s: State, t: State)
    requires forall r | r in t.objs :: r in s.objs && t.objs[r] == s.objs[r]
    ensures Reports(s, t, [])
  {
  }

  lemma StoreReports(s: State, obj: Obj, replace: bool, now: int) returns (news: seq<Event>)
    requires WellKept(s) && Versioned(s)
    ensures Store(s, obj, replace, now).0.log == s.log + news && Reports(s, Store(s, obj, replace, now).0, news)
  {
    var r, t := obj.Id(), Store(s, obj, replace, now).0;
    StoreSucceedsWhen(s, obj, replace, now);
    if Store(s, obj, replace, now).1.Some? {
      news := [];
      NothingToReport(s, t);
    } else if replace {
      var was, stored := s.objs[r], BeforeUpdate(s.objs[r], obj, now);
      UpdateEvolves(was, obj, now);
      assert t.objs == s.objs[r := stored];
      news := AfterUpdate(was, stored);
      ReplaceReports(s, t, was, stored);
    } else {
      var stored := BeforeCreate(obj, now);
      assert t.objs == s.objs[r := stored];
      news := [Created(stored)];
    }
  }

  lemma ReplaceReports(s: State, t: State, was: Obj, stored: Obj)
    requires was.Id() in s.objs && s.objs[was.Id()] == was && stored.Id() == was.Id()
    requires t.objs == s.objs[was.Id() := stored]
    requires forall r | r in s.objs :: s.objs[r].Id() == r
    requires !DeepEqual(stored, was) ==> stored.version != was.version
    ensures Reports(s, t, AfterUpdate(was, stored))
  {
  }

  lemma CallReports(s: State, x: Ref, now: int, ord: Order, o: Outcome) returns (news: seq<Event>)
    requires WellKept(s) && IsOrder(ord) && Ends(s, x, now, ord, o)
    ensures o.s.log == s.log + news && Reports(s, o.s, news)
  {
    news := CallNotices(s, x, now, ord, o);
    CallTouchesOnlyClosure(s, x, now, ord, o);
    CallKeeps(s, x, now, ord, o);
    forall r | r in o.s.objs && o.s.objs[r] != s.objs[r]
      ensures s.objs[r].deletion.None? && o.s.objs[r].deletion.Some?
    {
    }
    MarksReport(s, o.s, news);
  }

  /** Deletions reported exactly for the objects newly marked, when nothing else changes. */
  lemma MarksReport(s: State, t: State, news: seq<Event>)
    requires WellKept(t) && t.objs.Keys <= s.objs.Keys
    requires forall r | r in t.objs && t.objs[r] != s.objs[r] :: s.objs[r].deletion.None? && t.objs[r].deletion.Some?
    requires forall e :: e in news <==>
               e.Deleted? && e.obj.Id() in t.objs && t.objs[e.obj.Id()] == e.obj
               && e.obj.Id() in s.objs && s.objs[e.obj.Id()].deletion.None? && e.obj.deletion.Some?
    requires forall i, j | 0 <= i < j < |news| :: news[i] != news[j]
    ensures Reports(s, t, news)
  {
    forall r | r in t.objs && !DeepEqual(t.objs[r], s.objs[r])
      ensures Deleted(t.objs[r]) in news
    {
      assert Deleted(t.objs[r]).obj.Id() == r;
    }
  }

  /** What a step notifies. A sync notifies the object as it now is, and nothing else. */
  lemma StepReports(g: Group, a: Action) returns (news: seq<Event>)
    requires WellKept(g.t) && Versioned(g.t) && CanRun(g, a)
    ensures Run(g, a).t.log == g.t.log + news
    ensures !a.SyncRun? ==> Reports(g.t, Run(g, a).t, news)
    ensures a.SyncRun? ==> news == if a.x in g.t.objs then [Synced(Run(g, a).t.objs[a.x])] else []
  {
    match a
    case Create(obj, now) => news := StoreReports(g.t, obj, false, now);
    case Update(obj, now) => news := StoreReports(g.t, obj, true, now);
    case DeleteSection(x, now, ord, o) => news := CallReports(g.t, x, now, ord, o);
    case GcRun(x, now, ord, o) => news := CallReports(g.t, x, now, ord, o);
    case SyncRun(x, now) => news := if x in g.t.objs then [Synced(Run(g, a).t.objs[x])] else [];
    case _ => news := [];
              NothingToReport(g.t, Run(g, a).t);
  }

  lemma {:induction false} LastAboutAppend(log: seq<Event>, news: seq<Event>, r: Ref)
    ensures (exists e | e in news :: e.obj.Id() == r) ==>
              exists e | e in news :: e.obj.Id() == r && LastAbout(log + news, r) == Some(e.obj)
    ensures !(exists e | e in news :: e.obj.Id() == r) ==> LastAbout(log + news, r) == LastAbout(log, r)
    decreases news
  {
    if news == [] {
      assert log + news == log;
    } else {
      var init, last := news[..|news| - 1], news[|news| - 1];
      assert (log + news)[..|log + news| - 1] == log + init;
      assert news == init + [last];
      LastAboutAppend(log, init, r);
    }
  }

  /** The last notification about every tracked object carries the object as tracked, pointers aside. */
  ghost predicate Faithful(s: State) {
    forall r | r in s.objs :: LastAbout(s.log, r).Some? && DeepEqual(LastAbout(s.log, r).value, s.objs[r])
  }

  lemma StepFaithful(g: Group, a: Action)
    requires WellKept(g.t) && Versioned(g.t) && Faithful(g.t) && CanRun(g, a)
    ensures Faithful(Run(g, a).t)
  {
    var t := Run(g, a).t;
    var news := StepReports(g, a);
    forall r | r in t.objs
      ensures LastAbout(t.log, r).Some? && DeepEqual(LastAbout(t.log, r).value, t.objs[r])
    {
      LastAboutAppend(g.t.log, news, r);
      if a.SyncRun? {
        assert a.x in g.t.objs ==> Synced(t.objs[a.x]) in news && t.objs[a.x].Id() == a.x;
      }
    }
  }

  /** In every state of every history the notifications are faithful. A handler registered before an object was
      created has seen all notifications about it, so the last one it saw is the tracked object. */
  lemma {:induction false} HistoryFaithful(run: seq<Group>, acts: seq<Action>, n: nat)
    requires IsHistory(run, acts) && n < |run|
    ensures Faithful(run[n].t)
  {
    if n > 0 {
      HistoryFaithful(run, acts, n - 1);
      HistoryWellKept(run, acts, n - 1);
      HistoryVersioned(run, acts, n - 1);
      StepOf(run, acts, n - 1);
      StepFaithful(run[n - 1], acts[n - 1]);
    }
  }

  /** What step `i` notifies. */
  ghost function NewsAt(run: seq<Group>, i: nat): seq<Event>
    requires i + 1 < |run|
  {
    if run[i].t.log <= run[i + 1].t.log then run[i + 1].t.log[|run[i].t.log|..] else []
  }

  lemma NewsReports(run: seq<Group>, acts: seq<Action>, i: nat, e: Event)
    requires IsHistory(run, acts) && i < |acts| && e in NewsAt(run, i) && e.Deleted?
    ensures var r := e.obj.Id();
            && r in run[i].t.objs && run[i].t.objs[r].deletion.None?
            && r in run[i + 1].t.objs && run[i + 1].t.objs[r] == e.obj && e.obj.deletion.Some?
    ensures forall m, n | 0 <= m < n < |NewsAt(run, i)| :: NewsAt(run, i)[m] != NewsAt(run, i)[n]
  {
    HistoryWellKept(run, acts, i);
    HistoryVersioned(run, acts, i);
    StepOf(run, acts, i);
    var news := StepReports(run[i], acts[i]);
    assert NewsAt(run, i) == news;
  }

  /** At most one deletion is notified in each incarnation: two that any run notifies about one name, at different
      steps, are of different incarnations; within one step no notification is repeated. */
  lemma DeletedOnce(run: seq<Group>, acts: seq<Action>, i: nat, j: nat, d: Event, e: Event)
    requires IsHistory(run, acts) && i < j < |acts|
    requires d in NewsAt(run, i) && e in NewsAt(run, j) && d.Deleted? && e.Deleted? && d.obj.Id() == e.obj.Id()
    ensures !SameLife(run, i + 1, j, d.obj.Id())
  {
    NewsReports(run, acts, i, d);
    NewsReports(run, acts, j, e);
    if SameLife(run, i + 1, j, d.obj.Id()) {
      HistoryLives(run, acts);
      LifeEvolves(run, i + 1, j, d.obj.Id());
      assert false;
    }
  }
}

/** From a notification to a reconcile: the informer's handler, the work queue, and the controller's workers. */
module Controller {
  import opened Text
  import opened Objects
  import opened Tracker
  import Machine
  import opened History
  import opened Notifications

  datatype Request = Request(group: string, key: Key)

  // ---------------------------------------------------------------- the work queue

  /** client-go's queue: `queue` holds what may be taken, `dirty` what must still be processed, `processing` what
      a worker has, `delayed` what waits for its time to be added; `failures` are the rate limiter's counts, which
      set the delays. */
  datatype Queue = Queue(
    queue: seq<Request>,
    dirty: set<Request>,
    processing: set<Request>,
    delayed: set<Request>,
    failures: map<Request, nat>)

  const NO_REQUESTS := Queue([], {}, {}, {}, map[])

  function Add(q: Queue, r: Request): Queue {
    if r in q.dirty then q
    else if r in q.processing then q.(dirty := q.dirty + {r})
    else q.(dirty := q.dirty + {r}, queue := q.queue + [r])
  }

  function Get(q: Queue): Queue
    requires q.queue != []
  {
    var r := q.queue[0];
    q.(queue := q.queue[1..], processing := q.processing + {r}, dirty := q.dirty - {r})
  }

  function Done(q: Queue, r: Request): Queue {
    q.(processing := q.processing - {r}, queue := if r in q.dirty then q.queue + [r] else q.queue)
  }

  function AddAfter(q: Queue, r: Request): Queue {
    q.(delayed := q.delayed + {r})
  }

  function Failures(q: Queue, r: Request): nat {
    if r in q.failures then q.failures[r] else 0
  }

  function AddRateLimited(q: Queue, r: Request): Queue {
    AddAfter(q.(failures := q.failures[r := Failures(q, r) + 1]), r)
  }

  function Forget(q: Queue, r: Request): Queue {
    q.(failures := q.failures - {r})
  }

  function Wake(q: Queue, r: Request): Queue {
    Add(q.(delayed := q.delayed - {r}), r)
  }

  /** Each request waits at most once, and exactly the dirty ones that no worker has can be taken. */
  ghost predicate QueueOk(q: Queue) {
    && (forall i, j | 0 <= i < j < |q.queue| :: q.queue[i] != q.queue[j])
    && (forall r :: r in q.queue <==> r in q.dirty && r !in q.processing)
  }

  predicate Scheduled(q: Queue, r: Request) {
    r in q.dirty || r in q.delayed
  }

  lemma AddOk(q: Queue, r: Request)
    requires QueueOk(q)
    ensures QueueOk(Add(q, r)) && Scheduled(Add(q, r), r)
    ensures Add(q, r) == q.(dirty := q.dirty + {r},
                            queue := if r in q.dirty || r in q.processing then q.queue else q.queue + [r])
    ensures Wake(q, r) == Add(q, r).(delayed := q.delayed - {r})
    ensures forall o | Scheduled(q, o) :: Scheduled(Add(q, r), o)
  {
  }

  /** What is taken is in no other worker's hands. */
  lemma GetOk(q: Queue)
    requires QueueOk(q) && q.queue != []
    ensures QueueOk(Get(q)) && q.queue[0] !in q.processing && q.queue[0] in q.dirty
    ensures Get(q).queue == q.queue[1..] && Get(q).processing == q.processing + {q.queue[0]}
    ensures Get(q).dirty == q.dirty - {q.queue[0]} && Get(q).delayed == q.delayed
    ensures forall o | o != q.queue[0] && Scheduled(q, o) :: Scheduled(Get(q), o)
  {
    assert q.queue == [q.queue[0]] + q.queue[1..];
  }

  lemma DoneOk(q: Queue, r: Request)
    requires QueueOk(q) && r in q.processing
    ensures QueueOk(Done(q, r))
    ensures Done(q, r).processing == q.processing - {r} && Done(q, r).dirty == q.dirty && Done(q, r).delayed == q.delayed
    ensures r in Done(q, r).queue <==> r in q.dirty
    ensures forall o | Scheduled(q, o) :: Scheduled(Done(q, r), o)
  {
  }

  // ---------------------------------------------------------------- the system

  datatype Result = Result(err: bool, requeue: bool, after: int)

  /** The reconcile failed, or asked for another one without saying when. */
  predicate BacksOff(res: Result) {
    res.err || (res.after <= 0 && res.requeue)
  }

  /** A worker has taken the request, is in Reconcile, or has dealt with the result. */
  datatype Phase = Taken | Running | Finishing

  /** `last` holds, for each request, the tracked objects when its last Reconcile began. */
  datatype Sys = Sys(
    group: string,
    kind: Gvk,
    g: Machine.Group,
    q: Queue,
    phase: map<Request, Phase>,
    last: map<Request, map<Ref, Obj>>)

  datatype Action =
    | Change(a: Machine.Action)
    | OtherAdd(r: Request)
    | WakeUp(r: Request)
    | Take
    | Begin(r: Request)
    | Finish(r: Request, res: Result)
    | Release(r: Request)

  function RequestFor(group: string, r: Ref): Request {
    Request(group, r.key)
  }

  /** The handlers of the watched kind add the request of every object notified, whatever the notification. */
  function AddAll(q: Queue, group: string, kind: Gvk, news: seq<Event>): Queue {
    if news == [] then q
    else
      var before := AddAll(q, group, kind, news[..|news| - 1]);
      var obj := news[|news| - 1].obj;
      if obj.gvk == kind then Add(before, RequestFor(group, obj.Id())) else before
  }

  ghost predicate CanRun(s: Sys, a: Action) {
    match a
    case Change(m) => Machine.CanRun(s.g, m)
    case OtherAdd(_) => true
    case WakeUp(r) => r in s.q.delayed
    case Take => s.q.queue != []
    case Begin(r) => r in s.phase && s.phase[r] == Taken
    case Finish(r, _) => r in s.phase && s.phase[r] == Running
    case Release(r) => r in s.phase && s.phase[r] == Finishing
  }

  function Handled(q: Queue, r: Request, res: Result): Queue {
    if res.err then AddRateLimited(q, r)
    else if res.after > 0 then AddAfter(Forget(q, r), r)
    else if res.requeue then AddRateLimited(q, r)
    else Forget(q, r)
  }

  /** A reconcile that failed or asked for another one leaves its request delayed; one that failed, or that did not say
      when to come again, adds one to the count of its failures, and any other result clears the count. */
  lemma HandledIs(q: Queue, r: Request, res: Result)
    ensures var t := Handled(q, r, res);
            && t.queue == q.queue && t.dirty == q.dirty && t.processing == q.processing
            && t.delayed == (if res.err || res.after > 0 || res.requeue then q.delayed + {r} else q.delayed)
            && t.failures == if res.err || (res.after <= 0 && res.requeue)
                             then q.failures[r := (if r in q.failures then q.failures[r] else 0) + 1]
                             else q.failures - {r}
  {
  }

  ghost function News(s: Sys, m: Machine.Action): seq<Event>
    requires Machine.CanRun(s.g, m)
  {
    var before, after := s.g.t.log, Machine.Run(s.g, m).t.log;
    if before <= after then after[|before|..] else []
  }

  ghost function Run(s: Sys, a: Action): Sys
    requires CanRun(s, a)
  {
    match a
    case Change(m) => s.(g := Machine.Run(s.g, m), q := AddAll(s.q, s.group, s.kind, News(s, m)))
    case OtherAdd(r) => s.(q := Add(s.q, r))
    case WakeUp(r) => s.(q := Wake(s.q, r))
    case Take => s.(q := Get(s.q), phase := s.phase[s.q.queue[0] := Taken])
    case Begin(r) => s.(phase := s.phase[r := Running], last := s.last[r := s.g.t.objs])
    case Finish(r, res) => s.(q := Handled(s.q, r, res), phase := s.phase[r := Finishing])
    case Release(r) => s.(q := Done(s.q, r), phase := s.phase - {r})
  }

  ghost predicate Ran(before: Sys, a: Action, after: Sys) {
    CanRun(before, a) && after == Run(before, a)
  }

  ghost predicate IsHistory(group: string, kind: Gvk, run: seq<Sys>, acts: seq<Action>) {
    && |run| == |acts| + 1
    && run[0] == Sys(group, kind, Machine.INITIAL, NO_REQUESTS, map[], map[])
    && forall i | 0 <= i < |acts| :: Ran(run[i], acts[i], run[i + 1])
  }

  // ---------------------------------------------------------------- no missed change

  lemma {:induction false} AddAllOk(q: Queue, group: string, kind: Gvk, news: seq<Event>)
    requires QueueOk(q)
    ensures var t := AddAll(q, group, kind, news);
            QueueOk(t) && t.processing == q.processing && t.delayed == q.delayed
            && (forall o | Scheduled(q, o) :: Scheduled(t, o))
            && (forall e | e in news && e.obj.gvk == kind :: Scheduled(t, RequestFor(group, e.obj.Id())))
  {
    if news != [] {
      var init, obj := news[..|news| - 1], news[|news| - 1].obj;
      assert news == init + [news[|news| - 1]];
      AddAllOk(q, group, kind, init);
      AddOk(AddAll(q, group, kind, init), RequestFor(group, obj.Id()));
    }
  }

  /** Of a sequence of notifications, exactly those of the watched kind add the requests of their objects. */
  lemma {:induction false} AddAllIs(q: Queue, group: string, kind: Gvk, news: seq<Event>, r: Request)
    ensures r in AddAll(q, group, kind, news).dirty
       <==> r in q.dirty || exists e | e in news :: e.obj.gvk == kind && Request(group, e.obj.key) == r
  {
    if news != [] {
      var init, last := news[..|news| - 1], news[|news| - 1];
      assert news == init + [last];
      AddAllIs(q, group, kind, init, r);
    }
  }

  /** The last Reconcile for the object's request began with the object as it is now, pointers aside, or another one
      is due. */
  ghost predicate UpToDate(s: Sys, r: Ref)
    requires r in s.g.t.objs
  {
    var req := RequestFor(s.group, r);
    || Scheduled(s.q, req)
    || (req in s.phase && s.phase[req] == Taken)
    || (req in s.last && r in s.last[req] && DeepEqual(s.last[req][r], s.g.t.objs[r]))
  }

  ghost predicate NothingMissed(s: Sys) {
    forall r | r in s.g.t.objs && r.gvk == s.kind :: UpToDate(s, r)
  }

  ghost predicate Inv(s: Sys) {
    && WellKept(s.g.t) && Versioned(s.g.t)
    && QueueOk(s.q) && s.phase.Keys == s.q.processing
    && NothingMissed(s)
  }

  lemma ReportsSay(s: State, t: State, news: seq<Event>, r: Ref)
    requires Reports(s, t, news)
    requires r in t.objs && (r in s.objs ==> !DeepEqual(t.objs[r], s.objs[r]))
    ensures exists e | e in news :: e.obj.Id() == r
  {
  }

  lemma SyncSays(s: State, x: Ref, now: int, r: Ref)
    requires WellKept(s) && r in Sync(s, x, now).objs
    requires r in s.objs ==> !DeepEqual(Sync(s, x, now).objs[r], s.objs[r])
    ensures r == x && x in s.objs && Sync(s, x, now).objs[x].Id() == r
  {
  }

  /** A change is notified. */
  lemma ChangeSays(g: Machine.Group, m: Machine.Action, news: seq<Event>, r: Ref)
    requires WellKept(g.t) && Machine.CanRun(g, m) && r in Machine.Run(g, m).t.objs
    requires !m.SyncRun? ==> Reports(g.t, Machine.Run(g, m).t, news)
    requires m.SyncRun? ==> news == if m.x in g.t.objs then [Synced(Machine.Run(g, m).t.objs[m.x])] else []
    requires r in g.t.objs ==> !DeepEqual(Machine.Run(g, m).t.objs[r], g.t.objs[r])
    ensures exists e | e in news :: e.obj.Id() == r
  {
    if m.SyncRun? {
      SyncSays(g.t, m.x, m.now, r);
      assert news[0].obj.Id() == r;
    } else {
      ReportsSay(g.t, Machine.Run(g, m).t, news, r);
    }
  }

  lemma ChangeKeeps(s: Sys, m: Machine.Action)
    requires Inv(s) && Machine.CanRun(s.g, m)
    ensures Inv(Run(s, Change(m)))
  {
    var t, r0 := Run(s, Change(m)), s.g.t;
    Machine.StepWellKept(s.g, m);
    StepVersioned(s.g, m);
    var news := StepReports(s.g, m);
    assert News(s, m) == news;
    AddAllOk(s.q, s.group, s.kind, news);
    forall r | r in t.g.t.objs && r.gvk == s.kind
      ensures UpToDate(t, r)
    {
      if r in r0.objs && DeepEqual(t.g.t.objs[r], r0.objs[r]) {
        assert UpToDate(s, r);
      } else {
        ChangeSays(s.g, m, news, r);
      }
    }
  }

  lemma QueueStepKeeps(s: Sys, a: Action)
    requires Inv(s) && CanRun(s, a) && (a.OtherAdd? || a.WakeUp?)
    ensures Inv(Run(s, a))
  {
    AddOk(if a.WakeUp? then s.q.(delayed := s.q.delayed - {a.r}) else s.q, a.r);
  }

  lemma TakeOrReleaseKeeps(s: Sys, a: Action)
    requires Inv(s) && CanRun(s, a) && (a.Take? || a.Release?)
    ensures Inv(Run(s, a))
  {
    if a.Take? { GetOk(s.q); } else { DoneOk(s.q, a.r); }
  }

  lemma ReconcileStepKeeps(s: Sys, a: Action)
    requires Inv(s) && CanRun(s, a) && (a.Begin? || a.Finish?)
    ensures Inv(Run(s, a))
  {
  }

  lemma StepKeeps(s: Sys, a: Action)
    requires Inv(s) && CanRun(s, a)
    ensures Inv(Run(s, a)) && Run(s, a).group == s.group && Run(s, a).kind == s.kind
  {
    match a
    case Change(m) => ChangeKeeps(s, m);
    case OtherAdd(_) => QueueStepKeeps(s, a);
    case WakeUp(_) => QueueStepKeeps(s, a);
    case Begin(_) => ReconcileStepKeeps(s, a);
    case Finish(_, _) => ReconcileStepKeeps(s, a);
    case _ => TakeOrReleaseKeeps(s, a);
  }

  /** In every reachable state, every tracked object of the watched kind is up to date or due. */
  lemma {:induction false} NoMissedChange(group: string, kind: Gvk, run: seq<Sys>, acts: seq<Action>, i: nat)
    requires IsHistory(group, kind, run, acts) && i < |run|
    ensures Inv(run[i]) && run[i].group == group && run[i].kind == kind
  {
    if i > 0 {
      NoMissedChange(group, kind, run, acts, i - 1);
      assert Ran(run[i - 1], acts[i - 1], run[i - 1 + 1]);
      StepKeeps(run[i - 1], acts[i - 1]);
    }
  }

  /** The same in plain fields: a tracked object's request is dirty, delayed or just taken, or the last Reconcile for
      it began when the object was as it is now. */
  lemma TrackedIsDueOrSeen(group: string, kind: Gvk, run: seq<Sys>, acts: seq<Action>, i: nat, r: Ref)
    requires IsHistory(group, kind, run, acts) && i < |run| && r in run[i].g.t.objs && r.gvk == kind
    ensures var s, req := run[i], Request(group, r.key);
            || req in s.q.dirty || req in s.q.delayed || (req in s.phase && s.phase[req] == Taken)
            || (req in s.last && r in s.last[req] && DeepEqual(s.last[req][r], s.g.t.objs[r]))
  {
    NoMissedChange(group, kind, run, acts, i);
    assert UpToDate(run[i], r);
  }

  // ---------------------------------------------------------------- every notification leads to a reconcile

  /** A Reconcile of `r` is still to begin: queued, dirty, delayed, or just taken by a worker. */
  predicate Due(s: Sys, r: Request) {
    Scheduled(s.q, r) || (r in s.phase && s.phase[r] == Taken)
  }

  /** Only the beginning of its Reconcile makes a request no longer due. */
  lemma DueStays(s: Sys, a: Action, r: Request)
    requires Inv(s) && CanRun(s, a) && Due(s, r) && a != Begin(r)
    ensures Due(Run(s, a), r)
  {
    match a
    case Change(m) => AddAllOk(s.q, s.group, s.kind, News(s, m));
    case _ =>
  }

  ghost predicate NoBegin(acts: seq<Action>, i: nat, j: nat, r: Request)
    requires j <= |acts|
  {
    forall k | i <= k < j :: acts[k] != Begin(r)
  }

  lemma DueAfter(group: string, kind: Gvk, run: seq<Sys>, acts: seq<Action>, k: nat, r: Request)
    requires IsHistory(group, kind, run, acts) && k < |acts|
    requires Due(run[k], r) && acts[k] != Begin(r)
    ensures Due(run[k + 1], r)
  {
    NoMissedChange(group, kind, run, acts, k);
    assert Ran(run[k], acts[k], run[k + 1]);
    DueStays(run[k], acts[k], r);
  }

  lemma {:induction false} DueUntilBegin(group: string, kind: Gvk, run: seq<Sys>, acts: seq<Action>, i: nat, j: nat,
                                         r: Request)
    requires IsHistory(group, kind, run, acts) && i <= j < |run|
    requires Due(run[i], r) && NoBegin(acts, i, j, r)
    ensures Due(run[j], r)
    decreases j
  {
    if i < j {
      DueUntilBegin(group, kind, run, acts, i, j - 1, r);
      DueAfter(group, kind, run, acts, j - 1, r);
    }
  }

  /** A notification about an object of the watched kind, the `k`-th, sent at step `i`, keeps its request due until a
      Reconcile begins. */
  lemma NotifiedIsReconciled(group: string, kind: Gvk, run: seq<Sys>, acts: seq<Action>, i: nat, j: nat, k: nat)
    requires IsHistory(group, kind, run, acts) && i < j < |run|
    requires |run[i].g.t.log| <= k < |run[i + 1].g.t.log| && run[i + 1].g.t.log[k].obj.gvk == kind
    requires NoBegin(acts, i + 1, j, Request(group, run[i + 1].g.t.log[k].obj.key))
    ensures var s, r := run[j], Request(group, run[i + 1].g.t.log[k].obj.key);
            r in s.q.dirty || r in s.q.delayed || (r in s.phase && s.phase[r] == Taken)
  {
    NotifiedIsDue(group, kind, run, acts, i, k);
    DueUntilBegin(group, kind, run, acts, i + 1, j, Request(group, run[i + 1].g.t.log[k].obj.key));
  }

  lemma NotifiedIsDue(group: string, kind: Gvk, run: seq<Sys>, acts: seq<Action>, i: nat, k: nat)
    requires IsHistory(group, kind, run, acts) && i < |acts|
    requires |run[i].g.t.log| <= k < |run[i + 1].g.t.log| && run[i + 1].g.t.log[k].obj.gvk == kind
    ensures Due(run[i + 1], Request(group, run[i + 1].g.t.log[k].obj.key))
  {
    NoMissedChange(group, kind, run, acts, i);
    assert Ran(run[i], acts[i], run[i + 1]);
    assert acts[i].Change?;
    var news := StepReports(run[i].g, acts[i].a);
    assert News(run[i], acts[i].a) == news;
    assert news[k - |run[i].g.t.log|] == run[i + 1].g.t.log[k];
    AddAllOk(run[i].q, group, kind, news);
  }

  /** A failed or requeued reconcile is due again, until the next one of its key begins. */
  lemma FailedIsRetried(group: string, kind: Gvk, run: seq<Sys>, acts: seq<Action>, i: nat, j: nat, r: Request,
                        res: Result)
    requires IsHistory(group, kind, run, acts) && i < j < |run|
    requires acts[i] == Finish(r, res) && (res.err || res.after > 0 || res.requeue) && NoBegin(acts, i + 1, j, r)
    ensures var s := run[j]; r in s.q.dirty || r in s.q.delayed || (r in s.phase && s.phase[r] == Taken)
  {
    HandledIs(run[i].q, r, res);
    assert Ran(run[i], acts[i], run[i + 1]);
    DueUntilBegin(group, kind, run, acts, i + 1, j, r);
  }

  /** One worker at a time: a request being reconciled is not taken again before it is released. */
  lemma OneWorkerPerRequest(group: string, kind: Gvk, run: seq<Sys>, acts: seq<Action>, i: nat)
    requires IsHistory(group, kind, run, acts) && i < |acts| && acts[i] == Take
    ensures run[i].q.queue != [] && run[i].q.queue[0] !in run[i].phase
  {
    NoMissedChange(group, kind, run, acts, i);
    assert Ran(run[i], acts[i], run[i + 1]);
    GetOk(run[i].q);
  }

  // ---------------------------------------------------------------- back-off

  /** How many reconciles of `r` in a row, up to step `n`, failed or asked for another one without saying when. */
  function InARow(acts: seq<Action>, n: nat, r: Request): nat
    requires n <= |acts|
  {
    if n == 0 then 0
    else if acts[n - 1].Finish? && acts[n - 1].r == r then
      if BacksOff(acts[n - 1].res) then InARow(acts, n - 1, r) + 1 else 0
    else InARow(acts, n - 1, r)
  }

  lemma {:induction false} AddAllKeepsFailures(q: Queue, group: string, kind: Gvk, news: seq<Event>)
    ensures AddAll(q, group, kind, news).failures == q.failures
  {
    if news != [] { AddAllKeepsFailures(q, group, kind, news[..|news| - 1]); }
  }

  /** The count that sets a request's delay is the length of its present run of failures: a success, or a reconcile
      that said when to come again, ends the run, and nothing else touches it. */
  lemma {:induction false} BackoffCounts(group: string, kind: Gvk, run: seq<Sys>, acts: seq<Action>, n: nat, r: Request)
    requires IsHistory(group, kind, run, acts) && n < |run|
    ensures Failures(run[n].q, r) == InARow(acts, n, r)
  {
    if n > 0 {
      BackoffCounts(group, kind, run, acts, n - 1, r);
      BackoffStep(group, kind, run, acts, n - 1, r);
    }
  }

  lemma BackoffStep(group: string, kind: Gvk, run: seq<Sys>, acts: seq<Action>, k: nat, r: Request)
    requires IsHistory(group, kind, run, acts) && k < |acts|
    ensures Failures(run[k + 1].q, r)
         == if acts[k].Finish? && acts[k].r == r then
              if BacksOff(acts[k].res) then Failures(run[k].q, r) + 1 else 0
            else Failures(run[k].q, r)
  {
    assert Ran(run[k], acts[k], run[k + 1]);
    if acts[k].Change? {
      AddAllKeepsFailures(run[k].q, run[k].group, run[k].kind, News(run[k], acts[k].a));
    }
  }

  // ---------------------------------------------------------------- the program

  /** What a handler is called with; the object pointers may be nil. */
  datatype HandlerEvent =
    | CreateEvent(group: string, obj: Option<Obj>)
    | UpdateEvent(group: string, was: Option<Obj>, obj: Option<Obj>)
    | DeleteEvent(group: string, obj: Option<Obj>)
    | GenericEvent(group: string, obj: Option<Obj>)

  function HandlerEventOf(group: string, e: Event): HandlerEvent {
    match e
    case Created(obj) => CreateEvent(group, Some(obj))
    case Updated(was, obj) => UpdateEvent(group, Some(was), Some(obj))
    case Deleted(obj) => DeleteEvent(group, Some(obj))
    case Synced(obj) => GenericEvent(group, Some(obj))
  }

  /** The object whose request is added: an update falls back on the old object. */
  function Subject(evt: HandlerEvent): Option<Obj> {
    if evt.UpdateEvent? && evt.obj.None? then evt.was else evt.obj
  }

  function Enqueued(q: Queue, evt: HandlerEvent): Queue {
    match Subject(evt)
    case Some(obj) => Add(q, Request(evt.group, obj.key))
    case None => q
  }

  /** Without predicates the handler adds what `AddAll` says it does for one notification of the watched kind. */
  lemma HandlerAdds(q: Queue, group: string, e: Event)
    ensures AddAll(q, group, e.obj.gvk, [e]) == Enqueued(q, HandlerEventOf(group, e))
    ensures Scheduled(Enqueued(q, HandlerEventOf(group, e)), RequestFor(group, e.obj.Id()))
  {
    assert [e][..0] == [];
  }

  class QueueController {
    var q: Queue
    var shuttingDown: bool

    constructor ()
      ensures q == NO_REQUESTS && !shuttingDown
    {
      q, shuttingDown := NO_REQUESTS, false;
    }

    /** `EnqueueRequestForObject`. */
    method Enqueue(evt: HandlerEvent)
      modifies this`q
      ensures q == Enqueued(old(q), evt)
      ensures evt.obj.Some? ==> q.dirty == old(q.dirty) + {Request(evt.group, evt.obj.value.key)}
      ensures evt.obj.None? && evt.UpdateEvent? && evt.was.Some? ==>
                q.dirty == old(q.dirty) + {Request(evt.group, evt.was.value.key)}
      ensures evt.obj.None? && (evt.UpdateEvent? ==> evt.was.None?) ==> q == old(q)
    {
      match evt
      case CreateEvent(group, obj) =>
        if obj.None? { return; }
        q := Add(q, Request(group, obj.value.key));
      case UpdateEvent(group, was, obj) =>
        if obj.Some? {
          q := Add(q, Request(group, obj.value.key));
        } else if was.Some? {
          q := Add(q, Request(group, was.value.key));
        }
      case DeleteEvent(group, obj) =>
        if obj.None? { return; }
        q := Add(q, Request(group, obj.value.key));
      case GenericEvent(group, obj) =>
        if obj.None? { return; }
        q := Add(q, Request(group, obj.value.key));
    }

    /** The informer's handler: the event passes every predicate, or nothing happens. */
    method OnEvent(evt: HandlerEvent, predicates: seq<HandlerEvent -> bool>)
      modifies this`q
      ensures q == if forall p | p in predicates :: p(evt) then Enqueued(old(q), evt) else old(q)
    {
      for i := 0 to |predicates|
        invariant q == old(q) && forall j | 0 <= j < i :: predicates[j](evt)
      {
        if !predicates[i](evt) { return; }
      }
      Enqueue(evt);
    }

    /** The rate limiter's delays are positive, as is that of RequeueAfter here: both wait before they add. */
    method ReconcileHandler(r: Request, res: Result)
      modifies this`q
      ensures q == Handled(old(q), r, res)
      ensures q.delayed == if res.err || res.after > 0 || res.requeue then old(q.delayed) + {r} else old(q.delayed)
      ensures if res.err || (res.after <= 0 && res.requeue) then q.failures == old(q.failures)[r := q.failures[r]]
              else q.failures == old(q.failures) - {r}
    {
      if res.err {
        q := AddRateLimited(q, r);
      } else if res.after > 0 {
        q := Forget(q, r);
        q := AddAfter(q, r);
      } else if res.requeue {
        q := AddRateLimited(q, r);
      } else {
        q := Forget(q, r);
      }
    }

    /** One turn of a worker whose Reconcile gives `res`, when nothing else happens meanwhile. The queue only comes
        back without a request when it is shutting down and empty, which ends the worker. */
    method ProcessNextWorkItem(res: Result) returns (r: Option<Request>)
      requires QueueOk(q) && (q.queue == [] ==> shuttingDown)
      modifies this`q
      ensures r.None? <==> old(q.queue) == []
      ensures r.None? ==> q == old(q)
      ensures r.Some? ==>
                && r.value == old(q.queue)[0] && QueueOk(q) && q.queue == old(q.queue)[1..]
                && q.processing == old(q.processing) && q.dirty == old(q.dirty) - {r.value}
                && q.delayed == (if res.err || res.after > 0 || res.requeue then old(q.delayed) + {r.value}
                                 else old(q.delayed))
                && forall o | o != r.value && Scheduled(old(q), o) :: Scheduled(q, o)
    {
      if q.queue == [] { return None; }
      var req := q.queue[0];
      GetOk(q);
      q := Get(q);
      ReconcileHandler(req, res);
      DoneOk(q, req);
      q := Done(q, req);
      return Some(req);
    }
  }
}

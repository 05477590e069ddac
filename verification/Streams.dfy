/** Port-forward stream pairing: the Run loop, one monitor per pair, and timeouts. */
module Streams {
  import opened Text

  const ERROR := "error"
  const DATA := "data"

  /** A stream: its type and request ID headers (empty when missing) and its identifier on the connection. */
  datatype Stream = Stream(kind: string, request: string, id: nat)

  /** `HTTPStreamReceived` lets only the two types through. */
  predicate Accepted(s: Stream) {
    s.kind == ERROR || s.kind == DATA
  }

  /** Older clients send no request ID: the error stream's identifier stands in for it, which they allot two
      below the data stream's. */
  function RequestId(s: Stream): string {
    if s.request != "" then s.request
    else if s.kind == ERROR then Itoa(s.id)
    else if s.kind == DATA then Itoa(s.id - 2)
    else ""
  }

  /** Without request IDs, a data stream joins an error stream exactly when its identifier is the next odd one. */
  lemma OldClientsPair(e: Stream, d: Stream)
    requires e.kind == ERROR && d.kind == DATA && e.request == "" && d.request == ""
    ensures RequestId(e) == RequestId(d) <==> d.id == e.id + 2
  {
    AtoiOfItoa(e.id);
    AtoiOfItoa(d.id - 2);
  }

  /** Which streams are of one request: those with the same request header; among streams without one, those of one
      type with the same identifier, and a data stream with the error stream two below it. A header that is a
      number can also name an old client's error stream. */
  lemma RequestIdIff(a: Stream, b: Stream)
    requires Accepted(a) && Accepted(b)
    ensures a.request != "" && b.request != "" ==> (RequestId(a) == RequestId(b) <==> a.request == b.request)
    ensures a.request == b.request == "" ==>
              (RequestId(a) == RequestId(b)
               <==> a.id == (if a.kind == b.kind then b.id else if a.kind == "error" then b.id - 2 else b.id + 2))
    ensures a.request != "" && b.request == "" ==>
              (RequestId(a) == RequestId(b) <==> a.request == Itoa(if b.kind == "error" then b.id else b.id - 2))
  {
    AtoiOfItoa(a.id);
    AtoiOfItoa(b.id);
    AtoiOfItoa(a.id - 2);
    AtoiOfItoa(b.id - 2);
  }

  // ---------------------------------------------------------------- pairs

  datatype Monitor = Waiting | Removing | Gone

  /** A pair, with the number of times its channel was closed and its forwarder started, and its monitor. */
  datatype Pair = Pair(
    id: string,
    data: Option<Stream>,
    error: Option<Stream>,
    closes: nat,
    forwards: nat,
    monitor: Monitor)

  function NewPair(id: string): Pair {
    Pair(id, None, None, 0, 0, Waiting)
  }

  predicate Both(p: Pair) {
    p.data.Some? && p.error.Some?
  }

  datatype Added = Added(pair: Pair, complete: bool, ok: bool)

  function Finish(p: Pair): Added {
    if Both(p) then Added(p.(closes := p.closes + 1), true, true) else Added(p, false, true)
  }

  /** `add`: fails when the slot is taken, and closes the channel when both slots are. */
  function Join(p: Pair, s: Stream): Added {
    if s.kind == ERROR then
      if p.error.Some? then Added(p, false, false) else Finish(p.(error := Some(s)))
    else if s.kind == DATA then
      if p.data.Some? then Added(p, false, false) else Finish(p.(data := Some(s)))
    else Finish(p)
  }

  /** A complete pair gets its forwarder. */
  function Served(added: Added): Pair {
    if added.complete then added.pair.(forwards := added.pair.forwards + 1) else added.pair
  }

  /** Why the type filter matters: on a pair closed once if complete, `add` closes a closed channel exactly for
      a stream of another type on a complete pair. */
  lemma DoubleCloseWhen(p: Pair, s: Stream)
    requires p.closes == if Both(p) then 1 else 0
    ensures Join(p, s).pair.closes > 1 <==> Both(p) && !Accepted(s)
  {
  }

  // ---------------------------------------------------------------- the machine

  datatype Loop = Idle | Holding(stream: Stream, p: nat) | Stopped

  /** All pairs ever created, and the streams the loop has taken and those it could not place. */
  datatype Sys = Sys(
    channel: seq<Stream>,
    loop: Loop,
    pairs: seq<Pair>,
    streamPairs: map<string, nat>,
    taken: multiset<Stream>,
    rejected: multiset<Stream>)

  const START := Sys([], Idle, [], map[], multiset{}, multiset{})

  datatype Action =
    | Receive(s: Stream)
    | Take
    | AddTaken
    | Close
    | Timeout(p: nat)
    | Notice(p: nat)
    | Remove(p: nat)

  predicate CanRun(s: Sys, a: Action) {
    match a
    case Receive(_) => true
    case Take => s.loop == Idle && s.channel != []
    case AddTaken => s.loop.Holding? && s.loop.p < |s.pairs|
    case Close => s.loop == Idle
    case Timeout(p) => p < |s.pairs| && s.pairs[p].monitor == Waiting
    case Notice(p) => p < |s.pairs| && s.pairs[p].monitor == Waiting && s.pairs[p].closes > 0
    case Remove(p) => p < |s.pairs| && s.pairs[p].monitor == Removing
  }

  /** `getStreamPair`; a created pair gets its monitor. */
  function GetStreamPair(s: Sys, id: string): (Sys, nat) {
    if id in s.streamPairs then (s, s.streamPairs[id])
    else (s.(pairs := s.pairs + [NewPair(id)], streamPairs := s.streamPairs[id := |s.pairs|]), |s.pairs|)
  }

  function Run(s: Sys, a: Action): Sys
    requires CanRun(s, a)
  {
    match a
    case Receive(stream) => if Accepted(stream) then s.(channel := s.channel + [stream]) else s
    case Take =>
      var stream := s.channel[0];
      var (t, p) := GetStreamPair(s, RequestId(stream));
      t.(channel := s.channel[1..], loop := Holding(stream, p), taken := s.taken + multiset{stream})
    case AddTaken =>
      var added := Join(s.pairs[s.loop.p], s.loop.stream);
      s.(loop := Idle, pairs := s.pairs[s.loop.p := Served(added)],
         rejected := if added.ok then s.rejected else s.rejected + multiset{s.loop.stream})
    case Close => s.(loop := Stopped)
    case Timeout(p) => s.(pairs := s.pairs[p := s.pairs[p].(monitor := Removing)])
    case Notice(p) => s.(pairs := s.pairs[p := s.pairs[p].(monitor := Removing)])
    case Remove(p) =>
      s.(pairs := s.pairs[p := s.pairs[p].(monitor := Gone)], streamPairs := s.streamPairs - {s.pairs[p].id})
  }

  ghost predicate Ran(before: Sys, a: Action, after: Sys) {
    CanRun(before, a) && after == Run(before, a)
  }

  ghost predicate IsHistory(run: seq<Sys>, acts: seq<Action>) {
    && |run| == |acts| + 1
    && run[0] == START
    && forall i | 0 <= i < |acts| :: Ran(run[i], acts[i], run[i + 1])
  }

  // ---------------------------------------------------------------- safety

  /** Streams of one request, each in its own slot; closed once and forwarded once exactly when both are there. */
  predicate PairSafe(p: Pair) {
    && (p.data.Some? ==> p.data.value.kind == DATA && RequestId(p.data.value) == p.id)
    && (p.error.Some? ==> p.error.value.kind == ERROR && RequestId(p.error.value) == p.id)
    && p.closes == p.forwards == if Both(p) then 1 else 0
  }

  /** The map holds exactly the pairs whose monitor has not removed them. */
  ghost predicate MapIsLive(s: Sys) {
    && (forall id | id in s.streamPairs ::
          s.streamPairs[id] < |s.pairs| && s.pairs[s.streamPairs[id]].id == id && s.pairs[s.streamPairs[id]].monitor != Gone)
    && (forall p: nat | p < |s.pairs| && s.pairs[p].monitor != Gone ::
          s.pairs[p].id in s.streamPairs && s.streamPairs[s.pairs[p].id] == p)
  }

  ghost predicate Safe(s: Sys) {
    && (forall p | p in s.pairs :: PairSafe(p))
    && MapIsLive(s)
    && (forall stream | stream in s.channel :: Accepted(stream))
    && (s.loop.Holding? ==>
          Accepted(s.loop.stream) && s.loop.p < |s.pairs| && s.pairs[s.loop.p].id == RequestId(s.loop.stream))
  }

  lemma TakeSafe(s: Sys)
    requires Safe(s) && CanRun(s, Take)
    ensures Safe(Run(s, Take))
  {
    assert s.channel[0] in s.channel;
    assert forall x | x in s.channel[1..] :: x in s.channel;
  }

  /** Only slots, counters or the monitor of one live pair change. */
  lemma PairSafeAfter(s: Sys, p: nat, pair: Pair)
    requires Safe(s) && p < |s.pairs| && PairSafe(pair)
    requires pair.id == s.pairs[p].id && (pair.monitor == Gone <==> s.pairs[p].monitor == Gone)
    ensures Safe(s.(pairs := s.pairs[p := pair]))
  {
  }

  lemma AddSafe(s: Sys)
    requires Safe(s) && CanRun(s, AddTaken)
    ensures Safe(Run(s, AddTaken))
  {
    assert s.pairs[s.loop.p] in s.pairs;
    PairSafeAfter(s, s.loop.p, Run(s, AddTaken).pairs[s.loop.p]);
  }

  lemma RemoveSafe(s: Sys, p: nat)
    requires Safe(s) && CanRun(s, Remove(p))
    ensures Safe(Run(s, Remove(p)))
  {
    assert s.pairs[p] in s.pairs;
  }

  lemma StepSafe(s: Sys, a: Action)
    requires Safe(s) && CanRun(s, a)
    ensures Safe(Run(s, a))
  {
    match a
    case Receive(_) =>
    case Take => TakeSafe(s);
    case AddTaken => AddSafe(s);
    case Close =>
    case Timeout(p) => assert s.pairs[p] in s.pairs; PairSafeAfter(s, p, s.pairs[p].(monitor := Removing));
    case Notice(p) => assert s.pairs[p] in s.pairs; PairSafeAfter(s, p, s.pairs[p].(monitor := Removing));
    case Remove(p) => RemoveSafe(s, p);
  }

  lemma {:induction false} HistorySafe(run: seq<Sys>, acts: seq<Action>, i: nat)
    requires IsHistory(run, acts) && i < |run|
    ensures Safe(run[i])
  {
    if i > 0 {
      HistorySafe(run, acts, i - 1);
      assert Ran(run[i - 1], acts[i - 1], run[i - 1 + 1]);
      StepSafe(run[i - 1], acts[i - 1]);
    }
  }

  /** At most one close and one forwarder per pair over any run, and a forwarder only ever sees the data and the
      error stream of its own request. */
  lemma ForwardedOnce(run: seq<Sys>, acts: seq<Action>, i: nat, p: nat)
    requires IsHistory(run, acts) && i < |run| && p < |run[i].pairs|
    ensures var pair := run[i].pairs[p];
            && pair.closes <= 1 && pair.forwards <= 1
            && (pair.forwards == 1 <==> Both(pair))
            && (Both(pair) ==> pair.data.value.kind == DATA && pair.error.value.kind == ERROR
                               && RequestId(pair.data.value) == RequestId(pair.error.value) == pair.id)
    ensures run[i].pairs[p].forwards > 0 ==>
              && run[i].pairs[p].data.Some? && run[i].pairs[p].error.Some?
              && var d, e := run[i].pairs[p].data.value, run[i].pairs[p].error.value;
                 && d.kind == "data" && e.kind == "error"
                 && (d.request != "" && e.request != "" ==> d.request == e.request)
                 && (d.request == e.request == "" ==> d.id == e.id + 2)
                 && (d.request != "" && e.request == "" ==> d.request == Itoa(e.id))
                 && (d.request == "" && e.request != "" ==> e.request == Itoa(d.id - 2))
  {
    HistorySafe(run, acts, i);
    assert run[i].pairs[p] in run[i].pairs;
    if Both(run[i].pairs[p]) {
      RequestIdIff(run[i].pairs[p].data.value, run[i].pairs[p].error.value);
      RequestIdIff(run[i].pairs[p].error.value, run[i].pairs[p].data.value);
    }
  }

  // ---------------------------------------------------------------- progress

  /** Streams of the two types reach the loop, others do not. */
  lemma ReceiveQueues(s: Sys, x: Stream)
    ensures Run(s, Receive(x)) == if x.kind in {"error", "data"} then s.(channel := s.channel + [x]) else s
  {
  }

  /** The loop takes the first stream to the live pair of its request, or to a new one when there is none. */
  lemma TakeFinds(s: Sys)
    requires Safe(s) && CanRun(s, Take) && s.channel[0].request != ""
    ensures var t, x := Run(s, Take), s.channel[0];
            && t.loop.Holding? && t.loop.stream == x && t.channel == s.channel[1..]
            && if x.request in s.streamPairs then
                 t.loop.p == s.streamPairs[x.request] && t.pairs == s.pairs && t.streamPairs == s.streamPairs
               else
                 && t.loop.p == |s.pairs| && t.pairs == s.pairs + [Pair(x.request, None, None, 0, 0, Waiting)]
                 && t.streamPairs == s.streamPairs[x.request := |s.pairs|]
  {
  }

  /** The stream in hand goes to its own slot, and starts the forwarder if the other slot is filled. When its slot is
      taken it is rejected, and no pair changes. */
  lemma AddPlaces(s: Sys)
    requires Safe(s) && CanRun(s, AddTaken)
    ensures var t, x, p, was := Run(s, AddTaken), s.loop.stream, s.loop.p, s.pairs[s.loop.p];
            && t.loop == Idle && t.channel == s.channel && t.streamPairs == s.streamPairs
            && (if x.kind == "error" && was.error == None then
                  && t.rejected == s.rejected && t.pairs[p].error == Some(x) && t.pairs[p].data == was.data
                  && t.pairs == s.pairs[p := t.pairs[p]]
                  && t.pairs[p].forwards == t.pairs[p].closes == if was.data == None then 0 else 1
                else if x.kind == "data" && was.data == None then
                  && t.rejected == s.rejected && t.pairs[p].data == Some(x) && t.pairs[p].error == was.error
                  && t.pairs == s.pairs[p := t.pairs[p]]
                  && t.pairs[p].forwards == t.pairs[p].closes == if was.error == None then 0 else 1
                else t.rejected == s.rejected + multiset{x} && t.pairs == s.pairs)
  {
    assert s.pairs[s.loop.p] in s.pairs;
  }

  /** The loop takes one stream and adds it. */
  function Turn(s: Sys): Sys
    requires CanRun(s, Take) && CanRun(Run(s, Take), AddTaken)
  {
    Run(Run(s, Take), AddTaken)
  }

  lemma TurnRuns(s: Sys)
    requires Safe(s) && CanRun(s, Take)
    ensures CanRun(Run(s, Take), AddTaken) && Safe(Turn(s))
  {
    StepSafe(s, Take);
    StepSafe(Run(s, Take), AddTaken);
  }

  lemma FirstTurn(s: Sys)
    requires Safe(s) && CanRun(s, Take) && s.channel[0].request != "" && s.channel[0].request !in s.streamPairs
    ensures CanRun(Run(s, Take), AddTaken) && Safe(Turn(s))
    ensures var t, x := Turn(s), s.channel[0];
            && t.loop == Idle && t.channel == s.channel[1..] && t.rejected == s.rejected
            && t.streamPairs == s.streamPairs[x.request := |s.pairs|]
            && t.pairs == s.pairs + [Pair(x.request, if x.kind == "data" then Some(x) else None,
                                          if x.kind == "error" then Some(x) else None, 0, 0, Waiting)]
  {
    TurnRuns(s);
    TakeFinds(s);
    StepSafe(s, Take);
    AddPlaces(Run(s, Take));
  }

  /** The second stream of a request completes the pair of the first, which may have waited while others came. */
  lemma SecondTurn(s: Sys, p: nat)
    requires Safe(s) && CanRun(s, Take) && s.channel[0].request != "" && p < |s.pairs|
    requires s.channel[0].request in s.streamPairs && s.streamPairs[s.channel[0].request] == p
    requires if s.channel[0].kind == "data" then s.pairs[p].data == None && s.pairs[p].error.Some?
             else s.pairs[p].error == None && s.pairs[p].data.Some?
    ensures CanRun(Run(s, Take), AddTaken) && Safe(Turn(s))
    ensures var t, x, was := Turn(s), s.channel[0], s.pairs[p];
            && t.loop == Idle && t.channel == s.channel[1..]
            && t.rejected == s.rejected && t.streamPairs == s.streamPairs
            && t.pairs == s.pairs[p := Pair(was.id, if x.kind == "data" then Some(x) else was.data,
                                            if x.kind == "error" then Some(x) else was.error, 1, 1, was.monitor)]
  {
    TurnRuns(s);
    TakeFinds(s);
    StepSafe(s, Take);
    AddPlaces(Run(s, Take));
  }

  /** The error and the data stream of a new request, one after the other in either order: two turns of the loop put
      them in one pair of their own, close its channel and start its forwarder once, and reject nothing. */
  lemma RequestIsServed(s: Sys, x: Stream, y: Stream)
    requires Safe(s) && s.loop == Idle && s.channel == [x, y]
    requires (x.kind == "error" && y.kind == "data") || (x.kind == "data" && y.kind == "error")
    requires x.request == y.request != "" && x.request !in s.streamPairs
    ensures CanRun(s, Take) && CanRun(Run(s, Take), AddTaken)
    ensures CanRun(Turn(s), Take) && CanRun(Run(Turn(s), Take), AddTaken)
    ensures var t := Turn(Turn(s));
            && t.loop == Idle && t.channel == [] && t.rejected == s.rejected
            && t.streamPairs == s.streamPairs[x.request := |s.pairs|]
            && t.pairs == s.pairs + [Pair(x.request, Some(if x.kind == "data" then x else y),
                                          Some(if x.kind == "data" then y else x), 1, 1, Waiting)]
  {
    FirstTurn(s);
    assert Turn(s).channel == [y];
    SecondTurn(Turn(s), |s.pairs|);
  }

  // ---------------------------------------------------------------- monitors

  /** `removeStreamPair` finds the very pair its monitor was made for, and takes away that entry alone. */
  lemma RemovesItsOwn(run: seq<Sys>, acts: seq<Action>, i: nat, p: nat)
    requires IsHistory(run, acts) && i < |acts| && acts[i] == Remove(p)
    ensures p < |run[i].pairs| && run[i].pairs[p].id in run[i].streamPairs
            && run[i].streamPairs[run[i].pairs[p].id] == p
    ensures forall id | id in run[i].streamPairs ::
              if run[i].streamPairs[id] == p then id !in run[i + 1].streamPairs
              else id in run[i + 1].streamPairs && run[i + 1].streamPairs[id] == run[i].streamPairs[id]
  {
    HistorySafe(run, acts, i);
    assert Ran(run[i], acts[i], run[i + 1]);
  }

  /** What a later state keeps of a pair. */
  predicate Follows(before: Pair, after: Pair) {
    && after.id == before.id
    && (before.data.Some? ==> after.data == before.data)
    && (before.error.Some? ==> after.error == before.error)
    && before.closes <= after.closes && before.forwards <= after.forwards
    && (before.monitor == Gone ==> after.monitor == Gone)
  }

  lemma StepFollows(s: Sys, a: Action, p: nat)
    requires CanRun(s, a) && p < |s.pairs|
    ensures p < |Run(s, a).pairs| && Follows(s.pairs[p], Run(s, a).pairs[p])
  {
  }

  /** A slot is filled for good, also after the pair has timed out and its request ID serves a new pair. */
  lemma {:induction false} SlotsStay(run: seq<Sys>, acts: seq<Action>, i: nat, j: nat, p: nat)
    requires IsHistory(run, acts) && i <= j < |run| && p < |run[i].pairs|
    ensures p < |run[j].pairs| && Follows(run[i].pairs[p], run[j].pairs[p])
    decreases j
  {
    if i < j {
      SlotsStay(run, acts, i, j - 1, p);
      assert Ran(run[j - 1], acts[j - 1], run[j - 1 + 1]);
      StepFollows(run[j - 1], acts[j - 1], p);
    }
  }

  // ---------------------------------------------------------------- conservation

  function Is(slot: Option<Stream>, x: Stream): nat {
    if slot == Some(x) then 1 else 0
  }

  /** How many slots hold `x`. */
  function Placed(pairs: seq<Pair>, x: Stream): nat {
    if pairs == [] then 0
    else
      var last := pairs[|pairs| - 1];
      Placed(pairs[..|pairs| - 1], x) + Is(last.data, x) + Is(last.error, x)
  }

  function Held(s: Sys, x: Stream): nat {
    if s.loop.Holding? && s.loop.stream == x then 1 else 0
  }

  lemma {:induction false} PlacedAfter(pairs: seq<Pair>, p: nat, pair: Pair, x: Stream)
    requires p < |pairs|
    ensures Placed(pairs[p := pair], x) + Is(pairs[p].data, x) + Is(pairs[p].error, x)
              == Placed(pairs, x) + Is(pair.data, x) + Is(pair.error, x)
  {
    var last := |pairs| - 1;
    if p == last {
      assert pairs[p := pair][..last] == pairs[..last];
    } else {
      assert pairs[p := pair][..last] == pairs[..last][p := pair];
      PlacedAfter(pairs[..last], p, pair, x);
    }
  }

  /** Every time the loop took `x`, it put it in one slot of one pair, still has it in hand, or rejected it. */
  ghost predicate Conserved(s: Sys, x: Stream) {
    s.taken[x] == Placed(s.pairs, x) + Held(s, x) + s.rejected[x]
  }

  lemma MonitorConserves(s: Sys, p: nat, m: Monitor, x: Stream)
    requires p < |s.pairs|
    ensures Placed(s.pairs[p := s.pairs[p].(monitor := m)], x) == Placed(s.pairs, x)
  {
    PlacedAfter(s.pairs, p, s.pairs[p].(monitor := m), x);
  }

  lemma JoinPlaces(p: Pair, s: Stream, x: Stream)
    requires Accepted(s)
    ensures var t := Served(Join(p, s));
            Is(t.data, x) + Is(t.error, x)
              == Is(p.data, x) + Is(p.error, x) + if Join(p, s).ok && s == x then 1 else 0
  {
  }

  lemma AddConserves(s: Sys, x: Stream)
    requires Safe(s) && Conserved(s, x) && CanRun(s, AddTaken)
    ensures Conserved(Run(s, AddTaken), x)
  {
    var p, stream := s.loop.p, s.loop.stream;
    JoinPlaces(s.pairs[p], stream, x);
    PlacedAfter(s.pairs, p, Served(Join(s.pairs[p], stream)), x);
    var rejected := Run(s, AddTaken).rejected[x];
    assert rejected == s.rejected[x] + if !Join(s.pairs[p], stream).ok && stream == x then 1 else 0;
  }

  lemma TakeConserves(s: Sys, x: Stream)
    requires Conserved(s, x) && CanRun(s, Take)
    ensures Conserved(Run(s, Take), x)
  {
    var t := Run(s, Take);
    if |t.pairs| > |s.pairs| { assert t.pairs[..|t.pairs| - 1] == s.pairs; }
    assert t.taken[x] == s.taken[x] + if s.channel[0] == x then 1 else 0;
  }

  lemma StepConserves(s: Sys, a: Action, x: Stream)
    requires Safe(s) && Conserved(s, x) && CanRun(s, a)
    ensures Conserved(Run(s, a), x)
  {
    match a
    case Take => TakeConserves(s, x);
    case AddTaken => AddConserves(s, x);
    case Timeout(p) => MonitorConserves(s, p, Removing, x);
    case Notice(p) => MonitorConserves(s, p, Removing, x);
    case Remove(p) => MonitorConserves(s, p, Gone, x);
    case _ =>
  }

  lemma {:induction false} HistoryConserves(run: seq<Sys>, acts: seq<Action>, i: nat, x: Stream)
    requires IsHistory(run, acts) && i < |run|
    ensures Conserved(run[i], x)
  {
    if i > 0 {
      HistoryConserves(run, acts, i - 1, x);
      HistorySafe(run, acts, i - 1);
      assert Ran(run[i - 1], acts[i - 1], run[i - 1 + 1]);
      StepConserves(run[i - 1], acts[i - 1], x);
    }
  }

  // ---------------------------------------------------------------- the program

  class HttpStreamPair {
    const requestID: string
    var dataStream: Option<Stream>
    var errorStream: Option<Stream>
    var complete: bool

    constructor (requestID: string)
      ensures this.requestID == requestID && dataStream == None && errorStream == None && !complete
      ensures Valid()
    {
      this.requestID, dataStream, errorStream, complete := requestID, None, None, false;
    }

    /** The channel is closed exactly when both streams are there. */
    predicate Valid()
      reads this
    {
      complete <==> dataStream.Some? && errorStream.Some?
    }

    function Streams(): set<Stream>
      reads this
    {
      (if dataStream.Some? then {dataStream.value} else {}) + (if errorStream.Some? then {errorStream.value} else {})
    }

    ghost function Value(monitor: Monitor): Pair
      reads this
    {
      var n := if complete then 1 else 0;
      Pair(requestID, dataStream, errorStream, n, n, monitor)
    }

    /** Closing a closed channel panics. */
    method CloseComplete()
      requires !complete
      modifies this`complete
      ensures complete
    {
      complete := true;
    }

    method Add(stream: Stream) returns (done: bool, ok: bool)
      requires Valid() && Accepted(stream)
      modifies this
      ensures Valid()
      ensures forall m :: var added := Join(old(Value(m)), stream);
              done == added.complete && ok == added.ok && Value(m) == Served(added)
    {
      if stream.kind == ERROR {
        if errorStream.Some? { return false, false; }
        errorStream := Some(stream);
      } else if stream.kind == DATA {
        if dataStream.Some? { return false, false; }
        dataStream := Some(stream);
      }
      done := errorStream.Some? && dataStream.Some?;
      if done { CloseComplete(); }
      return done, true;
    }
  }

  class HttpStreamHandler {
    var streamPairs: map<string, HttpStreamPair>
    /** The streams that the connection holds; none without a connection. */
    var streams: Option<set<Stream>>

    constructor (streams: Option<set<Stream>>)
      ensures streamPairs == map[] && this.streams == streams
    {
      this.streamPairs, this.streams := map[], streams;
    }

    method GetStreamPair(requestID: string) returns (p: HttpStreamPair, created: bool)
      modifies this`streamPairs
      ensures created <==> requestID !in old(streamPairs)
      ensures streamPairs == old(streamPairs)[requestID := p]
      ensures if created then fresh(p) && p.Valid() && p.requestID == requestID && !p.complete
              else p == old(streamPairs)[requestID] && streamPairs == old(streamPairs)
    {
      if requestID in streamPairs { return streamPairs[requestID], false; }
      p := new HttpStreamPair(requestID);
      created := true;
      streamPairs := streamPairs[requestID := p];
    }

    /** With a connection the entry must be there, for the source dereferences it, and its streams are released.
        `RemovesItsOwn` says that it always is. */
    method RemoveStreamPair(requestID: string)
      requires streams.Some? ==> requestID in streamPairs
      modifies this
      ensures streamPairs == old(streamPairs) - {requestID}
      ensures streams == if old(streams).None? then None
                         else Some(old(streams).value - old(streamPairs[requestID].Streams()))
    {
      if streams.Some? {
        var pair := streamPairs[requestID];
        streams := Some(streams.value - pair.Streams());
      }
      streamPairs := streamPairs - {requestID};
    }
  }
}

/** The workload-clusters mux: listeners and the ports they reserve. */
module Mux {
  import opened Text

  // ---------------------------------------------------------------- listeners

  datatype Listener = Listener(host: string, port: int) {
    function HostPort(): string {
      JoinHostPort(host, Itoa(port))
    }

    function Address(): string {
      "https://" + HostPort()
    }
  }

  /** `net.JoinHostPort`: a host with a colon is put in brackets. */
  function JoinHostPort(host: string, port: string): string {
    (if ':' in host then "[" + host + "]" else host) + ":" + port
  }

  lemma LastColon(p: string, q: string, p': string, q': string)
    requires p + ":" + q == p' + ":" + q' && ':' !in q && ':' !in q'
    ensures p == p' && q == q'
  {
    var all, all' := p + ":" + q, p' + ":" + q';
    assert all[|p|] == ':' && all'[|p'|] == ':';
    assert forall i | |p| < i < |all| :: all[i] == q[i - |p| - 1];
    assert forall i | |p'| < i < |all'| :: all'[i] == q'[i - |p'| - 1];
    assert |p| == |p'|;
    assert p == all[..|p|] && p' == all'[..|p'|];
    assert q == all[|p| + 1..] && q' == all'[|p'| + 1..];
  }

  lemma ItoaHasNoColon(n: int)
    ensures ':' !in Itoa(n)
  {
  }

  /** A host without a colon is written as it is, any other in brackets. */
  lemma HostPortIs(l: Listener)
    ensures ':' !in l.host ==> l.HostPort() == l.host + ":" + Itoa(l.port)
    ensures ':' in l.host ==> l.HostPort() == "[" + l.host + "]:" + Itoa(l.port)
    ensures l.Address() == "https://" + l.HostPort()
  {
    assert ("[" + l.host + "]") + ":" + Itoa(l.port) == "[" + l.host + "]:" + Itoa(l.port);
  }

  /** Listeners with the same host:port are the same, whatever the hosts contain. */
  lemma HostPortInjective(a: Listener, b: Listener)
    ensures a.HostPort() == b.HostPort() <==> a == b
    ensures a.Address() == b.Address() <==> a == b
  {
    if a.Address() == b.Address() {
      assert a.Address()[8..] == a.HostPort() && b.Address()[8..] == b.HostPort();
    }
    if a.HostPort() == b.HostPort() {
      ItoaHasNoColon(a.port);
      ItoaHasNoColon(b.port);
      var pa := if ':' in a.host then "[" + a.host + "]" else a.host;
      var pb := if ':' in b.host then "[" + b.host + "]" else b.host;
      LastColon(pa, Itoa(a.port), pb, Itoa(b.port));
      AtoiOfItoa(a.port);
      AtoiOfItoa(b.port);
      assert ':' in a.host ==> pa[1..|pa| - 1] == a.host && ':' in pa;
      assert ':' in b.host ==> pb[1..|pb| - 1] == b.host && ':' in pb;
    }
  }

  // ---------------------------------------------------------------- the mux on values

  const MIN_PORT := 20000
  const MAX_PORT := 24000

  datatype State = State(
    host: string,
    minPort: int,
    maxPort: int,
    portIndex: int,
    listeners: map<string, Listener>,
    nameByHost: map<string, string>)

  function Fresh(host: string, minPort: int, maxPort: int): State {
    State(host, minPort, maxPort, minPort, map[], map[])
  }

  /** A GoofyCluster as HotRestart sees it: its endpoint and its resource group annotation. */
  datatype Item = Item(host: string, port: int, group: Option<string>)

  function InitWithPort(m: State, name: string, port: int): State {
    var l := Listener(m.host, port);
    m.(listeners := m.listeners[name := l], nameByHost := m.nameByHost[l.HostPort() := name])
  }

  /** `InitWorkloadClusterListener`; no listener when the ports are used up. */
  function Init(m: State, name: string): (State, Option<Listener>) {
    if name in m.listeners then (m, Some(m.listeners[name]))
    else if m.portIndex > m.maxPort then (m, None)
    else (InitWithPort(m.(portIndex := m.portIndex + 1), name, m.portIndex), Some(Listener(m.host, m.portIndex)))
  }

  predicate Restartable(host: string, c: Item) {
    c.host == "" || (c.host == host && c.group.Some?)
  }

  /** One turn of HotRestart's loop on an acceptable item: an item without an endpoint is passed over. */
  function Place(m: State, c: Item): State {
    if c.host == "" || c.group.None? then m else InitWithPort(m, c.group.value, c.port)
  }

  function Higher(top: int, c: Item): int {
    if c.host != "" && top < c.port then c.port else top
  }

  datatype Loop = Loop(m: State, ok: bool, top: int)

  /** HotRestart's loop: the state it leaves, whether it came to the end, and the highest port so far. */
  function RestartItems(m: State, items: seq<Item>, top: int): Loop
    decreases items
  {
    if items == [] then Loop(m, true, top)
    else if !Restartable(m.host, items[0]) then Loop(m, false, top)
    else RestartItems(Place(m, items[0]), items[1..], Higher(top, items[0]))
  }

  function Restart(m: State, items: seq<Item>): (State, bool) {
    if items == [] then (m, true)
    else if m.listeners != map[] then (m, false)
    else
      var end := RestartItems(m, items, m.minPort - 1);
      if end.ok then (end.m.(portIndex := end.top + 1), true) else (end.m, false)
  }

  /** The resource group that requests to a local address belong to. */
  function Resolve(m: State, hostPort: string): Option<string> {
    if hostPort in m.nameByHost then Some(m.nameByHost[hostPort]) else None
  }

  // ---------------------------------------------------------------- what the mux keeps

  /** The two maps are inverse through HostPort. */
  ghost predicate Inverse(m: State) {
    && (forall n | n in m.listeners :: Resolve(m, m.listeners[n].HostPort()) == Some(n))
    && (forall h | h in m.nameByHost :: m.nameByHost[h] in m.listeners && m.listeners[m.nameByHost[h]].HostPort() == h)
  }

  ghost predicate Sound(m: State) {
    && Inverse(m)
    && m.minPort <= m.portIndex <= m.maxPort + 1
    && (forall n | n in m.listeners :: m.listeners[n].host == m.host && m.minPort <= m.listeners[n].port < m.portIndex)
  }

  /** Two names never share a port. */
  lemma PortsDistinct(m: State, a: string, b: string)
    requires Sound(m) && a in m.listeners && b in m.listeners && m.listeners[a].port == m.listeners[b].port
    ensures a == b
  {
    assert m.listeners[a] == m.listeners[b];
  }

  lemma FreshSound(host: string, minPort: int, maxPort: int)
    requires minPort <= maxPort + 1
    ensures Sound(Fresh(host, minPort, maxPort))
  {
  }

  lemma InitWithPortInverse(m: State, name: string, port: int)
    requires Inverse(m) && name !in m.listeners
    requires forall n | n in m.listeners :: m.listeners[n] != Listener(m.host, port)
    ensures Inverse(InitWithPort(m, name, port))
  {
    var l, t := Listener(m.host, port), InitWithPort(m, name, port);
    forall n | n in m.listeners
      ensures m.listeners[n].HostPort() != l.HostPort()
    {
      HostPortInjective(m.listeners[n], l);
    }
    forall h | h in t.nameByHost
      ensures t.nameByHost[h] in t.listeners && t.listeners[t.nameByHost[h]].HostPort() == h
    {
      if h != l.HostPort() { assert h in m.nameByHost; }
    }
  }

  lemma InitNewInverse(m: State, name: string)
    requires Sound(m) && name !in m.listeners && m.portIndex <= m.maxPort
    ensures Inverse(Init(m, name).0)
  {
    var next := m.(portIndex := m.portIndex + 1);
    InverseFrame(m, next);
    assert forall n | n in m.listeners :: m.listeners[n].port < m.portIndex;
    InitWithPortInverse(next, name, m.portIndex);
  }

  lemma InitNew(m: State, name: string)
    requires Sound(m) && name !in m.listeners && m.portIndex <= m.maxPort
    ensures var t := Init(m, name).0;
            && Sound(t) && t.listeners == m.listeners[name := Listener(m.host, m.portIndex)]
            && Resolve(t, Listener(m.host, m.portIndex).HostPort()) == Some(name)
  {
    InitNewInverse(m, name);
  }

  /** Init keeps the mux sound and every listener in place, gives a name its own port for good, and fails only
      for a new name when no port is left, changing nothing. */
  lemma InitKeeps(m: State, name: string)
    requires Sound(m)
    ensures var (t, l) := Init(m, name);
            && Sound(t)
            && (forall n | n in m.listeners :: n in t.listeners && t.listeners[n] == m.listeners[n])
            && (l.None? <==> name !in m.listeners && m.portIndex == m.maxPort + 1)
            && (l.None? ==> t == m)
            && (l.Some? ==> name in t.listeners && t.listeners[name] == l.value && Init(t, name) == (t, l))
            && (l.Some? && name !in m.listeners ==>
                  l.value == Listener(m.host, m.portIndex) && t.portIndex == m.portIndex + 1
                  && t.listeners == m.listeners[name := Listener(m.host, m.portIndex)])
            && (l.Some? ==> Resolve(t, l.value.HostPort()) == Some(name))
  {
    if name !in m.listeners && m.portIndex <= m.maxPort {
      InitNew(m, name);
    }
  }

  function InitAll(m: State, names: seq<string>): (State, bool)
    decreases names
  {
    if names == [] then (m, true)
    else
      var (t, l) := Init(m, names[0]);
      if l.None? then (t, false) else InitAll(t, names[1..])
  }

  /** New names are served exactly while ports last: a fresh mux serves maxPort - minPort + 1 of them. */
  lemma {:induction false} Capacity(m: State, names: seq<string>)
    requires Sound(m)
    requires forall i, j | 0 <= i < j < |names| :: names[i] != names[j]
    requires forall i | 0 <= i < |names| :: names[i] !in m.listeners
    ensures InitAll(m, names).1 <==> |names| <= m.maxPort + 1 - m.portIndex
    ensures InitAll(m, names).1 ==> InitAll(m, names).0.portIndex == m.portIndex + |names|
    decreases names
  {
    if names != [] {
      InitKeeps(m, names[0]);
      var t := Init(m, names[0]).0;
      if Init(m, names[0]).1.Some? {
        assert forall n | n in t.listeners :: n in m.listeners || n == names[0];
        Capacity(t, names[1..]);
      }
    }
  }

  // ---------------------------------------------------------------- restart

  predicate AllRestartable(host: string, items: seq<Item>) {
    forall c | c in items :: Restartable(host, c)
  }

  lemma AllRest(host: string, items: seq<Item>)
    requires items != []
    ensures AllRestartable(host, items) <==> Restartable(host, items[0]) && AllRestartable(host, items[1..])
  {
    RestMembers(items);
  }

  lemma {:induction false} RestartItemsOk(m: State, items: seq<Item>, top: int)
    ensures RestartItems(m, items, top).ok <==> AllRestartable(m.host, items)
    decreases items
  {
    if items != [] {
      AllRest(m.host, items);
      RestartItemsOk(Place(m, items[0]), items[1..], Higher(top, items[0]));
    }
  }

  /** HotRestart succeeds exactly when there is nothing to do, or the mux is empty and every endpoint has the
      mux's host and a resource group. Ports play no part: the set meant to catch duplicates stays empty. */
  lemma RestartSucceedsWhen(m: State, items: seq<Item>)
    ensures Restart(m, items).1
            <==> items == []
                 || (m.listeners == map[] && forall c | c in items && c.host != "" :: c.host == m.host && c.group.Some?)
  {
    RestartItemsOk(m, items, m.minPort - 1);
  }

  /** Among items with an endpoint: distinct groups. */
  ghost predicate DistinctGroups(items: seq<Item>) {
    forall i, j | 0 <= i < j < |items| && items[i].host != "" && items[j].host != "" :: items[i].group != items[j].group
  }

  ghost predicate DistinctPorts(items: seq<Item>) {
    forall i, j | 0 <= i < j < |items| && items[i].host != "" && items[j].host != "" :: items[i].port != items[j].port
  }

  lemma RestMembers(items: seq<Item>)
    requires items != []
    ensures forall d :: d in items <==> d == items[0] || d in items[1..]
    ensures DistinctGroups(items) ==> DistinctGroups(items[1..])
    ensures DistinctPorts(items) ==> DistinctPorts(items[1..])
  {
    assert items == [items[0]] + items[1..];
  }

  /** Neither a group nor a port of the items is in use. */
  ghost predicate Unused(m: State, items: seq<Item>) {
    forall c | c in items && c.host != "" ::
      c.group.Some? && c.group.value !in m.listeners && forall n | n in m.listeners :: m.listeners[n].port != c.port
  }

  lemma UnusedRest(m: State, items: seq<Item>)
    requires items != [] && items[0].host != "" && items[0].group.Some?
    requires DistinctGroups(items) && DistinctPorts(items) && Unused(m, items)
    ensures Unused(InitWithPort(m, items[0].group.value, items[0].port), items[1..])
  {
    forall d | d in items[1..] && d.host != ""
      ensures d in items && d.group != items[0].group && d.port != items[0].port
    {
      var j :| 0 <= j < |items| - 1 && items[1..][j] == d;
      assert items[j + 1] == d;
    }
  }

  /** `c` is the item behind the listener of `n`. */
  ghost predicate ListenerOf(t: State, n: string, c: Item) {
    n in t.listeners && c.host != "" && c.group == Some(n) && t.listeners[n] == Listener(t.host, c.port)
  }

  /** Every item's listener is there with its port. */
  ghost predicate Restored(t: State, items: seq<Item>) {
    forall c | c in items && c.host != "" :: c.group.Some? && ListenerOf(t, c.group.value, c)
  }

  /** The highest port of the items, when above `top`. */
  function Top(items: seq<Item>, top: int): (p: int)
    ensures top <= p && forall c | c in items && c.host != "" :: c.port <= p
    ensures p == top || exists c | c in items :: c.host != "" && c.port == p
    decreases items
  {
    if items == [] then top
    else
      assert items == [items[0]] + items[1..];
      Top(items[1..], Higher(top, items[0]))
  }

  /** The loop comes to its end and finds the highest port. */
  lemma {:induction false} RestartItemsEnds(m: State, items: seq<Item>, top: int)
    requires AllRestartable(m.host, items)
    ensures RestartItems(m, items, top).ok && RestartItems(m, items, top).top == Top(items, top)
    decreases items
  {
    if items != [] {
      AllRest(m.host, items);
      RestartItemsEnds(Place(m, items[0]), items[1..], Higher(top, items[0]));
    }
  }

  /** The loop changes the two maps and nothing else. */
  lemma {:induction false} RestartItemsFrame(m: State, items: seq<Item>, top: int)
    ensures var t := RestartItems(m, items, top).m;
            t == m.(listeners := t.listeners, nameByHost := t.nameByHost)
    decreases items
  {
    if items != [] && Restartable(m.host, items[0]) {
      RestartItemsFrame(Place(m, items[0]), items[1..], Higher(top, items[0]));
    }
  }

  /** A listener whose name no item has stays. */
  lemma {:induction false} RestartItemsKeep(m: State, items: seq<Item>, top: int, n: string)
    requires n in m.listeners && forall c | c in items && c.host != "" :: c.group != Some(n)
    ensures var t := RestartItems(m, items, top).m;
            n in t.listeners && t.listeners[n] == m.listeners[n]
    decreases items
  {
    if items != [] && Restartable(m.host, items[0]) {
      RestMembers(items);
      RestartItemsKeep(Place(m, items[0]), items[1..], Higher(top, items[0]), n);
    }
  }

  /** Distinct groups: the listener of the item at `k` is the item's. */
  lemma {:induction false} RestartItemsRestore(m: State, items: seq<Item>, top: int, k: nat)
    requires AllRestartable(m.host, items)
    requires DistinctGroups(items) && k < |items| && items[k].host != ""
    ensures items[k].group.Some? && ListenerOf(RestartItems(m, items, top).m, items[k].group.value, items[k])
    decreases items
  {
    var c, rest := items[0], items[1..];
    AllRest(m.host, items);
    RestMembers(items);
    var next, up := Place(m, c), Higher(top, c);
    if k > 0 {
      RestartItemsRestore(next, rest, up, k - 1);
    } else {
      forall d | d in rest && d.host != "" ensures d.group != c.group {
        var j :| 0 <= j < |rest| && rest[j] == d;
        assert items[j + 1] == d;
      }
      RestartItemsFrame(next, rest, up);
      RestartItemsKeep(next, rest, up, c.group.value);
    }
  }

  /** Every new listener is an item's. */
  lemma {:induction false} RestartItemsOnly(m: State, items: seq<Item>, top: int, n: string) returns (c: Item)
    requires n in RestartItems(m, items, top).m.listeners && n !in m.listeners
    ensures c in items && c.host != "" && c.group == Some(n)
    decreases items
  {
    c := items[0];
    RestMembers(items);
    if c.host == "" || c.group != Some(n) {
      c := RestartItemsOnly(Place(m, c), items[1..], Higher(top, c), n);
    }
  }

  lemma {:induction false} RestartItemsInverse(m: State, items: seq<Item>, top: int)
    requires AllRestartable(m.host, items)
    requires DistinctGroups(items) && DistinctPorts(items) && Unused(m, items) && Inverse(m)
    ensures Inverse(RestartItems(m, items, top).m)
    decreases items
  {
    if items != [] {
      var c, rest := items[0], items[1..];
      AllRest(m.host, items);
      RestMembers(items);
      if c.host != "" {
        InitWithPortInverse(m, c.group.value, c.port);
        UnusedRest(m, items);
      }
      RestartItemsInverse(Place(m, c), rest, Higher(top, c));
    }
  }

  /** HotRestart from a fresh mux is the loop and a new port index. */
  lemma RestartIsLoop(m: State, items: seq<Item>) returns (t: State)
    requires m == Fresh(m.host, m.minPort, m.maxPort) && AllRestartable(m.host, items)
    ensures Restart(m, items).1 && Restart(m, items).0 == t
    ensures t == m.(portIndex := Top(items, m.minPort - 1) + 1, listeners := t.listeners, nameByHost := t.nameByHost)
    ensures var end := RestartItems(m, items, m.minPort - 1).m;
            t.listeners == end.listeners && t.nameByHost == end.nameByHost && end.host == m.host
  {
    RestartItemsEnds(m, items, m.minPort - 1);
    RestartItemsFrame(m, items, m.minPort - 1);
    t := RestartItems(m, items, m.minPort - 1).m.(portIndex := Top(items, m.minPort - 1) + 1);
  }

  /** A restart on a fresh mux from distinct resource groups: it succeeds, every endpoint is served by the
      listener of its group, and there is no other listener. */
  lemma RestartRestores(host: string, minPort: int, maxPort: int, items: seq<Item>) returns (t: State)
    requires AllRestartable(host, items)
    requires DistinctGroups(items)
    ensures Restart(Fresh(host, minPort, maxPort), items).1 && Restart(Fresh(host, minPort, maxPort), items).0 == t
    ensures t.host == host && t.minPort == minPort && t.maxPort == maxPort && t.portIndex == Top(items, minPort - 1) + 1
    ensures forall c | c in items && c.host != "" ::
              c.group.Some? && c.group.value in t.listeners && t.listeners[c.group.value] == Listener(c.host, c.port)
    ensures forall n | n in t.listeners :: exists c ::
              c in items && c.host != "" && c.group == Some(n) && t.listeners[n] == Listener(c.host, c.port)
    ensures Restored(t, items) && forall n | n in t.listeners :: exists c | c in items :: ListenerOf(t, n, c)
  {
    var m := Fresh(host, minPort, maxPort);
    t := RestartIsLoop(m, items);
    forall c | c in items && c.host != ""
      ensures c.host == host && c.group.Some? && ListenerOf(t, c.group.value, c)
    {
      var k :| 0 <= k < |items| && items[k] == c;
      RestartItemsRestore(m, items, minPort - 1, k);
    }
    forall n | n in t.listeners
      ensures exists c | c in items :: ListenerOf(t, n, c) && c.host == host
    {
      var c := RestartItemsOnly(m, items, minPort - 1, n);
      assert ListenerOf(t, n, c);
    }
  }

  lemma RestartIsInverse(m: State, items: seq<Item>)
    requires m == Fresh(m.host, m.minPort, m.maxPort) && AllRestartable(m.host, items)
    requires DistinctGroups(items) && DistinctPorts(items)
    ensures Inverse(Restart(m, items).0)
  {
    RestartItemsInverse(m, items, m.minPort - 1);
    var t := RestartIsLoop(m, items);
    InverseFrame(RestartItems(m, items, m.minPort - 1).m, t);
  }

  /** After such a restart the maps are inverse if and only if the ports are distinct. */
  lemma RestartInverse(host: string, minPort: int, maxPort: int, items: seq<Item>)
    requires AllRestartable(host, items)
    requires DistinctGroups(items)
    ensures Inverse(Restart(Fresh(host, minPort, maxPort), items).0) <==> DistinctPorts(items)
  {
    var m := Fresh(host, minPort, maxPort);
    if DistinctPorts(items) {
      RestartIsInverse(m, items);
    }
    if Inverse(Restart(m, items).0) {
      var t := RestartRestores(host, minPort, maxPort, items);
      InverseNeedsPorts(t, items);
    }
  }

  lemma InverseFrame(a: State, b: State)
    requires a.listeners == b.listeners && a.nameByHost == b.nameByHost
    ensures Inverse(a) <==> Inverse(b)
  {
  }

  lemma InverseNeedsPorts(t: State, items: seq<Item>)
    requires Inverse(t) && Restored(t, items) && DistinctGroups(items)
    ensures DistinctPorts(items)
  {
    forall i, j | 0 <= i < j < |items| && items[i].host != "" && items[j].host != ""
      ensures items[i].port != items[j].port
    {
      assert items[i] in items && items[j] in items;
      assert ListenerOf(t, items[i].group.value, items[i]) && ListenerOf(t, items[j].group.value, items[j]);
    }
  }

  /** With distinct ports in range the mux is sound again, and goes on above the highest port. */
  lemma RestartSound(host: string, minPort: int, maxPort: int, items: seq<Item>) returns (t: State)
    requires minPort <= maxPort + 1
    requires AllRestartable(host, items)
    requires DistinctGroups(items) && DistinctPorts(items)
    requires forall c | c in items && c.host != "" :: minPort <= c.port <= maxPort
    ensures Restart(Fresh(host, minPort, maxPort), items).0 == t && Sound(t)
  {
    t := RestartRestores(host, minPort, maxPort, items);
    RestartInverse(host, minPort, maxPort, items);
    forall n | n in t.listeners
      ensures t.listeners[n].host == host && minPort <= t.listeners[n].port < t.portIndex
    {
      var c :| c in items && ListenerOf(t, n, c);
    }
  }

  // ---------------------------------------------------------------- the program

  class WorkloadClustersMux {
    const host: string
    const minPort: int
    const maxPort: int
    var portIndex: int
    var workloadClusterListeners: map<string, Listener>
    var workloadClusterNameByHost: map<string, string>

    constructor (host: string)
      ensures Value() == Fresh(host, 20000, 24000)
    {
      this.host, minPort, maxPort, portIndex := host, MIN_PORT, MAX_PORT, MIN_PORT;
      workloadClusterListeners, workloadClusterNameByHost := map[], map[];
    }

    ghost function Value(): State
      reads this
    {
      State(host, minPort, maxPort, portIndex, workloadClusterListeners, workloadClusterNameByHost)
    }

    method HotRestart(items: seq<Item>) returns (ok: bool)
      modifies this
      ensures (Value(), ok) == Restart(old(Value()), items)
      ensures ok <==> items == [] || (old(workloadClusterListeners) == map[]
                                      && forall c | c in items && c.host != "" :: c.host == host && c.group.Some?)
    {
      RestartSucceedsWhen(Value(), items);
      if |items| == 0 { return true; }
      if |workloadClusterListeners| > 0 { return false; }

      var ports: set<int> := {};
      var top := minPort - 1;
      for i := 0 to |items|
        invariant ports == {} && portIndex == old(portIndex)
        invariant RestartItems(old(Value()), items, minPort - 1) == RestartItems(Value(), items[i..], top)
      {
        var c := items[i];
        assert items[i..][0] == c && items[i..][1..] == items[i + 1..];
        if c.host == "" { continue; }
        if c.host != host { return false; }
        if c.port in ports { return false; }
        if c.group.None? { return false; }
        var _ := InitListenerWithPortLocked(c.group.value, c.port);
        if top < c.port { top := c.port; }
      }
      portIndex := top + 1;
      return true;
    }

    method InitWorkloadClusterListener(name: string) returns (l: Option<Listener>)
      modifies this
      ensures (Value(), l) == Init(old(Value()), name)
    {
      if name in workloadClusterListeners { return Some(workloadClusterListeners[name]); }
      var port := GetFreePortLocked();
      if port.None? { return None; }
      var listener := InitListenerWithPortLocked(name, port.value);
      return Some(listener);
    }

    method InitListenerWithPortLocked(name: string, port: int) returns (l: Listener)
      modifies this`workloadClusterListeners, this`workloadClusterNameByHost
      ensures Value() == InitWithPort(old(Value()), name, port) && l == Listener(host, port)
    {
      l := Listener(host, port);
      workloadClusterListeners := workloadClusterListeners[name := l];
      workloadClusterNameByHost := workloadClusterNameByHost[l.HostPort() := name];
    }

    method GetFreePortLocked() returns (port: Option<int>)
      modifies this`portIndex
      ensures if old(portIndex) > maxPort then port.None? && portIndex == old(portIndex)
              else port == Some(old(portIndex)) && portIndex == old(portIndex) + 1
    {
      if portIndex > maxPort { return None; }
      port := Some(portIndex);
      portIndex := portIndex + 1;
    }
  }
}

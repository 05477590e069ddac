/** The etcd member list and leader, from the pods of a cluster in whatever order they are listed. */
module Etcd {
  import opened Text

  /** An etcd pod: its ID annotations as text, and its leader-from annotation when it parses as a time. */
  datatype Pod = Pod(name: string, clusterID: string, memberID: string, leaderFrom: Option<int>)

  /** Go's zero time, from which the comparison starts; times before it are smaller. */
  const ZERO_TIME := 0

  const TWO_TO_THE_63: int := 0x8000_0000_0000_0000
  const TWO_TO_THE_64: int := 0x1_0000_0000_0000_0000

  /** `strconv.Atoi` with the range of Go's 64-bit int. */
  function ParseID(s: string): Option<int> {
    match Atoi(s)
    case Some(n) => if -TWO_TO_THE_63 <= n < TWO_TO_THE_63 then Some(n) else None
    case None => None
  }

  /** The conversion to uint64 wraps around. */
  function Unsigned(n: int): nat {
    n % TWO_TO_THE_64
  }

  predicate WellFormed(p: Pod) {
    ParseID(p.clusterID).Some? && ParseID(p.memberID).Some?
  }

  function MemberID(p: Pod): int {
    match ParseID(p.memberID)
    case Some(n) => n
    case None => 0
  }

  function ClusterID(p: Pod): int {
    match ParseID(p.clusterID)
    case Some(n) => n
    case None => 0
  }

  function TrimEtcd(name: string): string {
    if "etcd-" <= name then name[5..] else name
  }

  datatype Member = Member(id: nat, name: string)

  function MemberOf(p: Pod): Member {
    Member(Unsigned(MemberID(p)), TrimEtcd(p.name))
  }

  /** An ID is read when it is a number of 64 bits with sign. */
  lemma WellFormedIff(p: Pod)
    ensures WellFormed(p)
       <==> && Atoi(p.clusterID).Some? && -0x8000_0000_0000_0000 <= Atoi(p.clusterID).value < 0x8000_0000_0000_0000
            && Atoi(p.memberID).Some? && -0x8000_0000_0000_0000 <= Atoi(p.memberID).value < 0x8000_0000_0000_0000
  {
  }

  lemma UnsignedIs(n: int)
    requires -0x8000_0000_0000_0000 <= n < 0x8000_0000_0000_0000
    ensures Unsigned(n) == if n < 0 then n + 0x1_0000_0000_0000_0000 else n
  {
  }

  lemma TrimEtcdIs(name: string)
    ensures if "etcd-" <= name then "etcd-" + TrimEtcd(name) == name else TrimEtcd(name) == name
  {
  }

  /** What a pod with the given numbers in its annotations stands for: a negative number wraps around, and the name
      goes without "etcd-". */
  lemma MemberIs(p: Pod, cluster: int, member: int)
    requires p.clusterID == Itoa(cluster) && p.memberID == Itoa(member)
    requires -0x8000_0000_0000_0000 <= cluster < 0x8000_0000_0000_0000
    requires -0x8000_0000_0000_0000 <= member < 0x8000_0000_0000_0000
    ensures WellFormed(p) && ClusterID(p) == cluster && MemberID(p) == member
    ensures MemberOf(p).id == if member < 0 then member + 0x1_0000_0000_0000_0000 else member
    ensures if "etcd-" <= p.name then "etcd-" + MemberOf(p).name == p.name else MemberOf(p).name == p.name
  {
    AtoiOfItoa(cluster);
    AtoiOfItoa(member);
    UnsignedIs(member);
    TrimEtcdIs(p.name);
  }

  /** The pod led from a time after the zero time, and none of the pods leads from a later one. */
  ghost predicate Latest(pods: seq<Pod>, p: Pod) {
    && p in pods && p.leaderFrom.Some? && p.leaderFrom.value > ZERO_TIME
    && forall q | q in pods && q.leaderFrom.Some? :: q.leaderFrom.value <= p.leaderFrom.value
  }

  // ---------------------------------------------------------------- the election

  datatype Election = Election(id: int, from: int)

  function Elect(pods: seq<Pod>): Election {
    if pods == [] then Election(0, ZERO_TIME)
    else
      var before, p := Elect(pods[..|pods| - 1]), pods[|pods| - 1];
      if p.leaderFrom.Some? && p.leaderFrom.value > before.from then Election(MemberID(p), p.leaderFrom.value) else before
  }

  /** The leader is a member with the latest leader-from time; without any, there is none. */
  lemma {:induction false} ElectsLatest(pods: seq<Pod>)
    ensures var e := Elect(pods);
            && e.from >= ZERO_TIME
            && (forall q | q in pods && q.leaderFrom.Some? :: q.leaderFrom.value <= e.from)
            && (e.from == ZERO_TIME ==> e.id == 0)
            && (e.from > ZERO_TIME ==> exists p :: Latest(pods, p) && p.leaderFrom.value == e.from && MemberID(p) == e.id)
  {
    if pods != [] {
      var init, last := pods[..|pods| - 1], pods[|pods| - 1];
      assert pods == init + [last];
      ElectsLatest(init);
      var before := Elect(init);
      if last.leaderFrom.Some? && last.leaderFrom.value > before.from {
        assert Latest(pods, last);
      } else if before.from > ZERO_TIME {
        var p :| Latest(init, p) && p.leaderFrom.value == before.from && MemberID(p) == before.id;
        assert Latest(pods, p);
      }
    }
  }

  /** All members that lead from the latest time have the same ID. */
  ghost predicate OneLatest(pods: seq<Pod>) {
    forall p, q | Latest(pods, p) && Latest(pods, q) :: MemberID(p) == MemberID(q)
  }

  ghost predicate Rearranged(a: seq<Pod>, b: seq<Pod>) {
    multiset(a) == multiset(b)
  }

  lemma RearrangedMembers(a: seq<Pod>, b: seq<Pod>, p: Pod)
    requires Rearranged(a, b)
    ensures p in a <==> p in b
    ensures Latest(a, p) <==> Latest(b, p)
  {
    assert forall q :: q in a <==> q in multiset(a);
    assert forall q :: q in b <==> q in multiset(b);
  }

  lemma OneLatestAgrees(a: seq<Pod>, b: seq<Pod>)
    requires Rearranged(a, b) && OneLatest(a)
    ensures Elect(a).id == Elect(b).id
  {
    ElectsLatest(a);
    ElectsLatest(b);
    assert forall q :: q in a <==> q in multiset(a);
    assert forall q :: q in b <==> q in multiset(b);
    if Elect(a).from > ZERO_TIME {
      var p :| Latest(a, p) && MemberID(p) == Elect(a).id;
      RearrangedMembers(a, b, p);
      var q :| Latest(b, q) && MemberID(q) == Elect(b).id;
      RearrangedMembers(a, b, q);
    }
  }

  /** A latest member that is listed first is elected. */
  lemma {:induction false} FirstLatestWins(p: Pod, rest: seq<Pod>)
    requires Latest([p] + rest, p)
    ensures Elect([p] + rest) == Election(MemberID(p), p.leaderFrom.value)
  {
    var pods := [p] + rest;
    assert pods[0] == p;
    if rest == [] {
      assert pods[..0] == [];
    } else {
      var init := rest[..|rest| - 1];
      assert pods[..|pods| - 1] == [p] + init;
      assert forall q | q in [p] + init :: q in pods;
      FirstLatestWins(p, init);
      assert rest[|rest| - 1] in pods;
    }
  }

  lemma ToFront(pods: seq<Pod>, p: Pod) returns (front: seq<Pod>)
    requires Latest(pods, p)
    ensures Rearranged(pods, front) && Elect(front).id == MemberID(p)
  {
    var i :| 0 <= i < |pods| && pods[i] == p;
    var rest := pods[..i] + pods[i + 1..];
    front := [p] + rest;
    assert pods == pods[..i] + [p] + pods[i + 1..];
    RearrangedMembers(pods, front, p);
    FirstLatestWins(p, rest);
  }

  /** The reported leader does not depend on the order of the pods if and only if the members that lead from the
      latest time have one ID. */
  lemma LeaderIndependentIff(pods: seq<Pod>)
    ensures (forall other | Rearranged(pods, other) :: Elect(other).id == Elect(pods).id) <==> OneLatest(pods)
  {
    if OneLatest(pods) {
      forall other | Rearranged(pods, other) ensures Elect(other).id == Elect(pods).id {
        OneLatestAgrees(pods, other);
      }
    }
    if forall other | Rearranged(pods, other) :: Elect(other).id == Elect(pods).id {
      forall p, q | Latest(pods, p) && Latest(pods, q) ensures MemberID(p) == MemberID(q) {
        var a := ToFront(pods, p);
        var b := ToFront(pods, q);
      }
    }
  }

  /** Distinct leader-from times are enough. */
  lemma DistinctTimesAgree(pods: seq<Pod>)
    requires forall i, j | 0 <= i < j < |pods| && pods[i].leaderFrom.Some? :: pods[i].leaderFrom != pods[j].leaderFrom
    ensures OneLatest(pods)
  {
    forall p, q | Latest(pods, p) && Latest(pods, q) ensures p == q {
      var i :| 0 <= i < |pods| && pods[i] == p;
      var j :| 0 <= j < |pods| && pods[j] == q;
    }
  }

  // ---------------------------------------------------------------- the program

  datatype Header = Header(clusterID: nat, memberID: nat)

  datatype Response =
    | Ok(members: seq<Member>, leader: nat, header: Option<Header>)
    | Malformed(pod: Pod)
    | ListFailed

  /** One member per pod, in the order of the pods. */
  function MembersOf(pods: seq<Pod>): (ms: seq<Member>)
    ensures |ms| == |pods| && forall i | 0 <= i < |ms| :: ms[i] == MemberOf(pods[i])
  {
    seq(|pods|, i requires 0 <= i < |pods| => MemberOf(pods[i]))
  }

  /** The header comes from the last pod of the asked name. */
  function HeaderOf(pods: seq<Pod>, etcdMember: string): Option<Header> {
    if pods == [] then None
    else
      var p := pods[|pods| - 1];
      if p.name == etcdMember then Some(Header(Unsigned(ClusterID(p)), Unsigned(MemberID(p))))
      else HeaderOf(pods[..|pods| - 1], etcdMember)
  }

  lemma {:induction false} HeaderWhen(pods: seq<Pod>, etcdMember: string)
    ensures HeaderOf(pods, etcdMember).Some? <==> exists p | p in pods :: p.name == etcdMember
  {
    if pods != [] {
      assert pods == pods[..|pods| - 1] + [pods[|pods| - 1]];
      HeaderWhen(pods[..|pods| - 1], etcdMember);
    }
  }

  /** The header carries the IDs of the last pod of the asked name. */
  lemma {:induction false} HeaderIs(pods: seq<Pod>, etcdMember: string, k: nat)
    requires k < |pods| && pods[k].name == etcdMember
    requires forall i | k < i < |pods| :: pods[i].name != etcdMember
    ensures HeaderOf(pods, etcdMember) == Some(Header(Unsigned(ClusterID(pods[k])), Unsigned(MemberID(pods[k]))))
  {
    if k < |pods| - 1 { HeaderIs(pods[..|pods| - 1], etcdMember, k); }
  }

  const SYSTEM := "kube-system"
  const ETCD_LABELS := map["component" := "etcd", "tier" := "control-plane"]

  /** What the inspection of some pods says: a failure exactly when an ID does not parse; otherwise the members, the
      elected leader, and the header of the asked name's last pod, present exactly when there is such a pod. */
  ghost predicate Inspects(pods: seq<Pod>, etcdMember: string, r: Response) {
    && !r.ListFailed?
    && (r.Ok? <==> forall p | p in pods :: WellFormed(p))
    && (r.Malformed? ==> r.pod in pods && !WellFormed(r.pod))
    && (r.Ok? ==>
          && r.members == MembersOf(pods) && r.leader == Unsigned(Elect(pods).id)
          && r.header == HeaderOf(pods, etcdMember)
          && (r.header.Some? <==> exists p | p in pods :: p.name == etcdMember))
  }

  /** `list` is the cloud client's List, by namespace and labels. */
  method InspectEtcd(list: (string, map<string, string>) -> Option<seq<Pod>>, etcdMember: string) returns (r: Response)
    ensures match list(SYSTEM, ETCD_LABELS)
            case None => r == ListFailed
            case Some(pods) => Inspects(pods, etcdMember, r)
  {
    var etcdPods := list(SYSTEM, ETCD_LABELS);
    if etcdPods.None? { return ListFailed; }
    r := InspectPods(etcdPods.value, etcdMember);
  }

  /** The loop over the pods. */
  method InspectPods(pods: seq<Pod>, etcdMember: string) returns (r: Response)
    ensures Inspects(pods, etcdMember, r)
  {
    var members: seq<Member> := [];
    var header: Option<Header> := None;
    var leaderID, leaderFrom := 0, ZERO_TIME;
    for i := 0 to |pods|
      invariant forall j | 0 <= j < i :: WellFormed(pods[j])
      invariant |members| == i && forall j | 0 <= j < i :: members[j] == MemberOf(pods[j])
      invariant Elect(pods[..i]) == Election(leaderID, leaderFrom)
      invariant header == HeaderOf(pods[..i], etcdMember)
    {
      var pod := pods[i];
      assert pods[..i + 1][..i] == pods[..i];
      var clusterID := ParseID(pod.clusterID);
      assert pod in pods;
      if clusterID.None? { return Malformed(pod); }
      var memberID := ParseID(pod.memberID);
      if memberID.None? { return Malformed(pod); }
      if pod.leaderFrom.Some? && pod.leaderFrom.value > leaderFrom {
        leaderID, leaderFrom := memberID.value, pod.leaderFrom.value;
      }
      if pod.name == etcdMember {
        header := Some(Header(Unsigned(clusterID.value), Unsigned(memberID.value)));
      }
      members := members + [Member(Unsigned(memberID.value), TrimEtcd(pod.name))];
    }
    assert pods[..|pods|] == pods;
    HeaderWhen(pods, etcdMember);
    r := Ok(members, Unsigned(leaderID), header);
  }

  /** The answer to the order of the pods: the same failure or success, the members rearranged, and the same leader
      when the latest members have one ID. */
  lemma OrderOfPods(a: seq<Pod>, b: seq<Pod>)
    requires Rearranged(a, b)
    ensures (forall p | p in a :: WellFormed(p)) <==> (forall p | p in b :: WellFormed(p))
    ensures multiset(MembersOf(a)) == multiset(MembersOf(b))
    ensures OneLatest(a) ==> Unsigned(Elect(a).id) == Unsigned(Elect(b).id)
  {
    assert forall q :: q in a <==> q in multiset(a);
    assert forall q :: q in b <==> q in multiset(b);
    MembersRearranged(a, b);
    if OneLatest(a) { OneLatestAgrees(a, b); }
  }

  lemma WithoutOne(p: Pod, rest: seq<Pod>, x: seq<Pod>, y: seq<Pod>)
    requires Rearranged([p] + rest, x + [p] + y)
    ensures Rearranged(rest, x + y)
  {
    assert multiset([p] + rest) == multiset{p} + multiset(rest);
    assert multiset(x + [p] + y) == multiset{p} + multiset(x + y);
    assert multiset(rest) == multiset([p] + rest) - multiset{p};
  }

  lemma MembersConcat(x: seq<Pod>, y: seq<Pod>)
    ensures MembersOf(x + y) == MembersOf(x) + MembersOf(y)
  {
  }

  lemma MembersSplit(x: seq<Pod>, p: Pod, y: seq<Pod>)
    ensures multiset(MembersOf(x + [p] + y)) == multiset(MembersOf(x + y)) + multiset{MemberOf(p)}
  {
    MembersConcat(x + [p], y);
    MembersConcat(x, [p]);
    MembersConcat(x, y);
    assert MembersOf([p]) == [MemberOf(p)];
  }

  lemma MembersStep(p: Pod, rest: seq<Pod>, x: seq<Pod>, y: seq<Pod>)
    requires multiset(MembersOf(rest)) == multiset(MembersOf(x + y))
    ensures multiset(MembersOf([p] + rest)) == multiset(MembersOf(x + [p] + y))
  {
    MembersSplit([], p, rest);
    MembersSplit(x, p, y);
    assert [] + [p] + rest == [p] + rest && [] + rest == rest;
  }

  lemma Find(b: seq<Pod>, p: Pod) returns (x: seq<Pod>, y: seq<Pod>)
    requires p in multiset(b)
    ensures b == x + [p] + y
  {
    var i :| 0 <= i < |b| && b[i] == p;
    x, y := b[..i], b[i + 1..];
  }

  lemma {:induction false} MembersRearranged(a: seq<Pod>, b: seq<Pod>)
    requires Rearranged(a, b)
    ensures multiset(MembersOf(a)) == multiset(MembersOf(b))
    decreases a
  {
    if a == [] {
      assert |multiset(a)| == |multiset(b)|;
    } else {
      var p, rest := a[0], a[1..];
      assert a == [p] + rest;
      assert p in multiset(b) by { assert p in multiset(a); }
      var x, y := Find(b, p);
      WithoutOne(p, rest, x, y);
      MembersRearranged(rest, x + y);
      MembersStep(p, rest, x, y);
    }
  }
}

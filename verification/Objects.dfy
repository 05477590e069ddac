/** The API objects that a resource group stores, and the references between them. */
module Objects {
  import opened Text

  datatype Gvk = Gvk(group: string, version: string, kind: string)

  datatype Key = Key(namespace: string, name: string)

  /** Identifies one object of a resource group: the program's `ownReference`. */
  datatype Ref = Ref(gvk: Gvk, key: Key)

  /** A pointer to a boolean: what it points to, and where that is. */
  datatype Pointer = Nil | To(value: bool, at: int)

  /** An owner reference as written in an object's metadata. Equality is Go's `==` on the structure: two references
      with equal fields behind different pointers differ. */
  datatype OwnerRef = OwnerRef(
    apiVersion: string,
    kind: string,
    name: string,
    uid: string,
    controller: Pointer,
    blockOwnerDeletion: Pointer)

  datatype Error = BadRequest | NotFound | AlreadyExists | Conflict | Internal

  /** `creation` and `deletion` are in nanoseconds; `lastSync` is the last-sync annotation, in whole
      seconds; `payload` stands for labels, other annotations, spec and status. */
  datatype Obj = Obj(
    gvk: Gvk,
    key: Key,
    owners: seq<OwnerRef>,
    finalizers: seq<string>,
    deletion: Option<int>,
    creation: int,
    version: string,
    lastSync: Option<int>,
    payload: string)
  {
    function Id(): Ref { Ref.Ref(gvk, key) }
  }

  // ---------------------------------------------------------------- owner references

  function Slashes(s: string): nat {
    if s == [] then 0 else (if s[0] == '/' then 1 else 0) + Slashes(s[1..])
  }

  function FirstSlash(s: string): (i: nat)
    requires Slashes(s) > 0
    ensures i < |s| && s[i] == '/'
  {
    if s[0] == '/' then 0 else 1 + FirstSlash(s[1..])
  }

  /** `schema.ParseGroupVersion`: the group and version that an apiVersion names. */
  function ParseGroupVersion(s: string): Option<(string, string)> {
    if s == "" || s == "/" then Some(("", ""))
    else if Slashes(s) == 0 then Some(("", s))
    else if Slashes(s) == 1 then Some((s[..FirstSlash(s)], s[FirstSlash(s) + 1..]))
    else None
  }

  /** The object an owner reference names: owners live in the namespace of the owned object. */
  function OwnerOf(namespace: string, o: OwnerRef): Option<Ref> {
    match ParseGroupVersion(o.apiVersion)
    case Some(gv) => Some(Ref(Gvk(gv.0, gv.1, o.kind), Key(namespace, o.name)))
    case None => None
  }

  /** Some reference in `a` names `r`. */
  ghost predicate Names(namespace: string, a: seq<OwnerRef>, r: Ref) {
    exists o | o in a :: OwnerOf(namespace, o) == Some(r)
  }

  ghost predicate ListsOwner(obj: Obj, r: Ref) {
    Names(obj.key.namespace, obj.owners, r)
  }

  // ---------------------------------------------------------------- resource versions

  function VersionOf(n: nat): string {
    "v" + Decimal(n)
  }

  /** The number behind a resource version; text that does not parse counts as 0. */
  function VersionNumber(v: string): int {
    match Atoi(if "v" <= v then v[1..] else v)
    case Some(n) => n
    case None => 0
  }

  /** "v" followed by a decimal of at least 1 that parses back. */
  predicate WellVersioned(v: string) {
    VersionNumber(v) >= 1 && v == VersionOf(VersionNumber(v))
  }

  function Bump(v: string): string {
    "v" + Itoa(VersionNumber(v) + 1)
  }

  lemma VersionParses(n: nat)
    ensures VersionNumber(VersionOf(n)) == n
  {
    AtoiOfItoa(n);
    assert VersionOf(n)[1..] == Decimal(n);
  }

  /** A bump raises the number by one and keeps the format. */
  lemma BumpRaises(v: string)
    requires VersionNumber(v) >= 0
    ensures WellVersioned(Bump(v)) && VersionNumber(Bump(v)) == VersionNumber(v) + 1
  {
    VersionParses(VersionNumber(v) + 1);
  }

  // ---------------------------------------------------------------- managed fields

  const SECOND: int := 1_000_000_000

  /** A time in nanoseconds as RFC 3339 (section 5.6) with no fraction shows it. */
  function Stamp(now: int): int {
    now / SECOND
  }

  function Pointee(p: Pointer): Pointer {
    if p.Nil? then Nil else To(p.value, 0)
  }

  function FollowedRef(o: OwnerRef): OwnerRef {
    o.(controller := Pointee(o.controller), blockOwnerDeletion := Pointee(o.blockOwnerDeletion))
  }

  /** The object with every pointer followed. */
  function Followed(obj: Obj): Obj {
    obj.(owners := seq(|obj.owners|, i requires 0 <= i < |obj.owners| => FollowedRef(obj.owners[i])))
  }

  /** `reflect.DeepEqual`: it follows pointers. */
  predicate DeepEqual(a: Obj, b: Obj) {
    Followed(a) == Followed(b)
  }

  /** What `DeepEqual` leaves free are the pointers in owner references. */
  lemma DeepEqualFields(a: Obj, b: Obj)
    requires DeepEqual(a, b)
    ensures a.Id() == b.Id() && a.finalizers == b.finalizers && a.deletion == b.deletion && a.creation == b.creation
    ensures a.version == b.version && a.lastSync == b.lastSync && a.payload == b.payload
    ensures |a.owners| == |b.owners| && forall i | 0 <= i < |a.owners| :: FollowedRef(a.owners[i]) == FollowedRef(b.owners[i])
  {
    forall i | 0 <= i < |a.owners|
      ensures |a.owners| == |b.owners| && FollowedRef(a.owners[i]) == FollowedRef(b.owners[i])
    {
      assert Followed(a).owners[i] == FollowedRef(a.owners[i]);
      assert Followed(b).owners[i] == FollowedRef(b.owners[i]);
    }
  }

  function BeforeCreate(obj: Obj, now: int): Obj {
    obj.(creation := now, lastSync := Some(Stamp(now)), version := VersionOf(1))
  }

  /** Managed fields keep their tracked values; only an effective change gets a new version and a new
      last-sync time. */
  function BeforeUpdate(was: Obj, obj: Obj, now: int): Obj {
    var kept := obj.(
      creation := was.creation,
      version := was.version,
      lastSync := was.lastSync,
      deletion := if was.deletion.Some? then was.deletion else obj.deletion);
    if !DeepEqual(kept, was) then kept.(lastSync := Some(Stamp(now)), version := Bump(was.version)) else kept
  }

  /** The object that deletion leaves behind when finalizers keep it. */
  function Mark(obj: Obj, now: int): Obj {
    BeforeUpdate(obj, obj.(deletion := Some(now)), now).(deletion := Some(now))
  }

  /** Deeply equal in everything but the last-sync annotation. */
  predicate SameContent(a: Obj, b: Obj) {
    DeepEqual(a.(lastSync := None), b.(lastSync := None))
  }

  // ---------------------------------------------------------------- the same in plain fields

  lemma {:induction false} NoSlash(s: string)
    ensures Slashes(s) == 0 <==> '/' !in s
  {
    if s != [] {
      assert s == [s[0]] + s[1..];
      NoSlash(s[1..]);
    }
  }

  lemma {:induction false} OneSlash(g: string, v: string)
    requires '/' !in g
    ensures Slashes(g + "/" + v) == 1 + Slashes(v) && FirstSlash(g + "/" + v) == |g|
  {
    var s := g + "/" + v;
    if g == "" {
      assert s[0] == '/' && s[1..] == v;
    } else {
      assert s[0] == g[0] && s[1..] == g[1..] + "/" + v;
      OneSlash(g[1..], v);
    }
  }

  /** An apiVersion is a version, or a group and a version with one slash between them; nothing else parses. */
  lemma GroupVersionIs(s: string, g: string, v: string)
    ensures ParseGroupVersion(s) == Some((g, v)) <==>
              '/' !in g && '/' !in v && (s == g + "/" + v || (g == "" && s == v))
  {
    NoSlash(s);
    if '/' !in g && '/' !in v && s == g + "/" + v {
      NoSlash(v);
      OneSlash(g, v);
      assert s[..|g|] == g && s[|g| + 1..] == v;
    }
    if ParseGroupVersion(s) == Some((g, v)) && Slashes(s) == 1 && s != "/" {
      var i := FirstSlash(s);
      assert s == g + "/" + v;
      BeforeFirstSlash(s);
      OneSlash(g, v);
      NoSlash(v);
    }
  }

  lemma {:induction false} BeforeFirstSlash(s: string)
    requires Slashes(s) > 0
    ensures '/' !in s[..FirstSlash(s)]
  {
    if s[0] != '/' {
      BeforeFirstSlash(s[1..]);
      assert s[..FirstSlash(s)] == [s[0]] + s[1..][..FirstSlash(s[1..])];
    }
  }

  /** The object that an owner reference names. */
  lemma OwnerOfIs(namespace: string, o: OwnerRef, r: Ref)
    ensures OwnerOf(namespace, o) == Some(r) <==>
              && r.key.namespace == namespace && r.key.name == o.name && r.gvk.kind == o.kind
              && '/' !in r.gvk.group && '/' !in r.gvk.version
              && (o.apiVersion == r.gvk.group + "/" + r.gvk.version
                  || (r.gvk.group == "" && o.apiVersion == r.gvk.version))
  {
    GroupVersionIs(o.apiVersion, r.gvk.group, r.gvk.version);
  }

  lemma VersionExamples()
    ensures VersionOf(1) == "v1" && VersionNumber("v1") == 1 && Bump("v9") == "v10" && VersionNumber("x") == 0
  {
    VersionParses(1);
    VersionParses(9);
    assert "v1"[1..] == "1" && "v9"[1..] == "9";
    assert VersionOf(9) == "v9" && Decimal(10) == "10";
  }

  /** Stamps are the time cut off to whole seconds. */
  lemma StampCutsOff(now: int)
    ensures Stamp(now) * 1_000_000_000 <= now < Stamp(now) * 1_000_000_000 + 1_000_000_000
  {
  }

  /** Two objects are deeply equal if and only if all their fields agree, those of owner references field by field,
      their pointers in whether they are nil and in what they point to. */
  lemma DeepEqualIff(a: Obj, b: Obj)
    ensures DeepEqual(a, b) <==>
              && a.gvk == b.gvk && a.key == b.key && a.finalizers == b.finalizers && a.deletion == b.deletion
              && a.creation == b.creation && a.version == b.version && a.lastSync == b.lastSync
              && a.payload == b.payload
              && |a.owners| == |b.owners|
              && forall i | 0 <= i < |a.owners| ::
                   var o, p := a.owners[i], b.owners[i];
                   && o.apiVersion == p.apiVersion && o.kind == p.kind && o.name == p.name && o.uid == p.uid
                   && (o.controller == Nil <==> p.controller == Nil)
                   && (o.controller != Nil ==> o.controller.value == p.controller.value)
                   && (o.blockOwnerDeletion == Nil <==> p.blockOwnerDeletion == Nil)
                   && (o.blockOwnerDeletion != Nil ==> o.blockOwnerDeletion.value == p.blockOwnerDeletion.value)
  {
    if DeepEqual(a, b) {
      DeepEqualFields(a, b);
      forall i | 0 <= i < |a.owners| ensures FollowedRef(a.owners[i]) == FollowedRef(b.owners[i]) {}
    }
    if |a.owners| == |b.owners|
       && forall i | 0 <= i < |a.owners| :: FollowedRef(a.owners[i]) == FollowedRef(b.owners[i]) {
      assert Followed(a).owners == Followed(b).owners;
    }
  }

  lemma SameContentIff(a: Obj, b: Obj)
    ensures SameContent(a, b) <==> DeepEqual(a, b.(lastSync := a.lastSync))
  {
    DeepEqualIff(a.(lastSync := None), b.(lastSync := None));
    DeepEqualIff(a, b.(lastSync := a.lastSync));
  }
}

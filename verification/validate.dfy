/** Validation of a topology (internal/domain/topology.go): the findings each
    rule must report, and the loops that report them. */
module Validation {
  import opened Text
  import opened Roles
  import opened Catalogues
  import opened Topologies

  const SCHEMA := 2
  const PROVIDERS: seq<string> := ["libkrun", "applehv"]

  datatype Finding =
    | OldSchema
    | BadSchema
    | BadProvider
    | BadCpus
    | BadMemory
    | BadDisk
    | BadVolume(index: nat)
    | UnknownZone(zone: string)
    | BadWorkloadName(zone: string, workload: string)
    | RepeatedWorkload(zone: string, workload: string, first: string)
    | MissingFiles(zone: string, workload: string, files: seq<string>)
    | ForeignBridge(zone: string, workload: string)
    | InternalBridge(zone: string, workload: string)
    | UnknownTarget(zone: string, workload: string, target: string)
    | OwnTarget(zone: string, workload: string)
    | RepeatedTarget(zone: string, workload: string, target: string)
    | MissingZone(role: Role)
    | RepeatedZone(role: Role, times: nat)
    | UnreachableZone(zone: string)
    | BadSecret(finding: SecretFinding)

  // ---- Rules --------------------------------------------------------------

  predicate WorkloadChar(c: char) {
    'a' <= c <= 'z' || '0' <= c <= '9'
  }

  /** Lowercase letters, digits and hyphens, not starting with a hyphen. */
  predicate ValidWorkloadName(s: string) {
    s != [] && WorkloadChar(s[0]) && forall c :: c in s ==> WorkloadChar(c) || c == '-'
  }

  predicate Absolute(path: string) {
    path != [] && path[0] == '/'
  }

  function FirstColon(v: string): Option<nat> {
    if v == [] then None
    else if v[0] == ':' then Some(0)
    else match FirstColon(v[1..])
      case None => None
      case Some(i) => Some(i + 1)
  }

  /** Two absolute paths joined by a colon. */
  predicate ValidVolume(v: string) {
    match FirstColon(v)
    case None => false
    case Some(i) => i < |v| && Absolute(v[..i]) && Absolute(v[i + 1..])
  }

  predicate HasFiles(w: string, files: set<string>) {
    forall f :: f in RequiredFiles(w) ==> f in files
  }

  ghost predicate GoodMachine(m: MachineSpec) {
    m.cpus > 0 && m.memoryMiB > 0 && m.diskGiB > 0 && forall v :: v in m.volumes ==> ValidVolume(v)
  }

  /** `r` names zone `i` and no other. */
  ghost predicate OnlyZone(zones: seq<ZoneSpec>, i: nat, r: Role) {
    i < |zones| && zones[i].name == r.Name() && forall j :: 0 <= j < |zones| && j != i ==> zones[j].name != r.Name()
  }

  ghost predicate NamedOnce(zones: seq<ZoneSpec>, r: Role) {
    exists i: nat :: OnlyZone(zones, i, r)
  }

  ghost predicate GoodBridges(z: ZoneSpec) {
    forall w :: w in z.bridges ==> w in z.workloads && !z.internal && GoodTargets(z, w)
  }

  ghost predicate BridgesInto(z: ZoneSpec, target: string) {
    exists w :: w in z.bridges && target in z.bridges[w]
  }

  /** Workloads of zone `i`: good names, their three files, none listed before. */
  ghost predicate GoodWorkloads(zones: seq<ZoneSpec>, i: nat, files: set<string>)
    requires i < |zones|
  {
    && (forall w :: w in zones[i].workloads ==> ValidWorkloadName(w) && HasFiles(w, files))
    && Distinct(zones[i].workloads)
    && (forall j, w :: 0 <= j < i && w in zones[i].workloads ==> w !in zones[j].workloads)
  }

  ghost predicate GoodSecrets(z: ZoneSpec) {
    (forall n :: n in z.secrets ==> Declarable(BUILTIN, n)) && Distinct(z.secrets)
  }

  /** The single-machine design's rules, stated without reference to any loop. */
  ghost predicate WellFormed(t: Topology, files: set<string>) {
    && t.schema == SCHEMA && t.provider in PROVIDERS && GoodMachine(t.machine)
    && (forall z :: z in t.zones ==> IsRole(z.name))
    && (forall r: Role :: NamedOnce(t.zones, r))
    && (forall i :: 0 <= i < |t.zones| ==> GoodWorkloads(t.zones, i, files))
    && (forall z :: z in t.zones ==> GoodBridges(z))
    && (forall z :: z in t.zones ==> GoodSecrets(z))
    && (forall z :: z in t.zones && z.internal ==> exists y :: y in t.zones && BridgesInto(y, z.name))
  }

  // ---- The findings, by position ------------------------------------------

  function Single(c: bool, f: Finding): seq<Finding> {
    if c then [f] else []
  }

  function HeadFindings(t: Topology): seq<Finding> {
    (if t.schema == 1 then [OldSchema] else if t.schema != SCHEMA then [BadSchema] else [])
    + Single(t.provider !in PROVIDERS, BadProvider)
    + Single(t.machine.cpus <= 0, BadCpus)
    + Single(t.machine.memoryMiB <= 0, BadMemory)
    + Single(t.machine.diskGiB <= 0, BadDisk)
  }

  function VolumeFindings(volumes: seq<string>, n: nat): seq<Finding>
    requires n <= |volumes|
  {
    if n == 0 then [] else VolumeFindings(volumes, n - 1) + Single(!ValidVolume(volumes[n - 1]), BadVolume(n - 1))
  }

  /** The zone that lists `w` first, among the first `n` zones and the first
      `k` workloads of the next one. */
  function FirstZone(zones: seq<ZoneSpec>, n: nat, w: string): Option<string>
    requires n <= |zones|
  {
    if n == 0 then None
    else match FirstZone(zones, n - 1, w)
      case Some(z) => Some(z)
      case None => if w in zones[n - 1].workloads then Some(zones[n - 1].name) else None
  }

  function FirstListed(zones: seq<ZoneSpec>, n: nat, k: nat, w: string): Option<string>
    requires n < |zones| && k <= |zones[n].workloads|
  {
    match FirstZone(zones, n, w)
    case Some(z) => Some(z)
    case None => if w in zones[n].workloads[..k] then Some(zones[n].name) else None
  }

  function Absent(names: seq<string>, files: set<string>): seq<string> {
    if names == [] then []
    else Absent(names[..|names| - 1], files) + if names[|names| - 1] in files then [] else [names[|names| - 1]]
  }

  function WorkloadFinding(zones: seq<ZoneSpec>, n: nat, k: nat, files: set<string>): seq<Finding>
    requires n < |zones| && k < |zones[n].workloads|
  {
    var w := zones[n].workloads[k];
    if !ValidWorkloadName(w) then [BadWorkloadName(zones[n].name, w)]
    else match FirstListed(zones, n, k, w)
      case Some(first) => [RepeatedWorkload(zones[n].name, w, first)]
      case None =>
        var missing := Absent(RequiredFiles(w), files);
        Single(missing != [], MissingFiles(zones[n].name, w, missing))
  }

  function WorkloadFindings(zones: seq<ZoneSpec>, n: nat, k: nat, files: set<string>): seq<Finding>
    requires n < |zones| && k <= |zones[n].workloads|
  {
    if k == 0 then [] else WorkloadFindings(zones, n, k - 1, files) + WorkloadFinding(zones, n, k - 1, files)
  }

  /** Is `w` an accepted workload of zone `n`? */
  predicate Owns(zones: seq<ZoneSpec>, n: nat, w: string)
    requires n < |zones|
  {
    w in zones[n].workloads && ValidWorkloadName(w) && FirstZone(zones, n, w).None?
  }

  function TargetFinding(z: ZoneSpec, w: string, targets: seq<string>, k: nat): seq<Finding>
    requires k < |targets|
  {
    if !IsRole(targets[k]) then [UnknownTarget(z.name, w, targets[k])]
    else if targets[k] == z.name then [OwnTarget(z.name, w)]
    else Single(targets[k] in targets[..k], RepeatedTarget(z.name, w, targets[k]))
  }

  function TargetFindings(z: ZoneSpec, w: string, targets: seq<string>, k: nat): seq<Finding>
    requires k <= |targets|
  {
    if k == 0 then [] else TargetFindings(z, w, targets, k - 1) + TargetFinding(z, w, targets, k - 1)
  }

  function BridgeFinding(zones: seq<ZoneSpec>, n: nat, w: string): seq<Finding>
    requires n < |zones| && w in zones[n].bridges
  {
    var z := zones[n];
    if !Owns(zones, n, w) then [ForeignBridge(z.name, w)]
    else if z.internal then [InternalBridge(z.name, w)]
    else TargetFindings(z, w, z.bridges[w], |z.bridges[w]|)
  }

  function BridgeFindings(zones: seq<ZoneSpec>, n: nat, names: seq<string>, k: nat): seq<Finding>
    requires n < |zones| && k <= |names|
    requires forall w :: w in names ==> w in zones[n].bridges
  {
    if k == 0 then [] else BridgeFindings(zones, n, names, k - 1) + BridgeFinding(zones, n, names[k - 1])
  }

  /** The ascending listing of a set of names. */
  ghost function Listing(names: set<string>): (xs: seq<string>)
    ensures forall x :: x in xs <==> x in names
  {
    if names == {} then []
    else
      var x :| x in names;
      var xs := Insert(x, Listing(names - {x}), AtMost);
      assert forall y :: y in xs <==> y in multiset(xs);
      xs
  }

  ghost function ZoneFindings(zones: seq<ZoneSpec>, n: nat, files: set<string>): seq<Finding>
    requires n < |zones|
  {
    var names := Listing(zones[n].bridges.Keys);
    Single(!IsRole(zones[n].name), UnknownZone(zones[n].name))
    + WorkloadFindings(zones, n, |zones[n].workloads|, files)
    + BridgeFindings(zones, n, names, |names|)
  }

  ghost function ZonesFindings(zones: seq<ZoneSpec>, n: nat, files: set<string>): seq<Finding>
    requires n <= |zones|
  {
    if n == 0 then [] else ZonesFindings(zones, n - 1, files) + ZoneFindings(zones, n - 1, files)
  }

  /** The bridge of workload `w` of zone `n` is accepted and reaches `target`. */
  ghost predicate ReachedThrough(zones: seq<ZoneSpec>, n: nat, w: string, target: string)
    requires n < |zones| && w in zones[n].bridges
  {
    Owns(zones, n, w) && !zones[n].internal && target in zones[n].bridges[w] && IsRole(target) &&
      target != zones[n].name
  }

  /** A target that some accepted bridge of the first `n` zones reaches. */
  ghost predicate Reaches(zones: seq<ZoneSpec>, n: nat, target: string)
    requires n <= |zones|
  {
    exists i, w :: 0 <= i < n && w in zones[i].bridges && ReachedThrough(zones, i, w, target)
  }

  function CountOf(zones: seq<ZoneSpec>, n: nat, name: string): nat
    requires n <= |zones|
  {
    if n == 0 then 0 else CountOf(zones, n - 1, name) + if zones[n - 1].name == name then 1 else 0
  }

  function CountFinding(zones: seq<ZoneSpec>, r: Role): seq<Finding> {
    var times := CountOf(zones, |zones|, r.Name());
    Single(times == 0, MissingZone(r)) + Single(times > 1, RepeatedZone(r, times))
  }

  function CountFindings(zones: seq<ZoneSpec>, n: nat): seq<Finding>
    requires n <= |ALL|
  {
    if n == 0 then [] else CountFindings(zones, n - 1) + CountFinding(zones, ALL[n - 1])
  }

  ghost predicate Unreachable(zones: seq<ZoneSpec>, i: nat)
    requires i < |zones|
  {
    zones[i].internal && IsRole(zones[i].name) && CountOf(zones, |zones|, zones[i].name) == 1
    && !Reaches(zones, |zones|, zones[i].name)
  }

  ghost function ReachFindings(zones: seq<ZoneSpec>, n: nat): seq<Finding>
    requires n <= |zones|
  {
    if n == 0 then []
    else ReachFindings(zones, n - 1) + if Unreachable(zones, n - 1) then [UnreachableZone(zones[n - 1].name)] else []
  }

  function Wrapped(fs: seq<SecretFinding>): seq<Finding> {
    if fs == [] then [] else Wrapped(fs[..|fs| - 1]) + [BadSecret(fs[|fs| - 1])]
  }

  /** Everything wrong with a topology, in file order. */
  ghost function Everything(t: Topology, files: set<string>): seq<Finding> {
    HeadFindings(t)
    + VolumeFindings(t.machine.volumes, |t.machine.volumes|)
    + ZonesFindings(t.zones, |t.zones|, files)
    + CountFindings(t.zones, |ALL|)
    + ReachFindings(t.zones, |t.zones|)
    + Wrapped(Catalogues.Findings(BUILTIN, Declared(t.zones, |t.zones|), |ALL|))
  }

  // ---- The loops ----------------------------------------------------------

  lemma InsertAscends(x: string, xs: seq<string>)
    requires Ascending(xs) && x !in xs
    ensures Ascending(Insert(x, xs, AtMost))
  {
    AtMostIsTotalPreorder();
    InsertSorts(x, xs, AtMost);
    assert Distinct([x] + xs) by {
      forall i, j | 0 <= i < j < |[x] + xs| ensures ([x] + xs)[i] != ([x] + xs)[j] {
        assert xs[j - 1] in xs;
      }
    }
    assert multiset([x] + xs) == multiset(Insert(x, xs, AtMost));
    PermutationKeepsDistinct([x] + xs, Insert(x, xs, AtMost));
  }

  lemma {:induction false} ListingAscends(names: set<string>)
    ensures Ascending(Listing(names))
  {
    if names != {} {
      var x :| x in names && Listing(names) == Insert(x, Listing(names - {x}), AtMost);
      ListingAscends(names - {x});
      InsertAscends(x, Listing(names - {x}));
    }
  }

  /** Ranging over a Go map yields its keys in any order; sorting them leaves
      one sequence, so the findings do not depend on that order. */
  method SortedKeys(m: map<string, seq<string>>) returns (names: seq<string>)
    ensures names == Listing(m.Keys)
  {
    var pending := m.Keys;
    names := [];
    while pending != {}
      invariant pending <= m.Keys
      invariant forall x :: x in names <==> x in m.Keys - pending
      invariant Distinct(names)
      decreases |pending|
    {
      var x :| x in pending;
      assert x !in names;
      names := names + [x];
      pending := pending - {x};
    }
    AtMostIsTotalPreorder();
    ghost var unsorted := names;
    names := SortSlice(names, AtMost);
    PermutationKeepsDistinct(unsorted, names);
    ListingAscends(m.Keys);
    AscendingUnique(names, Listing(m.Keys));
  }

  method AddIf(out0: seq<Finding>, c: bool, f: Finding) returns (out: seq<Finding>)
    ensures out == out0 + Single(c, f)
  {
    out := out0;
    if c { out := out + [f]; }
  }

  method CheckHead(t: Topology) returns (out: seq<Finding>)
    ensures out == HeadFindings(t)
  {
    out := [];
    if t.schema == 1 {
      out := [OldSchema];
    } else if t.schema != SCHEMA {
      out := [BadSchema];
    }
    out := AddIf(out, t.provider !in PROVIDERS, BadProvider);
    out := AddIf(out, t.machine.cpus <= 0, BadCpus);
    out := AddIf(out, t.machine.memoryMiB <= 0, BadMemory);
    out := AddIf(out, t.machine.diskGiB <= 0, BadDisk);
  }

  method CheckVolumes(volumes: seq<string>) returns (out: seq<Finding>)
    ensures out == VolumeFindings(volumes, |volumes|)
  {
    out := [];
    for i := 0 to |volumes|
      invariant out == VolumeFindings(volumes, i)
    {
      if !ValidVolume(volumes[i]) {
        out := out + [BadVolume(i)];
      }
    }
  }

  /** `seen` remembers, per accepted workload, the zone that listed it first. */
  ghost predicate Seen(zones: seq<ZoneSpec>, n: nat, k: nat, seen: map<string, string>)
    requires n < |zones| && k <= |zones[n].workloads|
  {
    && (forall w :: w in seen <==> ValidWorkloadName(w) && FirstListed(zones, n, k, w).Some?)
    && (forall w :: w in seen ==> FirstListed(zones, n, k, w) == Some(seen[w]))
  }

  ghost predicate SeenZones(zones: seq<ZoneSpec>, n: nat, seen: map<string, string>)
    requires n <= |zones|
  {
    && (forall w :: w in seen <==> ValidWorkloadName(w) && FirstZone(zones, n, w).Some?)
    && (forall w :: w in seen ==> FirstZone(zones, n, w) == Some(seen[w]))
  }

  method CheckWorkload(zones: seq<ZoneSpec>, n: nat, k: nat, files: set<string>, seen0: map<string, string>,
      own0: set<string>)
    returns (out: seq<Finding>, seen: map<string, string>, own: set<string>)
    requires n < |zones| && k < |zones[n].workloads|
    requires Seen(zones, n, k, seen0)
    requires forall w :: w in own0 <==>
      w in zones[n].workloads[..k] && ValidWorkloadName(w) && FirstZone(zones, n, w).None?
    ensures Seen(zones, n, k + 1, seen)
    ensures forall w :: w in own <==>
      w in zones[n].workloads[..k + 1] && ValidWorkloadName(w) && FirstZone(zones, n, w).None?
    ensures out == WorkloadFinding(zones, n, k, files)
  {
    var z := zones[n];
    var w := z.workloads[k];
    assert z.workloads[..k + 1] == z.workloads[..k] + [w];
    seen, own := seen0, own0;
    if !ValidWorkloadName(w) {
      return [BadWorkloadName(z.name, w)], seen, own;
    }
    if w in seen {
      return [RepeatedWorkload(z.name, w, seen[w])], seen, own;
    }
    seen := seen[w := z.name];
    own := own + {w};
    out := [];
    var missing := MissingOf(RequiredFiles(w), files);
    if |missing| > 0 {
      out := [MissingFiles(z.name, w, missing)];
    }
  }

  method MissingOf(names: seq<string>, files: set<string>) returns (missing: seq<string>)
    ensures missing == Absent(names, files)
  {
    missing := [];
    for i := 0 to |names|
      invariant missing == Absent(names[..i], files)
    {
      assert names[..i + 1][..i] == names[..i];
      if names[i] !in files {
        missing := missing + [names[i]];
      }
    }
    assert names[..|names|] == names;
  }

  lemma SeenStep(zones: seq<ZoneSpec>, n: nat, seen: map<string, string>)
    requires n < |zones|
    requires SeenZones(zones, n, seen)
    ensures Seen(zones, n, 0, seen)
  {
  }

  lemma SeenAll(zones: seq<ZoneSpec>, n: nat, seen: map<string, string>)
    requires n < |zones|
    requires Seen(zones, n, |zones[n].workloads|, seen)
    ensures SeenZones(zones, n + 1, seen)
  {
    assert zones[n].workloads[..|zones[n].workloads|] == zones[n].workloads;
    assert forall w :: FirstZone(zones, n + 1, w) == FirstListed(zones, n, |zones[n].workloads|, w);
  }

  method CheckWorkloads(zones: seq<ZoneSpec>, n: nat, files: set<string>, seen0: map<string, string>)
    returns (out: seq<Finding>, seen: map<string, string>, own: set<string>)
    requires n < |zones|
    requires Seen(zones, n, 0, seen0)
    ensures Seen(zones, n, |zones[n].workloads|, seen)
    ensures forall w :: w in own <==> Owns(zones, n, w)
    ensures out == WorkloadFindings(zones, n, |zones[n].workloads|, files)
  {
    out, seen, own := [], seen0, {};
    for k := 0 to |zones[n].workloads|
      invariant Seen(zones, n, k, seen)
      invariant forall w :: w in own <==>
        w in zones[n].workloads[..k] && ValidWorkloadName(w) && FirstZone(zones, n, w).None?
      invariant out == WorkloadFindings(zones, n, k, files)
    {
      var found;
      found, seen, own := CheckWorkload(zones, n, k, files, seen, own);
      out := out + found;
    }
    assert zones[n].workloads[..|zones[n].workloads|] == zones[n].workloads;
  }

  method CheckTargets(z: ZoneSpec, w: string, targets: seq<string>, into0: set<string>)
    returns (out: seq<Finding>, into: set<string>)
    ensures out == TargetFindings(z, w, targets, |targets|)
    ensures forall b :: b in into <==> b in into0 || (b in targets && IsRole(b) && b != z.name)
  {
    out, into := [], into0;
    var taken: set<string> := {};
    for k := 0 to |targets|
      invariant out == TargetFindings(z, w, targets, k)
      invariant forall b :: b in taken <==> b in targets[..k] && IsRole(b) && b != z.name
      invariant into == into0 + taken
    {
      var target := targets[k];
      assert targets[..k + 1] == targets[..k] + [target];
      if !IsRole(target) {
        out := out + [UnknownTarget(z.name, w, target)];
      } else if target == z.name {
        out := out + [OwnTarget(z.name, w)];
      } else if target in taken {
        out := out + [RepeatedTarget(z.name, w, target)];
      } else {
        taken := taken + {target};
        into := into + {target};
      }
    }
    assert targets[..|targets|] == targets;
  }

  /** The targets that the accepted bridges of zone `n` named in `names` reach. */
  ghost predicate ReachedBy(zones: seq<ZoneSpec>, n: nat, names: seq<string>, target: string)
    requires n < |zones|
    requires forall w :: w in names ==> w in zones[n].bridges
  {
    exists w :: w in names && ReachedThrough(zones, n, w, target)
  }

  method CheckBridges(zones: seq<ZoneSpec>, n: nat, own: set<string>, into0: set<string>)
    returns (out: seq<Finding>, into: set<string>)
    requires n < |zones|
    requires forall w :: w in own <==> Owns(zones, n, w)
    ensures var names := Listing(zones[n].bridges.Keys); out == BridgeFindings(zones, n, names, |names|)
    ensures forall b :: b in into <==> b in into0 || ReachedBy(zones, n, Listing(zones[n].bridges.Keys), b)
  {
    var names := SortedKeys(zones[n].bridges);
    out, into := [], into0;
    for k := 0 to |names|
      invariant out == BridgeFindings(zones, n, names, k)
      invariant forall b :: b in into <==> b in into0 || ReachedBy(zones, n, names[..k], b)
    {
      assert names[..k + 1] == names[..k] + [names[k]];
      var found;
      found, into := CheckBridge(zones, n, names[k], own, into);
      out := out + found;
    }
    assert names[..|names|] == names;
  }

  method CheckBridge(zones: seq<ZoneSpec>, n: nat, w: string, own: set<string>, into0: set<string>)
    returns (out: seq<Finding>, into: set<string>)
    requires n < |zones| && w in zones[n].bridges
    requires forall x :: x in own <==> Owns(zones, n, x)
    ensures out == BridgeFinding(zones, n, w)
    ensures forall b :: b in into <==> b in into0 || ReachedThrough(zones, n, w, b)
  {
    var z := zones[n];
    if w !in own {
      return [ForeignBridge(z.name, w)], into0;
    }
    if z.internal {
      return [InternalBridge(z.name, w)], into0;
    }
    out, into := CheckTargets(z, w, z.bridges[w], into0);
  }

  method CheckZones(zones: seq<ZoneSpec>, files: set<string>)
    returns (out: seq<Finding>, count: map<string, nat>, into: set<string>)
    ensures out == ZonesFindings(zones, |zones|, files)
    ensures Counted(zones, |zones|, count)
    ensures forall b :: b in into <==> Reaches(zones, |zones|, b)
  {
    out, count, into := [], map[], {};
    var seen: map<string, string> := map[];
    for n := 0 to |zones|
      invariant out == ZonesFindings(zones, n, files)
      invariant Counted(zones, n, count)
      invariant forall b :: b in into <==> Reaches(zones, n, b)
      invariant SeenZones(zones, n, seen)
    {
      count := CountZone(zones, n, count);
      var found;
      found, seen, into := CheckZone(zones, n, files, seen, into);
      out := out + found;
    }
  }

  ghost predicate Counted(zones: seq<ZoneSpec>, n: nat, count: map<string, nat>)
    requires n <= |zones|
  {
    forall name :: CountOf(zones, n, name) == if name in count then count[name] else 0
  }

  method CountZone(zones: seq<ZoneSpec>, n: nat, count0: map<string, nat>) returns (count: map<string, nat>)
    requires n < |zones| && Counted(zones, n, count0)
    ensures Counted(zones, n + 1, count)
  {
    var name := zones[n].name;
    count := count0[name := (if name in count0 then count0[name] else 0) + 1];
  }

  method CheckZone(zones: seq<ZoneSpec>, n: nat, files: set<string>, seen0: map<string, string>, into0: set<string>)
    returns (out: seq<Finding>, seen: map<string, string>, into: set<string>)
    requires n < |zones|
    requires SeenZones(zones, n, seen0)
    requires forall b :: b in into0 <==> Reaches(zones, n, b)
    ensures out == ZoneFindings(zones, n, files)
    ensures SeenZones(zones, n + 1, seen)
    ensures forall b :: b in into <==> Reaches(zones, n + 1, b)
  {
    out := [];
    if !IsRole(zones[n].name) {
      out := [UnknownZone(zones[n].name)];
    }
    SeenStep(zones, n, seen0);
    var found, own;
    found, seen, own := CheckWorkloads(zones, n, files, seen0);
    SeenAll(zones, n, seen);
    out := out + found;
    found, into := CheckBridges(zones, n, own, into0);
    out := out + found;
    forall b
      ensures Reaches(zones, n + 1, b) <==>
        Reaches(zones, n, b) || ReachedBy(zones, n, Listing(zones[n].bridges.Keys), b)
    {
      ReachesStep(zones, n, b);
    }
  }

  lemma ReachesStep(zones: seq<ZoneSpec>, n: nat, b: string)
    requires n < |zones|
    ensures Reaches(zones, n + 1, b) <==> Reaches(zones, n, b) || ReachedBy(zones, n, Listing(zones[n].bridges.Keys), b)
  {
    if ReachedBy(zones, n, Listing(zones[n].bridges.Keys), b) {
      var w :| w in Listing(zones[n].bridges.Keys) && ReachedThrough(zones, n, w, b);
      assert w in zones[n].bridges;
    }
  }

  method CheckCount(zones: seq<ZoneSpec>, count: map<string, nat>, r: Role) returns (out: seq<Finding>)
    requires Counted(zones, |zones|, count)
    ensures out == CountFinding(zones, r)
  {
    hide CountOf;
    var name := r.Name();
    var times := if name in count then count[name] else 0;
    out := if times == 0 then [MissingZone(r)] else if times > 1 then [RepeatedZone(r, times)] else [];
  }

  method CheckCounts(zones: seq<ZoneSpec>, count: map<string, nat>) returns (out: seq<Finding>)
    requires Counted(zones, |zones|, count)
    ensures out == CountFindings(zones, |ALL|)
  {
    hide Counted, CountFinding;
    out := [];
    for i := 0 to |ALL|
      invariant out == CountFindings(zones, i)
    {
      var more := CheckCount(zones, count, ALL[i]);
      out := out + more;
    }
  }

  method CheckReach(zones: seq<ZoneSpec>, count: map<string, nat>, into: set<string>) returns (out: seq<Finding>)
    requires Counted(zones, |zones|, count)
    requires forall b :: b in into <==> Reaches(zones, |zones|, b)
    ensures out == ReachFindings(zones, |zones|)
  {
    out := [];
    for i := 0 to |zones|
      invariant out == ReachFindings(zones, i)
    {
      var z := zones[i];
      if z.internal && IsRole(z.name) && z.name in count && count[z.name] == 1 && z.name !in into {
        out := out + [UnreachableZone(z.name)];
      }
    }
  }

  method Wrap(fs: seq<SecretFinding>) returns (out: seq<Finding>)
    ensures out == Wrapped(fs)
  {
    out := [];
    for i := 0 to |fs|
      invariant out == Wrapped(fs[..i])
    {
      assert fs[..i + 1][..i] == fs[..i];
      out := out + [BadSecret(fs[i])];
    }
    assert fs[..|fs|] == fs;
  }

  /** Reports every problem of a topology, in file order. `files` are the paths
      that exist in the scaffold. */
  method Validate(t: Topology, files: set<string>) returns (out: seq<Finding>)
    ensures out == Everything(t, files)
  {
    out := CheckHead(t);
    var volumeFindings := CheckVolumes(t.machine.volumes);
    var zoneFindings, count, into := CheckZones(t.zones, files);
    var countFindings := CheckCounts(t.zones, count);
    var reachFindings := CheckReach(t.zones, count, into);
    var declared := DeclaredSecrets(t);
    var _, secretFindings := NewCatalogue(BUILTIN, declared);
    var wrapped := Wrap(secretFindings);
    out := out + volumeFindings + zoneFindings + countFindings + reachFindings + wrapped;
  }
}

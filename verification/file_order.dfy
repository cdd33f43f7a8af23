/** The findings of a validation, read literally: which rule each one stands
    for, and that they come in the order of the file
    (internal/domain/topology.go, internal/domain/catalogue.go). */
module FileOrder {
  import opened Text
  import opened Roles
  import opened Catalogues
  import opened Topologies
  import opened Validation
  import opened WellFormedness

  // ---- The rules, without the functions the checks use --------------------

  /** Lowercase letters, digits and hyphens, the first no hyphen. */
  ghost predicate PlainName(s: string) {
    s != [] && forall i :: 0 <= i < |s| ==> 'a' <= s[i] <= 'z' || '0' <= s[i] <= '9' || (s[i] == '-' && i > 0)
  }

  /** The same, of at most 63 characters and not ending in a hyphen either. */
  ghost predicate DnsLabel(s: string) {
    PlainName(s) && |s| <= 63 && s[|s| - 1] != '-'
  }

  /** `v` is cut at its first colon, at `i`, into two absolute paths. */
  ghost predicate CutAt(v: string, i: nat) {
    0 < i < |v| - 1 && v[0] == '/' && v[i] == ':' && v[i + 1] == '/' && forall j :: 0 <= j < i ==> v[j] != ':'
  }

  ghost predicate TwoPaths(v: string) {
    exists i: nat :: CutAt(v, i)
  }

  ghost predicate ZoneName(s: string) {
    s == "infra" || s == "services" || s == "agent"
  }

  ghost predicate BuiltinName(s: string) {
    || s == "litellm-master-key" || s == "litellm-salt-key" || s == "litellm-db-password"
    || s == "openclaw-gateway-token" || s == "openclaw-litellm-key"
  }

  /** Zone `m` is the first one to list `w`. */
  ghost predicate ListedFirst(zones: seq<ZoneSpec>, m: nat, w: string) {
    m < |zones| && w in zones[m].workloads && forall i :: 0 <= i < m ==> w !in zones[i].workloads
  }

  /** `w` was listed before position `k` of zone `n`, and zone `m` was first. */
  ghost predicate ListedBefore(zones: seq<ZoneSpec>, n: nat, k: nat, w: string, m: nat)
    requires n < |zones| && k <= |zones[n].workloads|
  {
    ListedFirst(zones, m, w) && (m < n || (m == n && w in zones[n].workloads[..k]))
  }

  function AbsentFile(path: string, files: set<string>): seq<string> {
    if path in files then [] else [path]
  }

  /** The absent ones of the three files of a workload. */
  function AbsentFiles(w: string, files: set<string>): seq<string> {
    AbsentFile("workloads/" + w + "/Containerfile", files)
    + AbsentFile("workloads/" + w + "/pod.yaml", files)
    + AbsentFile("workloads/" + w + "/.containerignore", files)
  }

  /** Zone `n` lists `w` under a good name and is the first to do so. */
  ghost predicate Accepts(zones: seq<ZoneSpec>, n: nat, w: string) {
    PlainName(w) && ListedFirst(zones, n, w)
  }

  ghost function NamedUpTo(zones: seq<ZoneSpec>, n: nat, name: string): set<int>
    requires n <= |zones|
  {
    set i | 0 <= i < n && zones[i].name == name
  }

  /** How many zones have that name. */
  ghost function Times(zones: seq<ZoneSpec>, name: string): nat {
    |NamedUpTo(zones, |zones|, name)|
  }

  /** Some accepted bridge of another zone leads into `target`. */
  ghost predicate LedInto(zones: seq<ZoneSpec>, target: string) {
    exists i, w :: 0 <= i < |zones| && w in zones[i].bridges &&
      Accepts(zones, i, w) && !zones[i].internal && target in zones[i].bridges[w] && target != zones[i].name
  }

  /** Zone `n` is the last one of that name. */
  ghost predicate LastNamed(zones: seq<ZoneSpec>, n: nat, name: string) {
    n < |zones| && zones[n].name == name && forall i :: n < i < |zones| ==> zones[i].name != name
  }

  ghost predicate SecretProblem(list: seq<string>, k: nat, problem: Problem)
    requires k < |list|
  {
    match problem
    case Malformed => !DnsLabel(list[k])
    case CollidesWithBuiltin => DnsLabel(list[k]) && BuiltinName(list[k])
    case ListedTwice => DnsLabel(list[k]) && !BuiltinName(list[k]) && list[k] in list[..k]
  }

  // ---- Places -------------------------------------------------------------

  /** Where a finding belongs: a line of the head, a volume, a zone's name, one
      of its workloads, a target of one of its bridges, the count of a role, an
      internal zone, a name in a zone's secrets. */
  datatype Place =
    | Head(line: nat)
    | Volume(index: nat)
    | NameOf(zone: nat)
    | WorkloadAt(zone: nat, index: nat)
    | BridgeAt(zone: nat, workload: string, index: nat)
    | CountAt(role: Role)
    | ReachAt(zone: nat)
    | SecretAt(role: Role, index: nat)
  {
    predicate InZone() {
      NameOf? || WorkloadAt? || BridgeAt?
    }

    function Stage(): nat {
      match this
      case Head(_) => 0
      case Volume(_) => 1
      case NameOf(_) => 2
      case WorkloadAt(_, _) => 2
      case BridgeAt(_, _, _) => 2
      case CountAt(_) => 3
      case ReachAt(_) => 4
      case SecretAt(_, _) => 5
    }
  }

  /** The order of the file; a zone's bridges go by name, and what concerns all
      zones comes after them. */
  ghost predicate Before(p: Place, q: Place) {
    p.Stage() < q.Stage() || (p.Stage() == q.Stage() &&
      match p
      case Head(i) => i < q.line
      case Volume(i) => i < q.index
      case NameOf(n) => n < q.zone || (n == q.zone && !q.NameOf?)
      case WorkloadAt(n, k) => n < q.zone || (n == q.zone && (q.BridgeAt? || (q.WorkloadAt? && k < q.index)))
      case BridgeAt(n, w, k) =>
        n < q.zone ||
          (n == q.zone && q.BridgeAt? && if w == q.workload then k < q.index else AtMost(w, q.workload))
      case CountAt(r) => r.Rank() < q.role.Rank()
      case ReachAt(n) => n < q.zone
      case SecretAt(r, k) => r.Rank() < q.role.Rank() || (r == q.role && k < q.index))
  }

  // ---- What is wrong where ------------------------------------------------

  ghost predicate HeadBreaks(t: Topology, line: nat, f: Finding) {
    match f
    case OldSchema => line == 0 && t.schema == 1
    case BadSchema => line == 0 && t.schema != 1 && t.schema != 2
    case BadProvider => line == 1 && t.provider != "libkrun" && t.provider != "applehv"
    case BadCpus => line == 2 && t.machine.cpus <= 0
    case BadMemory => line == 3 && t.machine.memoryMiB <= 0
    case BadDisk => line == 4 && t.machine.diskGiB <= 0
    case _ => false
  }

  ghost predicate WorkloadBreaks(zones: seq<ZoneSpec>, n: nat, k: nat, files: set<string>, f: Finding)
    requires n < |zones| && k < |zones[n].workloads|
  {
    var z, w := zones[n], zones[n].workloads[k];
    match f
    case BadWorkloadName(zone, name) => zone == z.name && name == w && !PlainName(w)
    case RepeatedWorkload(zone, name, first) =>
      && zone == z.name && name == w && PlainName(w)
      && exists m: nat :: ListedBefore(zones, n, k, w, m) && first == zones[m].name
    case MissingFiles(zone, name, missing) =>
      && zone == z.name && name == w && PlainName(w) && !(exists m: nat :: ListedBefore(zones, n, k, w, m))
      && missing == AbsentFiles(w, files) && missing != []
    case _ => false
  }

  ghost predicate BridgeBreaks(zones: seq<ZoneSpec>, n: nat, w: string, k: nat, f: Finding)
    requires n < |zones| && w in zones[n].bridges
  {
    var z, targets := zones[n], zones[n].bridges[w];
    var open := Accepts(zones, n, w) && !z.internal && k < |targets|;
    match f
    case ForeignBridge(zone, name) => zone == z.name && name == w && k == 0 && !Accepts(zones, n, w)
    case InternalBridge(zone, name) => zone == z.name && name == w && k == 0 && Accepts(zones, n, w) && z.internal
    case UnknownTarget(zone, name, target) =>
      zone == z.name && name == w && open && target == targets[k] && !ZoneName(target)
    case OwnTarget(zone, name) => zone == z.name && name == w && open && ZoneName(targets[k]) && targets[k] == z.name
    case RepeatedTarget(zone, name, target) =>
      && zone == z.name && name == w && open && target == targets[k]
      && ZoneName(target) && target != z.name && target in targets[..k]
    case _ => false
  }

  ghost predicate CountBreaks(zones: seq<ZoneSpec>, r: Role, f: Finding) {
    match f
    case MissingZone(role) => role == r && Times(zones, r.Name()) == 0
    case RepeatedZone(role, times) => role == r && times == Times(zones, r.Name()) && times > 1
    case _ => false
  }

  ghost predicate ReachBreaks(zones: seq<ZoneSpec>, n: nat, f: Finding)
    requires n < |zones|
  {
    && f == UnreachableZone(zones[n].name)
    && zones[n].internal && ZoneName(zones[n].name) && Times(zones, zones[n].name) == 1
    && !LedInto(zones, zones[n].name)
  }

  ghost predicate SecretBreaks(zones: seq<ZoneSpec>, r: Role, k: nat, f: Finding) {
    exists n: nat :: LastNamed(zones, n, r.Name()) && k < |zones[n].secrets| &&
      f.BadSecret? && f.finding.zone == r && f.finding.name == zones[n].secrets[k] &&
      SecretProblem(zones[n].secrets, k, f.finding.problem)
  }

  /** `f` is what is wrong at `p`. */
  ghost predicate Breaks(t: Topology, files: set<string>, p: Place, f: Finding) {
    match p
    case Head(line) => HeadBreaks(t, line, f)
    case Volume(i) => i < |t.machine.volumes| && f == BadVolume(i) && !TwoPaths(t.machine.volumes[i])
    case NameOf(n) => n < |t.zones| && f == UnknownZone(t.zones[n].name) && !ZoneName(t.zones[n].name)
    case WorkloadAt(n, k) => n < |t.zones| && k < |t.zones[n].workloads| && WorkloadBreaks(t.zones, n, k, files, f)
    case BridgeAt(n, w, k) => n < |t.zones| && w in t.zones[n].bridges && BridgeBreaks(t.zones, n, w, k, f)
    case CountAt(r) => CountBreaks(t.zones, r, f)
    case ReachAt(n) => n < |t.zones| && ReachBreaks(t.zones, n, f)
    case SecretAt(r, k) => SecretBreaks(t.zones, r, k, f)
  }

  // ---- Listings of places -------------------------------------------------

  datatype Spot = Spot(place: Place, finding: Finding)

  ghost predicate InFileOrder(spots: seq<Spot>) {
    forall i, j :: 0 <= i < j < |spots| ==> Before(spots[i].place, spots[j].place)
  }

  ghost predicate Reads(spots: seq<Spot>, out: seq<Finding>) {
    |spots| == |out| && forall i :: 0 <= i < |out| ==> spots[i].finding == out[i]
  }

  /** `spots` are exactly the broken places of a part of the file, in order, and
      `out` their findings. */
  ghost predicate Lists(t: Topology, files: set<string>, part: iset<Place>, out: seq<Finding>, spots: seq<Spot>) {
    && InFileOrder(spots) && Reads(spots, out)
    && forall s :: s in spots <==> s.place in part && Breaks(t, files, s.place, s.finding)
  }

  ghost predicate Listed(t: Topology, files: set<string>, part: iset<Place>, out: seq<Finding>) {
    exists spots :: Lists(t, files, part, out, spots)
  }

  ghost predicate Precedes(a: iset<Place>, b: iset<Place>) {
    forall p, q :: p in a && q in b ==> Before(p, q)
  }

  lemma NoPlace(t: Topology, files: set<string>)
    ensures Listed(t, files, iset{}, [])
  {
    assert Lists(t, files, iset{}, [], []);
  }

  lemma OnePlace(t: Topology, files: set<string>, p: Place, out: seq<Finding>)
    requires |out| <= 1 && forall f :: Breaks(t, files, p, f) <==> f in out
    ensures Listed(t, files, iset{p}, out)
  {
    hide Breaks;
    if out == [] {
      assert Lists(t, files, iset{p}, out, []);
    } else {
      assert out[0] in out;
      assert Lists(t, files, iset{p}, out, [Spot(p, out[0])]);
    }
  }

  lemma NextPart(t: Topology, files: set<string>, a: iset<Place>, xs: seq<Finding>, b: iset<Place>, ys: seq<Finding>)
    requires Listed(t, files, a, xs) && Listed(t, files, b, ys) && Precedes(a, b)
    ensures Listed(t, files, a + b, xs + ys)
  {
    hide Breaks, Before, InFileOrder, Reads, Precedes;
    var ps: seq<Spot> :| Lists(t, files, a, xs, ps);
    var qs: seq<Spot> :| Lists(t, files, b, ys, qs);
    StillInOrder(a, ps, b, qs);
    ReadsBoth(ps, xs, qs, ys);
    assert Lists(t, files, a + b, xs + ys, ps + qs);
  }

  lemma StillInOrder(a: iset<Place>, ps: seq<Spot>, b: iset<Place>, qs: seq<Spot>)
    requires InFileOrder(ps) && InFileOrder(qs) && Precedes(a, b)
    requires (forall s :: s in ps ==> s.place in a) && forall s :: s in qs ==> s.place in b
    ensures InFileOrder(ps + qs)
  {
    hide Before;
    forall i | 0 <= i < |ps| ensures ps[i].place in a { assert ps[i] in ps; }
    forall j | 0 <= j < |qs| ensures qs[j].place in b { assert qs[j] in qs; }
  }

  lemma ReadsBoth(ps: seq<Spot>, xs: seq<Finding>, qs: seq<Spot>, ys: seq<Finding>)
    requires Reads(ps, xs) && Reads(qs, ys)
    ensures Reads(ps + qs, xs + ys)
  {
  }

  /** Places where nothing can be wrong may be left out. */
  lemma SamePart(t: Topology, files: set<string>, a: iset<Place>, b: iset<Place>, out: seq<Finding>)
    requires Listed(t, files, a, out)
    requires forall p, f :: Breaks(t, files, p, f) ==> (p in a <==> p in b)
    ensures Listed(t, files, b, out)
  {
    hide Breaks, InFileOrder;
    var spots :| Lists(t, files, a, out, spots);
    assert Lists(t, files, b, out, spots);
  }

  // ---- The head -----------------------------------------------------------

  ghost function HeadTo(n: nat): iset<Place> {
    iset p: Place | p.Head? && p.line < n
  }

  lemma HeadNext(t: Topology, files: set<string>, n: nat, xs: seq<Finding>, ys: seq<Finding>)
    requires Listed(t, files, HeadTo(n), xs)
    requires |ys| <= 1 && forall f :: HeadBreaks(t, n, f) <==> f in ys
    ensures Listed(t, files, HeadTo(n + 1), xs + ys)
  {
    hide Listed, HeadBreaks;
    OnePlace(t, files, Head(n), ys);
    NextPart(t, files, HeadTo(n), xs, iset{Head(n)}, ys);
    assert HeadTo(n) + iset{Head(n)} == HeadTo(n + 1);
  }

  lemma HeadListed(t: Topology, files: set<string>)
    ensures Listed(t, files, HeadTo(5), HeadFindings(t))
  {
    hide Listed;
    NoPlace(t, files);
    assert HeadTo(0) == iset{};
    var schema := if t.schema == 1 then [OldSchema] else if t.schema != SCHEMA then [BadSchema] else [];
    HeadNext(t, files, 0, [], schema);
    var out := schema + Single(t.provider !in PROVIDERS, BadProvider);
    assert [] + schema == schema;
    HeadNext(t, files, 1, schema, Single(t.provider !in PROVIDERS, BadProvider));
    HeadNext(t, files, 2, out, Single(t.machine.cpus <= 0, BadCpus));
    out := out + Single(t.machine.cpus <= 0, BadCpus);
    HeadNext(t, files, 3, out, Single(t.machine.memoryMiB <= 0, BadMemory));
    out := out + Single(t.machine.memoryMiB <= 0, BadMemory);
    HeadNext(t, files, 4, out, Single(t.machine.diskGiB <= 0, BadDisk));
  }

  lemma {:induction false} FirstColonMeans(v: string)
    ensures match FirstColon(v)
      case None => forall j :: 0 <= j < |v| ==> v[j] != ':'
      case Some(i) => i < |v| && v[i] == ':' && forall j :: 0 <= j < i ==> v[j] != ':'
  {
    if v != [] && v[0] != ':' {
      FirstColonMeans(v[1..]);
      assert forall j :: 0 < j < |v| ==> v[j] == v[1..][j - 1];
    }
  }

  /** A volume is good when its first colon joins two absolute paths. */
  lemma VolumeMeans(v: string)
    ensures ValidVolume(v) <==> TwoPaths(v)
  {
    FirstColonMeans(v);
    if i: nat :| CutAt(v, i) {
      assert FirstColon(v) == Some(i);
      assert v[..i][0] == '/' && v[i + 1..][0] == '/';
    }
    if ValidVolume(v) {
      var i := FirstColon(v).value;
      assert v[..i][0] == v[0] && v[i + 1..][0] == v[i + 1];
      assert CutAt(v, i);
    }
  }

  ghost function VolumesTo(n: nat): iset<Place> {
    iset p: Place | p.Volume? && p.index < n
  }

  lemma {:induction false} VolumesListed(t: Topology, files: set<string>, n: nat)
    requires n <= |t.machine.volumes|
    ensures Listed(t, files, VolumesTo(n), VolumeFindings(t.machine.volumes, n))
  {
    hide Listed, ValidVolume, TwoPaths;
    if n == 0 {
      NoPlace(t, files);
      assert VolumesTo(0) == iset{};
    } else {
      VolumesListed(t, files, n - 1);
      VolumeMeans(t.machine.volumes[n - 1]);
      var one := Single(!ValidVolume(t.machine.volumes[n - 1]), BadVolume(n - 1));
      OnePlace(t, files, Volume(n - 1), one);
      NextPart(t, files, VolumesTo(n - 1), VolumeFindings(t.machine.volumes, n - 1), iset{Volume(n - 1)}, one);
      assert VolumesTo(n - 1) + iset{Volume(n - 1)} == VolumesTo(n);
    }
  }

  // ---- Names --------------------------------------------------------------

  /** The names a workload may have. */
  lemma WorkloadNameMeans(s: string)
    ensures ValidWorkloadName(s) <==> PlainName(s)
  {
    if ValidWorkloadName(s) {
      forall i | 0 <= i < |s| ensures WorkloadChar(s[i]) || (s[i] == '-' && i > 0) { assert s[i] in s; }
    }
  }

  /** The names a secret may have. */
  lemma SecretNameMeans(s: string)
    ensures ValidName(s) <==> DnsLabel(s)
  {
    if ValidName(s) {
      forall i | 0 <= i < |s| ensures LabelChar(s[i]) || (s[i] == '-' && i > 0) { assert s[i] in s; }
    }
  }

  /** The names a zone may have. */
  lemma ZoneNameMeans(s: string)
    ensures IsRole(s) <==> ZoneName(s)
  {
  }

  /** The names of the built-in secrets. */
  lemma BuiltinNameMeans(s: string)
    ensures IsBuiltin(BUILTIN, s) <==> BuiltinName(s)
  {
    if BuiltinName(s) {
      assert BUILTIN[0] in BUILTIN && BUILTIN[1] in BUILTIN && BUILTIN[2] in BUILTIN && BUILTIN[3] in BUILTIN &&
        BUILTIN[4] in BUILTIN;
      assert IsBuiltin(BUILTIN, s);
    }
  }

  // ---- Workloads ----------------------------------------------------------

  lemma {:induction false} FirstZoneMeans(zones: seq<ZoneSpec>, n: nat, w: string)
    requires n <= |zones|
    ensures match FirstZone(zones, n, w)
      case None => forall i :: 0 <= i < n ==> w !in zones[i].workloads
      case Some(name) => exists m: nat :: m < n && ListedFirst(zones, m, w) && name == zones[m].name
  {
    if n > 0 {
      FirstZoneMeans(zones, n - 1, w);
      if FirstZone(zones, n - 1, w).None? && w in zones[n - 1].workloads {
        assert ListedFirst(zones, n - 1, w);
      }
    }
  }

  lemma OneFirst(zones: seq<ZoneSpec>, m: nat, k: nat, w: string)
    requires ListedFirst(zones, m, w) && ListedFirst(zones, k, w)
    ensures m == k
  {
  }

  /** Listed before: the zone remembered for `w` is the first that lists it. */
  lemma FirstListedMeans(zones: seq<ZoneSpec>, n: nat, k: nat, w: string)
    requires n < |zones| && k <= |zones[n].workloads|
    ensures match FirstListed(zones, n, k, w)
      case None => !exists m: nat :: ListedBefore(zones, n, k, w, m)
      case Some(name) => exists m: nat :: ListedBefore(zones, n, k, w, m) && name == zones[m].name
  {
    hide FirstZone;
    FirstZoneMeans(zones, n, w);
    if FirstZone(zones, n, w).Some? {
      var m: nat :| m < n && ListedFirst(zones, m, w) && FirstZone(zones, n, w).value == zones[m].name;
      assert ListedBefore(zones, n, k, w, m);
    } else if w in zones[n].workloads[..k] {
      assert ListedBefore(zones, n, k, w, n);
    }
  }

  lemma OneBefore(zones: seq<ZoneSpec>, n: nat, k: nat, w: string, i: nat, j: nat)
    requires n < |zones| && k <= |zones[n].workloads|
    requires ListedBefore(zones, n, k, w, i) && ListedBefore(zones, n, k, w, j)
    ensures i == j
  {
    OneFirst(zones, i, j, w);
  }

  lemma AbsentFilesAre(w: string, files: set<string>)
    ensures Absent(RequiredFiles(w), files) == AbsentFiles(w, files)
  {
    var fs := RequiredFiles(w);
    assert fs[..2] == [fs[0], fs[1]] && fs[..2][..1] == [fs[0]] && fs[..2][..1][..0] == [];
    assert Absent([], files) == [];
    assert Absent(fs[..2][..1], files) == AbsentFile(fs[0], files);
    assert Absent(fs[..2], files) == AbsentFile(fs[0], files) + AbsentFile(fs[1], files);
    assert Absent(fs, files) == Absent(fs[..2], files) + AbsentFile(fs[2], files);
  }

  lemma WorkloadSays(zones: seq<ZoneSpec>, n: nat, k: nat, files: set<string>)
    requires n < |zones| && k < |zones[n].workloads|
    ensures |WorkloadFinding(zones, n, k, files)| <= 1
    ensures forall f :: WorkloadBreaks(zones, n, k, files, f) <==> f in WorkloadFinding(zones, n, k, files)
  {
    hide PlainName, ValidWorkloadName, FirstListed, Absent, AbsentFiles, ListedBefore;
    var z, w := zones[n], zones[n].workloads[k];
    WorkloadNameMeans(w);
    FirstListedMeans(zones, n, k, w);
    AbsentFilesAre(w, files);
    forall i: nat, j: nat | ListedBefore(zones, n, k, w, i) && ListedBefore(zones, n, k, w, j) ensures i == j {
      OneBefore(zones, n, k, w, i, j);
    }
  }

  ghost function WorkloadsTo(n: nat, k: nat): iset<Place> {
    iset p: Place | p.WorkloadAt? && p.zone == n && p.index < k
  }

  lemma {:induction false} WorkloadsListed(t: Topology, files: set<string>, n: nat, k: nat)
    requires n < |t.zones| && k <= |t.zones[n].workloads|
    ensures Listed(t, files, WorkloadsTo(n, k), WorkloadFindings(t.zones, n, k, files))
  {
    hide Listed, WorkloadFinding, WorkloadBreaks;
    if k == 0 {
      NoPlace(t, files);
      assert WorkloadsTo(n, 0) == iset{};
    } else {
      WorkloadsListed(t, files, n, k - 1);
      WorkloadSays(t.zones, n, k - 1, files);
      var p, one := WorkloadAt(n, k - 1), WorkloadFinding(t.zones, n, k - 1, files);
      OnePlace(t, files, p, one);
      NextPart(t, files, WorkloadsTo(n, k - 1), WorkloadFindings(t.zones, n, k - 1, files), iset{p}, one);
      assert WorkloadsTo(n, k - 1) + iset{p} == WorkloadsTo(n, k);
    }
  }

  // ---- Bridges ------------------------------------------------------------

  lemma AcceptsMeans(zones: seq<ZoneSpec>, n: nat, w: string)
    requires n < |zones|
    ensures Owns(zones, n, w) <==> Accepts(zones, n, w)
  {
    hide PlainName, ValidWorkloadName;
    WorkloadNameMeans(w);
    FirstZoneMeans(zones, n, w);
  }

  ghost function TargetsTo(n: nat, w: string, k: nat): iset<Place> {
    iset p: Place | p.BridgeAt? && p.zone == n && p.workload == w && p.index < k
  }

  ghost function TargetsOf(n: nat, w: string): iset<Place> {
    iset p: Place | p.BridgeAt? && p.zone == n && p.workload == w
  }

  lemma TargetSays(zones: seq<ZoneSpec>, n: nat, w: string, k: nat)
    requires n < |zones| && w in zones[n].bridges && k < |zones[n].bridges[w]|
    requires Accepts(zones, n, w) && !zones[n].internal
    ensures var out := TargetFinding(zones[n], w, zones[n].bridges[w], k);
      |out| <= 1 && forall f :: BridgeBreaks(zones, n, w, k, f) <==> f in out
  {
    hide Accepts, ZoneName, IsRole;
    ZoneNameMeans(zones[n].bridges[w][k]);
  }

  lemma {:induction false} TargetsListed(t: Topology, files: set<string>, n: nat, w: string, k: nat)
    requires n < |t.zones| && w in t.zones[n].bridges && k <= |t.zones[n].bridges[w]|
    requires Accepts(t.zones, n, w) && !t.zones[n].internal
    ensures Listed(t, files, TargetsTo(n, w, k), TargetFindings(t.zones[n], w, t.zones[n].bridges[w], k))
  {
    hide Listed, TargetFinding, BridgeBreaks, Accepts;
    if k == 0 {
      NoPlace(t, files);
      assert TargetsTo(n, w, 0) == iset{};
    } else {
      TargetsListed(t, files, n, w, k - 1);
      TargetSays(t.zones, n, w, k - 1);
      var p, one := BridgeAt(n, w, k - 1), TargetFinding(t.zones[n], w, t.zones[n].bridges[w], k - 1);
      OnePlace(t, files, p, one);
      NextPart(t, files, TargetsTo(n, w, k - 1), TargetFindings(t.zones[n], w, t.zones[n].bridges[w], k - 1), iset{p},
        one);
      assert TargetsTo(n, w, k - 1) + iset{p} == TargetsTo(n, w, k);
    }
  }

  lemma BridgeSays(zones: seq<ZoneSpec>, n: nat, w: string, k: nat, f: Finding)
    requires n < |zones| && w in zones[n].bridges && BridgeBreaks(zones, n, w, k, f)
    ensures Accepts(zones, n, w) && !zones[n].internal ==> k < |zones[n].bridges[w]|
    ensures !(Accepts(zones, n, w) && !zones[n].internal) ==> k == 0
  {
    hide Accepts, ZoneName;
  }

  lemma ClosedBridgeSays(zones: seq<ZoneSpec>, n: nat, w: string)
    requires n < |zones| && w in zones[n].bridges && !(Accepts(zones, n, w) && !zones[n].internal)
    ensures var out := BridgeFinding(zones, n, w);
      |out| <= 1 && forall f :: BridgeBreaks(zones, n, w, 0, f) <==> f in out
  {
    hide Accepts, ZoneName, Owns;
    AcceptsMeans(zones, n, w);
  }

  lemma BridgeListed(t: Topology, files: set<string>, n: nat, w: string)
    requires n < |t.zones| && w in t.zones[n].bridges
    ensures Listed(t, files, TargetsOf(n, w), BridgeFinding(t.zones, n, w))
  {
    hide Listed, BridgeBreaks, Accepts, Owns;
    AcceptsMeans(t.zones, n, w);
    forall k: nat, f | BridgeBreaks(t.zones, n, w, k, f)
      ensures if Accepts(t.zones, n, w) && !t.zones[n].internal then k < |t.zones[n].bridges[w]| else k == 0
    {
      BridgeSays(t.zones, n, w, k, f);
    }
    if Accepts(t.zones, n, w) && !t.zones[n].internal {
      var count := |t.zones[n].bridges[w]|;
      TargetsListed(t, files, n, w, count);
      SamePart(t, files, TargetsTo(n, w, count), TargetsOf(n, w), BridgeFinding(t.zones, n, w));
    } else {
      ClosedBridgeSays(t.zones, n, w);
      OnePlace(t, files, BridgeAt(n, w, 0), BridgeFinding(t.zones, n, w));
      SamePart(t, files, iset{BridgeAt(n, w, 0)}, TargetsOf(n, w), BridgeFinding(t.zones, n, w));
    }
  }

  ghost function BridgesTo(n: nat, names: seq<string>, k: nat): iset<Place>
    requires k <= |names|
  {
    iset p: Place | p.BridgeAt? && p.zone == n && p.workload in names[..k]
  }

  lemma {:induction false} BridgesListed(t: Topology, files: set<string>, n: nat, names: seq<string>, k: nat)
    requires n < |t.zones| && k <= |names| && Ascending(names)
    requires forall w :: w in names ==> w in t.zones[n].bridges
    ensures Listed(t, files, BridgesTo(n, names, k), BridgeFindings(t.zones, n, names, k))
  {
    hide Listed, BridgeFinding, AtMost;
    if k == 0 {
      NoPlace(t, files);
      assert BridgesTo(n, names, 0) == iset{};
    } else {
      BridgesListed(t, files, n, names, k - 1);
      BridgeListed(t, files, n, names[k - 1]);
      assert names[..k] == names[..k - 1] + [names[k - 1]];
      assert Precedes(BridgesTo(n, names, k - 1), TargetsOf(n, names[k - 1]));
      NextPart(t, files, BridgesTo(n, names, k - 1), BridgeFindings(t.zones, n, names, k - 1),
        TargetsOf(n, names[k - 1]), BridgeFinding(t.zones, n, names[k - 1]));
      assert BridgesTo(n, names, k - 1) + TargetsOf(n, names[k - 1]) == BridgesTo(n, names, k);
    }
  }

  // ---- Zones --------------------------------------------------------------

  ghost function OfZone(n: nat): iset<Place> {
    iset p: Place | p.InZone() && p.zone == n
  }

  lemma ZoneListed(t: Topology, files: set<string>, n: nat)
    requires n < |t.zones|
    ensures Listed(t, files, OfZone(n), ZoneFindings(t.zones, n, files))
  {
    hide Listed, WorkloadFindings, BridgeFindings, WorkloadBreaks, BridgeBreaks, ZoneName, IsRole, AtMost;
    var z := t.zones[n];
    ZoneNameMeans(z.name);
    var first := Single(!IsRole(z.name), UnknownZone(z.name));
    OnePlace(t, files, NameOf(n), first);
    WorkloadsListed(t, files, n, |z.workloads|);
    var second := WorkloadFindings(t.zones, n, |z.workloads|, files);
    NextPart(t, files, iset{NameOf(n)}, first, WorkloadsTo(n, |z.workloads|), second);
    var names := Listing(z.bridges.Keys);
    ListingAscends(z.bridges.Keys);
    BridgesListed(t, files, n, names, |names|);
    assert names[..|names|] == names;
    NextPart(t, files, iset{NameOf(n)} + WorkloadsTo(n, |z.workloads|), first + second,
      BridgesTo(n, names, |names|), BridgeFindings(t.zones, n, names, |names|));
    SamePart(t, files, iset{NameOf(n)} + WorkloadsTo(n, |z.workloads|) + BridgesTo(n, names, |names|), OfZone(n),
      ZoneFindings(t.zones, n, files));
  }

  ghost function ZonesTo(n: nat): iset<Place> {
    iset p: Place | p.InZone() && p.zone < n
  }

  lemma {:induction false} ZonesListed(t: Topology, files: set<string>, n: nat)
    requires n <= |t.zones|
    ensures Listed(t, files, ZonesTo(n), ZonesFindings(t.zones, n, files))
  {
    hide Listed, ZoneFindings, AtMost;
    if n == 0 {
      NoPlace(t, files);
      assert ZonesTo(0) == iset{};
    } else {
      ZonesListed(t, files, n - 1);
      ZoneListed(t, files, n - 1);
      NextPart(t, files, ZonesTo(n - 1), ZonesFindings(t.zones, n - 1, files), OfZone(n - 1),
        ZoneFindings(t.zones, n - 1, files));
      assert ZonesTo(n - 1) + OfZone(n - 1) == ZonesTo(n);
    }
  }

  // ---- What concerns all zones --------------------------------------------

  lemma {:induction false} TimesCounted(zones: seq<ZoneSpec>, n: nat, name: string)
    requires n <= |zones|
    ensures CountOf(zones, n, name) == |NamedUpTo(zones, n, name)|
  {
    if n > 0 {
      TimesCounted(zones, n - 1, name);
      assert NamedUpTo(zones, n, name) ==
        NamedUpTo(zones, n - 1, name) + if zones[n - 1].name == name then {n - 1} else {};
    }
  }

  lemma CountSays(zones: seq<ZoneSpec>, r: Role)
    ensures |CountFinding(zones, r)| <= 1
    ensures forall f :: CountBreaks(zones, r, f) <==> f in CountFinding(zones, r)
  {
    hide CountOf;
    TimesCounted(zones, |zones|, r.Name());
  }

  ghost function CountsTo(n: nat): iset<Place> {
    iset p: Place | p.CountAt? && p.role.Rank() < n
  }

  lemma {:induction false} CountsListed(t: Topology, files: set<string>, n: nat)
    requires n <= |ALL|
    ensures Listed(t, files, CountsTo(n), CountFindings(t.zones, n))
  {
    hide Listed, CountFinding, CountBreaks;
    if n == 0 {
      NoPlace(t, files);
      assert CountsTo(0) == iset{};
    } else {
      CountsListed(t, files, n - 1);
      var r := ALL[n - 1];
      CountSays(t.zones, r);
      OnePlace(t, files, CountAt(r), CountFinding(t.zones, r));
      NextPart(t, files, CountsTo(n - 1), CountFindings(t.zones, n - 1), iset{CountAt(r)}, CountFinding(t.zones, r));
      assert CountsTo(n - 1) + iset{CountAt(r)} == CountsTo(n);
    }
  }

  lemma LedIntoMeans(zones: seq<ZoneSpec>, target: string)
    requires ZoneName(target)
    ensures Reaches(zones, |zones|, target) <==> LedInto(zones, target)
  {
    hide Owns, Accepts;
    forall i: nat, w | i < |zones| ensures Owns(zones, i, w) <==> Accepts(zones, i, w) { AcceptsMeans(zones, i, w); }
    if Reaches(zones, |zones|, target) {
      var i, w :| 0 <= i < |zones| && w in zones[i].bridges && ReachedThrough(zones, i, w, target);
      assert Accepts(zones, i, w);
    }
    if LedInto(zones, target) {
      var i, w :| 0 <= i < |zones| && w in zones[i].bridges &&
        Accepts(zones, i, w) && !zones[i].internal && target in zones[i].bridges[w] && target != zones[i].name;
      assert ReachedThrough(zones, i, w, target);
    }
  }

  lemma ReachSays(zones: seq<ZoneSpec>, n: nat)
    requires n < |zones|
    ensures Unreachable(zones, n) <==> ReachBreaks(zones, n, UnreachableZone(zones[n].name))
  {
    hide Reaches, LedInto, CountOf;
    ZoneNameMeans(zones[n].name);
    TimesCounted(zones, |zones|, zones[n].name);
    if ZoneName(zones[n].name) { LedIntoMeans(zones, zones[n].name); }
  }

  ghost function ReachTo(n: nat): iset<Place> {
    iset p: Place | p.ReachAt? && p.zone < n
  }

  lemma {:induction false} ReachListed(t: Topology, files: set<string>, n: nat)
    requires n <= |t.zones|
    ensures Listed(t, files, ReachTo(n), ReachFindings(t.zones, n))
  {
    hide Listed, Unreachable, LedInto, ZoneName, Times;
    if n == 0 {
      NoPlace(t, files);
      assert ReachTo(0) == iset{};
    } else {
      ReachListed(t, files, n - 1);
      ReachSays(t.zones, n - 1);
      var one := if Unreachable(t.zones, n - 1) then [UnreachableZone(t.zones[n - 1].name)] else [];
      OnePlace(t, files, ReachAt(n - 1), one);
      NextPart(t, files, ReachTo(n - 1), ReachFindings(t.zones, n - 1), iset{ReachAt(n - 1)}, one);
      assert ReachTo(n - 1) + iset{ReachAt(n - 1)} == ReachTo(n);
    }
  }

  // ---- Secrets ------------------------------------------------------------

  ghost predicate LastUpTo(zones: seq<ZoneSpec>, n: nat, m: nat, name: string)
    requires n <= |zones|
  {
    m < n && zones[m].name == name && forall i :: m < i < n ==> zones[i].name != name
  }

  /** What a role declares is what the last zone of its name lists. */
  lemma {:induction false} DeclaredLast(zones: seq<ZoneSpec>, n: nat, name: string)
    requires n <= |zones|
    ensures name !in Declared(zones, n) ==> forall i :: 0 <= i < n ==> zones[i].name != name
    ensures name in Declared(zones, n) ==>
      exists m: nat :: LastUpTo(zones, n, m, name) && Declared(zones, n)[name] == zones[m].secrets
  {
    if n > 0 {
      DeclaredLast(zones, n - 1, name);
      if zones[n - 1].name == name {
        assert LastUpTo(zones, n, n - 1, name);
      } else if name in Declared(zones, n - 1) {
        var m: nat :| LastUpTo(zones, n - 1, m, name) && Declared(zones, n - 1)[name] == zones[m].secrets;
        assert LastUpTo(zones, n, m, name);
      }
    }
  }

  lemma RefusalSays(list: seq<string>, k: nat)
    requires k < |list|
    ensures forall p :: SecretProblem(list, k, p) <==> Refusal(BUILTIN, list, k) == Some(p)
  {
    hide ValidName, DnsLabel, IsBuiltin, BuiltinName;
    SecretNameMeans(list[k]);
    BuiltinNameMeans(list[k]);
  }

  lemma WrapsBoth(xs: seq<SecretFinding>, ys: seq<SecretFinding>)
    requires |ys| <= 1
    ensures Wrapped(xs + ys) == Wrapped(xs) + Wrapped(ys)
  {
    if ys == [] {
      assert xs + ys == xs;
    } else {
      assert (xs + ys)[..|xs|] == xs && ys[..0] == [];
      assert Wrapped([]) == [];
      assert Wrapped(ys) == [BadSecret(ys[0])];
    }
  }

  lemma {:induction false} WrapsAll(xs: seq<SecretFinding>, ys: seq<SecretFinding>)
    ensures Wrapped(xs + ys) == Wrapped(xs) + Wrapped(ys)
  {
    if ys == [] {
      assert xs + ys == xs;
    } else {
      WrapsAll(xs, ys[..|ys| - 1]);
      assert (xs + ys)[..|xs + ys| - 1] == xs + ys[..|ys| - 1];
    }
  }

  ghost function SecretsTo(r: Role, k: nat): iset<Place> {
    iset p: Place | p.SecretAt? && p.role == r && p.index < k
  }

  lemma OneLast(zones: seq<ZoneSpec>, m: nat, n: nat, name: string)
    requires LastNamed(zones, m, name) && LastNamed(zones, n, name)
    ensures m == n
  {
  }

  /** A finding at a position of the list of zone `m`, the last of its name. */
  lemma SecretSays(zones: seq<ZoneSpec>, m: nat, r: Role, k: nat, f: Finding)
    requires m < |zones| && LastNamed(zones, m, r.Name())
    ensures SecretBreaks(zones, r, k, f) <==>
      k < |zones[m].secrets| && Refusal(BUILTIN, zones[m].secrets, k).Some? &&
        f == BadSecret(SecretFinding(r, zones[m].secrets[k], Refusal(BUILTIN, zones[m].secrets, k).value))
  {
    hide Refusal, SecretProblem, LastNamed;
    if k < |zones[m].secrets| { RefusalSays(zones[m].secrets, k); }
    forall n: nat | LastNamed(zones, n, r.Name()) ensures n == m { OneLast(zones, n, m, r.Name()); }
  }

  lemma {:induction false} RefusedListed(t: Topology, files: set<string>, m: nat, r: Role, k: nat)
    requires m < |t.zones| && LastNamed(t.zones, m, r.Name()) && k <= |t.zones[m].secrets|
    ensures Listed(t, files, SecretsTo(r, k), Wrapped(Refused(BUILTIN, r, t.zones[m].secrets, k)))
  {
    hide Listed, SecretBreaks, Refusal, LastNamed, Wrapped;
    WrappedClean([]);
    if k == 0 {
      NoPlace(t, files);
      assert SecretsTo(r, 0) == iset{};
    } else {
      RefusedListed(t, files, m, r, k - 1);
      var list := t.zones[m].secrets;
      var refusal := Refusal(BUILTIN, list, k - 1);
      var found := if refusal.None? then [] else [SecretFinding(r, list[k - 1], refusal.value)];
      assert Refused(BUILTIN, r, list, k) == Refused(BUILTIN, r, list, k - 1) + found;
      WrapsBoth(Refused(BUILTIN, r, list, k - 1), found);
      WrappedOne(found);
      forall f ensures Breaks(t, files, SecretAt(r, k - 1), f) <==> f in Wrapped(found) {
        SecretSays(t.zones, m, r, k - 1, f);
      }
      var p := SecretAt(r, k - 1);
      OnePlace(t, files, p, Wrapped(found));
      NextPart(t, files, SecretsTo(r, k - 1), Wrapped(Refused(BUILTIN, r, list, k - 1)), iset{p}, Wrapped(found));
      assert SecretsTo(r, k - 1) + iset{p} == SecretsTo(r, k);
    }
  }

  lemma WrappedOne(fs: seq<SecretFinding>)
    requires |fs| <= 1
    ensures Wrapped(fs) == if fs == [] then [] else [BadSecret(fs[0])]
  {
    assert fs == [] || (fs[..0] == [] && Wrapped([]) == []);
  }

  ghost function SecretsOf(r: Role): iset<Place> {
    iset p: Place | p.SecretAt? && p.role == r
  }

  lemma ListListed(t: Topology, files: set<string>, r: Role)
    ensures var list := ListOf(Declared(t.zones, |t.zones|), r);
      Listed(t, files, SecretsOf(r), Wrapped(Refused(BUILTIN, r, list, |list|)))
  {
    hide Listed, Refused, Wrapped, Declared, SecretProblem;
    DeclaredLast(t.zones, |t.zones|, r.Name());
    var list := ListOf(Declared(t.zones, |t.zones|), r);
    if r.Name() in Declared(t.zones, |t.zones|) {
      var m: nat :| LastUpTo(t.zones, |t.zones|, m, r.Name()) && list == t.zones[m].secrets;
      RefusedListed(t, files, m, r, |list|);
      forall k: nat, f | SecretBreaks(t.zones, r, k, f) ensures k < |list| { SecretSays(t.zones, m, r, k, f); }
      SamePart(t, files, SecretsTo(r, |list|), SecretsOf(r), Wrapped(Refused(BUILTIN, r, list, |list|)));
    } else {
      NoPlace(t, files);
      NothingRefused(r);
      SamePart(t, files, iset{}, SecretsOf(r), []);
    }
  }

  lemma NothingRefused(r: Role)
    ensures Wrapped(Refused(BUILTIN, r, [], 0)) == []
  {
  }

  ghost function SecretsBelow(n: nat): iset<Place> {
    iset p: Place | p.SecretAt? && p.role.Rank() < n
  }

  lemma {:induction false} SecretsListed(t: Topology, files: set<string>, n: nat)
    requires n <= |ALL|
    ensures Listed(t, files, SecretsBelow(n), Wrapped(Catalogues.Findings(BUILTIN, Declared(t.zones, |t.zones|), n)))
  {
    hide Listed, Refused, Wrapped, Declared, ListOf, BUILTIN;
    var declared := Declared(t.zones, |t.zones|);
    if n == 0 {
      NoPlace(t, files);
      WrappedClean([]);
      assert SecretsBelow(0) == iset{};
    } else {
      SecretsListed(t, files, n - 1);
      var r := ALL[n - 1];
      ListListed(t, files, r);
      var list := ListOf(declared, r);
      var before, found := Catalogues.Findings(BUILTIN, declared, n - 1), Refused(BUILTIN, r, list, |list|);
      WrapsAll(before, found);
      NextPart(t, files, SecretsBelow(n - 1), Wrapped(before), SecretsOf(r), Wrapped(found));
      assert SecretsBelow(n - 1) + SecretsOf(r) == SecretsBelow(n);
    }
  }

  // ---- The whole ----------------------------------------------------------

  ghost function Everywhere(): iset<Place> {
    iset p: Place | p.Stage() <= 5
  }

  /** `Validate` reports exactly what is wrong, each place once, in file order. */
  lemma FindingsInFileOrder(t: Topology, files: set<string>)
    ensures exists spots: seq<Spot> ::
      && InFileOrder(spots) && Reads(spots, Everything(t, files))
      && forall s :: s in spots <==> Breaks(t, files, s.place, s.finding)
  {
    hide Breaks, Before, InFileOrder, Reads, Everything;
    EverythingListed(t, files);
    var spots: seq<Spot> :| Lists(t, files, Everywhere(), Everything(t, files), spots);
  }

  lemma EverythingListed(t: Topology, files: set<string>)
    ensures Listed(t, files, Everywhere(), Everything(t, files))
  {
    hide Listed, HeadFindings, VolumeFindings, ZonesFindings, CountFindings, ReachFindings, Wrapped;
    hide Catalogues.Findings, Declared, AtMost;
    var volumes, zones := |t.machine.volumes|, |t.zones|;
    HeadListed(t, files);
    VolumesListed(t, files, volumes);
    var out, part := HeadFindings(t), HeadTo(5);
    NextPart(t, files, part, out, VolumesTo(volumes), VolumeFindings(t.machine.volumes, volumes));
    out, part := out + VolumeFindings(t.machine.volumes, volumes), part + VolumesTo(volumes);
    ZonesListed(t, files, zones);
    NextPart(t, files, part, out, ZonesTo(zones), ZonesFindings(t.zones, zones, files));
    out, part := out + ZonesFindings(t.zones, zones, files), part + ZonesTo(zones);
    CountsListed(t, files, |ALL|);
    NextPart(t, files, part, out, CountsTo(|ALL|), CountFindings(t.zones, |ALL|));
    out, part := out + CountFindings(t.zones, |ALL|), part + CountsTo(|ALL|);
    ReachListed(t, files, zones);
    NextPart(t, files, part, out, ReachTo(zones), ReachFindings(t.zones, zones));
    out, part := out + ReachFindings(t.zones, zones), part + ReachTo(zones);
    SecretsListed(t, files, |ALL|);
    var secrets := Wrapped(Catalogues.Findings(BUILTIN, Declared(t.zones, zones), |ALL|));
    NextPart(t, files, part, out, SecretsBelow(|ALL|), secrets);
    AllPlaces(t, files);
    SamePart(t, files, part + SecretsBelow(|ALL|), Everywhere(), out + secrets);
  }

  /** Nothing is wrong outside the places gone through. */
  lemma AllPlaces(t: Topology, files: set<string>)
    ensures forall p, f :: Breaks(t, files, p, f) ==>
      p in HeadTo(5) + VolumesTo(|t.machine.volumes|) + ZonesTo(|t.zones|) + CountsTo(|ALL|) + ReachTo(|t.zones|) +
        SecretsBelow(|ALL|)
  {
    hide WorkloadBreaks, BridgeBreaks, CountBreaks, ReachBreaks, SecretBreaks, TwoPaths, ZoneName;
  }

  /** A finding is reported exactly when it is what is wrong somewhere. */
  lemma ReportedIff(t: Topology, files: set<string>, f: Finding)
    ensures f in Everything(t, files) <==> exists p: Place :: Breaks(t, files, p, f)
  {
    hide Breaks, Everything, Lists;
    EverythingListed(t, files);
    var spots: seq<Spot> :| Lists(t, files, Everywhere(), Everything(t, files), spots);
    if f in Everything(t, files) { ReadAt(t, files, Everything(t, files), spots, f); }
    if p: Place :| Breaks(t, files, p, f) { ReadsPlace(t, files, Everything(t, files), spots, p, f); }
  }

  lemma ReadAt(t: Topology, files: set<string>, out: seq<Finding>, spots: seq<Spot>, f: Finding)
    requires Lists(t, files, Everywhere(), out, spots) && f in out
    ensures exists p: Place :: Breaks(t, files, p, f)
  {
    hide Breaks, InFileOrder;
    var i :| 0 <= i < |out| && out[i] == f;
    assert spots[i] in spots;
    assert Breaks(t, files, spots[i].place, f);
  }

  lemma ReadsPlace(t: Topology, files: set<string>, out: seq<Finding>, spots: seq<Spot>, p: Place, f: Finding)
    requires Lists(t, files, Everywhere(), out, spots) && Breaks(t, files, p, f)
    ensures f in out
  {
    hide Breaks, InFileOrder;
    assert p in Everywhere();
    assert Spot(p, f) in spots;
    var i :| 0 <= i < |spots| && spots[i] == Spot(p, f);
    assert out[i] == f;
  }
}

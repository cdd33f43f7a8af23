/** Rule by rule: when a validation reports which finding, with what in it
    (internal/domain/topology.go, internal/domain/catalogue.go). */
module ReportedFindings {
  import opened Text
  import opened Roles
  import opened Catalogues
  import opened Topologies
  import opened Validation
  import opened FileOrder

  lemma HeadReported(t: Topology, files: set<string>)
    ensures var out := Everything(t, files);
      && (OldSchema in out <==> t.schema == 1)
      && (BadSchema in out <==> t.schema != 1 && t.schema != 2)
      && (BadProvider in out <==> t.provider != "libkrun" && t.provider != "applehv")
      && (BadCpus in out <==> t.machine.cpus <= 0)
      && (BadMemory in out <==> t.machine.memoryMiB <= 0)
      && (BadDisk in out <==> t.machine.diskGiB <= 0)
  {
    hide Everything, WorkloadBreaks, BridgeBreaks, CountBreaks, ReachBreaks, SecretBreaks, TwoPaths, ZoneName;
    HeadLine(t, files, OldSchema, 0);
    HeadLine(t, files, BadSchema, 0);
    HeadLine(t, files, BadProvider, 1);
    HeadLine(t, files, BadCpus, 2);
    HeadLine(t, files, BadMemory, 3);
    HeadLine(t, files, BadDisk, 4);
  }

  lemma HeadLine(t: Topology, files: set<string>, f: Finding, line: nat)
    requires f.OldSchema? || f.BadSchema? || f.BadProvider? || f.BadCpus? || f.BadMemory? || f.BadDisk?
    requires forall i :: HeadBreaks(t, i, f) ==> i == line
    ensures f in Everything(t, files) <==> HeadBreaks(t, line, f)
  {
    hide Everything, HeadBreaks, TwoPaths, ZoneName;
    ReportedIff(t, files, f);
    if HeadBreaks(t, line, f) { assert Breaks(t, files, Head(line), f); }
    if p: Place :| Breaks(t, files, p, f) { OnlyHead(t, files, p, f); }
  }

  lemma OnlyHead(t: Topology, files: set<string>, p: Place, f: Finding)
    requires f.OldSchema? || f.BadSchema? || f.BadProvider? || f.BadCpus? || f.BadMemory? || f.BadDisk?
    requires Breaks(t, files, p, f)
    ensures p.Head? && HeadBreaks(t, p.line, f)
  {
    hide HeadBreaks, TwoPaths, ZoneName;
  }

  lemma VolumeReported(t: Topology, files: set<string>, i: nat)
    ensures BadVolume(i) in Everything(t, files) <==>
      i < |t.machine.volumes| && !TwoPaths(t.machine.volumes[i])
  {
    hide Everything, TwoPaths, ZoneName;
    ReportedIff(t, files, BadVolume(i));
    if i < |t.machine.volumes| && !TwoPaths(t.machine.volumes[i]) {
      assert Breaks(t, files, Volume(i), BadVolume(i));
    }
  }

  lemma ZoneReported(t: Topology, files: set<string>, name: string)
    ensures UnknownZone(name) in Everything(t, files) <==>
      !ZoneName(name) && exists z :: z in t.zones && z.name == name
    ensures UnreachableZone(name) in Everything(t, files) <==>
      ZoneName(name) && Times(t.zones, name) == 1 && !LedInto(t.zones, name) &&
        exists z :: z in t.zones && z.name == name && z.internal
  {
    hide Everything, TwoPaths, ZoneName, LedInto, Times;
    ReportedIff(t, files, UnknownZone(name));
    ReportedIff(t, files, UnreachableZone(name));
    if !ZoneName(name) {
      if z :| z in t.zones && z.name == name {
        var n :| 0 <= n < |t.zones| && t.zones[n] == z;
        assert Breaks(t, files, NameOf(n), UnknownZone(name));
      }
    } else if Times(t.zones, name) == 1 && !LedInto(t.zones, name) {
      if z :| z in t.zones && z.name == name && z.internal {
        var n :| 0 <= n < |t.zones| && t.zones[n] == z;
        assert Breaks(t, files, ReachAt(n), UnreachableZone(name));
      }
    }
  }

  lemma CountReported(t: Topology, files: set<string>, r: Role, times: nat)
    ensures MissingZone(r) in Everything(t, files) <==> Times(t.zones, r.Name()) == 0
    ensures RepeatedZone(r, times) in Everything(t, files) <==> Times(t.zones, r.Name()) == times > 1
  {
    hide Everything, TwoPaths, ZoneName, LedInto, Times;
    ReportedIff(t, files, MissingZone(r));
    ReportedIff(t, files, RepeatedZone(r, times));
    if Times(t.zones, r.Name()) == 0 { assert Breaks(t, files, CountAt(r), MissingZone(r)); }
    if Times(t.zones, r.Name()) == times > 1 { assert Breaks(t, files, CountAt(r), RepeatedZone(r, times)); }
  }

  lemma WorkloadNameReported(t: Topology, files: set<string>, zone: string, w: string)
    ensures BadWorkloadName(zone, w) in Everything(t, files) <==>
      !PlainName(w) && exists z :: z in t.zones && z.name == zone && w in z.workloads
  {
    hide Everything, TwoPaths, ZoneName, PlainName, AbsentFiles, ListedBefore;
    var f := BadWorkloadName(zone, w);
    ReportedIff(t, files, f);
    if z :| !PlainName(w) && z in t.zones && z.name == zone && w in z.workloads {
      var n :| 0 <= n < |t.zones| && t.zones[n] == z;
      var k :| 0 <= k < |z.workloads| && z.workloads[k] == w;
      assert Breaks(t, files, WorkloadAt(n, k), f);
    }
    if p: Place :| Breaks(t, files, p, f) { assert p.WorkloadAt? && t.zones[p.zone] in t.zones; }
  }

  /** `w` is at position `k` of zone `n`, was listed before, and zone `m` was first. */
  ghost predicate ListedAgain(zones: seq<ZoneSpec>, n: nat, k: nat, w: string, m: nat) {
    && n < |zones| && k < |zones[n].workloads| && zones[n].workloads[k] == w && ListedBefore(zones, n, k, w, m)
    && m < |zones|
  }

  lemma RepetitionReported(t: Topology, files: set<string>, zone: string, w: string, first: string)
    ensures RepeatedWorkload(zone, w, first) in Everything(t, files) <==>
      PlainName(w) && exists n: nat, k: nat, m: nat ::
        ListedAgain(t.zones, n, k, w, m) && t.zones[n].name == zone && t.zones[m].name == first
  {
    hide Everything, TwoPaths, ZoneName, PlainName, AbsentFiles;
    var f := RepeatedWorkload(zone, w, first);
    ReportedIff(t, files, f);
    if PlainName(w) {
      if n: nat, k: nat, m: nat :|
        ListedAgain(t.zones, n, k, w, m) && t.zones[n].name == zone && t.zones[m].name == first {
        assert Breaks(t, files, WorkloadAt(n, k), f);
      }
    }
    if p: Place :| Breaks(t, files, p, f) {
      var m: nat :| ListedBefore(t.zones, p.zone, p.index, w, m) && first == t.zones[m].name;
      assert ListedAgain(t.zones, p.zone, p.index, w, m);
    }
  }

  lemma MissingReported(t: Topology, files: set<string>, zone: string, w: string, missing: seq<string>)
    ensures MissingFiles(zone, w, missing) in Everything(t, files) <==>
      PlainName(w) && missing == AbsentFiles(w, files) && missing != [] &&
        exists n: nat :: ListedFirst(t.zones, n, w) && t.zones[n].name == zone
  {
    hide Everything, TwoPaths, ZoneName, PlainName, AbsentFiles;
    var f := MissingFiles(zone, w, missing);
    ReportedIff(t, files, f);
    if PlainName(w) && missing == AbsentFiles(w, files) && missing != [] {
      if n: nat :| ListedFirst(t.zones, n, w) && t.zones[n].name == zone {
        var k := FirstPosition(t.zones[n].workloads, w);
        assert Breaks(t, files, WorkloadAt(n, k), f);
      }
    }
    if p: Place :| Breaks(t, files, p, f) { FirstHere(t.zones, p.zone, p.index, w); }
  }

  lemma FirstPosition(ws: seq<string>, w: string) returns (k: nat)
    requires w in ws
    ensures k < |ws| && ws[k] == w && w !in ws[..k]
  {
    k := 0;
    while ws[k] != w
      invariant k < |ws| && w in ws[k..] && w !in ws[..k]
      decreases |ws| - k
    {
      k := k + 1;
    }
  }

  /** Not listed before position `k` of zone `n`, so listed there first. */
  lemma FirstHere(zones: seq<ZoneSpec>, n: nat, k: nat, w: string)
    requires n < |zones| && k < |zones[n].workloads| && zones[n].workloads[k] == w
    requires !exists m: nat :: ListedBefore(zones, n, k, w, m)
    ensures ListedFirst(zones, n, w)
  {
    hide FirstZone;
    FirstZoneMeans(zones, n, w);
    if FirstZone(zones, n, w).Some? {
      var m: nat :| m < n && ListedFirst(zones, m, w);
      FirstIsBefore(zones, n, k, w, m);
    }
  }

  lemma FirstIsBefore(zones: seq<ZoneSpec>, n: nat, k: nat, w: string, m: nat)
    requires m < n < |zones| && k <= |zones[n].workloads| && ListedFirst(zones, m, w)
    ensures ListedBefore(zones, n, k, w, m)
  {
  }

  ghost predicate BridgeOf(zones: seq<ZoneSpec>, n: nat, zone: string, w: string) {
    n < |zones| && zones[n].name == zone && w in zones[n].bridges
  }

  ghost predicate OpenBridge(zones: seq<ZoneSpec>, n: nat, zone: string, w: string) {
    BridgeOf(zones, n, zone, w) && Accepts(zones, n, w) && !zones[n].internal
  }

  lemma BridgeReported(t: Topology, files: set<string>, zone: string, w: string)
    ensures ForeignBridge(zone, w) in Everything(t, files) <==>
      exists n: nat :: BridgeOf(t.zones, n, zone, w) && !Accepts(t.zones, n, w)
    ensures InternalBridge(zone, w) in Everything(t, files) <==>
      exists n: nat :: BridgeOf(t.zones, n, zone, w) && Accepts(t.zones, n, w) && t.zones[n].internal
  {
    hide Everything, TwoPaths, ZoneName, Accepts, WorkloadBreaks;
    ReportedIff(t, files, ForeignBridge(zone, w));
    ReportedIff(t, files, InternalBridge(zone, w));
    if n: nat :| BridgeOf(t.zones, n, zone, w) && !Accepts(t.zones, n, w) {
      assert Breaks(t, files, BridgeAt(n, w, 0), ForeignBridge(zone, w));
    }
    if n: nat :| BridgeOf(t.zones, n, zone, w) && Accepts(t.zones, n, w) && t.zones[n].internal {
      assert Breaks(t, files, BridgeAt(n, w, 0), InternalBridge(zone, w));
    }
    if p: Place :| Breaks(t, files, p, ForeignBridge(zone, w)) {
      BridgePlace(t, files, p, ForeignBridge(zone, w), zone, w);
    }
    if p: Place :| Breaks(t, files, p, InternalBridge(zone, w)) {
      BridgePlace(t, files, p, InternalBridge(zone, w), zone, w);
    }
  }

  /** What a finding about a bridge is about. */
  ghost predicate AboutBridge(f: Finding, zone: string, w: string) {
    match f
    case ForeignBridge(z, x) => z == zone && x == w
    case InternalBridge(z, x) => z == zone && x == w
    case UnknownTarget(z, x, _) => z == zone && x == w
    case OwnTarget(z, x) => z == zone && x == w
    case RepeatedTarget(z, x, _) => z == zone && x == w
    case _ => false
  }

  lemma BridgePlace(t: Topology, files: set<string>, p: Place, f: Finding, zone: string, w: string)
    requires AboutBridge(f, zone, w) && Breaks(t, files, p, f)
    ensures p.BridgeAt? && p.workload == w && BridgeOf(t.zones, p.zone, zone, w)
    ensures BridgeBreaks(t.zones, p.zone, w, p.index, f)
    ensures !f.ForeignBridge? && !f.InternalBridge? ==>
      OpenBridge(t.zones, p.zone, zone, w) && p.index < |t.zones[p.zone].bridges[w]|
  {
    hide TwoPaths, ZoneName, Accepts;
  }

  lemma TargetReported(t: Topology, files: set<string>, zone: string, w: string, target: string)
    ensures UnknownTarget(zone, w, target) in Everything(t, files) <==>
      !ZoneName(target) && exists n: nat :: OpenBridge(t.zones, n, zone, w) && target in t.zones[n].bridges[w]
    ensures OwnTarget(zone, w) in Everything(t, files) <==>
      ZoneName(zone) && exists n: nat :: OpenBridge(t.zones, n, zone, w) && zone in t.zones[n].bridges[w]
    ensures RepeatedTarget(zone, w, target) in Everything(t, files) <==>
      ZoneName(target) && target != zone &&
        exists n: nat, i: nat, j: nat :: OpenBridge(t.zones, n, zone, w) && Twice(t.zones[n].bridges[w], i, j, target)
  {
    hide Everything, Breaks, ZoneName, OpenBridge;
    TargetFound(t, files, UnknownTarget(zone, w, target), zone, w);
    TargetFound(t, files, OwnTarget(zone, w), zone, w);
    TargetFound(t, files, RepeatedTarget(zone, w, target), zone, w);
    forall n: nat | OpenBridge(t.zones, n, zone, w)
      ensures n < |t.zones| && w in t.zones[n].bridges
      ensures (exists k: nat :: TargetBreaks(t.zones, n, w, k, UnknownTarget(zone, w, target))) <==>
        !ZoneName(target) && target in t.zones[n].bridges[w]
      ensures (exists k: nat :: TargetBreaks(t.zones, n, w, k, OwnTarget(zone, w))) <==>
        ZoneName(zone) && zone in t.zones[n].bridges[w]
      ensures (exists k: nat :: TargetBreaks(t.zones, n, w, k, RepeatedTarget(zone, w, target))) <==>
        ZoneName(target) && target != zone && exists i: nat, j: nat :: Twice(t.zones[n].bridges[w], i, j, target)
    {
      TargetBreaksMean(t.zones, n, zone, w, target);
    }
  }

  ghost predicate Twice(list: seq<string>, i: nat, j: nat, x: string) {
    i < j < |list| && list[i] == x && list[j] == x
  }

  /** `f` is what is wrong with target `k` of an open bridge. */
  ghost predicate TargetBreaks(zones: seq<ZoneSpec>, n: nat, w: string, k: nat, f: Finding) {
    n < |zones| && w in zones[n].bridges && k < |zones[n].bridges[w]| && BridgeBreaks(zones, n, w, k, f)
  }

  lemma TargetFound(t: Topology, files: set<string>, f: Finding, zone: string, w: string)
    requires AboutBridge(f, zone, w) && !f.ForeignBridge? && !f.InternalBridge?
    ensures f in Everything(t, files) <==>
      exists n: nat, k: nat :: OpenBridge(t.zones, n, zone, w) && TargetBreaks(t.zones, n, w, k, f)
  {
    hide Everything, BridgeBreaks, Breaks;
    ReportedIff(t, files, f);
    if p: Place :| Breaks(t, files, p, f) {
      BridgePlace(t, files, p, f, zone, w);
      assert TargetBreaks(t.zones, p.zone, w, p.index, f);
    }
    if n: nat, k: nat :| OpenBridge(t.zones, n, zone, w) && TargetBreaks(t.zones, n, w, k, f) {
      assert Breaks(t, files, BridgeAt(n, w, k), f) by { BreaksThere(t, files, n, w, k, f); }
    }
  }

  lemma BreaksThere(t: Topology, files: set<string>, n: nat, w: string, k: nat, f: Finding)
    requires TargetBreaks(t.zones, n, w, k, f)
    ensures Breaks(t, files, BridgeAt(n, w, k), f)
  {
    hide BridgeBreaks;
  }

  lemma TargetBreaksMean(zones: seq<ZoneSpec>, n: nat, zone: string, w: string, target: string)
    requires OpenBridge(zones, n, zone, w)
    ensures n < |zones| && w in zones[n].bridges
    ensures (exists k: nat :: TargetBreaks(zones, n, w, k, UnknownTarget(zone, w, target))) <==>
      !ZoneName(target) && target in zones[n].bridges[w]
    ensures (exists k: nat :: TargetBreaks(zones, n, w, k, OwnTarget(zone, w))) <==>
      ZoneName(zone) && zone in zones[n].bridges[w]
    ensures (exists k: nat :: TargetBreaks(zones, n, w, k, RepeatedTarget(zone, w, target))) <==>
      ZoneName(target) && target != zone && exists i: nat, j: nat :: Twice(zones[n].bridges[w], i, j, target)
  {
    hide ZoneName, Accepts;
    var list := zones[n].bridges[w];
    if target in list {
      var k :| 0 <= k < |list| && list[k] == target;
      if !ZoneName(target) { assert TargetBreaks(zones, n, w, k, UnknownTarget(zone, w, target)); }
    }
    if zone in list {
      var k :| 0 <= k < |list| && list[k] == zone;
      if ZoneName(zone) { assert TargetBreaks(zones, n, w, k, OwnTarget(zone, w)); }
    }
    if i: nat, j: nat :| Twice(list, i, j, target) {
      assert list[..j][i] == target;
      if ZoneName(target) && target != zone { assert TargetBreaks(zones, n, w, j, RepeatedTarget(zone, w, target)); }
    }
    if k: nat :| TargetBreaks(zones, n, w, k, RepeatedTarget(zone, w, target)) {
      var i :| 0 <= i < k && list[..k][i] == target;
      assert Twice(list, i, k, target);
    }
  }

  /** Of the last zone named after `r`: a name that is no DNS label, else one of
      a built-in secret, else one that is listed twice. */
  lemma SecretReported(t: Topology, files: set<string>, r: Role, name: string)
    ensures BadSecret(SecretFinding(r, name, Malformed)) in Everything(t, files) <==>
      !DnsLabel(name) && exists m: nat :: LastNamed(t.zones, m, r.Name()) && name in t.zones[m].secrets
    ensures BadSecret(SecretFinding(r, name, CollidesWithBuiltin)) in Everything(t, files) <==>
      DnsLabel(name) && BuiltinName(name) &&
        exists m: nat :: LastNamed(t.zones, m, r.Name()) && name in t.zones[m].secrets
    ensures BadSecret(SecretFinding(r, name, ListedTwice)) in Everything(t, files) <==>
      DnsLabel(name) && !BuiltinName(name) &&
        exists m: nat, i: nat, j: nat :: LastNamed(t.zones, m, r.Name()) && Twice(t.zones[m].secrets, i, j, name)
  {
    hide Everything, Breaks, DnsLabel, BuiltinName, LastNamed;
    SecretFound(t, files, r, name, Malformed);
    SecretFound(t, files, r, name, CollidesWithBuiltin);
    SecretFound(t, files, r, name, ListedTwice);
    forall m: nat | LastNamed(t.zones, m, r.Name())
      ensures m < |t.zones|
      ensures (exists k: nat :: ProblemAt(t.zones[m].secrets, k, name, Malformed)) <==>
        !DnsLabel(name) && name in t.zones[m].secrets
      ensures (exists k: nat :: ProblemAt(t.zones[m].secrets, k, name, CollidesWithBuiltin)) <==>
        DnsLabel(name) && BuiltinName(name) && name in t.zones[m].secrets
      ensures (exists k: nat :: ProblemAt(t.zones[m].secrets, k, name, ListedTwice)) <==>
        DnsLabel(name) && !BuiltinName(name) && exists i: nat, j: nat :: Twice(t.zones[m].secrets, i, j, name)
    {
      LastIsThere(t.zones, m, r);
      ProblemsMean(t.zones[m].secrets, name);
    }
  }

  lemma LastIsThere(zones: seq<ZoneSpec>, m: nat, r: Role)
    requires LastNamed(zones, m, r.Name())
    ensures m < |zones|
  {
  }

  ghost predicate ProblemAt(list: seq<string>, k: nat, name: string, problem: Problem) {
    k < |list| && list[k] == name && SecretProblem(list, k, problem)
  }

  lemma SecretFound(t: Topology, files: set<string>, r: Role, name: string, problem: Problem)
    ensures BadSecret(SecretFinding(r, name, problem)) in Everything(t, files) <==>
      exists m: nat, k: nat ::
        LastNamed(t.zones, m, r.Name()) && m < |t.zones| && ProblemAt(t.zones[m].secrets, k, name, problem)
  {
    hide Everything, SecretProblem, TwoPaths, ZoneName, LedInto, Times;
    var f := BadSecret(SecretFinding(r, name, problem));
    ReportedIff(t, files, f);
    if p: Place :| Breaks(t, files, p, f) {
      assert p.SecretAt? && p.role == r;
      var n: nat :| LastNamed(t.zones, n, r.Name()) && n < |t.zones| && p.index < |t.zones[n].secrets| &&
        name == t.zones[n].secrets[p.index] && SecretProblem(t.zones[n].secrets, p.index, problem);
      assert ProblemAt(t.zones[n].secrets, p.index, name, problem);
    }
    if m: nat, k: nat :|
      LastNamed(t.zones, m, r.Name()) && m < |t.zones| && ProblemAt(t.zones[m].secrets, k, name, problem) {
      assert Breaks(t, files, SecretAt(r, k), f);
    }
  }

  lemma ProblemsMean(list: seq<string>, name: string)
    ensures (exists k: nat :: ProblemAt(list, k, name, Malformed)) <==> !DnsLabel(name) && name in list
    ensures (exists k: nat :: ProblemAt(list, k, name, CollidesWithBuiltin)) <==>
      DnsLabel(name) && BuiltinName(name) && name in list
    ensures (exists k: nat :: ProblemAt(list, k, name, ListedTwice)) <==>
      DnsLabel(name) && !BuiltinName(name) && exists i: nat, j: nat :: Twice(list, i, j, name)
  {
    hide DnsLabel, BuiltinName;
    if name in list {
      var k :| 0 <= k < |list| && list[k] == name;
      assert !DnsLabel(name) ==> ProblemAt(list, k, name, Malformed);
      assert DnsLabel(name) && BuiltinName(name) ==> ProblemAt(list, k, name, CollidesWithBuiltin);
    }
    if i: nat, j: nat :| Twice(list, i, j, name) {
      assert list[..j][i] == name;
      assert DnsLabel(name) && !BuiltinName(name) ==> ProblemAt(list, j, name, ListedTwice);
    }
    if k: nat :| ProblemAt(list, k, name, ListedTwice) {
      var i :| 0 <= i < k && list[..k][i] == name;
      assert Twice(list, i, k, name);
    }
  }

  // ---- The catalogue alone ------------------------------------------------

  lemma {:induction false} RefusedIff(builtin: seq<SecretSpec>, role: Role, list: seq<string>, k: nat, f: SecretFinding)
    requires k <= |list|
    ensures f in Refused(builtin, role, list, k) <==>
      f.zone == role && exists j :: 0 <= j < k && list[j] == f.name && Refusal(builtin, list, j) == Some(f.problem)
  {
    hide Refusal;
    if k > 0 { RefusedIff(builtin, role, list, k - 1, f); }
  }

  lemma {:induction false} FoundIff(
    builtin: seq<SecretSpec>, declared: map<string, seq<string>>, n: nat, f: SecretFinding)
    requires n <= |ALL|
    ensures f in Catalogues.Findings(builtin, declared, n) <==>
      f.zone.Rank() < n &&
        f in Refused(builtin, f.zone, ListOf(declared, f.zone), |ListOf(declared, f.zone)|)
  {
    hide Refused, ListOf;
    if n > 0 {
      FoundIff(builtin, declared, n - 1, f);
      var list := ListOf(declared, ALL[n - 1]);
      OnlyItsRole(builtin, ALL[n - 1], list, f);
    }
  }

  lemma OnlyItsRole(builtin: seq<SecretSpec>, role: Role, list: seq<string>, f: SecretFinding)
    ensures f in Refused(builtin, role, list, |list|) ==> f.zone == role
  {
    RefusedIff(builtin, role, list, |list|, f);
  }

  /** What the findings of a catalogue say, whatever the built-in entries are. */
  lemma CatalogueReports(builtin: seq<SecretSpec>, declared: map<string, seq<string>>, r: Role, name: string)
    ensures var out, list := Catalogues.Findings(builtin, declared, |ALL|), ListOf(declared, r);
      && (SecretFinding(r, name, Malformed) in out <==> !DnsLabel(name) && name in list)
      && (SecretFinding(r, name, CollidesWithBuiltin) in out <==>
        DnsLabel(name) && name in list && exists b :: b in builtin && b.name == name)
      && (SecretFinding(r, name, ListedTwice) in out <==>
        DnsLabel(name) && !(exists b :: b in builtin && b.name == name) &&
          exists i: nat, j: nat :: Twice(list, i, j, name))
  {
    hide DnsLabel, ValidName, Refused, Catalogues.Findings, ListOf;
    var list := ListOf(declared, r);
    SecretNameMeans(name);
    RefusedFound(builtin, declared, r, name, Malformed);
    RefusedFound(builtin, declared, r, name, CollidesWithBuiltin);
    RefusedFound(builtin, declared, r, name, ListedTwice);
    if i: nat, j: nat :| Twice(list, i, j, name) { assert list[..j][i] == name; }
    if j :| 0 <= j < |list| && list[j] == name && Refusal(builtin, list, j) == Some(ListedTwice) {
      var i :| 0 <= i < j && list[..j][i] == name;
      assert Twice(list, i, j, name);
    }
  }

  lemma RefusedFound(
    builtin: seq<SecretSpec>, declared: map<string, seq<string>>, r: Role, name: string, problem: Problem)
    ensures SecretFinding(r, name, problem) in Catalogues.Findings(builtin, declared, |ALL|) <==>
      exists j :: 0 <= j < |ListOf(declared, r)| && ListOf(declared, r)[j] == name &&
        Refusal(builtin, ListOf(declared, r), j) == Some(problem)
  {
    hide Refused, Catalogues.Findings, ListOf, Refusal;
    FoundIff(builtin, declared, |ALL|, SecretFinding(r, name, problem));
    RefusedIff(builtin, r, ListOf(declared, r), |ListOf(declared, r)|, SecretFinding(r, name, problem));
  }

  /** Every entry that is not built in comes from the user and may be rotated;
      its zones are exactly those that declare it, in zone order. */
  lemma DeclaredEntry(
    builtin: seq<SecretSpec>, declared: map<string, seq<string>>, entries: seq<SecretSpec>, e: SecretSpec)
    requires IsCatalogue(builtin, declared, entries) && e in entries && e !in builtin
    ensures DnsLabel(e.name) && !(exists b :: b in builtin && b.name == e.name)
    ensures e.source.User? && e.rotatable && e.zones != [] && InZoneOrder(e.zones)
    ensures forall r: Role :: r in e.zones <==> e.name in ListOf(declared, r)
  {
    hide ValidName, DnsLabel, Catalogues.InOrder;
    SecretNameMeans(e.name);
    ZonesDeclare(declared, e.name, |ALL|);
  }
}

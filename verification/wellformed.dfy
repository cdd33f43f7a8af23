/** A topology has no findings exactly when it is well formed, and what the
    rest of the program may then rely on. */
module WellFormedness {
  import opened Text
  import opened Roles
  import opened Catalogues
  import opened Topologies
  import opened Validation

  lemma HeadClean(t: Topology)
    ensures HeadFindings(t) == [] <==>
      t.schema == SCHEMA && t.provider in PROVIDERS && t.machine.cpus > 0 && t.machine.memoryMiB > 0 &&
        t.machine.diskGiB > 0
  {
  }

  lemma {:induction false} VolumesClean(volumes: seq<string>, n: nat)
    requires n <= |volumes|
    ensures VolumeFindings(volumes, n) == [] <==> forall i :: 0 <= i < n ==> ValidVolume(volumes[i])
  {
    hide ValidVolume, Single;
    if n > 0 {
      VolumesClean(volumes, n - 1);
      VolumesStep(volumes, n);
    }
  }

  lemma VolumesStep(volumes: seq<string>, n: nat)
    requires 0 < n <= |volumes|
    ensures VolumeFindings(volumes, n) == [] <==>
      VolumeFindings(volumes, n - 1) == [] && ValidVolume(volumes[n - 1])
  {
    hide ValidVolume;
  }

  // ---- Workloads ----------------------------------------------------------

  lemma {:induction false} AbsentClean(names: seq<string>, files: set<string>)
    ensures Absent(names, files) == [] <==> forall f :: f in names ==> f in files
  {
    if names != [] {
      AbsentClean(names[..|names| - 1], files);
      assert names == names[..|names| - 1] + [names[|names| - 1]];
    }
  }

  lemma {:induction false} FirstZoneNone(zones: seq<ZoneSpec>, n: nat, w: string)
    requires n <= |zones|
    ensures FirstZone(zones, n, w).None? <==> forall i :: 0 <= i < n ==> w !in zones[i].workloads
  {
    if n > 0 { FirstZoneNone(zones, n - 1, w); }
  }

  lemma WorkloadClean(zones: seq<ZoneSpec>, n: nat, k: nat, files: set<string>)
    requires n < |zones| && k < |zones[n].workloads|
    ensures var w := zones[n].workloads[k];
      WorkloadFinding(zones, n, k, files) == [] <==>
      ValidWorkloadName(w) && HasFiles(w, files) && w !in zones[n].workloads[..k] && FirstZone(zones, n, w).None?
  {
    AbsentClean(RequiredFiles(zones[n].workloads[k]), files);
  }

  lemma {:induction false} WorkloadsCleanUpTo(zones: seq<ZoneSpec>, n: nat, k: nat, files: set<string>)
    requires n < |zones| && k <= |zones[n].workloads|
    ensures WorkloadFindings(zones, n, k, files) == [] <==>
      forall j :: 0 <= j < k ==> WorkloadFinding(zones, n, j, files) == []
  {
    hide WorkloadFinding;
    if k > 0 { WorkloadsCleanUpTo(zones, n, k - 1, files); }
  }

  lemma DistinctByPrefix(xs: seq<string>)
    ensures Distinct(xs) <==> forall k :: 0 <= k < |xs| ==> xs[k] !in xs[..k]
  {
    if forall k :: 0 <= k < |xs| ==> xs[k] !in xs[..k] {
      forall i, j | 0 <= i < j < |xs| ensures xs[i] != xs[j] {
        assert xs[..j][i] == xs[i];
      }
    }
  }

  lemma WorkloadsClean(zones: seq<ZoneSpec>, n: nat, files: set<string>)
    requires n < |zones|
    ensures WorkloadFindings(zones, n, |zones[n].workloads|, files) == [] <==> GoodWorkloads(zones, n, files)
  {
    hide WorkloadFinding, WorkloadFindings, FirstZone, ValidWorkloadName, HasFiles;
    var ws := zones[n].workloads;
    WorkloadsCleanUpTo(zones, n, |ws|, files);
    DistinctByPrefix(ws);
    forall k | 0 <= k < |ws|
      ensures WorkloadFinding(zones, n, k, files) == [] <==>
        ValidWorkloadName(ws[k]) && HasFiles(ws[k], files) && ws[k] !in ws[..k] &&
          (forall i :: 0 <= i < n ==> ws[k] !in zones[i].workloads)
    {
      WorkloadClean(zones, n, k, files);
      FirstZoneNone(zones, n, ws[k]);
    }
  }

  // ---- Bridges ------------------------------------------------------------

  lemma {:induction false} TargetsCleanUpTo(z: ZoneSpec, w: string, targets: seq<string>, k: nat)
    requires k <= |targets|
    ensures TargetFindings(z, w, targets, k) == [] <==>
      forall j :: 0 <= j < k ==> IsRole(targets[j]) && targets[j] != z.name && targets[j] !in targets[..j]
  {
    hide IsRole, TargetFinding;
    if k > 0 {
      TargetsCleanUpTo(z, w, targets, k - 1);
      TargetClean(z, w, targets, k - 1);
    }
  }

  lemma TargetClean(z: ZoneSpec, w: string, targets: seq<string>, k: nat)
    requires k < |targets|
    ensures TargetFinding(z, w, targets, k) == [] <==>
      IsRole(targets[k]) && targets[k] != z.name && targets[k] !in targets[..k]
  {
    hide IsRole;
  }

  lemma TargetsClean(z: ZoneSpec, w: string)
    requires w in z.bridges
    ensures TargetFindings(z, w, z.bridges[w], |z.bridges[w]|) == [] <==> GoodTargets(z, w)
  {
    TargetsCleanUpTo(z, w, z.bridges[w], |z.bridges[w]|);
    DistinctByPrefix(z.bridges[w]);
  }

  lemma {:induction false} BridgesCleanUpTo(zones: seq<ZoneSpec>, n: nat, names: seq<string>, k: nat)
    requires n < |zones| && k <= |names|
    requires forall w :: w in names ==> w in zones[n].bridges
    ensures BridgeFindings(zones, n, names, k) == [] <==>
      forall j :: 0 <= j < k ==> BridgeFinding(zones, n, names[j]) == []
  {
    hide BridgeFinding;
    if k > 0 { BridgesCleanUpTo(zones, n, names, k - 1); }
  }

  lemma OwnsMeans(zones: seq<ZoneSpec>, n: nat, files: set<string>, w: string)
    requires n < |zones| && GoodWorkloads(zones, n, files)
    ensures Owns(zones, n, w) <==> w in zones[n].workloads
  {
    FirstZoneNone(zones, n, w);
  }

  lemma BridgeClean(zones: seq<ZoneSpec>, n: nat, files: set<string>, w: string)
    requires n < |zones| && GoodWorkloads(zones, n, files) && w in zones[n].bridges
    ensures BridgeFinding(zones, n, w) == [] <==>
      w in zones[n].workloads && !zones[n].internal && GoodTargets(zones[n], w)
  {
    OwnsMeans(zones, n, files, w);
    TargetsClean(zones[n], w);
  }

  lemma BridgesClean(zones: seq<ZoneSpec>, n: nat, files: set<string>)
    requires n < |zones| && GoodWorkloads(zones, n, files)
    ensures var names := Listing(zones[n].bridges.Keys);
      BridgeFindings(zones, n, names, |names|) == [] <==> GoodBridges(zones[n])
  {
    hide BridgeFinding, BridgeFindings, GoodWorkloads, GoodTargets;
    var names := Listing(zones[n].bridges.Keys);
    BridgesCleanUpTo(zones, n, names, |names|);
    forall w | w in zones[n].bridges
      ensures BridgeFinding(zones, n, w) == [] <==>
        w in zones[n].workloads && !zones[n].internal && GoodTargets(zones[n], w)
    {
      BridgeClean(zones, n, files, w);
    }
    if forall j :: 0 <= j < |names| ==> BridgeFinding(zones, n, names[j]) == [] {
      forall w | w in zones[n].bridges ensures BridgeFinding(zones, n, w) == [] {
        assert w in names;
      }
    }
  }

  // ---- Zones --------------------------------------------------------------

  ghost predicate GoodZone(zones: seq<ZoneSpec>, i: nat, files: set<string>)
    requires i < |zones|
  {
    IsRole(zones[i].name) && GoodWorkloads(zones, i, files) && GoodBridges(zones[i])
  }

  lemma ZoneClean(zones: seq<ZoneSpec>, i: nat, files: set<string>)
    requires i < |zones|
    ensures ZoneFindings(zones, i, files) == [] <==> GoodZone(zones, i, files)
  {
    WorkloadsClean(zones, i, files);
    if GoodWorkloads(zones, i, files) {
      BridgesClean(zones, i, files);
    }
  }

  lemma {:induction false} ZonesClean(zones: seq<ZoneSpec>, n: nat, files: set<string>)
    requires n <= |zones|
    ensures ZonesFindings(zones, n, files) == [] <==> forall i :: 0 <= i < n ==> GoodZone(zones, i, files)
  {
    hide GoodZone, ZoneFindings;
    if n > 0 {
      ZonesClean(zones, n - 1, files);
      ZoneClean(zones, n - 1, files);
    }
  }

  // ---- Every role once ----------------------------------------------------

  lemma {:induction false} CountZero(zones: seq<ZoneSpec>, n: nat, name: string)
    requires n <= |zones|
    ensures CountOf(zones, n, name) == 0 <==> forall i :: 0 <= i < n ==> zones[i].name != name
  {
    if n > 0 { CountZero(zones, n - 1, name); }
  }

  lemma {:induction false} CountOne(zones: seq<ZoneSpec>, n: nat, name: string)
    requires n <= |zones|
    ensures CountOf(zones, n, name) == 1 <==> exists i: nat :: OnlyUpTo(zones, n, name, i)
  {
    if n > 0 {
      CountOne(zones, n - 1, name);
      CountZero(zones, n - 1, name);
      CountOneStep(zones, n - 1, n, name);
    }
  }

  /** Zone `i` is the only one of the first `n` with that name. */
  ghost predicate OnlyUpTo(zones: seq<ZoneSpec>, n: nat, name: string, i: nat)
    requires n <= |zones|
  {
    i < n && zones[i].name == name && forall j :: 0 <= j < n && j != i ==> zones[j].name != name
  }

  lemma CountOneStep(zones: seq<ZoneSpec>, m: nat, n: nat, name: string)
    requires n == m + 1 && n <= |zones|
    ensures zones[m].name != name ==>
      ((exists i: nat :: OnlyUpTo(zones, n, name, i)) <==> exists i: nat :: OnlyUpTo(zones, m, name, i))
    ensures zones[m].name == name ==> ((exists i: nat :: OnlyUpTo(zones, n, name, i)) <==> OnlyUpTo(zones, n, name, m))
  {
    if zones[m].name != name {
      if i: nat :| OnlyUpTo(zones, n, name, i) { assert OnlyUpTo(zones, m, name, i); }
      if i: nat :| OnlyUpTo(zones, m, name, i) { assert OnlyUpTo(zones, n, name, i); }
    }
  }

  lemma CountsClean(zones: seq<ZoneSpec>)
    ensures CountFindings(zones, |ALL|) == [] <==> forall r: Role :: NamedOnce(zones, r)
  {
    forall r: Role ensures CountFinding(zones, r) == [] <==> NamedOnce(zones, r) {
      CountOne(zones, |zones|, r.Name());
      if NamedOnce(zones, r) {
        var i: nat :| OnlyZone(zones, i, r);
        assert OnlyUpTo(zones, |zones|, r.Name(), i);
        assert CountOf(zones, |zones|, r.Name()) == 1;
      }
      if CountOf(zones, |zones|, r.Name()) == 1 {
        var i: nat :| OnlyUpTo(zones, |zones|, r.Name(), i);
        assert OnlyZone(zones, i, r);
      }
    }
    CountFindingsClean(zones);
  }

  lemma CountFindingsClean(zones: seq<ZoneSpec>)
    ensures CountFindings(zones, |ALL|) == [] <==> forall r: Role :: CountFinding(zones, r) == []
  {
    assert forall r: Role :: r.Infra? || r.Services? || r.Agent?;
    assert CountFindings(zones, 1) == [] + CountFinding(zones, ALL[0]);
    assert CountFindings(zones, 2) == CountFindings(zones, 1) + CountFinding(zones, ALL[1]);
    assert CountFindings(zones, 3) == CountFindings(zones, 2) + CountFinding(zones, ALL[2]);
  }

  // ---- Internal zones -----------------------------------------------------

  lemma {:induction false} ReachCleanUpTo(zones: seq<ZoneSpec>, n: nat)
    requires n <= |zones|
    ensures ReachFindings(zones, n) == [] <==> forall i :: 0 <= i < n ==> !Unreachable(zones, i)
  {
    hide Unreachable;
    if n > 0 { ReachCleanUpTo(zones, n - 1); }
  }

  lemma ReachesMeans(zones: seq<ZoneSpec>, files: set<string>, target: string)
    requires forall i :: 0 <= i < |zones| ==> GoodZone(zones, i, files)
    ensures Reaches(zones, |zones|, target) <==> exists y :: y in zones && BridgesInto(y, target)
  {
    if y :| y in zones && BridgesInto(y, target) {
      var i :| 0 <= i < |zones| && zones[i] == y;
      var w :| w in y.bridges && target in y.bridges[w];
      assert GoodZone(zones, i, files);
      OwnsMeans(zones, i, files, w);
      assert target in Bridged(y, w);
      assert ReachedThrough(zones, i, w, target);
    }
    if Reaches(zones, |zones|, target) {
      var i, w :| 0 <= i < |zones| && w in zones[i].bridges && ReachedThrough(zones, i, w, target);
      assert zones[i] in zones && BridgesInto(zones[i], target);
    }
  }

  lemma ReachClean(zones: seq<ZoneSpec>, files: set<string>)
    requires forall i :: 0 <= i < |zones| ==> GoodZone(zones, i, files)
    requires forall r: Role :: NamedOnce(zones, r)
    ensures ReachFindings(zones, |zones|) == [] <==>
      forall z :: z in zones && z.internal ==> exists y :: y in zones && BridgesInto(y, z.name)
  {
    ReachCleanUpTo(zones, |zones|);
    forall i | 0 <= i < |zones|
      ensures Unreachable(zones, i) <==> zones[i].internal && !exists y :: y in zones && BridgesInto(y, zones[i].name)
    {
      assert GoodZone(zones, i, files);
      ReachesMeans(zones, files, zones[i].name);
      var r := ParseRole(zones[i].name).value;
      assert NamedOnce(zones, r);
      var k: nat :| OnlyZone(zones, k, r);
      assert OnlyUpTo(zones, |zones|, r.Name(), k);
      CountOne(zones, |zones|, r.Name());
    }
  }

  // ---- Secrets ------------------------------------------------------------

  lemma {:induction false} RefusedClean(role: Role, list: seq<string>, k: nat)
    requires k <= |list|
    ensures Refused(BUILTIN, role, list, k) == [] <==> forall j :: 0 <= j < k ==> Refusal(BUILTIN, list, j).None?
  {
    hide Refusal;
    if k > 0 { RefusedClean(role, list, k - 1); }
  }

  ghost predicate GoodList(list: seq<string>) {
    (forall n :: n in list ==> Declarable(BUILTIN, n)) && Distinct(list)
  }

  lemma ListClean(role: Role, list: seq<string>)
    ensures Refused(BUILTIN, role, list, |list|) == [] <==> GoodList(list)
  {
    RefusedClean(role, list, |list|);
    DistinctByPrefix(list);
    forall j | 0 <= j < |list|
      ensures Refusal(BUILTIN, list, j).None? <==> Declarable(BUILTIN, list[j]) && list[j] !in list[..j]
    {}
  }

  lemma SecretsClean(declared: map<string, seq<string>>)
    ensures Catalogues.Findings(BUILTIN, declared, |ALL|) == [] <==> AllListsGood(declared)
  {
    assert forall r: Role :: r.Infra? || r.Services? || r.Agent?;
    ListClean(ALL[0], ListOf(declared, ALL[0]));
    ListClean(ALL[1], ListOf(declared, ALL[1]));
    ListClean(ALL[2], ListOf(declared, ALL[2]));
    FindingsUnfold(declared);
  }

  lemma FindingsUnfold(declared: map<string, seq<string>>)
    ensures Catalogues.Findings(BUILTIN, declared, |ALL|) ==
      Refused(BUILTIN, ALL[0], ListOf(declared, ALL[0]), |ListOf(declared, ALL[0])|)
      + Refused(BUILTIN, ALL[1], ListOf(declared, ALL[1]), |ListOf(declared, ALL[1])|)
      + Refused(BUILTIN, ALL[2], ListOf(declared, ALL[2]), |ListOf(declared, ALL[2])|)
  {
    assert Catalogues.Findings(BUILTIN, declared, 0) == [];
    assert Catalogues.Findings(BUILTIN, declared, 1) ==
      Refused(BUILTIN, ALL[0], ListOf(declared, ALL[0]), |ListOf(declared, ALL[0])|);
    assert Catalogues.Findings(BUILTIN, declared, 2) == Catalogues.Findings(BUILTIN, declared, 1)
      + Refused(BUILTIN, ALL[1], ListOf(declared, ALL[1]), |ListOf(declared, ALL[1])|);
  }

  lemma {:induction false} DeclaredOf(zones: seq<ZoneSpec>, n: nat, i: nat)
    requires i < n <= |zones|
    requires forall j :: 0 <= j < n && j != i ==> zones[j].name != zones[i].name
    ensures zones[i].name in Declared(zones, n) && Declared(zones, n)[zones[i].name] == zones[i].secrets
  {
    if i < n - 1 { DeclaredOf(zones, n - 1, i); }
  }

  lemma NamedOnceMeans(zones: seq<ZoneSpec>, r: Role, i: nat)
    requires NamedOnce(zones, r) && i < |zones| && zones[i].name == r.Name()
    ensures OnlyZone(zones, i, r)
  {
  }

  lemma SomeZoneNamed(zones: seq<ZoneSpec>, r: Role)
    requires NamedOnce(zones, r)
    ensures exists i :: 0 <= i < |zones| && zones[i].name == r.Name()
  {
  }

  lemma GoodListMeans(z: ZoneSpec)
    ensures GoodSecrets(z) <==> GoodList(z.secrets)
  {
  }

  lemma ListOfZone(zones: seq<ZoneSpec>, r: Role, i: nat)
    requires NamedOnce(zones, r) && i < |zones| && zones[i].name == r.Name()
    ensures ListOf(Declared(zones, |zones|), r) == zones[i].secrets
  {
    NamedOnceMeans(zones, r, i);
    DeclaredOf(zones, |zones|, i);
  }

  ghost predicate AllNamed(zones: seq<ZoneSpec>) {
    forall r: Role :: NamedOnce(zones, r)
  }

  ghost predicate AllSecretsGood(zones: seq<ZoneSpec>) {
    forall z :: z in zones ==> GoodSecrets(z)
  }

  ghost predicate AllListsGood(declared: map<string, seq<string>>) {
    forall r: Role :: GoodList(ListOf(declared, r))
  }

  lemma ListsGoodForZones(zones: seq<ZoneSpec>, z: ZoneSpec)
    requires z in zones && IsRole(z.name)
    requires AllNamed(zones) && AllListsGood(Declared(zones, |zones|))
    ensures GoodSecrets(z)
  {
    hide GoodList, NamedOnce, Declared, GoodSecrets, ListOf;
    var i :| 0 <= i < |zones| && zones[i] == z;
    var r := ParseRole(z.name).value;
    assert NamedOnce(zones, r);
    ListOfZone(zones, r, i);
    GoodListMeans(z);
    assert GoodList(ListOf(Declared(zones, |zones|), r));
  }

  lemma ZonesGoodForList(zones: seq<ZoneSpec>, r: Role)
    requires NamedOnce(zones, r) && AllSecretsGood(zones)
    ensures GoodList(ListOf(Declared(zones, |zones|), r))
  {
    hide GoodList, NamedOnce, Declared, GoodSecrets, ListOf;
    SomeZoneNamed(zones, r);
    var i :| 0 <= i < |zones| && zones[i].name == r.Name();
    ListOfZone(zones, r, i);
    GoodListMeans(zones[i]);
  }

  lemma SecretsOfZones(zones: seq<ZoneSpec>)
    requires forall z :: z in zones ==> IsRole(z.name)
    requires AllNamed(zones)
    ensures AllListsGood(Declared(zones, |zones|)) <==> AllSecretsGood(zones)
  {
    hide GoodList, Declared, GoodSecrets, ListOf, NamedOnce;
    if AllListsGood(Declared(zones, |zones|)) {
      forall z | z in zones ensures GoodSecrets(z) { ListsGoodForZones(zones, z); }
    }
    if AllSecretsGood(zones) {
      forall r: Role ensures GoodList(ListOf(Declared(zones, |zones|), r)) {
        assert NamedOnce(zones, r);
        ZonesGoodForList(zones, r);
      }
    }
  }

  lemma {:induction false} WrappedClean(fs: seq<SecretFinding>)
    ensures Wrapped(fs) == [] <==> fs == []
  {
  }

  // ---- The rule -----------------------------------------------------------

  ghost predicate AllGood(zones: seq<ZoneSpec>, files: set<string>) {
    forall i :: 0 <= i < |zones| ==> GoodZone(zones, i, files)
  }

  ghost predicate AllReachable(zones: seq<ZoneSpec>) {
    forall z :: z in zones && z.internal ==> exists y :: y in zones && BridgesInto(y, z.name)
  }

  lemma WellFormedParts(t: Topology, files: set<string>)
    ensures WellFormed(t, files) <==>
      t.schema == SCHEMA && t.provider in PROVIDERS && GoodMachine(t.machine)
      && AllGood(t.zones, files) && AllNamed(t.zones) && AllReachable(t.zones) && AllSecretsGood(t.zones)
  {
    hide NamedOnce, GoodWorkloads, GoodBridges, GoodSecrets, BridgesInto, GoodMachine;
    var zones := t.zones;
    AllGoodSplit(zones, files);
    assert AllNamed(zones) <==> forall r: Role :: NamedOnce(zones, r);
  }

  lemma AllGoodSplit(zones: seq<ZoneSpec>, files: set<string>)
    ensures AllGood(zones, files) <==>
      (forall z :: z in zones ==> IsRole(z.name)) && (forall z :: z in zones ==> GoodBridges(z))
      && forall i :: 0 <= i < |zones| ==> GoodWorkloads(zones, i, files)
  {
    hide GoodWorkloads, GoodBridges, IsRole;
    if AllGood(zones, files) {
      forall z | z in zones ensures IsRole(z.name) && GoodBridges(z) {
        var i :| 0 <= i < |zones| && zones[i] == z;
        assert GoodZone(zones, i, files);
      }
      forall i | 0 <= i < |zones| ensures GoodWorkloads(zones, i, files) { assert GoodZone(zones, i, files); }
    }
    forall i | 0 <= i < |zones|
      ensures zones[i] in zones
      ensures (GoodZone(zones, i, files) <==>
        IsRole(zones[i].name) && GoodWorkloads(zones, i, files) && GoodBridges(zones[i]))
    {}
  }

  lemma ZonePartsClean(zones: seq<ZoneSpec>, files: set<string>)
    ensures AllGood(zones, files) && AllNamed(zones) ==>
      (ReachFindings(zones, |zones|) == [] <==> AllReachable(zones))
      && (Catalogues.Findings(BUILTIN, Declared(zones, |zones|), |ALL|) == [] <==> AllSecretsGood(zones))
  {
    if AllGood(zones, files) && AllNamed(zones) {
      ReachClean(zones, files);
      forall z | z in zones ensures IsRole(z.name) {
        var i :| 0 <= i < |zones| && zones[i] == z;
        assert GoodZone(zones, i, files);
      }
      SecretsOfZones(zones);
      SecretsClean(Declared(zones, |zones|));
    }
  }

  /** `Validate` finds nothing exactly when the topology is well formed. */
  lemma ValidIffWellFormed(t: Topology, files: set<string>)
    ensures Everything(t, files) == [] <==> WellFormed(t, files)
  {
    hide HeadFindings, VolumeFindings, ZonesFindings, CountFindings, ReachFindings, Wrapped;
    hide Catalogues.Findings, Everything;
    hide WellFormed, AllGood, AllNamed, AllReachable, AllSecretsGood, ValidVolume;
    var zones := t.zones;
    HeadClean(t);
    VolumesClean(t.machine.volumes, |t.machine.volumes|);
    AllGoodMeans(zones, files);
    AllNamedMeans(zones);
    ZonePartsClean(zones, files);
    WrappedClean(Catalogues.Findings(BUILTIN, Declared(zones, |zones|), |ALL|));
    EverythingEmpty(t, files);
    WellFormedParts(t, files);
  }

  lemma AllGoodMeans(zones: seq<ZoneSpec>, files: set<string>)
    ensures ZonesFindings(zones, |zones|, files) == [] <==> AllGood(zones, files)
  {
    ZonesClean(zones, |zones|, files);
  }

  lemma AllNamedMeans(zones: seq<ZoneSpec>)
    ensures CountFindings(zones, |ALL|) == [] <==> AllNamed(zones)
  {
    CountsClean(zones);
  }

  lemma EverythingEmpty(t: Topology, files: set<string>)
    ensures Everything(t, files) == [] <==>
      && HeadFindings(t) == []
      && VolumeFindings(t.machine.volumes, |t.machine.volumes|) == []
      && ZonesFindings(t.zones, |t.zones|, files) == []
      && CountFindings(t.zones, |ALL|) == []
      && ReachFindings(t.zones, |t.zones|) == []
      && Wrapped(Catalogues.Findings(BUILTIN, Declared(t.zones, |t.zones|), |ALL|)) == []
  {
  }

  // ---- What a valid topology gives its users ------------------------------

  /** Zone lookups succeed, every workload has one zone, and bridges are good. */
  ghost predicate Usable(t: Topology) {
    && (forall r: Role :: ZoneOf(t, r).name == r.Name())
    && (forall r: Role :: Distinct(ZoneOf(t, r).workloads))
    && (forall r: Role, q: Role, w :: w in ZoneOf(t, r).workloads && w in ZoneOf(t, q).workloads ==> r == q)
    && (forall r: Role, w :: w in ZoneOf(t, r).bridges ==> w in ZoneOf(t, r).workloads && !ZoneOf(t, r).internal)
    && (forall r: Role, w :: GoodTargets(ZoneOf(t, r), w))
  }

  lemma {:induction false} ZoneFound(zones: seq<ZoneSpec>, r: Role, i: nat)
    requires OnlyZone(zones, i, r)
    ensures ZoneUpTo(zones, r) == zones[i]
  {
    if zones[0].name == r.Name() {
      assert i == 0;
    } else {
      assert OnlyZone(zones[1..], i - 1, r);
      ZoneFound(zones[1..], r, i - 1);
    }
  }

  lemma ZoneOfIs(t: Topology, files: set<string>, r: Role) returns (i: nat)
    requires WellFormed(t, files)
    ensures i < |t.zones| && t.zones[i].name == r.Name() && ZoneOf(t, r) == t.zones[i]
    ensures t.zones[i] in t.zones
    ensures GoodWorkloads(t.zones, i, files) && GoodBridges(t.zones[i])
  {
    hide GoodWorkloads, GoodBridges, GoodSecrets, BridgesInto, GoodMachine;
    assert NamedOnce(t.zones, r);
    i :| OnlyZone(t.zones, i, r);
    ZoneFound(t.zones, r, i);
  }

  lemma WorkloadHasOneZone(t: Topology, files: set<string>, r: Role, q: Role, w: string)
    requires WellFormed(t, files)
    requires w in ZoneOf(t, r).workloads && w in ZoneOf(t, q).workloads
    ensures r == q
  {
    hide WellFormed;
    var i := ZoneOfIs(t, files, r);
    var j := ZoneOfIs(t, files, q);
    NamesDiffer(r, q);
  }

  /** What the rest of the program relies on without asking again: the lookups
      whose success `Up` and `Down` do not check. */
  lemma WellFormedIsUsable(t: Topology, files: set<string>)
    requires WellFormed(t, files)
    ensures Usable(t)
  {
    hide WellFormed, GoodTargets;
    forall r: Role
      ensures ZoneOf(t, r).name == r.Name() && Distinct(ZoneOf(t, r).workloads)
      ensures forall w :: w in ZoneOf(t, r).bridges ==> w in ZoneOf(t, r).workloads && !ZoneOf(t, r).internal
      ensures forall w :: GoodTargets(ZoneOf(t, r), w)
    {
      var i := ZoneOfIs(t, files, r);
      forall w ensures GoodTargets(ZoneOf(t, r), w) {
        if w !in ZoneOf(t, r).bridges { NoTargets(ZoneOf(t, r), w); }
      }
    }
    forall r: Role, q: Role, w | w in ZoneOf(t, r).workloads && w in ZoneOf(t, q).workloads ensures r == q {
      WorkloadHasOneZone(t, files, r, q, w);
    }
  }

  lemma NoTargets(z: ZoneSpec, w: string)
    requires w !in z.bridges
    ensures GoodTargets(z, w)
  {
  }

  // ---- Who can talk to whom -----------------------------------------------

  ghost predicate Share(t: Topology, r: Role, w: string, q: Role, v: string) {
    exists n :: n in NetworksOf(ZoneOf(t, r), w) && n in NetworksOf(ZoneOf(t, q), v)
  }

  /** `w` of zone `r` joins the network of zone `x`. */
  predicate Joins(t: Topology, r: Role, w: string, x: Role) {
    r == x || x.Name() in Bridged(ZoneOf(t, r), w)
  }

  lemma JoinsMeans(t: Topology, r: Role, w: string, x: Role)
    requires Usable(t)
    ensures x.NetworkName() in NetworksOf(ZoneOf(t, r), w) <==> Joins(t, r, w, x)
  {
    JoinsExactly(ZoneOf(t, r), w, x);
    NamesDiffer(r, x);
  }

  /** Two workloads share a network exactly when they are in one zone, one is
      bridged into the other's zone, or both are bridged into a common zone. */
  lemma ShareIff(t: Topology, r: Role, w: string, q: Role, v: string)
    requires Usable(t)
    ensures Share(t, r, w, q, v) <==>
      r == q
      || q.Name() in Bridged(ZoneOf(t, r), w)
      || r.Name() in Bridged(ZoneOf(t, q), v)
      || exists x: Role :: x.Name() in Bridged(ZoneOf(t, r), w) && x.Name() in Bridged(ZoneOf(t, q), v)
  {
    ShareZone(t, r, w, q, v);
    if x: Role :| Joins(t, r, w, x) && Joins(t, q, v, x) {
      assert r == x || x.Name() in Bridged(ZoneOf(t, r), w);
    }
    if r == q || q.Name() in Bridged(ZoneOf(t, r), w) { assert Joins(t, r, w, q) && Joins(t, q, v, q); }
    if r.Name() in Bridged(ZoneOf(t, q), v) { assert Joins(t, r, w, r) && Joins(t, q, v, r); }
    if x: Role :| x.Name() in Bridged(ZoneOf(t, r), w) && x.Name() in Bridged(ZoneOf(t, q), v) {
      assert Joins(t, r, w, x) && Joins(t, q, v, x);
    }
  }

  lemma ShareZone(t: Topology, r: Role, w: string, q: Role, v: string)
    requires Usable(t)
    ensures Share(t, r, w, q, v) <==> exists x: Role :: Joins(t, r, w, x) && Joins(t, q, v, x)
  {
    hide Joins, NetworksOf;
    if n :| n in NetworksOf(ZoneOf(t, r), w) && n in NetworksOf(ZoneOf(t, q), v) {
      JoinsOnlyZones(ZoneOf(t, r), w, n);
      var x: Role :| n == x.NetworkName();
      JoinsMeans(t, r, w, x);
      JoinsMeans(t, q, v, x);
    }
    if x: Role :| Joins(t, r, w, x) && Joins(t, q, v, x) {
      JoinsMeans(t, r, w, x);
      JoinsMeans(t, q, v, x);
    }
  }

  /** A workload of an internal zone joins its own network and nothing else. */
  lemma InternalJoinsOne(t: Topology, r: Role, w: string)
    requires Usable(t) && ZoneOf(t, r).internal
    ensures NetworksOf(ZoneOf(t, r), w) == [r.NetworkName()]
  {
    var z := ZoneOf(t, r);
    assert w !in z.bridges;
    TargetsAscend(z, w, |ALL|);
    var targets := TargetsInOrder(z, w, |ALL|);
    if targets != [] { HeadIsIn(targets); }
  }
}

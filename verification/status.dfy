/** `lclaw status`: what it observes and the verdicts it gives
    (internal/app/lifecycle.go, internal/app/doctor.go, internal/domain/status.go). */
module StatusCommand {
  import opened Text
  import opened Roles
  import opened Reports
  import opened Catalogues
  import opened Topologies
  import opened Validation
  import opened WellFormedness
  import opened Systems
  import opened Rules
  import opened Hosts
  import opened SecretSteps
  import opened Ups
  import opened UpCommand

  // ---- Verdicts -----------------------------------------------------------

  /** The first machine of that name decides. A stopped machine passes too. */
  method EvaluateMachine(found: seq<Machine>) returns (check: Check, running: bool)
    ensures check.subject == MachineItself
    ensures check.status == if exists m :: m in found && m.name == MACHINE_NAME then Pass else Warn
    ensures running <==> exists i :: FirstNamed(found, i) && found[i].running
  {
    for i := 0 to |found|
      invariant forall j :: 0 <= j < i ==> found[j].name != MACHINE_NAME
    {
      if found[i].name != MACHINE_NAME { continue; }
      assert found[i] in found && FirstNamed(found, i);
      return Check(MachineItself, Pass), found[i].running;
    }
    return Check(MachineItself, Warn), false;
  }

  /** A pod runs when it has a container and all of them run. */
  method PodRunning(containers: seq<string>) returns (running: bool)
    ensures running <==> containers != [] && forall c :: c in containers ==> c == "running"
  {
    if |containers| == 0 { return false; }
    for i := 0 to |containers|
      invariant forall j :: 0 <= j < i ==> containers[j] == "running"
    {
      if containers[i] != "running" {
        assert containers[i] in containers;
        return false;
      }
    }
    return true;
  }

  function NetworkCheck(networks: set<string>, r: Role): Check {
    Check(ZoneNetwork(r), if r.NetworkName() in networks then Pass else Warn)
  }

  function NetworkChecks(networks: set<string>, roles: seq<Role>): seq<Check> {
    if roles == [] then []
    else NetworkChecks(networks, roles[..|roles| - 1]) + [NetworkCheck(networks, roles[|roles| - 1])]
  }

  /** One check per zone: its network is there or missing. A zone nobody asked
      about counts as missing. */
  method EvaluateNetworks(roles: seq<Role>, present: map<string, bool>) returns (checks: seq<Check>)
    ensures checks == NetworkChecks((set n | n in present && present[n]), roles)
  {
    checks := [];
    ghost var networks := set n | n in present && present[n];
    for i := 0 to |roles|
      invariant checks == NetworkChecks(networks, roles[..i])
    {
      assert roles[..i + 1][..i] == roles[..i];
      var n := roles[i].NetworkName();
      checks := checks + [Check(ZoneNetwork(roles[i]), if n in present && present[n] then Pass else Warn)];
    }
    assert roles[..|roles|] == roles;
  }

  /** Up, down or degraded. */
  function PodStatus(running: map<string, bool>, w: string): Status {
    if w !in running then Warn else if running[w] then Pass else Fail
  }

  function ZoneChecks(running: map<string, bool>, r: Role, ws: seq<string>): seq<Check> {
    if ws == [] then []
    else ZoneChecks(running, r, ws[..|ws| - 1]) + [Check(WorkloadOf(r, ws[|ws| - 1]), PodStatus(running, ws[|ws| - 1]))]
  }

  function WorkloadChecks(running: map<string, bool>, top: Topology, roles: seq<Role>): seq<Check> {
    if roles == [] then []
    else
      var r := roles[|roles| - 1];
      WorkloadChecks(running, top, roles[..|roles| - 1]) + ZoneChecks(running, r, ZoneOf(top, r).workloads)
  }

  /** Per pod name, whether the last report of it runs. */
  function LastReports(pods: seq<PodReport>): map<string, bool> {
    if pods == [] then map[]
    else
      var last := pods[|pods| - 1];
      LastReports(pods[..|pods| - 1])[last.name := AllRunning(last.containers)]
  }

  /** Of several reports of a name the last decides, and that one says the pod
      runs when it has a container and all of them run. */
  lemma {:induction false} LastReportDecides(pods: seq<PodReport>, i: nat)
    requires i < |pods| && forall j :: i < j < |pods| ==> pods[j].name != pods[i].name
    ensures pods[i].name in LastReports(pods)
    ensures LastReports(pods)[pods[i].name] <==>
      pods[i].containers != [] && forall c :: c in pods[i].containers ==> c == "running"
  {
    if i < |pods| - 1 { LastReportDecides(pods[..|pods| - 1], i); }
  }

  method EvaluateZone(byName: map<string, PodReport>, r: Role, ws: seq<string>, ghost running: map<string, bool>)
    returns (checks: seq<Check>)
    requires running == map n | n in byName :: AllRunning(byName[n].containers)
    ensures checks == ZoneChecks(running, r, ws)
  {
    checks := [];
    for i := 0 to |ws|
      invariant checks == ZoneChecks(running, r, ws[..i])
    {
      assert ws[..i + 1][..i] == ws[..i];
      var status := Warn;
      if ws[i] in byName {
        var up := PodRunning(byName[ws[i]].containers);
        status := if up then Pass else Fail;
      }
      checks := checks + [Check(WorkloadOf(r, ws[i]), status)];
    }
    assert ws[..|ws|] == ws;
  }

  method IndexPods(pods: seq<PodReport>) returns (byName: map<string, PodReport>)
    ensures LastReports(pods) == map n | n in byName :: AllRunning(byName[n].containers)
  {
    byName := map[];
    for i := 0 to |pods|
      invariant LastReports(pods[..i]) == map n | n in byName :: AllRunning(byName[n].containers)
    {
      assert pods[..i + 1][..i] == pods[..i];
      byName := byName[pods[i].name := pods[i]];
    }
    assert pods[..|pods|] == pods;
  }

  /** One check per workload of the zones, in order. */
  method EvaluateWorkloads(top: Topology, roles: seq<Role>, pods: seq<PodReport>) returns (checks: seq<Check>)
    ensures checks == WorkloadChecks(LastReports(pods), top, roles)
  {
    hide LastReports, AllRunning, ZoneUpTo, PodStatus;
    var byName := IndexPods(pods);
    ghost var running := LastReports(pods);
    checks := [];
    for i := 0 to |roles|
      invariant checks == WorkloadChecks(running, top, roles[..i])
    {
      assert roles[..i + 1][..i] == roles[..i];
      var z, ok := Zone(top, roles[i]);
      if !ok {
        NoSuchZone(top.zones, roles[i]);
        continue;
      }
      var more := EvaluateZone(byName, roles[i], z.workloads, running);
      checks := checks + more;
    }
    assert roles[..|roles|] == roles;
  }

  lemma {:induction false} NoSuchZone(zones: seq<ZoneSpec>, r: Role)
    requires forall i :: 0 <= i < |zones| ==> zones[i].name != r.Name()
    ensures ZoneUpTo(zones, r) == NO_ZONE
  {
    if zones != [] { NoSuchZone(zones[1..], r); }
  }

  lemma {:induction false} LastReportsMean(pods: seq<PodReport>, pods': map<string, Pod>)
    requires forall p :: p in pods ==> p.name in pods' && AllRunning(p.containers) == pods'[p.name].running
    ensures forall w :: w in LastReports(pods) <==> exists p :: p in pods && p.name == w
    ensures forall w :: w in LastReports(pods) ==> w in pods' && LastReports(pods)[w] == pods'[w].running
  {
    hide AllRunning;
    if pods != [] {
      var before, last := pods[..|pods| - 1], pods[|pods| - 1];
      LastReportsMean(before, pods');
      assert pods == before + [last];
      forall w ensures w in LastReports(pods) <==> exists p :: p in pods && p.name == w {
        if w == last.name { assert last in pods; }
        if p :| p in before && p.name == w { assert p in pods; }
      }
    }
  }

  // ---- The command --------------------------------------------------------

  function RunningPods(s: Sys): map<string, bool> {
    map w | w in s.pods :: s.pods[w].running
  }

  /** The report a faultless `status` gives of the world `s`. */
  function Observed(top: Topology, s: Sys): seq<Check> {
    match s.machine
    case NoMachine => [Check(MachineItself, Warn)]
    case Stopped => [Check(MachineItself, Pass)]
    case Running =>
      [Check(MachineItself, Pass)] + NetworkChecks(s.networks.Keys, ALL) + WorkloadChecks(RunningPods(s), top, ALL)
  }

  /** The world was only looked at. */
  ghost predicate Watched(a: State, b: State) {
    Continues(a, b) && b.sys == a.sys
  }

  lemma WatchedTransitive(a: State, b: State, c: State)
    requires Watched(a, b) && Watched(b, c)
    ensures Watched(a, c)
  {
    hide Continues;
    ContinuesTransitive(a, b, c);
  }

  lemma WatchedMeans(a: State, b: State)
    requires Watched(a, b)
    ensures Sound(b) && b.sys == a.sys && b.command == a.command && (a.cancelled ==> b.cancelled)
    ensures Faultless(b.trace) ==> Faultless(a.trace)
  {
    hide Continues, Faultless, Sound;
    SameCommand(a, b);
  }

  lemma WatchedOnce(a: State, e: Event, o: Outcome, b: State)
    requires Saw(a, e, o, b)
    ensures Watched(a, b) && (Faultless(b.trace) ==> !o.Fault?) && (o.Refused? ==> !Accepts(a.sys, e))
  {
    hide Continues, Plays, Effect, Accepts, Faultless, Unbroken, Downed, Stops, Removes, Fine;
  }

  lemma WatchedHere(a: State)
    requires Sound(a)
    ensures Watched(a, a)
  {
    hide Sound;
    ContinuesReflexive(a);
  }

  /** Asks about each zone's network. */
  method NetworksPresent(host: Host, roles: seq<Role>) returns (present: map<string, bool>, ok: bool)
    requires host.Valid() && host.sys.machine.Running?
    modifies host
    ensures Watched(old(host.Now()), host.Now())
    ensures ok ==> forall r :: r in roles ==> r.NetworkName() in present
    ensures ok ==> forall n :: n in present ==> present[n] == (n in host.sys.networks)
    ensures Faultless(host.trace) && !host.cancelled ==> ok
  {
    hide Sound, Continues, Watched, Plays, Effect, Faultless, Unbroken, Downed, Stops, Removes, Fine;
    ghost var a := host.Now();
    WatchedHere(a);
    present := map[];
    for i := 0 to |roles|
      invariant Watched(a, host.Now())
      invariant forall j :: 0 <= j < i ==> roles[j].NetworkName() in present
      invariant forall n :: n in present ==> present[n] == (n in host.sys.networks)
    {
      ghost var b := host.Now();
      WatchedMeans(a, b);
      var stop := host.CtxErr();
      ghost var c := host.Now();
      assert Watched(b, c) by { WatchedWait(b, c); }
      WatchedTransitive(a, b, c);
      if stop { return present, false; }
      WatchedMeans(b, c);
      var o, found := host.NetworkExists(roles[i].NetworkName());
      WatchedOnce(c, Event.NetworkExists(roles[i].NetworkName()), o, host.Now());
      WatchedTransitive(a, c, host.Now());
      if !o.Done? { return present, false; }
      present := present[roles[i].NetworkName() := found];
    }
    ok := true;
  }

  lemma WatchedWait(a: State, b: State)
    requires Continues(a, b) && b == a.(cancelled := b.cancelled)
    ensures Watched(a, b)
  {
    hide Continues;
  }

  /** What the verdicts are given on. */
  lemma {:induction false} NetworkChecksOf(xs: set<string>, ys: set<string>, roles: seq<Role>)
    requires forall r :: r in roles ==> (r.NetworkName() in xs <==> r.NetworkName() in ys)
    ensures NetworkChecks(xs, roles) == NetworkChecks(ys, roles)
  {
    if roles != [] {
      NetworkChecksOf(xs, ys, roles[..|roles| - 1]);
      assert roles[|roles| - 1] in roles;
    }
  }

  lemma PresentMeansChecked(present: map<string, bool>, s: Sys)
    requires forall r :: r in ALL ==> r.NetworkName() in present
    requires forall n :: n in present ==> present[n] == (n in s.networks)
    ensures NetworkChecks((set n | n in present && present[n]), ALL) == NetworkChecks(s.networks.Keys, ALL)
  {
    NetworkChecksOf((set n | n in present && present[n]), s.networks.Keys, ALL);
  }

  lemma ReportsMeanPods(pods: seq<PodReport>, s: Sys)
    requires ListsPods(pods, s)
    ensures LastReports(pods) == RunningPods(s)
  {
    hide AllRunning;
    LastReportsMean(pods, s.pods);
    assert LastReports(pods).Keys == RunningPods(s).Keys;
  }

  /** How a run of `status` may end: nothing is changed, and without a fault the
      report is exactly what the world is. */
  ghost predicate StatusEnds(top: Topology, s: Sys, run: seq<Step>, s': Sys, cancelled: bool, checks: seq<Check>,
      err: Err)
  {
    && s' == s
    && (Faultless(run) && !cancelled ==> err.NoErr? && checks == Observed(top, s))
    // whatever fails, no check says anything untrue
    && (err.NoErr? ==> checks == Observed(top, s) || Unseen(top, s, checks))
    && (!err.NoErr? ==> cancelled && checks <= Observed(top, s))
  }

  /** The report up to the question that could not be answered. */
  ghost predicate Unseen(top: Topology, s: Sys, checks: seq<Check>) {
    || checks == [Check(MachineItself, Fail)]
    || (s.machine.Running? && checks == [Check(MachineItself, Pass), Check(AllNetworks, Fail)])
    || (s.machine.Running? &&
      checks == [Check(MachineItself, Pass)] + NetworkChecks(s.networks.Keys, ALL) + [Check(AllPods, Fail)])
  }

  /** What is seen inside a running machine. */
  function Inside(top: Topology, s: Sys): seq<Check> {
    NetworkChecks(s.networks.Keys, ALL) + WorkloadChecks(RunningPods(s), top, ALL)
  }

  /** The networks and the pods of a running machine. */
  method LookInside(host: Host, top: Topology) returns (checks: seq<Check>, err: Err)
    requires host.Valid() && host.sys.machine.Running?
    modifies host
    ensures Watched(old(host.Now()), host.Now())
    ensures Faultless(host.trace) && !host.cancelled ==> err.NoErr? && checks == Inside(top, host.sys)
    ensures err.NoErr? ==>
      || checks == Inside(top, host.sys)
      || checks == [Check(AllNetworks, Fail)]
      || checks == NetworkChecks(host.sys.networks.Keys, ALL) + [Check(AllPods, Fail)]
    ensures !err.NoErr? ==> host.cancelled && checks <= Inside(top, host.sys)
  {
    hide Sound, Continues, Watched, Plays, Effect, Faultless, Unbroken, Downed, Stops, Removes, Fine;
    hide ListsPods, NetworkChecks, WorkloadChecks;
    ghost var a := host.Now();
    var present, ok := NetworksPresent(host, ALL);
    ghost var b := host.Now();
    WatchedMeans(a, b);
    var stop := host.CtxErr();
    ghost var c := host.Now();
    WatchedWait(b, c);
    WatchedTransitive(a, b, c);
    WatchedMeans(b, c);
    if stop { return [], Canceled; }
    if !ok { return [Check(AllNetworks, Fail)], NoErr; }
    checks := EvaluateNetworks(ALL, present);
    PresentMeansChecked(present, host.sys);
    var o, pods := host.ListPods();
    ghost var d := host.Now();
    WatchedOnce(c, Event.ListPods, o, d);
    WatchedTransitive(a, c, d);
    WatchedMeans(c, d);
    stop := host.CtxErr();
    WatchedWait(d, host.Now());
    WatchedTransitive(a, d, host.Now());
    WatchedMeans(d, host.Now());
    if stop { return checks, Canceled; }
    if !o.Done? { return checks + [Check(AllPods, Fail)], NoErr; }
    ReportsMeanPods(pods, host.sys);
    var more := EvaluateWorkloads(top, ALL, pods);
    checks, err := checks + more, NoErr;
  }

  method RunStatus(host: Host, top: Topology) returns (checks: seq<Check>, err: Err)
    requires host.Valid() && host.trace == [] && host.start == host.sys
    modifies host
    ensures RunOf(old(host.command), old(host.sys), host.trace, host.sys)
    ensures StatusEnds(top, old(host.sys), host.trace, host.sys, host.cancelled, checks, err)
  {
    hide Sound, Continues, Watched, Plays, Effect, Faultless, Unbroken, Downed, Stops, Removes, Fine, RunOf;
    hide NetworkChecks, WorkloadChecks, Inside;
    ghost var a := host.Now();
    var o, machines := host.ListMachines();
    ghost var b := host.Now();
    WatchedOnce(a, Event.ListMachines, o, b);
    WatchedRun(a, b);
    WatchedMeans(a, b);
    if !o.Done? { return [Check(MachineItself, Fail)], NoErr; }
    var check, running := EvaluateMachine(machines);
    FirstDecides(machines, host.sys);
    checks, err := [check], NoErr;
    if !running { return; }
    var more;
    more, err := LookInside(host, top);
    WatchedTransitive(a, b, host.Now());
    WatchedRun(a, host.Now());
    WatchedMeans(b, host.Now());
    InsideReported(top, host.sys, more);
    checks := checks + more;
  }

  lemma InsideReported(top: Topology, s: Sys, more: seq<Check>)
    requires s.machine.Running?
    ensures var checks := [Check(MachineItself, Pass)] + more;
      && (more == Inside(top, s) ==> checks == Observed(top, s))
      && (more <= Inside(top, s) ==> checks <= Observed(top, s))
      && (more == [Check(AllNetworks, Fail)] ==> Unseen(top, s, checks))
      && (more == NetworkChecks(s.networks.Keys, ALL) + [Check(AllPods, Fail)] ==> Unseen(top, s, checks))
  {
    hide NetworkChecks, WorkloadChecks;
    var head := [Check(MachineItself, Pass)];
    assert head + Inside(top, s) == Observed(top, s);
    if more == NetworkChecks(s.networks.Keys, ALL) + [Check(AllPods, Fail)] {
      assert head + more == head + NetworkChecks(s.networks.Keys, ALL) + [Check(AllPods, Fail)];
    }
  }

  lemma WatchedRun(a: State, b: State)
    requires Watched(a, b) && a.start == a.sys
    ensures RunOf(a.command, a.sys, b.trace, b.sys)
  {
    hide Continues, RunOf;
    SoundRun(a, b);
  }

  lemma FirstDecides(machines: seq<Machine>, s: Sys)
    requires Lists(machines, s)
    ensures (exists i :: FirstNamed(machines, i) && machines[i].running) <==> s.machine.Running?
  {
    if i :| FirstNamed(machines, i) && machines[i].running { assert machines[i] in machines; }
    if s.machine.Running? {
      var m :| m in machines && m.name == MACHINE_NAME;
      var j :| 0 <= j < |machines| && machines[j] == m;
      var i := FirstFrom(machines, j);
      assert machines[i] in machines;
    }
  }

  lemma {:induction false} FirstFrom(machines: seq<Machine>, j: nat) returns (i: nat)
    requires j < |machines| && machines[j].name == MACHINE_NAME
    ensures FirstNamed(machines, i)
  {
    if k :| 0 <= k < j && machines[k].name == MACHINE_NAME { i := FirstFrom(machines, k); } else { i := j; }
  }

  /** `lclaw status`. */
  method Status(host: Host, scaffold: Scaffold) returns (checks: seq<Check>, err: Err, ghost p: Plan)
    modifies host
    ensures host.sys == old(host.sys)
    ensures !(scaffold.Decoded? && WellFormed(scaffold.top, scaffold.files)) ==> !err.NoErr? && checks == []
    ensures scaffold.Decoded? && WellFormed(scaffold.top, scaffold.files) ==>
      && RunOf(Command.Status(p), old(host.sys), host.trace, host.sys)
      && StatusEnds(scaffold.top, old(host.sys), host.trace, host.sys, host.cancelled, checks, err)
  {
    hide WellFormed, Usable, IsCatalogue, RunOf, Faultless, Observed;
    var top, entries;
    top, entries, err := Load(scaffold);
    p := Plan(top, entries, ALL);
    if !err.NoErr? { return [], err, p; }
    host.Begin(Command.Status(p));
    checks, err := RunStatus(host, top);
  }

  // ---- What a clean status means ------------------------------------------

  lemma {:induction false} NetworkChecksPass(networks: set<string>, roles: seq<Role>)
    ensures AllPass(NetworkChecks(networks, roles)) <==> forall r :: r in roles ==> r.NetworkName() in networks
  {
    if roles != [] {
      var before, last := roles[..|roles| - 1], roles[|roles| - 1];
      NetworkChecksPass(networks, before);
      assert roles == before + [last];
      PassesOneMore(NetworkChecks(networks, before), NetworkCheck(networks, last));
    }
  }

  lemma PassesOneMore(checks: seq<Check>, check: Check)
    ensures AllPass(checks + [check]) <==> AllPass(checks) && check.status == Pass
  {
    PassesConcat(checks, [check]);
    if AllPass([check]) { assert check in [check]; }
  }

  lemma PassesConcat(xs: seq<Check>, ys: seq<Check>)
    ensures AllPass(xs + ys) <==> AllPass(xs) && AllPass(ys)
  {
    if AllPass(xs + ys) {
      forall c | c in xs ensures c.status == Pass { assert c in xs + ys; }
      forall c | c in ys ensures c.status == Pass { assert c in xs + ys; }
    }
  }

  lemma {:induction false} ZoneChecksPass(running: map<string, bool>, r: Role, ws: seq<string>)
    ensures AllPass(ZoneChecks(running, r, ws)) <==> forall w :: w in ws ==> w in running && running[w]
  {
    if ws != [] {
      var before, last := ws[..|ws| - 1], ws[|ws| - 1];
      ZoneChecksPass(running, r, before);
      assert ws == before + [last];
      PassesOneMore(ZoneChecks(running, r, before), Check(WorkloadOf(r, last), PodStatus(running, last)));
    }
  }

  ghost predicate AllRun(running: map<string, bool>, ws: seq<string>) {
    forall w :: w in ws ==> w in running && running[w]
  }

  lemma {:induction false} WorkloadChecksPass(running: map<string, bool>, top: Topology, roles: seq<Role>)
    ensures AllPass(WorkloadChecks(running, top, roles)) <==>
      forall r :: r in roles ==> AllRun(running, ZoneOf(top, r).workloads)
  {
    hide AllPass, ZoneChecks;
    if roles != [] {
      var before, last := roles[..|roles| - 1], roles[|roles| - 1];
      WorkloadChecksPass(running, top, before);
      assert roles == before + [last];
      ZoneChecksPass(running, last, ZoneOf(top, last).workloads);
      PassesConcat(WorkloadChecks(running, top, before), ZoneChecks(running, last, ZoneOf(top, last).workloads));
    } else {
      assert AllPass([]) by { NothingPassed(); }
    }
  }

  /** All networks exist and every pod runs. */
  ghost predicate AllUp(top: Topology, s: Sys) {
    && (forall r: Role :: r.NetworkName() in s.networks)
    && (forall r: Role :: AllRun(RunningPods(s), ZoneOf(top, r).workloads))
  }

  /** `status` passes exactly when the machine is stopped, or running with
      everything up. */
  lemma StatusPassesIff(top: Topology, s: Sys)
    ensures AllPass(Observed(top, s)) <==> s.machine.Stopped? || (s.machine.Running? && AllUp(top, s))
  {
    hide NetworkChecks, WorkloadChecks, AllRun;
    forall r: Role ensures r in ALL { assert ALL[r.Rank()] == r; }
    NetworkChecksPass(s.networks.Keys, ALL);
    WorkloadChecksPass(RunningPods(s), top, ALL);
    var head := [Check(MachineItself, Pass)];
    PassesConcat(head + NetworkChecks(s.networks.Keys, ALL), WorkloadChecks(RunningPods(s), top, ALL));
    PassesConcat(head, NetworkChecks(s.networks.Keys, ALL));
    HeadIsIn([Check(MachineItself, Warn)]);
  }

  /** After a clean `up` of every zone, `status` passes. */
  lemma UpMakesStatusPass(p: Plan, s: Sys)
    requires Goal(p, s) && p.roles == ALL
    ensures AllPass(Observed(p.top, s))
  {
    hide Observed, SecretsIn;
    StatusPassesIff(p.top, s);
    forall r: Role ensures r in p.roles { assert ALL[r.Rank()] == r; }
    forall r: Role ensures AllRun(RunningPods(s), ZoneOf(p.top, r).workloads) {
      assert ZoneUp(p, s, r);
      forall w | w in ZoneOf(p.top, r).workloads ensures w in RunningPods(s) && RunningPods(s)[w] {
        assert AsPlanned(p, s, r, w);
      }
    }
  }

  // ---- What each check says -----------------------------------------------

  /** The check of a network: there or missing. */
  ghost predicate NetworkSaid(networks: set<string>, c: Check) {
    c.subject.ZoneNetwork? && c.status == if c.subject.role.NetworkName() in networks then Pass else Warn
  }

  lemma {:induction false} NetworkChecksSay(networks: set<string>, roles: seq<Role>)
    ensures forall c :: c in NetworkChecks(networks, roles) <==> NetworkSaid(networks, c) && c.subject.role in roles
  {
    if roles != [] {
      var before, last := roles[..|roles| - 1], roles[|roles| - 1];
      NetworkChecksSay(networks, before);
      assert roles == before + [last];
      forall c ensures c == NetworkCheck(networks, last) <==> NetworkSaid(networks, c) && c.subject.role == last {}
    }
  }

  lemma {:induction false} NetworkChecksOrder(networks: set<string>, roles: seq<Role>)
    ensures SubjectsOf(NetworkChecks(networks, roles)) == NetworkSubjects(roles)
  {
    if roles != [] {
      var before, last := roles[..|roles| - 1], roles[|roles| - 1];
      NetworkChecksOrder(networks, before);
      SubjectsMore(NetworkChecks(networks, before), NetworkCheck(networks, last));
    }
  }

  /** The check of a workload: up, degraded or absent. */
  ghost predicate PodSaid(running: map<string, bool>, c: Check) {
    && c.subject.WorkloadOf?
    && (c.status == Pass <==> c.subject.workload in running && running[c.subject.workload])
    && (c.status == Fail <==> c.subject.workload in running && !running[c.subject.workload])
  }

  lemma OnePodSaid(running: map<string, bool>, r: Role, w: string, c: Check)
    ensures c == Check(WorkloadOf(r, w), PodStatus(running, w)) <==>
      PodSaid(running, c) && c.subject == WorkloadOf(r, w)
  {
  }

  lemma {:induction false} ZoneChecksSay(running: map<string, bool>, r: Role, ws: seq<string>)
    ensures forall c :: c in ZoneChecks(running, r, ws) <==>
      c.subject.WorkloadOf? && PodSaid(running, c) && c.subject.role == r && c.subject.workload in ws
  {
    hide PodSaid, PodStatus;
    if ws != [] {
      var before, last := ws[..|ws| - 1], ws[|ws| - 1];
      ZoneChecksSay(running, r, before);
      assert ws == before + [last];
      forall c ensures c in ZoneChecks(running, r, ws) <==>
        c.subject.WorkloadOf? && PodSaid(running, c) && c.subject.role == r && c.subject.workload in ws
      {
        OnePodSaid(running, r, last, c);
      }
    }
  }

  lemma {:induction false} ZoneChecksOrder(running: map<string, bool>, r: Role, ws: seq<string>)
    ensures SubjectsOf(ZoneChecks(running, r, ws)) == WorkloadSubjects(r, ws)
  {
    if ws != [] {
      var before, last := ws[..|ws| - 1], ws[|ws| - 1];
      ZoneChecksOrder(running, r, before);
      SubjectsMore(ZoneChecks(running, r, before), Check(WorkloadOf(r, last), PodStatus(running, last)));
    }
  }

  /** The workloads of the zones, zone by zone. */
  ghost function PodSubjects(top: Topology, roles: seq<Role>): seq<Subject> {
    if roles == [] then []
    else
      var r := roles[|roles| - 1];
      PodSubjects(top, roles[..|roles| - 1]) + WorkloadSubjects(r, ZoneOf(top, r).workloads)
  }

  lemma {:induction false} WorkloadChecksSay(running: map<string, bool>, top: Topology, roles: seq<Role>)
    ensures forall c :: c in WorkloadChecks(running, top, roles) <==>
      PodSaid(running, c) && c.subject.role in roles && c.subject.workload in ZoneOf(top, c.subject.role).workloads
  {
    hide ZoneChecks, ZoneOf;
    if roles != [] {
      var before, last := roles[..|roles| - 1], roles[|roles| - 1];
      WorkloadChecksSay(running, top, before);
      assert roles == before + [last];
      ZoneChecksSay(running, last, ZoneOf(top, last).workloads);
    }
  }

  lemma {:induction false} WorkloadChecksOrder(running: map<string, bool>, top: Topology, roles: seq<Role>)
    ensures SubjectsOf(WorkloadChecks(running, top, roles)) == PodSubjects(top, roles)
  {
    hide ZoneChecks, ZoneOf, WorkloadSubjects, SubjectsOf;
    if roles == [] {
      SubjectsOfOne(Check(MachineItself, Pass));
    } else {
      var before, last := roles[..|roles| - 1], roles[|roles| - 1];
      WorkloadChecksOrder(running, top, before);
      ZoneChecksOrder(running, last, ZoneOf(top, last).workloads);
      SubjectsConcat(WorkloadChecks(running, top, before), ZoneChecks(running, last, ZoneOf(top, last).workloads));
    }
  }

  /** On a running machine the report goes: the machine, every zone's network,
      every workload of every zone, each once and in zone order. */
  lemma StatusOrder(top: Topology, s: Sys)
    ensures s.machine.NoMachine? ==> Observed(top, s) == [Check(MachineItself, Warn)]
    ensures s.machine.Stopped? ==> Observed(top, s) == [Check(MachineItself, Pass)]
    ensures s.machine.Running? ==> Observed(top, s) != [] && Observed(top, s)[0] == Check(MachineItself, Pass)
    ensures s.machine.Running? ==>
      SubjectsOf(Observed(top, s)) ==
      [MachineItself, ZoneNetwork(Infra), ZoneNetwork(Services), ZoneNetwork(Agent)]
      + WorkloadSubjects(Infra, ZoneOf(top, Infra).workloads)
      + WorkloadSubjects(Services, ZoneOf(top, Services).workloads)
      + WorkloadSubjects(Agent, ZoneOf(top, Agent).workloads)
  {
    hide NetworkChecks, WorkloadChecks, ZoneOf, SubjectsOf, WorkloadSubjects;
    if s.machine.Running? {
      var head, nets, pods :=
        [Check(MachineItself, Pass)], NetworkChecks(s.networks.Keys, ALL), WorkloadChecks(RunningPods(s), top, ALL);
      SubjectsOfOne(head[0]);
      NetworkChecksOrder(s.networks.Keys, ALL);
      WorkloadChecksOrder(RunningPods(s), top, ALL);
      SubjectsConcat(head, nets);
      SubjectsConcat(head + nets, pods);
      AllSubjects(top);
    }
  }

  lemma AllSubjects(top: Topology)
    ensures NetworkSubjects(ALL) == [ZoneNetwork(Infra), ZoneNetwork(Services), ZoneNetwork(Agent)]
    ensures PodSubjects(top, ALL) ==
      WorkloadSubjects(Infra, ZoneOf(top, Infra).workloads)
      + WorkloadSubjects(Services, ZoneOf(top, Services).workloads)
      + WorkloadSubjects(Agent, ZoneOf(top, Agent).workloads)
  {
    hide ZoneOf, WorkloadSubjects;
    assert ALL[..2] == [Infra, Services] && [Infra, Services][..1] == [Infra] && [Infra][..0] == [];
    assert PodSubjects(top, [Infra]) == WorkloadSubjects(Infra, ZoneOf(top, Infra).workloads);
    assert PodSubjects(top, [Infra, Services]) ==
      PodSubjects(top, [Infra]) + WorkloadSubjects(Services, ZoneOf(top, Services).workloads);
    assert NetworkSubjects([Infra]) == [ZoneNetwork(Infra)];
    assert NetworkSubjects([Infra, Services]) == [ZoneNetwork(Infra), ZoneNetwork(Services)];
  }

  /** A check about a workload or a network is there exactly when it is true. */
  lemma InReport(top: Topology, s: Sys, c: Check)
    requires s.machine.Running?
    ensures c.subject.WorkloadOf? ==> (c in Observed(top, s) <==>
      PodSaid(RunningPods(s), c) && c.subject.workload in ZoneOf(top, c.subject.role).workloads)
    ensures c.subject.ZoneNetwork? ==> (c in Observed(top, s) <==> NetworkSaid(s.networks.Keys, c))
    ensures c in Observed(top, s) && c.status == Fail ==> c.subject.WorkloadOf?
  {
    hide NetworkChecks, WorkloadChecks, ZoneOf, RunningPods;
    forall r: Role ensures r in ALL { assert ALL[r.Rank()] == r; }
    NetworkChecksSay(s.networks.Keys, ALL);
    WorkloadChecksSay(RunningPods(s), top, ALL);
  }

  /** What each check of a running machine says of the world: a workload passes
      when its pod runs, fails when the pod is there but does not run, and is a
      warning when there is no pod; a network passes when it is there. */
  lemma StatusTells(top: Topology, s: Sys, r: Role, w: string)
    requires s.machine.Running?
    ensures w in ZoneOf(top, r).workloads ==>
      && (Check(WorkloadOf(r, w), Pass) in Observed(top, s) <==> w in s.pods && s.pods[w].running)
      && (Check(WorkloadOf(r, w), Fail) in Observed(top, s) <==> w in s.pods && !s.pods[w].running)
      && (Check(WorkloadOf(r, w), Warn) in Observed(top, s) <==> w !in s.pods)
    ensures w !in ZoneOf(top, r).workloads ==> forall x :: Check(WorkloadOf(r, w), x) !in Observed(top, s)
    ensures Check(ZoneNetwork(r), Pass) in Observed(top, s) <==> r.NetworkName() in s.networks
    ensures Check(ZoneNetwork(r), Warn) in Observed(top, s) <==> r.NetworkName() !in s.networks
    ensures Check(ZoneNetwork(r), Fail) !in Observed(top, s)
  {
    hide Observed, ZoneOf;
    forall x: Status
      ensures Check(WorkloadOf(r, w), x) in Observed(top, s) <==>
        PodSaid(RunningPods(s), Check(WorkloadOf(r, w), x)) && w in ZoneOf(top, r).workloads
      ensures Check(ZoneNetwork(r), x) in Observed(top, s) <==> NetworkSaid(s.networks.Keys, Check(ZoneNetwork(r), x))
    {
      InReport(top, s, Check(WorkloadOf(r, w), x));
      InReport(top, s, Check(ZoneNetwork(r), x));
    }
  }

  /** `status` fails exactly when a pod of the topology is there but does not
      run. */
  lemma StatusFailsIff(top: Topology, s: Sys)
    ensures HasFail(Observed(top, s)) <==>
      && s.machine.Running?
      && exists r: Role, w :: w in ZoneOf(top, r).workloads && w in s.pods && !s.pods[w].running
  {
    hide Observed, ZoneOf;
    StatusOrder(top, s);
    if s.machine.Running? {
      if r: Role, w :| w in ZoneOf(top, r).workloads && w in s.pods && !s.pods[w].running { StatusTells(top, s, r, w); }
      if c :| c in Observed(top, s) && c.status == Fail {
        InReport(top, s, c);
        StatusTells(top, s, c.subject.role, c.subject.workload);
      }
    }
  }
}

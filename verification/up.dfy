/** `lclaw up`: the user secrets, the machine, the networks, then zone by zone
    the secrets and the workloads (internal/app/lifecycle.go). */
module Ups {
  import opened Text
  import opened Roles
  import opened Reports
  import opened Catalogues
  import opened Topologies
  import opened WellFormedness
  import opened Systems
  import opened Rules
  import opened Hosts
  import opened SecretSteps

  // ---- User secrets -------------------------------------------------------

  /** A failed check per user entry of `specs` that has not been set, in order. */
  function UnsetUsers(specs: seq<SecretSpec>, keychain: map<string, Item>): seq<Check> {
    if specs == [] then []
    else
      var last := specs[|specs| - 1];
      UnsetUsers(specs[..|specs| - 1], keychain)
      + if last.source.User? && last.name !in keychain then [Check(Secret(last.name), Fail)] else []
  }

  function AllUnsetUsers(entries: seq<SecretSpec>, roles: seq<Role>, keychain: map<string, Item>): seq<Check> {
    if roles == [] then []
    else
      AllUnsetUsers(entries, roles[..|roles| - 1], keychain) +
      UnsetUsers(Consumed(entries, roles[|roles| - 1]), keychain)
  }

  /** Every user entry of the list has been set. */
  ghost predicate UsersSet(specs: seq<SecretSpec>, s: Sys) {
    forall e :: e in specs && e.source.User? ==> e.name in s.keychain
  }

  lemma {:induction false} UnsetUsersMeans(specs: seq<SecretSpec>, s: Sys)
    ensures AllFail(UnsetUsers(specs, s.keychain))
    ensures UnsetUsers(specs, s.keychain) == [] <==> UsersSet(specs, s)
  {
    if specs != [] {
      UnsetUsersMeans(specs[..|specs| - 1], s);
      assert specs == specs[..|specs| - 1] + [specs[|specs| - 1]];
    }
  }

  /** Entry by entry: one failure for a user's that has not been set. */
  lemma {:induction false} UnsetUsersAre(
    specs: seq<SecretSpec>, more: seq<SecretSpec>, e: SecretSpec, k: map<string, Item>)
    ensures UnsetUsers([], k) == []
    ensures UnsetUsers([e], k) == if e.source.User? && e.name !in k then [Check(Secret(e.name), Fail)] else []
    ensures UnsetUsers(specs + more, k) == UnsetUsers(specs, k) + UnsetUsers(more, k)
    decreases |more|
  {
    assert [e][..0] == [];
    if more == [] {
      assert specs + more == specs;
    } else {
      UnsetUsersAre(specs, more[..|more| - 1], e, k);
      assert (specs + more)[..|specs + more| - 1] == specs + more[..|more| - 1];
    }
  }

  /** And zone by zone, each with the entries it consumes. */
  lemma AllUnsetUsersAre(entries: seq<SecretSpec>, a: Role, b: Role, c: Role, k: map<string, Item>)
    ensures AllUnsetUsers(entries, [a], k) == UnsetUsers(Consumed(entries, a), k)
    ensures AllUnsetUsers(entries, [a, b], k) ==
      UnsetUsers(Consumed(entries, a), k) + UnsetUsers(Consumed(entries, b), k)
    ensures AllUnsetUsers(entries, [a, b, c], k) ==
      UnsetUsers(Consumed(entries, a), k) + UnsetUsers(Consumed(entries, b), k) + UnsetUsers(Consumed(entries, c), k)
  {
    hide UnsetUsers, Consumed;
    assert [a, b, c][..2] == [a, b] && [a, b][..1] == [a] && [a][..0] == [];
    assert AllUnsetUsers(entries, [], k) == [];
  }

  /** Every user secret the zones consume has been set. */
  ghost predicate AllUsersSet(entries: seq<SecretSpec>, roles: seq<Role>, s: Sys) {
    forall r :: r in roles ==> UsersSet(Consumed(entries, r), s)
  }

  lemma {:induction false} AllUnsetUsersMeans(entries: seq<SecretSpec>, roles: seq<Role>, s: Sys)
    ensures AllFail(AllUnsetUsers(entries, roles, s.keychain))
    ensures AllUnsetUsers(entries, roles, s.keychain) == [] <==> AllUsersSet(entries, roles, s)
  {
    hide UsersSet, UnsetUsers, Consumed;
    if roles != [] {
      AllUnsetUsersMeans(entries, roles[..|roles| - 1], s);
      UnsetUsersMeans(Consumed(entries, roles[|roles| - 1]), s);
      assert roles == roles[..|roles| - 1] + [roles[|roles| - 1]];
    }
  }

  /** Looks at the keychain without touching a value. */
  predicate Peeks(e: Event) {
    e.KeychainExists? || e.KeychainDescribe?
  }

  ghost predicate OnlyPeeks(run: seq<Step>) {
    forall i :: 0 <= i < |run| ==> Peeks(run[i].event)
  }

  /** Nothing but looking at the keychain has happened since `a`. */
  ghost predicate Peeked(a: State, b: State) {
    && Continues(a, b) && b.sys == a.sys && Plays(b.trace) == Plays(a.trace)
    && (OnlyPeeks(a.trace) ==> OnlyPeeks(b.trace))
  }

  lemma PeekedTransitive(a: State, b: State, c: State)
    requires Peeked(a, b) && Peeked(b, c)
    ensures Peeked(a, c)
  {
    hide Continues, OnlyPeeks, Plays;
    ContinuesTransitive(a, b, c);
  }

  lemma PeekedOnce(a: State, e: Event, o: Outcome, b: State)
    requires Saw(a, e, o, b) && Peeks(e)
    ensures Peeked(a, b)
  {
    hide Continues, Plays, Effect, Accepts, Faultless, Unbroken;
    if OnlyPeeks(a.trace) {
      forall i | 0 <= i < |b.trace| ensures Peeks(b.trace[i].event) {
        if i < |a.trace| { assert b.trace[i] == a.trace[i]; }
      }
    }
  }

  /** The user entries of one zone. */
  method CheckZoneUsers(host: Host, specs: seq<SecretSpec>) returns (checks: seq<Check>, err: Err)
    requires host.Valid() && host.sys.hasKeychain
    modifies host
    ensures Peeked(old(host.Now()), host.Now())
    ensures err.NoErr? ==> checks == UnsetUsers(specs, host.sys.keychain)
    ensures err.NoErr? && Unbroken(old(host.trace)) ==> Unbroken(host.trace)
    ensures Explained(host.sys.hasKeychain, host.cancelled, host.trace, err)
  {
    hide Sound, Continues, Effect, Accepts, Faultless, Unbroken, OnlyPeeks, Plays;
    ghost var a := host.Now();
    ContinuesReflexive(a);
    checks := [];
    for i := 0 to |specs|
      invariant Peeked(a, host.Now())
      invariant checks == UnsetUsers(specs[..i], host.sys.keychain)
      invariant Unbroken(a.trace) ==> Unbroken(host.trace)
    {
      assert specs[..i + 1][..i] == specs[..i];
      if !specs[i].source.User? { continue; }
      ghost var b := host.Now();
      SameCommand(a, b);
      var stop := host.CtxErr();
      PeekedTransitive(a, b, host.Now());
      if stop { return checks, Canceled; }
      SameCommand(b, host.Now());
      ghost var c := host.Now();
      var o, _ := host.KeychainDescribe(specs[i].name);
      PeekedOnce(c, KeychainDescribe(specs[i].name), o, host.Now());
      PeekedTransitive(a, c, host.Now());
      if o.Fault? {
        SawFault(c, KeychainDescribe(specs[i].name), o, host.Now());
        return checks, KeychainBroken;
      }
      if o.Refused? {
        checks := checks + [Check(Secret(specs[i].name), Fail)];
      }
    }
    assert specs[..|specs|] == specs;
    err := NoErr;
  }

  /** User secrets first: a missing key costs nothing to detect. */
  method CheckUsers(host: Host, entries: seq<SecretSpec>, roles: seq<Role>) returns (checks: seq<Check>, err: Err)
    requires host.Valid()
    modifies host
    ensures Peeked(old(host.Now()), host.Now())
    ensures err.NoErr? ==> host.sys.hasKeychain && checks == AllUnsetUsers(entries, roles, host.sys.keychain)
    ensures err.NoErr? && Unbroken(old(host.trace)) ==> Unbroken(host.trace)
    ensures Explained(host.sys.hasKeychain, host.cancelled, host.trace, err)
  {
    hide Sound, Continues, Effect, Accepts, Faultless, Unbroken, OnlyPeeks, Plays, Consumed, FaultedLast;
    ghost var a := host.Now();
    checks := [];
    ghost var o;
    err, o := RequireKeychain(host);
    PeekedOnce(a, KeychainExists, o, host.Now());
    if !err.NoErr? { return; }
    for i := 0 to |roles|
      invariant Peeked(a, host.Now()) && host.sys.hasKeychain && err.NoErr?
      invariant checks == AllUnsetUsers(entries, roles[..i], host.sys.keychain)
      invariant Unbroken(a.trace) ==> Unbroken(host.trace)
    {
      assert roles[..i + 1][..i] == roles[..i];
      ghost var b := host.Now();
      SameCommand(a, b);
      var specs := ForZone(entries, roles[i]);
      var found;
      found, err := CheckZoneUsers(host, specs);
      PeekedTransitive(a, b, host.Now());
      checks := checks + found;
      if !err.NoErr? { return; }
    }
    assert roles[..|roles|] == roles;
  }

  // ---- What a clean report is about ---------------------------------------

  function NetworkSubjects(roles: seq<Role>): seq<Subject> {
    if roles == [] then [] else NetworkSubjects(roles[..|roles| - 1]) + [ZoneNetwork(roles[|roles| - 1])]
  }

  function WorkloadSubjects(role: Role, ws: seq<string>): seq<Subject> {
    if ws == [] then [] else WorkloadSubjects(role, ws[..|ws| - 1]) + [WorkloadOf(role, ws[|ws| - 1])]
  }

  /** One zone: its secrets, its workloads and, for the services, LiteLLM. */
  function ZoneSubjects(top: Topology, role: Role): seq<Subject> {
    [ZoneSecrets(role)] + WorkloadSubjects(role, ZoneOf(top, role).workloads) +
      if role == Services then [ZoneReady(role)] else []
  }

  lemma {:induction false} NetworkSubjectsAt(roles: seq<Role>)
    ensures |NetworkSubjects(roles)| == |roles|
    ensures forall i :: 0 <= i < |roles| ==> NetworkSubjects(roles)[i] == ZoneNetwork(roles[i])
  {
    if roles != [] { NetworkSubjectsAt(roles[..|roles| - 1]); }
  }

  lemma {:induction false} WorkloadSubjectsAt(role: Role, ws: seq<string>)
    ensures |WorkloadSubjects(role, ws)| == |ws|
    ensures forall i :: 0 <= i < |ws| ==> WorkloadSubjects(role, ws)[i] == WorkloadOf(role, ws[i])
  {
    if ws != [] { WorkloadSubjectsAt(role, ws[..|ws| - 1]); }
  }

  /** A zone's checks: its secrets, its workloads in the order of the file and,
      for the services, LiteLLM. */
  lemma ZoneSubjectsAt(top: Topology, role: Role)
    ensures var ws, all := ZoneOf(top, role).workloads, ZoneSubjects(top, role);
      && |all| == |ws| + (if role == Services then 2 else 1)
      && all[0] == ZoneSecrets(role)
      && (forall i :: 0 <= i < |ws| ==> all[i + 1] == WorkloadOf(role, ws[i]))
      && (role == Services ==> all[|ws| + 1] == ZoneReady(role))
  {
    WorkloadSubjectsAt(role, ZoneOf(top, role).workloads);
  }

  lemma NetworkSubjectsStep(roles: seq<Role>, i: nat)
    requires i < |roles|
    ensures NetworkSubjects(roles[..i + 1]) == NetworkSubjects(roles[..i]) + [ZoneNetwork(roles[i])]
    ensures |NetworkSubjects(roles)| == |roles| && |NetworkSubjects(roles[..i])| == i
    ensures NetworkSubjects(roles)[..i] == NetworkSubjects(roles[..i])
    ensures NetworkSubjects(roles)[i] == ZoneNetwork(roles[i])
  {
    assert roles[..i + 1][..i] == roles[..i];
    NetworkSubjectsAt(roles);
    NetworkSubjectsAt(roles[..i]);
  }

  lemma WorkloadSubjectsStep(role: Role, ws: seq<string>, i: nat)
    requires i < |ws|
    ensures WorkloadSubjects(role, ws[..i + 1]) == WorkloadSubjects(role, ws[..i]) + [WorkloadOf(role, ws[i])]
    ensures |WorkloadSubjects(role, ws)| == |ws| && |WorkloadSubjects(role, ws[..i])| == i
    ensures WorkloadSubjects(role, ws)[..i] == WorkloadSubjects(role, ws[..i])
    ensures WorkloadSubjects(role, ws)[i] == WorkloadOf(role, ws[i])
  {
    assert ws[..i + 1][..i] == ws[..i];
    WorkloadSubjectsAt(role, ws);
    WorkloadSubjectsAt(role, ws[..i]);
  }

  // ---- Machine ------------------------------------------------------------

  /** The first machine of that name. */
  method FindMachine(machines: seq<Machine>) returns (found: Option<Machine>)
    ensures found.None? ==> forall m :: m in machines ==> m.name != MACHINE_NAME
    ensures found.Some? ==> exists i :: FirstNamed(machines, i) && machines[i] == found.value
  {
    for i := 0 to |machines|
      invariant forall j :: 0 <= j < i ==> machines[j].name != MACHINE_NAME
    {
      if machines[i].name == MACHINE_NAME {
        assert FirstNamed(machines, i);
        return Some(machines[i]);
      }
    }
    found := None;
  }

  lemma MachineCallsAllowed(c: Command, s: Sys)
    requires c.Up?
    ensures s.machine.NoMachine? ==> May(c, s, InitMachine)
    ensures s.machine.Stopped? ==> May(c, s, StartMachine)
  {
  }

  /** Creates the machine if it does not exist, starts it if it does not run. */
  method EnsureMachine(host: Host) returns (check: Check, ok: bool)
    requires host.Valid() && host.command.Up? && Unbroken(host.trace)
    modifies host
    ensures Continues(old(host.Now()), host.Now()) && Plays(host.trace) == Plays(old(host.trace))
    ensures check == Check(MachineItself, if ok then Pass else Fail)
    ensures ok ==> host.sys.machine.Running? && Unbroken(host.trace)
    ensures Faultless(host.trace) ==> ok
  {
    hide Sound, Continues, Effect, Accepts, May, Faultless, Unbroken, Plays;
    ghost var a := host.Now();
    var o, machines := host.ListMachines();
    if !o.Done? { return Check(MachineItself, Fail), false; }
    var found := FindMachine(machines);
    ghost var b := host.Now();
    SameCommand(a, b);
    if found.Some? && found.value.running {
      return Check(MachineItself, Pass), true;
    }
    MachineCallsAllowed(host.command, host.sys);
    if found.None? {
      o := host.InitMachine();
      ContinuesTransitive(a, b, host.Now());
      if !o.Done? { return Check(MachineItself, Fail), false; }
    }
    ghost var c := host.Now();
    SameCommand(a, c);
    MachineCallsAllowed(host.command, host.sys);
    o := host.StartMachine();
    ContinuesTransitive(a, c, host.Now());
    if !o.Done? { return Check(MachineItself, Fail), false; }
    return Check(MachineItself, Pass), true;
  }

  // ---- Networks -----------------------------------------------------------

  ghost predicate NetworksUpTo(roles: seq<Role>, s: Sys) {
    forall r :: r in roles ==> r.NetworkName() in s.networks
  }

  lemma NetworksKept(a: State, b: State, roles: seq<Role>)
    requires Continues(a, b) && a.command.Up? && a.sys.machine.Running? && NetworksUpTo(roles, a.sys)
    ensures NetworksUpTo(roles, b.sys)
  {
    hide Sound, InSync, AsPlanned, InPlan, Faultless, Unbroken;
  }

  lemma CreatingIsAllowed(c: Command, s: Sys, r: Role)
    requires c.Up? && r in c.plan.roles && s.machine.Running? && r.NetworkName() !in s.networks
    ensures May(c, s, CreateNetwork(r.NetworkName(), ZoneOf(c.plan.top, r).internal))
  {
  }

  /** One zone's network. */
  method EnsureNetwork(host: Host, top: Topology, role: Role) returns (check: Check)
    requires host.Valid() && host.command.Up? && Unbroken(host.trace) && host.sys.machine.Running?
    requires top == host.command.plan.top && role in host.command.plan.roles
    modifies host
    ensures Continues(old(host.Now()), host.Now()) && Plays(host.trace) == Plays(old(host.trace))
    ensures check.subject == ZoneNetwork(role) && check.status != Warn
    ensures check.status == Pass ==> role.NetworkName() in host.sys.networks && Unbroken(host.trace)
    ensures Faultless(host.trace) ==> check.status == Pass
  {
    hide Sound, Continues, Effect, Accepts, May, Faultless, Unbroken, Plays;
    ghost var a := host.Now();
    var z, _ := Zone(top, role);
    var o, found := host.NetworkExists(role.NetworkName());
    if !o.Done? { return Check(ZoneNetwork(role), Fail); }
    if found { return Check(ZoneNetwork(role), Pass); }
    ghost var b := host.Now();
    SameCommand(a, b);
    CreatingIsAllowed(host.command, host.sys, role);
    o := host.CreateNetwork(role.NetworkName(), z.internal);
    ContinuesTransitive(a, b, host.Now());
    return Check(ZoneNetwork(role), if o.Done? then Pass else Fail);
  }

  /** The networks, before any pod is played; stops at the first failure. */
  method EnsureNetworks(host: Host, top: Topology, roles: seq<Role>) returns (checks: seq<Check>, ok: bool, err: Err)
    requires host.Valid() && host.command.Up? && Unbroken(host.trace) && host.sys.machine.Running?
    requires top == host.command.plan.top && roles == host.command.plan.roles
    modifies host
    ensures Continues(old(host.Now()), host.Now()) && Plays(host.trace) == Plays(old(host.trace))
    ensures ok ==> err.NoErr? && AllPass(checks) && NetworksUpTo(roles, host.sys) && Unbroken(host.trace)
    ensures ok ==> SubjectsOf(checks) == NetworkSubjects(roles)
    ensures !ok && err.NoErr? ==> FailsAlong(NetworkSubjects(roles), checks)
    ensures Explained(host.sys.hasKeychain, host.cancelled, host.trace, err)
    ensures Faultless(host.trace) && !host.cancelled ==> ok
  {
    hide Sound, Continues, Effect, Accepts, May, Faultless, Unbroken, Plays, SubjectsOf, NetworkSubjects, FailsAlong;
    ghost var a := host.Now();
    ContinuesReflexive(a);
    checks, err := [], NoErr;
    NoSubjects();
    for i := 0 to |roles|
      invariant Continues(a, host.Now()) && Plays(host.trace) == Plays(a.trace)
      invariant SubjectsOf(checks) == NetworkSubjects(roles[..i])
      invariant AllPass(checks) && NetworksUpTo(roles[..i], host.sys) && Unbroken(host.trace)
    {
      ghost var b := host.Now();
      SameCommand(a, b);
      var stop := host.CtxErr();
      if stop { ContinuesTransitive(a, b, host.Now()); return checks, false, Canceled; }
      SameCommand(b, host.Now());
      ghost var c := host.Now();
      var check := EnsureNetwork(host, top, roles[i]);
      ContinuesTransitive(b, c, host.Now());
      ContinuesTransitive(a, b, host.Now());
      SubjectsMore(checks, check);
      SubjectsLength(checks);
      NetworkSubjectsStep(roles, i);
      if check.status != Pass {
        FailsNext(NetworkSubjects(roles), checks, check);
        return checks + [check], false, NoErr;
      }
      checks := checks + [check];
      NetworksKept(b, host.Now(), roles[..i]);
      assert roles[..i + 1] == roles[..i] + [roles[i]];
    }
    assert roles[..|roles|] == roles;
    ok := true;
  }

  lemma NoSubjects()
    ensures SubjectsOf([]) == [] && NetworkSubjects([]) == [] && forall role :: WorkloadSubjects(role, []) == []
  {
  }

  // ---- Workloads ----------------------------------------------------------

  lemma BuildingIsAllowed(c: Command, s: Sys, r: Role, w: string)
    requires c.Up? && InPlan(c.plan, r, w) && s.machine.Running?
    ensures May(c, s, Build(w))
  {
  }

  lemma PlayingIsAllowed(c: Command, s: Sys, r: Role, w: string)
    requires c.Up? && InPlan(c.plan, r, w) && s.machine.Running? && w in s.images && SelectedNetworksExist(c.plan, s)
    requires SecretsIn(c.plan.entries, s, r)
    ensures May(c, s, Play(w, NetworksOf(ZoneOf(c.plan.top, r), w), UsernsOf(ZoneOf(c.plan.top, r)), {}))
  {
    hide NetworksOf, UsernsOf, SelectedNetworksExist, SecretsIn, InPlan;
    assert PlayFor(c.plan, r, w, NetworksOf(ZoneOf(c.plan.top, r), w), UsernsOf(ZoneOf(c.plan.top, r)));
  }

  /** No workload is planned for two zones. */
  lemma ZoneIsUnique(p: Plan, r: Role, q: Role, w: string)
    requires Usable(p.top) && InPlan(p, r, w) && InPlan(p, q, w)
    ensures r == q
  {
    hide GoodTargets;
  }

  lemma SecretsKept(a: State, b: State, r: Role)
    requires Continues(a, b) && a.command.Up? && a.sys.machine.Running? && SecretsIn(a.command.plan.entries, a.sys, r)
    ensures SecretsIn(b.command.plan.entries, b.sys, r)
  {
    hide Continues, InSync, Consumed;
    SameCommand(a, b);
    forall e | e in Consumed(a.command.plan.entries, r) ensures InSync(b.sys, e.name) { InSyncKept(a, b, e.name); }
  }

  /** A pod of the agent's zone is played only after the services. */
  lemma PlayWaits(a: State, r: Role, w: string)
    requires Sound(a) && a.command.Up? && InPlan(a.command.plan, r, w)
    requires r == Agent ==> MayMintAfter(a.command.plan, a.trace)
    ensures InPlan(a.command.plan, Agent, w) ==> MayMintAfter(a.command.plan, a.trace)
  {
    hide RunOf, InPlan, Usable, IsCatalogue, MayMintAfter;
    if InPlan(a.command.plan, Agent, w) { ZoneIsUnique(a.command.plan, r, Agent, w); }
  }

  lemma PlanTargets(a: State, r: Role, w: string)
    requires Sound(a) && a.command.Up?
    ensures GoodTargets(ZoneOf(a.command.plan.top, r), w)
  {
    hide RunOf, IsCatalogue, GoodTargets;
  }

  lemma PlannedNow(p: Plan, s: Sys, s': Sys, r: Role, w: string, creates: set<string>)
    requires s' ==
      s.(
        pods := s.pods[w := Pod(NetworksOf(ZoneOf(p.top, r), w), UsernsOf(ZoneOf(p.top, r)), true)],
        volumes := s.volumes + creates)
    ensures AsPlanned(p, s', r, w)
  {
    hide NetworksOf, UsernsOf;
  }

  /** The networks the pod is to join are there. */
  ghost predicate NetworksReady(p: Plan, s: Sys, r: Role, w: string) {
    forall n :: n in NetworksOf(ZoneOf(p.top, r), w) ==> n in s.networks
  }

  lemma ReadyKept(a: State, b: State, r: Role, w: string)
    requires Continues(a, b) && a.command.Up? && a.sys.machine.Running? && NetworksReady(a.command.plan, a.sys, r, w)
    ensures NetworksReady(b.command.plan, b.sys, r, w)
  {
    hide Sound, InSync, AsPlanned, InPlan, Faultless, Unbroken, NetworksOf;
  }

  lemma SelectedKept(a: State, b: State)
    requires Continues(a, b) && a.command.Up? && a.sys.machine.Running? && SelectedNetworksExist(a.command.plan, a.sys)
    ensures SelectedNetworksExist(b.command.plan, b.sys)
  {
    hide Sound, InSync, AsPlanned, InPlan, Faultless, Unbroken;
  }

  /** `played` continues `before` by at most this workload. */
  ghost predicate PlayedAtMost(before: seq<string>, played: seq<string>, w: string) {
    played == before || played == before + [w]
  }

  method BuildWorkload(host: Host, ghost role: Role, w: string) returns (ok: bool)
    requires host.Valid() && host.command.Up? && Unbroken(host.trace) && host.sys.machine.Running?
    requires InPlan(host.command.plan, role, w)
    modifies host
    ensures Continues(old(host.Now()), host.Now()) && Plays(host.trace) == Plays(old(host.trace))
    ensures ok ==> Unbroken(host.trace) && w in host.sys.images && JustBuilt(host.trace, w)
    ensures Faultless(host.trace) ==> ok
  {
    hide Sound, Continues, Effect, Accepts, May, InPlan, Faultless, Unbroken, Plays;
    BuildingIsAllowed(host.command, host.sys, role, w);
    var o := host.Build(w);
    ok := o.Done?;
  }

  method PlayWorkload(host: Host, z: ZoneSpec, ghost role: Role, w: string) returns (ok: bool)
    requires host.Valid() && host.command.Up? && Unbroken(host.trace) && host.sys.machine.Running?
    requires InPlan(host.command.plan, role, w) && z == ZoneOf(host.command.plan.top, role)
    requires w in host.sys.images && JustBuilt(host.trace, w) && SelectedNetworksExist(host.command.plan, host.sys)
    requires SecretsIn(host.command.plan.entries, host.sys, role)
    requires role == Agent ==> MayMintAfter(host.command.plan, host.trace)
    modifies host
    ensures Continues(old(host.Now()), host.Now()) && Plays(host.trace) == Plays(old(host.trace)) + [w]
    ensures ok ==> Unbroken(host.trace) && AsPlanned(host.command.plan, host.sys, role, w)
    ensures Faultless(host.trace) && NetworksReady(old(host.command).plan, old(host.sys), role, w) ==> ok
  {
    hide Sound, Continues, Effect, Accepts, May, InPlan, Faultless, Unbroken, JustBuilt, Plays, NetworksOf;
    hide AsPlanned, SelectedNetworksExist, SecretsIn, MayMintAfter;
    ghost var a := host.Now();
    PlanTargets(a, role, w);
    PlayWaits(a, role, w);
    var nets := Networks(z, w);
    PlayingIsAllowed(host.command, host.sys, role, w);
    var o, creates := host.Play(w, nets, UsernsOf(z));
    SameCommand(a, host.Now());
    if o.Done? { PlannedNow(host.command.plan, a.sys, host.sys, role, w, creates); }
    ok := o.Done?;
  }

  /** Builds one workload's image and plays its pod. */
  method ApplyWorkload(host: Host, z: ZoneSpec, role: Role, w: string) returns (check: Check, err: Err)
    requires host.Valid() && host.command.Up? && Unbroken(host.trace) && host.sys.machine.Running?
    requires InPlan(host.command.plan, role, w) && z == ZoneOf(host.command.plan.top, role)
    requires SelectedNetworksExist(host.command.plan, host.sys)
    requires SecretsIn(host.command.plan.entries, host.sys, role)
    requires role == Agent ==> MayMintAfter(host.command.plan, host.trace)
    modifies host
    ensures Continues(old(host.Now()), host.Now()) && PlayedAtMost(Plays(old(host.trace)), Plays(host.trace), w)
    ensures check.subject == WorkloadOf(role, w) && check.status != Warn
    ensures err.NoErr? && check.status == Pass ==>
      Unbroken(host.trace) && AsPlanned(host.command.plan, host.sys, role, w) &&
        Plays(host.trace) == Plays(old(host.trace)) + [w]
    ensures Explained(host.sys.hasKeychain, host.cancelled, host.trace, err)
    ensures Faultless(host.trace) && !host.cancelled ==>
      NetworksReady(old(host.command).plan, old(host.sys), role, w) ==> err.NoErr? && check.status == Pass
  {
    hide Sound, Continues, InPlan, Faultless, Unbroken, JustBuilt, Plays, NetworksReady, AsPlanned;
    hide SelectedNetworksExist, SecretsIn, MayMintAfter;
    ghost var a := host.Now();
    var ok := BuildWorkload(host, role, w);
    ghost var b := host.Now();
    SameCommand(a, b);
    if ok {
      SelectedKept(a, b);
      SecretsKept(a, b, role);
      if role == Agent { MintableKept(a, b); }
      if NetworksReady(a.command.plan, a.sys, role, w) { ReadyKept(a, b, role, w); }
      ok := PlayWorkload(host, z, role, w);
      ContinuesTransitive(a, b, host.Now());
    }
    if ok { return Check(WorkloadOf(role, w), Pass), NoErr; }
    ghost var c := host.Now();
    SameCommand(a, c);
    var stop := host.CtxErr();
    ContinuesTransitive(a, c, host.Now());
    return Check(WorkloadOf(role, w), Fail), if stop then Canceled else NoErr;
  }

  /** What the loop over a zone's workloads knows after the first `j`. */
  ghost predicate Applying(p: Plan, a: State, b: State, role: Role, ws: seq<string>, j: nat)
    requires j <= |ws|
  {
    && b.command == Up(p) && Continues(a, b) && Unbroken(b.trace)
    && b.sys.machine.Running? && SelectedNetworksExist(p, b.sys)
    && SecretsIn(p.entries, b.sys, role) && (role == Agent ==> MayMintAfter(p, b.trace))
    && Plays(b.trace) == Plays(a.trace) + ws[..j]
    && (forall i :: 0 <= i < j ==> AsPlanned(p, b.sys, role, ws[i]))
  }

  lemma PlannedKept(a: State, b: State, r: Role, w: string)
    requires Continues(a, b) && a.command.Up? && a.sys.machine.Running? && Unbroken(b.trace)
    requires InPlan(a.command.plan, r, w) && AsPlanned(a.command.plan, a.sys, r, w)
    ensures AsPlanned(b.command.plan, b.sys, r, w)
  {
    hide Sound, InSync, AsPlanned, InPlan, Faultless, Unbroken;
  }

  lemma AllPlannedKept(p: Plan, a: State, b: State, role: Role, ws: seq<string>, j: nat)
    requires Continues(a, b) && Unbroken(b.trace) && a.command == Up(p) && b.command == Up(p) && a.sys.machine.Running?
    requires j <= |ws|
    requires forall w :: w in ws ==> InPlan(p, role, w)
    requires forall i :: 0 <= i < j ==> AsPlanned(p, a.sys, role, ws[i])
    ensures forall i :: 0 <= i < j ==> AsPlanned(p, b.sys, role, ws[i])
  {
    hide Continues, Unbroken, AsPlanned, InPlan;
    forall i | 0 <= i < j ensures AsPlanned(p, b.sys, role, ws[i]) { PlannedKept(a, b, role, ws[i]); }
  }

  lemma ApplyingStep(p: Plan, a: State, b: State, c: State, role: Role, ws: seq<string>, j: nat)
    requires j < |ws| && Applying(p, a, b, role, ws, j)
    requires forall w :: w in ws ==> InPlan(p, role, w)
    requires Continues(b, c) && Unbroken(c.trace) && c.command == Up(p) && AsPlanned(p, c.sys, role, ws[j])
    requires Plays(c.trace) == Plays(b.trace) + [ws[j]]
    ensures Applying(p, a, c, role, ws, j + 1)
  {
    hide Continues, Sound, Faultless, Unbroken, SelectedNetworksExist, AsPlanned, InPlan, Plays;
    hide SecretsIn, MayMintAfter;
    ContinuesTransitive(a, b, c);
    SameCommand(b, c);
    SelectedKept(b, c);
    SecretsKept(b, c, role);
    if role == Agent { MintableKept(b, c); }
    assert Plays(a.trace) + ws[..j] + [ws[j]] == Plays(a.trace) + ws[..j + 1];
    AllPlannedKept(p, b, c, role, ws, j);
  }

  /** The plays of a zone that may have stopped early. */
  ghost predicate PlayedPrefix(before: seq<string>, played: seq<string>, ws: seq<string>) {
    exists k :: 0 <= k <= |ws| && played == before + ws[..k]
  }

  lemma PlayedAtMostIsPrefix(before: seq<string>, now: seq<string>, ws: seq<string>, j: nat, played: seq<string>)
    requires j < |ws| && now == before + ws[..j] && PlayedAtMost(now, played, ws[j])
    ensures PlayedPrefix(before, played, ws)
  {
    assert before + ws[..j] + [ws[j]] == before + ws[..j + 1];
    if played == now { assert played == before + ws[..j]; } else { assert played == before + ws[..j + 1]; }
  }

  ghost predicate AllReady(p: Plan, s: Sys, role: Role) {
    forall w :: w in ZoneOf(p.top, role).workloads ==> NetworksReady(p, s, role, w)
  }

  method ApplyWorkloads(host: Host, z: ZoneSpec, role: Role) returns (checks: seq<Check>, ok: bool, err: Err)
    requires host.Valid() && host.command.Up? && Unbroken(host.trace) && host.sys.machine.Running?
    requires role in host.command.plan.roles && z == ZoneOf(host.command.plan.top, role)
    requires SelectedNetworksExist(host.command.plan, host.sys)
    requires SecretsIn(host.command.plan.entries, host.sys, role)
    requires role == Agent ==> MayMintAfter(host.command.plan, host.trace)
    modifies host
    ensures Continues(old(host.Now()), host.Now())
    ensures PlayedPrefix(Plays(old(host.trace)), Plays(host.trace), z.workloads)
    ensures ok ==>
      err.NoErr? && AllPass(checks) && Unbroken(host.trace) && Plays(host.trace) == Plays(old(host.trace)) + z.workloads
    ensures ok ==> forall w :: w in z.workloads ==> AsPlanned(host.command.plan, host.sys, role, w)
    ensures ok ==> SubjectsOf(checks) == WorkloadSubjects(role, z.workloads)
    ensures !ok && err.NoErr? ==> FailsAlong(WorkloadSubjects(role, z.workloads), checks)
    ensures Explained(host.sys.hasKeychain, host.cancelled, host.trace, err)
    ensures Faultless(host.trace) && !host.cancelled && AllReady(old(host.command).plan, old(host.sys), role) ==> ok
  {
    hide Sound, Continues, Faultless, Unbroken, Plays, NetworksReady, AsPlanned, SelectedNetworksExist;
    hide PlayedPrefix, InPlan, SubjectsOf, WorkloadSubjects, FailsAlong, SecretsIn, MayMintAfter, FaultedLast;
    ghost var a := host.Now();
    ContinuesReflexive(a);
    checks, err := [], NoErr;
    NoSubjects();
    ghost var p := a.command.plan;
    InPlanMeans(p, role);
    for j := 0 to |z.workloads|
      invariant Applying(p, a, host.Now(), role, z.workloads, j)
      invariant AllPass(checks) && err.NoErr? && SubjectsOf(checks) == WorkloadSubjects(role, z.workloads[..j])
    {
      ghost var b := host.Now();
      SameCommand(a, b);
      var stop := host.CtxErr();
      ghost var c := host.Now();
      ContinuesTransitive(a, b, c);
      if stop {
        PlayedAtMostIsPrefix(Plays(a.trace), Plays(b.trace), z.workloads, j, Plays(c.trace));
        return checks, false, Canceled;
      }
      SameCommand(b, c);
      SecretsKept(b, c, role);
      if role == Agent { MintableKept(b, c); }
      var check;
      check, err := ApplyWorkload(host, z, role, z.workloads[j]);
      ContinuesTransitive(b, c, host.Now());
      ContinuesTransitive(a, b, host.Now());
      SubjectsMore(checks, check);
      SubjectsLength(checks);
      WorkloadSubjectsStep(role, z.workloads, j);
      if err.NoErr? && check.status != Pass { FailsNext(WorkloadSubjects(role, z.workloads), checks, check); }
      if err.NoErr? { checks := checks + [check]; }
      if !err.NoErr? || check.status != Pass {
        PlayedAtMostIsPrefix(Plays(a.trace), Plays(b.trace), z.workloads, j, Plays(host.trace));
        if NetworksReady(a.command.plan, a.sys, role, z.workloads[j]) { ReadyKept(a, c, role, z.workloads[j]); }
        return checks, false, err;
      }
      SameCommand(c, host.Now());
      ApplyingStep(p, a, b, host.Now(), role, z.workloads, j);
    }
    assert z.workloads[..|z.workloads|] == z.workloads;
    PlayedAll(Plays(a.trace), z.workloads);
    ok := true;
  }

  lemma PlayedAll(before: seq<string>, ws: seq<string>)
    ensures PlayedPrefix(before, before + ws, ws)
  {
    assert ws[..|ws|] == ws;
  }

  lemma InPlanMeans(p: Plan, role: Role)
    requires role in p.roles
    ensures forall w :: w in ZoneOf(p.top, role).workloads ==> InPlan(p, role, w)
  {
  }

  // ---- Zones --------------------------------------------------------------

  /** The zone is up: its secrets are in the store with the keychain's values
      and every pod runs as the topology says. */
  ghost predicate ZoneUp(p: Plan, s: Sys, r: Role) {
    && SecretsIn(p.entries, s, r)
    && (forall w :: w in ZoneOf(p.top, r).workloads ==> AsPlanned(p, s, r, w))
  }

  lemma ZoneUpKept(p: Plan, a: State, b: State, r: Role)
    requires Continues(a, b) && a.command == Up(p) && a.sys.machine.Running? && r in p.roles
    requires Unbroken(b.trace) && ZoneUp(p, a.sys, r)
    ensures ZoneUp(p, b.sys, r)
  {
    hide Continues, Unbroken, Consumed, InSync, AsPlanned, InPlan;
    InPlanMeans(p, r);
    SameCommand(a, b);
    forall e | e in Consumed(p.entries, r) ensures InSync(b.sys, e.name) { InSyncKept(a, b, e.name); }
    forall w | w in ZoneOf(p.top, r).workloads ensures AsPlanned(p, b.sys, r, w) { PlannedKept(a, b, r, w); }
  }

  lemma SecretsInjectable(p: Plan, s: Sys, r: Role, resolved: seq<ResolvedSecret>)
    requires GoodPlan(p) && r in p.roles && Resolves(resolved, Consumed(p.entries, r), s)
    ensures AllInjectable(p, s, resolved)
  {
    hide Consumed, GoodPlan, Consumes;
    forall x | x in resolved ensures Injectable(p, s, x) {
      var j :| 0 <= j < |resolved| && resolved[j] == x;
      var spec := Consumed(p.entries, r)[j];
      assert spec in Consumed(p.entries, r);
      ConsumedFacts(p, r, spec);
    }
  }

  lemma SecretsInjected(p: Plan, s: Sys, s': Sys, r: Role, resolved: seq<ResolvedSecret>)
    requires Resolves(resolved, Consumed(p.entries, r), s)
    requires Injected(s', resolved)
    ensures SecretsIn(p.entries, s', r)
  {
    hide Consumed, InSync;
    forall e | e in Consumed(p.entries, r) ensures InSync(s', e.name) {
      var j :| 0 <= j < |resolved| && Consumed(p.entries, r)[j] == e;
      assert resolved[j] in resolved;
    }
  }

  method InjectZone(host: Host, resolved: seq<ResolvedSecret>, role: Role)
    returns (checks: seq<Check>, ok: bool, err: Err)
    requires host.Valid() && host.command.Up? && Unbroken(host.trace) && host.sys.machine.Running?
    requires role in host.command.plan.roles && Resolves(resolved, Consumed(host.command.plan.entries, role), host.sys)
    modifies host
    ensures Continues(old(host.Now()), host.Now()) && Plays(host.trace) == Plays(old(host.trace))
    ensures ok ==> err.NoErr? && AllPass(checks) && Unbroken(host.trace) && checks == [Check(ZoneSecrets(role), Pass)]
    ensures ok ==> SecretsIn(old(host.command).plan.entries, host.sys, role)
    ensures !ok && err.NoErr? ==> checks == [Check(ZoneSecrets(role), Fail)]
    ensures Explained(host.sys.hasKeychain, host.cancelled, host.trace, err)
    ensures Faultless(host.trace) && !host.cancelled ==> ok
  {
    hide Sound, Continues, Faultless, Unbroken, Plays, Consumed, AllInjectable, Injected, SecretsIn, Resolves;
    ghost var b := host.Now();
    SoundPlan(b);
    SecretsInjectable(b.command.plan, b.sys, role, resolved);
    err := Inject(host, resolved);
    ghost var c := host.Now();
    SameCommand(b, c);
    if err.NoErr? {
      SecretsInjected(b.command.plan, b.sys, host.sys, role, resolved);
      return [Check(ZoneSecrets(role), Pass)], true, NoErr;
    }
    var stop := host.CtxErr();
    ContinuesTransitive(b, c, host.Now());
    if stop { return [], false, Canceled; }
    checks := [Check(ZoneSecrets(role), Fail)];
    return checks, false, NoErr;
  }

  /** Resolve, then inject. */
  method ApplySecrets(host: Host, entries: seq<SecretSpec>, role: Role) returns (checks: seq<Check>, ok: bool, err: Err)
    requires host.Valid() && host.command.Up? && Unbroken(host.trace) && host.sys.machine.Running?
    requires entries == host.command.plan.entries && role in host.command.plan.roles
    requires role == Agent ==> MayMintAfter(host.command.plan, host.trace)
    modifies host
    ensures Continues(old(host.Now()), host.Now()) && Plays(host.trace) == Plays(old(host.trace))
    ensures ok ==> err.NoErr? && AllPass(checks) && Unbroken(host.trace) && checks == [Check(ZoneSecrets(role), Pass)]
    ensures ok ==> SecretsIn(entries, host.sys, role)
    ensures !ok && err.NoErr? ==>
      || checks == [Check(ZoneSecrets(role), Fail)]
      || (checks != [] && checks == Missing(Consumed(entries, role), host.sys.keychain))
    ensures Explained(host.sys.hasKeychain, host.cancelled, host.trace, err)
    ensures Faultless(host.trace) && !host.cancelled ==>
      host.sys.hasKeychain && Resolvable(Consumed(entries, role), old(host.sys)) ==> ok
  {
    hide Sound, Continues, Faultless, Unbroken, Plays, Consumed, SecretsIn, Resolves, Resolvable, AllPass;
    hide Missing, MayMintAfter, Explained;
    ghost var a := host.Now();
    var resolved, findings;
    resolved, findings, err := Resolve(host, entries, role);
    if !err.NoErr? { return [], false, err; }
    if |findings| > 0 {
      return findings, false, NoErr;
    }
    ghost var b := host.Now();
    SameCommand(a, b);
    checks, ok, err := InjectZone(host, resolved, role);
    ContinuesTransitive(a, b, host.Now());
    SameCommand(b, host.Now());
  }

  /** The last call found LiteLLM ready. */
  ghost predicate JustReady(run: seq<Step>) {
    run != [] && IsAnswer(run[|run| - 1])
  }

  lemma JustReadyIsAnswered(run: seq<Step>)
    requires JustReady(run)
    ensures Answered(run)
  {
  }

  /** The agent's key is minted by LiteLLM, so the services zone waits for it. */
  method AwaitReady(host: Host, role: Role) returns (checks: seq<Check>, ok: bool, err: Err)
    requires host.Valid() && host.command.Up? && Unbroken(host.trace) && host.sys.machine.Running?
    modifies host
    ensures Continues(old(host.Now()), host.Now()) && Plays(host.trace) == Plays(old(host.trace))
    ensures ok ==> err.NoErr? && AllPass(checks) && Unbroken(host.trace)
    ensures ok ==> checks == if role == Services then [Check(ZoneReady(role), Pass)] else []
    ensures ok && role == Services ==> JustReady(host.trace)
    ensures !ok && err.NoErr? ==> role == Services && checks == [Check(ZoneReady(role), Fail)]
    ensures Explained(host.sys.hasKeychain, host.cancelled, host.trace, err)
    ensures Faultless(host.trace) && !host.cancelled && (role == Services ==> Serving(old(host.sys))) ==> ok
  {
    hide Sound, Continues, Faultless, Unbroken, Plays, Effect, Accepts, Serving;
    ghost var a := host.Now();
    if role != Services {
      ContinuesReflexive(a);
      return [], true, NoErr;
    }
    var o := host.Ready();
    if o.Done? { return [Check(ZoneReady(role), Pass)], true, NoErr; }
    ghost var b := host.Now();
    SameCommand(a, b);
    var stop := host.CtxErr();
    ContinuesTransitive(a, b, host.Now());
    if stop { return [], false, Canceled; }
    checks := [Check(ZoneReady(role), Fail)];
    return checks, false, NoErr;
  }

  /** How the report of a zone that failed goes: along the zone's steps up to
      the failure or, when secrets have no value, one failure for each. */
  ghost predicate ZoneFails(p: Plan, role: Role, keychain: map<string, Item>, checks: seq<Check>) {
    || FailsAlong(ZoneSubjects(p.top, role), checks)
    || (checks != [] && checks == Missing(Consumed(p.entries, role), keychain))
  }

  /** The zone failed at its secrets, at a workload or at the readiness check. */
  lemma SecretsFailed(p: Plan, role: Role, keychain: map<string, Item>, checks: seq<Check>)
    requires checks == [Check(ZoneSecrets(role), Fail)]
    ensures ZoneFails(p, role, keychain, checks)
  {
    hide FailsAlong, WorkloadSubjects;
    FailsFirst(Check(ZoneSecrets(role), Fail));
    var rest := WorkloadSubjects(role, ZoneOf(p.top, role).workloads) +
      if role == Services then [ZoneReady(role)] else [];
    FailsEarlier([ZoneSecrets(role)], checks, rest);
    assert [ZoneSecrets(role)] + rest == ZoneSubjects(p.top, role);
  }

  lemma WorkloadFailed(p: Plan, role: Role, keychain: map<string, Item>, first: seq<Check>, second: seq<Check>)
    requires first == [Check(ZoneSecrets(role), Pass)]
    requires FailsAlong(WorkloadSubjects(role, ZoneOf(p.top, role).workloads), second)
    ensures ZoneFails(p, role, keychain, first + second)
  {
    hide FailsAlong, WorkloadSubjects;
    SubjectsOfOne(first[0]);
    var subjects := WorkloadSubjects(role, ZoneOf(p.top, role).workloads);
    FailsLater([ZoneSecrets(role)], first, subjects, second);
    FailsEarlier([ZoneSecrets(role)] + subjects, first + second, if role == Services then [ZoneReady(role)] else []);
  }

  lemma ReadinessFailed(p: Plan, role: Role, keychain: map<string, Item>, first: seq<Check>, second: seq<Check>,
      third: seq<Check>)
    requires first == [Check(ZoneSecrets(role), Pass)] && AllPass(second)
    requires SubjectsOf(second) == WorkloadSubjects(role, ZoneOf(p.top, role).workloads)
    requires role == Services && third == [Check(ZoneReady(role), Fail)]
    ensures ZoneFails(p, role, keychain, first + second + third)
  {
    hide FailsAlong, WorkloadSubjects, SubjectsOf;
    SubjectsOfOne(first[0]);
    SubjectsConcat(first, second);
    PassAndPass(first, second);
    FailsFirst(third[0]);
    FailsLater(SubjectsOf(first + second), first + second, [ZoneReady(role)], third);
  }

  /** Everything that makes a faultless zone succeed: values for its secrets, the
      networks of its pods and, for the services, LiteLLM. */
  ghost predicate Favourable(p: Plan, s: Sys, r: Role) {
    && s.hasKeychain && Resolvable(Consumed(p.entries, r), s) && AllReady(p, s, r)
    && (r == Services ==> Serving(s) || LITELLM in ZoneOf(p.top, r).workloads)
  }

  lemma ServingKept(a: State, b: State)
    requires Continues(a, b) && a.command.Up? && Unbroken(b.trace) && Serving(a.sys)
    ensures Serving(b.sys)
  {
    hide Sound, Grows, Faultless, Unbroken, AsPlanned, InPlan;
  }

  lemma FavourableKept(p: Plan, a: State, b: State, r: Role)
    requires Continues(a, b) && a.command == Up(p) && a.sys.machine.Running? && Unbroken(b.trace)
    ensures Favourable(p, a.sys, r) ==> Favourable(p, b.sys, r)
  {
    hide Continues, NetworksReady, Consumed, Obtainable, Serving, Unbroken;
    SameCommand(a, b);
    if Favourable(p, a.sys, r) {
      if Serving(a.sys) { ServingKept(a, b); }
      forall e | e in Consumed(p.entries, r) ensures Obtainable(e, b.sys) { ObtainableKept(a, b, e); }
      forall w | w in ZoneOf(p.top, r).workloads ensures NetworksReady(p, b.sys, r, w) { ReadyKept(a, b, r, w); }
    }
  }

  lemma PlannedServes(p: Plan, s: Sys, r: Role)
    requires s.machine.Running? && AsPlanned(p, s, r, LITELLM)
    ensures Serving(s)
  {
    hide NetworksOf;
  }

  method ApplyZone(host: Host, top: Topology, entries: seq<SecretSpec>, role: Role)
    returns (checks: seq<Check>, ok: bool, err: Err)
    requires host.Valid() && host.command.Up? && Unbroken(host.trace) && host.sys.machine.Running?
    requires top == host.command.plan.top && entries == host.command.plan.entries && role in host.command.plan.roles
    requires SelectedNetworksExist(host.command.plan, host.sys)
    requires role == Agent ==> MayMintAfter(host.command.plan, host.trace)
    modifies host
    ensures Continues(old(host.Now()), host.Now())
    ensures PlayedPrefix(Plays(old(host.trace)), Plays(host.trace), ZoneOf(top, role).workloads)
    ensures ok ==> err.NoErr? && AllPass(checks) && Unbroken(host.trace) && ZoneUp(host.command.plan, host.sys, role)
    ensures ok ==> Plays(host.trace) == Plays(old(host.trace)) + ZoneOf(top, role).workloads
    ensures ok ==> SubjectsOf(checks) == ZoneSubjects(top, role) && (role == Services ==> JustReady(host.trace))
    ensures !ok && err.NoErr? ==> ZoneFails(host.command.plan, role, host.sys.keychain, checks)
    ensures Explained(host.sys.hasKeychain, host.cancelled, host.trace, err)
    ensures Faultless(host.trace) && !host.cancelled && Favourable(old(host.command).plan, old(host.sys), role) ==> ok
  {
    hide Sound, Continues, Faultless, Unbroken, Plays, Consumed, InSync, AsPlanned, Resolvable, AllReady, SecretsIn;
    hide SelectedNetworksExist, PlayedPrefix, FailsAlong, SubjectsOf, WorkloadSubjects, JustReady;
    hide MayMintAfter, Explained, Serving;
    ghost var a := host.Now();
    ghost var p := a.command.plan;
    checks, ok, err := ApplySecrets(host, entries, role);
    ghost var b := host.Now();
    PlayedNone(Plays(a.trace), ZoneOf(top, role).workloads);
    SameCommand(a, b);
    ghost var first := checks;
    if !ok {
      if err.NoErr? && checks == [Check(ZoneSecrets(role), Fail)] { SecretsFailed(p, role, host.sys.keychain, checks); }
      return;
    }
    SelectedKept(a, b);
    if role == Agent { MintableKept(a, b); }
    FavourableKept(p, a, b, role);
    var z, _ := Zone(top, role);
    var more;
    more, ok, err := ApplyWorkloads(host, z, role);
    ghost var second := more;
    ghost var c := host.Now();
    ContinuesTransitive(a, b, c);
    SameCommand(b, c);
    if !ok {
      if err.NoErr? { WorkloadFailed(p, role, host.sys.keychain, checks, more); }
      return checks + more, false, err;
    }
    checks := checks + more;
    ServesAfterZone(p, b, c, role);
    more, ok, err := AwaitReady(host, role);
    ghost var third := more;
    SameCommand(c, host.Now());
    ContinuesTransitive(a, c, host.Now());
    ContinuesTransitive(b, c, host.Now());
    if !ok {
      if err.NoErr? { ReadinessFailed(p, role, host.sys.keychain, first, second, more); }
      return checks + more, false, err;
    }
    checks := checks + more;
    ZoneAppliedIsUp(p, b, c, host.Now(), role);
    ZoneReported(top, role, first, second, third);
  }

  /** Once the pods of the services are up, so is LiteLLM, if it was or is one. */
  lemma ServesAfterZone(p: Plan, b: State, c: State, role: Role)
    requires Continues(b, c) && b.command == Up(p) && Unbroken(c.trace) && c.sys.machine.Running?
    requires forall w :: w in ZoneOf(p.top, role).workloads ==> AsPlanned(p, c.sys, role, w)
    ensures Favourable(p, b.sys, role) && role == Services ==> Serving(c.sys)
  {
    hide Continues, Unbroken, AsPlanned, Serving, Resolvable, AllReady, Consumed;
    if Serving(b.sys) { ServingKept(b, c); }
    if LITELLM in ZoneOf(p.top, role).workloads { PlannedServes(p, c.sys, role); }
  }

  lemma ZoneReported(top: Topology, role: Role, first: seq<Check>, second: seq<Check>, third: seq<Check>)
    requires first == [Check(ZoneSecrets(role), Pass)]
    requires SubjectsOf(second) == WorkloadSubjects(role, ZoneOf(top, role).workloads)
    requires third == if role == Services then [Check(ZoneReady(role), Pass)] else []
    ensures SubjectsOf(first + second + third) == ZoneSubjects(top, role)
  {
    hide SubjectsOf, WorkloadSubjects;
    SubjectsOfOne(Check(ZoneSecrets(role), Pass));
    SubjectsOfOne(Check(ZoneReady(role), Pass));
    SubjectsConcat(first, second);
    SubjectsConcat(first + second, third);
  }

  lemma PlayedNone(before: seq<string>, ws: seq<string>)
    ensures PlayedPrefix(before, before, ws)
  {
    assert before == before + ws[..0];
  }

  lemma ZoneAppliedIsUp(p: Plan, b: State, c: State, d: State, role: Role)
    requires b.command == Up(p) && role in p.roles && b.sys.machine.Running?
    requires Continues(b, c) && Continues(c, d) && Continues(b, d) && Unbroken(d.trace)
    requires SecretsIn(p.entries, b.sys, role)
    requires forall w :: w in ZoneOf(p.top, role).workloads ==> AsPlanned(p, c.sys, role, w)
    ensures ZoneUp(p, d.sys, role)
  {
    hide Continues, Unbroken, Consumed, InSync, AsPlanned, InPlan;
    InPlanMeans(p, role);
    SameCommand(b, c);
    SameCommand(c, d);
    forall e | e in Consumed(p.entries, role) ensures InSync(d.sys, e.name) { InSyncKept(b, d, e.name); }
    forall w | w in ZoneOf(p.top, role).workloads ensures AsPlanned(p, d.sys, role, w) { PlannedKept(c, d, role, w); }
  }
}

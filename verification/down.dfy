/** The teardown of the zones: pods in reverse, then each zone's network
    (internal/app/lifecycle.go). */
module Downs {
  import opened Text
  import opened Roles
  import opened Reports
  import opened Catalogues
  import opened Topologies
  import opened WellFormedness
  import opened Systems
  import opened Rules
  import opened Hosts
  import opened SecretSteps

  /** Only pods and networks went away. */
  ghost predicate Tears(s: Sys, s': Sys) {
    && s' == s.(pods := s'.pods, networks := s'.networks)
    && (forall w :: w in s'.pods ==> w in s.pods && s'.pods[w] == s.pods[w])
    && (forall n :: n in s'.networks ==> n in s.networks && s'.networks[n] == s.networks[n])
  }

  lemma TearsTransitive(a: Sys, b: Sys, c: Sys)
    requires Tears(a, b) && Tears(b, c)
    ensures Tears(a, c)
  {
  }

  /** The teardown so far: `a` is the state in which the pods were listed,
      `present` the pods not known to be gone, `tried` the workloads dealt
      with. */
  ghost predicate Tearing(a: State, b: State, present: set<string>, tried: set<string>) {
    && a.command.Down? && a.sys.machine.Running? && Continues(a, b) && b.command == a.command
    && Tears(a.sys, b.sys)
    && b.sys.pods.Keys <= present
    && (forall w :: w !in tried ==> (w in present <==> w in b.sys.pods))
    && present == a.sys.pods.Keys - Downed(b.trace) && Downed(b.trace) <= tried
    && !Stops(b.trace) && !Removes(b.trace)
    && (Faultless(b.trace) ==> b.sys.pods.Keys == present)
  }

  lemma TearingMeans(a: State, b: State, present: set<string>, tried: set<string>)
    requires Tearing(a, b, present, tried)
    ensures Sound(b) && b.command == a.command && a.command.Down? && b.sys.machine.Running? && Continues(a, b)
    ensures forall w :: w in present && w !in tried ==> w in b.sys.pods
    ensures forall w :: w in b.sys.pods ==> w in present
    ensures present <= a.sys.pods.Keys && forall w :: w !in tried ==> (w in present <==> w in a.sys.pods)
  {
    hide Sound, Faultless, Unbroken, Downed, Stops, Removes;
  }

  lemma TearingWaits(a: State, b: State, c: State, present: set<string>, tried: set<string>)
    requires Tearing(a, b, present, tried) && Continues(b, c) && c == b.(cancelled := c.cancelled)
    ensures Tearing(a, c, present, tried)
  {
    hide Continues, Faultless, Unbroken, Downed, Stops, Removes;
    ContinuesTransitive(a, b, c);
  }

  lemma TearingTried(a: State, b: State, present: set<string>, tried: set<string>, w: string)
    requires Tearing(a, b, present, tried)
    ensures Tearing(a, b, present, tried + {w})
  {
    hide Continues, Faultless, Downed, Stops, Removes;
  }

  /** A failed call that removed nothing for certain, or one that looked. */
  lemma TearingOn(a: State, b: State, c: State, e: Event, o: Outcome, present: set<string>, tried: set<string>)
    requires Tearing(a, b, present, tried) && Did(b, e, o, c)
    requires !e.StopMachine? && !e.RemoveMachine?
    requires Tears(b.sys, c.sys)
    requires if e.KubeDown? then !o.Done? && c.sys.pods.Keys >= b.sys.pods.Keys - {e.workload} && e.workload in tried &&
      o.Fault?
      else c.sys.pods == b.sys.pods
    ensures Tearing(a, c, present, tried)
  {
    hide Continues, Sound, Faultless, Unbroken, Downed, Stops, Removes, Effect, Accepts, Plays, Grows, Fine;
    ContinuesTransitive(a, b, c);
    SameCommand(b, c);
    TearsTransitive(a.sys, b.sys, c.sys);
  }

  lemma TearingDowned(a: State, b: State, c: State, w: string, present: set<string>, tried: set<string>)
    requires Tearing(a, b, present, tried) && Did(b, KubeDown(w), Done, c) && w in present
    requires c.sys == b.sys.(pods := b.sys.pods - {w})
    ensures Tearing(a, c, present - {w}, tried + {w})
  {
    hide Continues, Sound, Faultless, Unbroken, Downed, Stops, Removes, Effect, Accepts, Plays, Grows, Fine;
    ContinuesTransitive(a, b, c);
    SameCommand(b, c);
    TearsTransitive(a.sys, b.sys, c.sys);
  }

  lemma DowningIsAllowed(c: Command, s: Sys, r: Role, w: string)
    requires c.Down? && InPlan(c.plan, r, w) && w in s.pods
    ensures May(c, s, KubeDown(w))
  {
  }

  /** One workload: skipped when it is not there, otherwise taken down. */
  method DownWorkload(host: Host, role: Role, w: string, present0: set<string>, ghost a: State,
      ghost tried: set<string>)
    returns (check: Check, present: set<string>, err: Err)
    requires Tearing(a, host.Now(), present0, tried) && w !in tried && InPlan(a.command.plan, role, w)
    modifies host
    ensures Continues(a, host.Now())
    ensures OnlyCancelled(host.cancelled, err)
    ensures err.NoErr? ==> Tearing(a, host.Now(), present, tried + {w})
    ensures check.subject == WorkloadOf(role, w)
    ensures err.NoErr? ==> (check.status == Fail <==> w in present) && (check.status == Warn <==> w !in present0)
    ensures present == present0 || present == present0 - {w}
    ensures err.NoErr? && Faultless(host.trace) ==> present == present0 - {w}
    ensures Tears(old(host.sys), host.sys) && host.sys.networks == old(host.sys).networks
    ensures Faultless(host.trace) ==> Faultless(old(host.trace))
  {
    hide Sound, Continues, Tearing, Effect, Accepts, May, InPlan, Faultless, Unbroken, Plays, Downed, Stops;
    hide Removes, Tears;
    present := present0;
    ghost var b := host.Now();
    NoTear(b.sys);
    TearingMeans(a, b, present, tried);
    var stop := host.CtxErr();
    ghost var c := host.Now();
    TearingWaits(a, b, c, present, tried);
    TearingMeans(a, c, present, tried);
    if stop { return Check(WorkloadOf(role, w), Fail), present, Canceled; }
    TearingTried(a, c, present, tried, w);
    if w !in present {
      return Check(WorkloadOf(role, w), Warn), present, NoErr;
    }
    DowningIsAllowed(host.command, host.sys, role, w);
    var o := host.KubeDown(w);
    ghost var d := host.Now();
    RemovalTears(c.sys, d.sys, w);
    if o.Done? {
      TearingDowned(a, c, d, w, present, tried);
      TearingMeans(a, d, present - {w}, tried + {w});
      return Check(WorkloadOf(role, w), Pass), present - {w}, NoErr;
    }
    TearingOn(a, c, d, KubeDown(w), o, present, tried + {w});
    TearingMeans(a, d, present, tried + {w});
    stop := host.CtxErr();
    TearingWaits(a, d, host.Now(), present, tried + {w});
    TearingMeans(a, host.Now(), present, tried + {w});
    return Check(WorkloadOf(role, w), Fail), present, if stop then Canceled else NoErr;
  }

  lemma RemovalTears(s: Sys, s': Sys, w: string)
    requires s' == s || s' == s.(pods := s.pods - {w})
    ensures Tears(s, s') && s'.pods.Keys >= s.pods.Keys - {w}
  {
  }

  // ---- What the checks say ------------------------------------------------

  /** A pod that was not listed is a warning, one that is still present a
      failure, one that is gone a pass. */
  ghost predicate PodTold(c: Check, listed: set<string>, present: set<string>) {
    c.subject.WorkloadOf? ==>
      c.status == if c.subject.workload !in listed then Warn else if c.subject.workload in present then Fail else Pass
  }

  ghost predicate SomePresent(ws: seq<string>, present: set<string>) {
    exists w :: w in ws && w in present
  }

  /** A network is kept, with a warning, while a pod of its zone is present.
      Otherwise it passes when it was there and is gone, and is a warning when it
      was not there. */
  ghost predicate NetworkTold(top: Topology, c: Check, listed: Sys, present: set<string>, s: Sys) {
    c.subject.ZoneNetwork? ==>
      var n := c.subject.role.NetworkName();
      if SomePresent(ZoneOf(top, c.subject.role).workloads, present) then c.status == Warn
      else
        && (c.status == Pass ==> n in listed.networks && n !in s.networks)
        && (c.status == Warn ==> n !in listed.networks && n !in s.networks)
  }

  /** The checks about pods and networks are true. */
  ghost predicate Told(top: Topology, checks: seq<Check>, listed: Sys, present: set<string>, s: Sys) {
    forall c :: c in checks ==> PodTold(c, listed.pods.Keys, present) && NetworkTold(top, c, listed, present, s)
  }

  /** None of the checks is about workloads of `ws` or their zones. */
  ghost predicate Apart(top: Topology, checks: seq<Check>, ws: set<string>) {
    forall c :: c in checks ==>
      && (c.subject.WorkloadOf? ==> c.subject.workload !in ws)
      && (c.subject.ZoneNetwork? ==> forall w :: w in ZoneOf(top, c.subject.role).workloads ==> w !in ws)
  }

  /** What happens to other workloads does not make a check untrue. */
  lemma ToldKept(top: Topology, checks: seq<Check>, listed: Sys, present: set<string>, s: Sys,
    present': set<string>, s': Sys, ws: set<string>)
    requires Told(top, checks, listed, present, s) && Apart(top, checks, ws)
    requires present - ws <= present' <= present && s'.networks.Keys <= s.networks.Keys
    ensures Told(top, checks, listed, present', s')
  {
    forall c | c in checks ensures PodTold(c, listed.pods.Keys, present') && NetworkTold(top, c, listed, present', s') {
      assert PodTold(c, listed.pods.Keys, present) && NetworkTold(top, c, listed, present, s);
      if c.subject.ZoneNetwork? {
        var zone := ZoneOf(top, c.subject.role).workloads;
        assert forall w :: w in zone ==> (w in present <==> w in present');
        assert SomePresent(zone, present') <==> SomePresent(zone, present);
        assert c.subject.role.NetworkName() in s'.networks ==> c.subject.role.NetworkName() in s.networks;
      }
    }
  }

  lemma ToldConcat(top: Topology, xs: seq<Check>, ys: seq<Check>, listed: Sys, present: set<string>, s: Sys)
    requires Told(top, xs, listed, present, s) && Told(top, ys, listed, present, s)
    ensures Told(top, xs + ys, listed, present, s)
  {
    hide PodTold, NetworkTold;
  }

  /** A check about a pod alone. */
  lemma PodsTold(top: Topology, check: Check, listed: Sys, present: set<string>, s: Sys)
    requires check.subject.WorkloadOf? && PodTold(check, listed.pods.Keys, present)
    ensures Told(top, [check], listed, present, s)
  {
  }

  lemma NetworkIsTold(top: Topology, check: Check, listed: Sys, present: set<string>, s: Sys)
    requires check.subject.ZoneNetwork? && NetworkTold(top, check, listed, present, s)
    ensures Told(top, [check], listed, present, s)
  {
  }

  // ---- One zone -----------------------------------------------------------

  /** The workloads `ws[j..]`, last first. */
  function Backwards(role: Role, ws: seq<string>, j: nat): seq<Subject>
    requires j <= |ws|
    decreases |ws| - j
  {
    if j == |ws| then [] else Backwards(role, ws, j + 1) + [WorkloadOf(role, ws[j])]
  }

  lemma {:induction false} BackwardsAt(role: Role, ws: seq<string>, j: nat)
    requires j <= |ws|
    ensures |Backwards(role, ws, j)| == |ws| - j
    ensures forall i :: 0 <= i < |ws| - j ==> Backwards(role, ws, j)[i] == WorkloadOf(role, ws[|ws| - 1 - i])
    decreases |ws| - j
  {
    if j < |ws| { BackwardsAt(role, ws, j + 1); }
  }

  ghost function FromOn(ws: seq<string>, j: nat): set<string>
    requires j <= |ws|
  {
    set w | w in ws[j..]
  }

  lemma FromOnStep(ws: seq<string>, j: nat)
    requires j < |ws|
    ensures FromOn(ws, j) == FromOn(ws, j + 1) + {ws[j]}
    ensures Distinct(ws) ==> ws[j] !in FromOn(ws, j + 1)
  {
    assert ws[j..] == [ws[j]] + ws[j + 1..];
  }

  lemma OneMore(checks: seq<Check>, check: Check)
    ensures SubjectsOf(checks + [check]) == SubjectsOf(checks) + [check.subject]
    ensures HasFail(checks + [check]) <==> HasFail(checks) || check.status == Fail
  {
    assert (checks + [check])[..|checks|] == checks;
    if check.status == Fail { assert check in checks + [check]; }
    if c :| c in checks && c.status == Fail { assert c in checks + [check]; }
  }

  /** The pods of one zone, last workload first. A failure does not stop the
      others. */
  method DownPods(host: Host, z: ZoneSpec, role: Role, present0: set<string>, ghost a: State, ghost tried: set<string>)
    returns (checks: seq<Check>, present: set<string>, err: Err)
    requires Tearing(a, host.Now(), present0, tried) && role in a.command.plan.roles
    requires z == ZoneOf(a.command.plan.top, role) && Distinct(z.workloads)
    requires forall w :: w in z.workloads ==> w !in tried
    modifies host
    ensures Continues(a, host.Now())
    ensures OnlyCancelled(host.cancelled, err)
    ensures err.NoErr? ==> Tearing(a, host.Now(), present, tried + FromOn(z.workloads, 0))
    ensures err.NoErr? ==> SubjectsOf(checks) == Backwards(role, z.workloads, 0)
    ensures err.NoErr? ==> (HasFail(checks) <==> FromOn(z.workloads, 0) * present != {})
    ensures present0 - FromOn(z.workloads, 0) <= present <= present0
    ensures err.NoErr? && Faultless(host.trace) ==> present == present0 - FromOn(z.workloads, 0)
    ensures Tears(old(host.sys), host.sys) && host.sys.networks == old(host.sys).networks
    ensures err.NoErr? ==> Told(a.command.plan.top, checks, a.sys, present, host.sys)
    ensures Faultless(host.trace) ==> Faultless(old(host.trace))
  {
    hide Sound, Continues, Tearing, Faultless, FromOn, HasFail, Distinct, Tears, Told, Apart, PodTold;
    hide NetworkTold, Backwards;
    checks, present, err := [], present0, NoErr;
    TearingMeans(a, host.Now(), present0, tried);
    FromOnEnds(z.workloads);
    NoChecksNoFail();
    NothingTold(a.command.plan.top, a.sys, present, host.sys);
    NoneBackwards(role, z.workloads);
    assert tried + {} == tried;
    NoTear(host.sys);
    for j := |z.workloads| downto 0
      invariant Tearing(a, host.Now(), present, tried + FromOn(z.workloads, j)) && err.NoErr?
      invariant SubjectsOf(checks) == Backwards(role, z.workloads, j)
      invariant HasFail(checks) <==> FromOn(z.workloads, j) * present != {}
      invariant present0 - FromOn(z.workloads, j) <= present <= present0
      invariant Faultless(host.trace) ==> present == present0 - FromOn(z.workloads, j)
      invariant Tears(old(host.sys), host.sys) && host.sys.networks == old(host.sys).networks
      invariant Told(a.command.plan.top, checks, a.sys, present, host.sys)
      invariant Faultless(host.trace) ==> Faultless(old(host.trace))
    {
      ghost var b, before := host.Now(), present;
      FromOnStep(z.workloads, j);
      FromOnWithin(z.workloads, j);
      TearingMeans(a, b, present, tried + FromOn(z.workloads, j + 1));
      PlannedIn(a.command.plan, role, z.workloads[j]);
      var check;
      check, present, err := DownWorkload(host, role, z.workloads[j], present, a, tried + FromOn(z.workloads, j + 1));
      TearsTransitive(old(host.sys), b.sys, host.sys);
      if !err.NoErr? { return; }
      assert tried + FromOn(z.workloads, j + 1) + {z.workloads[j]} == tried + FromOn(z.workloads, j);
      BackwardsStep(role, z.workloads, j);
      BackwardsApart(a.command.plan.top, role, z.workloads, j, checks);
      ToldKept(a.command.plan.top, checks, a.sys, before, b.sys, present, host.sys, {z.workloads[j]});
      CheckedPod(check, role, z.workloads[j], a.sys.pods.Keys, before, present);
      PodsTold(a.command.plan.top, check, a.sys, present, host.sys);
      ToldConcat(a.command.plan.top, checks, [check], a.sys, present, host.sys);
      OneMore(checks, check);
      checks := checks + [check];
    }
    TearingMeans(a, host.Now(), present, tried + FromOn(z.workloads, 0));
  }

  lemma NothingTold(top: Topology, listed: Sys, present: set<string>, s: Sys)
    ensures Told(top, [], listed, present, s)
  {
  }

  lemma BackwardsStep(role: Role, ws: seq<string>, j: nat)
    requires j < |ws|
    ensures Backwards(role, ws, j) == Backwards(role, ws, j + 1) + [WorkloadOf(role, ws[j])]
  {
  }

  lemma NoneBackwards(role: Role, ws: seq<string>)
    ensures Backwards(role, ws, |ws|) == [] && SubjectsOf([]) == []
  {
  }

  lemma CheckedPod(check: Check, role: Role, w: string, listed: set<string>, before: set<string>, present: set<string>)
    requires check.subject == WorkloadOf(role, w)
    requires (check.status == Fail <==> w in present) && (check.status == Warn <==> w !in before)
    requires present <= before && (w in before <==> w in listed)
    ensures PodTold(check, listed, present)
  {
  }

  lemma {:induction false} BackwardsMean(role: Role, ws: seq<string>, j: nat)
    requires j <= |ws|
    ensures forall x :: x in Backwards(role, ws, j) ==> x.WorkloadOf? && x.workload in FromOn(ws, j)
    decreases |ws| - j
  {
    if j < |ws| {
      BackwardsMean(role, ws, j + 1);
      FromOnStep(ws, j);
    }
  }

  lemma {:induction false} SubjectIn(checks: seq<Check>, c: Check)
    requires c in checks
    ensures c.subject in SubjectsOf(checks)
  {
    if c != checks[|checks| - 1] {
      assert c in checks[..|checks| - 1];
      SubjectIn(checks[..|checks| - 1], c);
    }
  }

  lemma BackwardsApart(top: Topology, role: Role, ws: seq<string>, j: nat, checks: seq<Check>)
    requires j < |ws| && Distinct(ws) && SubjectsOf(checks) == Backwards(role, ws, j + 1)
    ensures Apart(top, checks, {ws[j]})
  {
    hide SubjectsOf, Backwards, FromOn, Distinct;
    BackwardsMean(role, ws, j + 1);
    FromOnStep(ws, j);
    forall c | c in checks ensures c.subject.WorkloadOf? && c.subject.workload != ws[j] { SubjectIn(checks, c); }
  }

  lemma FromOnEnds(ws: seq<string>)
    ensures FromOn(ws, |ws|) == {}
    ensures forall w :: w in FromOn(ws, 0) <==> w in ws
  {
    assert ws[0..] == ws;
  }

  lemma FromOnWithin(ws: seq<string>, j: nat)
    requires j < |ws|
    ensures forall w :: w in FromOn(ws, j + 1) ==> w in ws
  {
    var rest := ws[j + 1..];
    forall w | w in rest ensures w in ws {
      var i :| 0 <= i < |rest| && rest[i] == w;
      assert ws[j + 1 + i] == w;
    }
  }

  lemma NoChecksNoFail()
    ensures !HasFail([])
  {
  }

  lemma PlannedIn(p: Plan, role: Role, w: string)
    requires role in p.roles && w in ZoneOf(p.top, role).workloads
    ensures InPlan(p, role, w)
  {
  }

  // ---- Its network --------------------------------------------------------

  lemma ClosingIsAllowed(c: Command, s: Sys, r: Role)
    requires c.Down? && r in c.plan.roles && s.machine.Running? && r.NetworkName() in s.networks
    requires forall w :: w in ZoneOf(c.plan.top, r).workloads ==> w !in s.pods
    ensures May(c, s, RemoveNetwork(r.NetworkName()))
  {
  }

  /** A zone's network after a faultless attempt to remove it. */
  ghost predicate Closes(s: Sys, s': Sys, network: string, status: Status) {
    if network in s.networks && Attached(s, network) then status == Fail && s' == s
    else if network in s.networks then status == Pass && s' == s.(networks := s.networks - {network})
    else status == Warn && s' == s
  }

  ghost predicate OtherNetworksStay(s: Sys, s': Sys, role: Role) {
    forall n :: n != role.NetworkName() ==> (n in s'.networks <==> n in s.networks)
  }

  /** Removes the zone's network when its pods are gone. */
  method CloseNetwork(host: Host, role: Role, zoneOK: bool, present: set<string>, ghost a: State,
      ghost tried: set<string>)
    returns (check: Check, err: Err)
    requires Tearing(a, host.Now(), present, tried) && role in a.command.plan.roles
    requires zoneOK ==> forall w :: w in ZoneOf(a.command.plan.top, role).workloads ==> w !in present
    modifies host
    ensures Continues(a, host.Now())
    ensures OnlyCancelled(host.cancelled, err)
    ensures err.NoErr? ==> Tearing(a, host.Now(), present, tried) && check.subject == ZoneNetwork(role)
    ensures Faultless(host.trace) ==> Faultless(old(host.trace))
    ensures err.NoErr? && zoneOK && Faultless(host.trace) ==>
      Closes(old(host.sys), host.sys, role.NetworkName(), check.status)
    ensures err.NoErr? && !zoneOK ==> check.status == Warn && host.sys.networks == old(host.sys).networks
    ensures err.NoErr? && zoneOK && check.status != Fail ==>
      && role.NetworkName() !in host.sys.networks
      && (check.status == Pass <==> role.NetworkName() in old(host.sys).networks)
    ensures OtherNetworksStay(old(host.sys), host.sys, role)
    ensures Tears(old(host.sys), host.sys)
  {
    hide Sound, Continues, Tearing, Effect, Accepts, May, Attached, Faultless, Unbroken, Plays, Downed, Stops;
    hide Removes, Tears;
    ghost var b := host.Now();
    NoTear(b.sys);
    TearingMeans(a, b, present, tried);
    if !zoneOK { return Check(ZoneNetwork(role), Warn), NoErr; }
    var o, found := host.NetworkExists(role.NetworkName());
    ghost var c := host.Now();
    NoTear(c.sys);
    TearingOn(a, b, c, Event.NetworkExists(role.NetworkName()), o, present, tried);
    TearingMeans(a, c, present, tried);
    var stop := host.CtxErr();
    ghost var d := host.Now();
    TearingWaits(a, c, d, present, tried);
    TearingMeans(a, d, present, tried);
    if stop { return Check(ZoneNetwork(role), Fail), Canceled; }
    if !o.Done? { return Check(ZoneNetwork(role), Fail), NoErr; }
    if !found { return Check(ZoneNetwork(role), Warn), NoErr; }
    ClosingIsAllowed(host.command, host.sys, role);
    o := host.RemoveNetwork(role.NetworkName());
    ClosingTears(d.sys, host.sys, role.NetworkName());
    TearingOn(a, d, host.Now(), RemoveNetwork(role.NetworkName()), o, present, tried);
    TearingMeans(a, host.Now(), present, tried);
    ClosingRefused(d.sys, o, role.NetworkName());
    return Check(ZoneNetwork(role), if o.Done? then Pass else Fail), NoErr;
  }

  lemma NoTear(s: Sys)
    ensures Tears(s, s)
  {
  }

  lemma ClosingTears(s: Sys, s': Sys, n: string)
    requires s' == s || s' == s.(networks := s.networks - {n})
    ensures Tears(s, s')
  {
  }

  lemma ClosingRefused(s: Sys, o: Outcome, n: string)
    requires s.machine.Running? && n in s.networks
    ensures Accepts(s, RemoveNetwork(n)) <==> !Attached(s, n)
  {
  }

  // ---- All selected zones -------------------------------------------------

  /** No zone from `i` on lists the workload. */
  ghost predicate Remains(p: Plan, i: nat, w: string) {
    forall j :: i <= j < |p.roles| ==> w !in ZoneOf(p.top, p.roles[j]).workloads
  }

  /** When zone `j`'s turn comes, a pod that is still there uses its network. */
  ghost predicate HeldUp(p: Plan, s: Sys, j: nat)
    requires j < |p.roles|
  {
    exists w :: w in s.pods && Remains(p, j, w) && p.roles[j].NetworkName() in s.pods[w].networks
  }

  /** The networks of the zones from `i` on that cannot be removed. */
  ghost predicate Held(p: Plan, s: Sys, i: nat) {
    exists j :: i <= j < |p.roles| && p.roles[j].NetworkName() in s.networks && HeldUp(p, s, j)
  }

  /** `n` is not the network of a zone from `i` on. */
  ghost predicate Elsewhere(p: Plan, i: nat, n: string) {
    forall j :: i <= j < |p.roles| ==> n != p.roles[j].NetworkName()
  }

  /** A faultless teardown of the zones from `i` on turned `s` into `s'`. */
  ghost predicate TornDown(p: Plan, s: Sys, s': Sys, i: nat) {
    && Tears(s, s')
    && (forall w :: w in s'.pods <==> w in s.pods && Remains(p, i, w))
    && (forall j :: i <= j < |p.roles| ==>
      (p.roles[j].NetworkName() in s'.networks <==> p.roles[j].NetworkName() in s.networks && HeldUp(p, s, j)))
    && (forall n :: Elsewhere(p, i, n) ==> (n in s'.networks <==> n in s.networks))
  }

  /** One zone's pods are gone and its network was dealt with. */
  ghost predicate ZoneTorn(b: Sys, c: Sys, z: ZoneSpec, role: Role, failed: bool) {
    exists status :: Closes(b.(pods := b.pods - FromOn(z.workloads, 0)), c, role.NetworkName(), status) &&
      (failed <==> status == Fail)
  }

  lemma RemainsStep(p: Plan, i: nat, w: string)
    requires i < |p.roles|
    ensures Remains(p, i, w) <==> Remains(p, i + 1, w) && w !in ZoneOf(p.top, p.roles[i]).workloads
  {
    hide ZoneOf;
  }

  lemma OwnNetworkUntouched(p: Plan, i: nat)
    requires InZoneOrder(p.roles) && i < |p.roles|
    ensures Elsewhere(p, i + 1, p.roles[i].NetworkName())
  {
    forall j | i + 1 <= j < |p.roles| ensures p.roles[i].NetworkName() != p.roles[j].NetworkName() {
      if p.roles[i].NetworkName() == p.roles[j].NetworkName() { NetworkNamesDiffer(p.roles[i], p.roles[j]); }
    }
  }

  lemma AttachedIsHeldUp(p: Plan, s: Sys, m: Sys, i: nat)
    requires i < |p.roles| && Tears(s, m)
    requires forall w :: w in m.pods <==> w in s.pods && Remains(p, i, w)
    ensures Attached(m, p.roles[i].NetworkName()) <==> HeldUp(p, s, i)
  {
    hide Remains;
    var n := p.roles[i].NetworkName();
    if Attached(m, n) {
      var w :| w in m.pods && n in m.pods[w].networks;
      assert w in s.pods && Remains(p, i, w) && n in s.pods[w].networks;
    }
    if HeldUp(p, s, i) {
      var w :| w in s.pods && Remains(p, i, w) && n in s.pods[w].networks;
      assert w in m.pods && n in m.pods[w].networks;
    }
  }

  lemma PodsAfterZone(p: Plan, s: Sys, b: Sys, i: nat)
    requires i < |p.roles| && TornDown(p, s, b, i + 1)
    ensures var m := b.(pods := b.pods - FromOn(ZoneOf(p.top, p.roles[i]).workloads, 0));
      Tears(s, m) && forall w :: w in m.pods <==> w in s.pods && Remains(p, i, w)
  {
    hide Remains, HeldUp, Elsewhere;
    var ws := ZoneOf(p.top, p.roles[i]).workloads;
    FromOnEnds(ws);
    var m := b.(pods := b.pods - FromOn(ws, 0));
    forall w ensures w in m.pods <==> w in s.pods && Remains(p, i, w) { RemainsStep(p, i, w); }
  }

  lemma NetworksAfterZone(p: Plan, s: Sys, m: Sys, c: Sys, i: nat, status: Status)
    requires InZoneOrder(p.roles) && i < |p.roles|
    requires forall j :: i + 1 <= j < |p.roles| ==>
      (p.roles[j].NetworkName() in m.networks <==> p.roles[j].NetworkName() in s.networks && HeldUp(p, s, j))
    requires forall n :: Elsewhere(p, i + 1, n) ==> (n in m.networks <==> n in s.networks)
    requires Attached(m, p.roles[i].NetworkName()) <==> HeldUp(p, s, i)
    requires Closes(m, c, p.roles[i].NetworkName(), status)
    ensures forall j :: i <= j < |p.roles| ==>
      (p.roles[j].NetworkName() in c.networks <==> p.roles[j].NetworkName() in s.networks && HeldUp(p, s, j))
    ensures forall n :: Elsewhere(p, i, n) ==> (n in c.networks <==> n in s.networks)
    ensures status == Fail <==> p.roles[i].NetworkName() in s.networks && HeldUp(p, s, i)
  {
    hide HeldUp, Attached, InZoneOrder;
    var own := p.roles[i].NetworkName();
    OwnNetworkUntouched(p, i);
    assert own in m.networks <==> own in s.networks;
    forall j | i <= j < |p.roles|
      ensures p.roles[j].NetworkName() in c.networks <==> p.roles[j].NetworkName() in s.networks && HeldUp(p, s, j)
    {
      if j > i { assert p.roles[j].NetworkName() != own; }
    }
    forall n | Elsewhere(p, i, n) ensures n in c.networks <==> n in s.networks {
      assert Elsewhere(p, i + 1, n) && n != own;
    }
  }

  /** One more zone of a faultless teardown. */
  lemma TornStep(p: Plan, s: Sys, b: Sys, c: Sys, i: nat, failed: bool)
    requires InZoneOrder(p.roles) && i < |p.roles| && TornDown(p, s, b, i + 1)
    requires ZoneTorn(b, c, ZoneOf(p.top, p.roles[i]), p.roles[i], failed)
    ensures TornDown(p, s, c, i)
    ensures failed <==> p.roles[i].NetworkName() in s.networks && HeldUp(p, s, i)
  {
    hide HeldUp, Remains, Elsewhere, InZoneOrder, FromOn;
    var m := b.(pods := b.pods - FromOn(ZoneOf(p.top, p.roles[i]).workloads, 0));
    var status :| Closes(m, c, p.roles[i].NetworkName(), status) && (failed <==> status == Fail);
    PodsAfterZone(p, s, b, i);
    AttachedIsHeldUp(p, s, m, i);
    NetworksAfterZone(p, s, m, c, i, status);
    CloseKeepsTears(s, m, c, p.roles[i].NetworkName(), status);
  }

  lemma CloseKeepsTears(s: Sys, m: Sys, c: Sys, n: string, status: Status)
    requires Tears(s, m) && Closes(m, c, n, status)
    ensures Tears(s, c) && c.pods == m.pods
  {
    hide Attached;
  }

  /** The workloads of the zones from `i` on. */
  ghost function TriedFrom(p: Plan, i: nat): set<string>
    requires i <= |p.roles|
    decreases |p.roles| - i
  {
    if i == |p.roles| then {} else TriedFrom(p, i + 1) + FromOn(ZoneOf(p.top, p.roles[i]).workloads, 0)
  }

  lemma {:induction false} TriedFromMeans(p: Plan, i: nat)
    requires i <= |p.roles|
    ensures forall w :: w in TriedFrom(p, i) <==> !Remains(p, i, w)
    decreases |p.roles| - i
  {
    if i < |p.roles| {
      TriedFromMeans(p, i + 1);
      FromOnEnds(ZoneOf(p.top, p.roles[i]).workloads);
      forall w ensures w in TriedFrom(p, i) <==> !Remains(p, i, w) { RemainsStep(p, i, w); }
    }
  }

  /** The checks of the zones from `i` on: per zone its workloads, last first,
      then its network. */
  function DownSubjects(p: Plan, i: nat): seq<Subject>
    requires i <= |p.roles|
    decreases |p.roles| - i
  {
    if i == |p.roles| then []
    else
      DownSubjects(p, i + 1) +
      (Backwards(p.roles[i], ZoneOf(p.top, p.roles[i]).workloads, 0) + [ZoneNetwork(p.roles[i])])
  }

  lemma FreshZone(p: Plan, i: nat)
    requires GoodPlan(p) && i < |p.roles|
    ensures forall w :: w in ZoneOf(p.top, p.roles[i]).workloads ==> w !in TriedFrom(p, i + 1)
    ensures Distinct(ZoneOf(p.top, p.roles[i]).workloads)
  {
    hide IsCatalogue, TriedFrom, GoodTargets;
    TriedFromMeans(p, i + 1);
    forall w | w in ZoneOf(p.top, p.roles[i]).workloads ensures Remains(p, i + 1, w) {
      forall j | i + 1 <= j < |p.roles| ensures w !in ZoneOf(p.top, p.roles[j]).workloads {
        assert p.roles[i].Rank() < p.roles[j].Rank();
      }
    }
  }

  lemma DownPlan(a: State)
    requires Sound(a) && a.command.Down?
    ensures GoodPlan(a.command.plan) && InZoneOrder(a.command.plan.roles)
  {
    hide RunOf, Usable, IsCatalogue;
  }

  lemma TornHere(a: State, b: State, c: Sys, z: ZoneSpec, role: Role, present0: set<string>, status: Status, mid: Sys,
      present: set<string>, tried: set<string>)
    requires Tears(b.sys, mid) && mid.networks == b.sys.networks
    requires b.sys.pods.Keys == present0 && mid.pods.Keys == present && present == present0 - FromOn(z.workloads, 0)
    requires Closes(mid, c, role.NetworkName(), status)
    ensures ZoneTorn(b.sys, c, z, role, status == Fail)
  {
    hide Closes, FromOn;
    assert mid.pods == b.sys.pods - FromOn(z.workloads, 0);
    assert mid == b.sys.(pods := b.sys.pods - FromOn(z.workloads, 0));
  }

  lemma FaultlessKeys(a: State, b: State, present: set<string>, tried: set<string>)
    requires Tearing(a, b, present, tried) && Faultless(b.trace)
    ensures b.sys.pods.Keys == present
  {
    hide Continues, Faultless, Downed, Stops, Removes, Tears;
  }

  lemma ZoneKnown(ws: seq<string>, present: set<string>)
    ensures FromOn(ws, 0) * present == {} <==> !SomePresent(ws, present)
    ensures FromOn(ws, 0) * present == {} ==> forall w :: w in ws ==> w !in present
  {
    FromOnEnds(ws);
    forall w ensures w in FromOn(ws, 0) * present <==> w in ws && w in present {}
  }

  lemma ApartFromNothing(top: Topology, checks: seq<Check>)
    ensures Apart(top, checks, {})
  {
  }

  /** One zone's pods and its network. */
  lemma ZoneChecksTold(top: Topology, role: Role, pods: seq<Check>, check: Check, zoneOK: bool,
    listed: Sys, present: set<string>, m: Sys, s: Sys)
    requires Told(top, pods, listed, present, m) && Tears(m, s)
    requires check.subject == ZoneNetwork(role) && (zoneOK <==> !SomePresent(ZoneOf(top, role).workloads, present))
    requires !zoneOK ==> check.status == Warn
    requires zoneOK && check.status != Fail ==> role.NetworkName() !in s.networks
    requires zoneOK && check.status != Fail ==> (check.status == Pass <==> role.NetworkName() in listed.networks)
    ensures Told(top, pods + [check], listed, present, s)
  {
    hide Told, Apart, SomePresent;
    ApartFromNothing(top, pods);
    assert present - {} == present;
    ToldKept(top, pods, listed, present, m, present, s, {});
    NetworkIsTold(top, check, listed, present, s);
    ToldConcat(top, pods, [check], listed, present, s);
  }

  /** One zone: its pods, then its network. */
  method DownZone(host: Host, top: Topology, role: Role, present0: set<string>, ghost a: State,
      ghost tried: set<string>)
    returns (checks: seq<Check>, present: set<string>, err: Err)
    requires Tearing(a, host.Now(), present0, tried) && role in a.command.plan.roles && top == a.command.plan.top
    requires Distinct(ZoneOf(top, role).workloads) && forall w :: w in ZoneOf(top, role).workloads ==> w !in tried
    requires role.NetworkName() in host.sys.networks <==> role.NetworkName() in a.sys.networks
    modifies host
    ensures Continues(a, host.Now())
    ensures OnlyCancelled(host.cancelled, err)
    ensures err.NoErr? ==> Tearing(a, host.Now(), present, tried + FromOn(ZoneOf(top, role).workloads, 0))
    ensures err.NoErr? ==> SubjectsOf(checks) == Backwards(role, ZoneOf(top, role).workloads, 0) + [ZoneNetwork(role)]
    ensures present0 - FromOn(ZoneOf(top, role).workloads, 0) <= present <= present0
    ensures Tears(old(host.sys), host.sys) && OtherNetworksStay(old(host.sys), host.sys, role)
    ensures err.NoErr? ==> Told(top, checks, a.sys, present, host.sys)
    ensures Faultless(host.trace) ==> Faultless(old(host.trace))
    ensures err.NoErr? && Faultless(host.trace) ==>
      ZoneTorn(old(host.sys), host.sys, ZoneOf(top, role), role, HasFail(checks))
  {
    hide Sound, Continues, Tearing, Faultless, FromOn, HasFail, Distinct, Tears, Closes, ZoneTorn, Backwards;
    hide Told, Apart, SubjectsOf;
    ghost var b := host.Now();
    var z, _ := Zone(top, role);
    checks, present, err := DownPods(host, z, role, present0, a, tried);
    if !err.NoErr? { return; }
    var zoneOK := true;
    for i := 0 to |checks|
      invariant zoneOK <==> forall j :: 0 <= j < i ==> checks[j].status != Fail
    {
      if checks[i].status == Fail { zoneOK := false; }
    }
    FailIsFound(checks);
    ghost var m := host.Now();
    ZoneKnown(z.workloads, present);
    var check;
    check, err := CloseNetwork(host, role, zoneOK, present, a, tried + FromOn(z.workloads, 0));
    TearsTransitive(b.sys, m.sys, host.sys);
    if !err.NoErr? { return; }
    ZoneChecksTold(top, role, checks, check, zoneOK, a.sys, present, m.sys, host.sys);
    if Faultless(host.trace) {
      FaultlessKeys(a, b, present0, tried);
      FaultlessKeys(a, m, present, tried + FromOn(z.workloads, 0));
      TornHere(a, b, host.sys, z, role, present0, check.status, m.sys, present, tried);
    }
    OneMore(checks, check);
    checks := checks + [check];
  }

  lemma FailIsFound(checks: seq<Check>)
    ensures HasFail(checks) <==> exists j :: 0 <= j < |checks| && checks[j].status == Fail
  {
    if j :| 0 <= j < |checks| && checks[j].status == Fail { assert checks[j] in checks; }
  }

  lemma HeldStep(p: Plan, s: Sys, i: nat)
    requires i < |p.roles|
    ensures Held(p, s, i) <==> Held(p, s, i + 1) || (p.roles[i].NetworkName() in s.networks && HeldUp(p, s, i))
  {
    hide HeldUp;
    if Held(p, s, i + 1) {
      var j :| i + 1 <= j < |p.roles| && p.roles[j].NetworkName() in s.networks && HeldUp(p, s, j);
      assert i <= j;
    }
  }

  lemma FailsConcat(xs: seq<Check>, ys: seq<Check>)
    ensures HasFail(xs + ys) <==> HasFail(xs) || HasFail(ys)
  {
    if c :| c in xs && c.status == Fail { assert c in xs + ys; }
    if c :| c in ys && c.status == Fail { assert c in xs + ys; }
  }

  lemma NothingTorn(p: Plan, s: Sys)
    ensures TornDown(p, s, s, |p.roles|) && !Held(p, s, |p.roles|)
    ensures EarlierNetworksStay(s, s, p.roles, |p.roles|)
  {
  }

  /** The selected zones, last first; failures accumulate in the report. */
  method DownZones(host: Host, top: Topology, roles: seq<Role>, present0: set<string>)
    returns (checks: seq<Check>, present: set<string>, err: Err)
    requires host.command.Down? && Tearing(host.Now(), host.Now(), present0, {})
    requires roles == host.command.plan.roles && top == host.command.plan.top
    modifies host
    ensures Continues(old(host.Now()), host.Now())
    ensures OnlyCancelled(host.cancelled, err) && Tears(old(host.sys), host.sys)
    ensures err.NoErr? ==> Tearing(old(host.Now()), host.Now(), present, TriedFrom(old(host.command).plan, 0))
    ensures err.NoErr? ==> SubjectsOf(checks) == DownSubjects(old(host.command).plan, 0)
    ensures err.NoErr? ==> Told(top, checks, old(host.sys), present, host.sys)
    ensures err.NoErr? && Faultless(host.trace) ==>
      && TornDown(old(host.command).plan, old(host.sys), host.sys, 0)
      && (HasFail(checks) <==> Held(old(host.command).plan, old(host.sys), 0))
  {
    hide Sound, Continues, Tearing, Faultless, FromOn, HasFail, TornDown, Held, ZoneTorn, GoodPlan;
    hide InZoneOrder, HeldUp, Distinct, Told, Apart, SubjectsOf, DownSubjects, Tears, EarlierNetworksStay;
    hide OtherNetworksStay;
    ghost var a := host.Now();
    ghost var p := a.command.plan;
    TearingMeans(a, a, present0, {});
    DownPlan(a);
    NoChecksNoFail();
    NothingTorn(p, a.sys);
    NothingTold(top, a.sys, present0, a.sys);
    NoZonesDown(p);
    NoTear(a.sys);
    checks, present, err := [], present0, NoErr;
    for i := |roles| downto 0
      invariant Tearing(a, host.Now(), present, TriedFrom(p, i)) && err.NoErr?
      invariant SubjectsOf(checks) == DownSubjects(p, i) && Tears(a.sys, host.sys)
      invariant EarlierNetworksStay(a.sys, host.sys, roles, i)
      invariant Told(top, checks, a.sys, present, host.sys)
      invariant Faultless(host.trace) ==> TornDown(p, a.sys, host.sys, i) && (HasFail(checks) <==> Held(p, a.sys, i))
    {
      ghost var b, before := host.Now(), present;
      FreshZone(p, i);
      ZonesApart(p, i, checks);
      EarlierNetworks(p, a.sys, b.sys, i);
      var more;
      more, present, err := DownZone(host, top, roles[i], present, a, TriedFrom(p, i + 1));
      TearsTransitive(a.sys, b.sys, host.sys);
      EarlierStay(p, a.sys, b.sys, host.sys, i);
      SubjectsConcat(checks, more);
      DownSubjectsStep(p, i);
      if err.NoErr? {
        NetworksTorn(b.sys, host.sys);
        ToldKept(top, checks, a.sys, before, b.sys, present, host.sys,
          FromOn(ZoneOf(top, roles[i]).workloads, 0));
        ToldConcat(top, checks, more, a.sys, present, host.sys);
      }
      FailsConcat(checks, more);
      checks := checks + more;
      if !err.NoErr? { return; }
      if Faultless(host.trace) {
        TornStep(p, a.sys, b.sys, host.sys, i, HasFail(more));
        HeldStep(p, a.sys, i);
      }
    }
    TearingMeans(a, host.Now(), present, TriedFrom(p, 0));
  }

  /** The networks of the zones not yet dealt with are as they were. */
  ghost predicate EarlierNetworksStay(s: Sys, b: Sys, roles: seq<Role>, i: nat) {
    forall j :: 0 <= j < i && j < |roles| ==>
      (roles[j].NetworkName() in b.networks <==> roles[j].NetworkName() in s.networks)
  }

  lemma EarlierNetworks(p: Plan, s: Sys, b: Sys, i: nat)
    requires i < |p.roles| && EarlierNetworksStay(s, b, p.roles, i + 1)
    ensures p.roles[i].NetworkName() in b.networks <==> p.roles[i].NetworkName() in s.networks
  {
  }

  lemma EarlierStay(p: Plan, s: Sys, b: Sys, c: Sys, i: nat)
    requires i < |p.roles| && InZoneOrder(p.roles) && EarlierNetworksStay(s, b, p.roles, i + 1)
    requires OtherNetworksStay(b, c, p.roles[i])
    ensures EarlierNetworksStay(s, c, p.roles, i)
  {
    forall j | 0 <= j < i ensures p.roles[j].NetworkName() != p.roles[i].NetworkName() {
      if p.roles[j].NetworkName() == p.roles[i].NetworkName() { NetworkNamesDiffer(p.roles[j], p.roles[i]); }
    }
  }

  lemma NetworksTorn(s: Sys, s': Sys)
    requires Tears(s, s')
    ensures s'.networks.Keys <= s.networks.Keys && s'.pods.Keys <= s.pods.Keys
  {
  }

  lemma NoZonesDown(p: Plan)
    ensures DownSubjects(p, |p.roles|) == [] && SubjectsOf([]) == []
  {
  }

  lemma DownSubjectsStep(p: Plan, i: nat)
    requires i < |p.roles|
    ensures DownSubjects(p, i) ==
      DownSubjects(p, i + 1) +
        (Backwards(p.roles[i], ZoneOf(p.top, p.roles[i]).workloads, 0) + [ZoneNetwork(p.roles[i])])
  {
  }

  /** What the checks of the zones from `i` on are about has been tried. */
  ghost predicate AboutTried(p: Plan, x: Subject, tried: set<string>) {
    && (x.WorkloadOf? ==> x.workload in tried)
    && (x.ZoneNetwork? ==> forall w :: w in ZoneOf(p.top, x.role).workloads ==> w in tried)
  }

  lemma {:induction false} DownSubjectsTried(p: Plan, i: nat)
    requires i <= |p.roles|
    ensures forall x :: x in DownSubjects(p, i) ==> AboutTried(p, x, TriedFrom(p, i))
    decreases |p.roles| - i
  {
    hide Backwards, FromOn;
    if i < |p.roles| {
      DownSubjectsTried(p, i + 1);
      var ws := ZoneOf(p.top, p.roles[i]).workloads;
      BackwardsMean(p.roles[i], ws, 0);
      FromOnEnds(ws);
    }
  }

  lemma ZonesApart(p: Plan, i: nat, checks: seq<Check>)
    requires i < |p.roles| && SubjectsOf(checks) == DownSubjects(p, i + 1)
    requires forall w :: w in ZoneOf(p.top, p.roles[i]).workloads ==> w !in TriedFrom(p, i + 1)
    ensures Apart(p.top, checks, FromOn(ZoneOf(p.top, p.roles[i]).workloads, 0))
  {
    hide SubjectsOf, DownSubjects, TriedFrom, FromOn;
    DownSubjectsTried(p, i + 1);
    FromOnEnds(ZoneOf(p.top, p.roles[i]).workloads);
    forall c | c in checks ensures AboutTried(p, c.subject, TriedFrom(p, i + 1)) { SubjectIn(checks, c); }
  }

  lemma {:induction false} SubjectHasCheck(checks: seq<Check>, x: Subject) returns (c: Check)
    requires x in SubjectsOf(checks)
    ensures c in checks && c.subject == x
  {
    var n := |checks| - 1;
    if x == checks[n].subject { c := checks[n]; } else { c := SubjectHasCheck(checks[..n], x); }
  }

  lemma {:induction false} InBackwards(role: Role, ws: seq<string>, j: nat, w: string)
    requires j <= |ws| && w in ws[j..]
    ensures WorkloadOf(role, w) in Backwards(role, ws, j)
    decreases |ws| - j
  {
    if w != ws[j] {
      assert ws[j..] == [ws[j]] + ws[j + 1..];
      InBackwards(role, ws, j + 1, w);
    }
  }

  /** Every selected zone's network and workloads are in the report. */
  lemma {:induction false} InDownSubjects(p: Plan, i: nat, k: nat, w: string)
    requires i <= k < |p.roles|
    ensures ZoneNetwork(p.roles[k]) in DownSubjects(p, i)
    ensures w in ZoneOf(p.top, p.roles[k]).workloads ==> WorkloadOf(p.roles[k], w) in DownSubjects(p, i)
    decreases |p.roles| - i
  {
    hide Backwards;
    if i < k {
      InDownSubjects(p, i + 1, k, w);
    } else if w in ZoneOf(p.top, p.roles[k]).workloads {
      assert ZoneOf(p.top, p.roles[k]).workloads[0..] == ZoneOf(p.top, p.roles[k]).workloads;
      InBackwards(p.roles[k], ZoneOf(p.top, p.roles[k]).workloads, 0, w);
    }
  }

  /** The checks of one zone: its workloads, last first, then its network. */
  function ZoneDownSubjects(top: Topology, r: Role): seq<Subject> {
    Backwards(r, ZoneOf(top, r).workloads, 0) + [ZoneNetwork(r)]
  }

  /** The order of a report: the selected zones, last first. */
  lemma ZonesGoInReverse(top: Topology, entries: seq<SecretSpec>, a: Role, b: Role, c: Role)
    ensures DownSubjects(Plan(top, entries, [a]), 0) == ZoneDownSubjects(top, a)
    ensures DownSubjects(Plan(top, entries, [a, b]), 0) == ZoneDownSubjects(top, b) + ZoneDownSubjects(top, a)
    ensures DownSubjects(Plan(top, entries, [a, b, c]), 0) ==
      ZoneDownSubjects(top, c) + ZoneDownSubjects(top, b) + ZoneDownSubjects(top, a)
  {
    hide Backwards, ZoneOf;
    var one, two, three := Plan(top, entries, [a]), Plan(top, entries, [a, b]), Plan(top, entries, [a, b, c]);
    NoZonesDown(one);
    NoZonesDown(two);
    NoZonesDown(three);
    assert DownSubjects(two, 1) == ZoneDownSubjects(top, b);
    assert DownSubjects(three, 2) == ZoneDownSubjects(top, c);
    assert DownSubjects(three, 1) == ZoneDownSubjects(top, c) + ZoneDownSubjects(top, b);
  }

  lemma ZoneDownSubjectsAt(top: Topology, r: Role)
    ensures var ws, all := ZoneOf(top, r).workloads, ZoneDownSubjects(top, r);
      && |all| == |ws| + 1 && all[|ws|] == ZoneNetwork(r)
      && forall i :: 0 <= i < |ws| ==> all[i] == WorkloadOf(r, ws[|ws| - 1 - i])
  {
    BackwardsAt(r, ZoneOf(top, r).workloads, 0);
  }
}

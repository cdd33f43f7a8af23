/** Which networks are there when a pod is played, and which pods are in the
    way when a network is removed: theorems over every run of `up` and `down`
    (internal/app/lifecycle.go). */
module NetworkRuns {
  import opened Roles
  import opened Reports
  import opened Topologies
  import opened Validation
  import opened WellFormedness
  import opened Systems
  import opened Rules
  import opened Runs
  import opened Hosts
  import opened SecretSteps
  import opened Ups
  import opened UpCommand
  import opened Downs
  import opened DownCommand
  import opened DefaultTopology
  import opened LiteLLMRuns

  // ---- Playing ------------------------------------------------------------

  /** Where there is no machine there is nothing inside it. */
  ghost predicate Sane(s: Sys) {
    s.machine.NoMachine? ==> Emptied(s) == s
  }

  lemma SaneKept(s: Sys, e: Event, o: Outcome, s': Sys)
    requires Sane(s) && Next(s, e, o, s')
    ensures Sane(s')
  {
    hide Accepts, Effect, Next;
    NextCases(s, e, o, s');
    if Accepts(s, e) { EffectIsSane(s, e); }
  }

  lemma EffectIsSane(s: Sys, e: Event)
    requires Sane(s) && Accepts(s, e)
    ensures Sane(Effect(s, e))
  {
  }

  /** A network there after a call was there before it, of the same kind, or is
      the one the call creates. */
  lemma NetworksAfter(s: Sys, e: Event, o: Outcome, s': Sys, n: string)
    requires Next(s, e, o, s') && n in s'.networks
    ensures
      || (e.CreateNetwork? && n == e.network && s'.networks[n] == e.internal)
      || (n in s.networks && s'.networks[n] == s.networks[n])
  {
    hide Accepts;
    NextCases(s, e, o, s');
  }

  /** Of the networks, `up` adds only the selected zones'. */
  ghost predicate OnlySelectedAdded(p: Plan, s: Sys, t: Sys) {
    forall n :: n in t.networks ==> n in s.networks || exists r :: r in p.roles && n == r.NetworkName()
  }

  lemma SelectedAddedStep(p: Plan, s: Sys, t: Sys, e: Event, o: Outcome, u: Sys)
    requires UpMay(p, t, e) && Next(t, e, o, u) && OnlySelectedAdded(p, s, t)
    ensures OnlySelectedAdded(p, s, u)
  {
    hide Next, NetworksOf, Consumes, Sourced, PlayFor, SecretsIn;
    forall n | n in u.networks ensures n in s.networks || exists r :: r in p.roles && n == r.NetworkName() {
      NetworksAfter(t, e, o, u, n);
    }
  }

  lemma {:induction false} UpAddsSelected(p: Plan, s: Sys, run: seq<Step>, t: Sys)
    requires RunOf(Command.Up(p), s, run, t)
    ensures OnlySelectedAdded(p, s, t)
  {
    hide May, Next, RunOf, UpMay, OnlySelectedAdded;
    if run == [] {
      EmptyRun(Command.Up(p), s, t);
      NothingAdded(p, s);
    } else {
      var n := |run| - 1;
      RunUnsnoc(Command.Up(p), s, run, t);
      UpAddsSelected(p, s, run[..n], run[n].pre);
      UpMayIs(Command.Up(p), run[n].pre, run[n].event);
      SelectedAddedStep(p, s, run[n].pre, run[n].event, run[n].outcome, t);
    }
  }

  lemma NothingAdded(p: Plan, s: Sys)
    ensures OnlySelectedAdded(p, s, s)
  {
  }

  /** Every bridge of the workload leads to a selected zone or to a network that
      was already there. */
  ghost predicate ClosedFor(p: Plan, s: Sys, r: Role, w: string) {
    forall x: Role :: Joins(p.top, r, w, x) ==> x in p.roles || x.NetworkName() in s.networks
  }

  lemma NetworksMet(p: Plan, s: Sys, t: Sys, r: Role, w: string)
    requires Usable(p.top) && OnlySelectedAdded(p, s, t) && SelectedNetworksExist(p, t)
    requires forall n :: n in s.networks ==> n in t.networks
    ensures (forall n :: n in NetworksOf(ZoneOf(p.top, r), w) ==> n in t.networks) <==> ClosedFor(p, s, r, w)
  {
    hide NetworksOf, Joins, GoodTargets;
    var nets := NetworksOf(ZoneOf(p.top, r), w);
    forall x: Role ensures x.NetworkName() in nets <==> Joins(p.top, r, w, x) { JoinsMeans(p.top, r, w, x); }
    forall n | n in nets ensures exists x: Role :: n == x.NetworkName() { JoinsOnlyZones(ZoneOf(p.top, r), w, n); }
    forall x: Role ensures x.NetworkName() in t.networks <==> x in p.roles || x.NetworkName() in s.networks {
      if x.NetworkName() in t.networks && x.NetworkName() !in s.networks {
        var q :| q in p.roles && x.NetworkName() == q.NetworkName();
        NetworkNamesDiffer(x, q);
      }
    }
  }

  lemma PlayGuard(p: Plan, s: Sys, e: Event) returns (r: Role)
    requires UpMay(p, s, e) && e.Play?
    ensures s.machine.Running? && e.workload in s.images && SelectedNetworksExist(p, s)
    ensures InPlan(p, r, e.workload) && e.networks == NetworksOf(ZoneOf(p.top, r), e.workload)
    ensures SecretsIn(p.entries, s, r)
  {
    hide SecretsIn, NetworksOf;
    r :| PlayFor(p, r, e.workload, e.networks, e.userns) && SecretsIn(p.entries, s, r);
  }

  lemma GrownNetworks(p: Plan, s: Sys, t: Sys)
    requires Grows(p, s, t) && Sane(s)
    ensures forall n :: n in s.networks ==> n in t.networks
  {
    hide AsPlanned, InPlan, InSync;
  }

  /** In every run of `up`, a play is accepted exactly when each network the
      workload is bridged into belongs to a selected zone or was there before
      the run. The image has just been built. */
  lemma PlayAcceptedIff(p: Plan, s: Sys, run: seq<Step>, s': Sys, i: nat) returns (r: Role)
    requires Usable(p.top) && Sane(s) && RunOf(Command.Up(p), s, run, s')
    requires i < |run| && run[i].event.Play?
    ensures InPlan(p, r, run[i].event.workload)
    ensures run[i].event.networks == NetworksOf(ZoneOf(p.top, r), run[i].event.workload)
    ensures JustBuilt(run[..i], run[i].event.workload)
    ensures Accepts(run[i].pre, run[i].event) <==> ClosedFor(p, s, r, run[i].event.workload)
    ensures run[i].outcome.Refused? ==> !ClosedFor(p, s, r, run[i].event.workload)
    ensures run[i].outcome.Done? ==> ClosedFor(p, s, r, run[i].event.workload)
  {
    hide RunOf, UpMay, May, Next, NetworksOf, Joins, Usable, Grows, JustBuilt, MayMintAfter, JustMade;
    hide OnlySelectedAdded, ClosedFor, SelectedNetworksExist, Sane;
    var t := run[i].pre;
    RunAt(Command.Up(p), s, run, s', i);
    UpMayIs(Command.Up(p), t, run[i].event);
    r := PlayGuard(p, t, run[i].event);
    CalledInTime(p, s, run, s', i);
    UpGrows(p, s, run[..i], t);
    UpAddsSelected(p, s, run[..i], t);
    GrownNetworks(p, s, t);
    NetworksMet(p, s, t, r, run[i].event.workload);
    NextMeans(t, run[i].event, run[i].outcome, run[i].post);
  }

  /** Selecting every zone closes the selection. */
  lemma EveryZoneIsClosed(p: Plan, s: Sys)
    requires p.roles == ALL
    ensures Closed(p, s)
    ensures forall r: Role, w :: ClosedFor(p, s, r, w)
  {
    forall x: Role ensures x in p.roles { assert ALL[x.Rank()] == x; }
  }

  // ---- When `up` succeeds -------------------------------------------------

  lemma {:induction false} PlayedSomewhere(run: seq<Step>, w: string) returns (i: nat)
    requires w in Plays(run)
    ensures i < |run| && run[i].event.Play? && run[i].event.workload == w
  {
    var n := |run| - 1;
    if w in Plays(run[..n]) { i := PlayedSomewhere(run[..n], w); } else { i := n; }
  }

  lemma {:induction false} InWorkloads(top: Topology, roles: seq<Role>, r: Role, w: string)
    requires r in roles && w in ZoneOf(top, r).workloads
    ensures w in WorkloadsOf(top, roles)
  {
    var n := |roles| - 1;
    if roles[n] != r {
      assert r in roles[..n];
      InWorkloads(top, roles[..n], r, w);
    }
  }

  lemma UnbrokenPlay(run: seq<Step>, i: nat)
    requires Unbroken(run) && i < |run| && run[i].event.Play?
    ensures run[i].outcome.Done?
  {
    assert !Broken(run[i]);
  }

  lemma ClosedForAll(p: Plan, s: Sys)
    requires Sane(s) && forall r: Role, w :: InPlan(p, r, w) ==> ClosedFor(p, s, r, w)
    ensures Closed(p, s)
  {
    hide InPlan, Joins;
  }

  /** A run that played everything without a failed call found every network. */
  lemma CleanRunWasClosed(p: Plan, s: Sys, run: seq<Step>, s': Sys)
    requires Usable(p.top) && Sane(s) && RunOf(Command.Up(p), s, run, s')
    requires Unbroken(run) && Plays(run) == WorkloadsOf(p.top, p.roles)
    ensures Closed(p, s)
  {
    hide Usable, Sane, RunOf, Unbroken, Plays, WorkloadsOf, ClosedFor, Closed;
    forall r: Role, w | InPlan(p, r, w) ensures ClosedFor(p, s, r, w) {
      InWorkloads(p.top, p.roles, r, w);
      var i := PlayedSomewhere(run, w);
      UnbrokenPlay(run, i);
      var q := PlayAcceptedIff(p, s, run, s', i);
      ZoneIsUnique(p, r, q, w);
    }
    ClosedForAll(p, s);
  }

  /** Exactly when `up` succeeds, given that no call faults and nobody cancels:
      the keychain and the selected zones' user secrets are there, each bridge of
      a selected workload leads to a selected zone or to a network that is there
      already, and LiteLLM, if the run needs it, is up or comes up in time. */
  lemma UpPassesIff(p: Plan, s: Sys, run: seq<Step>, s': Sys, checks: seq<Check>, err: Err)
    requires GoodPlan(p) && Sane(s) && RunOf(Command.Up(p), s, run, s')
    requires UpEnds(p, s, run, s', false, checks, err) && Faultless(run)
    ensures err.NoErr? && AllPass(checks) <==> Promising(p, s)
  {
    hide GoodPlan, Usable, Sane, RunOf, Faultless, Unbroken, Plays, WorkloadsOf, Goal, Closed, AllUsersSet;
    hide UpReport, OnlyPeeks, PlayedPrefix, Served, Explained, Answered, InZoneOrder;
    PlanInOrder(p);
    if err.NoErr? && AllPass(checks) {
      CleanRunWasClosed(p, s, run, s');
      CleanRunWasServed(p, s, run, s');
      CleanHasUsers(p, s, checks);
    }
  }

  lemma CleanHasUsers(p: Plan, s: Sys, checks: seq<Check>)
    requires AllPass(checks)
    requires !AllUsersSet(p.entries, p.roles, s) ==>
      checks == AllUnsetUsers(p.entries, p.roles, s.keychain) && checks != []
    ensures AllUsersSet(p.entries, p.roles, s)
  {
    hide AllUsersSet, AllUnsetUsers, AllPass, AllFail;
    AllUnsetUsersMeans(p.entries, p.roles, s);
    if !AllUsersSet(p.entries, p.roles, s) { AllFailFails(checks); }
  }

  // ---- Removing -----------------------------------------------------------

  /** Every pod is one of the topology's, on its networks and in its user
      namespace. */
  ghost predicate PodsPlanned(top: Topology, s: Sys) {
    forall w :: w in s.pods ==> PodPlanned(top, w, s.pods[w])
  }

  ghost predicate PodPlanned(top: Topology, w: string, pod: Pod) {
    exists r: Role :: PlannedFor(top, r, w, pod)
  }

  ghost predicate PlannedFor(top: Topology, r: Role, w: string, pod: Pod) {
    && w in ZoneOf(top, r).workloads
    && pod.networks == NetworksOf(ZoneOf(top, r), w) && pod.userns == UsernsOf(ZoneOf(top, r))
  }

  lemma PlayIsPlanned(c: Command, s: Sys, e: Event)
    requires May(c, s, e) && e.Play?
    ensures c.Up? && PodPlanned(c.plan.top, e.workload, Pod(e.networks, e.userns, true))
  {
    hide ZoneOf, NetworksOf, UsernsOf, SelectedNetworksExist, SecretsIn;
    var top := c.plan.top;
    var r :| PlayFor(c.plan, r, e.workload, e.networks, e.userns);
    assert PlannedFor(top, r, e.workload, Pod(e.networks, e.userns, true));
  }

  lemma HaltedIsPlanned(top: Topology, w: string, pod: Pod)
    requires PodPlanned(top, w, pod)
    ensures PodPlanned(top, w, pod.(running := false))
  {
    hide ZoneOf, NetworksOf, UsernsOf;
    var r: Role :| PlannedFor(top, r, w, pod);
    assert PlannedFor(top, r, w, pod.(running := false));
  }

  lemma PodsAfterEffect(s: Sys, e: Event, w: string)
    requires w in Effect(s, e).pods
    ensures
      || (e.Play? && w == e.workload && Effect(s, e).pods[w] == Pod(e.networks, e.userns, true))
      || (w in s.pods && (Effect(s, e).pods[w] == s.pods[w] || Effect(s, e).pods[w] == s.pods[w].(running := false)))
  {
  }

  /** A call leaves each pod as it was, apart from running, or plays it. */
  lemma PodsAfter(s: Sys, e: Event, o: Outcome, s': Sys, w: string)
    requires Next(s, e, o, s') && w in s'.pods
    ensures
      || (e.Play? && w == e.workload && s'.pods[w] == Pod(e.networks, e.userns, true))
      || (w in s.pods && (s'.pods[w] == s.pods[w] || s'.pods[w] == s.pods[w].(running := false)))
  {
    hide Next, Accepts, Effect;
    NextCases(s, e, o, s');
    if s' == Effect(s, e) { PodsAfterEffect(s, e, w); }
  }

  lemma StepKeepsPlanned(c: Command, top: Topology, s: Sys, e: Event, o: Outcome, s': Sys)
    requires May(c, s, e) && Next(s, e, o, s') && (c.Up? ==> c.plan.top == top) && PodsPlanned(top, s)
    ensures PodsPlanned(top, s')
  {
    hide May, Next, PodPlanned;
    if e.Play? { PlayIsPlanned(c, s, e); }
    forall w | w in s'.pods ensures PodPlanned(top, w, s'.pods[w]) {
      PodsAfter(s, e, o, s', w);
      if w in s.pods { HaltedIsPlanned(top, w, s.pods[w]); }
    }
  }

  /** Commands leave only planned pods where they find only planned pods. */
  lemma {:induction false} RunKeepsPlanned(c: Command, top: Topology, s: Sys, run: seq<Step>, s': Sys)
    requires RunOf(c, s, run, s') && (c.Up? ==> c.plan.top == top) && PodsPlanned(top, s)
    ensures PodsPlanned(top, s')
  {
    hide May, Next, RunOf, PodsPlanned;
    if run == [] {
      EmptyRun(c, s, s');
    } else {
      var n := |run| - 1;
      RunUnsnoc(c, s, run, s');
      RunKeepsPlanned(c, top, s, run[..n], run[n].pre);
      StepKeepsPlanned(c, top, run[n].pre, run[n].event, run[n].outcome, s');
    }
  }

  lemma DownMayIs(p: Plan, destroy: bool, s: Sys, e: Event)
    ensures May(Command.Down(p, destroy), s, e) <==> DownMay(p, destroy, s, e)
  {
    hide DownMay;
  }

  /** The workload is bridged into zone `r`. */
  ghost predicate BridgedInto(top: Topology, w: string, r: Role) {
    exists q: Role :: w in ZoneOf(top, q).workloads && r.Name() in Bridged(ZoneOf(top, q), w)
  }

  /** A planned pod of another zone is on the network of `r` exactly when it is
      bridged into it. */
  lemma OnNetworkMeans(top: Topology, r: Role, w: string, pod: Pod)
    requires Usable(top) && PodPlanned(top, w, pod) && w !in ZoneOf(top, r).workloads
    ensures r.NetworkName() in pod.networks <==> BridgedInto(top, w, r)
  {
    hide GoodTargets, NetworksOf, UsernsOf;
    var q: Role :| PlannedFor(top, q, w, pod);
    JoinsMeans(top, q, w, r);
    if BridgedInto(top, w, r) {
      var z: Role :| w in ZoneOf(top, z).workloads && r.Name() in Bridged(ZoneOf(top, z), w);
      assert z == q;
    }
  }

  lemma RemovalGuard(p: Plan, destroy: bool, s: Sys, e: Event) returns (r: Role)
    requires DownMay(p, destroy, s, e) && e.RemoveNetwork?
    ensures r in p.roles && e.network == r.NetworkName() && e.network in s.networks && s.machine.Running?
    ensures forall w :: w in ZoneOf(p.top, r).workloads ==> w !in s.pods
  {
    r :| r in p.roles && e.network == r.NetworkName() && forall w :: w in ZoneOf(p.top, r).workloads ==> w !in s.pods;
  }

  lemma RemovalOutcome(s: Sys, n: string, o: Outcome, s': Sys)
    requires Next(s, RemoveNetwork(n), o, s') && s.machine.Running? && n in s.networks
    ensures o.Refused? ==> Attached(s, n)
    ensures o.Done? ==> !Attached(s, n)
  {
    hide Attached;
  }

  /** In every run of `down`, when a zone's network is removed none of its own
      pods is left, and what is still attached to it is exactly the remaining
      pods bridged into it: they decide between removal and refusal. */
  lemma NetworkRemovals(p: Plan, destroy: bool, s: Sys, run: seq<Step>, s': Sys, i: nat) returns (r: Role)
    requires Usable(p.top) && PodsPlanned(p.top, s) && RunOf(Command.Down(p, destroy), s, run, s')
    requires i < |run| && run[i].event.RemoveNetwork?
    ensures r in p.roles && run[i].event.network == r.NetworkName()
    ensures forall w :: w in ZoneOf(p.top, r).workloads ==> w !in run[i].pre.pods
    ensures forall w :: w in run[i].pre.pods ==>
      (r.NetworkName() in run[i].pre.pods[w].networks <==> BridgedInto(p.top, w, r))
    ensures run[i].outcome.Done? ==> forall w :: w in run[i].pre.pods ==> !BridgedInto(p.top, w, r)
    ensures run[i].outcome.Refused? ==> exists w :: w in run[i].pre.pods && BridgedInto(p.top, w, r)
  {
    hide RunOf, DownMay, May, Next, ZoneOf, NetworksOf, Usable, BridgedInto, PodPlanned;
    var t := run[i].pre;
    RunAt(Command.Down(p, destroy), s, run, s', i);
    DownMayIs(p, destroy, t, run[i].event);
    r := RemovalGuard(p, destroy, t, run[i].event);
    RunKeepsPlanned(Command.Down(p, destroy), p.top, s, run[..i], t);
    forall w | w in t.pods ensures r.NetworkName() in t.pods[w].networks <==> BridgedInto(p.top, w, r) {
      OnNetworkMeans(p.top, r, w, t.pods[w]);
    }
    RemovalOutcome(t, r.NetworkName(), run[i].outcome, run[i].post);
  }

  // ---- Taking everything down ---------------------------------------------

  /** A workload of an earlier zone is bridged into `r`. */
  ghost predicate BridgedFromBelow(t: Topology, r: Role) {
    exists q: Role, w :: q.Rank() < r.Rank() && w in ZoneOf(t, q).workloads && r.Name() in Bridged(ZoneOf(t, q), w)
  }

  lemma RemainsMeans(p: Plan, j: nat, q: Role, w: string)
    requires Usable(p.top) && p.roles == ALL && j < |ALL| && w in ZoneOf(p.top, q).workloads
    ensures Remains(p, j, w) <==> q.Rank() < j
  {
    hide GoodTargets;
    if q.Rank() >= j { assert p.roles[q.Rank()] == q; }
    forall k | j <= k < |p.roles| && q.Rank() < j ensures w !in ZoneOf(p.top, p.roles[k]).workloads {
      assert p.roles[k].Rank() == k;
    }
  }

  /** What is up belongs to the topology. */
  ghost predicate NoStrangers(top: Topology, s: Sys) {
    forall w :: w in s.pods ==> exists r: Role :: w in ZoneOf(top, r).workloads
  }

  lemma PlannedAreNoStrangers(top: Topology, s: Sys)
    requires PodsPlanned(top, s)
    ensures NoStrangers(top, s)
  {
    hide ZoneOf, NetworksOf, UsernsOf;
    forall w | w in s.pods ensures exists r: Role :: w in ZoneOf(top, r).workloads {
      var r: Role :| PlannedFor(top, r, w, s.pods[w]);
    }
  }

  lemma UpPod(p: Plan, s: Sys, r: Role, w: string)
    requires Goal(p, s) && r in p.roles && w in ZoneOf(p.top, r).workloads
    ensures w in s.pods && s.pods[w].networks == NetworksOf(ZoneOf(p.top, r), w)
  {
    hide SecretsIn, NetworksOf, SelectedNetworksExist;
    assert ZoneUp(p, s, r);
  }

  /** A workload that is up outlives zone `j` and uses its network exactly when
      it is of an earlier zone and bridged into it. */
  lemma HoldsUp(p: Plan, s: Sys, j: nat, q: Role, w: string)
    requires Usable(p.top) && p.roles == ALL && Goal(p, s) && j < |ALL| && w in ZoneOf(p.top, q).workloads
    ensures w in s.pods
    ensures Remains(p, j, w) && p.roles[j].NetworkName() in s.pods[w].networks <==>
      q.Rank() < p.roles[j].Rank() && p.roles[j].Name() in Bridged(ZoneOf(p.top, q), w)
  {
    hide Goal, Remains, NetworksOf, Usable;
    assert ALL[q.Rank()] == q;
    UpPod(p, s, q, w);
    RemainsMeans(p, j, q, w);
    JoinsMeans(p.top, q, w, p.roles[j]);
    assert p.roles[j].Rank() == j;
  }

  /** With everything up, the turn of zone `j` finds its network in use exactly
      when an earlier zone is bridged into it: zones go down in reverse, and
      bridges to later zones outlive them. */
  lemma HeldUpIff(p: Plan, s: Sys, j: nat)
    requires Usable(p.top) && p.roles == ALL && Goal(p, s) && NoStrangers(p.top, s) && j < |ALL|
    ensures HeldUp(p, s, j) <==> BridgedFromBelow(p.top, p.roles[j])
  {
    hide Usable, Goal, Remains, ZoneOf, Bridged;
    if HeldUp(p, s, j) {
      var w :| w in s.pods && Remains(p, j, w) && p.roles[j].NetworkName() in s.pods[w].networks;
      var q: Role :| w in ZoneOf(p.top, q).workloads;
      HoldsUp(p, s, j, q, w);
    }
    if BridgedFromBelow(p.top, p.roles[j]) {
      var r := p.roles[j];
      var q: Role, w :| q.Rank() < r.Rank() && w in ZoneOf(p.top, q).workloads &&
        r.Name() in Bridged(ZoneOf(p.top, q), w);
      HoldsUp(p, s, j, q, w);
    }
  }

  lemma EverythingGone(p: Plan, s: Sys, m: Sys)
    requires Usable(p.top) && p.roles == ALL && NoStrangers(p.top, s) && TornDown(p, s, m, 0)
    ensures m.pods == map[]
  {
    hide Remains, HeldUp, Elsewhere, GoodTargets;
    forall w | w in s.pods ensures !Remains(p, 0, w) {
      var q: Role :| w in ZoneOf(p.top, q).workloads;
      RemainsMeans(p, 0, q, w);
    }
    assert m.pods.Keys == {};
  }

  /** A faultless `down` of everything that is up stops the machine and purges
      the store, but it reports a failure exactly when some zone is bridged
      into from an earlier one, and exactly those zones' networks stay. */
  lemma WholeDown(p: Plan, s: Sys, s': Sys, checks: seq<Check>)
    requires Usable(p.top) && p.roles == ALL && Goal(p, s) && NoStrangers(p.top, s)
    requires CleanDown(p, s, s', checks)
    ensures s'.machine.Stopped? && s'.pods == map[] && NothingLeft(s, s')
    ensures forall r: Role :: r.NetworkName() in s'.networks <==> BridgedFromBelow(p.top, r)
    ensures HasFail(checks) <==> exists r: Role :: BridgedFromBelow(p.top, r)
  {
    hide HeldUp, Remains, Elsewhere, BridgedFromBelow, ZonesUp, NothingLeft, Tears, Purged, HasFail, Usable;
    hide NoStrangers;
    var m :| TornDown(p, s, m, 0) && s' == (if m.pods == map[] then AtRest(m) else m) &&
      (HasFail(checks) <==> Held(p, s, 0));
    EverythingGone(p, s, m);
    RestLeavesNothing(s, m, s');
    RestIsQuiet(m);
    forall r: Role
      ensures r in p.roles && p.roles[r.Rank()] == r
      ensures r.NetworkName() in s'.networks <==> BridgedFromBelow(p.top, r)
      ensures r.NetworkName() in s.networks && (HeldUp(p, s, r.Rank()) <==> BridgedFromBelow(p.top, r))
    {
      assert ALL[r.Rank()] == r;
      HeldUpIff(p, s, r.Rank());
    }
    if Held(p, s, 0) {
      var j :| 0 <= j < |p.roles| && p.roles[j].NetworkName() in s.networks && HeldUp(p, s, j);
      assert p.roles[j].Rank() == j;
      assert BridgedFromBelow(p.top, p.roles[j]);
    }
  }

  lemma RestIsQuiet(m: Sys)
    requires m.pods == map[]
    ensures AtRest(m).networks == m.networks && AtRest(m).machine.Stopped? && AtRest(m).pods == map[]
  {
  }

  // ---- The default topology -----------------------------------------------

  lemma DefaultZoneOf()
    ensures ZoneOf(DEFAULT, Infra) == INFRA_ZONE && ZoneOf(DEFAULT, Services) == SERVICES_ZONE
    ensures ZoneOf(DEFAULT, Agent) == AGENT_ZONE
  {
    hide OnlyZone, ZoneUpTo;
    DefaultZoneAt(Infra);
    DefaultZoneAt(Services);
    DefaultZoneAt(Agent);
    ZoneFound(DEFAULT.zones, Infra, 0);
    ZoneFound(DEFAULT.zones, Services, 1);
    ZoneFound(DEFAULT.zones, Agent, 2);
  }

  /** In the default topology a full `down` cannot remove the networks of the
      services and agent zones. */
  lemma DefaultIsHeld()
    ensures BridgedFromBelow(DEFAULT, Agent) && BridgedFromBelow(DEFAULT, Services) && !BridgedFromBelow(DEFAULT, Infra)
  {
    DefaultZoneOf();
    KumaIsBridged();
  }

  /** So with the default topology, taking down everything that is up always
      ends with a failure in the report, though the machine is at rest. */
  lemma DefaultDownFails(p: Plan, s: Sys, s': Sys, checks: seq<Check>)
    requires p.top == DEFAULT && Usable(p.top) && p.roles == ALL && Goal(p, s) && NoStrangers(p.top, s)
    requires CleanDown(p, s, s', checks)
    ensures HasFail(checks) && s'.machine.Stopped? && Agent.NetworkName() in s'.networks
    ensures Services.NetworkName() in s'.networks
  {
    hide Usable, Goal, NoStrangers, CleanDown, BridgedFromBelow, HasFail, NothingLeft;
    DefaultIsHeld();
    WholeDown(p, s, s', checks);
  }

  /** In the default topology the infra zone cannot be brought up alone: a clean
      `up infra` needs the networks of the other two zones to be there. */
  lemma InfraAloneNeedsTheOthers(p: Plan, s: Sys, run: seq<Step>, s': Sys, cancelled: bool, checks: seq<Check>,
      err: Err)
    requires p.top == DEFAULT && Usable(p.top) && p.roles == [Infra] && Sane(s) && RunOf(Command.Up(p), s, run, s')
    requires UpEnds(p, s, run, s', cancelled, checks, err) && err.NoErr? && AllPass(checks)
    ensures Services.NetworkName() in s.networks && Agent.NetworkName() in s.networks
  {
    hide Usable, Sane, RunOf, Unbroken, Plays, WorkloadsOf, Goal, AllUsersSet, UpReport, OnlyPeeks;
    hide PlayedPrefix, AllPass, Promising;
    CleanRunWasClosed(p, s, run, s');
    DefaultZoneOf();
    assert InPlan(p, Infra, "kuma-cp");
    KumaIsBridged();
    assert Joins(p.top, Infra, "kuma-cp", Services) && Joins(p.top, Infra, "kuma-cp", Agent);
  }

  lemma KumaIsBridged()
    ensures "kuma-cp" in INFRA_ZONE.workloads && Bridged(INFRA_ZONE, "kuma-cp") == ["services", "agent"]
    ensures Agent.Name() in Bridged(INFRA_ZONE, "kuma-cp") && Services.Name() in Bridged(INFRA_ZONE, "kuma-cp")
  {
  }
}

/** What keeps an internal zone closed, over every history of commands
    (internal/app/lifecycle.go, internal/domain/topology.go). */
module Isolation {
  import opened Roles
  import opened Topologies
  import opened WellFormedness
  import opened Systems
  import opened Rules
  import opened Runs
  import opened Ups
  import opened UpCommand
  import opened NetworkRuns
  import opened Histories

  /** The networks of the zones are internal exactly where the topology says. */
  ghost predicate KindsMatch(top: Topology, s: Sys) {
    forall r: Role :: r.NetworkName() in s.networks ==> s.networks[r.NetworkName()] == ZoneOf(top, r).internal
  }

  /** Pods of internal zones are on their own network only, in their own user
      namespace. */
  ghost predicate PodsSealed(top: Topology, s: Sys) {
    forall r: Role, w :: ZoneOf(top, r).internal && w in ZoneOf(top, r).workloads && w in s.pods ==>
      SealedPod(r, s.pods[w])
  }

  ghost predicate SealedPod(r: Role, pod: Pod) {
    pod.networks == [r.NetworkName()] && pod.userns == "auto"
  }

  lemma CreateGuard(c: Command, s: Sys, e: Event) returns (r: Role)
    requires May(c, s, e) && e.CreateNetwork?
    ensures c.Up? && e.network == r.NetworkName() && e.internal == ZoneOf(c.plan.top, r).internal
  {
    hide ZoneOf;
    r :| r in c.plan.roles && e.network == r.NetworkName() && e.internal == ZoneOf(c.plan.top, r).internal;
  }

  lemma PlayGuardOf(c: Command, s: Sys, e: Event) returns (r: Role)
    requires May(c, s, e) && e.Play?
    ensures c.Up? && InPlan(c.plan, r, e.workload)
    ensures e.networks == NetworksOf(ZoneOf(c.plan.top, r), e.workload) && e.userns == UsernsOf(ZoneOf(c.plan.top, r))
  {
    hide ZoneOf, NetworksOf, SelectedNetworksExist, InPlan, UsernsOf, SecretsIn;
    r :| PlayFor(c.plan, r, e.workload, e.networks, e.userns);
  }

  lemma StepKeepsKinds(c: Command, top: Topology, s: Sys, e: Event, o: Outcome, t: Sys)
    requires May(c, s, e) && Next(s, e, o, t) && (c.Up? ==> c.plan.top == top) && KindsMatch(top, s)
    ensures KindsMatch(top, t)
  {
    hide May, Next, ZoneOf;
    forall r: Role | r.NetworkName() in t.networks ensures t.networks[r.NetworkName()] == ZoneOf(top, r).internal {
      NetworksAfter(s, e, o, t, r.NetworkName());
      if e.CreateNetwork? && r.NetworkName() == e.network {
        var q := CreateGuard(c, s, e);
        NetworkNamesDiffer(r, q);
      }
    }
  }

  lemma PlayedIsSealed(top: Topology, q: Role, w: string, e: Event)
    requires Usable(top) && e.Play? && e.workload == w && w in ZoneOf(top, q).workloads
    requires e.networks == NetworksOf(ZoneOf(top, q), w) && e.userns == UsernsOf(ZoneOf(top, q))
    ensures forall r: Role :: ZoneOf(top, r).internal && w in ZoneOf(top, r).workloads ==>
      SealedPod(r, Pod(e.networks, e.userns, true))
  {
    hide GoodTargets, NetworksOf;
    forall r: Role | ZoneOf(top, r).internal && w in ZoneOf(top, r).workloads
      ensures SealedPod(r, Pod(e.networks, e.userns, true))
    {
      assert r == q;
      InternalJoinsOne(top, r, w);
    }
  }

  lemma StepKeepsSealed(c: Command, top: Topology, s: Sys, e: Event, o: Outcome, t: Sys)
    requires May(c, s, e) && Next(s, e, o, t) && (c.Up? ==> c.plan.top == top) && Usable(top) && PodsSealed(top, s)
    ensures PodsSealed(top, t)
  {
    hide May, Next, ZoneOf, Usable, NetworksOf, UsernsOf;
    if e.Play? {
      var q := PlayGuardOf(c, s, e);
      PlayedIsSealed(top, q, e.workload, e);
    }
    forall r: Role, w | ZoneOf(top, r).internal && w in ZoneOf(top, r).workloads && w in t.pods
      ensures SealedPod(r, t.pods[w])
    {
      PodsAfter(s, e, o, t, w);
    }
  }

  lemma {:induction false} RunKeepsSealed(c: Command, top: Topology, s: Sys, run: seq<Step>, t: Sys)
    requires RunOf(c, s, run, t) && (c.Up? ==> c.plan.top == top) && Usable(top)
    requires KindsMatch(top, s) && PodsSealed(top, s)
    ensures KindsMatch(top, t) && PodsSealed(top, t)
  {
    hide May, Next, RunOf, Usable, KindsMatch, PodsSealed;
    if run == [] {
      EmptyRun(c, s, t);
    } else {
      var k := |run| - 1;
      RunUnsnoc(c, s, run, t);
      RunKeepsSealed(c, top, s, run[..k], run[k].pre);
      StepKeepsKinds(c, top, run[k].pre, run[k].event, run[k].outcome, t);
      StepKeepsSealed(c, top, run[k].pre, run[k].event, run[k].outcome, t);
    }
  }

  /** Over every history in which `up` works from one valid topology, however
      its commands end, no pod of an internal zone is ever on a network other
      than its own, shares the host's user namespace, or finds that network
      open. */
  lemma {:induction false} InternalZonesStayClosed(hs: seq<Entry>, top: Topology, s: Sys, t: Sys)
    requires Chained(hs, s, t) && Usable(top) && KindsMatch(top, s) && PodsSealed(top, s)
    requires forall i :: 0 <= i < |hs| && hs[i].command.Up? ==> hs[i].command.plan.top == top
    ensures KindsMatch(top, t) && PodsSealed(top, t)
    decreases |hs|
  {
    hide RunOf, Happened, Chained, KindsMatch, PodsSealed, Usable, GoodCommand, Ended;
    if hs == [] {
      EmptyChain(s, t);
    } else {
      var before, last := ChainedUnsnoc(hs, s, t);
      InternalZonesStayClosed(before, top, s, last.pre);
      HappenedMeans(last);
      RunKeepsSealed(last.command, top, last.pre, last.run, last.post);
    }
  }

  /** And every pod is one the topology plans, so the pods in a network's way
      are known from the topology alone. */
  lemma {:induction false} PodsStayPlanned(hs: seq<Entry>, top: Topology, s: Sys, t: Sys)
    requires Chained(hs, s, t) && PodsPlanned(top, s)
    requires forall i :: 0 <= i < |hs| && hs[i].command.Up? ==> hs[i].command.plan.top == top
    ensures PodsPlanned(top, t) && NoStrangers(top, t)
    decreases |hs|
  {
    hide RunOf, Happened, Chained, PodsPlanned, NoStrangers, GoodCommand, Ended;
    if hs == [] {
      EmptyChain(s, t);
    } else {
      var before, last := ChainedUnsnoc(hs, s, t);
      PodsStayPlanned(before, top, s, last.pre);
      HappenedMeans(last);
      RunKeepsPlanned(last.command, top, last.pre, last.run, last.post);
    }
    PlannedAreNoStrangers(top, t);
  }

  // ---- User namespaces ----------------------------------------------------

  /** Every pod of a zone is in a user namespace of its own exactly where the
      zone is internal. */
  ghost predicate PodsNamespaced(top: Topology, s: Sys) {
    forall r: Role, w :: w in ZoneOf(top, r).workloads && w in s.pods ==>
      s.pods[w].userns == if ZoneOf(top, r).internal then "auto" else ""
  }

  lemma PlayedIsNamespaced(top: Topology, q: Role, w: string, userns: string)
    requires Usable(top) && w in ZoneOf(top, q).workloads && userns == UsernsOf(ZoneOf(top, q))
    ensures forall r: Role :: w in ZoneOf(top, r).workloads ==>
      userns == if ZoneOf(top, r).internal then "auto" else ""
  {
    hide GoodTargets;
    forall r: Role | w in ZoneOf(top, r).workloads
      ensures userns == if ZoneOf(top, r).internal then "auto" else ""
    {
      assert r == q;
    }
  }

  lemma StepKeepsNamespaces(c: Command, top: Topology, s: Sys, e: Event, o: Outcome, t: Sys)
    requires May(c, s, e) && Next(s, e, o, t) && (c.Up? ==> c.plan.top == top) && Usable(top)
    requires PodsNamespaced(top, s)
    ensures PodsNamespaced(top, t)
  {
    hide May, Next, ZoneOf, Usable, NetworksOf, UsernsOf;
    if e.Play? {
      var q := PlayGuardOf(c, s, e);
      PlayedIsNamespaced(top, q, e.workload, e.userns);
    }
    forall r: Role, w | w in ZoneOf(top, r).workloads && w in t.pods
      ensures t.pods[w].userns == if ZoneOf(top, r).internal then "auto" else ""
    {
      PodsAfter(s, e, o, t, w);
    }
  }

  lemma {:induction false} RunKeepsNamespaces(c: Command, top: Topology, s: Sys, run: seq<Step>, t: Sys)
    requires RunOf(c, s, run, t) && (c.Up? ==> c.plan.top == top) && Usable(top) && PodsNamespaced(top, s)
    ensures PodsNamespaced(top, t)
  {
    hide May, Next, RunOf, Usable, PodsNamespaced;
    if run == [] {
      EmptyRun(c, s, t);
    } else {
      var k := |run| - 1;
      RunUnsnoc(c, s, run, t);
      RunKeepsNamespaces(c, top, s, run[..k], run[k].pre);
      StepKeepsNamespaces(c, top, run[k].pre, run[k].event, run[k].outcome, t);
    }
  }

  /** Over every history in which `up` works from one valid topology, the pods of
      internal zones have a user namespace of their own and all others share the
      host's. */
  lemma {:induction false} NamespacesFollowTheZones(hs: seq<Entry>, top: Topology, s: Sys, t: Sys)
    requires Chained(hs, s, t) && Usable(top) && PodsNamespaced(top, s)
    requires forall i :: 0 <= i < |hs| && hs[i].command.Up? ==> hs[i].command.plan.top == top
    ensures PodsNamespaced(top, t)
    decreases |hs|
  {
    hide RunOf, Happened, Chained, PodsNamespaced, Usable, GoodCommand, Ended;
    if hs == [] {
      EmptyChain(s, t);
    } else {
      var before, last := ChainedUnsnoc(hs, s, t);
      NamespacesFollowTheZones(before, top, s, last.pre);
      HappenedMeans(last);
      RunKeepsNamespaces(last.command, top, last.pre, last.run, last.post);
    }
  }

  // ---- What the goal of `up` is -------------------------------------------

  /** Where the goal of `up` is reached, every selected workload's pod runs, on
      its own zone's network first and otherwise exactly on those it is bridged
      into, and in a user namespace of its own iff its zone is internal. */
  lemma GoalPods(p: Plan, s: Sys, r: Role, w: string)
    requires Goal(p, s) && Usable(p.top) && r in p.roles && w in ZoneOf(p.top, r).workloads
    ensures w in s.pods && s.pods[w].running
    ensures s.pods[w].userns == if ZoneOf(p.top, r).internal then "auto" else ""
    ensures s.pods[w].networks != [] && s.pods[w].networks[0] == r.NetworkName()
    ensures forall x: Role :: x.NetworkName() in s.pods[w].networks <==>
      x == r || (w in ZoneOf(p.top, r).bridges && x.Name() in ZoneOf(p.top, r).bridges[w])
  {
    hide SecretsIn, NetworksOf, SelectedNetworksExist, Usable;
    assert ZoneUp(p, s, r);
    OwnNetworkFirst(p.top, r, w);
    forall x: Role ensures x.NetworkName() in NetworksOf(ZoneOf(p.top, r), w) <==>
      x == r || x.Name() in Bridged(ZoneOf(p.top, r), w)
    {
      JoinsMeans(p.top, r, w, x);
    }
  }

  lemma OwnNetworkFirst(top: Topology, r: Role, w: string)
    requires Usable(top)
    ensures NetworksOf(ZoneOf(top, r), w) != [] && NetworksOf(ZoneOf(top, r), w)[0] == r.NetworkName()
  {
    hide GoodTargets, TargetsInOrder, Prefixed;
  }
}

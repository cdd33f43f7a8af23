/** `up` after `up`: what a second run may still do, and how a failed run is
    resumed (internal/app/lifecycle.go). */
module UpAgain {
  import opened Roles
  import opened Catalogues
  import opened Topologies
  import opened WellFormedness
  import opened Systems
  import opened Rules
  import opened Runs
  import opened Hosts
  import opened SecretSteps
  import opened Ups
  import opened UpCommand
  import opened Coherence
  import opened LiteLLMRuns

  /** Calls a second `up` has no reason for. */
  predicate Creates(e: Event) {
    e.InitMachine? || e.StartMachine? || e.CreateNetwork? || e.Mint? || e.Generate? || e.KeychainPut?
  }

  lemma ConsumedIsInSync(p: Plan, s: Sys, n: string)
    requires Goal(p, s) && Consumes(p, n)
    ensures InSync(s, n)
  {
    hide InSync, AsPlanned, SelectedNetworksExist;
    var r, e :| r in p.roles && e in p.entries && e.name == n && r in e.zones;
    assert ZoneUp(p, s, r);
    InConsumed(p, r, e);
  }

  lemma PlannedIsThere(p: Plan, s: Sys, r: Role, w: string)
    requires Goal(p, s) && InPlan(p, r, w)
    ensures AsPlanned(p, s, r, w)
  {
    hide SecretsIn, AsPlanned, SelectedNetworksExist;
    assert ZoneUp(p, s, r);
  }

  /** Where the goal is reached, the rule of `up` leaves nothing to create. */
  lemma NothingToCreate(p: Plan, s: Sys, e: Event)
    requires Goal(p, s) && UpMay(p, s, e)
    ensures !Creates(e)
    ensures e.StoreSecret? ==> InSync(s, e.name) && s.keychain[e.name].value == e.value
    ensures e.Play? ==> e.workload in s.pods && s.pods[e.workload] == Pod(e.networks, e.userns, true)
    ensures e.StoreSecret? || e.Build? || e.Play? || Observes(e)
  {
    hide ZonesUp, NetworksOf, Consumes, Sourced, InSync, UsernsOf, SecretsIn;
    if e.KeychainPut? || e.Mint? || e.Generate? || e.StoreSecret? {
      ConsumedIsInSync(p, s, e.name);
      InSyncIsKept(s, e.name);
    }
    if e.Play? {
      var r :| PlayFor(p, r, e.workload, e.networks, e.userns);
      PlannedIsThere(p, s, r, e.workload);
    }
  }

  lemma InSyncIsKept(s: Sys, n: string)
    requires InSync(s, n)
    ensures n in s.keychain
  {
  }

  /** Only images and volumes may have been added. */
  ghost predicate Refreshed(s: Sys, t: Sys) {
    t == s.(images := t.images, volumes := t.volumes) && s.images <= t.images && s.volumes <= t.volumes
  }

  /** And at most the pods of `lost` went away. */
  ghost predicate RefreshedBut(s: Sys, t: Sys, lost: set<string>) {
    Refreshed(s, t.(pods := s.pods)) && (t.pods == s.pods || t.pods == s.pods - lost)
  }

  lemma AgainStep(s: Sys, e: Event, o: Outcome, t: Sys)
    requires Next(s, e, o, t)
    requires e.StoreSecret? ==> InSync(s, e.name) && s.keychain[e.name].value == e.value
    requires e.Play? ==> e.workload in s.pods && s.pods[e.workload] == Pod(e.networks, e.userns, true)
    requires e.StoreSecret? || e.Build? || e.Play? || Observes(e)
    ensures Refreshed(s, t) || (!o.Done? && Interrupted(s, e, t))
  {
    hide Accepts, Interrupted;
    NextCases(s, e, o, t);
    if e.StoreSecret? { assert s.store[e.name := StoreEntry(e.value, true)] == s.store; }
    if e.Play? { assert s.pods[e.workload := Pod(e.networks, e.userns, true)] == s.pods; }
  }

  lemma AgainMore(s: Sys, b: Sys, e: Event, o: Outcome, t: Sys)
    requires Refreshed(s, b) && (Refreshed(b, t) || (!o.Done? && Interrupted(b, e, t)))
    ensures Fine(e, o) ==> Refreshed(s, t)
    ensures RefreshedBut(s, t, if e.Play? then {e.workload} else {})
  {
  }

  lemma NothingChanged(s: Sys)
    ensures Refreshed(s, s) && forall lost :: RefreshedBut(s, s, lost)
  {
  }

  lemma RefreshedNone(s: Sys, t: Sys)
    ensures RefreshedBut(s, t, {}) <==> Refreshed(s, t)
  {
    assert s.pods - {} == s.pods;
    assert t.(pods := t.pods) == t;
  }

  lemma GoalKept(p: Plan, s: Sys, t: Sys)
    requires Goal(p, s) && Refreshed(s, t)
    ensures Goal(p, t)
  {
    hide Consumed, NetworksOf;
    forall r | r in p.roles ensures ZoneUp(p, t, r) {
      assert ZoneUp(p, s, r);
      forall e | e in Consumed(p.entries, r) ensures InSync(t, e.name) { assert InSync(s, e.name); }
      forall w | w in ZoneOf(p.top, r).workloads ensures AsPlanned(p, t, r, w) { assert AsPlanned(p, s, r, w); }
    }
  }

  lemma LookingCreatesNothing(e: Event)
    requires Observes(e)
    ensures !Creates(e)
  {
  }

  /** Every run of `up` from a world where its goal is reached, however it ends,
      creates, starts, mints and generates nothing and leaves the machine, the
      networks, the store and the keychain as they are; so it leaves the pods,
      but for the one whose replacement failed. */
  lemma {:induction false} UpIsIdempotent(p: Plan, s: Sys, run: seq<Step>, t: Sys)
    requires Goal(p, s) && RunOf(Command.Up(p), s, run, t)
    ensures RefreshedBut(s, t, Lost(run))
    ensures Unbroken(run) ==> Refreshed(s, t) && Goal(p, t)
    ensures forall i :: 0 <= i < |run| ==> !Creates(run[i].event)
  {
    hide May, UpMay, Next, RunOf, Goal, Creates, InSync, Unbroken, Lost, Refreshed, RefreshedBut, Fine;
    if run == [] {
      EmptyRun(Command.Up(p), s, t);
      NothingChanged(s);
    } else {
      var k := |run| - 1;
      RunUnsnoc(Command.Up(p), s, run, t);
      UpIsIdempotent(p, s, run[..k], run[k].pre);
      LostSnoc(run);
      UnbrokenSnoc(run);
      if Unbroken(run[..k]) {
        AgainOnce(p, s, run[k].pre, run[k].event, run[k].outcome, t);
        if Unbroken(run) {
          NothingLostYet(run);
          RefreshedNone(s, t);
        }
      } else {
        AfterFailure(p, s, run, t);
        LookingCreatesNothing(run[k].event);
      }
    }
  }

  lemma AgainOnce(p: Plan, s: Sys, b: Sys, e: Event, o: Outcome, t: Sys)
    requires Refreshed(s, b) && Goal(p, b) && May(Command.Up(p), b, e) && Next(b, e, o, t)
    ensures !Creates(e) && RefreshedBut(s, t, if e.Play? then {e.workload} else {})
    ensures Fine(e, o) ==> Refreshed(s, t) && Goal(p, t)
  {
    hide May, UpMay, Next, Goal, Creates, InSync, Refreshed, RefreshedBut, Fine, Interrupted;
    UpMayIs(Command.Up(p), b, e);
    NothingToCreate(p, b, e);
    AgainStep(b, e, o, t);
    AgainMore(s, b, e, o, t);
    if Fine(e, o) { FineIsRefreshed(b, e, o, t); GoalKept(p, b, t); }
  }

  lemma FineIsRefreshed(s: Sys, e: Event, o: Outcome, t: Sys)
    requires Fine(e, o) && (Refreshed(s, t) || (!o.Done? && Interrupted(s, e, t)))
    ensures Refreshed(s, t)
  {
    hide Refreshed;
  }

  /** LiteLLM is a workload of the agent's zone, though the services wait for
      it: then an `up` that loses its pod cannot be resumed. */
  ghost predicate LateLiteLLM(p: Plan) {
    Services in p.roles && InPlan(p, Agent, LITELLM)
  }

  /** Whatever happens during an `up`, the world it leaves is one from which a
      later faultless run succeeds, if that was so before, unless LiteLLM comes
      too late and its pod is the one that was lost. */
  lemma UpCanBeResumed(p: Plan, s: Sys, run: seq<Step>, t: Sys)
    requires GoodPlan(p) && Promising(p, s) && RunOf(Command.Up(p), s, run, t)
    ensures Promising(p, t) <==> (LateLiteLLM(p) ==> Serving(t))
    ensures LITELLM !in Lost(run) ==> Promising(p, t)
  {
    hide RunOf, Usable, IsCatalogue, InZoneOrder, Grows, Consumed, Joins, InPlan, PodsStandBut, Served, Serving;
    hide LateLiteLLM, Lost;
    UpGrows(p, s, run, t);
    GrowsKeeps(p, s, t);
    GrownClosed(p, s, t);
    forall r | r in p.roles ensures UsersSet(Consumed(p.entries, r), t) { assert UsersSet(Consumed(p.entries, r), s); }
    ServedAgain(p, s, run, t);
  }

  lemma ServedAgain(p: Plan, s: Sys, run: seq<Step>, t: Sys)
    requires GoodPlan(p) && Served(p, s) && RunOf(Command.Up(p), s, run, t)
    requires PodsStandBut(p, s, t, Lost(run))
    requires forall n :: n in s.keychain ==> n in t.keychain
    ensures Served(p, t) <==> (LateLiteLLM(p) ==> Serving(t))
    ensures LITELLM !in Lost(run) ==> Served(p, t)
  {
    hide RunOf, GoodPlan, Consumed, Serving, Lost, LITELLM, AsPlanned;
    if NeedsLiteLLM(p, t) { StillNeeded(p, s, t); }
    if LateLiteLLM(p) { LateIsNotBrought(p); }
    if NeedsLiteLLM(p, t) && !Serving(t) && !BringsLiteLLM(p) {
      assert Serving(s);
      assert LITELLM in Lost(run) by { ServingLost(p, s, t, Lost(run)); }
      var i := LostWasPlayed(run);
      var r := PlayedSecretsAreThere(p, s, run, t, i);
      assert r == Agent;
      if Services !in p.roles {
        var q, e :| Unminted(p, t, q, e);
        MintedIsAgents(p, q, e);
        assert InSync(run[i].pre, e.name);
        KeychainSince(p, s, run, t, i, e.name);
      }
    }
  }

  lemma StillNeeded(p: Plan, s: Sys, t: Sys)
    requires NeedsLiteLLM(p, t) && forall n :: n in s.keychain ==> n in t.keychain
    ensures NeedsLiteLLM(p, s)
  {
    hide Consumed;
    if Services !in p.roles {
      var r, e :| Unminted(p, t, r, e);
      assert Unminted(p, s, r, e);
    }
  }

  lemma LateIsNotBrought(p: Plan)
    requires GoodPlan(p) && LateLiteLLM(p)
    ensures !BringsLiteLLM(p) && forall s :: NeedsLiteLLM(p, s)
  {
    hide Usable, IsCatalogue, InPlan, LITELLM;
    if BringsLiteLLM(p) {
      var r :| r != Agent && InPlan(p, r, LITELLM);
      ZoneIsUnique(p, r, Agent, LITELLM);
    }
  }

  lemma ServingLost(p: Plan, s: Sys, t: Sys, lost: set<string>)
    requires PodsStandBut(p, s, t, lost) && Serving(s) && !Serving(t)
    ensures LITELLM in lost
  {
    hide AsPlanned, InPlan, LITELLM;
  }

  /** The workload that may be lost was being played. */
  lemma {:induction false} LostWasPlayed(run: seq<Step>) returns (i: nat)
    requires LITELLM in Lost(run)
    ensures i < |run| && run[i].event.Play? && run[i].event.workload == LITELLM
  {
    hide LITELLM, Unbroken;
    var n := |run| - 1;
    if !Unbroken(run[..n]) { i := LostWasPlayed(run[..n]); } else { i := n; }
  }

  /** When a pod is played, every secret of its zone is in the machine. */
  lemma PlayedSecretsAreThere(p: Plan, s: Sys, run: seq<Step>, t: Sys, i: nat) returns (r: Role)
    requires RunOf(Command.Up(p), s, run, t) && i < |run| && run[i].event.Play?
    ensures InPlan(p, r, run[i].event.workload) && SecretsIn(p.entries, run[i].pre, r)
  {
    hide RunOf, May, UpMay, Next, InPlan, SecretsIn;
    RunAt(Command.Up(p), s, run, t, i);
    UpMayIs(Command.Up(p), run[i].pre, run[i].event);
    r := PlayIsPlannedFor(p, run[i].pre, run[i].event);
  }

  lemma {:induction false} KeychainSince(p: Plan, s: Sys, run: seq<Step>, t: Sys, i: nat, n: string)
    requires RunOf(Command.Up(p), s, run, t) && i < |run| && n in run[i].pre.keychain
    ensures n in t.keychain
  {
    hide RunOf, May, UpMay, Next, Grows;
    var k := |run| - 1;
    RunUnsnoc(Command.Up(p), s, run, t);
    if i < k { KeychainSince(p, s, run[..k], run[k].pre, i, n); }
    UpMayIs(Command.Up(p), run[k].pre, run[k].event);
    UpStepGrows(p, run[k].pre, run[k].event, run[k].outcome, t);
    GrowsKeeps(p, run[k].pre, t);
  }

  lemma GrownClosed(p: Plan, s: Sys, t: Sys)
    requires Grows(p, s, t) && Closed(p, s)
    ensures Closed(p, t)
  {
    hide InPlan, Joins, InSync, AsPlanned;
  }

  /** A world in which everything `p` may need is there. */
  function Plenty(p: Plan): Sys {
    Sys(Running, 1, map[Infra.NetworkName() := false, Services.NetworkName() := false, Agent.NetworkName() := false],
      {}, map[LITELLM := Pod([], "", true)],
      map e | e in p.entries :: e.name := StoreEntry([0], true), {}, true,
      map e | e in p.entries :: e.name := Item([0], User), {})
  }

  lemma PlentyIsPromising(p: Plan, images: set<string>)
    ensures var s := Plenty(p).(images := images);
      && s.machine.Running? && Promising(p, s) && Serving(s)
      && SelectedNetworksExist(p, s) && SecretsIn(p.entries, s, Agent)
  {
    hide Joins, InPlan, LITELLM, BringsLiteLLM, NeedsLiteLLM;
    var s := Plenty(p).(images := images);
    forall r: Role ensures r.NetworkName() in s.networks {}
    forall r: Role, e | e in Consumed(p.entries, r) ensures InSync(s, e.name) {
      ConsumedIsFilter(p.entries, r);
    }
  }

  lemma OneMore(p: Plan, s: Sys, run: seq<Step>, e: Event, o: Outcome, pre: Sys, post: Sys) returns (longer: seq<Step>)
    requires RunOf(Command.Up(p), s, run, pre) && Next(pre, e, o, post)
    requires UpMay(p, pre, e) && UpReady(p, run, e)
    ensures longer == run + [Step(pre, e, o, post)] && RunOf(Command.Up(p), s, longer, post)
  {
    hide RunOf, May, UpMay, Next, UpReady;
    UpMayIs(Command.Up(p), pre, e);
    longer := run + [Step(pre, e, o, post)];
    RunSnoc(Command.Up(p), s, run, Step(pre, e, o, post));
  }

  lemma NoCallsYet(p: Plan, s: Sys)
    ensures RunOf(Command.Up(p), s, [], s)
  {
  }

  lemma ReadyThenBuild(p: Plan, s: Sys)
    requires s.machine.Running? && Serving(s)
    ensures UpMay(p, s, Event.Ready) && Next(s, Event.Ready, Done, s) && UpReady(p, [], Event.Ready)
    ensures forall run :: run == [Step(s, Event.Ready, Done, s)] ==> UpReady(p, run, Build(LITELLM))
  {
    hide Serving, LITELLM;
  }

  lemma BuildThenPlay(p: Plan, s: Sys, m: Sys, t: Sys, play: Event)
    requires s.machine.Running? && m == s.(images := s.images + {LITELLM}) && InPlan(p, Agent, LITELLM)
    requires t == m.(pods := m.pods - {LITELLM})
    requires SelectedNetworksExist(p, m) && SecretsIn(p.entries, m, Agent)
    requires play == Play(LITELLM, NetworksOf(ZoneOf(p.top, Agent), LITELLM), UsernsOf(ZoneOf(p.top, Agent)), {})
    ensures UpMay(p, s, Build(LITELLM)) && Next(s, Build(LITELLM), Done, m)
    ensures UpMay(p, m, play) && Next(m, play, Fault, t)
  {
    hide LITELLM, NetworksOf, UsernsOf, SelectedNetworksExist, SecretsIn, InPlan;
    assert PlayFor(p, Agent, LITELLM, play.networks, play.userns);
  }

  lemma PlayIsInTime(p: Plan, before: seq<Step>, run: seq<Step>, play: Event)
    requires |before| == 1 && IsAnswer(before[0]) && |run| == 2 && run[0] == before[0]
    requires run[1].event == Build(LITELLM) && run[1].outcome.Done?
    requires play.Play? && play.workload == LITELLM
    ensures UpReady(p, run, play)
  {
    hide LITELLM, InPlan;
    assert IsAnswer(run[0]);
  }

  lemma NotServingWithout(s: Sys)
    ensures !Serving(s.(pods := s.pods - {LITELLM}))
  {
    hide LITELLM;
  }

  /** For every plan with LiteLLM in the agent's zone and the services selected
      there is a run that makes the next `up` fail: LiteLLM is up, the services
      have found it ready, and its pod is lost in being replaced. */
  lemma LateLiteLLMCanBeLost(p: Plan) returns (s: Sys, run: seq<Step>, t: Sys)
    requires GoodPlan(p) && LateLiteLLM(p)
    ensures Promising(p, s) && RunOf(Command.Up(p), s, run, t) && !Promising(p, t)
  {
    hide GoodPlan, Promising, LITELLM, Plenty, NetworksOf, UsernsOf, RunOf, UpMay, UpReady, Next, Serving;
    s := Plenty(p).(images := {});
    var m := Plenty(p).(images := {LITELLM});
    PlentyIsPromising(p, {});
    PlentyIsPromising(p, {LITELLM});
    var play := Play(LITELLM, NetworksOf(ZoneOf(p.top, Agent), LITELLM), UsernsOf(ZoneOf(p.top, Agent)), {});
    t := m.(pods := m.pods - {LITELLM});
    NoCallsYet(p, s);
    BuildThenPlay(p, s, m, t, play);
    ReadyThenBuild(p, s);
    run := OneMore(p, s, [], Event.Ready, Done, s, s);
    var before := run;
    run := OneMore(p, s, run, Build(LITELLM), Done, s, m);
    PlayIsInTime(p, before, run, play);
    run := OneMore(p, s, run, play, Fault, m, t);
    NotServingWithout(m);
    UpCanBeResumed(p, s, run, t);
  }
}

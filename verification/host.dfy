/** The ports of the program, bound to one mutable world
    (internal/app/ports.go). Every call may fault, and the command's context
    may be cancelled at any time. */
module Hosts {
  import opened Text
  import opened Roles
  import opened Catalogues
  import opened Systems
  import opened Rules

  /** What the machine list says about one machine. */
  datatype Machine = Machine(name: string, running: bool)

  const MACHINE_NAME := "lclaw"

  /** The first machine of lclaw's name is at `i`. */
  ghost predicate FirstNamed(found: seq<Machine>, i: int) {
    0 <= i < |found| && found[i].name == MACHINE_NAME && forall j :: 0 <= j < i ==> found[j].name != MACHINE_NAME
  }

  /** The workloads played, in order. */
  ghost function Plays(run: seq<Step>): seq<string> {
    if run == [] then []
    else Plays(run[..|run| - 1]) + PlayOf(run[|run| - 1].event)
  }

  ghost function PlayOf(e: Event): seq<string> {
    if e.Play? then [e.workload] else []
  }

  lemma PlaysSnoc(run: seq<Step>, step: Step)
    ensures Plays(run + [step]) == Plays(run) + PlayOf(step.event)
  {
    assert (run + [step])[..|run|] == run;
  }

  lemma CallGrows(c: Command, step: Step)
    requires c.Up? && GoodPlan(c.plan)
    requires May(c, step.pre, step.event) && Next(step.pre, step.event, step.outcome, step.post)
    ensures Grows(c.plan, step.pre, step.post)
    ensures Fine(step.event, step.outcome) ==> PodsStand(c.plan, step.pre, step.post)
  {
    hide UpMay, Next, Grows, PodsStand, Fine;
    UpStepGrows(c.plan, step.pre, step.event, step.outcome, step.post);
    UpStepPods(c.plan, step.pre, step.event, step.outcome, step.post);
  }

  /** The workloads whose `kube down` succeeded. */
  ghost function Downed(run: seq<Step>): set<string> {
    if run == [] then {}
    else Downed(run[..|run| - 1]) + DownedBy(run[|run| - 1].event, run[|run| - 1].outcome)
  }

  ghost function DownedBy(e: Event, o: Outcome): set<string> {
    if e.KubeDown? && o.Done? then {e.workload} else {}
  }

  /** The machine was told to stop; to go away. */
  ghost predicate Stops(run: seq<Step>) {
    run != [] && (run[|run| - 1].event.StopMachine? || Stops(run[..|run| - 1]))
  }

  ghost predicate Removes(run: seq<Step>) {
    run != [] && (run[|run| - 1].event.RemoveMachine? || Removes(run[..|run| - 1]))
  }

  lemma TearSnoc(run: seq<Step>, step: Step)
    ensures Downed(run + [step]) == Downed(run) + DownedBy(step.event, step.outcome)
    ensures Stops(run + [step]) <==> Stops(run) || step.event.StopMachine?
    ensures Removes(run + [step]) <==> Removes(run) || step.event.RemoveMachine?
  {
    assert (run + [step])[..|run|] == run;
  }

  /** The world together with the command that is running and the calls it has
      made so far. */
  datatype State = State(sys: Sys, cancelled: bool, command: Command, start: Sys, trace: seq<Step>)

  /** Everything since the command began obeys the command's rule. */
  ghost predicate Sound(a: State) {
    RunOf(a.command, a.start, a.trace, a.sys) && (a.command.Up? || a.command.Down? ==> GoodPlan(a.command.plan))
  }

  /** The same command went on from `a` to `b`: calls were added, a
      cancellation stays. */
  ghost predicate Continues(a: State, b: State) {
    && Sound(b)
    && b.command == a.command && b.start == a.start
    && a.trace <= b.trace
    && (a.cancelled ==> b.cancelled)
    && (Faultless(b.trace) ==> Faultless(a.trace))
    && (Unbroken(b.trace) ==> Unbroken(a.trace))
    && (a.command.Up? ==> Grows(a.command.plan, a.sys, b.sys))
    && (a.command.Up? && Unbroken(b.trace) ==> PodsStand(a.command.plan, a.sys, b.sys))
    && (a.command.Up? ==> b.sys.hasKeychain == a.sys.hasKeychain)
    && (a.command.Up? && a.sys.machine.Running? ==> b.sys.machine.Running?)
  }

  lemma ContinuesTransitive(a: State, b: State, c: State)
    requires Continues(a, b) && Continues(b, c)
    ensures Continues(a, c)
  {
    hide Sound, Faultless, Unbroken, Grows, PodsStand;
    if a.command.Up? {
      GrowsTransitive(a.command.plan, a.sys, b.sys, c.sys);
      if Unbroken(c.trace) { PodsStandTransitive(a.command.plan, a.sys, b.sys, c.sys); }
    }
  }

  lemma ContinuesReflexive(a: State)
    requires Sound(a)
    ensures Continues(a, a)
  {
    hide Sound, Faultless, Unbroken, AsPlanned, InPlan, InSync;
  }

  lemma SoundWhenCancelled(a: State, b: State)
    requires Sound(a) && b == a.(cancelled := b.cancelled)
    ensures Sound(b)
  {
    hide RunOf, GoodPlan;
  }

  /** A call that turns `before` into `target` when it is accepted. */
  ghost predicate Changed(before: Sys, o: Outcome, target: Sys, after: Sys) {
    match o
    case Done => after == target
    case Refused => after == before
    case Fault => after == before || after == target
  }

  /** Call `e` was made and ended with `o`. */
  ghost predicate Did(a: State, e: Event, o: Outcome, b: State) {
    && Continues(a, b)
    && b.trace == a.trace + [Step(a.sys, e, o, b.sys)]
    && (Changed(a.sys, o, Effect(a.sys, e), b.sys) || (!o.Done? && Interrupted(a.sys, e, b.sys)))
    && (o.Done? ==> Accepts(a.sys, e))
    && (o.Refused? ==> !Accepts(a.sys, e))
    && Plays(b.trace) == Plays(a.trace) + PlayOf(e)
    && (Faultless(b.trace) <==> Faultless(a.trace) && !o.Fault?)
    && (Unbroken(b.trace) <==> Unbroken(a.trace) && Fine(e, o))
    && Downed(b.trace) == Downed(a.trace) + DownedBy(e, o)
    && (Stops(b.trace) <==> Stops(a.trace) || e.StopMachine?)
    && (Removes(b.trace) <==> Removes(a.trace) || e.RemoveMachine?)
  }

  /** A call that only looks was made. */
  ghost predicate Saw(a: State, e: Event, o: Outcome, b: State) {
    Did(a, e, o, b) && b.sys == a.sys && Plays(b.trace) == Plays(a.trace)
  }

  /** The bookkeeping of one call. */
  lemma OneCall(a: State, e: Event, o: Outcome, b: State)
    requires Sound(a) && May(a.command, a.sys, e)
    requires a.command.Up? ==> UpReady(a.command.plan, a.trace, e)
    requires Next(a.sys, e, o, b.sys)
    requires b.command == a.command && b.start == a.start && (a.cancelled ==> b.cancelled)
    requires b.trace == a.trace + [Step(a.sys, e, o, b.sys)]
    ensures Did(a, e, o, b)
  {
    hide May, Next, Effect, Accepts, Interrupted, RunOf, GoodPlan, Grows, PodsStand, Unbroken, Faultless;
    hide Fine, PlayOf, Plays, UpReady, Downed, DownedBy, Stops, Removes;
    var step := Step(a.sys, e, o, b.sys);
    NextMeans(a.sys, e, o, b.sys);
    RunSnoc(a.command, a.start, a.trace, step);
    if a.command.Up? {
      CallGrows(a.command, step);
      GrowsKeeps(a.command.plan, a.sys, b.sys);
    }
    PlaysSnoc(a.trace, step);
    VerdictSnoc(a.trace, step);
    TearSnoc(a.trace, step);
  }

  lemma GrowsKeeps(p: Plan, s: Sys, s': Sys)
    requires Grows(p, s, s')
    ensures s'.hasKeychain == s.hasKeychain
    ensures s.machine.Running? ==> s'.machine.Running?
    ensures forall n :: n in s.keychain ==> n in s'.keychain && s'.keychain[n] == s.keychain[n]
  {
  }

  class Host {
    var sys: Sys
    var cancelled: bool
    ghost var command: Command
    ghost var start: Sys
    ghost var trace: seq<Step>

    ghost function Now(): State
      reads this
    {
      State(sys, cancelled, command, start, trace)
    }

    ghost predicate Valid()
      reads this
    {
      Sound(Now())
    }

    constructor (world: Sys)
      ensures sys == world && Valid()
    {
      sys, cancelled := world, false;
      command, start, trace := ReadSecrets, world, [];
    }

    /** A command starts with a context of its own, which may already be
        cancelled. */
    method Begin(ghost c: Command)
      requires c.Up? || c.Down? ==> GoodPlan(c.plan)
      modifies this`command, this`start, this`trace, this`cancelled
      ensures Valid() && command == c && start == sys && trace == []
    {
      var already: bool := *;
      cancelled := already;
      command, start, trace := c, sys, [];
    }

    /** `ctx.Err() != nil`. */
    method CtxErr() returns (err: bool)
      requires Valid()
      modifies this`cancelled
      ensures Continues(old(Now()), Now()) && Now() == old(Now()).(cancelled := err)
      ensures old(cancelled) ==> err
    {
      hide Sound, Faultless, Unbroken, Grows;
      ContinuesReflexive(Now());
      var now: bool := *;
      if now { cancelled := true; }
      err := cancelled;
      SoundWhenCancelled(old(Now()), Now());
    }

    /** The outside world deals with a call. */
    method Perform(e: Event) returns (o: Outcome)
      modifies this`sys, this`cancelled
      ensures Next(old(sys), e, o, sys)
      ensures old(cancelled) ==> cancelled
    {
      hide Effect, Accepts;
      var cancel: bool := *;
      if cancel { cancelled := true; }
      var accepted := Accepts(sys, e);
      var fault, struck, interrupted: bool := *, *, *;
      o := if fault then Fault else if accepted then Done else Refused;
      if accepted && (!fault || struck) {
        sys := Effect(sys, e);
      } else if interrupted && e.Play? && sys.machine.Running? {
        sys := sys.(pods := sys.pods - {e.workload});
      }
    }

    method Call(e: Event) returns (o: Outcome)
      requires Valid() && May(command, sys, e)
      requires command.Up? ==> UpReady(command.plan, trace, e)
      modifies this
      ensures Did(old(Now()), e, o, Now())
    {
      hide May, Next, Sound, Did, UpReady;
      ghost var a := Now();
      o := Perform(e);
      trace := trace + [Step(a.sys, e, o, sys)];
      OneCall(a, e, o, Now());
    }

    method Look(e: Event) returns (o: Outcome)
      requires Valid() && Observes(e)
      modifies this
      ensures Saw(old(Now()), e, o, Now())
    {
      hide May, UpReady, Observes, Sound, Did, Saw;
      ObserversMay(command, sys, e);
      if command.Up? { LookIsReady(command.plan, trace, e); }
      ghost var a := Now();
      o := Call(e);
      LookedIsSaw(a, e, o, Now());
    }

    // ---- Keychain ---------------------------------------------------------

    method KeychainExists() returns (o: Outcome, exists_: bool)
      requires Valid()
      modifies this
      ensures Saw(old(Now()), Event.KeychainExists, o, Now())
      ensures o.Done? ==> exists_ == sys.hasKeychain
      ensures !o.Refused?
    {
      hide May, Sound, Continues, Faultless, Unbroken, Plays, Fine, Downed, Stops, Removes, MayMintAfter;
      o := Look(Event.KeychainExists);
      exists_ := sys.hasKeychain;
    }

    method KeychainGet(name: string) returns (o: Outcome, value: Value)
      requires Valid()
      modifies this
      ensures Saw(old(Now()), Event.KeychainGet(name), o, Now())
      ensures o.Done? ==> name in sys.keychain && value == sys.keychain[name].value
      ensures o.Refused? ==> !(sys.hasKeychain && name in sys.keychain)
    {
      hide May, Sound, Continues, Faultless, Unbroken, Plays, Fine, Downed, Stops, Removes, MayMintAfter;
      o := Look(Event.KeychainGet(name));
      value := if name in sys.keychain then sys.keychain[name].value else [];
    }

    /** Never the value: only where the item came from. */
    method KeychainDescribe(name: string) returns (o: Outcome, source: Source)
      requires Valid()
      modifies this
      ensures Saw(old(Now()), Event.KeychainDescribe(name), o, Now())
      ensures o.Done? ==> name in sys.keychain && source == sys.keychain[name].source
      ensures o.Refused? ==> !(sys.hasKeychain && name in sys.keychain)
    {
      hide May, Sound, Continues, Faultless, Unbroken, Plays, Fine, Downed, Stops, Removes, MayMintAfter;
      o := Look(Event.KeychainDescribe(name));
      source := if name in sys.keychain then sys.keychain[name].source else User;
    }

    method KeychainPut(name: string, value: Value, source: Source, replace: bool) returns (o: Outcome)
      requires Valid() && May(command, sys, Event.KeychainPut(name, value, source, replace))
      requires command.Up? ==> Unbroken(trace) && JustMade(trace, name, value, source)
      modifies this
      ensures Did(old(Now()), Event.KeychainPut(name, value, source, replace), o, Now())
      ensures Changed(old(sys), o, old(sys).(keychain := old(sys).keychain[name := Item(value, source)]), sys)
      ensures o.Refused? ==>
        !(sys.hasKeychain && ValidName(name) && ValidValue(value) && (name in sys.keychain ==> replace))
    {
      hide May, Sound, Continues, Faultless, Unbroken, Plays, Fine, Downed, Stops, Removes, MayMintAfter;
      o := Call(Event.KeychainPut(name, value, source, replace));
    }

    method KeychainDelete(name: string) returns (o: Outcome)
      requires Valid() && May(command, sys, Event.KeychainDelete(name))
      requires command.Up? ==> Unbroken(trace)
      modifies this
      ensures Did(old(Now()), Event.KeychainDelete(name), o, Now())
      ensures Changed(old(sys), o, old(sys).(keychain := old(sys).keychain - {name}), sys)
      ensures o.Refused? ==> !(sys.hasKeychain && name in sys.keychain)
    {
      hide May, Sound, Continues, Faultless, Unbroken, Plays, Fine, Downed, Stops, Removes, MayMintAfter;
      o := Call(Event.KeychainDelete(name));
    }

    // ---- Machine ----------------------------------------------------------

    method ListMachines() returns (o: Outcome, machines: seq<Machine>)
      requires Valid()
      modifies this
      ensures Saw(old(Now()), Event.ListMachines, o, Now())
      ensures o.Done? ==> Lists(machines, sys)
      ensures !o.Refused?
    {
      hide May, Sound, Continues, Faultless, Unbroken, Plays, Fine, Downed, Stops, Removes, MayMintAfter;
      o := Look(Event.ListMachines);
      machines := if sys.machine.NoMachine? then [] else [Machine(MACHINE_NAME, sys.machine.Running?)];
    }

    method InitMachine() returns (o: Outcome)
      requires Valid() && May(command, sys, Event.InitMachine)
      requires command.Up? ==> Unbroken(trace)
      modifies this
      ensures Did(old(Now()), Event.InitMachine, o, Now())
      ensures Changed(old(sys), o, Emptied(old(sys)).(machine := Stopped, incarnation := old(sys).incarnation + 1), sys)
      ensures o.Refused? ==> !sys.machine.NoMachine?
    {
      hide May, Sound, Continues, Faultless, Unbroken, Plays, Fine, Downed, Stops, Removes, MayMintAfter;
      o := Call(Event.InitMachine);
    }

    method StartMachine() returns (o: Outcome)
      requires Valid() && May(command, sys, Event.StartMachine)
      requires command.Up? ==> Unbroken(trace)
      modifies this
      ensures Did(old(Now()), Event.StartMachine, o, Now())
      ensures Changed(old(sys), o, old(sys).(machine := Running), sys)
      ensures o.Refused? ==> !sys.machine.Stopped?
    {
      hide May, Sound, Continues, Faultless, Unbroken, Plays, Fine, Downed, Stops, Removes, MayMintAfter;
      o := Call(Event.StartMachine);
    }

    method StopMachine() returns (o: Outcome)
      requires Valid() && May(command, sys, Event.StopMachine)
      requires command.Up? ==> Unbroken(trace)
      modifies this
      ensures Did(old(Now()), Event.StopMachine, o, Now())
      ensures Changed(old(sys), o, old(sys).(machine := Stopped, pods := Halted(old(sys).pods)), sys)
      ensures o.Refused? ==> sys.machine.NoMachine?
    {
      hide May, Sound, Continues, Faultless, Unbroken, Plays, Fine, Downed, Stops, Removes, MayMintAfter;
      o := Call(Event.StopMachine);
    }

    method RemoveMachine() returns (o: Outcome)
      requires Valid() && May(command, sys, Event.RemoveMachine)
      requires command.Up? ==> Unbroken(trace)
      modifies this
      ensures Did(old(Now()), Event.RemoveMachine, o, Now())
      ensures Changed(old(sys), o, Emptied(old(sys)).(machine := NoMachine), sys)
      ensures o.Refused? ==> sys.machine.NoMachine?
    {
      hide May, Sound, Continues, Faultless, Unbroken, Plays, Fine, Downed, Stops, Removes, MayMintAfter;
      o := Call(Event.RemoveMachine);
    }

    method MachineRunning() returns (o: Outcome, running: bool)
      requires Valid()
      modifies this
      ensures Saw(old(Now()), Event.MachineRunning, o, Now())
      ensures o.Done? ==> running == sys.machine.Running?
      ensures !o.Refused?
    {
      hide May, Sound, Continues, Faultless, Unbroken, Plays, Fine, Downed, Stops, Removes, MayMintAfter;
      o := Look(Event.MachineRunning);
      running := sys.machine.Running?;
    }

    // ---- Workloads --------------------------------------------------------

    method NetworkExists(network: string) returns (o: Outcome, exists_: bool)
      requires Valid()
      modifies this
      ensures Saw(old(Now()), Event.NetworkExists(network), o, Now())
      ensures o.Done? ==> exists_ == (network in sys.networks)
      ensures o.Refused? ==> !sys.machine.Running?
    {
      hide May, Sound, Continues, Faultless, Unbroken, Plays, Fine, Downed, Stops, Removes, MayMintAfter;
      o := Look(Event.NetworkExists(network));
      exists_ := network in sys.networks;
    }

    method CreateNetwork(network: string, internal: bool) returns (o: Outcome)
      requires Valid() && May(command, sys, Event.CreateNetwork(network, internal))
      requires command.Up? ==> Unbroken(trace)
      modifies this
      ensures Did(old(Now()), Event.CreateNetwork(network, internal), o, Now())
      ensures Changed(old(sys), o, old(sys).(networks := old(sys).networks[network := internal]), sys)
      ensures o.Refused? ==> !(sys.machine.Running? && network !in sys.networks)
    {
      hide May, Sound, Continues, Faultless, Unbroken, Plays, Fine, Downed, Stops, Removes, MayMintAfter;
      o := Call(Event.CreateNetwork(network, internal));
    }

    /** Podman refuses while a pod uses the network. */
    method RemoveNetwork(network: string) returns (o: Outcome)
      requires Valid() && May(command, sys, Event.RemoveNetwork(network))
      requires command.Up? ==> Unbroken(trace)
      modifies this
      ensures Did(old(Now()), Event.RemoveNetwork(network), o, Now())
      ensures Changed(old(sys), o, old(sys).(networks := old(sys).networks - {network}), sys)
      ensures o.Refused? ==> !(sys.machine.Running? && network in sys.networks && !Attached(sys, network))
    {
      hide May, Sound, Continues, Faultless, Unbroken, Plays, Fine, Downed, Stops, Removes, MayMintAfter;
      o := Call(Event.RemoveNetwork(network));
    }

    method Build(workload: string) returns (o: Outcome)
      requires Valid() && May(command, sys, Event.Build(workload))
      requires command.Up? ==> Unbroken(trace)
      modifies this
      ensures Did(old(Now()), Event.Build(workload), o, Now())
      ensures Changed(old(sys), o, old(sys).(images := old(sys).images + {workload}), sys)
      ensures o.Refused? ==> !sys.machine.Running?
    {
      hide May, Sound, Continues, Faultless, Unbroken, Plays, Fine, Downed, Stops, Removes, MayMintAfter;
      o := Call(Event.Build(workload));
    }

    /** The pod file decides which volumes come into being. */
    method Play(workload: string, networks: seq<string>, userns: string)
      returns (o: Outcome, ghost creates: set<string>)
      requires Valid() && May(command, sys, Event.Play(workload, networks, userns, {}))
      requires command.Up? ==> Unbroken(trace) && JustBuilt(trace, workload)
      requires command.Up? && InPlan(command.plan, Agent, workload) ==> MayMintAfter(command.plan, trace)
      modifies this
      ensures Did(old(Now()), Event.Play(workload, networks, userns, creates), o, Now())
      ensures o.Done? ==>
        sys == old(sys).(
          pods := old(sys).pods[workload := Pod(networks, userns, true)],
          volumes := old(sys).volumes + creates)
      ensures o.Refused? ==>
        !(sys.machine.Running? && workload in sys.images && forall n :: n in networks ==> n in sys.networks)
    {
      hide May, Sound, Continues, Faultless, Unbroken, Plays, Fine, Downed, Stops, Removes, MayMintAfter;
      var any: set<string> := *;
      creates := any;
      PlayAnyVolumes(command, sys, workload, networks, userns, any);
      o := Call(Event.Play(workload, networks, userns, any));
    }

    method KubeDown(workload: string) returns (o: Outcome)
      requires Valid() && May(command, sys, Event.KubeDown(workload))
      requires command.Up? ==> Unbroken(trace)
      modifies this
      ensures Did(old(Now()), Event.KubeDown(workload), o, Now())
      ensures Changed(old(sys), o, old(sys).(pods := old(sys).pods - {workload}), sys)
      ensures o.Refused? ==> !sys.machine.Running?
    {
      hide May, Sound, Continues, Faultless, Unbroken, Plays, Fine, Downed, Stops, Removes, MayMintAfter;
      o := Call(Event.KubeDown(workload));
    }

    method ListPods() returns (o: Outcome, pods: seq<PodReport>)
      requires Valid()
      modifies this
      ensures Saw(old(Now()), Event.ListPods, o, Now())
      ensures o.Done? ==> ListsPods(pods, sys)
      ensures o.Refused? ==> !sys.machine.Running?
    {
      hide May, Sound, Continues, Faultless, Unbroken, Plays, Fine, Downed, Stops, Removes, MayMintAfter;
      o := Look(Event.ListPods);
      pods := PodReports(sys.pods);
    }

    // ---- Store ------------------------------------------------------------

    /** Replaces a secret of the same name. */
    method StoreSecret(name: string, value: Value) returns (o: Outcome)
      requires Valid() && May(command, sys, Event.StoreSecret(name, value))
      requires command.Up? ==> Unbroken(trace)
      modifies this
      ensures Did(old(Now()), Event.StoreSecret(name, value), o, Now())
      ensures Changed(old(sys), o, old(sys).(store := old(sys).store[name := StoreEntry(value, true)]), sys)
      ensures o.Refused? ==> !sys.machine.Running?
    {
      hide May, Sound, Continues, Faultless, Unbroken, Plays, Fine, Downed, Stops, Removes, MayMintAfter;
      o := Call(Event.StoreSecret(name, value));
    }

    method SecretExists(name: string) returns (o: Outcome, exists_: bool)
      requires Valid()
      modifies this
      ensures Saw(old(Now()), Event.SecretExists(name), o, Now())
      ensures o.Done? ==> sys.machine.Running? && exists_ == (name in sys.store)
      ensures o.Refused? ==> !sys.machine.Running?
    {
      hide May, Sound, Continues, Faultless, Unbroken, Plays, Fine, Downed, Stops, Removes, MayMintAfter;
      o := Look(Event.SecretExists(name));
      exists_ := name in sys.store;
    }

    method RemoveSecret(name: string) returns (o: Outcome)
      requires Valid() && May(command, sys, Event.RemoveSecret(name))
      requires command.Up? ==> Unbroken(trace)
      modifies this
      ensures Did(old(Now()), Event.RemoveSecret(name), o, Now())
      ensures Changed(old(sys), o, old(sys).(store := old(sys).store - {name}), sys)
      ensures o.Refused? ==> !(sys.machine.Running? && name in sys.store)
    {
      hide May, Sound, Continues, Faultless, Unbroken, Plays, Fine, Downed, Stops, Removes, MayMintAfter;
      o := Call(Event.RemoveSecret(name));
    }

    /** Only lclaw's own secrets, each once. */
    method ListSecrets() returns (o: Outcome, names: seq<string>)
      requires Valid()
      modifies this
      ensures Saw(old(Now()), Event.ListSecrets, o, Now())
      ensures o.Done? ==> Distinct(names) && forall n :: n in names <==> n in Labelled(sys)
      ensures o.Refused? ==> !sys.machine.Running?
    {
      hide May, Sound, Continues, Faultless, Unbroken, Plays, Fine, Downed, Stops, Removes, MayMintAfter;
      o := Look(Event.ListSecrets);
      names := Enumerate(Labelled(sys));
    }

    /** Succeeds when there is no such volume. */
    method RemoveVolume(name: string) returns (o: Outcome)
      requires Valid() && May(command, sys, Event.RemoveVolume(name))
      requires command.Up? ==> Unbroken(trace)
      modifies this
      ensures Did(old(Now()), Event.RemoveVolume(name), o, Now())
      ensures Changed(old(sys), o, old(sys).(volumes := old(sys).volumes - {name}), sys)
      ensures o.Refused? ==> !sys.machine.Running?
    {
      hide May, Sound, Continues, Faultless, Unbroken, Plays, Fine, Downed, Stops, Removes, MayMintAfter;
      o := Call(Event.RemoveVolume(name));
    }

    // ---- Minter and randomness --------------------------------------------

    method Ready() returns (o: Outcome)
      requires Valid()
      modifies this
      ensures Saw(old(Now()), Event.Ready, o, Now())
      ensures o.Refused? ==> !(sys.machine.Running? && Serving(sys))
    {
      hide May, Sound, Continues, Faultless, Unbroken, Plays, Fine, Downed, Stops, Removes, MayMintAfter;
      o := Look(Event.Ready);
    }

    method Mint(name: string) returns (o: Outcome, value: Value)
      requires Valid() && May(command, sys, Event.Mint(name, []))
      requires command.Up? ==> Unbroken(trace) && MayMintAfter(command.plan, trace)
      modifies this
      ensures Did(old(Now()), Event.Mint(name, value), o, Now())
      ensures Changed(old(sys), o, old(sys).(issued := old(sys).issued + {(value, old(sys).incarnation)}), sys)
      ensures o.Refused? ==> !(sys.machine.Running? && Serving(sys))
      ensures o.Done? ==> old(sys).machine.Running? && Serving(old(sys))
      ensures ValidValue(value)
    {
      hide May, Sound, Continues, Faultless, Unbroken, Plays, Fine, Downed, Stops, Removes, MayMintAfter;
      value := SomeValue();
      MintAnyValue(command, sys, name, value);
      o := Call(Event.Mint(name, value));
    }

    method Generate(name: string) returns (o: Outcome, value: Value)
      requires Valid() && May(command, sys, Event.Generate(name, []))
      requires command.Up? ==> Unbroken(trace)
      modifies this
      ensures Did(old(Now()), Event.Generate(name, value), o, Now())
      ensures sys == old(sys) && !o.Refused?
      ensures ValidValue(value)
    {
      hide May, Sound, Continues, Faultless, Unbroken, Plays, Fine, Downed, Stops, Removes, MayMintAfter;
      value := SomeValue();
      GenerateAnyValue(command, sys, name, value);
      o := Call(Event.Generate(name, value));
    }
  }

  method SomeValue() returns (value: Value)
    ensures ValidValue(value)
  {
    var any: Value := *;
    value := if ValidValue(any) then any else [0];
  }

  /** The elements of a set, in some order. */
  method Enumerate(xs: set<string>) returns (names: seq<string>)
    ensures Distinct(names) && forall n :: n in names <==> n in xs
  {
    names := [];
    var pending := xs;
    while pending != {}
      invariant pending <= xs
      invariant Distinct(names)
      invariant forall n :: n in names <==> n in xs - pending
      decreases |pending|
    {
      var n :| n in pending;
      assert n !in names;
      names := names + [n];
      pending := pending - {n};
    }
  }

  method PodReports(pods: map<string, Pod>) returns (reports: seq<PodReport>)
    ensures forall p :: p in reports ==> p.name in pods && AllRunning(p.containers) == pods[p.name].running
    ensures forall w :: w in pods ==> exists p :: p in reports && p.name == w
  {
    var names := Enumerate(pods.Keys);
    reports := [];
    for i := 0 to |names|
      invariant |reports| == i
      invariant forall j :: 0 <= j < i ==>
        reports[j].name == names[j] && AllRunning(reports[j].containers) == pods[names[j]].running
    {
      var containers := if pods[names[i]].running then ["running"] else ["exited"];
      assert containers[0] in containers;
      reports := reports + [PodReport(names[i], containers)];
    }
    forall w | w in pods ensures exists p :: p in reports && p.name == w {
      var j :| 0 <= j < |names| && names[j] == w;
      assert reports[j] in reports;
    }
  }

  datatype PodReport = PodReport(name: string, containers: seq<string>)

  predicate AllRunning(containers: seq<string>) {
    containers != [] && forall c :: c in containers ==> c == "running"
  }

  ghost predicate Lists(machines: seq<Machine>, s: Sys) {
    && ((exists m :: m in machines && m.name == MACHINE_NAME) <==> !s.machine.NoMachine?)
    && (forall m :: m in machines && m.name == MACHINE_NAME ==> m.running == s.machine.Running?)
  }

  ghost predicate ListsPods(pods: seq<PodReport>, s: Sys) {
    && (forall p :: p in pods ==> p.name in s.pods && AllRunning(p.containers) == s.pods[p.name].running)
    && (forall w :: w in s.pods ==> exists p :: p in pods && p.name == w)
  }

  function Labelled(s: Sys): set<string> {
    set n | n in s.store && s.store[n].labelled
  }

  lemma LookIsReady(p: Plan, run: seq<Step>, e: Event)
    requires Observes(e)
    ensures UpReady(p, run, e)
  {
  }

  lemma LookedIsSaw(a: State, e: Event, o: Outcome, b: State)
    requires Observes(e) && Did(a, e, o, b)
    ensures Saw(a, e, o, b)
  {
    hide Effect, Accepts, Interrupted, Continues, Unbroken, Faultless, Fine, Plays, Downed, Stops, Removes;
    LookingIsHarmless(a.sys, e);
  }

  lemma ObserversMay(c: Command, s: Sys, e: Event)
    requires Observes(e)
    ensures May(c, s, e)
  {
  }

  lemma MintAnyValue(c: Command, s: Sys, name: string, value: Value)
    ensures May(c, s, Event.Mint(name, [])) <==> May(c, s, Event.Mint(name, value))
  {
  }

  lemma GenerateAnyValue(c: Command, s: Sys, name: string, value: Value)
    ensures May(c, s, Event.Generate(name, [])) <==> May(c, s, Event.Generate(name, value))
  {
  }

  lemma PlayAnyVolumes(c: Command, s: Sys, w: string, networks: seq<string>, userns: string, creates: set<string>)
    ensures May(c, s, Event.Play(w, networks, userns, {})) <==> May(c, s, Event.Play(w, networks, userns, creates))
  {
  }
}

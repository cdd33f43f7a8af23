/** The world outside the program: the machine and what lives in it, and the
    host's keychain. Its behaviour is given by which calls it accepts and what
    an accepted call changes (internal/app/ports.go, with the refusals of
    Podman recorded in docs/explanation/lifecycle-commands.md). */
module Systems {
  import opened Catalogues

  /** The workload whose container the minter works in. */
  const LITELLM := "litellm"

  datatype MachineState = NoMachine | Stopped | Running

  datatype Pod = Pod(networks: seq<string>, userns: string, running: bool)

  /** One secret in the machine's Podman store; `labelled` marks lclaw's own. */
  datatype StoreEntry = StoreEntry(value: Value, labelled: bool)

  datatype Item = Item(value: Value, source: Source)

  /** `incarnation` counts the machines created so far and `issued` records
      which of them issued which minted value. */
  datatype Sys = Sys(
    machine: MachineState,
    incarnation: nat,
    networks: map<string, bool>,          // name to "internal"
    images: set<string>,
    pods: map<string, Pod>,               // lclaw's pods, by workload
    store: map<string, StoreEntry>,
    volumes: set<string>,
    hasKeychain: bool,
    keychain: map<string, Item>,
    issued: set<(Value, nat)>)

  /** One call on a port. Values chosen by the outside world (a minted key, the
      volumes a pod file asks for) are part of the event. */
  datatype Event =
    | KeychainExists
    | KeychainGet(name: string)
    | KeychainDescribe(name: string)
    | KeychainPut(name: string, value: Value, source: Source, replace: bool)
    | KeychainDelete(name: string)
    | ListMachines
    | InitMachine
    | StartMachine
    | StopMachine
    | RemoveMachine
    | NetworkExists(network: string)
    | CreateNetwork(network: string, internal: bool)
    | RemoveNetwork(network: string)
    | Build(workload: string)
    | Play(workload: string, networks: seq<string>, userns: string, creates: set<string>)
    | KubeDown(workload: string)
    | ListPods
    | MachineRunning
    | StoreSecret(name: string, value: Value)
    | SecretExists(name: string)
    | RemoveSecret(name: string)
    | ListSecrets
    | RemoveVolume(name: string)
    | Ready
    | Mint(name: string, value: Value)
    | Generate(name: string, value: Value)

  /** Does the outside world accept the call? */
  predicate Accepts(s: Sys, e: Event) {
    match e
    case KeychainExists => true
    case KeychainGet(n) => s.hasKeychain && n in s.keychain
    case KeychainDescribe(n) => s.hasKeychain && n in s.keychain
    case KeychainPut(n, v, _, replace) =>
      s.hasKeychain && ValidName(n) && ValidValue(v) && (n in s.keychain ==> replace)
    case KeychainDelete(n) => s.hasKeychain && n in s.keychain
    case ListMachines => true
    case InitMachine => s.machine.NoMachine?
    case StartMachine => s.machine.Stopped?
    case StopMachine => !s.machine.NoMachine?
    case RemoveMachine => !s.machine.NoMachine?
    case NetworkExists(_) => s.machine.Running?
    case CreateNetwork(n, _) => s.machine.Running? && n !in s.networks
    case RemoveNetwork(n) => s.machine.Running? && n in s.networks && !Attached(s, n)
    case Build(_) => s.machine.Running?
    case Play(w, nets, _, _) => s.machine.Running? && w in s.images && forall n :: n in nets ==> n in s.networks
    case KubeDown(_) => s.machine.Running?
    case ListPods => s.machine.Running?
    case MachineRunning => true
    case StoreSecret(_, _) => s.machine.Running?
    case SecretExists(_) => s.machine.Running?
    case RemoveSecret(n) => s.machine.Running? && n in s.store
    case ListSecrets => s.machine.Running?
    case RemoveVolume(_) => s.machine.Running?
    case Ready => s.machine.Running? && Serving(s)
    case Mint(_, _) => s.machine.Running? && Serving(s)
    case Generate(_, _) => true
  }

  /** LiteLLM's pod is up. Keys are minted inside it, so without it minting is
      refused and nothing becomes ready. */
  predicate Serving(s: Sys) {
    !s.machine.NoMachine? && LITELLM in s.pods && s.pods[LITELLM].running
  }

  /** Some pod still uses the network. */
  predicate Attached(s: Sys, network: string) {
    exists w :: w in s.pods && network in s.pods[w].networks
  }

  function Halted(pods: map<string, Pod>): map<string, Pod> {
    map w | w in pods :: pods[w].(running := false)
  }

  /** Everything inside the machine goes with it. */
  function Emptied(s: Sys): Sys {
    s.(networks := map[], images := {}, pods := map[], store := map[], volumes := {})
  }

  /** What an accepted call changes. */
  function Effect(s: Sys, e: Event): Sys {
    match e
    case KeychainPut(n, v, src, _) => s.(keychain := s.keychain[n := Item(v, src)])
    case KeychainDelete(n) => s.(keychain := s.keychain - {n})
    case InitMachine => Emptied(s).(machine := Stopped, incarnation := s.incarnation + 1)
    case StartMachine => s.(machine := Running)
    case StopMachine => s.(machine := Stopped, pods := Halted(s.pods))
    case RemoveMachine => Emptied(s).(machine := NoMachine)
    case CreateNetwork(n, internal) => s.(networks := s.networks[n := internal])
    case RemoveNetwork(n) => s.(networks := s.networks - {n})
    case Build(w) => s.(images := s.images + {w})
    case Play(w, nets, userns, creates) =>
      s.(pods := s.pods[w := Pod(nets, userns, true)], volumes := s.volumes + creates)
    case KubeDown(w) => s.(pods := s.pods - {w})
    case StoreSecret(n, v) => s.(store := s.store[n := StoreEntry(v, true)])
    case RemoveSecret(n) => s.(store := s.store - {n})
    case RemoveVolume(n) => s.(volumes := s.volumes - {n})
    case Mint(_, v) => s.(issued := s.issued + {(v, s.incarnation)})
    case _ => s
  }

  /** Calls that leave everything as it is, whatever their outcome. */
  predicate ReadOnly(e: Event) {
    e.KeychainExists? || e.KeychainGet? || e.KeychainDescribe? || e.ListMachines? || e.NetworkExists?
    || e.ListPods? || e.MachineRunning? || e.SecretExists? || e.ListSecrets? || e.Ready? || e.Generate?
  }

  /** How a call ended. A refusal is the world's rule and has no effect. A
      fault is anything else that reports failure; the effect may or may not
      have happened, as when a command is killed half way. Replacing a pod is
      two steps, so a play that is not done may leave the old pod gone. */
  datatype Outcome = Done | Refused | Fault

  ghost predicate Next(s: Sys, e: Event, o: Outcome, s': Sys) {
    match o
    case Done => Accepts(s, e) && s' == Effect(s, e)
    case Refused => !Accepts(s, e) && (s' == s || Interrupted(s, e, s'))
    case Fault => s' == s || (Accepts(s, e) && s' == Effect(s, e)) || Interrupted(s, e, s')
  }

  /** The old pod is gone and there is no new one. */
  ghost predicate Interrupted(s: Sys, e: Event, s': Sys) {
    e.Play? && s.machine.Running? && s' == s.(pods := s.pods - {e.workload})
  }

  lemma NextCases(s: Sys, e: Event, o: Outcome, s': Sys)
    requires Next(s, e, o, s')
    ensures s' == s || (Accepts(s, e) && s' == Effect(s, e)) || (!o.Done? && Interrupted(s, e, s'))
    ensures ReadOnly(e) ==> s' == s
  {
    hide Accepts;
  }

  lemma NextMeans(s: Sys, e: Event, o: Outcome, s': Sys)
    requires Next(s, e, o, s')
    ensures o.Done? ==> Accepts(s, e) && s' == Effect(s, e)
    ensures o.Refused? ==> !Accepts(s, e) && (s' == s || Interrupted(s, e, s'))
    ensures o.Fault? ==> s' == s || s' == Effect(s, e) || Interrupted(s, e, s')
  {
    hide Accepts, Effect, Interrupted;
  }

  lemma LookingIsHarmless(s: Sys, e: Event)
    requires ReadOnly(e)
    ensures Effect(s, e) == s
    ensures forall t :: !Interrupted(s, e, t)
  {
  }

  datatype Step = Step(pre: Sys, event: Event, outcome: Outcome, post: Sys)

  /** `run` is a sequence of calls leading from `s` to `s'`. */
  ghost predicate Linked(s: Sys, run: seq<Step>, s': Sys) {
    if run == [] then s == s'
    else
      var last := run[|run| - 1];
      last.post == s' && Next(last.pre, last.event, last.outcome, s') && Linked(s, run[..|run| - 1], last.pre)
  }

  lemma LinkedSnoc(s: Sys, run: seq<Step>, step: Step)
    requires Linked(s, run, step.pre) && Next(step.pre, step.event, step.outcome, step.post)
    ensures Linked(s, run + [step], step.post)
  {
    assert (run + [step])[..|run|] == run;
  }

  /** No call of the run met a fault: every refusal was the world's own rule. */
  ghost predicate Faultless(run: seq<Step>) {
    forall i :: 0 <= i < |run| ==> !run[i].outcome.Fault?
  }
}

/** What each command may ask of the world, call by call. A command's run obeys
    its rule at every call; the theorems about whole histories are consequences
    of these rules and of how the world behaves. */
module Rules {
  import opened Roles
  import opened Catalogues
  import opened Topologies
  import opened WellFormedness
  import opened Systems

  /** What a lifecycle command works from: a validated topology, its secret
      catalogue and the selected zones. */
  datatype Plan = Plan(top: Topology, entries: seq<SecretSpec>, roles: seq<Role>)

  ghost predicate GoodPlan(p: Plan) {
    && Usable(p.top)
    && IsCatalogue(BUILTIN, Declared(p.top.zones, |p.top.zones|), p.entries)
    && InZoneOrder(p.roles)
  }

  datatype Command =
    | Up(plan: Plan)
    | Down(plan: Plan, destroy: bool)
    | Status(plan: Plan)
    | SetSecret(entries: seq<SecretSpec>, name: string, value: Value)
    | UpdateSecret(entries: seq<SecretSpec>, name: string, value: Value, generate: bool)
    | DeleteSecret(entries: seq<SecretSpec>, name: string)
    | ReadSecrets

  /** Calls that only look. */
  predicate Observes(e: Event) {
    ReadOnly(e) && !e.Generate?
  }

  // ---- The plan -----------------------------------------------------------

  ghost predicate InPlan(p: Plan, r: Role, w: string) {
    r in p.roles && w in ZoneOf(p.top, r).workloads
  }

  function UsernsOf(z: ZoneSpec): string {
    if z.internal then "auto" else ""
  }

  function PlannedPod(p: Plan, r: Role, w: string): Pod {
    Pod(NetworksOf(ZoneOf(p.top, r), w), UsernsOf(ZoneOf(p.top, r)), true)
  }

  ghost predicate AsPlanned(p: Plan, s: Sys, r: Role, w: string) {
    w in s.pods && s.pods[w] == PlannedPod(p, r, w)
  }

  /** Some selected zone consumes secret `n`. */
  ghost predicate Consumes(p: Plan, n: string) {
    exists r, e :: r in p.roles && e in p.entries && e.name == n && r in e.zones
  }

  /** `n` is in the catalogue with default source `src`. */
  ghost predicate Sourced(entries: seq<SecretSpec>, n: string, src: Source) {
    exists e :: e in entries && e.name == n && e.source == src
  }

  ghost predicate SelectedNetworksExist(p: Plan, s: Sys) {
    forall r :: r in p.roles ==> r.NetworkName() in s.networks
  }

  /** The machine's store holds the keychain's value under lclaw's label. */
  ghost predicate InSync(s: Sys, n: string) {
    n in s.keychain && n in s.store && s.store[n] == StoreEntry(s.keychain[n].value, true)
  }

  /** Every secret the zone consumes is in the store with the keychain's value. */
  ghost predicate SecretsIn(entries: seq<SecretSpec>, s: Sys, r: Role) {
    forall e :: e in Consumed(entries, r) ==> InSync(s, e.name)
  }

  /** The pod of workload `w` of zone `r` is played with what the plan says. */
  ghost predicate PlayFor(p: Plan, r: Role, w: string, nets: seq<string>, userns: string) {
    InPlan(p, r, w) && nets == NetworksOf(ZoneOf(p.top, r), w) && userns == UsernsOf(ZoneOf(p.top, r))
  }

  // ---- The rules ----------------------------------------------------------

  /** `up` only adds: it calls for what is missing, with what the plan says, and
      plays a pod only once its zone's secrets are in the machine. */
  ghost predicate UpMay(p: Plan, s: Sys, e: Event) {
    match e
    case InitMachine => s.machine.NoMachine?
    case StartMachine => s.machine.Stopped?
    case CreateNetwork(n, internal) =>
      s.machine.Running? && n !in s.networks
      && exists r :: r in p.roles && n == r.NetworkName() && internal == ZoneOf(p.top, r).internal
    case Generate(n, _) => n !in s.keychain && Consumes(p, n) && Sourced(p.entries, n, Generated)
    case Mint(n, _) => s.machine.Running? && n !in s.keychain && Consumes(p, n) && Sourced(p.entries, n, Minted)
    case KeychainPut(n, v, src, replace) =>
      !replace && n !in s.keychain && !src.User? && Consumes(p, n) && Sourced(p.entries, n, src)
      && (src.Minted? ==> s.machine.Running? && (v, s.incarnation) in s.issued)
    case StoreSecret(n, v) => s.machine.Running? && Consumes(p, n) && n in s.keychain && s.keychain[n].value == v
    case Build(w) => s.machine.Running? && exists r :: InPlan(p, r, w)
    case Play(w, nets, userns, _) =>
      s.machine.Running? && w in s.images && SelectedNetworksExist(p, s)
      && exists r :: PlayFor(p, r, w, nets, userns) && SecretsIn(p.entries, s, r)
    case _ => Observes(e)
  }

  /** `down` only removes: selected pods first, a network only when its zone has
      no pod left, the store and the machine only when no pod is left at all,
      and keychain items only when the machine is gone. */
  ghost predicate DownMay(p: Plan, destroy: bool, s: Sys, e: Event) {
    match e
    case KubeDown(w) => w in s.pods && exists r :: InPlan(p, r, w)
    case RemoveNetwork(n) =>
      s.machine.Running? && n in s.networks
      && exists r ::
        r in p.roles && n == r.NetworkName() && forall w :: w in ZoneOf(p.top, r).workloads ==> w !in s.pods
    case RemoveSecret(n) => s.pods == map[] && n in s.store && s.store[n].labelled
    case RemoveVolume(n) => s.pods == map[] && n !in s.store
    case StopMachine => s.pods == map[]
    case RemoveMachine => destroy && |p.roles| == |ALL| && s.machine.Stopped?
    case KeychainDelete(n) => destroy && s.machine.NoMachine? && n in s.keychain && Sourced(p.entries, n, Minted)
    case _ => Observes(e)
  }

  ghost predicate SetMay(name: string, value: Value, s: Sys, e: Event) {
    match e
    case KeychainPut(n, v, src, replace) => n == name && v == value && src.User? && !replace
    case StoreSecret(n, v) => n == name && n in s.keychain && s.keychain[n].value == v
    case _ => Observes(e)
  }

  /** May the entry be generated or minted anew? */
  ghost predicate Regenerable(entries: seq<SecretSpec>, n: string, src: Source) {
    exists e :: e in entries && e.name == n && e.source == src && !src.User? && e.rotatable
  }

  ghost predicate UpdateMay(entries: seq<SecretSpec>, name: string, generate: bool, s: Sys, e: Event) {
    match e
    case Generate(n, _) => generate && n == name && n in s.keychain && Regenerable(entries, n, Generated)
    case Mint(n, _) => generate && n == name && n in s.keychain && Regenerable(entries, n, Minted)
    case KeychainPut(n, v, src, replace) =>
      n == name && replace && n in s.keychain
      && (if generate then Regenerable(entries, n, src) else src.User?)
      && (src.Minted? ==> !s.machine.NoMachine? && (v, s.incarnation) in s.issued)
    case StoreSecret(n, v) => n == name && n in s.keychain && s.keychain[n].value == v
    case _ => Observes(e)
  }

  ghost predicate DeleteMay(name: string, s: Sys, e: Event) {
    match e
    case KeychainDelete(n) => n == name
    case RemoveSecret(n) => n == name && n !in s.keychain && n in s.store
    case _ => Observes(e)
  }

  ghost predicate May(c: Command, s: Sys, e: Event) {
    match c
    case Up(p) => UpMay(p, s, e)
    case Down(p, destroy) => DownMay(p, destroy, s, e)
    case Status(_) => Observes(e)
    case SetSecret(_, name, value) => SetMay(name, value, s, e)
    case UpdateSecret(entries, name, _, generate) => UpdateMay(entries, name, generate, s, e)
    case DeleteSecret(_, name) => DeleteMay(name, s, e)
    case ReadSecrets => Observes(e)
  }

  lemma UpMayIs(c: Command, s: Sys, e: Event)
    requires c.Up?
    ensures May(c, s, e) <==> UpMay(c.plan, s, e)
  {
    hide UpMay;
  }

  /** What `up` needs to know to make a secret. */
  ghost predicate MayMake(p: Plan, s: Sys, n: string, src: Source) {
    s.machine.Running? && n !in s.keychain && Consumes(p, n) && Sourced(p.entries, n, src) && !src.User?
  }

  lemma MayMakeMeans(p: Plan, s: Sys, n: string, src: Source, value: Value)
    requires MayMake(p, s, n, src)
    ensures src.Minted? ==> UpMay(p, s, Event.Mint(n, []))
    ensures src.Generated? ==> UpMay(p, s, Event.Generate(n, []))
    ensures (src.Minted? ==> (value, s.incarnation) in s.issued) ==> UpMay(p, s, KeychainPut(n, value, src, false))
  {
    hide Consumes, Sourced;
  }

  // ---- Runs ---------------------------------------------------------------

  /** The call did not end badly. Asking the keychain for an item that is not
      there is an answer, not a failure. */
  predicate Fine(e: Event, o: Outcome) {
    o.Done? || (o.Refused? && (e.KeychainGet? || e.KeychainDescribe?))
  }

  predicate Broken(st: Step) {
    !Fine(st.event, st.outcome)
  }

  ghost predicate Unbroken(run: seq<Step>) {
    forall i :: 0 <= i < |run| ==> !Broken(run[i])
  }

  /** The last call built the image of `w`. */
  ghost predicate JustBuilt(run: seq<Step>, w: string) {
    run != [] && run[|run| - 1].event == Build(w) && run[|run| - 1].outcome.Done?
  }

  /** The last call made this value for `n`, from the source given. */
  ghost predicate JustMade(run: seq<Step>, n: string, v: Value, src: Source) {
    && run != [] && run[|run| - 1].outcome.Done?
    && run[|run| - 1].event == if src.Minted? then Event.Mint(n, v) else Event.Generate(n, v)
  }

  /** LiteLLM answered that it can serve. */
  ghost predicate Answered(run: seq<Step>) {
    exists i :: 0 <= i < |run| && IsAnswer(run[i])
  }

  predicate IsAnswer(st: Step) {
    st.event == Event.Ready && st.outcome.Done?
  }

  /** With the services selected, LiteLLM has answered. */
  ghost predicate MayMintAfter(p: Plan, run: seq<Step>) {
    Services in p.roles ==> Answered(run)
  }

  /** The calls that come after the services zone. */
  ghost predicate ForAgent(p: Plan, e: Event) {
    e.Mint? || (e.Play? && InPlan(p, Agent, e.workload))
  }

  /** When a call may be added to a run of `up`: nothing is changed after a
      failed call, a pod is played right after its image was built, a value is
      kept right after it was made, and the agent's zone waits for LiteLLM. */
  ghost predicate UpReady(p: Plan, run: seq<Step>, e: Event) {
    && (!Observes(e) ==> Unbroken(run))
    && (e.Play? ==> JustBuilt(run, e.workload))
    && (e.KeychainPut? ==> JustMade(run, e.name, e.value, e.source))
    && (ForAgent(p, e) ==> MayMintAfter(p, run))
  }

  ghost predicate Timely(p: Plan, run: seq<Step>) {
    forall i :: 0 <= i < |run| ==> UpReady(p, run[..i], run[i].event)
  }

  ghost predicate Obeys(c: Command, run: seq<Step>) {
    forall i :: 0 <= i < |run| ==> May(c, run[i].pre, run[i].event)
  }

  /** A run of command `c` from `s` to `s'`. */
  ghost predicate RunOf(c: Command, s: Sys, run: seq<Step>, s': Sys) {
    Linked(s, run, s') && Obeys(c, run) && (c.Up? ==> Timely(c.plan, run))
  }

  lemma VerdictSnoc(run: seq<Step>, step: Step)
    ensures Faultless(run + [step]) <==> Faultless(run) && !step.outcome.Fault?
    ensures Unbroken(run + [step]) <==> Unbroken(run) && Fine(step.event, step.outcome)
  {
    var all := run + [step];
    assert all[|run|] == step;
    if Faultless(all) {
      forall i | 0 <= i < |run| ensures !run[i].outcome.Fault? { assert all[i] == run[i]; }
    }
    if Unbroken(all) {
      forall i | 0 <= i < |run| ensures !Broken(run[i]) { assert all[i] == run[i]; }
    }
  }

  lemma TimelySnoc(p: Plan, run: seq<Step>, step: Step)
    requires Timely(p, run) && UpReady(p, run, step.event)
    ensures Timely(p, run + [step])
  {
    hide UpReady;
    var all := run + [step];
    forall i | 0 <= i < |all| ensures UpReady(p, all[..i], all[i].event) {
      if i < |run| { assert all[..i] == run[..i] && all[i] == run[i]; } else { assert all[..i] == run; }
    }
  }

  lemma AnsweredKept(p: Plan, run: seq<Step>, longer: seq<Step>)
    requires run <= longer && MayMintAfter(p, run)
    ensures MayMintAfter(p, longer)
  {
    if Services in p.roles {
      var i :| 0 <= i < |run| && IsAnswer(run[i]);
      assert longer[i] == run[i];
    }
  }

  lemma RunSnoc(c: Command, s: Sys, run: seq<Step>, step: Step)
    requires RunOf(c, s, run, step.pre)
    requires Next(step.pre, step.event, step.outcome, step.post) && May(c, step.pre, step.event)
    requires c.Up? ==> UpReady(c.plan, run, step.event)
    ensures RunOf(c, s, run + [step], step.post)
  {
    hide May, Next, Linked, Timely, UpReady;
    LinkedSnoc(s, run, step);
    if c.Up? { TimelySnoc(c.plan, run, step); }
    ObeysSnoc(c, run, step);
  }

  lemma ObeysSnoc(c: Command, run: seq<Step>, step: Step)
    requires Obeys(c, run) && May(c, step.pre, step.event)
    ensures Obeys(c, run + [step])
  {
    hide May;
  }

  // ---- What every call of a command keeps ----------------------------------

  /** Nothing `up` achieved is undone by the rest of the same `up`. */
  ghost predicate Grows(p: Plan, s: Sys, s': Sys) {
    && s'.hasKeychain == s.hasKeychain
    && (forall n :: n in s.keychain ==> n in s'.keychain && s'.keychain[n] == s.keychain[n])
    && (s.machine.Running? ==> s'.machine.Running?)
    && (!s.machine.NoMachine? ==>
      && !s'.machine.NoMachine?
      && s'.incarnation == s.incarnation
      && (forall n :: n in s.networks ==> n in s'.networks && s'.networks[n] == s.networks[n])
      && s.images <= s'.images
      && (forall n :: InSync(s, n) ==> InSync(s', n)))
  }

  /** Every pod that is as planned stays so, and LiteLLM's stays up, but for
      `lost`. */
  ghost predicate PodsStandBut(p: Plan, s: Sys, s': Sys, lost: set<string>) {
    !s.machine.NoMachine? ==>
      && (forall r, w :: InPlan(p, r, w) && w !in lost && AsPlanned(p, s, r, w) ==> AsPlanned(p, s', r, w))
      && (LITELLM !in lost && Serving(s) ==> Serving(s'))
  }

  ghost predicate PodsStand(p: Plan, s: Sys, s': Sys) {
    PodsStandBut(p, s, s', {})
  }

  lemma PodsStandTransitive(p: Plan, a: Sys, b: Sys, c: Sys)
    requires Grows(p, a, b) && PodsStand(p, a, b) && PodsStand(p, b, c)
    ensures PodsStand(p, a, c)
  {
    hide AsPlanned, InPlan, InSync;
  }

  lemma GrowsTransitive(p: Plan, a: Sys, b: Sys, c: Sys)
    requires Grows(p, a, b) && Grows(p, b, c)
    ensures Grows(p, a, c)
  {
    hide AsPlanned, InPlan, InSync;
  }

  lemma UpEffectKeepsPods(p: Plan, s: Sys, e: Event, r: Role, w: string)
    requires Usable(p.top)
    requires UpMay(p, s, e) && !s.machine.NoMachine?
    requires InPlan(p, r, w) && AsPlanned(p, s, r, w)
    ensures AsPlanned(p, Effect(s, e), r, w)
  {
    hide NetworksOf, GoodTargets, SelectedNetworksExist, Consumes, Sourced, SecretsIn;
    if e.Play? && w == e.workload {
      var q :| PlayFor(p, q, w, e.networks, e.userns);
      assert q == r;
    }
  }

  lemma UpEffectKeepsServing(p: Plan, s: Sys, e: Event)
    requires UpMay(p, s, e) && Serving(s)
    ensures Serving(Effect(s, e))
  {
    hide NetworksOf, SelectedNetworksExist, Consumes, Sourced, InPlan, SecretsIn, LITELLM;
  }

  lemma UpEffectKeepsSync(p: Plan, s: Sys, e: Event, n: string)
    requires UpMay(p, s, e) && !s.machine.NoMachine? && InSync(s, n)
    ensures InSync(Effect(s, e), n)
  {
    hide NetworksOf, SelectedNetworksExist, Consumes, Sourced, InPlan;
  }

  lemma UpEffectKeepsRest(p: Plan, s: Sys, e: Event)
    requires UpMay(p, s, e)
    ensures var s' := Effect(s, e);
      && s'.hasKeychain == s.hasKeychain
      && (forall n :: n in s.keychain ==> n in s'.keychain && s'.keychain[n] == s.keychain[n])
      && (s.machine.Running? ==> s'.machine.Running?)
      && (!s.machine.NoMachine? ==>
        && !s'.machine.NoMachine?
        && s'.incarnation == s.incarnation
        && (forall n :: n in s.networks ==> n in s'.networks && s'.networks[n] == s.networks[n])
        && s.images <= s'.images)
  {
    hide NetworksOf, SelectedNetworksExist, Consumes, Sourced, InPlan;
  }

  lemma InterruptionGrows(p: Plan, s: Sys, e: Event, s': Sys)
    requires Interrupted(s, e, s')
    ensures Grows(p, s, s') && PodsStandBut(p, s, s', {e.workload})
  {
    hide NetworksOf, InPlan, UsernsOf;
  }

  lemma UpStepGrows(p: Plan, s: Sys, e: Event, o: Outcome, s': Sys)
    requires UpMay(p, s, e) && Next(s, e, o, s')
    ensures Grows(p, s, s')
  {
    hide UpMay, Next, Effect, Accepts, Interrupted, AsPlanned, InPlan, InSync, Usable;
    NextCases(s, e, o, s');
    if Interrupted(s, e, s') {
      InterruptionGrows(p, s, e, s');
    } else if s' != s {
      UpEffectKeepsRest(p, s, e);
      if !s.machine.NoMachine? {
        forall n | InSync(s, n) ensures InSync(s', n) { UpEffectKeepsSync(p, s, e, n); }
      }
    }
  }

  /** A call that does not fail leaves every planned pod; a play that fails may
      lose the one it was to replace. */
  lemma UpStepPods(p: Plan, s: Sys, e: Event, o: Outcome, s': Sys)
    requires Usable(p.top)
    requires UpMay(p, s, e) && Next(s, e, o, s')
    ensures Fine(e, o) ==> PodsStand(p, s, s')
    ensures PodsStandBut(p, s, s', if e.Play? then {e.workload} else {})
  {
    hide UpMay, Next, Effect, Accepts, Interrupted, AsPlanned, InPlan, Usable, Serving;
    NextCases(s, e, o, s');
    if !o.Done? && Interrupted(s, e, s') {
      InterruptionGrows(p, s, e, s');
      OnlyPlaysAreInterrupted(s, e, s');
    } else if s' != s && !s.machine.NoMachine? {
      if Serving(s) { UpEffectKeepsServing(p, s, e); }
      forall r, w | InPlan(p, r, w) && AsPlanned(p, s, r, w) ensures AsPlanned(p, s', r, w) {
        UpEffectKeepsPods(p, s, e, r, w);
      }
    }
  }

  lemma OnlyPlaysAreInterrupted(s: Sys, e: Event, s': Sys)
    requires Interrupted(s, e, s')
    ensures e.Play?
  {
  }
}

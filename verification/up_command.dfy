/** The whole of `lclaw up`, and what a run of it achieves
    (internal/app/lifecycle.go). */
module UpCommand {
  import opened Roles
  import opened Reports
  import opened Catalogues
  import opened Topologies
  import opened Validation
  import opened WellFormedness
  import opened Systems
  import opened Rules
  import opened Hosts
  import opened SecretSteps
  import opened Ups

  /** The scaffold directory as the program finds it: absent, holding a file
      that does not decode, or a topology with the paths that exist. */
  datatype Scaffold = NoDirectory | Undecodable | Decoded(top: Topology, files: set<string>)

  /** Loads and validates. The catalogue's own findings are part of validation,
      so they are not looked at again. */
  method Load(scaffold: Scaffold) returns (top: Topology, entries: seq<SecretSpec>, err: Err)
    ensures err.NoErr? <==> scaffold.Decoded? && WellFormed(scaffold.top, scaffold.files)
    ensures err.NoErr? ==> top == scaffold.top && Usable(top)
    ensures err.NoErr? ==> IsCatalogue(BUILTIN, Declared(top.zones, |top.zones|), entries)
  {
    hide WellFormed, Usable, IsCatalogue, Everything;
    top, entries := Topology(0, "", MachineSpec(0, 0, 0, []), []), [];
    if !scaffold.Decoded? { return top, entries, NoScaffold; }
    var findings := Validate(scaffold.top, scaffold.files);
    ValidIffWellFormed(scaffold.top, scaffold.files);
    if |findings| > 0 { return top, entries, BadTopology; }
    top := scaffold.top;
    WellFormedIsUsable(top, scaffold.files);
    var declared := DeclaredSecrets(top);
    var merged, _ := NewCatalogue(BUILTIN, declared);
    entries := merged;
    err := NoErr;
  }

  // ---- What a run of `up` ends with ---------------------------------------

  /** The workloads of the selected zones, in the order they are applied. */
  function WorkloadsOf(top: Topology, roles: seq<Role>): seq<string> {
    if roles == [] then []
    else WorkloadsOf(top, roles[..|roles| - 1]) + ZoneOf(top, roles[|roles| - 1]).workloads
  }

  /** What the checks of the zones are about when all of them succeed. */
  function ZonesSubjects(top: Topology, roles: seq<Role>): seq<Subject> {
    if roles == [] then [] else ZonesSubjects(top, roles[..|roles| - 1]) + ZoneSubjects(top, roles[|roles| - 1])
  }

  /** What a clean report is about: the machine, the networks, the zones. */
  function UpSubjects(p: Plan): seq<Subject> {
    [MachineItself] + NetworkSubjects(p.roles) + ZonesSubjects(p.top, p.roles)
  }

  lemma ZonesSubjectsStep(top: Topology, roles: seq<Role>, i: nat)
    requires i < |roles|
    ensures ZonesSubjects(top, roles[..i + 1]) == ZonesSubjects(top, roles[..i]) + ZoneSubjects(top, roles[i])
  {
    assert roles[..i + 1][..i] == roles[..i];
  }

  /** One warning per zone that was not tried. */
  function Skips(roles: seq<Role>): seq<Check> {
    if roles == [] then [] else Skips(roles[..|roles| - 1]) + [Check(ZoneItself(roles[|roles| - 1]), Warn)]
  }

  lemma {:induction false} SkipsAre(roles: seq<Role>)
    ensures |Skips(roles)| == |roles|
    ensures forall i :: 0 <= i < |roles| ==> Skips(roles)[i] == Check(ZoneItself(roles[i]), Warn)
  {
    if roles != [] { SkipsAre(roles[..|roles| - 1]); }
  }

  /** The order of a run and of its report: zone by zone, as selected, each
      zone's workloads in the order of the file. */
  lemma ZonesGoInOrder(top: Topology, a: Role, b: Role, c: Role)
    ensures WorkloadsOf(top, [a]) == ZoneOf(top, a).workloads
    ensures WorkloadsOf(top, [a, b]) == ZoneOf(top, a).workloads + ZoneOf(top, b).workloads
    ensures WorkloadsOf(top, [a, b, c]) ==
      ZoneOf(top, a).workloads + ZoneOf(top, b).workloads + ZoneOf(top, c).workloads
    ensures ZonesSubjects(top, [a]) == ZoneSubjects(top, a)
    ensures ZonesSubjects(top, [a, b]) == ZoneSubjects(top, a) + ZoneSubjects(top, b)
    ensures ZonesSubjects(top, [a, b, c]) == ZoneSubjects(top, a) + ZoneSubjects(top, b) + ZoneSubjects(top, c)
  {
    hide ZoneSubjects, ZoneOf;
    assert [a, b, c][..2] == [a, b] && [a, b][..1] == [a] && [a][..0] == [];
    assert WorkloadsOf(top, []) == [] && ZonesSubjects(top, []) == [];
  }

  /** A clean report: the machine, one network per zone, then the zones. */
  lemma CleanReport(p: Plan)
    ensures UpSubjects(p) == [MachineItself] + NetworkSubjects(p.roles) + ZonesSubjects(p.top, p.roles)
    ensures UpSubjects(p)[0] == MachineItself
    ensures |UpSubjects(p)| > |p.roles|
    ensures forall i :: 0 <= i < |p.roles| ==> UpSubjects(p)[i + 1] == ZoneNetwork(p.roles[i])
    ensures UpSubjects(p)[|p.roles| + 1..] == ZonesSubjects(p.top, p.roles)
  {
    hide NetworkSubjects, ZonesSubjects;
    NetworkSubjectsAt(p.roles);
  }

  ghost predicate ZonesUp(p: Plan, s: Sys, roles: seq<Role>) {
    forall r :: r in roles ==> ZoneUp(p, s, r)
  }

  /** What `up` is for. */
  ghost predicate Goal(p: Plan, s: Sys) {
    s.machine.Running? && SelectedNetworksExist(p, s) && ZonesUp(p, s, p.roles)
  }

  /** Every bridge of a selected workload leads to a selected zone or to a
      network that is already there. */
  ghost predicate Closed(p: Plan, s: Sys) {
    forall r: Role, w, x: Role :: InPlan(p, r, w) && Joins(p.top, r, w, x) ==>
      x in p.roles || (!s.machine.NoMachine? && x.NetworkName() in s.networks)
  }

  /** The report of zones that stopped at zone `z`, after what `before` is about:
      the zones before it passed, its own checks end in failure, and each zone
      after it, up to `until`, is one warning. */
  ghost predicate StoppedAt(p: Plan, before: seq<Subject>, keychain: map<string, Item>, checks: seq<Check>,
    z: nat, until: nat, passed: seq<Check>, own: seq<Check>)
  {
    && z < until <= |p.roles|
    && checks == passed + own + Skips(p.roles[z + 1..until])
    && AllPass(passed) && SubjectsOf(passed) == before + ZonesSubjects(p.top, p.roles[..z])
    && ZoneFails(p, p.roles[z], keychain, own)
  }

  ghost predicate StoppedSomewhere(p: Plan, before: seq<Subject>, keychain: map<string, Item>, checks: seq<Check>) {
    exists z: nat, passed, own :: StoppedAt(p, before, keychain, checks, z, |p.roles|, passed, own)
  }

  /** What the checks before the zones are about. */
  function FirstSubjects(p: Plan): seq<Subject> {
    [MachineItself] + NetworkSubjects(p.roles)
  }

  /** The three forms of a report once the user secrets are known to be set:
      clean, stopped before any zone, or stopped at a zone. */
  ghost predicate UpReport(p: Plan, keychain: map<string, Item>, checks: seq<Check>) {
    || (AllPass(checks) && SubjectsOf(checks) == UpSubjects(p))
    || FailsAlong(FirstSubjects(p), checks)
    || StoppedSomewhere(p, FirstSubjects(p), keychain, checks)
  }

  // ---- The zones, in order ------------------------------------------------

  /** The loop over the zones before any failure. */
  ghost predicate Zoning(p: Plan, a: State, b: State, i: nat) {
    && i <= |p.roles|
    && b.command == Command.Up(p) && Continues(a, b) && Unbroken(b.trace)
    && b.sys.machine.Running? && SelectedNetworksExist(p, b.sys)
    && Plays(b.trace) == Plays(a.trace) + WorkloadsOf(p.top, p.roles[..i])
    && ZonesUp(p, b.sys, p.roles[..i])
    && (Services in p.roles[..i] ==> Answered(b.trace))
  }

  lemma ZonesUpKept(p: Plan, b: State, c: State, i: nat)
    requires i < |p.roles| && b.command == Command.Up(p) && b.sys.machine.Running? && Continues(b, c)
    requires Unbroken(c.trace)
    requires ZonesUp(p, b.sys, p.roles[..i]) && ZoneUp(p, c.sys, p.roles[i])
    ensures ZonesUp(p, c.sys, p.roles[..i + 1])
  {
    hide Continues, Unbroken, ZoneUp;
    forall r | r in p.roles[..i] ensures ZoneUp(p, c.sys, r) { ZoneUpKept(p, b, c, r); }
    assert p.roles[..i + 1] == p.roles[..i] + [p.roles[i]];
  }

  lemma WorkloadsStep(top: Topology, roles: seq<Role>, i: nat)
    requires i < |roles|
    ensures WorkloadsOf(top, roles[..i + 1]) == WorkloadsOf(top, roles[..i]) + ZoneOf(top, roles[i]).workloads
  {
    assert roles[..i + 1][..i] == roles[..i];
  }

  lemma ZoningStep(p: Plan, a: State, b: State, c: State, i: nat)
    requires i < |p.roles| && Zoning(p, a, b, i)
    requires Continues(b, c) && Unbroken(c.trace) && ZoneUp(p, c.sys, p.roles[i])
    requires Plays(c.trace) == Plays(b.trace) + ZoneOf(p.top, p.roles[i]).workloads
    requires p.roles[i] == Services ==> JustReady(c.trace)
    ensures Zoning(p, a, c, i + 1)
  {
    hide Continues, Unbroken, Answered, JustReady, SelectedNetworksExist, ZoneUp, ZonesUp, Plays, WorkloadsOf;
    ContinuesTransitive(a, b, c);
    SameCommand(b, c);
    SelectedKept(b, c);
    ZonesUpKept(p, b, c, i);
    WorkloadsStep(p.top, p.roles, i);
    AnsweredSoFar(p, b, c, i);
    ConcatAssociates(Plays(a.trace), WorkloadsOf(p.top, p.roles[..i]), ZoneOf(p.top, p.roles[i]).workloads);
  }

  lemma AnswerStays(b: State, c: State)
    requires Continues(b, c)
    ensures Answered(b.trace) ==> Answered(c.trace)
  {
    hide Sound, Grows, Faultless, Unbroken;
    if Answered(b.trace) {
      var i :| 0 <= i < |b.trace| && IsAnswer(b.trace[i]);
      assert c.trace[i] == b.trace[i];
    }
  }

  lemma AnsweredSoFar(p: Plan, b: State, c: State, i: nat)
    requires i < |p.roles| && Continues(b, c)
    requires Services in p.roles[..i] ==> Answered(b.trace)
    requires p.roles[i] == Services ==> JustReady(c.trace)
    ensures Services in p.roles[..i + 1] ==> Answered(c.trace)
  {
    hide Continues, Answered, JustReady;
    assert p.roles[..i + 1] == p.roles[..i] + [p.roles[i]];
    if p.roles[i] == Services { JustReadyIsAnswered(c.trace); }
    AnswerStays(b, c);
  }

  /** The agent's zone comes after the services'. */
  lemma AgentMayMint(p: Plan, a: State, b: State, i: nat)
    requires Zoning(p, a, b, i) && i < |p.roles| && InZoneOrder(p.roles)
    ensures p.roles[i] == Agent ==> MayMintAfter(p, b.trace)
  {
    hide Continues, Unbroken, SelectedNetworksExist, ZonesUp, Plays, WorkloadsOf, Answered;
    if p.roles[i] == Agent && Services in p.roles {
      var j :| 0 <= j < |p.roles| && p.roles[j] == Services;
      assert j < i && p.roles[..i][j] == Services;
    }
  }

  lemma ConcatAssociates(x: seq<string>, y: seq<string>, z: seq<string>)
    ensures (x + y) + z == x + (y + z)
  {
  }

  lemma PrefixWithin(before: seq<string>, done: seq<string>, ws: seq<string>, all: seq<string>, k: nat)
    requires k <= |ws| && done + ws <= all
    ensures PlayedPrefix(before, (before + done) + ws[..k], all)
  {
    var j := |done| + k;
    assert all[..j] == (done + ws)[..j] == done + ws[..k];
    assert (before + done) + ws[..k] == before + all[..j];
  }

  /** Plays of the zones so far, the last of them possibly cut short. */
  lemma ZonePrefix(top: Topology, roles: seq<Role>, i: nat, before: seq<string>, now: seq<string>, played: seq<string>)
    requires i < |roles| && now == before + WorkloadsOf(top, roles[..i])
    requires PlayedPrefix(now, played, ZoneOf(top, roles[i]).workloads)
    ensures PlayedPrefix(before, played, WorkloadsOf(top, roles))
  {
    hide WorkloadsOf;
    var ws := ZoneOf(top, roles[i]).workloads;
    var k :| 0 <= k <= |ws| && played == now + ws[..k];
    WorkloadsStep(top, roles, i);
    WorkloadsPrefix(top, roles, i + 1);
    PrefixWithin(before, WorkloadsOf(top, roles[..i]), ws, WorkloadsOf(top, roles), k);
  }

  lemma {:induction false} WorkloadsPrefix(top: Topology, roles: seq<Role>, i: nat)
    requires i <= |roles|
    ensures WorkloadsOf(top, roles[..i]) <= WorkloadsOf(top, roles)
    decreases |roles| - i
  {
    if i < |roles| {
      WorkloadsStep(top, roles, i);
      WorkloadsPrefix(top, roles, i + 1);
    } else {
      assert roles[..i] == roles;
    }
  }

  lemma SkipsStep(roles: seq<Role>, k: nat, i: nat)
    requires k <= i < |roles|
    ensures Skips(roles[k..i + 1]) == Skips(roles[k..i]) + [Check(ZoneItself(roles[i]), Warn)]
  {
    assert roles[k..i + 1][..i - k] == roles[k..i];
  }

  /** A selected zone consumes an entry that has to be minted first. */
  ghost predicate Unminted(p: Plan, s: Sys, r: Role, e: SecretSpec) {
    r in p.roles && e in Consumed(p.entries, r) && e.source.Minted? && e.name !in s.keychain
  }

  /** LiteLLM will be asked: the services wait for it, and it mints. */
  ghost predicate NeedsLiteLLM(p: Plan, s: Sys) {
    Services in p.roles || exists r, e :: Unminted(p, s, r, e)
  }

  /** LiteLLM is a workload of a selected zone that is applied in time. */
  ghost predicate BringsLiteLLM(p: Plan) {
    exists r :: r != Agent && InPlan(p, r, LITELLM)
  }

  /** If LiteLLM is asked, it is up already or comes up in time. */
  ghost predicate Served(p: Plan, s: Sys) {
    NeedsLiteLLM(p, s) ==> Serving(s) || BringsLiteLLM(p)
  }

  /** Nothing but a fault can make the zones fail. */
  ghost predicate AllFavourable(p: Plan, s: Sys) {
    && s.hasKeychain && Served(p, s)
    && forall r :: r in p.roles ==> UsersSet(Consumed(p.entries, r), s) && AllReady(p, s, r)
  }

  /** Zones already applied are up, LiteLLM with them. */
  lemma ServesSoFar(p: Plan, a: State, b: State, i: nat, q: Role)
    requires Zoning(p, a, b, i) && i < |p.roles| && InZoneOrder(p.roles)
    requires InPlan(p, q, LITELLM) && q.Rank() < p.roles[i].Rank()
    ensures Serving(b.sys)
  {
    hide Continues, Unbroken, SelectedNetworksExist, Plays, WorkloadsOf, Answered, Serving, AsPlanned, SecretsIn;
    var j :| 0 <= j < |p.roles| && p.roles[j] == q;
    assert j < i && p.roles[..i][j] == q;
    assert ZoneUp(p, b.sys, q);
    PlannedServes(p, b.sys, q);
  }

  lemma LiteLLMInTime(p: Plan, a: State, b: State, i: nat)
    requires Zoning(p, a, b, i) && i < |p.roles| && InZoneOrder(p.roles) && a.command == Command.Up(p)
    requires NeedsLiteLLM(p, a.sys) && Served(p, a.sys)
    ensures p.roles[i] == Agent ==> Serving(b.sys)
    ensures p.roles[i] == Services ==> Serving(b.sys) || LITELLM in ZoneOf(p.top, Services).workloads
  {
    hide Continues, Unbroken, SelectedNetworksExist, ZonesUp, Plays, WorkloadsOf, Answered, Serving, LITELLM;
    hide NeedsLiteLLM;
    if Serving(a.sys) {
      ServingKept(a, b);
    } else {
      var q :| q != Agent && InPlan(p, q, LITELLM);
      if q.Rank() < p.roles[i].Rank() { ServesSoFar(p, a, b, i, q); }
    }
  }

  lemma FavourableNow(p: Plan, a: State, b: State, i: nat)
    requires Zoning(p, a, b, i) && i < |p.roles| && GoodPlan(p) && InZoneOrder(p.roles)
    requires a.command == Command.Up(p) && a.sys.machine.Running? && AllFavourable(p, a.sys)
    ensures Favourable(p, b.sys, p.roles[i])
  {
    hide Continues, Unbroken, SelectedNetworksExist, ZonesUp, Plays, WorkloadsOf, Answered, Serving, LITELLM;
    hide Served, Consumed, GoodPlan, NetworksReady, Zoning;
    var r := p.roles[i];
    ZoningMeans(p, a, b, i);
    SameCommand(a, b);
    KeychainKept(a, b);
    forall e | e in Consumed(p.entries, r) ensures Obtainable(e, b.sys) {
      if e.source.Minted? && e.name !in b.sys.keychain {
        MintedIsAgents(p, r, e);
        assert Unminted(p, a.sys, r, e);
        LiteLLMInTime(p, a, b, i);
      }
    }
    if r == Services { LiteLLMInTime(p, a, b, i); }
    assert r in p.roles && AllReady(p, a.sys, r);
    forall w | w in ZoneOf(p.top, r).workloads ensures NetworksReady(p, b.sys, r, w) { ReadyKept(a, b, r, w); }
  }

  /** Tries one more zone. */
  method NextZone(host: Host, top: Topology, entries: seq<SecretSpec>, roles: seq<Role>, i: nat, ghost p: Plan,
      ghost a: State)
    returns (checks: seq<Check>, ok: bool, err: Err)
    requires i < |roles| && p == Plan(top, entries, roles) && Zoning(p, a, host.Now(), i)
    requires a.command == Command.Up(p) && a.sys.machine.Running?
    modifies host
    ensures Continues(a, host.Now())
    ensures PlayedPrefix(Plays(a.trace), Plays(host.trace), WorkloadsOf(top, roles))
    ensures ok ==> err.NoErr? && AllPass(checks) && Zoning(p, a, host.Now(), i + 1)
    ensures ok ==> SubjectsOf(checks) == ZoneSubjects(top, roles[i])
    ensures !ok && err.NoErr? ==> ZoneFails(p, roles[i], host.sys.keychain, checks)
    ensures Explained(host.sys.hasKeychain, host.cancelled, host.trace, err)
    ensures Faultless(host.trace) && !host.cancelled && AllFavourable(p, a.sys) ==> ok
  {
    hide Sound, Continues, Faultless, Unbroken, Plays, SelectedNetworksExist, ZoneUp, ZonesUp, PlayedPrefix;
    hide WorkloadsOf, ZoneFails, AllFavourable, Favourable, SubjectsOf, ZoneSubjects, JustReady, MayMintAfter;
    hide Answered, GoodPlan, Explained;
    ghost var b := host.Now();
    SameCommand(a, b);
    SoundPlan(b);
    PlanInOrder(p);
    AgentMayMint(p, a, b, i);
    if AllFavourable(p, a.sys) { FavourableNow(p, a, b, i); }
    checks, ok, err := ApplyZone(host, top, entries, roles[i]);
    ghost var c := host.Now();
    ContinuesTransitive(a, b, c);
    SameCommand(b, c);
    ZonePrefix(top, roles, i, Plays(a.trace), Plays(b.trace), Plays(c.trace));
    if ok { ZoningStep(p, a, b, c, i); }
  }

  lemma PlanInOrder(p: Plan)
    requires GoodPlan(p)
    ensures InZoneOrder(p.roles) && Usable(p.top)
  {
    hide Usable, IsCatalogue;
  }

  lemma ZoningWaits(p: Plan, a: State, b: State, c: State, i: nat)
    requires Zoning(p, a, b, i) && Continues(b, c) && c == b.(cancelled := c.cancelled)
    ensures Zoning(p, a, c, i)
  {
    hide Sound, Faultless, Unbroken, Grows, SelectedNetworksExist, ZonesUp, Plays, WorkloadsOf;
    ContinuesTransitive(a, b, c);
  }

  lemma ZoningMeans(p: Plan, a: State, b: State, i: nat)
    requires Zoning(p, a, b, i)
    ensures b.command == Command.Up(p) && Continues(a, b) && Sound(b) && b.sys.machine.Running?
  {
    hide Continues, Unbroken, SelectedNetworksExist, ZonesUp, Plays, WorkloadsOf;
    SameCommand(a, b);
  }

  /** The zones, in order: after the first failure the rest is skipped, one
      warning each. */
  method ApplyZones(host: Host, top: Topology, entries: seq<SecretSpec>, roles: seq<Role>, ghost p: Plan)
    returns (checks: seq<Check>, err: Err)
    requires p == Plan(top, entries, roles) && Zoning(p, host.Now(), host.Now(), 0)
    modifies host
    ensures Continues(old(host.Now()), host.Now())
    ensures PlayedPrefix(Plays(old(host.trace)), Plays(host.trace), WorkloadsOf(top, roles))
    ensures Explained(host.sys.hasKeychain, host.cancelled, host.trace, err)
    ensures err.NoErr? && !AllPass(checks) ==> StoppedSomewhere(p, [], host.sys.keychain, checks)
    ensures err.NoErr? && AllPass(checks) ==>
      Zoning(p, old(host.Now()), host.Now(), |roles|) && SubjectsOf(checks) == ZonesSubjects(top, roles)
    ensures Faultless(host.trace) && !host.cancelled && AllFavourable(p, old(host.sys)) ==>
      err.NoErr? && AllPass(checks)
  {
    hide Sound, Continues, Faultless, Unbroken, Plays, Zoning, PlayedPrefix, WorkloadsOf, AllPass, AllFavourable;
    hide StoppedAt, StoppedSomewhere, ZoneFails, SubjectsOf, ZonesSubjects, ZoneSubjects, FaultedLast;
    ghost var a := host.Now();
    ghost var z: nat, passed, own := 0, [], [];
    checks, err := [], NoErr;
    var failed := false;
    ZoningMeans(p, a, a, 0);
    PlayedNone(Plays(a.trace), WorkloadsOf(top, roles));
    NothingPassed();
    NoZones(top);
    for i := 0 to |roles|
      invariant Continues(a, host.Now()) && err.NoErr?
      invariant PlayedPrefix(Plays(a.trace), Plays(host.trace), WorkloadsOf(top, roles))
      invariant !failed ==>
        Zoning(p, a, host.Now(), i) && AllPass(checks) && SubjectsOf(checks) == ZonesSubjects(top, roles[..i])
      invariant failed ==> StoppedAt(p, [], host.sys.keychain, checks, z, i, passed, own)
      invariant failed ==> !(Faultless(host.trace) && !host.cancelled && AllFavourable(p, a.sys))
    {
      ghost var b := host.Now();
      SameCommand(a, b);
      var stop := host.CtxErr();
      ghost var c := host.Now();
      ContinuesTransitive(a, b, c);
      if stop { return checks, Canceled; }
      if failed {
        StoppedSkips(p, host.sys.keychain, checks, z, i, passed, own);
        checks := checks + [Check(ZoneItself(roles[i]), Warn)];
        continue;
      }
      ZoningWaits(p, a, b, c, i);
      var more, ok;
      more, ok, err := NextZone(host, top, entries, roles, i, p, a);
      if err.NoErr? && !ok {
        failed, z, passed, own := true, i, checks, more;
        StoppedHere(p, host.sys.keychain, checks, i, more);
      }
      if ok { PassAndPass(checks, more); }
      SubjectsConcat(checks, more);
      ZonesSubjectsStep(top, roles, i);
      checks := checks + more;
      if !err.NoErr? { return; }
    }
    if failed { StoppedIsStopped(p, [], host.sys.keychain, checks, z, passed, own); }
    assert roles[..|roles|] == roles;
  }

  lemma NoZones(top: Topology)
    ensures SubjectsOf([]) == [] && ZonesSubjects(top, []) == []
  {
  }

  lemma StoppedHere(p: Plan, keychain: map<string, Item>, passed: seq<Check>, i: nat, own: seq<Check>)
    requires i < |p.roles| && AllPass(passed) && SubjectsOf(passed) == ZonesSubjects(p.top, p.roles[..i])
    requires ZoneFails(p, p.roles[i], keychain, own)
    ensures StoppedAt(p, [], keychain, passed + own, i, i + 1, passed, own)
  {
    hide AllPass, SubjectsOf, ZonesSubjects, ZoneFails;
    assert p.roles[i + 1..i + 1] == [];
    assert [] + ZonesSubjects(p.top, p.roles[..i]) == ZonesSubjects(p.top, p.roles[..i]);
  }

  lemma StoppedSkips(p: Plan, keychain: map<string, Item>, checks: seq<Check>, z: nat, i: nat, passed: seq<Check>,
      own: seq<Check>)
    requires i < |p.roles| && StoppedAt(p, [], keychain, checks, z, i, passed, own)
    ensures StoppedAt(p, [], keychain, checks + [Check(ZoneItself(p.roles[i]), Warn)], z, i + 1, passed, own)
  {
    hide AllPass, SubjectsOf, ZonesSubjects, ZoneFails, Skips;
    SkipsStep(p.roles, z + 1, i);
  }

  lemma ZoneFailsFails(p: Plan, role: Role, keychain: map<string, Item>, own: seq<Check>)
    requires ZoneFails(p, role, keychain, own)
    ensures HasFail(own)
  {
    hide FailsAlong, Missing, ZoneSubjects, HasFail;
    if own == Missing(Consumed(p.entries, role), keychain) {
      MissingFails(Consumed(p.entries, role), keychain);
      if own != [] { AllFailFails(own); }
    }
    if FailsAlong(ZoneSubjects(p.top, role), own) { FailsAlongFails(ZoneSubjects(p.top, role), own); }
  }

  lemma StoppedIsStopped(
    p: Plan, before: seq<Subject>, keychain: map<string, Item>, checks: seq<Check>, z: nat, passed: seq<Check>,
    own: seq<Check>)
    requires StoppedAt(p, before, keychain, checks, z, |p.roles|, passed, own)
    ensures StoppedSomewhere(p, before, keychain, checks) && !AllPass(checks)
  {
    hide SubjectsOf, ZonesSubjects, ZoneFails, Skips;
    ZoneFailsFails(p, p.roles[z], keychain, own);
    var c: Check :| c in own && c.status == Fail;
    assert c in checks;
  }

  /** After a clean start, a report that stops at a zone still does. */
  lemma StoppedLater(p: Plan, first: seq<Check>, keychain: map<string, Item>, checks: seq<Check>)
    requires AllPass(first) && StoppedSomewhere(p, [], keychain, checks)
    ensures StoppedSomewhere(p, SubjectsOf(first), keychain, first + checks) && !AllPass(first + checks)
  {
    hide SubjectsOf, ZonesSubjects, ZoneFails, Skips, AllPass;
    var z: nat, passed: seq<Check>, own: seq<Check> :| StoppedAt(p, [], keychain, checks, z, |p.roles|, passed, own);
    PassAndPass(first, passed);
    SubjectsConcat(first, passed);
    var skips := Skips(p.roles[z + 1..|p.roles|]);
    assert first + (passed + own + skips) == (first + passed) + own + skips;
    assert [] + ZonesSubjects(p.top, p.roles[..z]) == ZonesSubjects(p.top, p.roles[..z]);
    StoppedIsStopped(p, SubjectsOf(first), keychain, first + checks, z, first + passed, own);
  }

  lemma NothingPassed()
    ensures AllPass([])
  {
  }

  // ---- The command --------------------------------------------------------

  /** A report that goes along some steps: all of it passes but the last, and
      the steps are the first ones, in order. */
  lemma FailsAlongMeans(subjects: seq<Subject>, checks: seq<Check>)
    requires FailsAlong(subjects, checks)
    ensures 0 < |checks| <= |subjects| && checks[|checks| - 1] == Check(subjects[|checks| - 1], Fail)
    ensures forall i :: 0 <= i < |checks| - 1 ==> checks[i] == Check(subjects[i], Pass)
  {
    SubjectsAt(checks);
    forall i | 0 <= i < |checks| - 1 ensures checks[i].status == Pass {
      assert checks[..|checks| - 1][i] in checks[..|checks| - 1];
    }
  }

  lemma {:induction false} SubjectsAt(checks: seq<Check>)
    ensures |SubjectsOf(checks)| == |checks|
    ensures forall i :: 0 <= i < |checks| ==> SubjectsOf(checks)[i] == checks[i].subject
  {
    if checks != [] { SubjectsAt(checks[..|checks| - 1]); }
  }

  /** A report of `up` that is not clean though every user secret is set: the
      machine or a network failed and nothing came after, or zone `z` did. Then
      what came before it passed, its own checks end in a failure, and each later
      zone is one warning at the end. */
  lemma StoppedReport(p: Plan, s: Sys, run: seq<Step>, s': Sys, cancelled: bool, checks: seq<Check>, err: Err)
    requires UpEnds(p, s, run, s', cancelled, checks, err) && err.NoErr?
    requires AllUsersSet(p.entries, p.roles, s) && !AllPass(checks)
    ensures StopsEarly(p, checks) || exists z: nat :: StopsAtZone(p, checks, z)
  {
    hide Promising, Goal, AllUsersSet, AllUnsetUsers, PlayedPrefix, Plays, WorkloadsOf, Unbroken, Explained;
    hide OnlyPeeks, Answered, AllPass, Faultless, SubjectsOf, UpSubjects, FailsAlong, StoppedAt, ZonesSubjects;
    hide NetworkSubjects;
    if FailsAlong(FirstSubjects(p), checks) {
      NetworkSubjectsAt(p.roles);
      FailsAlongMeans(FirstSubjects(p), checks);
    } else {
      var z: nat, passed: seq<Check>, own: seq<Check> :|
        StoppedAt(p, FirstSubjects(p), s'.keychain, checks, z, |p.roles|, passed, own);
      StoppedZone(p, s'.keychain, checks, z, passed, own);
    }
  }

  /** The machine or a network failed, and nothing was tried after it. */
  ghost predicate StopsEarly(p: Plan, checks: seq<Check>) {
    && 0 < |checks| <= |p.roles| + 1
    && checks[|checks| - 1].status == Fail
    && checks[0].subject == MachineItself
    && (forall i :: 0 < i < |checks| ==> checks[i].subject == ZoneNetwork(p.roles[i - 1]))
    && (forall i :: 0 <= i < |checks| - 1 ==> checks[i].status == Pass)
  }

  /** The report up to the failure of zone `z`, then one warning per later zone. */
  ghost predicate StopsAtZone(p: Plan, checks: seq<Check>, z: nat) {
    && z < |p.roles| && |checks| > |p.roles| + 1 + (|p.roles| - 1 - z)
    && (forall i :: 0 <= i <= |p.roles| ==> checks[i].status == Pass)
    && checks[|checks| - (|p.roles| - z)].status == Fail
    && (forall j :: z < j < |p.roles| ==>
      checks[|checks| - |p.roles| + j] == Check(ZoneItself(p.roles[j]), Warn))
  }

  lemma StoppedZone(
    p: Plan, keychain: map<string, Item>, checks: seq<Check>, z: nat, passed: seq<Check>, own: seq<Check>)
    requires StoppedAt(p, FirstSubjects(p), keychain, checks, z, |p.roles|, passed, own)
    ensures StopsAtZone(p, checks, z)
  {
    hide SubjectsOf, ZonesSubjects, NetworkSubjects, ZoneFails;
    NetworkSubjectsAt(p.roles);
    SubjectsLength(passed);
    SkipsAre(p.roles[z + 1..]);
    assert p.roles[z + 1..|p.roles|] == p.roles[z + 1..];
    OwnEndsInFailure(p, p.roles[z], keychain, own);
    forall i | 0 <= i <= |p.roles| ensures checks[i].status == Pass { assert passed[i] in passed; }
  }

  lemma OwnEndsInFailure(p: Plan, role: Role, keychain: map<string, Item>, own: seq<Check>)
    requires ZoneFails(p, role, keychain, own)
    ensures own != [] && own[|own| - 1].status == Fail
  {
    hide SubjectsOf, Missing, ZoneSubjects;
    MissingFails(Consumed(p.entries, role), keychain);
    if !FailsAlong(ZoneSubjects(p.top, role), own) { assert own[|own| - 1] in own; }
  }

  /** A warning in a report of `up` always comes after a failure. */
  lemma WarningsFollowFailure(p: Plan, keychain: map<string, Item>, checks: seq<Check>, j: nat)
    requires UpReport(p, keychain, checks) && j < |checks| && checks[j].status == Warn
    ensures exists i :: 0 <= i < j && checks[i].status == Fail
  {
    hide SubjectsOf, ZonesSubjects, UpSubjects, FirstSubjects, Skips, Missing, ZoneSubjects;
    if FailsAlong(FirstSubjects(p), checks) { NoWarning(FirstSubjects(p), checks, j); }
    if StoppedSomewhere(p, FirstSubjects(p), keychain, checks) {
      var z: nat, passed: seq<Check>, own: seq<Check> :|
        StoppedAt(p, FirstSubjects(p), keychain, checks, z, |p.roles|, passed, own);
      OwnHasNoWarning(p, p.roles[z], keychain, own);
      ZoneFailsFails(p, p.roles[z], keychain, own);
      var c: Check :| c in own && c.status == Fail;
      var i :| 0 <= i < |own| && own[i] == c;
      assert checks[|passed| + i] == c;
      forall k | 0 <= k < |passed| ensures checks[k].status == Pass { assert passed[k] in passed; }
      forall k | |passed| <= k < |passed| + |own| ensures checks[k].status != Warn {
        assert checks[k] == own[k - |passed|];
      }
      assert j >= |passed| + |own|;
    }
  }

  lemma NoWarning(subjects: seq<Subject>, checks: seq<Check>, j: nat)
    requires FailsAlong(subjects, checks) && j < |checks|
    ensures checks[j].status != Warn
  {
    hide SubjectsOf;
    if j < |checks| - 1 { assert checks[..|checks| - 1][j] in checks[..|checks| - 1]; }
  }

  lemma OwnHasNoWarning(p: Plan, role: Role, keychain: map<string, Item>, own: seq<Check>)
    requires ZoneFails(p, role, keychain, own)
    ensures forall j :: 0 <= j < |own| ==> own[j].status != Warn
  {
    hide FailsAlong, Missing, ZoneSubjects;
    MissingFails(Consumed(p.entries, role), keychain);
    forall j | 0 <= j < |own| ensures own[j].status != Warn {
      if FailsAlong(ZoneSubjects(p.top, role), own) {
        NoWarning(ZoneSubjects(p.top, role), own, j);
      } else {
        assert own[j] in own;
      }
    }
  }

  lemma ReadyWhenClosed(p: Plan, a: State, b: State, r: Role, w: string)
    requires GoodPlan(p) && Continues(a, b) && a.command == Command.Up(p)
    requires Closed(p, a.sys) && SelectedNetworksExist(p, b.sys) && InPlan(p, r, w)
    ensures NetworksReady(p, b.sys, r, w)
  {
    hide Continues, IsCatalogue, NetworksOf, Joins, InPlan;
    NetworksStay(p, a, b);
    forall n | n in NetworksOf(ZoneOf(p.top, r), w) ensures n in b.sys.networks {
      JoinsOnlyZones(ZoneOf(p.top, r), w, n);
      var x: Role :| n == x.NetworkName();
      JoinsMeans(p.top, r, w, x);
    }
  }

  lemma NetworksStay(p: Plan, a: State, b: State)
    requires Continues(a, b) && a.command == Command.Up(p)
    ensures !a.sys.machine.NoMachine? ==> forall n :: n in a.sys.networks ==> n in b.sys.networks
  {
    hide Sound, InSync, AsPlanned, InPlan, Faultless, Unbroken;
  }

  /** What a faultless `up` needs of the world it starts in. */
  ghost predicate Promising(p: Plan, s: Sys) {
    s.hasKeychain && AllUsersSet(p.entries, p.roles, s) && Closed(p, s) && Served(p, s)
  }

  lemma ServedKept(p: Plan, a: State, b: State)
    requires Continues(a, b) && a.command == Command.Up(p) && Unbroken(b.trace) && Served(p, a.sys)
    ensures Served(p, b.sys)
  {
    hide Continues, Consumed, Unbroken, Serving, BringsLiteLLM;
    KeychainKept(a, b);
    if Serving(a.sys) { ServingKept(a, b); }
    if NeedsLiteLLM(p, b.sys) && Services !in p.roles {
      var r, e :| Unminted(p, b.sys, r, e);
      assert Unminted(p, a.sys, r, e);
    }
  }

  lemma PromisingIsFavourable(p: Plan, a: State, b: State)
    requires GoodPlan(p) && Continues(a, b) && a.command == Command.Up(p) && SelectedNetworksExist(p, b.sys)
    requires Unbroken(b.trace)
    ensures Promising(p, a.sys) ==> AllFavourable(p, b.sys)
  {
    hide Continues, Consumed, GoodPlan, NetworksReady, Closed, SelectedNetworksExist, Served, Unbroken;
    if Promising(p, a.sys) {
      KeychainKept(a, b);
      SameCommand(a, b);
      ServedKept(p, a, b);
      forall r | r in p.roles ensures UsersSet(Consumed(p.entries, r), b.sys) && AllReady(p, b.sys, r) {
        assert UsersSet(Consumed(p.entries, r), a.sys);
        InPlanMeans(p, r);
        forall w | w in ZoneOf(p.top, r).workloads ensures NetworksReady(p, b.sys, r, w) {
          ReadyWhenClosed(p, a, b, r, w);
        }
      }
    }
  }

  /** How a run of `up` from `s` may end. */
  ghost predicate UpEnds(p: Plan, s: Sys, run: seq<Step>, s': Sys, cancelled: bool, checks: seq<Check>, err: Err) {
    // a clean report means the goal is reached, everything was played and no call failed
    && (err.NoErr? && AllPass(checks) ==>
      && Goal(p, s') && Plays(run) == WorkloadsOf(p.top, p.roles) && Unbroken(run)
      && (Services in p.roles ==> Answered(run)))
    // without a fault, nothing but a missing user secret, a missing keychain, an open bridge or a missing
    // LiteLLM prevents it
    && (Faultless(run) && !cancelled && Promising(p, s) ==> err.NoErr? && AllPass(checks))
    // workloads are played in order, without gaps
    && PlayedPrefix([], Plays(run), WorkloadsOf(p.top, p.roles))
    // a missing keychain or user secret stops the command before anything is touched
    && (!s.hasKeychain || !AllUsersSet(p.entries, p.roles, s) ==> OnlyPeeks(run) && s' == s)
    && (err.NoErr? ==> s.hasKeychain)
    // an error has one of three reasons; a failure of anything else is in the report instead
    && Explained(s.hasKeychain, cancelled, run, err)
    // the report: a failure per user secret that is not set, or how far the command came
    && (err.NoErr? && !AllUsersSet(p.entries, p.roles, s) ==>
      checks == AllUnsetUsers(p.entries, p.roles, s.keychain) && checks != [])
    && (err.NoErr? && AllUsersSet(p.entries, p.roles, s) ==> UpReport(p, s'.keychain, checks))
  }

  /** Without a fault and a cancellation `up` returns an error exactly when the
      keychain file is missing: every other failure is in the report. */
  lemma UpErrsIff(p: Plan, s: Sys, run: seq<Step>, s': Sys, checks: seq<Check>, err: Err)
    requires UpEnds(p, s, run, s', false, checks, err) && Faultless(run)
    ensures err.NoErr? <==> s.hasKeychain
  {
    hide Promising, Goal, AllUsersSet, AllUnsetUsers, UpReport, PlayedPrefix, Plays, WorkloadsOf, Unbroken, Explained;
    hide OnlyPeeks, Answered, AllPass, Faultless;
    if s.hasKeychain { FaultlessErrs(s.hasKeychain, false, run, err); }
  }

  lemma UserCheckEnds(p: Plan, a: State, b: State, checks: seq<Check>, err: Err)
    requires a.trace == [] && Peeked(a, b)
    requires err.NoErr? ==> b.sys.hasKeychain && checks == AllUnsetUsers(p.entries, p.roles, b.sys.keychain)
    requires Explained(b.sys.hasKeychain, b.cancelled, b.trace, err)
    requires !err.NoErr? || checks != []
    ensures UpEnds(p, a.sys, b.trace, b.sys, b.cancelled, checks, err)
  {
    hide Continues, AllUsersSet, Faultless, WorkloadsOf, AllUnsetUsers, Goal, Closed, UpReport, Unbroken;
    hide Served, FaultedLast, Answered;
    if Faultless(b.trace) && !b.cancelled && b.sys.hasKeychain {
      FaultlessErrs(b.sys.hasKeychain, b.cancelled, b.trace, err);
    }
    assert Plays(a.trace) == [];
    PlayedNone([], WorkloadsOf(p.top, p.roles));
    AllUnsetUsersMeans(p.entries, p.roles, a.sys);
    if err.NoErr? { AllFailFails(checks); }
  }

  lemma NothingYet(p: Plan, s: Sys, run: seq<Step>, cancelled: bool, checks: seq<Check>, err: Err, s': Sys)
    requires s.hasKeychain && AllUsersSet(p.entries, p.roles, s)
    requires Plays(run) == []
    requires err.NoErr? ==> FailsAlong(FirstSubjects(p), checks)
    requires !(Faultless(run) && !cancelled) && Explained(s.hasKeychain, cancelled, run, err)
    ensures UpEnds(p, s, run, s', cancelled, checks, err)
  {
    hide Served, Explained, Answered;
    hide AllUsersSet, Faultless, WorkloadsOf, AllUnsetUsers, Goal, Closed, SubjectsOf, UpSubjects;
    hide FirstSubjects, Plays, Unbroken, FailsAlong, StoppedSomewhere;
    PlayedNone([], WorkloadsOf(p.top, p.roles));
    if err.NoErr? { FailsAlongFails(FirstSubjects(p), checks); }
  }

  lemma ZonesEnd(p: Plan, s: Sys, b: State, c: State, passed: seq<Check>, more: seq<Check>, err: Err)
    requires s.hasKeychain && AllUsersSet(p.entries, p.roles, s) && Plays(b.trace) == [] && AllPass(passed)
    requires PlayedPrefix(Plays(b.trace), Plays(c.trace), WorkloadsOf(p.top, p.roles))
    requires err.NoErr? && !AllPass(more) ==> StoppedSomewhere(p, [], c.sys.keychain, more)
    requires err.NoErr? && AllPass(more) ==>
      Zoning(p, b, c, |p.roles|) && SubjectsOf(more) == ZonesSubjects(p.top, p.roles)
    requires SubjectsOf(passed) == FirstSubjects(p) && Explained(s.hasKeychain, c.cancelled, c.trace, err)
    requires Faultless(c.trace) && !c.cancelled && Promising(p, s) ==> err.NoErr? && AllPass(more)
    ensures UpEnds(p, s, c.trace, c.sys, c.cancelled, passed + more, err)
  {
    hide AllUsersSet, Faultless, WorkloadsOf, AllUnsetUsers, Promising, Plays, AllPass, PlayedPrefix;
    hide Continues, ZonesUp, SubjectsOf, Explained, Answered;
    hide ZonesSubjects, NetworkSubjects, Unbroken, FailsAlong, StoppedSomewhere, Zoning, Goal;
    if err.NoErr? {
      if AllPass(more) {
        PassAndPass(passed, more);
        SubjectsConcat(passed, more);
        ZoningIsGoal(p, b, c);
      } else {
        StoppedLater(p, passed, c.sys.keychain, more);
      }
    }
  }

  lemma ZoningIsGoal(p: Plan, b: State, c: State)
    requires Zoning(p, b, c, |p.roles|)
    ensures Goal(p, c.sys) && Plays(c.trace) == Plays(b.trace) + WorkloadsOf(p.top, p.roles) && Unbroken(c.trace)
    ensures Services in p.roles ==> Answered(c.trace)
  {
    hide Continues, Unbroken, SelectedNetworksExist, ZonesUp, Plays, WorkloadsOf, Answered;
    assert p.roles[..|p.roles|] == p.roles;
  }

  /** The machine, then the networks. */
  method Prepare(host: Host, top: Topology, roles: seq<Role>) returns (checks: seq<Check>, ok: bool, err: Err)
    requires host.Valid() && host.command.Up? && Unbroken(host.trace)
    requires top == host.command.plan.top && roles == host.command.plan.roles
    modifies host
    ensures Continues(old(host.Now()), host.Now()) && Plays(host.trace) == Plays(old(host.trace))
    ensures ok ==>
      err.NoErr? && AllPass(checks) && Unbroken(host.trace) && host.sys.machine.Running? &&
      NetworksUpTo(roles, host.sys)
    ensures ok ==> SubjectsOf(checks) == [MachineItself] + NetworkSubjects(roles)
    ensures !ok && err.NoErr? ==> FailsAlong([MachineItself] + NetworkSubjects(roles), checks)
    ensures Explained(host.sys.hasKeychain, host.cancelled, host.trace, err)
    ensures Faultless(host.trace) && !host.cancelled ==> ok
  {
    hide Sound, Continues, Faultless, Unbroken, Plays, NetworksUpTo, FailsAlong, SubjectsOf, NetworkSubjects;
    ghost var a := host.Now();
    var check;
    check, ok := EnsureMachine(host);
    ghost var b := host.Now();
    SameCommand(a, b);
    var stop := host.CtxErr();
    ghost var c := host.Now();
    ContinuesTransitive(a, b, c);
    if stop { return [], false, Canceled; }
    checks := [check];
    SubjectsOfOne(check);
    if !ok {
      FailsFirst(check);
      FailsEarlier([MachineItself], checks, NetworkSubjects(roles));
      return checks, false, NoErr;
    }
    SameCommand(b, c);
    var more;
    more, ok, err := EnsureNetworks(host, top, roles);
    ContinuesTransitive(a, c, host.Now());
    if !ok && err.NoErr? { FailsLater([MachineItself], checks, NetworkSubjects(roles), more); }
    SameCommand(c, host.Now());
    SubjectsConcat(checks, more);
    checks := checks + more;
  }

  /** `lclaw up`. Nothing is called for when the scaffold does not load. */
  method Up(host: Host, scaffold: Scaffold, roles: seq<Role>) returns (checks: seq<Check>, err: Err, ghost p: Plan)
    requires InZoneOrder(roles)
    modifies host
    ensures !(scaffold.Decoded? && WellFormed(scaffold.top, scaffold.files)) ==>
      host.sys == old(host.sys) && !err.NoErr? && checks == []
    ensures scaffold.Decoded? && WellFormed(scaffold.top, scaffold.files) ==>
      && GoodPlan(p) && p.top == scaffold.top && p.roles == roles
      && RunOf(Command.Up(p), old(host.sys), host.trace, host.sys)
      && UpEnds(p, old(host.sys), host.trace, host.sys, host.cancelled, checks, err)
  {
    hide WellFormed, Usable, IsCatalogue, RunOf, UpEnds, InZoneOrder;
    var top, entries;
    top, entries, err := Load(scaffold);
    p := Plan(top, entries, roles);
    if !err.NoErr? { return [], err, p; }
    host.Begin(Command.Up(p));
    checks, err := RunUp(host, top, entries, roles);
  }

  method RunUp(host: Host, top: Topology, entries: seq<SecretSpec>, roles: seq<Role>)
    returns (checks: seq<Check>, err: Err)
    requires host.Valid() && host.trace == [] && host.start == host.sys
    requires host.command == Command.Up(Plan(top, entries, roles))
    modifies host
    ensures RunOf(host.command, old(host.sys), host.trace, host.sys)
    ensures host.command == old(host.command)
    ensures UpEnds(host.command.plan, old(host.sys), host.trace, host.sys, host.cancelled, checks, err)
  {
    hide Sound, Continues, Peeked, Faultless, Unbroken, Plays, UpEnds, AllUsersSet, AllUnsetUsers;
    hide NetworksUpTo, AllPass, WorkloadsOf, Zoning, FailsAlong, StoppedSomewhere, PlayedPrefix;
    hide AllFavourable, Promising, GoodPlan, SubjectsOf, ZonesSubjects, NetworkSubjects, Explained;
    ghost var a, p := host.Now(), Plan(top, entries, roles);
    NothingBroken(a);
    checks, err := CheckUsers(host, entries, roles);
    ghost var b := host.Now();
    PeekedMeans(a, b);
    SoundRun(a, b);
    if !err.NoErr? || |checks| > 0 {
      UserCheckEnds(p, a, b, checks, err);
      return;
    }
    AllUnsetUsersMeans(entries, roles, a.sys);
    var ok;
    checks, ok, err := Prepare(host, top, roles);
    ghost var c := host.Now();
    ContinuesTransitive(a, b, c);
    SoundRun(a, c);
    SameCommand(a, c);
    if !ok {
      NothingYet(p, a.sys, host.trace, host.cancelled, checks, err, host.sys);
      return;
    }
    StartZoning(p, c);
    SoundPlan(c);
    PromisingIsFavourable(p, a, c);
    var more;
    more, err := ApplyZones(host, top, entries, roles, p);
    ghost var d := host.Now();
    ContinuesTransitive(a, c, d);
    SoundRun(a, d);
    SameCommand(a, d);
    ZonesEnd(p, a.sys, c, d, checks, more, err);
    checks := checks + more;
  }

  lemma NothingBroken(a: State)
    requires a.trace == []
    ensures Unbroken(a.trace) && Plays(a.trace) == []
  {
  }

  lemma PeekedMeans(a: State, b: State)
    requires Peeked(a, b)
    ensures Continues(a, b) && b.sys == a.sys && Plays(b.trace) == Plays(a.trace)
  {
  }

  lemma SoundRun(a: State, b: State)
    requires Continues(a, b) && a.start == a.sys
    ensures RunOf(a.command, a.sys, b.trace, b.sys) && b.command == a.command && Sound(b)
  {
    hide RunOf, GoodPlan, Grows, Faultless, Unbroken;
  }

  lemma StartZoning(p: Plan, c: State)
    requires c.command == Command.Up(p) && Sound(c) && Unbroken(c.trace) && c.sys.machine.Running?
    requires NetworksUpTo(p.roles, c.sys)
    ensures Zoning(p, c, c, 0) && SelectedNetworksExist(p, c.sys)
  {
    hide Sound, Unbroken, Continues;
    ContinuesReflexive(c);
    assert p.roles[..0] == [];
  }
}

/** The two secret steps of `up` and the one of `down`
    (internal/app/lifecycle_secrets.go). */
module SecretSteps {
  import opened Text
  import opened Roles
  import opened Reports
  import opened Catalogues
  import opened Topologies
  import opened WellFormedness
  import opened Systems
  import opened Rules
  import opened Hosts

  datatype Err =
    | NoErr
    | Canceled
    | NoScaffold
    | BadTopology
    | DestroyNeedsEveryZone
    | KeychainMissing
    | KeychainBroken
    | ValueBroken
    | MinterUnavailable
    | StoreBroken
    | UnknownSecret
    | BadValue
    | AlreadySet
    | NotSet
    | NotGeneratable

  /** Commands that report every failure return an error only when cancelled. */
  predicate OnlyCancelled(cancelled: bool, err: Err) {
    err.NoErr? || (err.Canceled? && cancelled)
  }

  /** The last call faulted. */
  ghost predicate FaultedLast(run: seq<Step>) {
    run != [] && run[|run| - 1].outcome.Fault?
  }

  predicate AsksKeychain(e: Event) {
    e.KeychainExists? || e.KeychainGet? || e.KeychainDescribe? || e.KeychainPut?
  }

  /** What makes `up` return an error: a cancellation, a missing keychain file, or
      a keychain or generator whose call, the last one, faulted. */
  ghost predicate Explained(hasKeychain: bool, cancelled: bool, run: seq<Step>, err: Err) {
    match err
    case NoErr => true
    case Canceled => cancelled
    case KeychainMissing => !hasKeychain
    case KeychainBroken => FaultedLast(run) && AsksKeychain(run[|run| - 1].event)
    case ValueBroken => FaultedLast(run) && run[|run| - 1].event.Generate?
    case _ => false
  }

  lemma FaultlessErrs(hasKeychain: bool, cancelled: bool, run: seq<Step>, err: Err)
    requires Explained(hasKeychain, cancelled, run, err) && Faultless(run) && !cancelled && hasKeychain
    ensures err.NoErr?
  {
  }

  lemma SawFault(a: State, e: Event, o: Outcome, b: State)
    requires Did(a, e, o, b) && o.Fault?
    ensures FaultedLast(b.trace) && b.trace[|b.trace| - 1].event == e
  {
    hide Continues, Effect, Accepts, Interrupted, Faultless, Unbroken, Plays, Downed, Stops, Removes;
  }

  datatype ResolvedSecret = ResolvedSecret(name: string, value: Value)

  // ---- Facts about the catalogue ------------------------------------------

  lemma MasterKeyValid() ensures ValidName(MASTER_KEY) {}
  lemma SaltKeyValid() ensures ValidName(SALT_KEY) {}
  lemma DbPasswordValid() ensures ValidName(DB_PASSWORD) {}
  lemma GatewayTokenValid() ensures ValidName(GATEWAY_TOKEN) {}
  lemma AgentKeyValid() ensures ValidName(AGENT_KEY) {}

  lemma BuiltinNamesValid(b: SecretSpec)
    requires b in BUILTIN
    ensures ValidName(b.name)
  {
    hide ValidName, MASTER_KEY, SALT_KEY, DB_PASSWORD, GATEWAY_TOKEN, AGENT_KEY;
    MasterKeyValid(); SaltKeyValid(); DbPasswordValid(); GatewayTokenValid(); AgentKeyValid();
  }

  lemma EntryNamesValid(declared: map<string, seq<string>>, entries: seq<SecretSpec>, e: SecretSpec)
    requires IsCatalogue(BUILTIN, declared, entries) && e in entries
    ensures ValidName(e.name)
    ensures !e.source.User? ==> e in BUILTIN
  {
    hide ValidName;
    if e in BUILTIN { BuiltinNamesValid(e); }
  }

  lemma GatewayBeforeAgent()
    ensures AtMost(GATEWAY_TOKEN, AGENT_KEY)
  {
    AtMostFrom(GATEWAY_TOKEN, AGENT_KEY, 9);
  }

  lemma AgentKeyIsLast()
    ensures AtMost(MASTER_KEY, AGENT_KEY) && AtMost(SALT_KEY, AGENT_KEY) && AtMost(DB_PASSWORD, AGENT_KEY)
    ensures AtMost(GATEWAY_TOKEN, AGENT_KEY) && AtMost(AGENT_KEY, AGENT_KEY)
  {
    AtMostFrom(MASTER_KEY, AGENT_KEY, 0);
    AtMostFrom(SALT_KEY, AGENT_KEY, 0);
    AtMostFrom(DB_PASSWORD, AGENT_KEY, 0);
    GatewayBeforeAgent();
    AtMostTotal(AGENT_KEY, AGENT_KEY);
  }

  lemma MintedIsLastBuiltin(b: SecretSpec)
    requires b in BUILTIN
    ensures b.source.Minted? ==> b.name == AGENT_KEY
    ensures AtMost(b.name, AGENT_KEY)
  {
    hide AtMost, MASTER_KEY, SALT_KEY, DB_PASSWORD, GATEWAY_TOKEN, AGENT_KEY;
    AgentKeyIsLast();
  }

  /** In every zone's list, whatever follows a minted entry is the user's. */
  ghost predicate MintedLast(specs: seq<SecretSpec>) {
    forall i, j :: 0 <= i < j < |specs| && specs[i].source.Minted? ==> specs[j].source.User?
  }

  lemma ZoneMintsLast(declared: map<string, seq<string>>, entries: seq<SecretSpec>, r: Role)
    requires IsCatalogue(BUILTIN, declared, entries)
    ensures MintedLast(Consumed(entries, r))
  {
    hide IsCatalogue, ValidName;
    var specs := Consumed(entries, r);
    assert SortedByName(entries) by { CatalogueSorted(declared, entries); }
    ConsumedIsFilter(entries, r);
    ConsumedIsSorted(entries, r);
    forall i, j | 0 <= i < j < |specs| && specs[i].source.Minted? ensures specs[j].source.User? {
      assert specs[i] in specs && specs[j] in specs;
      EntryNamesValid(declared, entries, specs[i]);
      EntryNamesValid(declared, entries, specs[j]);
      if !specs[j].source.User? {
        MintedIsLastBuiltin(specs[i]);
        MintedIsLastBuiltin(specs[j]);
        AtMostAntisymmetric(specs[i].name, specs[j].name);
      }
    }
  }

  /** What resolving may rely on about each entry of a selected zone. */
  lemma ConsumedFacts(p: Plan, r: Role, e: SecretSpec)
    requires GoodPlan(p) && r in p.roles && e in Consumed(p.entries, r)
    ensures e in p.entries && r in e.zones && ValidName(e.name)
    ensures Consumes(p, e.name) && Sourced(p.entries, e.name, e.source)
  {
    hide ValidName, Usable;
    var declared := Declared(p.top.zones, |p.top.zones|);
    ConsumedIsFilter(p.entries, r);
    EntryNamesValid(declared, p.entries, e);
  }

  // ---- Resolve ------------------------------------------------------------

  method RequireKeychain(host: Host) returns (err: Err, ghost outcome: Outcome)
    requires host.Valid()
    modifies host
    ensures Saw(old(host.Now()), KeychainExists, outcome, host.Now())
    ensures !outcome.Refused?
    ensures err == if !outcome.Done? then KeychainBroken else if !host.sys.hasKeychain then KeychainMissing else NoErr
    ensures Explained(host.sys.hasKeychain, host.cancelled, host.trace, err)
  {
    var o, found := host.KeychainExists();
    outcome := o;
    err := if !o.Done? then KeychainBroken else if !found then KeychainMissing else NoErr;
  }

  /** How the lookup of one entry ends: its value, a finding, or an error that
      ends the command. */
  datatype Resolution = Got(value: Value) | Unset | Stop(err: Err)

  /** Asks the minter or the generator, as the entry's default source says. */
  method Produce(host: Host, spec: SecretSpec, ghost role: Role) returns (o: Outcome, value: Value)
    requires host.Valid() && host.command.Up?
    requires role in host.command.plan.roles && spec in Consumed(host.command.plan.entries, role)
    requires Unbroken(host.trace) && !spec.source.User?
    requires host.sys.machine.Running? && spec.name !in host.sys.keychain
    requires spec.source.Minted? ==> MayMintAfter(host.command.plan, host.trace)
    modifies host
    ensures Continues(old(host.Now()), host.Now()) && Plays(host.trace) == Plays(old(host.trace))
    ensures host.sys.keychain == old(host.sys).keychain && ValidValue(value)
    ensures o.Done? ==> Unbroken(host.trace) && host.Valid()
    ensures o.Done? && spec.source.Minted? ==> (value, host.sys.incarnation) in host.sys.issued
    ensures o.Done? ==> JustMade(host.trace, spec.name, value, spec.source)
    ensures !o.Done? && !spec.source.Minted? ==> FaultedLast(host.trace) && host.trace[|host.trace| - 1].event.Generate?
    ensures Faultless(host.trace) && (spec.source.Minted? ==> Serving(old(host.sys))) ==> o.Done?
  {
    hide Consumed, ValidName, ValidValue, May, Sound, Effect, Accepts, Grows, Faultless, Unbroken, Plays, MayMintAfter;
    hide Serving;
    MakingIsAllowed(host.Now(), spec, role, []);
    if spec.source.Minted? {
      o, value := host.Mint(spec.name);
    } else {
      o, value := host.Generate(spec.name);
    }
  }

  lemma MakingIsAllowed(a: State, spec: SecretSpec, role: Role, value: Value)
    requires Sound(a) && a.command.Up? && role in a.command.plan.roles && spec in Consumed(a.command.plan.entries, role)
    requires a.sys.machine.Running? && spec.name !in a.sys.keychain && !spec.source.User?
    ensures spec.source.Minted? ==> May(a.command, a.sys, Event.Mint(spec.name, []))
    ensures spec.source.Generated? ==> May(a.command, a.sys, Event.Generate(spec.name, []))
    ensures (spec.source.Minted? ==> (value, a.sys.incarnation) in a.sys.issued) ==>
      May(a.command, a.sys, Event.KeychainPut(spec.name, value, spec.source, false))
    ensures ValidName(spec.name)
  {
    hide Consumed, RunOf, Consumes, Sourced, ValidName, May, UpMay, GoodPlan, Sound;
    SoundPlan(a);
    ConsumedFacts(a.command.plan, role, spec);
    MayMakeMeans(a.command.plan, a.sys, spec.name, spec.source, value);
    UpMayIs(a.command, a.sys, Event.Mint(spec.name, []));
    UpMayIs(a.command, a.sys, Event.Generate(spec.name, []));
    UpMayIs(a.command, a.sys, Event.KeychainPut(spec.name, value, spec.source, false));
  }

  lemma SoundPlan(a: State)
    requires Sound(a) && a.command.Up?
    ensures GoodPlan(a.command.plan)
  {
  }

  /** A missing generated or minted entry is made and kept in the keychain. */
  method Make(host: Host, spec: SecretSpec, ghost role: Role) returns (r: Resolution)
    requires host.Valid() && host.command.Up?
    requires role in host.command.plan.roles && spec in Consumed(host.command.plan.entries, role)
    requires Unbroken(host.trace) && !spec.source.User?
    requires host.sys.machine.Running? && host.sys.hasKeychain && spec.name !in host.sys.keychain
    requires spec.source.Minted? ==> MayMintAfter(host.command.plan, host.trace)
    modifies host
    ensures Continues(old(host.Now()), host.Now()) && Plays(host.trace) == Plays(old(host.trace))
    ensures forall n :: n != spec.name ==> (n in host.sys.keychain <==> n in old(host.sys).keychain)
    ensures r.Got? ==> Unbroken(host.trace)
    ensures r.Got? ==> spec.name in host.sys.keychain && host.sys.keychain[spec.name] == Item(r.value, spec.source)
    ensures r.Unset? ==> spec.name !in host.sys.keychain && spec.source.Minted?
    ensures r.Stop? ==> !r.err.NoErr? && Explained(host.sys.hasKeychain, host.cancelled, host.trace, r.err)
    ensures Faultless(host.trace) && (spec.source.Minted? ==> Serving(old(host.sys))) ==> r.Got?
  {
    hide Consumed, ValidName, ValidValue, May, Sound, Effect, Accepts, Grows, Faultless, Unbroken, Plays, MayMintAfter;
    hide JustMade, Serving;
    ghost var a := host.Now();
    var o, value := Produce(host, spec, role);
    if !o.Done? { return if spec.source.Minted? then Unset else Stop(ValueBroken); }
    MakingIsAllowed(host.Now(), spec, role, value);
    ghost var b := host.Now();
    o := host.KeychainPut(spec.name, value, spec.source, false);
    ContinuesTransitive(a, b, host.Now());
    r := if o.Done? then Got(value) else Stop(KeychainBroken);
  }

  /** The entry has a value or gets one: generating always works, minting where
      LiteLLM is up. */
  ghost predicate Obtainable(e: SecretSpec, s: Sys) {
    e.name in s.keychain || e.source.Generated? || (e.source.Minted? && Serving(s))
  }

  ghost predicate Resolvable(specs: seq<SecretSpec>, s: Sys) {
    forall e :: e in specs ==> Obtainable(e, s)
  }

  lemma ObtainableKept(a: State, b: State, e: SecretSpec)
    requires Continues(a, b) && a.command.Up? && Unbroken(b.trace) && Obtainable(e, a.sys)
    ensures Obtainable(e, b.sys)
  {
    hide Sound, Faultless, Unbroken, AsPlanned, InPlan, InSync;
  }

  /** One entry: read it, or make it when it is missing and can be made. */
  method ResolveOne(host: Host, spec: SecretSpec, ghost role: Role) returns (r: Resolution)
    requires host.Valid() && host.command.Up?
    requires role in host.command.plan.roles && spec in Consumed(host.command.plan.entries, role)
    requires Unbroken(host.trace) || spec.source.User?
    requires host.sys.machine.Running? && host.sys.hasKeychain
    requires spec.source.Minted? ==> MayMintAfter(host.command.plan, host.trace)
    modifies host
    ensures Continues(old(host.Now()), host.Now()) && Plays(host.trace) == Plays(old(host.trace))
    ensures forall n :: n != spec.name ==> (n in host.sys.keychain <==> n in old(host.sys).keychain)
    ensures r.Got? ==> spec.name in host.sys.keychain && r.value == host.sys.keychain[spec.name].value
    ensures r.Unset? ==> spec.name !in host.sys.keychain && !spec.source.Generated?
    ensures (r.Got? || spec.source.User?) && Unbroken(old(host.trace)) && !r.Stop? ==> Unbroken(host.trace)
    ensures r.Stop? ==> !r.err.NoErr? && Explained(host.sys.hasKeychain, host.cancelled, host.trace, r.err)
    ensures Faultless(host.trace) && Obtainable(spec, old(host.sys)) ==> r.Got?
  {
    hide Consumed, Effect, Accepts, Grows, Faultless, Unbroken, Plays, Sound, MayMintAfter, Serving;
    ghost var a := host.Now();
    var o, value := host.KeychainGet(spec.name);
    ghost var b := host.Now();
    if o.Done? { return Got(value); }
    if !o.Refused? { return Stop(KeychainBroken); }
    if spec.source.User? { return Unset; }
    ContinuesSound(a, b);
    if spec.source.Minted? { MintableKept(a, b); }
    r := Make(host, spec, role);
    ContinuesTransitive(a, b, host.Now());
  }

  lemma ContinuesSound(a: State, b: State)
    requires Continues(a, b)
    ensures Sound(b)
  {
  }

  /** One failed check per entry that has no value, in order. */
  function Missing(specs: seq<SecretSpec>, keychain: map<string, Item>): seq<Check> {
    if specs == [] then []
    else
      var last := specs[|specs| - 1];
      Missing(specs[..|specs| - 1], keychain) + if last.name in keychain then [] else [Check(Secret(last.name), Fail)]
  }

  lemma {:induction false} MissingKept(specs: seq<SecretSpec>, k: map<string, Item>, k': map<string, Item>)
    requires forall e :: e in specs ==> (e.name in k <==> e.name in k')
    ensures Missing(specs, k) == Missing(specs, k')
  {
    if specs != [] { MissingKept(specs[..|specs| - 1], k, k'); }
  }

  lemma {:induction false} MissingFails(specs: seq<SecretSpec>, k: map<string, Item>)
    ensures AllFail(Missing(specs, k))
    ensures Missing(specs, k) == [] <==> forall e :: e in specs ==> e.name in k
  {
    if specs != [] {
      var init, last := specs[..|specs| - 1], specs[|specs| - 1];
      MissingFails(init, k);
      assert specs == init + [last];
      FailsOneMore(Missing(init, k), if last.name in k then [] else [Check(Secret(last.name), Fail)]);
    }
  }

  /** Entry by entry: nothing for one that has a value, else one failure. */
  lemma {:induction false} MissingAre(
    specs: seq<SecretSpec>, more: seq<SecretSpec>, e: SecretSpec, k: map<string, Item>)
    ensures Missing([], k) == []
    ensures Missing([e], k) == if e.name in k then [] else [Check(Secret(e.name), Fail)]
    ensures Missing(specs + more, k) == Missing(specs, k) + Missing(more, k)
    decreases |more|
  {
    assert [e][..0] == [];
    if more == [] {
      assert specs + more == specs;
    } else {
      MissingAre(specs, more[..|more| - 1], e, k);
      assert (specs + more)[..|specs + more| - 1] == specs + more[..|more| - 1];
    }
  }

  lemma FailsOneMore(checks: seq<Check>, more: seq<Check>)
    requires AllFail(checks) && AllFail(more)
    ensures AllFail(checks + more) && (checks + more == [] <==> checks == [] && more == [])
  {
  }

  /** `resolved` are the keychain's values of `specs`, in order. */
  ghost predicate Resolves(resolved: seq<ResolvedSecret>, specs: seq<SecretSpec>, s: Sys) {
    && |resolved| == |specs|
    && forall j :: 0 <= j < |specs| ==>
      && resolved[j].name == specs[j].name && specs[j].name in s.keychain
      && resolved[j].value == s.keychain[specs[j].name].value
  }

  lemma ResolvesKept(resolved: seq<ResolvedSecret>, specs: seq<SecretSpec>, a: State, b: State)
    requires Resolves(resolved, specs, a.sys) && Continues(a, b) && a.command.Up?
    ensures Resolves(resolved, specs, b.sys)
  {
    hide Sound, Faultless, Unbroken, AsPlanned, InPlan, InSync;
  }

  /** What the loop of `Resolve` knows after the entries `done`. */
  ghost predicate Resolving(a: State, b: State, done: seq<SecretSpec>, left: seq<SecretSpec>,
      resolved: seq<ResolvedSecret>, findings: seq<Check>)
  {
    && Continues(a, b) && Plays(b.trace) == Plays(a.trace)
    && findings == Missing(done, b.sys.keychain)
    && (findings == [] ==> Resolves(resolved, done, b.sys) && Unbroken(b.trace))
    && (Unbroken(b.trace) || forall e :: e in left ==> e.source.User?)
    && (Faultless(b.trace) && Resolvable(done + left, a.sys) ==> findings == [])
  }

  /** Only the entry just dealt with can have changed. */
  lemma MissingStep(done: seq<SecretSpec>, spec: SecretSpec, k: map<string, Item>, k': map<string, Item>)
    requires DistinctNames(done + [spec])
    requires forall n :: n != spec.name ==> (n in k' <==> n in k)
    ensures Missing(done + [spec], k') == Missing(done, k) +
      if spec.name in k' then [] else [Check(Secret(spec.name), Fail)]
  {
    assert (done + [spec])[..|done|] == done;
    forall e | e in done ensures e.name in k <==> e.name in k' {
      var i :| 0 <= i < |done| && done[i] == e;
      assert (done + [spec])[i].name != (done + [spec])[|done|].name;
    }
    MissingKept(done, k, k');
  }

  lemma ResolvingStep(a: State, b: State, c: State, done: seq<SecretSpec>, spec: SecretSpec, left: seq<SecretSpec>,
    resolved: seq<ResolvedSecret>, findings: seq<Check>, r: Resolution)
    requires Resolving(a, b, done, [spec] + left, resolved, findings)
    requires a.command.Up? && Continues(b, c) && Plays(c.trace) == Plays(b.trace)
    requires DistinctNames(done + [spec])
    requires spec.source.Minted? ==> forall e :: e in left ==> e.source.User?
    requires forall n :: n != spec.name ==> (n in c.sys.keychain <==> n in b.sys.keychain)
    requires !r.Stop?
    requires r.Got? ==> spec.name in c.sys.keychain && r.value == c.sys.keychain[spec.name].value
    requires r.Unset? ==> spec.name !in c.sys.keychain && !spec.source.Generated?
    requires (r.Got? || spec.source.User?) && Unbroken(b.trace) ==> Unbroken(c.trace)
    requires Faultless(c.trace) && Obtainable(spec, b.sys) ==> r.Got?
    ensures Resolving(a, c, done + [spec], left,
      if r.Got? then resolved + [ResolvedSecret(spec.name, r.value)] else resolved,
      if r.Got? then findings else findings + [Check(Secret(spec.name), Fail)])
  {
    hide Sound, Faultless, Unbroken, Grows, Plays, Continues, Missing, Obtainable;
    ContinuesTransitive(a, b, c);
    SameCommand(a, b);
    SameCommand(b, c);
    MissingStep(done, spec, b.sys.keychain, c.sys.keychain);
    if findings == [] {
      ResolvesKept(resolved, done, b, c);
      if Obtainable(spec, a.sys) { ObtainableKept(a, b, spec); }
    }
    assert (done + [spec]) + left == done + ([spec] + left);
    assert spec in done + ([spec] + left);
    assert forall e :: e in [spec] + left <==> e == spec || e in left;
    KeychainKept(a, b);
  }

  lemma KeychainKept(a: State, b: State)
    requires Continues(a, b) && a.command.Up?
    ensures forall n :: n in a.sys.keychain ==> n in b.sys.keychain && b.sys.keychain[n] == a.sys.keychain[n]
  {
    hide Sound, Faultless, Unbroken;
    GrowsKeeps(a.command.plan, a.sys, b.sys);
  }

  /** Reads every entry the zone consumes, making what is missing. Findings are
      collected; an error ends the command. */
  method Resolve(host: Host, entries: seq<SecretSpec>, role: Role)
    returns (resolved: seq<ResolvedSecret>, findings: seq<Check>, err: Err)
    requires host.Valid() && host.command.Up? && entries == host.command.plan.entries && role in host.command.plan.roles
    requires Unbroken(host.trace) && host.sys.machine.Running?
    requires role == Agent ==> MayMintAfter(host.command.plan, host.trace)
    modifies host
    ensures Continues(old(host.Now()), host.Now()) && Plays(host.trace) == Plays(old(host.trace))
    ensures err.NoErr? ==> findings == Missing(Consumed(entries, role), host.sys.keychain)
    ensures err.NoErr? && findings == [] ==>
      Resolves(resolved, Consumed(entries, role), host.sys) && Unbroken(host.trace)
    ensures !err.NoErr? ==> findings == []
    ensures Explained(host.sys.hasKeychain, host.cancelled, host.trace, err)
    ensures Faultless(host.trace) && !host.cancelled ==>
      host.sys.hasKeychain && Resolvable(Consumed(entries, role), old(host.sys)) ==> err.NoErr? && findings == []
  {
    hide Consumed, Effect, Accepts, Faultless, Unbroken, Plays, RunOf, GoodPlan, Grows, MayMintAfter, Resolvable;
    hide Obtainable, FaultedLast, Resolving, Continues;
    ghost var a := host.Now();
    resolved, findings := [], [];
    ghost var o;
    err, o := RequireKeychain(host);
    ghost var s := host.Now();
    SawMeans(a, KeychainExists, o, s);
    if !err.NoErr? { return; }
    var specs := ForZone(entries, role);
    SameCommand(a, s);
    SoundPlan(s);
    ZoneSpecsFacts(host.command.plan, role);
    ResolvingStart(a, host.Now(), specs);
    for i := 0 to |specs|
      invariant Resolving(a, host.Now(), specs[..i], specs[i..], resolved, findings)
      invariant host.sys.hasKeychain && err.NoErr?
    {
      SplitAt(specs, i);
      resolved, findings, err :=
        ResolveNext(host, specs[i], role, resolved, findings, a, specs[..i], specs[i + 1..]);
      if !err.NoErr? {
        StopIsAFault(host.Now(), err);
        return [], [], err;
      }
    }
    assert specs[..|specs|] == specs && specs[|specs|..] == [];
    assert specs + [] == specs;
    ResolvingMeans(a, host.Now(), specs, resolved, findings);
  }

  lemma SawMeans(a: State, e: Event, o: Outcome, b: State)
    requires Saw(a, e, o, b)
    ensures Continues(a, b) && b.sys == a.sys && Plays(b.trace) == Plays(a.trace)
    ensures o.Done? && Unbroken(a.trace) ==> Unbroken(b.trace)
  {
    hide Continues, Effect, Accepts, Interrupted, Faultless, Unbroken, Plays, Downed, Stops, Removes;
  }

  lemma ResolvingMeans(a: State, b: State, specs: seq<SecretSpec>, resolved: seq<ResolvedSecret>, findings: seq<Check>)
    requires Resolving(a, b, specs, [], resolved, findings) && specs + [] == specs
    ensures Continues(a, b) && Plays(b.trace) == Plays(a.trace)
    ensures findings == Missing(specs, b.sys.keychain)
    ensures findings == [] ==> Resolves(resolved, specs, b.sys) && Unbroken(b.trace)
    ensures Faultless(b.trace) && Resolvable(specs, a.sys) ==> findings == []
  {
    hide Continues, Faultless, Unbroken, Plays, Resolvable, Missing, Resolves;
  }

  /** One more entry of the zone. */
  method ResolveNext(host: Host, spec: SecretSpec, role: Role, resolved0: seq<ResolvedSecret>, findings0: seq<Check>,
      ghost a: State, ghost done: seq<SecretSpec>, ghost left: seq<SecretSpec>)
    returns (resolved: seq<ResolvedSecret>, findings: seq<Check>, err: Err)
    requires Resolving(a, host.Now(), done, [spec] + left, resolved0, findings0) && host.sys.hasKeychain
    requires a.command.Up? && a.sys.machine.Running? && role in a.command.plan.roles
    requires spec in Consumed(a.command.plan.entries, role) && DistinctNames(done + [spec])
    requires spec.source.Minted? ==> forall e :: e in left ==> e.source.User?
    requires role == Agent ==> MayMintAfter(a.command.plan, a.trace)
    modifies host
    ensures Continues(a, host.Now()) && Plays(host.trace) == Plays(a.trace) && host.sys.hasKeychain
    ensures err.NoErr? ==> Resolving(a, host.Now(), done + [spec], left, resolved, findings)
    ensures Explained(host.sys.hasKeychain, host.cancelled, host.trace, err)
  {
    hide Consumed, Effect, Accepts, Faultless, Unbroken, Plays, Grows, Sound, MayMintAfter, Resolvable, Obtainable;
    hide FaultedLast, Continues, Missing, Resolves, GoodPlan;
    ghost var b := host.Now();
    SameCommand(a, b);
    resolved, findings := resolved0, findings0;
    var stop := host.CtxErr();
    ghost var c := host.Now();
    ContinuesTransitive(a, b, c);
    if stop { return resolved, findings, Canceled; }
    SameCommand(b, c);
    SoundPlan(c);
    if spec.source.Minted? {
      MintedIsAgents(c.command.plan, role, spec);
      MintableKept(a, c);
    }
    var r := ResolveOne(host, spec, role);
    ContinuesTransitive(b, c, host.Now());
    ContinuesTransitive(a, b, host.Now());
    SameCommand(b, host.Now());
    if r.Stop? { return resolved, findings, r.err; }
    ResolvingStep(a, b, host.Now(), done, spec, left, resolved, findings, r);
    if r.Got? {
      resolved := resolved + [ResolvedSecret(spec.name, r.value)];
    } else {
      findings := findings + [Check(Secret(spec.name), Fail)];
    }
    err := NoErr;
  }

  lemma MintableKept(a: State, b: State)
    requires Continues(a, b) && a.command.Up? && MayMintAfter(a.command.plan, a.trace)
    ensures MayMintAfter(b.command.plan, b.trace)
  {
    hide Sound, Grows, Faultless, Unbroken, MayMintAfter;
    AnsweredKept(a.command.plan, a.trace, b.trace);
  }

  /** Only the agent's zone consumes a minted entry. */
  lemma MintedIsAgents(p: Plan, role: Role, spec: SecretSpec)
    requires GoodPlan(p) && role in p.roles && spec in Consumed(p.entries, role) && spec.source.Minted?
    ensures role == Agent
  {
    hide ValidName, Usable, Consumed, MASTER_KEY, SALT_KEY, DB_PASSWORD, GATEWAY_TOKEN, AGENT_KEY;
    ConsumedFacts(p, role, spec);
    EntryNamesValid(Declared(p.top.zones, |p.top.zones|), p.entries, spec);
  }

  lemma SplitAt(specs: seq<SecretSpec>, i: nat)
    requires i < |specs|
    ensures specs[i..] == [specs[i]] + specs[i + 1..] && specs[..i + 1] == specs[..i] + [specs[i]]
    ensures specs[..i] + specs[i..] == specs
    ensures var left := specs[i + 1..]; forall e :: e in left ==> exists j :: i < j < |specs| && specs[j] == e
  {
  }

  lemma ZoneSpecsFacts(p: Plan, role: Role)
    requires GoodPlan(p) && role in p.roles
    ensures DistinctNames(Consumed(p.entries, role)) && MintedLast(Consumed(p.entries, role))
  {
    var declared := Declared(p.top.zones, |p.top.zones|);
    hide IsCatalogue, Usable;
    ZoneMintsLast(declared, p.entries, role);
    CatalogueSorted(declared, p.entries);
    ConsumedIsSorted(p.entries, role);
  }

  lemma ResolvingStart(a: State, b: State, specs: seq<SecretSpec>)
    requires Continues(a, b) && Plays(b.trace) == Plays(a.trace) && Unbroken(b.trace)
    ensures Resolving(a, b, specs[..0], specs[0..], [], [])
  {
  }

  lemma StopIsAFault(a: State, err: Err)
    requires Explained(a.sys.hasKeychain, a.cancelled, a.trace, err) && !err.NoErr? && a.sys.hasKeychain
    ensures !(Faultless(a.trace) && !a.cancelled)
  {
    hide Faultless, FaultedLast;
    if Faultless(a.trace) && !a.cancelled { FaultlessErrs(a.sys.hasKeychain, a.cancelled, a.trace, err); }
  }

  // ---- Inject -------------------------------------------------------------

  /** `s` holds in the keychain what is about to be injected. */
  ghost predicate Injectable(p: Plan, s: Sys, secret: ResolvedSecret) {
    Consumes(p, secret.name) && secret.name in s.keychain && s.keychain[secret.name].value == secret.value
  }

  lemma InjectableKept(a: State, b: State, secret: ResolvedSecret)
    requires Continues(a, b) && a.command.Up? && Injectable(a.command.plan, a.sys, secret)
    ensures Injectable(a.command.plan, b.sys, secret)
  {
    hide Continues, Consumes;
    KeychainKept(a, b);
  }

  lemma InSyncKept(a: State, b: State, n: string)
    requires Continues(a, b) && a.command.Up? && a.sys.machine.Running? && InSync(a.sys, n)
    ensures InSync(b.sys, n)
  {
    hide Sound, InSync, AsPlanned, InPlan, Faultless, Unbroken;
  }

  lemma StoringIsAllowed(a: State, secret: ResolvedSecret)
    requires a.command.Up? && a.sys.machine.Running? && Injectable(a.command.plan, a.sys, secret)
    ensures May(a.command, a.sys, Event.StoreSecret(secret.name, secret.value))
  {
    hide Consumes;
  }

  ghost predicate AllInjectable(p: Plan, s: Sys, secrets: seq<ResolvedSecret>) {
    forall x :: x in secrets ==> Injectable(p, s, x)
  }

  ghost predicate Injected(s: Sys, secrets: seq<ResolvedSecret>) {
    forall x :: x in secrets ==> InSync(s, x.name)
  }

  /** What the loop of `Inject` knows after the first `i` secrets. */
  ghost predicate Injecting(a: State, b: State, secrets: seq<ResolvedSecret>, i: nat) {
    && Continues(a, b) && Plays(b.trace) == Plays(a.trace)
    && b.command.Up? && Unbroken(b.trace) && b.sys.machine.Running?
    && (forall x :: x in secrets ==> Injectable(b.command.plan, b.sys, x))
    && (forall j :: 0 <= j < i && j < |secrets| ==> InSync(b.sys, secrets[j].name))
  }

  lemma AllInjectableKept(b: State, c: State, secrets: seq<ResolvedSecret>)
    requires Continues(b, c) && b.command.Up? && c.command == b.command
    requires forall x :: x in secrets ==> Injectable(b.command.plan, b.sys, x)
    ensures forall x :: x in secrets ==> Injectable(b.command.plan, c.sys, x)
  {
    hide Continues, Injectable;
    forall x | x in secrets ensures Injectable(b.command.plan, c.sys, x) { InjectableKept(b, c, x); }
  }

  lemma AllInSyncKept(b: State, c: State, secrets: seq<ResolvedSecret>, i: nat)
    requires Continues(b, c) && b.command.Up? && b.sys.machine.Running? && i <= |secrets|
    requires forall j :: 0 <= j < i ==> InSync(b.sys, secrets[j].name)
    ensures forall j :: 0 <= j < i ==> InSync(c.sys, secrets[j].name)
  {
    hide Continues, InSync;
    forall j | 0 <= j < i ensures InSync(c.sys, secrets[j].name) { InSyncKept(b, c, secrets[j].name); }
  }

  lemma InjectingStep(a: State, b: State, c: State, secrets: seq<ResolvedSecret>, i: nat)
    requires i < |secrets| && Injecting(a, b, secrets, i)
    requires Continues(b, c) && Continues(a, c) && Plays(c.trace) == Plays(b.trace) && Unbroken(c.trace)
    requires InSync(c.sys, secrets[i].name)
    ensures Injecting(a, c, secrets, i + 1)
  {
    hide Continues, Unbroken, Injectable, InSync, Plays;
    SameCommand(b, c);
    AllInjectableKept(b, c, secrets);
    AllInSyncKept(b, c, secrets, i);
  }

  lemma SameCommand(a: State, b: State)
    requires Continues(a, b)
    ensures b.command == a.command && b.start == a.start
    ensures a.command.Up? && a.sys.machine.Running? ==> b.sys.machine.Running?
    ensures a.command.Up? ==> b.sys.hasKeychain == a.sys.hasKeychain
    ensures Faultless(b.trace) ==> Faultless(a.trace)
    ensures a.cancelled ==> b.cancelled
    ensures Sound(b)
  {
    hide Sound, Faultless, Unbroken, Grows;
  }

  lemma InjectedOne(s: Sys, s': Sys, p: Plan, secret: ResolvedSecret)
    requires Injectable(p, s, secret)
    requires s' == s.(store := s.store[secret.name := StoreEntry(secret.value, true)])
    ensures InSync(s', secret.name)
  {
    hide Consumes;
  }

  /** Stores every secret in the machine, stopping at the first failure. */
  method Inject(host: Host, secrets: seq<ResolvedSecret>) returns (err: Err)
    requires host.Valid() && host.command.Up? && Unbroken(host.trace) && host.sys.machine.Running?
    requires AllInjectable(host.command.plan, host.sys, secrets)
    modifies host
    ensures Continues(old(host.Now()), host.Now()) && Plays(host.trace) == Plays(old(host.trace))
    ensures err.NoErr? ==> Unbroken(host.trace) && Injected(host.sys, secrets)
    ensures Faultless(host.trace) && !host.cancelled ==> err.NoErr?
  {
    hide Sound, Injectable, InSync, May, Effect, Accepts, Continues, Faultless, Unbroken, Plays;
    ghost var a := host.Now();
    ContinuesReflexive(a);
    for i := 0 to |secrets|
      invariant Injecting(a, host.Now(), secrets, i)
    {
      ghost var b := host.Now();
      SameCommand(a, b);
      var stop := host.CtxErr();
      if stop { ContinuesTransitive(a, b, host.Now()); return Canceled; }
      ghost var c := host.Now();
      InjectableKept(b, c, secrets[i]);
      StoringIsAllowed(c, secrets[i]);
      ContinuesSound(b, c);
      var o := host.StoreSecret(secrets[i].name, secrets[i].value);
      ContinuesTransitive(b, c, host.Now());
      ContinuesTransitive(a, b, host.Now());
      if !o.Done? { return StoreBroken; }
      InjectedOne(c.sys, host.sys, c.command.plan, secrets[i]);
      InjectingStep(a, b, host.Now(), secrets, i);
    }
    err := NoErr;
  }
}

/** `lclaw secrets set`, `update` and `delete`: the keychain first, then the
    machine's store (internal/app/secrets.go). */
module SecretsCommands {
  import opened Text
  import opened Roles
  import opened Catalogues
  import opened Topologies
  import opened Systems
  import opened Rules
  import opened Runs
  import opened Hosts
  import opened SecretSteps
  import opened UpCommand
  import opened StatusCommand

  /** What happened, or is true, in the machine's store. */
  datatype StoreState = StoreStored | StoreRemoved | StoreAbsent | StoreStopped | StoreFailed

  /** The report of a command whose keychain part succeeded. */
  datatype Report = Report(store: StoreState, warned: bool)

  const NO_REPORT := Report(StoreFailed, false)

  /** The secrets commands look at the catalogue's findings only, not at the
      rest of the topology's rules. */
  predicate Prepared(scaffold: Scaffold) {
    scaffold.Decoded? && Catalogues.Findings(BUILTIN, Declared(scaffold.top.zones, |scaffold.top.zones|), |ALL|) == []
  }

  method Prepare(scaffold: Scaffold) returns (entries: seq<SecretSpec>, err: Err)
    ensures err.NoErr? <==> Prepared(scaffold)
    ensures err.NoErr? ==>
      scaffold.Decoded? && IsCatalogue(BUILTIN, Declared(scaffold.top.zones, |scaffold.top.zones|), entries)
  {
    hide IsCatalogue, Catalogues.Findings;
    if !scaffold.Decoded? { return [], NoScaffold; }
    var declared := DeclaredSecrets(scaffold.top);
    var findings;
    entries, findings := NewCatalogue(BUILTIN, declared);
    err := if |findings| > 0 then BadTopology else NoErr;
  }

  ghost predicate Catalogued(entries: seq<SecretSpec>, name: string) {
    exists e :: e in entries && e.name == name
  }

  // ---- Push and inspect ---------------------------------------------------

  function Kept(s: Sys, name: string, value: Value): Sys {
    s.(store := s.store[name := StoreEntry(value, true)])
  }

  /** How a push from `s` may leave the world. */
  ghost predicate Pushed(s: Sys, s': Sys, name: string, value: Value, state: StoreState) {
    match state
    case StoreStored => s.machine.Running? && s' == Kept(s, name, value)
    case StoreStopped => !s.machine.Running? && s' == s
    case StoreFailed => s' == s || s' == Kept(s, name, value)
    case _ => false
  }

  /** The command writes `name` and the keychain holds `value` for it. */
  ghost predicate Writes(c: Command, s: Sys, name: string, value: Value) {
    && (c.SetSecret? || c.UpdateSecret?) && c.name == name
    && name in s.keychain && s.keychain[name].value == value
  }

  lemma PushingIsAllowed(c: Command, s: Sys, name: string, value: Value)
    requires Writes(c, s, name, value)
    ensures May(c, s, StoreSecret(name, value))
  {
  }

  /** Brings the store in line when the machine is running. A failure is
      reported and not rolled back. */
  method Push(host: Host, name: string, value: Value) returns (state: StoreState, err: Err)
    requires host.Valid() && Writes(host.command, host.sys, name, value)
    modifies host
    ensures Continues(old(host.Now()), host.Now())
    ensures err.NoErr? ==> Pushed(old(host.sys), host.sys, name, value, state)
    ensures !err.NoErr? ==> host.cancelled && host.sys == old(host.sys)
    ensures Faultless(host.trace) && err.NoErr? ==> !state.StoreFailed?
  {
    hide Sound, Continues, Watched, May, Effect, Plays, Faultless, Unbroken, Downed, Stops, Removes, Fine;
    ghost var a := host.Now();
    var stop := host.CtxErr();
    ghost var b := host.Now();
    WatchedWait(a, b);
    if stop { return StoreFailed, Canceled; }
    WatchedMeans(a, b);
    var o, running := host.MachineRunning();
    ghost var c := host.Now();
    WatchedOnce(b, Event.MachineRunning, o, c);
    WatchedTransitive(a, b, c);
    WatchedMeans(b, c);
    WatchedContinues(a, c);
    if !o.Done? { return StoreFailed, NoErr; }
    if !running { return StoreStopped, NoErr; }
    PushingIsAllowed(host.command, host.sys, name, value);
    o := host.StoreSecret(name, value);
    ContinuesTransitive(a, c, host.Now());
    state, err := if o.Done? then StoreStored else StoreFailed, NoErr;
  }

  lemma WatchedContinues(a: State, b: State)
    requires Watched(a, b)
    ensures Continues(a, b)
  {
    hide Continues;
  }

  /** What the store holds under the name. */
  method Inspect(host: Host, name: string) returns (state: StoreState)
    requires host.Valid()
    modifies host
    ensures Watched(old(host.Now()), host.Now())
    ensures !state.StoreRemoved?
    ensures state.StoreStored? ==> host.sys.machine.Running? && name in host.sys.store
    ensures state.StoreAbsent? ==> host.sys.machine.Running? && name !in host.sys.store
    ensures state.StoreStopped? ==> !host.sys.machine.Running?
    ensures Faultless(host.trace) ==> !state.StoreFailed?
  {
    hide Sound, Continues, Watched, May, Effect, Plays, Faultless, Unbroken, Downed, Stops, Removes, Fine;
    ghost var a := host.Now();
    var o, running := host.MachineRunning();
    ghost var b := host.Now();
    WatchedOnce(a, Event.MachineRunning, o, b);
    WatchedMeans(a, b);
    if !o.Done? { return StoreFailed; }
    if !running { return StoreStopped; }
    var found;
    o, found := host.SecretExists(name);
    WatchedOnce(b, Event.SecretExists(name), o, host.Now());
    WatchedTransitive(a, b, host.Now());
    WatchedMeans(b, host.Now());
    return if !o.Done? then StoreFailed else if found then StoreStored else StoreAbsent;
  }

  // ---- Set ----------------------------------------------------------------

  function With(s: Sys, name: string, item: Item): Sys {
    s.(keychain := s.keychain[name := item])
  }

  /** How `secrets set` may end. It never replaces: the name was not set. */
  ghost predicate SetEnds(entries: seq<SecretSpec>, name: string, value: Value, s: Sys, run: seq<Step>, s': Sys,
      cancelled: bool, report: Report, err: Err)
  {
    && (err.NoErr? ==>
      && Catalogued(entries, name) && ValidValue(value) && name !in s.keychain && !report.warned
      && Pushed(With(s, name, Item(value, User)), s', name, value, report.store))
    // an error leaves the store alone, and a keychain item only after a fault
    && (!err.NoErr? ==>
      s' == s || ((cancelled || err.KeychainBroken?) && name !in s.keychain && s' == With(s, name, Item(value, User))))
    && (Faultless(run) && !cancelled ==>
      && (err.NoErr? ==> !report.store.StoreFailed?)
      && err == SetVerdict(entries, name, value, s))
  }

  /** What a faultless `set` answers. */
  ghost function SetVerdict(entries: seq<SecretSpec>, name: string, value: Value, s: Sys): Err {
    if !Catalogued(entries, name) then UnknownSecret
    else if !ValidValue(value) then BadValue
    else if !s.hasKeychain then KeychainMissing
    else if name in s.keychain then AlreadySet
    else NoErr
  }

  /** A faultless `set`, answer by answer. */
  lemma SetMeans(entries: seq<SecretSpec>, name: string, value: Value, s: Sys, run: seq<Step>, s': Sys, report: Report,
      err: Err)
    requires SetEnds(entries, name, value, s, run, s', false, report, err) && Faultless(run)
    ensures var known, good := (exists e :: e in entries && e.name == name), 1 <= |value| <= 1024;
      && (err.UnknownSecret? <==> !known)
      && (err.BadValue? <==> known && !good)
      && (err.KeychainMissing? <==> known && good && !s.hasKeychain)
      && (err.AlreadySet? <==> known && good && s.hasKeychain && name in s.keychain)
      && (err.NoErr? <==> known && good && s.hasKeychain && name !in s.keychain)
    ensures !err.NoErr? ==> s' == s
    ensures err.NoErr? ==>
      && s' == s.(keychain := s.keychain[name := Item(value, User)], store := s'.store) && !report.warned
      && (if s.machine.Running? then report.store.StoreStored? && s'.store == s.store[name := StoreEntry(value, true)]
        else report.store.StoreStopped? && s'.store == s.store)
  {
    hide Faultless;
  }

  lemma PuttingIsAllowed(c: Command, s: Sys, name: string, value: Value)
    requires c.SetSecret? && c.name == name && c.value == value
    ensures May(c, s, KeychainPut(name, value, User, false))
  {
  }

  lemma CataloguedIsValid(declared: map<string, seq<string>>, entries: seq<SecretSpec>, spec: SecretSpec)
    requires IsCatalogue(BUILTIN, declared, entries) && spec in entries
    ensures ValidName(spec.name) && Catalogued(entries, spec.name)
  {
    hide ValidName, IsCatalogue;
    EntryNamesValid(declared, entries, spec);
  }

  /** The command stopped before it wrote anything. */
  lemma SetStops(entries: seq<SecretSpec>, name: string, value: Value, a: State, b: State, err: Err)
    requires Watched(a, b) && !err.NoErr?
    requires Faultless(b.trace) ==> err == SetVerdict(entries, name, value, a.sys)
    ensures SetEnds(entries, name, value, a.sys, b.trace, b.sys, b.cancelled, NO_REPORT, err)
  {
    hide Continues, Faultless, SetVerdict, Pushed;
  }

  /** The item was written and the store dealt with. */
  lemma SetPushes(
    entries: seq<SecretSpec>, name: string, value: Value, s: Sys, c: State, d: State, state: StoreState, err: Err)
    requires Catalogued(entries, name) && ValidValue(value) && s.hasKeychain && name !in s.keychain
    requires c.sys == With(s, name, Item(value, User))
    requires err.NoErr? ==> Pushed(c.sys, d.sys, name, value, state)
    requires !err.NoErr? ==> d.cancelled && d.sys == c.sys
    requires Faultless(d.trace) && err.NoErr? ==> !state.StoreFailed?
    ensures SetEnds(entries, name, value, s, d.trace, d.sys, d.cancelled, Report(state, false), err)
  {
    hide Faultless, Pushed, Catalogued, ValidValue;
  }

  /** Creates the item and pushes it. */
  method PutNew(host: Host, entries: seq<SecretSpec>, name: string, value: Value, ghost a: State)
    returns (report: Report, err: Err)
    requires host.Valid() && host.command == SetSecret(entries, name, value) && host.sys == a.sys
    requires host.sys.hasKeychain
    requires Catalogued(entries, name) && ValidName(name) && ValidValue(value)
    modifies host
    ensures Continues(old(host.Now()), host.Now())
    ensures SetEnds(entries, name, value, a.sys, host.trace, host.sys, host.cancelled, report, err)
  {
    hide Sound, Continues, May, Effect, Accepts, Plays, Faultless, Unbroken, Downed, Stops, Removes, Fine;
    hide ValidName, ValidValue, SetEnds, Pushed, NO_REPORT, Catalogued;
    ghost var b := host.Now();
    PuttingIsAllowed(host.command, host.sys, name, value);
    var o := host.KeychainPut(name, value, User, false);
    ghost var c := host.Now();
    SameCommand(b, c);
    if !o.Done? {
      err := if o.Refused? then AlreadySet else KeychainBroken;
      PutFailed(entries, name, value, a, b, o, c, err);
      return NO_REPORT, err;
    }
    PutAccepted(b.sys, name, value);
    var state;
    state, err := Push(host, name, value);
    ContinuesTransitive(b, c, host.Now());
    SetPushes(entries, name, value, a.sys, c, host.Now(), state, err);
    report := Report(state, false);
  }

  method RunSet(host: Host, entries: seq<SecretSpec>, name: string, value: Value,
      ghost declared: map<string, seq<string>>)
    returns (report: Report, err: Err)
    requires host.Valid() && host.trace == [] && host.start == host.sys
    requires host.command == SetSecret(entries, name, value)
    requires IsCatalogue(BUILTIN, declared, entries)
    modifies host
    ensures RunOf(old(host.command), old(host.sys), host.trace, host.sys)
    ensures SetEnds(entries, name, value, old(host.sys), host.trace, host.sys, host.cancelled, report, err)
  {
    hide Sound, Continues, Watched, May, RunOf, Effect, Plays, Faultless, Unbroken, Downed, Stops, Removes, Fine;
    hide ValidName, ValidValue, IsCatalogue, SetEnds, Pushed, NO_REPORT;
    ghost var a := host.Now();
    report := NO_REPORT;
    WatchedHere(a);
    WatchedRun(a, a);
    var spec := Lookup(entries, name);
    if spec.None? {
      SetStops(entries, name, value, a, a, UnknownSecret);
      return report, UnknownSecret;
    }
    CataloguedIsValid(declared, entries, spec.value);
    if !(1 <= |value| <= MAX_SECRET_LEN) {
      BadLength(value);
      SetStops(entries, name, value, a, a, BadValue);
      return report, BadValue;
    }
    GoodLength(value);
    ghost var eo;
    err, eo := RequireKeychain(host);
    ghost var b := host.Now();
    WatchedOnce(a, KeychainExists, eo, b);
    WatchedRun(a, b);
    WatchedMeans(a, b);
    WatchedContinues(a, b);
    if !err.NoErr? {
      SetStops(entries, name, value, a, b, err);
      return report, err;
    }
    report, err := PutNew(host, entries, name, value, a);
    ContinuesTransitive(a, b, host.Now());
    SoundRun(a, host.Now());
  }

  /** The put was refused because the item exists, or it faulted. */
  lemma PutFailed(entries: seq<SecretSpec>, name: string, value: Value, a: State, b: State, o: Outcome, c: State,
      err: Err)
    requires b.sys == a.sys && b.sys.hasKeychain && ValidName(name) && ValidValue(value) && Catalogued(entries, name)
    requires Did(b, KeychainPut(name, value, User, false), o, c) && !o.Done?
    requires err == if o.Refused? then AlreadySet else KeychainBroken
    ensures SetEnds(entries, name, value, a.sys, c.trace, c.sys, c.cancelled, NO_REPORT, err)
  {
    hide Continues, Plays, Faultless, Unbroken, Downed, Stops, Removes, Fine, ValidName, ValidValue, Catalogued;
    var e := KeychainPut(name, value, User, false);
    PutRefused(b.sys, name, value);
    DidNext(b, e, o, c);
    NextCases(b.sys, e, o, c.sys);
  }

  /** What the record of a call says about the world's answer. */
  lemma DidNext(a: State, e: Event, o: Outcome, b: State)
    requires Did(a, e, o, b)
    ensures Next(a.sys, e, o, b.sys)
  {
    hide May, Next, Effect, Accepts, RunOf, GoodPlan, Grows, Faultless, Unbroken, Plays, Downed, Stops, Removes, Fine;
    RunUnsnoc(b.command, b.start, b.trace, b.sys);
  }

  lemma BadLength(value: Value)
    requires !(1 <= |value| <= MAX_SECRET_LEN)
    ensures !ValidValue(value)
  {
  }

  lemma GoodLength(value: Value)
    requires 1 <= |value| <= MAX_SECRET_LEN
    ensures ValidValue(value)
  {
  }

  lemma PutAccepted(s: Sys, name: string, value: Value)
    requires Accepts(s, KeychainPut(name, value, User, false))
    ensures name !in s.keychain
  {
  }

  /** The name and the value are fine, so a refusal means the item exists. */
  lemma PutRefused(s: Sys, name: string, value: Value)
    requires s.hasKeychain && ValidName(name) && ValidValue(value)
    ensures Accepts(s, KeychainPut(name, value, User, false)) <==> name !in s.keychain
  {
    hide ValidName, ValidValue;
  }

  method Set(host: Host, scaffold: Scaffold, name: string, value: Value)
    returns (report: Report, err: Err, ghost entries: seq<SecretSpec>)
    modifies host
    ensures !Prepared(scaffold) ==> host.sys == old(host.sys) && !err.NoErr?
    ensures Prepared(scaffold) ==>
      && IsCatalogue(BUILTIN, Declared(scaffold.top.zones, |scaffold.top.zones|), entries)
      && RunOf(SetSecret(entries, name, value), old(host.sys), host.trace, host.sys)
      && SetEnds(entries, name, value, old(host.sys), host.trace, host.sys, host.cancelled, report, err)
  {
    hide Prepared, IsCatalogue, RunOf, SetEnds;
    var found;
    found, err := Prepare(scaffold);
    entries := found;
    if !err.NoErr? { return NO_REPORT, err, entries; }
    host.Begin(SetSecret(found, name, value));
    report, err := RunSet(host, found, name, value, Declared(scaffold.top.zones, |scaffold.top.zones|));
  }

  // ---- Update -------------------------------------------------------------

  /** The catalogue's entry of that name. */
  ghost predicate Entry(entries: seq<SecretSpec>, spec: SecretSpec, name: string) {
    spec in entries && spec.name == name
  }

  function SourceOf(spec: SecretSpec, generate: bool): Source {
    if generate then spec.source else User
  }

  /** LiteLLM runs in a running machine. */
  predicate MayMint(s: Sys) {
    s.machine.Running? && Serving(s)
  }

  /** The keychain item was replaced by value `v`; a mint may have left a trace. */
  ghost predicate Replaced(spec: SecretSpec, generate: bool, value: Value, s: Sys, m: Sys, v: Value) {
    && spec.name in s.keychain && ValidValue(v)
    && m == With(s, spec.name, Item(v, SourceOf(spec, generate))).(issued := m.issued)
    && (if generate then !spec.source.User? && spec.rotatable else v == value)
    && (if SourceOf(spec, generate).Minted? then MayMint(s) && m.issued == s.issued + {(v, s.incarnation)}
      else m.issued == s.issued)
  }

  /** How `secrets update` may end. It never creates: the name was set. */
  ghost predicate UpdateEnds(spec: SecretSpec, value: Value, generate: bool, s: Sys, run: seq<Step>, s': Sys,
      cancelled: bool, report: Report, err: Err)
  {
    && (err.NoErr? ==>
      !report.warned &&
      exists m, v :: Replaced(spec, generate, value, s, m, v) && Pushed(m, s', spec.name, v, report.store))
    && (!err.NoErr? ==>
      || s' == s.(issued := s'.issued)
      || ((cancelled || err.KeychainBroken?) && exists v :: Replaced(spec, generate, value, s, s', v)))
    && (Faultless(run) && !cancelled ==>
      && (err.NoErr? ==> !report.store.StoreFailed?)
      && err == UpdateVerdict(spec, value, generate, s))
  }

  ghost function UpdateVerdict(spec: SecretSpec, value: Value, generate: bool, s: Sys): Err {
    if generate && (spec.source.User? || !spec.rotatable) then NotGeneratable
    else if !generate && !ValidValue(value) then BadValue
    else if !s.hasKeychain then KeychainMissing
    else if spec.name !in s.keychain then NotSet
    else if generate && spec.source.Minted? && !MayMint(s) then MinterUnavailable
    else NoErr
  }

  /** A faultless `update`, answer by answer. */
  lemma UpdateMeans(spec: SecretSpec, value: Value, generate: bool, s: Sys, run: seq<Step>, s': Sys, report: Report,
      err: Err)
    requires UpdateEnds(spec, value, generate, s, run, s', false, report, err) && Faultless(run)
    ensures
      var able := if generate then !spec.source.User? && spec.rotatable else 1 <= |value| <= 1024;
      var there := able && s.hasKeychain && spec.name in s.keychain;
      var served := s.machine.Running? && "litellm" in s.pods && s.pods["litellm"].running;
      && (err.NotGeneratable? <==> generate && !able)
      && (err.BadValue? <==> !generate && !able)
      && (err.KeychainMissing? <==> able && !s.hasKeychain)
      && (err.NotSet? <==> able && s.hasKeychain && spec.name !in s.keychain)
      && (err.MinterUnavailable? <==> there && generate && spec.source.Minted? && !served)
      && (err.NoErr? <==> there && (generate && spec.source.Minted? ==> served))
    ensures !err.NoErr? ==> s' == s.(issued := s'.issued)
    ensures err.NoErr? ==>
      && spec.name in s'.keychain && !report.warned
      && var v := s'.keychain[spec.name].value;
      && (!generate ==> v == value) && 1 <= |v| <= 1024
      && s' == s.(
        keychain := s.keychain[spec.name := Item(v, if generate then spec.source else User)], store := s'.store,
        issued := s'.issued)
      && (if generate && spec.source.Minted? then s'.issued == s.issued + {(v, s.incarnation)}
        else s'.issued == s.issued)
      && (if s.machine.Running? then report.store.StoreStored? && s'.store == s.store[spec.name := StoreEntry(v, true)]
        else report.store.StoreStopped? && s'.store == s.store)
  {
    hide Faultless;
  }

  lemma RegeneratingIsAllowed(c: Command, s: Sys, spec: SecretSpec)
    requires c.UpdateSecret? && c.name == spec.name && c.generate && spec in c.entries
    requires spec.name in s.keychain && !spec.source.User? && spec.rotatable
    ensures spec.source.Minted? ==> May(c, s, Event.Mint(spec.name, []))
    ensures spec.source.Generated? ==> May(c, s, Event.Generate(spec.name, []))
  {
    assert Regenerable(c.entries, spec.name, spec.source);
  }

  /** Asks the minter for a new key, or the generator for a new value. */
  method Regenerate(host: Host, spec: SecretSpec) returns (o: Outcome, value: Value)
    requires host.Valid() && host.command.UpdateSecret? && host.command.name == spec.name && host.command.generate
    requires spec in host.command.entries && spec.name in host.sys.keychain && !spec.source.User? && spec.rotatable
    modifies host
    ensures Continues(old(host.Now()), host.Now()) && ValidValue(value)
    ensures host.sys == old(host.sys).(issued := host.sys.issued)
    ensures o.Done? && spec.source.Minted? ==>
      MayMint(old(host.sys)) && host.sys.issued == old(host.sys).issued + {(value, old(host.sys).incarnation)}
    ensures o.Done? && !spec.source.Minted? ==> host.sys == old(host.sys)
    ensures o.Refused? ==> spec.source.Minted? && !MayMint(host.sys)
    ensures Faultless(host.trace) ==> !o.Fault?
  {
    hide Sound, Continues, May, Effect, Plays, Faultless, Unbroken, Downed, Stops, Removes, Fine, ValidValue;
    RegeneratingIsAllowed(host.command, host.sys, spec);
    ghost var a := host.Now();
    if spec.source.Minted? {
      o, value := host.Mint(spec.name);
      MintAccepted(a.sys, spec.name, value);
    } else {
      o, value := host.Generate(spec.name);
    }
  }

  lemma MintAccepted(s: Sys, name: string, value: Value)
    ensures Accepts(s, Event.Mint(name, value)) <==> MayMint(s)
  {
  }

  lemma ReplacingIsAllowed(c: Command, s: Sys, spec: SecretSpec, value: Value)
    requires c.UpdateSecret? && c.name == spec.name && spec in c.entries && spec.name in s.keychain
    requires c.generate ==> !spec.source.User? && spec.rotatable
    requires c.generate && spec.source.Minted? ==> !s.machine.NoMachine? && (value, s.incarnation) in s.issued
    ensures May(c, s, KeychainPut(spec.name, value, SourceOf(spec, c.generate), true))
  {
    if c.generate { assert Regenerable(c.entries, spec.name, spec.source); }
  }

  /** The value to write: the given one, or a new one. */
  method NewValue(host: Host, spec: SecretSpec, value: Value, generate: bool) returns (o: Outcome, v: Value)
    requires host.Valid() && host.command.UpdateSecret? && host.command.name == spec.name
    requires host.command.generate == generate
    requires spec in host.command.entries && spec.name in host.sys.keychain
    requires if generate then !spec.source.User? && spec.rotatable else ValidValue(value)
    modifies host
    ensures Continues(old(host.Now()), host.Now())
    ensures host.sys == old(host.sys).(issued := host.sys.issued)
    ensures o.Done? ==>
      Replaced(spec, generate, value, old(host.sys), With(host.sys, spec.name, Item(v, SourceOf(spec, generate))), v)
    ensures o.Refused? ==> generate && spec.source.Minted? && !MayMint(host.sys)
    ensures Faultless(host.trace) ==> !o.Fault?
    ensures o.Done? && generate && spec.source.Minted? ==> MayMint(host.sys)
  {
    hide Sound, Continues, May, Effect, Plays, Faultless, Unbroken, Downed, Stops, Removes, Fine, ValidValue;
    ghost var a := host.Now();
    if generate {
      o, v := Regenerate(host, spec);
    } else {
      ContinuesReflexive(a);
      o, v := Done, value;
    }
  }

  lemma ReplaceAccepted(s: Sys, name: string, value: Value, source: Source)
    requires s.hasKeychain && ValidName(name) && ValidValue(value)
    ensures Accepts(s, KeychainPut(name, value, source, true))
  {
    hide ValidName, ValidValue;
  }

  lemma ReplacedMeans(spec: SecretSpec, generate: bool, value: Value, s: Sys, m: Sys, v: Value)
    requires Replaced(spec, generate, value, s, m, v)
    ensures ValidValue(v) && spec.name in s.keychain && m.machine == s.machine && m.incarnation == s.incarnation
    ensures generate && spec.source.Minted? ==> !s.machine.NoMachine? && (v, s.incarnation) in m.issued
    ensures spec.name in m.keychain && m.keychain[spec.name].value == v
  {
    hide ValidValue;
  }

  /** Writes the value and pushes it. */
  method Replace(host: Host, spec: SecretSpec, value: Value, generate: bool, v: Value, ghost s: Sys)
    returns (state: StoreState, err: Err)
    requires host.Valid() && host.command.UpdateSecret? && host.command.name == spec.name
    requires host.command.generate == generate
    requires spec in host.command.entries && ValidName(spec.name) && host.sys.hasKeychain
    requires Replaced(spec, generate, value, s, With(host.sys, spec.name, Item(v, SourceOf(spec, generate))), v)
    requires host.sys == s.(issued := host.sys.issued)
    requires generate ==> !spec.source.User? && spec.rotatable
    modifies host
    ensures Continues(old(host.Now()), host.Now())
    ensures err.NoErr? ==>
      exists m, v :: Replaced(spec, generate, value, s, m, v) && Pushed(m, host.sys, spec.name, v, state)
    ensures !err.NoErr? ==>
      || host.sys == s.(issued := host.sys.issued)
      || ((host.cancelled || err.KeychainBroken?) && exists v :: Replaced(spec, generate, value, s, host.sys, v))
    ensures Faultless(host.trace) && !host.cancelled ==> err.NoErr? && !state.StoreFailed?
  {
    hide Sound, Continues, May, Effect, Accepts, Plays, Faultless, Unbroken, Downed, Stops, Removes, Fine;
    hide ValidName, ValidValue, Replaced;
    ghost var a := host.Now();
    ghost var m := With(host.sys, spec.name, Item(v, SourceOf(spec, generate)));
    ReplacedMeans(spec, generate, value, s, m, v);
    ReplacingIsAllowed(host.command, host.sys, spec, v);
    ReplaceAccepted(host.sys, spec.name, v, SourceOf(spec, generate));
    var o := host.KeychainPut(spec.name, v, SourceOf(spec, generate), true);
    ghost var b := host.Now();
    SameCommand(a, b);
    if !o.Done? { return StoreFailed, KeychainBroken; }
    state, err := Push(host, spec.name, v);
    ContinuesTransitive(a, b, host.Now());
    SameCommand(b, host.Now());
  }

  method RunUpdate(host: Host, spec: SecretSpec, value: Value, generate: bool) returns (report: Report, err: Err)
    requires host.Valid() && host.trace == [] && host.start == host.sys
    requires host.command.UpdateSecret? && host.command.name == spec.name && host.command.generate == generate
    requires spec in host.command.entries && ValidName(spec.name)
    modifies host
    ensures RunOf(old(host.command), old(host.sys), host.trace, host.sys)
    ensures UpdateEnds(spec, value, generate, old(host.sys), host.trace, host.sys, host.cancelled, report, err)
  {
    hide Sound, Continues, Watched, May, RunOf, Effect, Plays, Faultless, Unbroken, Downed, Stops, Removes;
    hide Fine, ValidName, ValidValue, Replaced, Pushed;
    ghost var a := host.Now();
    report := NO_REPORT;
    WatchedHere(a);
    WatchedRun(a, a);
    if generate {
      if spec.source.User? || !spec.rotatable { return report, NotGeneratable; }
    } else if !(1 <= |value| <= MAX_SECRET_LEN) {
      BadLength(value);
      return report, BadValue;
    } else {
      GoodLength(value);
    }
    ghost var eo;
    err, eo := RequireKeychain(host);
    ghost var b := host.Now();
    WatchedOnce(a, KeychainExists, eo, b);
    WatchedRun(a, b);
    WatchedMeans(a, b);
    WatchedContinues(a, b);
    if !err.NoErr? { return report, err; }
    var o, _ := host.KeychainDescribe(spec.name);
    ghost var c := host.Now();
    WatchedOnce(b, Event.KeychainDescribe(spec.name), o, c);
    WatchedTransitive(a, b, c);
    WatchedRun(a, c);
    WatchedMeans(b, c);
    WatchedContinues(a, c);
    DescribeAccepted(c.sys, spec.name);
    if !o.Done? { return report, if o.Refused? then NotSet else KeychainBroken; }
    var v;
    o, v := NewValue(host, spec, value, generate);
    ghost var d := host.Now();
    ContinuesTransitive(a, c, d);
    SoundRun(a, d);
    SameCommand(c, d);
    if !o.Done? { return report, if o.Refused? then MinterUnavailable else ValueBroken; }
    var state;
    state, err := Replace(host, spec, value, generate, v, a.sys);
    ContinuesTransitive(a, d, host.Now());
    SoundRun(a, host.Now());
    report := Report(state, false);
  }

  lemma DescribeAccepted(s: Sys, name: string)
    ensures Accepts(s, Event.KeychainDescribe(name)) <==> s.hasKeychain && name in s.keychain
  {
  }

  method Update(host: Host, scaffold: Scaffold, name: string, value: Value, generate: bool)
    returns (report: Report, err: Err, ghost entries: seq<SecretSpec>, ghost spec: Option<SecretSpec>)
    modifies host
    ensures !Prepared(scaffold) ==> host.sys == old(host.sys) && !err.NoErr?
    ensures Prepared(scaffold) ==>
      && IsCatalogue(BUILTIN, Declared(scaffold.top.zones, |scaffold.top.zones|), entries)
      && (spec.None? ==> !Catalogued(entries, name) && err.UnknownSecret? && host.sys == old(host.sys))
      && (spec.Some? ==>
        && Entry(entries, spec.value, name)
        && RunOf(UpdateSecret(entries, name, value, generate), old(host.sys), host.trace, host.sys)
        && UpdateEnds(spec.value, value, generate, old(host.sys), host.trace, host.sys, host.cancelled, report, err))
  {
    hide Prepared, IsCatalogue, RunOf, UpdateEnds, ValidName;
    var all;
    all, err := Prepare(scaffold);
    entries, spec := all, None;
    report := NO_REPORT;
    if !err.NoErr? { return report, err, entries, spec; }
    var found := Lookup(all, name);
    spec := found;
    if found.None? { return report, UnknownSecret, entries, spec; }
    CataloguedIsValid(Declared(scaffold.top.zones, |scaffold.top.zones|), all, found.value);
    host.Begin(UpdateSecret(all, name, value, generate));
    report, err := RunUpdate(host, found.value, value, generate);
  }

  // ---- Delete -------------------------------------------------------------

  function Without(s: Sys, name: string): Sys {
    s.(keychain := s.keychain - {name})
  }

  /** How the store part of a delete from `m` may end. */
  ghost predicate Dropped(m: Sys, s': Sys, name: string, state: StoreState) {
    match state
    case StoreRemoved => m.machine.Running? && name in m.store && s' == m.(store := m.store - {name})
    case StoreAbsent => m.machine.Running? && name !in m.store && s' == m
    case StoreStopped => !m.machine.Running? && s' == m
    case StoreFailed => s' == m || s' == m.(store := m.store - {name})
    case StoreStored => false
  }

  /** How `secrets delete` may end: the item goes first, then the store's copy,
      and losing a value that may not be rotated is pointed out. */
  ghost predicate DeleteEnds(spec: SecretSpec, s: Sys, run: seq<Step>, s': Sys, cancelled: bool, report: Report,
      err: Err)
  {
    && (err.NoErr? ==>
      spec.name in s.keychain && report.warned == !spec.rotatable &&
      Dropped(Without(s, spec.name), s', spec.name, report.store))
    && (!err.NoErr? ==> s' == s || (err.KeychainBroken? && s' == Without(s, spec.name)))
    && (Faultless(run) ==>
      && (err.NoErr? ==> !report.store.StoreFailed?)
      && err == if !s.hasKeychain then KeychainMissing else if spec.name !in s.keychain then NotSet else NoErr)
  }

  /** A faultless `delete`, answer by answer. */
  lemma DeleteMeans(spec: SecretSpec, s: Sys, run: seq<Step>, s': Sys, cancelled: bool, report: Report, err: Err)
    requires DeleteEnds(spec, s, run, s', cancelled, report, err) && Faultless(run)
    ensures err.KeychainMissing? <==> !s.hasKeychain
    ensures err.NotSet? <==> s.hasKeychain && spec.name !in s.keychain
    ensures err.NoErr? <==> s.hasKeychain && spec.name in s.keychain
    ensures !err.NoErr? ==> s' == s
    ensures err.NoErr? ==>
      && s' == s.(keychain := s.keychain - {spec.name}, store := s'.store)
      && (report.warned <==> !spec.rotatable)
      && (!s.machine.Running? ==> report.store.StoreStopped? && s'.store == s.store)
      && (s.machine.Running? ==>
        && s'.store == s.store - {spec.name}
        && (if spec.name in s.store then report.store.StoreRemoved? else report.store.StoreAbsent?))
  {
    hide Faultless;
    assert spec.name !in s.store ==> s.store - {spec.name} == s.store;
  }

  lemma DeletingIsAllowed(c: Command, s: Sys, name: string)
    requires c.DeleteSecret? && c.name == name
    ensures May(c, s, KeychainDelete(name))
    ensures name !in s.keychain && name in s.store ==> May(c, s, RemoveSecret(name))
  {
  }

  /** Drops the store's copy, if there is one. */
  method Drop(host: Host, name: string) returns (state: StoreState)
    requires host.Valid() && host.command.DeleteSecret? && host.command.name == name && name !in host.sys.keychain
    modifies host
    ensures Continues(old(host.Now()), host.Now())
    ensures Dropped(old(host.sys), host.sys, name, state)
    ensures Faultless(host.trace) ==> !state.StoreFailed?
  {
    hide Sound, Continues, Watched, May, Effect, Plays, Faultless, Unbroken, Downed, Stops, Removes, Fine;
    ghost var a := host.Now();
    state := Inspect(host, name);
    ghost var b := host.Now();
    WatchedMeans(a, b);
    WatchedContinues(a, b);
    if state.StoreStored? {
      DeletingIsAllowed(host.command, host.sys, name);
      var o := host.RemoveSecret(name);
      ContinuesTransitive(a, b, host.Now());
      state := if o.Done? then StoreRemoved else StoreFailed;
    }
  }

  method RunDelete(host: Host, spec: SecretSpec) returns (report: Report, err: Err)
    requires host.Valid() && host.trace == [] && host.start == host.sys
    requires host.command.DeleteSecret? && host.command.name == spec.name
    modifies host
    ensures RunOf(old(host.command), old(host.sys), host.trace, host.sys)
    ensures DeleteEnds(spec, old(host.sys), host.trace, host.sys, host.cancelled, report, err)
  {
    hide Sound, Continues, Watched, May, RunOf, Effect, Plays, Faultless, Unbroken, Downed, Stops, Removes, Fine;
    ghost var a := host.Now();
    report := NO_REPORT;
    ghost var eo;
    err, eo := RequireKeychain(host);
    ghost var b := host.Now();
    WatchedOnce(a, KeychainExists, eo, b);
    WatchedRun(a, b);
    WatchedMeans(a, b);
    WatchedContinues(a, b);
    if !err.NoErr? { return report, err; }
    DeletingIsAllowed(host.command, host.sys, spec.name);
    DeleteAccepted(host.sys, spec.name);
    var o := host.KeychainDelete(spec.name);
    ghost var c := host.Now();
    ContinuesTransitive(a, b, c);
    SoundRun(a, c);
    SameCommand(b, c);
    if !o.Done? { return report, if o.Refused? then NotSet else KeychainBroken; }
    var state := Drop(host, spec.name);
    ContinuesTransitive(a, c, host.Now());
    SoundRun(a, host.Now());
    report := Report(state, !spec.rotatable);
  }

  lemma DeleteAccepted(s: Sys, name: string)
    ensures Accepts(s, KeychainDelete(name)) <==> s.hasKeychain && name in s.keychain
  {
  }

  method Delete(host: Host, scaffold: Scaffold, name: string)
    returns (report: Report, err: Err, ghost entries: seq<SecretSpec>, ghost spec: Option<SecretSpec>)
    modifies host
    ensures !Prepared(scaffold) ==> host.sys == old(host.sys) && !err.NoErr?
    ensures Prepared(scaffold) ==>
      && IsCatalogue(BUILTIN, Declared(scaffold.top.zones, |scaffold.top.zones|), entries)
      && (spec.None? ==> !Catalogued(entries, name) && err.UnknownSecret? && host.sys == old(host.sys))
      && (spec.Some? ==>
        && Entry(entries, spec.value, name)
        && RunOf(DeleteSecret(entries, name), old(host.sys), host.trace, host.sys)
        && DeleteEnds(spec.value, old(host.sys), host.trace, host.sys, host.cancelled, report, err))
  {
    hide Prepared, IsCatalogue, RunOf, DeleteEnds;
    var all;
    all, err := Prepare(scaffold);
    entries, spec := all, None;
    report := NO_REPORT;
    if !err.NoErr? { return report, err, entries, spec; }
    var found := Lookup(all, name);
    spec := found;
    if found.None? { return report, UnknownSecret, entries, spec; }
    host.Begin(DeleteSecret(all, name));
    report, err := RunDelete(host, found.value);
  }
}

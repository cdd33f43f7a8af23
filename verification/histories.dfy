/** Histories of commands, what each command promises of its run, and what every
    history keeps of the values in the keychain (internal/app/lifecycle.go,
    internal/app/lifecycle_secrets.go, internal/app/secrets.go). */
module Histories {
  import opened Roles
  import opened Reports
  import opened Catalogues
  import opened WellFormedness
  import opened Systems
  import opened Rules
  import opened Runs
  import opened SecretSteps
  import opened UpCommand
  import opened DownCommand
  import opened SecretsCommands

  /** One command, the calls it made and how it ended. `spec` is the catalogue
      entry a secrets command is about. */
  datatype Entry = Entry(command: Command, pre: Sys, run: seq<Step>, post: Sys, cancelled: bool,
    checks: seq<Check>, spec: SecretSpec, report: Report, err: Err)

  ghost predicate GoodEntries(entries: seq<SecretSpec>) {
    exists declared :: IsCatalogue(BUILTIN, declared, entries)
  }

  ghost predicate GoodCommand(c: Command) {
    match c
    case Up(p) => GoodPlan(p)
    case Down(p, destroy) => GoodPlan(p) && (destroy ==> |p.roles| == |ALL|)
    case Status(_) => true
    case SetSecret(entries, _, _) => GoodEntries(entries)
    case UpdateSecret(entries, _, _, _) => GoodEntries(entries)
    case DeleteSecret(entries, _) => GoodEntries(entries)
    case ReadSecrets => true
  }

  /** The command ended as its method promises. */
  ghost predicate Ended(h: Entry) {
    match h.command
    case Up(p) => UpEnds(p, h.pre, h.run, h.post, h.cancelled, h.checks, h.err)
    case Down(p, destroy) => DownEnds(p, destroy, h.pre, h.run, h.post, h.cancelled, h.checks, h.err)
    case SetSecret(entries, name, value) =>
      SetEnds(entries, name, value, h.pre, h.run, h.post, h.cancelled, h.report, h.err)
    case UpdateSecret(entries, name, value, generate) =>
      SecretsCommands.Entry(entries, h.spec, name) &&
        UpdateEnds(h.spec, value, generate, h.pre, h.run, h.post, h.cancelled, h.report, h.err)
    case DeleteSecret(entries, name) =>
      SecretsCommands.Entry(entries, h.spec, name) &&
        DeleteEnds(h.spec, h.pre, h.run, h.post, h.cancelled, h.report, h.err)
    case _ => true
  }

  ghost predicate Happened(h: Entry) {
    GoodCommand(h.command) && RunOf(h.command, h.pre, h.run, h.post) && Ended(h)
  }

  /** The world after the first `i` commands. */
  ghost function Reached(hs: seq<Entry>, s: Sys, i: nat): Sys
    requires i <= |hs|
  {
    if i == 0 then s else hs[i - 1].post
  }

  ghost function CommandAt(hs: seq<Entry>, i: nat): Entry
    requires i < |hs|
  {
    hs[i]
  }

  /** Commands one after the other, from `s` to `t`; the world changes only
      through them. */
  ghost predicate Chained(hs: seq<Entry>, s: Sys, t: Sys) {
    && (forall i: nat {:trigger CommandAt(hs, i)} :: i < |hs| ==>
      Happened(CommandAt(hs, i)) && CommandAt(hs, i).pre == Reached(hs, s, i))
    && t == Reached(hs, s, |hs|)
  }

  lemma ChainedUnsnoc(hs: seq<Entry>, s: Sys, t: Sys) returns (before: seq<Entry>, last: Entry)
    requires Chained(hs, s, t) && hs != []
    ensures hs == before + [last] && |before| < |hs| && last == hs[|hs| - 1]
    ensures Chained(before, s, last.pre) && Happened(last) && last.post == t
    ensures forall i :: 0 <= i < |before| ==> before[i] == hs[i]
  {
    hide Happened;
    before, last := hs[..|hs| - 1], hs[|hs| - 1];
    assert CommandAt(hs, |hs| - 1) == last;
    forall i: nat | i < |before|
      ensures Happened(CommandAt(before, i)) && CommandAt(before, i).pre == Reached(before, s, i)
    {
      assert CommandAt(hs, i) == CommandAt(before, i);
    }
  }

  lemma HappenedMeans(h: Entry)
    requires Happened(h)
    ensures GoodCommand(h.command) && RunOf(h.command, h.pre, h.run, h.post) && Ended(h)
  {
    hide GoodCommand, RunOf, Ended;
  }

  // ---- Defaults -----------------------------------------------------------

  /** The built-in entry of that name makes its values from `src`. */
  ghost predicate Default(n: string, src: Source) {
    exists b :: b in BUILTIN && b.name == n && b.source == src
  }

  lemma MadeIsBuiltin(entries: seq<SecretSpec>, e: SecretSpec)
    requires GoodEntries(entries) && e in entries && !e.source.User?
    ensures e in BUILTIN
  {
    hide ValidName, IsCatalogue;
    var declared :| IsCatalogue(BUILTIN, declared, entries);
    EntryNamesValid(declared, entries, e);
  }

  lemma SourcedIsDefault(entries: seq<SecretSpec>, n: string, src: Source)
    requires GoodEntries(entries) && Sourced(entries, n, src) && !src.User?
    ensures Default(n, src)
  {
    hide GoodEntries;
    var e :| e in entries && e.name == n && e.source == src;
    MadeIsBuiltin(entries, e);
  }

  lemma RegenerableIsDefault(entries: seq<SecretSpec>, n: string, src: Source)
    requires GoodEntries(entries) && Regenerable(entries, n, src)
    ensures Default(n, src) && n != SALT_KEY
  {
    hide GoodEntries, MASTER_KEY, DB_PASSWORD, GATEWAY_TOKEN, AGENT_KEY;
    var e :| e in entries && e.name == n && e.source == src && e.rotatable;
    MadeIsBuiltin(entries, e);
    if n == SALT_KEY { OnlyOneSalt(e); }
  }

  lemma OnlyOneSalt(b: SecretSpec)
    requires b in BUILTIN && b.name == SALT_KEY
    ensures !b.rotatable && b.source.Generated?
  {
    BuiltinNamesDiffer();
    hide MASTER_KEY, SALT_KEY, DB_PASSWORD, GATEWAY_TOKEN, AGENT_KEY;
    assert BUILTIN[1].name == SALT_KEY;
  }

  lemma OnlyAgentKeyMinted(n: string)
    requires Default(n, Minted)
    ensures n == AGENT_KEY
  {
    hide MASTER_KEY, SALT_KEY, DB_PASSWORD, GATEWAY_TOKEN, AGENT_KEY;
  }

  lemma BuiltinIsSourced(entries: seq<SecretSpec>)
    requires GoodEntries(entries)
    ensures forall b :: b in BUILTIN ==> b in entries
  {
    hide MASTER_KEY, SALT_KEY, DB_PASSWORD, GATEWAY_TOKEN, AGENT_KEY;
    var declared :| IsCatalogue(BUILTIN, declared, entries);
  }

  lemma PlanEntries(p: Plan)
    requires GoodPlan(p)
    ensures GoodEntries(p.entries)
  {
    hide IsCatalogue, Usable, InZoneOrder;
  }

  // ---- What may touch a keychain value ------------------------------------

  /** Only an update, a delete, and the destruction of a machine that minted
      it may change or drop the value of `n`. An update that generates needs an
      entry that may be rotated. */
  ghost predicate Touches(c: Command, n: string) {
    match c
    case UpdateSecret(entries, name, _, generate) =>
      name == n && (generate ==> exists src :: Regenerable(entries, n, src))
    case DeleteSecret(_, name) => name == n
    case Down(p, destroy) => destroy && Sourced(p.entries, n, Minted)
    case _ => false
  }

  ghost predicate SameItem(s: Sys, t: Sys, n: string) {
    n in s.keychain ==> n in t.keychain && t.keychain[n] == s.keychain[n]
  }

  /** Calls that write the keychain. */
  predicate WritesKeychain(e: Event) {
    e.KeychainPut? || e.KeychainDelete?
  }

  lemma OtherCallsKeepKeychain(s: Sys, e: Event, o: Outcome, s': Sys)
    requires Next(s, e, o, s') && !WritesKeychain(e)
    ensures s'.keychain == s.keychain && s'.hasKeychain == s.hasKeychain
  {
    hide Accepts;
  }

  lemma PutKeeps(s: Sys, e: Event, o: Outcome, s': Sys, n: string)
    requires e.KeychainPut? && Next(s, e, o, s')
    ensures n != e.name ==> SameItem(s, s', n)
    ensures !e.replace ==> SameItem(s, s', n)
    ensures forall m :: m in s'.keychain ==>
      SameItem(s', s, m) || (m == e.name && s'.keychain[m] == Item(e.value, e.source))
  {
    hide ValidName, ValidValue;
  }

  lemma DeleteKeeps(s: Sys, e: Event, o: Outcome, s': Sys, n: string)
    requires e.KeychainDelete? && Next(s, e, o, s')
    ensures n != e.name ==> SameItem(s, s', n)
    ensures forall m :: m in s'.keychain ==> SameItem(s', s, m)
  {
  }

  lemma PutGuard(c: Command, s: Sys, e: Event)
    requires e.KeychainPut? && May(c, s, e)
    ensures c.Up? ==> !e.replace && !e.source.User? && Sourced(c.plan.entries, e.name, e.source)
    ensures c.SetSecret? ==> !e.replace && e.source.User? && e.name == c.name
    ensures c.UpdateSecret? ==>
      e.name == c.name && (if c.generate then Regenerable(c.entries, e.name, e.source) else e.source.User?)
    ensures e.source.Minted? ==> !s.machine.NoMachine? && (e.value, s.incarnation) in s.issued
    ensures c.Up? || c.SetSecret? || c.UpdateSecret?
  {
    hide Regenerable, Consumes, Sourced;
  }

  lemma DeleteGuard(c: Command, s: Sys, e: Event)
    requires e.KeychainDelete? && May(c, s, e)
    ensures c.DeleteSecret? || c.Down?
    ensures c.DeleteSecret? ==> e.name == c.name
    ensures c.Down? ==> c.destroy && s.machine.NoMachine? && Sourced(c.plan.entries, e.name, Minted)
  {
    hide Sourced;
  }

  lemma StepKeepsItem(c: Command, s: Sys, e: Event, o: Outcome, s': Sys, n: string)
    requires May(c, s, e) && Next(s, e, o, s') && !Touches(c, n)
    ensures SameItem(s, s', n)
  {
    hide May, Next, Regenerable, Sourced;
    if e.KeychainPut? {
      PutGuard(c, s, e);
      PutKeeps(s, e, o, s', n);
    } else if e.KeychainDelete? {
      DeleteGuard(c, s, e);
      DeleteKeeps(s, e, o, s', n);
    } else {
      OtherCallsKeepKeychain(s, e, o, s');
    }
  }

  lemma {:induction false} RunKeepsItem(c: Command, s: Sys, run: seq<Step>, t: Sys, n: string)
    requires RunOf(c, s, run, t) && !Touches(c, n)
    ensures SameItem(s, t, n)
  {
    hide May, Next, RunOf, Touches;
    if run == [] {
      EmptyRun(c, s, t);
    } else {
      var k := |run| - 1;
      RunUnsnoc(c, s, run, t);
      RunKeepsItem(c, s, run[..k], run[k].pre, n);
      StepKeepsItem(c, run[k].pre, run[k].event, run[k].outcome, t, n);
    }
  }

  /** Over every history, a value in the keychain stays as it is until a command
      that may touch it. */
  lemma {:induction false} ItemsSurvive(hs: seq<Entry>, s: Sys, t: Sys, n: string)
    requires Chained(hs, s, t)
    requires forall i :: 0 <= i < |hs| ==> !Touches(hs[i].command, n)
    ensures SameItem(s, t, n)
    decreases |hs|
  {
    hide RunOf, Touches, Happened, Chained;
    if hs == [] {
      EmptyChain(s, t);
    } else {
      var before, last := ChainedUnsnoc(hs, s, t);
      ItemsSurvive(before, s, last.pre, n);
      HappenedMeans(last);
      RunKeepsItem(last.command, last.pre, last.run, last.post, n);
    }
  }

  lemma EmptyChain(s: Sys, t: Sys)
    requires Chained([], s, t)
    ensures s == t
  {
  }

  lemma SaltIsNeverTouched(c: Command)
    requires GoodCommand(c) && !(c.DeleteSecret? && c.name == SALT_KEY)
    requires !(c.UpdateSecret? && c.name == SALT_KEY && !c.generate)
    ensures !Touches(c, SALT_KEY)
  {
    hide GoodEntries, GoodPlan, MASTER_KEY, SALT_KEY, DB_PASSWORD, GATEWAY_TOKEN, AGENT_KEY, Regenerable, Sourced;
    if c.UpdateSecret? && c.generate && c.name == SALT_KEY {
      forall src ensures !Regenerable(c.entries, SALT_KEY, src) {
        if Regenerable(c.entries, SALT_KEY, src) { RegenerableIsDefault(c.entries, SALT_KEY, src); }
      }
    }
    if c.Down? && Sourced(c.plan.entries, SALT_KEY, Minted) {
      PlanEntries(c.plan);
      SourcedIsDefault(c.plan.entries, SALT_KEY, Minted);
      SaltIsNotMinted();
    }
  }

  lemma SaltIsNotMinted()
    ensures !Default(SALT_KEY, Minted)
  {
    hide MASTER_KEY, SALT_KEY, DB_PASSWORD, GATEWAY_TOKEN, AGENT_KEY;
    if b :| b in BUILTIN && b.name == SALT_KEY && b.source == Minted { OnlyOneSalt(b); }
  }

  /** The key that encrypts stored data survives everything but being updated
      or deleted by hand: no up, down, destroy, set or `update --generate` changes it. */
  lemma SaltKeySurvives(hs: seq<Entry>, s: Sys, t: Sys)
    requires Chained(hs, s, t)
    requires forall i :: 0 <= i < |hs| ==>
      var c := hs[i].command;
      !(c.DeleteSecret? && c.name == SALT_KEY) && !(c.UpdateSecret? && c.name == SALT_KEY && !c.generate)
    ensures SameItem(s, t, SALT_KEY)
  {
    hide GoodCommand, Touches, SALT_KEY, RunOf, Ended;
    forall i | 0 <= i < |hs| ensures !Touches(hs[i].command, SALT_KEY) {
      ChainedAt(hs, s, t, i);
      SaltIsNeverTouched(hs[i].command);
    }
    ItemsSurvive(hs, s, t, SALT_KEY);
  }

  lemma ChainedAt(hs: seq<Entry>, s: Sys, t: Sys, i: nat)
    requires Chained(hs, s, t) && i < |hs|
    ensures GoodCommand(hs[i].command)
  {
    hide GoodCommand, RunOf, Ended;
    assert Happened(CommandAt(hs, i));
  }

  // ---- Where values come from ---------------------------------------------

  /** Every item was set by the user or made by its entry's own source. */
  ghost predicate SourcesKnown(s: Sys) {
    forall n :: n in s.keychain ==> s.keychain[n].source.User? || Default(n, s.keychain[n].source)
  }

  lemma PutSourceKnown(c: Command, s: Sys, e: Event)
    requires GoodCommand(c) && e.KeychainPut? && May(c, s, e)
    ensures e.source.User? || Default(e.name, e.source)
  {
    hide May, Regenerable, Sourced, GoodEntries, GoodPlan, Default;
    PutGuard(c, s, e);
    if c.Up? {
      PlanEntries(c.plan);
      SourcedIsDefault(c.plan.entries, e.name, e.source);
    } else if c.UpdateSecret? && c.generate {
      RegenerableIsDefault(c.entries, e.name, e.source);
    }
  }

  lemma StepKeepsSources(c: Command, s: Sys, e: Event, o: Outcome, s': Sys)
    requires GoodCommand(c) && May(c, s, e) && Next(s, e, o, s') && SourcesKnown(s)
    ensures SourcesKnown(s')
  {
    hide May, Next, GoodCommand, Default;
    if e.KeychainPut? {
      PutSourceKnown(c, s, e);
      PutKeeps(s, e, o, s', e.name);
      forall n | n in s'.keychain ensures s'.keychain[n].source.User? || Default(n, s'.keychain[n].source) {}
    } else if e.KeychainDelete? {
      DeleteKeeps(s, e, o, s', e.name);
      forall n | n in s'.keychain ensures s'.keychain[n].source.User? || Default(n, s'.keychain[n].source) {}
    } else {
      OtherCallsKeepKeychain(s, e, o, s');
    }
  }

  lemma {:induction false} RunKeepsSources(c: Command, s: Sys, run: seq<Step>, t: Sys)
    requires GoodCommand(c) && RunOf(c, s, run, t) && SourcesKnown(s)
    ensures SourcesKnown(t)
  {
    hide May, Next, RunOf, GoodCommand, SourcesKnown;
    if run == [] {
      EmptyRun(c, s, t);
    } else {
      var k := |run| - 1;
      RunUnsnoc(c, s, run, t);
      RunKeepsSources(c, s, run[..k], run[k].pre);
      StepKeepsSources(c, run[k].pre, run[k].event, run[k].outcome, t);
    }
  }

  /** Over every history, an item's recorded source is the user or its entry's
      default. */
  lemma {:induction false} SourcesStayKnown(hs: seq<Entry>, s: Sys, t: Sys)
    requires Chained(hs, s, t) && SourcesKnown(s)
    ensures SourcesKnown(t)
    decreases |hs|
  {
    hide RunOf, Happened, Chained, SourcesKnown, GoodCommand, Ended;
    if hs == [] {
      EmptyChain(s, t);
    } else {
      var before, last := ChainedUnsnoc(hs, s, t);
      SourcesStayKnown(before, s, last.pre);
      HappenedMeans(last);
      RunKeepsSources(last.command, last.pre, last.run, last.post);
    }
  }
}

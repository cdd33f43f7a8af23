/** When the machine's secret store agrees with the keychain, over every
    history of commands (internal/app/secrets.go, internal/app/lifecycle_secrets.go). */
module Coherence {
  import opened Text
  import opened Roles
  import opened Reports
  import opened Catalogues
  import opened WellFormedness
  import opened Systems
  import opened Rules
  import opened Runs
  import opened Hosts
  import opened Ups
  import opened UpCommand
  import opened Downs
  import opened DownCommand
  import opened NetworkRuns
  import opened SecretsCommands
  import opened Histories

  /** What lclaw stored under `n`, if anything, is the keychain's value. */
  ghost predicate Coherent(s: Sys, n: string) {
    n in s.store && s.store[n].labelled ==> n in s.keychain && s.keychain[n].value == s.store[n].value
  }

  lemma InSyncIsCoherent(s: Sys, n: string)
    requires InSync(s, n)
    ensures Coherent(s, n)
  {
  }

  // ---- One call -----------------------------------------------------------

  lemma StoreGuard(c: Command, s: Sys, e: Event)
    requires e.StoreSecret? && May(c, s, e)
    ensures e.name in s.keychain && s.keychain[e.name].value == e.value
  {
    hide Consumes;
  }

  lemma OtherCallsKeepCoherence(s: Sys, e: Event, o: Outcome, s': Sys, n: string)
    requires Next(s, e, o, s') && !WritesKeychain(e) && !e.StoreSecret? && Coherent(s, n)
    ensures Coherent(s', n)
  {
    hide Accepts;
  }

  lemma StoringCoheres(s: Sys, e: Event, o: Outcome, s': Sys, n: string)
    requires e.StoreSecret? && Next(s, e, o, s') && Coherent(s, n)
    requires e.name in s.keychain && s.keychain[e.name].value == e.value
    ensures Coherent(s', n)
  {
    hide Accepts;
  }

  /** A new item cannot contradict the store: nothing was stored for it. */
  lemma PuttingCoheres(s: Sys, e: Event, o: Outcome, s': Sys, n: string)
    requires e.KeychainPut? && (e.replace ==> e.name != n) && Next(s, e, o, s') && Coherent(s, n)
    ensures Coherent(s', n)
  {
    hide ValidName, ValidValue;
  }

  lemma DeletingCoheres(s: Sys, e: Event, o: Outcome, s': Sys, n: string)
    requires e.KeychainDelete? && Next(s, e, o, s') && Coherent(s, n)
    requires e.name != n || s.store == map[]
    ensures Coherent(s', n)
  {
  }

  /** Commands whose subject is the value of `n` in the keychain. */
  ghost predicate Rewrites(c: Command, n: string) {
    (c.UpdateSecret? || c.DeleteSecret?) && c.name == n
  }

  lemma StepCoheres(c: Command, s: Sys, e: Event, o: Outcome, s': Sys, n: string)
    requires May(c, s, e) && Next(s, e, o, s') && Sane(s) && Coherent(s, n) && !Rewrites(c, n)
    ensures Coherent(s', n)
  {
    hide May, Next, Coherent;
    if e.KeychainPut? {
      PutGuard(c, s, e);
      PuttingCoheres(s, e, o, s', n);
    } else if e.KeychainDelete? {
      DeleteGuard(c, s, e);
      DeletingCoheres(s, e, o, s', n);
    } else if e.StoreSecret? {
      StoreGuard(c, s, e);
      StoringCoheres(s, e, o, s', n);
    } else {
      OtherCallsKeepCoherence(s, e, o, s', n);
    }
  }

  lemma {:induction false} RunSane(c: Command, s: Sys, run: seq<Step>, t: Sys)
    requires RunOf(c, s, run, t) && Sane(s)
    ensures Sane(t)
  {
    hide May, Next, RunOf, Sane;
    if run == [] {
      EmptyRun(c, s, t);
    } else {
      var k := |run| - 1;
      RunUnsnoc(c, s, run, t);
      RunSane(c, s, run[..k], run[k].pre);
      SaneKept(run[k].pre, run[k].event, run[k].outcome, t);
    }
  }

  lemma {:induction false} RunCoheres(c: Command, s: Sys, run: seq<Step>, t: Sys, n: string)
    requires RunOf(c, s, run, t) && Sane(s) && Coherent(s, n) && !Rewrites(c, n)
    ensures Coherent(t, n)
  {
    hide May, Next, RunOf, Sane, Coherent;
    if run == [] {
      EmptyRun(c, s, t);
    } else {
      var k := |run| - 1;
      RunUnsnoc(c, s, run, t);
      RunSane(c, s, run[..k], run[k].pre);
      RunCoheres(c, s, run[..k], run[k].pre, n);
      StepCoheres(c, run[k].pre, run[k].event, run[k].outcome, t, n);
    }
  }

  // ---- One command --------------------------------------------------------

  /** The command reports that store and keychain now agree on `n`. */
  ghost predicate Settles(h: Entry, n: string) {
    h.err.NoErr? &&
    match h.command
    case Up(p) => AllPass(h.checks) && Consumes(p, n)
    case Down(p, destroy) =>
      || (!destroy && Check(SecretStore, Pass) in h.checks)
      || (Removes(h.run) && !DestroyFailed(h.checks))
    case SetSecret(_, name, _) => name == n && h.report.store.StoreStored?
    case UpdateSecret(_, name, _, _) => name == n && h.report.store.StoreStored?
    case DeleteSecret(_, name) => name == n && (h.report.store.StoreRemoved? || h.report.store.StoreAbsent?)
    case _ => false
  }

  /** The command rewrote the keychain item and does not report that the store
      followed: it failed, the machine was stopped, or it was cancelled. */
  ghost predicate Unsettles(h: Entry, n: string) {
    Rewrites(h.command, n) && h.post.keychain != h.pre.keychain && !Settles(h, n)
  }

  lemma UpSettles(h: Entry, n: string)
    requires Happened(h) && h.command.Up? && Settles(h, n)
    ensures InSync(h.post, n)
  {
    hide RunOf, GoodPlan, InSync, AsPlanned, SelectedNetworksExist, WorkloadsOf, PlayedPrefix, UpReport, Promising;
    var p := h.command.plan;
    assert Goal(p, h.post);
    var r, e :| r in p.roles && e in p.entries && e.name == n && r in e.zones;
    assert ZoneUp(p, h.post, r);
    InConsumed(p, r, e);
  }

  lemma InConsumed(p: Plan, r: Role, e: SecretSpec)
    requires e in p.entries && r in e.zones
    ensures e in Consumed(p.entries, r)
  {
    ConsumedIsFilter(p.entries, r);
  }

  lemma NothingStoredCoheres(s: Sys, n: string)
    requires Labelled(s) == {}
    ensures Coherent(s, n)
  {
    LabelledMeans(s, n);
  }

  lemma LabelledMeans(s: Sys, n: string)
    ensures n in Labelled(s) <==> n in s.store && s.store[n].labelled
  {
  }

  lemma DownSettles(h: Entry, n: string)
    requires Happened(h) && h.command.Down? && Settles(h, n) && Sane(h.pre)
    ensures Coherent(h.post, n)
  {
    hide RunOf, GoodPlan, Stops, Removes, DestroyFailed, Coherent, Sane, Downed;
    hide DownEnds;
    RunSane(h.command, h.pre, h.run, h.post);
    var Down(p, destroy) := h.command;
    if Removes(h.run) && !DestroyFailed(h.checks) {
      assert h.post.machine.NoMachine? by { DestroyedIsGone(p, destroy, h); }
      NoMachineIsEmpty(h.post);
    } else {
      PassedEndsAreTrue(p, destroy, h.pre, h.run, h.post, h.cancelled, h.checks, h.err);
    }
    NothingStoredIfEmpty(h.post);
    NothingStoredCoheres(h.post, n);
  }

  lemma DestroyedIsGone(p: Plan, destroy: bool, h: Entry)
    requires DownEnds(p, destroy, h.pre, h.run, h.post, h.cancelled, h.checks, h.err) && h.err.NoErr?
    requires Removes(h.run) && !DestroyFailed(h.checks)
    ensures h.post.machine.NoMachine?
  {
    hide MintedGone, CleanDown, Destroyable, ReportTold, IdleTold, Stops, Removes, Faultless, DestroyFailed;
    hide ListingFailed, HasFail, Downed;
  }

  lemma NoMachineIsEmpty(s: Sys)
    requires Sane(s) && s.machine.NoMachine?
    ensures s.store == map[]
  {
  }

  lemma NothingStoredIfEmpty(s: Sys)
    ensures s.store == map[] ==> Labelled(s) == {}
  {
  }

  lemma SecretSettles(h: Entry, n: string)
    requires Happened(h) && (h.command.SetSecret? || h.command.UpdateSecret? || h.command.DeleteSecret?)
    requires Settles(h, n)
    ensures Coherent(h.post, n)
  {
    hide RunOf, GoodEntries, Faultless, ValidValue;
  }

  lemma SettlingCoheres(h: Entry, n: string)
    requires Happened(h) && Settles(h, n) && Sane(h.pre)
    ensures Coherent(h.post, n)
  {
    hide Happened, Settles, Coherent, Sane, InSync;
    SettlersAre(h, n);
    if h.command.Up? {
      UpSettles(h, n);
      InSyncIsCoherent(h.post, n);
    } else if h.command.Down? {
      DownSettles(h, n);
    } else {
      SecretSettles(h, n);
    }
  }

  lemma SettlersAre(h: Entry, n: string)
    requires Settles(h, n)
    ensures !h.command.Status? && !h.command.ReadSecrets?
  {
    hide Removes, Stops;
  }

  /** Without a change of the keychain a rewriting command stores nothing else. */
  lemma IdleUpdateCoheres(h: Entry, n: string)
    requires h.command.UpdateSecret? && Ended(h) && h.command.name == n && h.post.keychain == h.pre.keychain
    requires Coherent(h.pre, n)
    ensures Coherent(h.post, n)
  {
    hide Faultless, ValidValue, UpdateVerdict, SecretsCommands.Entry;
    EntryNamed(h.command.entries, h.spec, n);
    if h.err.NoErr? {
      var m, v :| Replaced(h.spec, h.command.generate, h.command.value, h.pre, m, v) &&
        Pushed(m, h.post, h.spec.name, v, h.report.store);
      UpdatedCoheres(h.spec, h.command.generate, h.command.value, h.pre, m, v, h.post, h.report.store);
    }
  }

  lemma EntryNamed(entries: seq<SecretSpec>, spec: SecretSpec, name: string)
    requires SecretsCommands.Entry(entries, spec, name)
    ensures spec.name == name
  {
  }

  lemma UpdatedCoheres(spec: SecretSpec, generate: bool, value: Value, s: Sys, m: Sys, v: Value, t: Sys,
      state: StoreState)
    requires Replaced(spec, generate, value, s, m, v) && Pushed(m, t, spec.name, v, state)
    requires t.keychain == s.keychain && Coherent(s, spec.name)
    ensures Coherent(t, spec.name)
  {
    hide ValidValue;
  }

  lemma IdleDeleteCoheres(h: Entry, n: string)
    requires h.command.DeleteSecret? && Ended(h) && h.command.name == n && h.post.keychain == h.pre.keychain
    requires Coherent(h.pre, n)
    ensures Coherent(h.post, n)
  {
    hide Faultless;
    assert h.spec.name !in (h.pre.keychain - {h.spec.name});
  }

  lemma IdleRewriteCoheres(h: Entry, n: string)
    requires Happened(h) && Rewrites(h.command, n) && h.post.keychain == h.pre.keychain && Coherent(h.pre, n)
    ensures Coherent(h.post, n)
  {
    hide Happened, Ended, Coherent;
    HappenedMeans(h);
    if h.command.UpdateSecret? { IdleUpdateCoheres(h, n); } else { IdleDeleteCoheres(h, n); }
  }

  /** A command keeps agreement on `n` unless it unsettles it. */
  lemma CommandCoheres(h: Entry, n: string)
    requires Happened(h) && Sane(h.pre)
    requires Settles(h, n) || (Coherent(h.pre, n) && !Unsettles(h, n))
    ensures Coherent(h.post, n)
  {
    hide Happened, Settles, Coherent, Sane, Rewrites;
    if Settles(h, n) {
      SettlingCoheres(h, n);
    } else if Rewrites(h.command, n) {
      IdleRewriteCoheres(h, n);
    } else {
      HappenedMeans(h);
      RunCoheres(h.command, h.pre, h.run, h.post, n);
    }
  }

  // ---- Every history ------------------------------------------------------

  /** Was the last command that says anything about `n` one that left doubt? */
  ghost predicate Doubt(hs: seq<Entry>, n: string, before: bool) {
    if hs == [] then before
    else
      var last := hs[|hs| - 1];
      !Settles(last, n) && (Unsettles(last, n) || Doubt(hs[..|hs| - 1], n, before))
  }

  lemma DoubtUnsnoc(hs: seq<Entry>, prior: seq<Entry>, last: Entry, n: string, before: bool)
    requires hs == prior + [last] && !Doubt(hs, n, before)
    ensures Settles(last, n) || (!Unsettles(last, n) && !Doubt(prior, n, before))
  {
    hide Settles, Unsettles;
    assert hs[..|hs| - 1] == prior;
  }

  /** Over every history, what lclaw stored in the machine under a name is the
      keychain's value, unless the last word on that name was a write that did
      not reach the store. A clean `up`, `set`, `update`, `delete` or purge ends
      the doubt. */
  lemma {:induction false} StoreAgrees(hs: seq<Entry>, s: Sys, t: Sys, n: string, before: bool)
    requires Chained(hs, s, t) && Sane(s)
    requires before || Coherent(s, n)
    requires !Doubt(hs, n, before)
    ensures Coherent(t, n)
    decreases |hs|
  {
    hide Happened, Chained, Settles, Unsettles, Coherent, Sane, Doubt;
    if hs == [] {
      EmptyChain(s, t);
      NoHistoryNoDoubt(n, before);
    } else {
      var prior, last := ChainedUnsnoc(hs, s, t);
      DoubtUnsnoc(hs, prior, last, n, before);
      ChainSane(prior, s, last.pre);
      if !Settles(last, n) { StoreAgrees(prior, s, last.pre, n, before); }
      CommandCoheres(last, n);
    }
  }

  lemma NoHistoryNoDoubt(n: string, before: bool)
    ensures Doubt([], n, before) == before
  {
  }

  lemma {:induction false} ChainSane(hs: seq<Entry>, s: Sys, t: Sys)
    requires Chained(hs, s, t) && Sane(s)
    ensures Sane(t)
    decreases |hs|
  {
    hide Happened, Chained, Sane, RunOf, Ended, GoodCommand;
    if hs == [] {
      EmptyChain(s, t);
    } else {
      var prior, last := ChainedUnsnoc(hs, s, t);
      ChainSane(prior, s, last.pre);
      HappenedMeans(last);
      RunSane(last.command, last.pre, last.run, last.post);
    }
  }

  /** A clean `up` of every zone brings every catalogue entry into the store. */
  lemma CleanUpStoresAll(h: Entry, e: SecretSpec)
    requires Happened(h) && h.command.Up? && h.command.plan.roles == ALL && h.err.NoErr? && AllPass(h.checks)
    requires e in h.command.plan.entries
    ensures InSync(h.post, e.name)
  {
    hide Ended, RunOf, InSync, GoodPlan, AllPass, Consumes, Stops, Removes, ListingFailed, DestroyFailed;
    EveryEntryIsConsumed(h.command.plan, e);
    UpSettles(h, e.name);
  }

  lemma EveryEntryIsConsumed(p: Plan, e: SecretSpec)
    requires GoodPlan(p) && p.roles == ALL && e in p.entries
    ensures Consumes(p, e.name)
  {
    hide GoodPlan;
    EntryHasZone(p, e);
    HeadIsIn(e.zones);
    var r := e.zones[0];
    assert ALL[r.Rank()] == r;
    assert r in p.roles && r in e.zones;
  }

  lemma EntryHasZone(p: Plan, e: SecretSpec)
    requires GoodPlan(p) && e in p.entries
    ensures e.zones != []
  {
    hide Usable, InZoneOrder, ValidName, MASTER_KEY, SALT_KEY, DB_PASSWORD, GATEWAY_TOKEN, AGENT_KEY;
  }
}

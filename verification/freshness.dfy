/** Whether the minted key in the keychain fits the machine that is there
    (internal/app/lifecycle.go, internal/app/lifecycle_secrets.go). */
module Freshness {
  import opened Roles
  import opened Reports
  import opened Catalogues
  import opened Systems
  import opened Rules
  import opened Runs
  import opened Hosts
  import opened Downs
  import opened DownCommand
  import opened SecretSteps
  import opened Histories

  /** Every minted item was issued by the machine that exists now. */
  ghost predicate Fresh(s: Sys) {
    forall n :: n in s.keychain && s.keychain[n].source.Minted? ==> Fits(s, s.keychain[n].value)
  }

  /** The machine exists and has issued the value. */
  ghost predicate Fits(s: Sys, v: Value) {
    !s.machine.NoMachine? && (v, s.incarnation) in s.issued
  }

  lemma FitsStep(s: Sys, e: Event, o: Outcome, t: Sys, v: Value)
    requires Next(s, e, o, t) && !e.RemoveMachine? && Fits(s, v)
    ensures Fits(t, v)
  {
    hide Accepts, Interrupted;
    if e.InitMachine? { InitNeedsNoMachine(s, o, t); }
    NextCases(s, e, o, t);
    if Interrupted(s, e, t) { InterruptedKeepsMachine(s, e, t); }
  }

  lemma InitNeedsNoMachine(s: Sys, o: Outcome, t: Sys)
    requires Next(s, Event.InitMachine, o, t) && !s.machine.NoMachine?
    ensures t == s
  {
  }

  lemma InterruptedKeepsMachine(s: Sys, e: Event, t: Sys)
    requires Interrupted(s, e, t)
    ensures t == s.(pods := t.pods)
  {
  }

  lemma StepKeepsFresh(c: Command, s: Sys, e: Event, o: Outcome, t: Sys)
    requires May(c, s, e) && Next(s, e, o, t) && !e.RemoveMachine? && Fresh(s)
    ensures Fresh(t)
  {
    hide May, Next, Fits;
    if e.KeychainPut? { PutGuard(c, s, e); PutKeeps(s, e, o, t, e.name); }
    else if e.KeychainDelete? { DeleteKeeps(s, e, o, t, e.name); }
    else { OtherCallsKeepKeychain(s, e, o, t); }
    forall n | n in t.keychain && t.keychain[n].source.Minted? ensures Fits(t, t.keychain[n].value) {
      if e.KeychainPut? && !SameItem(t, s, n) { PutFits(s, e); }
      FitsStep(s, e, o, t, t.keychain[n].value);
    }
  }

  lemma PutFits(s: Sys, e: Event)
    requires e.KeychainPut? && e.source.Minted? && !s.machine.NoMachine? && (e.value, s.incarnation) in s.issued
    ensures Fits(s, e.value)
  {
  }

  lemma RemovesSnoc(run: seq<Step>)
    requires run != []
    ensures Removes(run) <==> Removes(run[..|run| - 1]) || run[|run| - 1].event.RemoveMachine?
  {
  }

  lemma {:induction false} RunKeepsFresh(c: Command, s: Sys, run: seq<Step>, t: Sys)
    requires RunOf(c, s, run, t) && !Removes(run) && Fresh(s)
    ensures Fresh(t)
  {
    hide May, Next, RunOf, Fresh, Removes;
    if run == [] {
      EmptyRun(c, s, t);
    } else {
      var k := |run| - 1;
      RunUnsnoc(c, s, run, t);
      RemovesSnoc(run);
      RunKeepsFresh(c, s, run[..k], run[k].pre);
      StepKeepsFresh(c, run[k].pre, run[k].event, run[k].outcome, t);
    }
  }

  lemma RemovalIsDestroy(c: Command, s: Sys)
    requires May(c, s, Event.RemoveMachine)
    ensures c.Down? && c.destroy
  {
  }

  lemma {:induction false} OnlyDestroyRemoves(c: Command, s: Sys, run: seq<Step>, t: Sys)
    requires RunOf(c, s, run, t) && Removes(run)
    ensures c.Down? && c.destroy
  {
    hide May, Next, RunOf, Removes;
    if run == [] {
      NothingRemoved();
    } else {
      var k := |run| - 1;
      RunUnsnoc(c, s, run, t);
      RemovesSnoc(run);
      if run[k].event.RemoveMachine? {
        RemovalIsDestroy(c, run[k].pre);
      } else {
        OnlyDestroyRemoves(c, s, run[..k], run[k].pre);
      }
    }
  }

  lemma NothingRemoved()
    ensures !Removes([])
  {
  }

  /** A destroy that returned no error and reported no failure of its own. */
  ghost predicate CleanDestroy(h: Entry) {
    h.command.Down? && h.command.destroy ==> h.err.NoErr? && !DestroyFailed(h.checks)
  }

  lemma AgentKeyListed(entries: seq<SecretSpec>)
    requires GoodEntries(entries)
    ensures exists j :: 0 <= j < |entries| && entries[j].name == AGENT_KEY && entries[j].source.Minted?
  {
    hide GoodEntries, MASTER_KEY, SALT_KEY, DB_PASSWORD, GATEWAY_TOKEN, AGENT_KEY;
    BuiltinIsSourced(entries);
    assert BUILTIN[4] in BUILTIN;
    var j :| 0 <= j < |entries| && entries[j] == BUILTIN[4];
  }

  ghost predicate NoMinted(s: Sys) {
    forall n :: n in s.keychain ==> !s.keychain[n].source.Minted?
  }

  /** With no minted entry of the catalogue left, no minted item is left. */
  lemma MintedGoneMeans(p: Plan, t: Sys)
    requires GoodPlan(p) && SourcesKnown(t) && MintedGone(p.entries, |p.entries|, t)
    ensures NoMinted(t)
  {
    hide GoodPlan, Default, BUILTIN;
    PlanEntries(p);
    AgentKeyListed(p.entries);
    forall n | n in t.keychain ensures !t.keychain[n].source.Minted? {
      if t.keychain[n].source.Minted? { OnlyAgentKeyMinted(n); }
    }
  }

  lemma DestroyedIsFresh(h: Entry)
    requires Happened(h) && h.command.Down? && h.command.destroy && Removes(h.run) && CleanDestroy(h)
    requires SourcesKnown(h.post)
    ensures Fresh(h.post)
  {
    hide RunOf, CleanDown, Destroyable, SubjectsOf, DownSubjects, Stops, Removes, Faultless, DestroyFailed;
    hide ListingFailed, HasFail, Downed, GoodPlan, NothingLeft, Default, BUILTIN;
    MintedGoneMeans(h.command.plan, h.post);
  }

  /** Over every history whose destroys were clean, a minted key in the keychain
      fits the machine: it exists and issued that key. */
  lemma {:induction false} MintedKeysFit(hs: seq<Entry>, s: Sys, t: Sys)
    requires Chained(hs, s, t) && Fresh(s) && SourcesKnown(s)
    requires forall i :: 0 <= i < |hs| ==> CleanDestroy(hs[i])
    ensures Fresh(t) && SourcesKnown(t)
    decreases |hs|
  {
    hide RunOf, Happened, Chained, SourcesKnown, Fresh, Removes, GoodCommand, Ended, CleanDestroy;
    if hs == [] {
      EmptyChain(s, t);
    } else {
      var before, last := ChainedUnsnoc(hs, s, t);
      forall i | 0 <= i < |before| ensures CleanDestroy(before[i]) { assert before[i] == hs[i]; }
      MintedKeysFit(before, s, last.pre);
      HappenedMeans(last);
      RunKeepsSources(last.command, last.pre, last.run, last.post);
      if Removes(last.run) {
        OnlyDestroyRemoves(last.command, last.pre, last.run, last.post);
        DestroyedIsFresh(last);
      } else {
        RunKeepsFresh(last.command, last.pre, last.run, last.post);
      }
    }
  }

  // ---- Exactly when -------------------------------------------------------

  /** The machine is still there or took its keys with it. */
  ghost predicate NothingLeftBehind(s: Sys) {
    !s.machine.NoMachine? || NoMinted(s)
  }

  lemma FreshWithoutMachine(s: Sys)
    requires s.machine.NoMachine?
    ensures Fresh(s) <==> NoMinted(s)
  {
  }

  lemma DownNeverCreates(c: Command, s: Sys, e: Event)
    requires c.Down? && May(c, s, e)
    ensures !e.InitMachine?
  {
  }

  lemma GoneStaysGone(s: Sys, e: Event, o: Outcome, t: Sys)
    requires Next(s, e, o, t) && s.machine.NoMachine? && !e.InitMachine?
    ensures t.machine.NoMachine?
  {
  }

  lemma RemovedOrNot(s: Sys, o: Outcome, t: Sys)
    requires Next(s, Event.RemoveMachine, o, t)
    ensures t == s || t.machine.NoMachine?
  {
  }

  /** As long as the machine is there, `down` keeps its keys fitting. */
  lemma {:induction false} DownKeepsFresh(c: Command, s: Sys, run: seq<Step>, t: Sys)
    requires c.Down? && RunOf(c, s, run, t) && Fresh(s)
    ensures t.machine.NoMachine? || Fresh(t)
  {
    hide May, Next, RunOf, Fresh;
    if run == [] {
      EmptyRun(c, s, t);
    } else {
      var k := |run| - 1;
      RunUnsnoc(c, s, run, t);
      DownKeepsFresh(c, s, run[..k], run[k].pre);
      DownNeverCreates(c, run[k].pre, run[k].event);
      if run[k].pre.machine.NoMachine? {
        GoneStaysGone(run[k].pre, run[k].event, run[k].outcome, t);
      } else if run[k].event.RemoveMachine? {
        RemovedOrNot(run[k].pre, run[k].outcome, t);
      } else {
        StepKeepsFresh(c, run[k].pre, run[k].event, run[k].outcome, t);
      }
    }
  }

  /** After any `down`, destroying or not and however it ended, the minted keys
      fit exactly when the machine is still there or none is left. */
  lemma FreshAfterDownIff(c: Command, s: Sys, run: seq<Step>, t: Sys)
    requires c.Down? && RunOf(c, s, run, t) && Fresh(s)
    ensures Fresh(t) <==> NothingLeftBehind(t)
  {
    hide RunOf, Fresh, NoMinted;
    DownKeepsFresh(c, s, run, t);
    if t.machine.NoMachine? { FreshWithoutMachine(t); }
  }

  lemma StepWithoutFile(s: Sys, e: Event, o: Outcome, t: Sys)
    requires Next(s, e, o, t) && !s.hasKeychain
    ensures !t.hasKeychain && t.keychain == s.keychain
  {
    NextCases(s, e, o, t);
  }

  /** Without the keychain file no command changes an item. */
  lemma {:induction false} RunWithoutFile(c: Command, s: Sys, run: seq<Step>, t: Sys)
    requires RunOf(c, s, run, t) && !s.hasKeychain
    ensures !t.hasKeychain && t.keychain == s.keychain
  {
    hide May, Next, RunOf;
    if run == [] {
      EmptyRun(c, s, t);
    } else {
      var k := |run| - 1;
      RunUnsnoc(c, s, run, t);
      RunWithoutFile(c, s, run[..k], run[k].pre);
      StepWithoutFile(run[k].pre, run[k].event, run[k].outcome, t);
    }
  }

  lemma DownNeverPuts(c: Command, s: Sys, e: Event, o: Outcome, t: Sys)
    requires c.Down? && May(c, s, e) && Next(s, e, o, t)
    ensures forall n :: n in t.keychain ==> n in s.keychain && t.keychain[n] == s.keychain[n]
  {
    hide Accepts;
    NextCases(s, e, o, t);
  }

  lemma {:induction false} DownMintsNothing(c: Command, s: Sys, run: seq<Step>, t: Sys)
    requires c.Down? && RunOf(c, s, run, t) && NoMinted(s)
    ensures NoMinted(t)
  {
    hide May, Next, RunOf;
    if run == [] {
      EmptyRun(c, s, t);
    } else {
      var k := |run| - 1;
      RunUnsnoc(c, s, run, t);
      DownMintsNothing(c, s, run[..k], run[k].pre);
      DownNeverPuts(c, run[k].pre, run[k].event, run[k].outcome, t);
    }
  }

  /** What decides it beforehand, for a destroy that meets no fault and is not
      cancelled: nothing is left behind exactly when the keychain file is there
      to forget from or held no minted key. */
  lemma FaultlessDestroyIff(h: Entry)
    requires Happened(h) && h.command.Down? && h.command.destroy && Faultless(h.run) && !h.cancelled
    requires Destroyable(h.command.plan, h.pre) && SourcesKnown(h.pre)
    ensures h.post.machine.NoMachine?
    ensures NothingLeftBehind(h.post) <==> h.pre.hasKeychain || NoMinted(h.pre)
  {
    hide RunOf, CleanDown, Destroyable, SubjectsOf, DownSubjects, Stops, Removes, Faultless, DestroyFailed;
    hide ListingFailed, HasFail, Downed, GoodPlan, NothingLeft, MintedGone, NoMinted, SourcesKnown, Told;
    RunKeepsSources(h.command, h.pre, h.run, h.post);
    if NoMinted(h.pre) { DownMintsNothing(h.command, h.pre, h.run, h.post); }
    if h.pre.hasKeychain {
      MintedGoneMeans(h.command.plan, h.post);
    } else {
      RunWithoutFile(h.command, h.pre, h.run, h.post);
      SameMinted(h.pre, h.post);
    }
  }

  lemma SameMinted(s: Sys, t: Sys)
    requires t.keychain == s.keychain
    ensures NoMinted(t) <==> NoMinted(s)
  {
  }

  /** Every other command keeps them fitting. */
  lemma OthersKeepFresh(c: Command, s: Sys, run: seq<Step>, t: Sys)
    requires !c.Down? && RunOf(c, s, run, t) && Fresh(s)
    ensures Fresh(t)
  {
    hide RunOf, Fresh, Removes;
    if Removes(run) { OnlyDestroyRemoves(c, s, run, t); }
    RunKeepsFresh(c, s, run, t);
  }

  ghost predicate FreshThroughout(hs: seq<Entry>) {
    forall i :: 0 <= i < |hs| ==> Fresh(hs[i].post)
  }

  ghost predicate DownsLeaveNothing(hs: seq<Entry>) {
    forall i :: 0 <= i < |hs| ==> hs[i].command.Down? ==> NothingLeftBehind(hs[i].post)
  }

  lemma ThroughoutSnoc(hs: seq<Entry>, before: seq<Entry>, last: Entry)
    requires hs == before + [last]
    ensures FreshThroughout(hs) <==> FreshThroughout(before) && Fresh(last.post)
    ensures DownsLeaveNothing(hs) <==>
      DownsLeaveNothing(before) && (last.command.Down? ==> NothingLeftBehind(last.post))
  {
    hide Fresh, NothingLeftBehind;
    assert hs[|before|] == last;
    assert forall i :: 0 <= i < |before| ==> hs[i] == before[i];
    if FreshThroughout(hs) {
      forall i | 0 <= i < |before| ensures Fresh(before[i].post) { assert hs[i] == before[i]; }
    }
    if DownsLeaveNothing(hs) {
      forall i | 0 <= i < |before| ensures before[i].command.Down? ==> NothingLeftBehind(before[i].post) {
        assert hs[i] == before[i];
      }
    }
  }

  /** Over every history, the minted keys fit the machine after each command
      exactly when each `down` that left no machine left no minted key either. */
  lemma {:induction false} FreshThroughoutIff(hs: seq<Entry>, s: Sys, t: Sys)
    requires Chained(hs, s, t) && Fresh(s)
    ensures FreshThroughout(hs) <==> DownsLeaveNothing(hs)
    ensures FreshThroughout(hs) ==> Fresh(t)
    decreases |hs|
  {
    hide RunOf, Happened, Chained, Fresh, GoodCommand, Ended, NothingLeftBehind, FreshThroughout, DownsLeaveNothing;
    if hs == [] {
      EmptyChain(s, t);
      NoHistory();
    } else {
      var before, last := ChainedUnsnoc(hs, s, t);
      ThroughoutSnoc(hs, before, last);
      FreshThroughoutIff(before, s, last.pre);
      HappenedMeans(last);
      if FreshThroughout(before) {
        if last.command.Down? {
          FreshAfterDownIff(last.command, last.pre, last.run, last.post);
        } else {
          OthersKeepFresh(last.command, last.pre, last.run, last.post);
        }
      }
    }
  }

  lemma NoHistory()
    ensures FreshThroughout([]) && DownsLeaveNothing([])
  {
  }

  // ---- The exception ------------------------------------------------------

  /** Machines only issue values while they are the current one. */
  ghost predicate IssuedPast(s: Sys) {
    forall x :: x in s.issued ==> x.1 <= s.incarnation
  }

  /** The agent's key was minted by a machine that is gone. */
  ghost predicate Stale(s: Sys) {
    && AGENT_KEY in s.keychain && s.keychain[AGENT_KEY].source.Minted?
    && !Fits(s, s.keychain[AGENT_KEY].value) && IssuedPast(s)
  }

  lemma StaleIsNotFresh(s: Sys)
    requires Stale(s)
    ensures !Fresh(s)
  {
    hide Fits, IssuedPast, AGENT_KEY;
  }

  lemma IssuedNow(s: Sys, e: Event, o: Outcome, t: Sys)
    requires Next(s, e, o, t)
    ensures t.incarnation >= s.incarnation
    ensures (t.issued == s.issued || exists v :: t.issued == s.issued + {(v, s.incarnation)})
  {
    hide Accepts;
    if e.Mint? { assert Effect(s, e).issued == s.issued + {(e.value, s.incarnation)}; }
  }

  lemma IssuedPastStep(s: Sys, e: Event, o: Outcome, t: Sys)
    requires Next(s, e, o, t) && IssuedPast(s)
    ensures IssuedPast(t)
  {
    hide Next;
    IssuedNow(s, e, o, t);
  }

  lemma {:induction false} IssuedPastRun(c: Command, s: Sys, run: seq<Step>, t: Sys)
    requires RunOf(c, s, run, t) && IssuedPast(s)
    ensures IssuedPast(t)
  {
    hide May, Next, RunOf, IssuedPast;
    if run == [] {
      EmptyRun(c, s, t);
    } else {
      var k := |run| - 1;
      RunUnsnoc(c, s, run, t);
      IssuedPastRun(c, s, run[..k], run[k].pre);
      IssuedPastStep(run[k].pre, run[k].event, run[k].outcome, t);
    }
  }

  /** Every `down` after which the machine is gone and a minted key is left
      leaves that key stale. */
  lemma LeftBehindIsStale(h: Entry)
    requires Happened(h) && h.command.Down? && SourcesKnown(h.pre) && IssuedPast(h.pre)
    requires !NothingLeftBehind(h.post)
    ensures Stale(h.post)
  {
    hide Happened, GoodCommand, RunOf, Ended, SourcesKnown, IssuedPast, Default, AGENT_KEY;
    HappenedMeans(h);
    IssuedPastRun(h.command, h.pre, h.run, h.post);
    RunKeepsSources(h.command, h.pre, h.run, h.post);
    var n :| n in h.post.keychain && h.post.keychain[n].source.Minted?;
    MintedNameIs(h.post, n);
  }

  lemma MintedNameIs(s: Sys, n: string)
    requires SourcesKnown(s) && n in s.keychain && s.keychain[n].source.Minted?
    ensures n == AGENT_KEY
  {
    hide Default, AGENT_KEY;
    OnlyAgentKeyMinted(n);
  }

  /** `up`, `down` without destroy, `status` and `set`. */
  ghost predicate Everyday(c: Command) {
    c.Up? || (c.Down? && !c.destroy) || c.Status? || c.SetSecret? || c.ReadSecrets?
  }

  lemma EverydayGuard(c: Command, s: Sys, e: Event)
    requires GoodCommand(c) && Everyday(c) && May(c, s, e) && AGENT_KEY in s.keychain
    ensures !e.Mint? && !e.RemoveMachine? && !e.KeychainDelete?
  {
    hide GoodPlan, Sourced, Consumes, GoodEntries, AGENT_KEY;
    if e.Mint? {
      PlanEntries(c.plan);
      SourcedIsDefault(c.plan.entries, e.name, Minted);
      OnlyAgentKeyMinted(e.name);
    }
  }

  /** Without a mint nothing is issued, and a machine that comes is a new one. */
  lemma NothingIssued(s: Sys, e: Event, o: Outcome, t: Sys)
    requires Next(s, e, o, t) && !e.Mint? && !e.RemoveMachine?
    ensures t.issued == s.issued && t.incarnation >= s.incarnation
    ensures t.incarnation == s.incarnation ==> t.machine.NoMachine? == s.machine.NoMachine?
  {
    NextCases(s, e, o, t);
  }

  lemma StaleStep(s: Sys, e: Event, o: Outcome, t: Sys)
    requires Next(s, e, o, t) && !e.Mint? && !e.RemoveMachine? && Stale(s) && SameItem(s, t, AGENT_KEY)
    ensures Stale(t)
  {
    hide Next, AGENT_KEY;
    NothingIssued(s, e, o, t);
  }

  lemma EverydayKeeps(c: Command, n: string)
    requires Everyday(c)
    ensures !Touches(c, n)
  {
  }

  lemma {:induction false} StaleRun(c: Command, s: Sys, run: seq<Step>, t: Sys)
    requires GoodCommand(c) && Everyday(c) && RunOf(c, s, run, t) && Stale(s)
    ensures Stale(t)
  {
    hide May, Next, RunOf, GoodCommand, Everyday, Fits, IssuedPast, AGENT_KEY, Touches;
    if run == [] {
      EmptyRun(c, s, t);
    } else {
      var k := |run| - 1;
      RunUnsnoc(c, s, run, t);
      StaleRun(c, s, run[..k], run[k].pre);
      EverydayGuard(c, run[k].pre, run[k].event);
      EverydayKeeps(c, AGENT_KEY);
      StepKeepsItem(c, run[k].pre, run[k].event, run[k].outcome, t, AGENT_KEY);
      StaleStep(run[k].pre, run[k].event, run[k].outcome, t);
    }
  }

  /** A destroy that finds no machine changes nothing: it stops at "not
      created", before the keychain. */
  lemma LateDestroyForgetsNothing(h: Entry)
    requires Happened(h) && h.command.Down? && h.pre.machine.NoMachine?
    ensures h.post == h.pre
  {
    hide RunOf, CleanDown, Destroyable, SubjectsOf, DownSubjects, Stops, Removes, Faultless, DestroyFailed;
    hide ListingFailed, HasFail, Downed, GoodPlan, NothingLeft, MintedGone;
  }

  /** Once the key is stale, no number of ups, downs and late destroys mints a
      new one. */
  lemma {:induction false} StaleKeyStays(hs: seq<Entry>, s: Sys, t: Sys)
    requires Chained(hs, s, t) && Stale(s)
    requires forall i :: 0 <= i < |hs| ==>
      Everyday(hs[i].command) || (hs[i].command.Down? && hs[i].pre.machine.NoMachine?)
    ensures Stale(t)
    decreases |hs|
  {
    hide RunOf, Happened, Chained, Stale, GoodCommand, Ended, Everyday;
    if hs == [] {
      EmptyChain(s, t);
    } else {
      var before, last := ChainedUnsnoc(hs, s, t);
      StaleKeyStays(before, s, last.pre);
      HappenedMeans(last);
      if Everyday(last.command) {
        StaleRun(last.command, last.pre, last.run, last.post);
      } else {
        LateDestroyForgetsNothing(last);
      }
    }
  }

  lemma RunOfOne(c: Command, s: Sys, run: seq<Step>, e: Event, o: Outcome, pre: Sys, post: Sys)
    returns (longer: seq<Step>)
    requires RunOf(c, s, run, pre) && !c.Up? && Next(pre, e, o, post) && May(c, pre, e)
    ensures longer == run + [Step(pre, e, o, post)] && RunOf(c, s, longer, post)
    ensures !e.StopMachine? && !Stops(run) ==> !Stops(longer)
    ensures o.Fault? ==> !Faultless(longer)
  {
    hide RunOf, May, Next, Stops, Faultless;
    var step := Step(pre, e, o, post);
    longer := run + [step];
    RunSnoc(c, s, run, step);
    TearSnoc(run, step);
    VerdictSnoc(run, step);
  }

  lemma NoRun(c: Command, s: Sys)
    requires !c.Up?
    ensures RunOf(c, s, [], s) && !Stops([])
  {
  }

  lemma AgentKeySourced(entries: seq<SecretSpec>)
    requires GoodEntries(entries)
    ensures Sourced(entries, AGENT_KEY, Minted)
  {
    hide GoodEntries, AGENT_KEY;
    AgentKeyListed(entries);
    var j :| 0 <= j < |entries| && entries[j].name == AGENT_KEY && entries[j].source.Minted?;
    assert entries[j] in entries;
  }

  lemma DestroyGuards(p: Plan, s: Sys)
    requires Sourced(p.entries, AGENT_KEY, Minted) && |p.roles| == |ALL|
    ensures May(Command.Down(p, true), s, Event.ListMachines)
    ensures May(Command.Down(p, true), s, Event.KeychainDescribe(AGENT_KEY))
    ensures s.machine.Stopped? ==> May(Command.Down(p, true), s, Event.RemoveMachine)
    ensures s.machine.NoMachine? && AGENT_KEY in s.keychain ==>
      May(Command.Down(p, true), s, Event.KeychainDelete(AGENT_KEY))
  {
    hide Sourced, AGENT_KEY;
  }

  lemma OneFailedForgetting()
    ensures var checks := [Check(Destruction, Pass), Check(Forgotten(AGENT_KEY), Fail)];
      HasFail(checks) && DestroyChecks(checks)
  {
    hide AGENT_KEY;
    var checks := [Check(Destruction, Pass), Check(Forgotten(AGENT_KEY), Fail)];
    assert checks[1] in checks;
  }

  lemma MintedEntryIs(entries: seq<SecretSpec>, e: SecretSpec)
    requires GoodEntries(entries) && e in entries && e.source.Minted?
    ensures e.name == AGENT_KEY
  {
    hide GoodEntries, Default, AGENT_KEY;
    assert Sourced(entries, e.name, Minted);
    SourcedIsDefault(entries, e.name, Minted);
    OnlyAgentKeyMinted(e.name);
  }

  /** Such a report is true: the key is the one item to forget. */
  lemma OneFailedForgettingIsTold(entries: seq<SecretSpec>, s: Sys, s': Sys)
    requires GoodEntries(entries) && s'.machine.NoMachine?
    ensures DestroyTold(entries, [Check(Destruction, Pass), Check(Forgotten(AGENT_KEY), Fail)], s, s')
  {
    hide AGENT_KEY, GoodEntries;
    var more := [Check(Forgotten(AGENT_KEY), Fail)];
    forall e | e in entries && e.source.Minted? ensures e.name == AGENT_KEY { MintedEntryIs(entries, e); }
    assert [Check(Destruction, Pass), Check(Forgotten(AGENT_KEY), Fail)][1..] == more;
    assert more[0] in more;
  }

  /** One such run, which the rule and the contract of `down` admit: the machine
      goes, and the last call, the deletion of the key, fails without effect. */
  lemma FailedForgettingLeavesKey(p: Plan, s: Sys) returns (h: Entry)
    requires GoodPlan(p) && |p.roles| == |ALL| && s.machine.Stopped? && s.hasKeychain
    requires AGENT_KEY in s.keychain && s.keychain[AGENT_KEY].source.Minted?
    ensures Happened(h) && h.command == Command.Down(p, true) && h.pre == s && h.err.NoErr?
    ensures !NothingLeftBehind(h.post)
  {
    hide RunOf, May, GoodPlan, Stops, Faultless, HasFail, DestroyChecks, DownEnds, AGENT_KEY, Sourced, GoodEntries;
    PlanEntries(p);
    AgentKeySourced(p.entries);
    var c, m := Command.Down(p, true), Emptied(s).(machine := NoMachine);
    DestroyGuards(p, s);
    DestroyGuards(p, m);
    NoRun(c, s);
    var run := RunOfOne(c, s, [], Event.ListMachines, Done, s, s);
    run := RunOfOne(c, s, run, Event.RemoveMachine, Done, s, m);
    run := RunOfOne(c, s, run, Event.KeychainDescribe(AGENT_KEY), Done, m, m);
    run := RunOfOne(c, s, run, Event.KeychainDelete(AGENT_KEY), Fault, m, m);
    var checks := [Check(Destruction, Pass), Check(Forgotten(AGENT_KEY), Fail)];
    OneFailedForgetting();
    OneFailedForgettingIsTold(p.entries, s, m);
    DestroyedOnly(p, s, run, m, false, checks, NoErr);
    h := Entry(c, s, run, m, false, checks, BUILTIN[0], SecretsCommands.NO_REPORT, NoErr);
  }
}

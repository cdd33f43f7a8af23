/** When LiteLLM is up in a run of `up`: it mints the agent's key and the
    services wait for it (internal/app/lifecycle.go,
    internal/adapters/litellm/minter.go). */
module LiteLLMRuns {
  import opened Roles
  import opened Reports
  import opened Catalogues
  import opened Topologies
  import opened WellFormedness
  import opened Systems
  import opened Rules
  import opened Runs
  import opened Hosts
  import opened SecretSteps
  import opened Ups
  import opened UpCommand

  // ---- One call -----------------------------------------------------------

  lemma ServingAfterEffect(s: Sys, e: Event)
    requires Accepts(s, e) && Serving(Effect(s, e)) && !Serving(s)
    ensures e.Play? && e.workload == LITELLM
  {
    hide LITELLM;
  }

  /** LiteLLM comes up only when its pod is played. */
  lemma ServingComesFromPlay(s: Sys, e: Event, o: Outcome, t: Sys)
    requires Next(s, e, o, t) && Serving(t) && !Serving(s)
    ensures e.Play? && e.workload == LITELLM
  {
    hide Next, Accepts, Effect, Serving, LITELLM;
    NextCases(s, e, o, t);
    if !(!o.Done? && Interrupted(s, e, t)) { ServingAfterEffect(s, e); } else { NotServingInterrupted(s, e, t); }
  }

  lemma NotServingInterrupted(s: Sys, e: Event, t: Sys)
    requires Interrupted(s, e, t) && !Serving(s)
    ensures !Serving(t)
  {
    hide LITELLM;
  }

  lemma KeychainAfter(s: Sys, e: Event, o: Outcome, t: Sys, n: string)
    requires Next(s, e, o, t) && n in t.keychain
    ensures n in s.keychain || (e.KeychainPut? && e.name == n)
  {
    hide Next, Accepts, Effect;
    NextCases(s, e, o, t);
    if t == Effect(s, e) { KeychainAfterEffect(s, e, n); }
  }

  lemma KeychainAfterEffect(s: Sys, e: Event, n: string)
    requires n in Effect(s, e).keychain
    ensures n in s.keychain || (e.KeychainPut? && e.name == n)
  {
  }

  predicate AsksLiteLLM(e: Event) {
    e.Mint? || e.Ready?
  }

  lemma AnswersWhenServing(s: Sys, e: Event, o: Outcome, t: Sys)
    requires Next(s, e, o, t) && o.Done? && AsksLiteLLM(e)
    ensures Serving(s)
  {
    hide Serving;
  }

  lemma PlayIsPlannedFor(p: Plan, s: Sys, e: Event) returns (r: Role)
    requires UpMay(p, s, e) && e.Play?
    ensures InPlan(p, r, e.workload) && SecretsIn(p.entries, s, r)
  {
    hide InPlan, SecretsIn, NetworksOf;
    r :| PlayFor(p, r, e.workload, e.networks, e.userns) && SecretsIn(p.entries, s, r);
  }

  lemma EntryOfName(p: Plan, e: SecretSpec, f: SecretSpec)
    requires GoodPlan(p) && e in p.entries && f in p.entries && e.name == f.name
    ensures e == f
  {
    hide Usable, IsCatalogue;
    CatalogueSorted(Declared(p.top.zones, |p.top.zones|), p.entries);
  }

  // ---- Whole runs ---------------------------------------------------------

  /** LiteLLM is not up and has done nothing: what needs it has not happened. */
  ghost predicate Dark(p: Plan, s: Sys, run: seq<Step>, t: Sys) {
    && !Serving(t)
    && (forall r, e :: Unminted(p, s, r, e) ==> e.name !in t.keychain)
    && (forall i :: 0 <= i < |run| && run[i].outcome.Done? ==> !AsksLiteLLM(run[i].event))
  }

  /** The only pod that could bring LiteLLM up waits for LiteLLM. */
  lemma NoPlayInTheDark(p: Plan, s: Sys, run: seq<Step>, t: Sys, e: Event)
    requires GoodPlan(p) && Dark(p, s, run, t) && NeedsLiteLLM(p, s) && !BringsLiteLLM(p)
    requires UpMay(p, t, e) && UpReady(p, run, e)
    ensures !(e.Play? && e.workload == LITELLM)
  {
    hide UpMay, GoodPlan, Serving, LITELLM, InPlan, Unminted, SecretsIn, Unbroken, JustBuilt, JustMade;
    if e.Play? && e.workload == LITELLM {
      var r := PlayIsPlannedFor(p, t, e);
      assert r == Agent;
      if Services !in p.roles { AgentSecretsAreMade(p, s, t); }
    }
  }

  lemma AgentSecretsAreMade(p: Plan, s: Sys, t: Sys)
    requires GoodPlan(p) && SecretsIn(p.entries, t, Agent)
    ensures forall r, e :: Unminted(p, s, r, e) ==> e.name in t.keychain
  {
    hide GoodPlan, Consumed;
    forall r, e | Unminted(p, s, r, e) ensures e.name in t.keychain {
      MintedIsAgents(p, r, e);
      assert InSync(t, e.name);
    }
  }

  lemma GoalSecretsAreMade(p: Plan, s: Sys, t: Sys)
    requires Goal(p, t)
    ensures forall r, e :: Unminted(p, s, r, e) ==> e.name in t.keychain
  {
    hide AsPlanned, SelectedNetworksExist, Consumed;
    forall r, e | Unminted(p, s, r, e) ensures e.name in t.keychain {
      assert ZoneUp(p, t, r);
      assert InSync(t, e.name);
    }
  }

  lemma NothingMintedInTheDark(p: Plan, s: Sys, run: seq<Step>, t: Sys, e: Event, r: Role, spec: SecretSpec)
    requires GoodPlan(p) && Dark(p, s, run, t) && Unminted(p, s, r, spec)
    requires UpMay(p, t, e) && UpReady(p, run, e)
    ensures !(e.KeychainPut? && e.name == spec.name)
  {
    hide GoodPlan, Serving, InPlan, Consumed, Unbroken, JustBuilt, MayMintAfter, SecretsIn, Consumes;
    if e.KeychainPut? && e.name == spec.name {
      var f :| f in p.entries && f.name == e.name && f.source == e.source;
      ConsumedFacts(p, r, spec);
      EntryOfName(p, spec, f);
    }
  }

  lemma {:induction false} StaysDark(p: Plan, s: Sys, run: seq<Step>, t: Sys)
    requires GoodPlan(p) && RunOf(Command.Up(p), s, run, t)
    requires NeedsLiteLLM(p, s) && !Serving(s) && !BringsLiteLLM(p)
    ensures Dark(p, s, run, t)
  {
    hide May, UpMay, UpReady, Next, RunOf, GoodPlan, NeedsLiteLLM, BringsLiteLLM, Serving, Unminted, AsksLiteLLM;
    if run == [] {
      EmptyRun(Command.Up(p), s, t);
      UnmintedIsUnset(p, s);
    } else {
      var n := |run| - 1;
      var before, last := run[..n], run[n];
      RunUnsnoc(Command.Up(p), s, run, t);
      CalledInTime(p, s, run, t, n);
      StaysDark(p, s, before, last.pre);
      UpMayIs(Command.Up(p), last.pre, last.event);
      NoPlayInTheDark(p, s, before, last.pre, last.event);
      if Serving(t) { ServingComesFromPlay(last.pre, last.event, last.outcome, t); }
      forall r, e | Unminted(p, s, r, e) ensures e.name !in t.keychain {
        NothingMintedInTheDark(p, s, before, last.pre, last.event, r, e);
        if e.name in t.keychain { KeychainAfter(last.pre, last.event, last.outcome, t, e.name); }
      }
      forall i | 0 <= i < |run| && run[i].outcome.Done? ensures !AsksLiteLLM(run[i].event) {
        if i < n {
          assert before[i] == run[i];
        } else if AsksLiteLLM(run[i].event) {
          AnswersWhenServing(last.pre, last.event, last.outcome, t);
        }
      }
    }
  }

  lemma UnmintedIsUnset(p: Plan, s: Sys)
    ensures forall r, e :: Unminted(p, s, r, e) ==> e.name !in s.keychain
  {
  }

  /** A run that reached its goal, LiteLLM having answered for the services,
      started where LiteLLM was up, was to come up in time, or was not needed. */
  lemma CleanRunWasServed(p: Plan, s: Sys, run: seq<Step>, t: Sys)
    requires GoodPlan(p) && RunOf(Command.Up(p), s, run, t) && Goal(p, t)
    requires Services in p.roles ==> Answered(run)
    ensures Served(p, s)
  {
    hide RunOf, GoodPlan, Goal, BringsLiteLLM, Serving, Unminted;
    GoalSecretsAreMade(p, s, t);
    if !Served(p, s) { StaysDark(p, s, run, t); }
  }

  /** The agent's zone cannot be brought up alone where its key has not been
      minted: that needs LiteLLM, which only the other zones may bring up. */
  lemma AgentAloneNeedsLiteLLM(p: Plan, s: Sys, run: seq<Step>, s': Sys, cancelled: bool, checks: seq<Check>, err: Err)
    requires GoodPlan(p) && p.roles == [Agent] && RunOf(Command.Up(p), s, run, s')
    requires UpEnds(p, s, run, s', cancelled, checks, err) && err.NoErr? && AllPass(checks)
    ensures AGENT_KEY in s.keychain || Serving(s)
  {
    hide GoodPlan, RunOf, Unbroken, Plays, WorkloadsOf, Goal, AllUsersSet, UpReport, OnlyPeeks, PlayedPrefix, AllPass;
    hide Promising, Answered, Explained, Serving, Consumed, AGENT_KEY;
    CleanRunWasServed(p, s, run, s');
    var e := AgentKeyConsumed(p);
    assert AGENT_KEY !in s.keychain ==> Unminted(p, s, Agent, e);
  }

  lemma AgentKeyConsumed(p: Plan) returns (e: SecretSpec)
    requires GoodPlan(p)
    ensures e.name == AGENT_KEY && e.source.Minted? && e in Consumed(p.entries, Agent)
  {
    hide Usable, MASTER_KEY, SALT_KEY, DB_PASSWORD, GATEWAY_TOKEN, AGENT_KEY;
    e := BUILTIN[4];
    assert e in BUILTIN;
    ConsumedIsFilter(p.entries, Agent);
  }
}

/** Reasoning about whole runs, call by call. */
module Runs {
  import opened WellFormedness
  import opened Systems
  import opened Rules

  /** The last call of a run. */
  lemma RunUnsnoc(c: Command, s: Sys, run: seq<Step>, s': Sys)
    requires RunOf(c, s, run, s') && run != []
    ensures var last := run[|run| - 1];
      && RunOf(c, s, run[..|run| - 1], last.pre) && last.post == s'
      && Next(last.pre, last.event, last.outcome, s') && May(c, last.pre, last.event)
  {
    hide May, Next, UpReady;
    var before := run[..|run| - 1];
    if c.Up? {
      forall i | 0 <= i < |before| ensures UpReady(c.plan, before[..i], before[i].event) {
        assert before[..i] == run[..i] && before[i] == run[i];
      }
    }
  }

  /** Any call of a run: the part before it is a run too. */
  lemma {:induction false} RunAt(c: Command, s: Sys, run: seq<Step>, s': Sys, i: nat)
    requires RunOf(c, s, run, s') && i < |run|
    ensures RunOf(c, s, run[..i], run[i].pre)
    ensures Next(run[i].pre, run[i].event, run[i].outcome, run[i].post) && May(c, run[i].pre, run[i].event)
  {
    hide May, Next, RunOf;
    RunUnsnoc(c, s, run, s');
    var n := |run| - 1;
    if i < n {
      RunAt(c, s, run[..n], run[n].pre, i);
      assert run[..n][..i] == run[..i];
    }
  }

  /** In a run of `up` every call came at its time. */
  lemma CalledInTime(p: Plan, s: Sys, run: seq<Step>, s': Sys, i: nat)
    requires RunOf(Command.Up(p), s, run, s') && i < |run|
    ensures UpReady(p, run[..i], run[i].event)
  {
    hide Linked, Obeys, UpReady;
  }

  lemma UnbrokenSnoc(run: seq<Step>)
    requires run != []
    ensures var last := run[|run| - 1]; Unbroken(run) <==> Unbroken(run[..|run| - 1]) && Fine(last.event, last.outcome)
  {
    assert run == run[..|run| - 1] + [run[|run| - 1]];
    VerdictSnoc(run[..|run| - 1], run[|run| - 1]);
  }

  /** After a failed call the rest of an `up` only looks. */
  lemma AfterFailure(p: Plan, s: Sys, run: seq<Step>, s': Sys)
    requires RunOf(Command.Up(p), s, run, s') && run != [] && !Unbroken(run[..|run| - 1])
    ensures Observes(run[|run| - 1].event) && run[|run| - 1].pre == s'
  {
    hide May, Next, RunOf, Unbroken;
    var n := |run| - 1;
    RunUnsnoc(Command.Up(p), s, run, s');
    CalledInTime(p, s, run, s', n);
    NextCases(run[n].pre, run[n].event, run[n].outcome, s');
  }

  /** The pod that a failed play may have lost: of one workload at most. */
  ghost function Lost(run: seq<Step>): set<string> {
    if run == [] || Unbroken(run) then {}
    else if !Unbroken(run[..|run| - 1]) then Lost(run[..|run| - 1])
    else if run[|run| - 1].event.Play? then {run[|run| - 1].event.workload}
    else {}
  }

  lemma {:induction false} LostIsOne(run: seq<Step>)
    ensures |Lost(run)| <= 1
  {
    if run != [] { LostIsOne(run[..|run| - 1]); }
  }

  lemma NothingLostYet(run: seq<Step>)
    requires Unbroken(run)
    ensures Lost(run) == {}
  {
  }

  lemma LostSnoc(run: seq<Step>)
    requires run != []
    ensures !Unbroken(run[..|run| - 1]) ==> Lost(run) == Lost(run[..|run| - 1])
    ensures Unbroken(run[..|run| - 1]) && !Unbroken(run) ==>
      Lost(run) == if run[|run| - 1].event.Play? then {run[|run| - 1].event.workload} else {}
  {
    UnbrokenSnoc(run);
  }

  /** A whole `up`, however it ends, undoes nothing of what it finds or does,
      but for the pod whose replacement failed. */
  lemma {:induction false} UpGrows(p: Plan, s: Sys, run: seq<Step>, s': Sys)
    requires Usable(p.top) && RunOf(Command.Up(p), s, run, s')
    ensures Grows(p, s, s') && PodsStandBut(p, s, s', Lost(run))
  {
    hide May, Next, RunOf, AsPlanned, InPlan, InSync, Usable, Unbroken, Lost, Grows, PodsStandBut;
    if run == [] {
      EmptyRun(Command.Up(p), s, s');
      NothingGrows(p, s);
    } else {
      var n := |run| - 1;
      RunUnsnoc(Command.Up(p), s, run, s');
      UpGrows(p, s, run[..n], run[n].pre);
      UpMayIs(Command.Up(p), run[n].pre, run[n].event);
      UpStepGrows(p, run[n].pre, run[n].event, run[n].outcome, s');
      GrowsTransitive(p, s, run[n].pre, s');
      LostSnoc(run);
      if !Unbroken(run[..n]) {
        AfterFailure(p, s, run, s');
      } else {
        UpStepPods(p, run[n].pre, run[n].event, run[n].outcome, s');
        NothingLostYet(run[..n]);
        UnbrokenSnoc(run);
        if Unbroken(run) { NothingLostYet(run); }
        OneMoreStands(p, s, run[n].pre, s', Lost(run));
      }
    }
  }

  lemma NothingGrows(p: Plan, s: Sys)
    ensures Grows(p, s, s) && forall lost :: PodsStandBut(p, s, s, lost)
  {
    hide AsPlanned, InPlan, InSync;
  }

  lemma OneMoreStands(p: Plan, a: Sys, b: Sys, c: Sys, lost: set<string>)
    requires Grows(p, a, b) && PodsStandBut(p, a, b, {}) && PodsStandBut(p, b, c, lost)
    ensures PodsStandBut(p, a, c, lost)
  {
    hide AsPlanned, InPlan, InSync;
  }

  lemma EmptyRun(c: Command, s: Sys, s': Sys)
    requires RunOf(c, s, [], s')
    ensures s' == s
  {
  }
}

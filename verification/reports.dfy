/** Checks and reports (internal/domain/report.go). A check keeps the subject
    and the verdict of the original; its summary and hint texts do not matter
    to any rule and are not modelled. */
module Reports {
  import opened Roles

  datatype Status = Pass | Warn | Fail {
    function Severity(): nat {
      match this
      case Pass => 0
      case Warn => 1
      case Fail => 2
    }
  }

  /** What a check is about: the check's name, structured. */
  datatype Subject =
    | MachineItself                        // "machine"
    | ZoneNetwork(role: Role)              // "network/<zone>"
    | AllNetworks                          // "networks"
    | ZoneItself(role: Role)               // "<zone>"
    | ZoneSecrets(role: Role)              // "<zone>/secrets"
    | ZoneReady(role: Role)                // "<zone>/ready"
    | WorkloadOf(role: Role, workload: string)  // "<zone>/<workload>"
    | AllPods                              // "pods"
    | SecretStore                          // "secrets"
    | Destruction                          // "destroy"
    | Secret(name: string)                 // "<secret>"
    | Forgotten(name: string)              // "secrets/<secret>"

  datatype Check = Check(subject: Subject, status: Status)

  /** The highest severity in the report; an empty report passes. */
  method Worst(checks: seq<Check>) returns (worst: Status)
    ensures forall c :: c in checks ==> c.status.Severity() <= worst.Severity()
    ensures worst == Pass || exists c :: c in checks && c.status == worst
    ensures worst == Fail <==> exists c :: c in checks && c.status == Fail
    ensures worst == Pass <==> forall c :: c in checks ==> c.status == Pass
  {
    worst := Pass;
    for i := 0 to |checks|
      invariant forall c :: c in checks[..i] ==> c.status.Severity() <= worst.Severity()
      invariant worst == Pass || exists c :: c in checks && c.status == worst
    {
      if checks[i].status.Severity() > worst.Severity() {
        worst := checks[i].status;
        assert checks[i] in checks;
      }
      assert checks[..i + 1] == checks[..i] + [checks[i]];
    }
    assert checks[..|checks|] == checks;
  }

  predicate AllPass(checks: seq<Check>) {
    forall c :: c in checks ==> c.status == Pass
  }

  predicate HasFail(checks: seq<Check>) {
    exists c :: c in checks && c.status == Fail
  }

  predicate AllFail(checks: seq<Check>) {
    forall c :: c in checks ==> c.status == Fail
  }

  /** What the checks are about, in order. */
  function SubjectsOf(checks: seq<Check>): seq<Subject> {
    if checks == [] then [] else SubjectsOf(checks[..|checks| - 1]) + [checks[|checks| - 1].subject]
  }

  lemma {:induction false} SubjectsConcat(xs: seq<Check>, ys: seq<Check>)
    ensures SubjectsOf(xs + ys) == SubjectsOf(xs) + SubjectsOf(ys)
  {
    if ys == [] {
      assert xs + ys == xs;
    } else {
      SubjectsConcat(xs, ys[..|ys| - 1]);
      assert (xs + ys)[..|xs + ys| - 1] == xs + ys[..|ys| - 1];
    }
  }

  lemma SubjectsOfOne(check: Check)
    ensures SubjectsOf([check]) == [check.subject] && SubjectsOf([]) == []
  {
    assert [check][..0] == [];
  }

  lemma SubjectsMore(checks: seq<Check>, check: Check)
    ensures SubjectsOf(checks + [check]) == SubjectsOf(checks) + [check.subject]
  {
    assert (checks + [check])[..|checks|] == checks;
  }

  lemma {:induction false} SubjectsLength(checks: seq<Check>)
    ensures |SubjectsOf(checks)| == |checks|
  {
    if checks != [] { SubjectsLength(checks[..|checks| - 1]); }
  }

  lemma PassAndPass(xs: seq<Check>, ys: seq<Check>)
    requires AllPass(xs) && AllPass(ys)
    ensures AllPass(xs + ys)
  {
  }

  // ---- Reports that stop at a failure -------------------------------------

  /** The report goes along `subjects`, passing, and ends with its first
      failure. */
  ghost predicate FailsAlong(subjects: seq<Subject>, checks: seq<Check>) {
    && 0 < |checks| <= |subjects|
    && SubjectsOf(checks) == subjects[..|checks|]
    && AllPass(checks[..|checks| - 1]) && checks[|checks| - 1].status == Fail
  }

  lemma FailsNext(subjects: seq<Subject>, passed: seq<Check>, check: Check)
    requires AllPass(passed) && |passed| < |subjects| && SubjectsOf(passed) == subjects[..|passed|]
    requires check.status == Fail && check.subject == subjects[|passed|]
    ensures FailsAlong(subjects, passed + [check])
  {
    hide SubjectsOf, AllPass;
    SubjectsMore(passed, check);
    assert (passed + [check])[..|passed|] == passed;
    assert subjects[..|passed| + 1] == subjects[..|passed|] + [subjects[|passed|]];
  }

  /** A report that fails at once. */
  lemma FailsFirst(check: Check)
    requires check.status == Fail
    ensures FailsAlong([check.subject], [check])
  {
    hide SubjectsOf;
    SubjectsOfOne(check);
    FailsNext([check.subject], [], check);
    assert [] + [check] == [check];
  }

  lemma FailsLater(first: seq<Subject>, passed: seq<Check>, rest: seq<Subject>, more: seq<Check>)
    requires AllPass(passed) && SubjectsOf(passed) == first && FailsAlong(rest, more)
    ensures FailsAlong(first + rest, passed + more)
  {
    hide SubjectsOf;
    SubjectsLength(passed);
    SubjectsConcat(passed, more);
    var all := passed + more;
    assert (first + rest)[..|all|] == first + rest[..|more|];
    assert all[..|all| - 1] == passed + more[..|more| - 1];
  }

  lemma FailsEarlier(first: seq<Subject>, checks: seq<Check>, rest: seq<Subject>)
    requires FailsAlong(first, checks)
    ensures FailsAlong(first + rest, checks)
  {
    hide SubjectsOf;
    assert (first + rest)[..|checks|] == first[..|checks|];
  }

  lemma FailsAlongFails(subjects: seq<Subject>, checks: seq<Check>)
    requires FailsAlong(subjects, checks)
    ensures HasFail(checks) && !AllPass(checks)
  {
    hide SubjectsOf;
    assert checks[|checks| - 1] in checks;
  }

  lemma AllFailFails(checks: seq<Check>)
    requires AllFail(checks) && checks != []
    ensures HasFail(checks) && !AllPass(checks)
  {
    assert checks[0] in checks;
  }
}

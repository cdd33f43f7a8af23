/** The whole of `lclaw down` and `down --destroy`
    (internal/app/lifecycle.go, internal/app/lifecycle_secrets.go). */
module DownCommand {
  import opened Text
  import opened Roles
  import opened Reports
  import opened Catalogues
  import opened Topologies
  import opened Validation
  import opened WellFormedness
  import opened Systems
  import opened Rules
  import opened Hosts
  import opened SecretSteps
  import opened Downs
  import opened UpCommand

  // ---- Purge --------------------------------------------------------------

  /** Some of lclaw's secrets and their volumes went away, nothing else. */
  ghost predicate PurgedPart(s: Sys, s': Sys) {
    && s' == s.(store := s'.store, volumes := s'.volumes)
    && (forall n :: n in s'.store ==> n in s.store && s'.store[n] == s.store[n])
    && (forall n :: n in s.store && !s.store[n].labelled ==> n in s'.store)
    && s.volumes - Labelled(s) <= s'.volumes <= s.volumes
  }

  /** The store without lclaw's secrets, the volumes without theirs. */
  function Purged(s: Sys): Sys {
    s.(store := s.store - Labelled(s), volumes := s.volumes - Labelled(s))
  }

  /** After the first `i` names. */
  function PurgedUpTo(s: Sys, names: seq<string>, i: nat): Sys
    requires i <= |names|
  {
    var gone := set n | n in names[..i];
    s.(store := s.store - gone, volumes := s.volumes - gone)
  }

  lemma PurgedUpToIsPart(s: Sys, names: seq<string>, i: nat)
    requires i <= |names| && forall n :: n in names ==> n in Labelled(s)
    ensures PurgedPart(s, PurgedUpTo(s, names, i))
  {
    assert forall n :: n in names[..i] ==> n in names;
  }

  lemma PurgedAll(s: Sys, names: seq<string>)
    requires forall n :: n in names <==> n in Labelled(s)
    ensures PurgedUpTo(s, names, |names|) == Purged(s)
    ensures PurgedPart(s, Purged(s))
  {
    assert names[..|names|] == names;
    assert (set n | n in names) == Labelled(s);
  }

  lemma PurgedNone(s: Sys, names: seq<string>)
    ensures PurgedUpTo(s, names, 0) == s
    ensures PurgedPart(s, s)
  {
    assert (set n | n in names[..0]) == {};
    assert s.store - {} == s.store;
  }

  lemma PurgeStep(s: Sys, names: seq<string>, i: nat, b: Sys, c: Sys, d: Sys)
    requires i < |names| && b == PurgedUpTo(s, names, i)
    requires c == b.(store := b.store - {names[i]})
    requires d == c.(volumes := c.volumes - {names[i]})
    ensures d == PurgedUpTo(s, names, i + 1)
  {
    assert names[..i + 1] == names[..i] + [names[i]];
    var gone := set n | n in names[..i];
    var upTo := names[..i + 1];
    assert (set n | n in upTo) == gone + {names[i]};
    assert s.store - gone - {names[i]} == s.store - (gone + {names[i]});
  }

  /** A half-purged name still leaves a part-purged world. */
  lemma HalfPurged(s: Sys, names: seq<string>, i: nat, b: Sys, c: Sys)
    requires i < |names| && b == PurgedUpTo(s, names, i) && forall n :: n in names ==> n in Labelled(s)
    requires c == b || c == b.(store := b.store - {names[i]}) ||
      c == b.(store := b.store - {names[i]}, volumes := b.volumes - {names[i]})
    ensures PurgedPart(s, c)
  {
    PurgedUpToIsPart(s, names, i);
    assert names[i] in Labelled(s);
  }

  lemma NextIsThere(s: Sys, names: seq<string>, i: nat)
    requires i < |names| && Distinct(names) && forall n :: n in names ==> n in Labelled(s)
    ensures var b := PurgedUpTo(s, names, i); names[i] in b.store && b.store[names[i]].labelled
  {
    assert names[i] in Labelled(s);
  }

  /** `b` follows `a` in the same `down`, and neither stop nor removal was asked
      for in between. */
  ghost predicate Follows(a: State, b: State) {
    && a.command.Down? && b.command == a.command && Continues(a, b)
    && (Stops(b.trace) <==> Stops(a.trace)) && (Removes(b.trace) <==> Removes(a.trace))
    && Downed(b.trace) == Downed(a.trace)
  }

  lemma FollowsTransitive(a: State, b: State, c: State)
    requires Follows(a, b) && Follows(b, c)
    ensures Follows(a, c)
  {
    hide Continues, Stops, Removes, Downed;
    ContinuesTransitive(a, b, c);
  }

  lemma FollowsOnce(a: State, e: Event, o: Outcome, b: State)
    requires a.command.Down? && Did(a, e, o, b) && !e.StopMachine? && !e.RemoveMachine? && !e.KubeDown?
    ensures Follows(a, b) && Sound(b)
  {
    hide Continues, Stops, Removes, Downed, Effect, Accepts, Plays, Faultless, Unbroken, Sound;
    SameCommand(a, b);
  }

  lemma FollowsWait(a: State, b: State)
    requires a.command.Down? && Continues(a, b) && b == a.(cancelled := b.cancelled)
    ensures Follows(a, b) && Sound(b)
  {
    hide Continues, Stops, Removes, Downed, Sound;
    SameCommand(a, b);
  }

  lemma PurgingIsAllowed(c: Command, s: Sys, n: string)
    requires c.Down? && s.pods == map[]
    ensures n in s.store && s.store[n].labelled ==> May(c, s, RemoveSecret(n))
    ensures n !in s.store ==> May(c, s, RemoveVolume(n))
  {
  }

  /** Removes one secret, then the volume of the same name. */
  method PurgeOne(host: Host, name: string) returns (ok: bool)
    requires host.Valid() && host.command.Down? && host.sys.pods == map[] && host.sys.machine.Running?
    requires name in host.sys.store && host.sys.store[name].labelled
    modifies host
    ensures Follows(old(host.Now()), host.Now()) && host.Valid()
    ensures ok ==>
      host.sys == old(host.sys).(store := old(host.sys).store - {name}, volumes := old(host.sys).volumes - {name})
    ensures !ok ==> (
      || host.sys == old(host.sys)
      || host.sys == old(host.sys).(store := old(host.sys).store - {name})
      || host.sys == old(host.sys).(store := old(host.sys).store - {name}, volumes := old(host.sys).volumes - {name}))
    ensures Faultless(host.trace) ==> ok && Faultless(old(host.trace))
  {
    hide Sound, Continues, Follows, May, Effect, Accepts, Faultless, Unbroken, Plays, Downed, Stops, Removes;
    ghost var a := host.Now();
    PurgingIsAllowed(host.command, host.sys, name);
    var o := host.RemoveSecret(name);
    ghost var b := host.Now();
    FollowsOnce(a, RemoveSecret(name), o, b);
    if !o.Done? { return false; }
    FollowsMeans(a, b);
    PurgingIsAllowed(host.command, host.sys, name);
    o := host.RemoveVolume(name);
    FollowsOnce(b, RemoveVolume(name), o, host.Now());
    FollowsTransitive(a, b, host.Now());
    ok := o.Done?;
  }

  lemma FollowsMeans(a: State, b: State)
    requires Follows(a, b)
    ensures b.command == a.command && Continues(a, b) && Sound(b) && (a.cancelled ==> b.cancelled)
    ensures Faultless(b.trace) ==> Faultless(a.trace)
  {
    hide Continues, Stops, Removes, Downed, Sound;
    SameCommand(a, b);
  }

  /** Removes every secret lclaw stored, found by label, and its volume. */
  method Purge(host: Host) returns (ok: bool)
    requires host.Valid() && host.command.Down? && host.sys.pods == map[] && host.sys.machine.Running?
    modifies host
    ensures Follows(old(host.Now()), host.Now()) && host.Valid()
    ensures PurgedPart(old(host.sys), host.sys)
    ensures ok ==> host.sys == Purged(old(host.sys))
    ensures Faultless(host.trace) ==> Faultless(old(host.trace))
    ensures Faultless(host.trace) && !host.cancelled ==> ok
  {
    hide Sound, Continues, Follows, Effect, Accepts, Faultless, Unbroken, Plays, Labelled, PurgedPart, Purged;
    hide PurgedUpTo;
    ghost var a := host.Now();
    var o, names := host.ListSecrets();
    ghost var z := host.Now();
    FollowsOnce(a, Event.ListSecrets, o, z);
    PurgedNone(a.sys, names);
    if !o.Done? { return false; }
    for i := 0 to |names|
      invariant Follows(a, host.Now()) && host.Valid()
      invariant host.sys == PurgedUpTo(a.sys, names, i)
      invariant Faultless(host.trace) ==> Faultless(a.trace)
    {
      ghost var b := host.Now();
      PurgedUpToIsPart(a.sys, names, i);
      FollowsMeans(a, b);
      var stop := host.CtxErr();
      ghost var c := host.Now();
      FollowsWait(b, c);
      FollowsTransitive(a, b, c);
      if stop { return false; }
      NextIsThere(a.sys, names, i);
      FollowsMeans(a, c);
      PartKeeps(a.sys, c.sys);
      ok := PurgeOne(host, names[i]);
      FollowsTransitive(a, c, host.Now());
      if !ok {
        HalfPurged(a.sys, names, i, b.sys, host.sys);
        return false;
      }
      PurgeStep(a.sys, names, i, b.sys, b.sys.(store := b.sys.store - {names[i]}), host.sys);
    }
    PurgedAll(a.sys, names);
    ok := true;
  }

  lemma PartKeeps(s: Sys, s': Sys)
    requires PurgedPart(s, s')
    ensures s'.pods == s.pods && s'.machine == s.machine && s'.keychain == s.keychain && s'.hasKeychain == s.hasKeychain
    ensures s'.networks == s.networks
  {
  }

  // ---- Destroy ------------------------------------------------------------

  /** The keychain only lost items. */
  ghost predicate Forgets(s: Sys, s': Sys) {
    && s' == s.(keychain := s'.keychain)
    && forall n :: n in s'.keychain ==> n in s.keychain && s'.keychain[n] == s.keychain[n]
  }

  lemma ForgetsTransitive(a: Sys, b: Sys, c: Sys)
    requires Forgets(a, b) && Forgets(b, c)
    ensures Forgets(a, c)
  {
  }

  lemma ForgettingIsAllowed(c: Command, s: Sys, e: SecretSpec)
    requires c.Down? && c.destroy && e in c.plan.entries && e.source.Minted? && s.machine.NoMachine?
    requires e.name in s.keychain
    ensures May(c, s, KeychainDelete(e.name))
  {
  }

  lemma DeletionForgets(s: Sys, s': Sys, n: string)
    requires s' == s || s' == s.(keychain := s.keychain - {n})
    ensures Forgets(s, s')
  {
  }

  /** Drops one minted item, if it is there. */
  method Forget(host: Host, spec: SecretSpec) returns (checks: seq<Check>)
    requires host.Valid() && host.command.Down? && host.command.destroy && host.sys.machine.NoMachine?
    requires spec in host.command.plan.entries && spec.source.Minted?
    modifies host
    ensures Follows(old(host.Now()), host.Now()) && host.Valid()
    ensures Forgets(old(host.sys), host.sys)
    ensures checks == [] || checks == [Check(Forgotten(spec.name), Pass)] ||
      checks == [Check(Forgotten(spec.name), Fail)]
    ensures !HasFail(checks) ==> spec.name !in host.sys.keychain
    ensures checks == [] ==> spec.name !in old(host.sys).keychain
    ensures checks == [Check(Forgotten(spec.name), Pass)] ==> spec.name in old(host.sys).keychain
    ensures host.sys.keychain == old(host.sys).keychain ||
      (checks != [] && host.sys.keychain == old(host.sys).keychain - {spec.name})
    ensures Faultless(host.trace) ==> Faultless(old(host.trace))
    ensures Faultless(host.trace) && host.sys.hasKeychain ==> !HasFail(checks)
  {
    hide Sound, Continues, Follows, May, Effect, Accepts, Faultless, Unbroken, Plays, Downed, Stops, Removes, HasFail;
    ghost var a := host.Now();
    FailOfOne(Forgotten(spec.name));
    var o, _ := host.KeychainDescribe(spec.name);
    ghost var b := host.Now();
    FollowsOnce(a, Event.KeychainDescribe(spec.name), o, b);
    DeletionForgets(a.sys, b.sys, spec.name);
    // a missing item is not found; a missing keychain file is another error
    if o.Refused? && host.sys.hasKeychain { return []; }
    if !o.Done? { return [Check(Forgotten(spec.name), Fail)]; }
    FollowsMeans(a, b);
    ForgettingIsAllowed(host.command, host.sys, spec);
    o := host.KeychainDelete(spec.name);
    FollowsOnce(b, Event.KeychainDelete(spec.name), o, host.Now());
    FollowsTransitive(a, b, host.Now());
    DeletionForgets(a.sys, host.sys, spec.name);
    return [Check(Forgotten(spec.name), if o.Done? then Pass else Fail)];
  }

  lemma FailOfOne(subject: Subject)
    ensures !HasFail([]) && !HasFail([Check(subject, Pass)]) && HasFail([Check(subject, Fail)])
    ensures !HasFail([Check(subject, Warn)])
  {
    assert Check(subject, Fail) in [Check(subject, Fail)];
  }

  ghost predicate MintedGone(entries: seq<SecretSpec>, n: nat, s: Sys)
    requires n <= |entries|
  {
    forall j :: 0 <= j < n && entries[j].source.Minted? ==> entries[j].name !in s.keychain
  }

  /** Only failures of the destroy step itself. */
  predicate DestroyChecks(checks: seq<Check>) {
    forall c :: c in checks ==> c.subject.Destruction? || c.subject.Forgotten?
  }

  /** Every check is about an item; it passed when the item was there and is
      gone. */
  ghost predicate ForgottenTold(checks: seq<Check>, s: Sys, s': Sys) {
    forall c :: c in checks ==>
      && c.subject.Forgotten? && c.status != Warn
      && (c.status == Pass ==> c.subject.name in s.keychain && c.subject.name !in s'.keychain)
  }

  /** Every minted item that was there, of the first `n` entries, has its check. */
  ghost predicate ForgottenListed(entries: seq<SecretSpec>, n: nat, s: Sys, checks: seq<Check>)
    requires n <= |entries|
  {
    forall j :: 0 <= j < n && entries[j].source.Minted? && entries[j].name in s.keychain ==>
      exists c :: c in checks && c.subject == Forgotten(entries[j].name)
  }

  lemma NotMintedListed(entries: seq<SecretSpec>, i: nat, s: Sys, checks: seq<Check>)
    requires i < |entries| && !entries[i].source.Minted? && ForgottenListed(entries, i, s, checks)
    ensures ForgottenListed(entries, i + 1, s, checks)
  {
  }

  /** One more item was dealt with: it had its check, or was not there. */
  lemma ForgottenMore(
    entries: seq<SecretSpec>, i: nat, a: Sys, b: Sys, c: Sys, checks: seq<Check>, more: seq<Check>)
    requires i < |entries| && Forgets(a, b) && Forgets(b, c)
    requires ForgottenTold(checks, a, b) && ForgottenListed(entries, i, a, checks)
    requires ForgottenTold(more, b, c)
    requires more == [] ==> entries[i].name !in b.keychain
    requires more != [] ==> more[0].subject == Forgotten(entries[i].name)
    requires entries[i].name in a.keychain && entries[i].name !in b.keychain ==>
      exists x :: x in checks && x.subject == Forgotten(entries[i].name)
    ensures ForgottenTold(checks + more, a, c) && ForgottenListed(entries, i + 1, a, checks + more)
  {
    forall j | 0 <= j < i + 1 && entries[j].source.Minted? && entries[j].name in a.keychain
      ensures exists x :: x in checks + more && x.subject == Forgotten(entries[j].name)
    {
      if j < i || more == [] {
        var x :| x in checks && x.subject == Forgotten(entries[j].name);
        assert x in checks + more;
      } else {
        assert more[0] in checks + more;
      }
    }
  }

  /** What is gone since the start has its check. */
  ghost predicate GoneListed(a: Sys, b: Sys, checks: seq<Check>) {
    forall n :: n in a.keychain && n !in b.keychain ==> exists x :: x in checks && x.subject == Forgotten(n)
  }

  lemma GoneMore(a: Sys, b: Sys, c: Sys, n: string, checks: seq<Check>, more: seq<Check>)
    requires GoneListed(a, b, checks)
    requires c.keychain == b.keychain ||
      (c.keychain == b.keychain - {n} && more != [] && more[0].subject == Forgotten(n))
    ensures GoneListed(a, c, checks + more)
  {
    forall m | m in a.keychain && m !in c.keychain ensures exists x :: x in checks + more && x.subject == Forgotten(m) {
      if m !in b.keychain {
        var x :| x in checks && x.subject == Forgotten(m);
        assert x in checks + more;
      } else {
        assert more[0] in checks + more;
      }
    }
  }

  /** Drops every minted item. */
  method ForgetAll(host: Host, entries: seq<SecretSpec>) returns (checks: seq<Check>, err: Err)
    requires host.Valid() && host.command.Down? && host.command.destroy && host.sys.machine.NoMachine?
    requires entries == host.command.plan.entries
    modifies host
    ensures Follows(old(host.Now()), host.Now()) && host.Valid()
    ensures Forgets(old(host.sys), host.sys) && DestroyChecks(checks)
    ensures OnlyCancelled(host.cancelled, err)
    ensures err.NoErr? && !HasFail(checks) ==> MintedGone(entries, |entries|, host.sys)
    ensures Faultless(host.trace) ==> Faultless(old(host.trace))
    ensures ForgottenTold(checks, old(host.sys), host.sys)
    ensures err.NoErr? ==> ForgottenListed(entries, |entries|, old(host.sys), checks)
    ensures Faultless(host.trace) && host.sys.hasKeychain ==> !HasFail(checks)
  {
    hide Sound, Continues, Follows, Faultless, HasFail, Forgets, MintedGone, DestroyChecks, ForgottenTold;
    hide ForgottenListed, GoneListed, Forgetting;
    ghost var a := host.Now();
    NothingForgotten(entries, host.sys);
    StillFollows(a);
    checks, err := [], NoErr;
    for i := 0 to |entries|
      invariant Follows(a, host.Now()) && host.Valid() && err.NoErr?
      invariant Forgetting(entries, i, a.sys, host.sys, checks)
      invariant Faultless(host.trace) ==> Faultless(a.trace)
      invariant Faultless(host.trace) && host.sys.hasKeychain ==> !HasFail(checks)
    {
      ForgettingMeans(entries, i, a.sys, host.sys, checks);
      if !entries[i].source.Minted? {
        NotMinted(entries, i, a.sys, host.sys, checks);
        continue;
      }
      ghost var b := host.Now();
      FollowsMeans(a, b);
      var stop := host.CtxErr();
      ghost var c := host.Now();
      FollowsWait(b, c);
      FollowsTransitive(a, b, c);
      if stop { return checks, Canceled; }
      var more := Forget(host, entries[i]);
      FollowsTransitive(a, c, host.Now());
      ForgetsKeeps(c.sys, host.sys);
      ForgettingMore(entries, i, a.sys, b.sys, host.sys, checks, more);
      FailsConcat(checks, more);
      checks := checks + more;
    }
    ForgettingMeans(entries, |entries|, a.sys, host.sys, checks);
  }

  /** What is known after the first `i` entries. */
  ghost predicate Forgetting(entries: seq<SecretSpec>, i: nat, a: Sys, b: Sys, checks: seq<Check>) {
    && i <= |entries| && Forgets(a, b) && DestroyChecks(checks)
    && ForgottenTold(checks, a, b) && ForgottenListed(entries, i, a, checks) && GoneListed(a, b, checks)
    && (!HasFail(checks) ==> MintedGone(entries, i, b))
  }

  lemma ForgettingMeans(entries: seq<SecretSpec>, i: nat, a: Sys, b: Sys, checks: seq<Check>)
    requires Forgetting(entries, i, a, b, checks)
    ensures i <= |entries| && Forgets(a, b) && DestroyChecks(checks) && ForgottenTold(checks, a, b)
    ensures ForgottenListed(entries, i, a, checks) && (!HasFail(checks) ==> MintedGone(entries, i, b))
    ensures b.machine == a.machine && b.hasKeychain == a.hasKeychain
  {
    hide Forgets, DestroyChecks, ForgottenTold, ForgottenListed, GoneListed, MintedGone, HasFail;
    ForgetsKeeps(a, b);
  }

  lemma NothingForgotten(entries: seq<SecretSpec>, s: Sys)
    ensures Forgetting(entries, 0, s, s, []) && !HasFail([])
  {
  }

  lemma NotMinted(entries: seq<SecretSpec>, i: nat, a: Sys, b: Sys, checks: seq<Check>)
    requires i < |entries| && !entries[i].source.Minted? && Forgetting(entries, i, a, b, checks)
    ensures Forgetting(entries, i + 1, a, b, checks)
  {
    hide Forgets, DestroyChecks, ForgottenTold, ForgottenListed, GoneListed, MintedGone, HasFail;
    NotMintedListed(entries, i, a, checks);
    MintedGoneStep(entries, i, b);
  }

  /** One more minted item was dealt with. */
  lemma ForgettingMore(
    entries: seq<SecretSpec>, i: nat, a: Sys, b: Sys, c: Sys, checks: seq<Check>, more: seq<Check>)
    requires i < |entries| && entries[i].source.Minted? && Forgetting(entries, i, a, b, checks) && Forgets(b, c)
    requires more == [] || more == [Check(Forgotten(entries[i].name), Pass)] ||
      more == [Check(Forgotten(entries[i].name), Fail)]
    requires !HasFail(more) ==> entries[i].name !in c.keychain
    requires more == [] ==> entries[i].name !in b.keychain
    requires more == [Check(Forgotten(entries[i].name), Pass)] ==> entries[i].name in b.keychain
    requires c.keychain == b.keychain || (more != [] && c.keychain == b.keychain - {entries[i].name})
    ensures Forgetting(entries, i + 1, a, c, checks + more)
  {
    hide Forgets, DestroyChecks, ForgottenTold, ForgottenListed, GoneListed, MintedGone, HasFail;
    ForgetsTransitive(a, b, c);
    ForgetsKeeps(b, c);
    ForgotMore(entries, i, checks, more, b, c);
    FailOfOne(Forgotten(entries[i].name));
    ForgottenOne(entries[i].name, more, b, c);
    if entries[i].name in a.keychain && entries[i].name !in b.keychain {
      GoneIsListed(a, b, checks, entries[i].name);
    }
    ForgottenMore(entries, i, a, b, c, checks, more);
    GoneMore(a, b, c, entries[i].name, checks, more);
    FailsConcat(checks, more);
  }

  lemma GoneIsListed(a: Sys, b: Sys, checks: seq<Check>, n: string)
    requires GoneListed(a, b, checks) && n in a.keychain && n !in b.keychain
    ensures exists x :: x in checks && x.subject == Forgotten(n)
  {
  }

  lemma ForgottenOne(n: string, more: seq<Check>, b: Sys, c: Sys)
    requires more == [] || more == [Check(Forgotten(n), Pass)] || more == [Check(Forgotten(n), Fail)]
    requires more == [Check(Forgotten(n), Pass)] ==> n in b.keychain && n !in c.keychain
    ensures ForgottenTold(more, b, c)
  {
  }

  lemma MintedGoneStep(entries: seq<SecretSpec>, i: nat, s: Sys)
    requires i < |entries|
    ensures MintedGone(entries, i, s) && !entries[i].source.Minted? ==> MintedGone(entries, i + 1, s)
  {
  }

  lemma ForgotMore(entries: seq<SecretSpec>, i: nat, checks: seq<Check>, more: seq<Check>, b: Sys, s: Sys)
    requires i < |entries| && DestroyChecks(checks) && (forall n :: n !in b.keychain ==> n !in s.keychain)
    requires more == [] || more == [Check(Forgotten(entries[i].name), Pass)] ||
      more == [Check(Forgotten(entries[i].name), Fail)]
    ensures DestroyChecks(checks + more)
    ensures MintedGone(entries, i, b) && entries[i].name !in s.keychain ==> MintedGone(entries, i + 1, s)
  {
  }

  lemma StillFollows(a: State)
    requires Sound(a) && a.command.Down?
    ensures Follows(a, a) && Forgets(a.sys, a.sys) && PurgedPart(a.sys, a.sys)
  {
    hide Sound, Stops, Removes, Downed;
    ContinuesReflexive(a);
  }

  lemma ForgetsKeeps(s: Sys, s': Sys)
    requires Forgets(s, s')
    ensures s'.machine == s.machine && s'.hasKeychain == s.hasKeychain && s'.pods == s.pods && s'.networks == s.networks
    ensures forall n :: n !in s.keychain ==> n !in s'.keychain
  {
  }

  /** No pod and no network was added. */
  ghost predicate Shrinks(s: Sys, s': Sys) {
    s'.pods.Keys <= s.pods.Keys && s'.networks.Keys <= s.networks.Keys
  }

  lemma EmptiedShrinks(s: Sys, b: Sys, s': Sys)
    requires b == s || b == Emptied(s).(machine := NoMachine)
    requires s'.pods == b.pods && s'.networks == b.networks
    ensures Shrinks(s, s') && b.hasKeychain == s.hasKeychain
  {
  }

  /** The report of a destroy from `s`: whether the machine went, and only then
      one check per minted item that was there. */
  ghost predicate DestroyTold(entries: seq<SecretSpec>, checks: seq<Check>, s: Sys, s': Sys) {
    && checks != [] && checks[0].subject == Destruction && checks[0].status != Warn
    && (checks[0].status == Fail ==> checks == [Check(Destruction, Fail)])
    && (checks[0].status == Pass ==>
      && s'.machine.NoMachine?
      && ForgottenTold(checks[1..], s, s') && ForgottenListed(entries, |entries|, s, checks[1..]))
  }

  lemma DestroyIsTold(entries: seq<SecretSpec>, s: Sys, b: Sys, s': Sys, more: seq<Check>)
    requires b.keychain == s.keychain && s'.machine.NoMachine?
    requires ForgottenTold(more, b, s') && ForgottenListed(entries, |entries|, b, more)
    ensures DestroyTold(entries, [Check(Destruction, Pass)] + more, s, s')
  {
    assert ([Check(Destruction, Pass)] + more)[1..] == more;
  }

  lemma DestroyToldOf(entries: seq<SecretSpec>, checks: seq<Check>, s: Sys, b: Sys, s': Sys)
    requires b.keychain == s.keychain && DestroyTold(entries, checks, b, s')
    ensures DestroyTold(entries, checks, s, s')
  {
  }

  /** The machine goes away, then what it minted. */
  method Destroy(host: Host, entries: seq<SecretSpec>) returns (checks: seq<Check>, err: Err)
    requires host.Valid() && host.command.Down? && host.command.destroy && host.sys.machine.Stopped?
    requires entries == host.command.plan.entries && |host.command.plan.roles| == |ALL|
    modifies host
    ensures Continues(old(host.Now()), host.Now()) && host.Valid() && host.command == old(host.command)
    ensures Stops(host.trace) <==> Stops(old(host.trace))
    ensures Downed(host.trace) == Downed(old(host.trace))
    ensures DestroyChecks(checks) && host.sys.hasKeychain == old(host.sys).hasKeychain
    ensures Shrinks(old(host.sys), host.sys)
    ensures OnlyCancelled(host.cancelled, err)
    ensures err.NoErr? && !HasFail(checks) ==> host.sys.machine.NoMachine? && MintedGone(entries, |entries|, host.sys)
    ensures err.NoErr? ==> DestroyTold(entries, checks, old(host.sys), host.sys)
    ensures host.sys == old(host.sys) || host.sys.machine.NoMachine?
    ensures Faultless(host.trace) && !host.cancelled ==> host.sys.machine.NoMachine?
    ensures Faultless(host.trace) && !host.cancelled && host.sys.hasKeychain ==> !HasFail(checks)
    ensures Faultless(host.trace) ==> Faultless(old(host.trace))
  {
    hide Sound, Continues, May, Effect, Accepts, Faultless, Unbroken, Plays, Downed, Stops, Removes, HasFail;
    hide Forgets, MintedGone, Emptied, Shrinks, ForgottenTold, ForgottenListed;
    ghost var a := host.Now();
    RemovingIsAllowed(host.command, host.sys);
    FailOfOne(Destruction);
    var o := host.RemoveMachine();
    ghost var b := host.Now();
    SameCommand(a, b);
    EmptiedShrinks(a.sys, b.sys, b.sys);
    if !o.Done? {
      var stop := host.CtxErr();
      ContinuesTransitive(a, b, host.Now());
      SameCommand(b, host.Now());
      if stop { return [], Canceled; }
      return [Check(Destruction, Fail)], NoErr;
    }
    checks := [Check(Destruction, Pass)];
    var more;
    more, err := ForgetAll(host, entries);
    FollowsMeans(b, host.Now());
    ContinuesTransitive(a, b, host.Now());
    ForgetsKeeps(b.sys, host.sys);
    EmptiedShrinks(a.sys, b.sys, host.sys);
    EmptiedKeychain(a.sys, b.sys);
    if err.NoErr? { DestroyIsTold(entries, a.sys, b.sys, host.sys, more); }
    FailsConcat(checks, more);
    checks := checks + more;
  }

  lemma EmptiedKeychain(s: Sys, b: Sys)
    requires b == s || b == Emptied(s).(machine := NoMachine)
    ensures b.keychain == s.keychain
  {
  }

  lemma RemovingIsAllowed(c: Command, s: Sys)
    requires c.Down? && c.destroy && |c.plan.roles| == |ALL| && s.machine.Stopped?
    ensures May(c, s, Event.RemoveMachine)
  {
  }

  // ---- Purge and stop -----------------------------------------------------

  lemma StoppingIsAllowed(c: Command, s: Sys)
    requires c.Down? && s.pods == map[]
    ensures May(c, s, StopMachine)
  {
  }

  /** The machine at rest: purged and stopped. */
  function AtRest(s: Sys): Sys {
    Purged(s).(machine := MachineState.Stopped)
  }

  /** Stops the machine when no pod is left. */
  method StopAtRest(host: Host) returns (ok: bool, err: Err)
    requires host.Valid() && host.command.Down? && host.sys.pods == map[] && host.sys.machine.Running?
    modifies host
    ensures Continues(old(host.Now()), host.Now()) && host.Valid() && host.command == old(host.command)
    ensures Downed(host.trace) == Downed(old(host.trace)) && (Removes(host.trace) <==> Removes(old(host.trace)))
    ensures Stops(host.trace)
    ensures OnlyCancelled(host.cancelled, err)
    ensures ok ==> err.NoErr? && host.sys.machine.Stopped?
    ensures host.sys == old(host.sys) || host.sys == old(host.sys).(machine := MachineState.Stopped)
    ensures Faultless(host.trace) ==> Faultless(old(host.trace)) && ok
  {
    hide Sound, Continues, May, Effect, Accepts, Interrupted, Faultless, Unbroken, Plays, Downed, Stops, Removes;
    ghost var a := host.Now();
    StoppingIsAllowed(host.command, host.sys);
    NoPodsHalt(host.sys);
    var o := host.StopMachine();
    ghost var b := host.Now();
    SameCommand(a, b);
    if o.Done? { return true, NoErr; }
    var stop := host.CtxErr();
    ContinuesTransitive(a, b, host.Now());
    SameCommand(b, host.Now());
    return false, if stop then Canceled else NoErr;
  }

  /** When no pod is left: purge the store, stop the machine. */
  method Rest(host: Host) returns (checks: seq<Check>, ok: bool, err: Err)
    requires host.Valid() && host.command.Down? && host.sys.pods == map[] && host.sys.machine.Running?
    requires !Stops(host.trace)
    modifies host
    ensures Continues(old(host.Now()), host.Now()) && host.Valid() && host.command == old(host.command)
    ensures Downed(host.trace) == Downed(old(host.trace)) && (Removes(host.trace) <==> Removes(old(host.trace)))
    ensures OnlyCancelled(host.cancelled, err)
    ensures host.sys.hasKeychain == old(host.sys).hasKeychain && Shrinks(old(host.sys), host.sys)
    ensures host.sys.keychain == old(host.sys).keychain
    ensures err.NoErr? ==> Stops(host.trace)
    ensures ok ==> err.NoErr? && host.sys.machine.Stopped?
    ensures EndChecks(checks)
    ensures err.NoErr? ==>
      |checks| == 2 && checks[0].subject == SecretStore && checks[1].subject == MachineItself &&
        checks[0].status != Warn && checks[1].status == if ok then Pass else Fail
    ensures err.NoErr? && !HasFail(checks) ==> ok && host.sys == AtRest(old(host.sys))
    ensures err.NoErr? && checks[0].status == Pass ==>
      host.sys == Purged(old(host.sys)) || host.sys == AtRest(old(host.sys))
    ensures Faultless(host.trace) ==> Faultless(old(host.trace))
    ensures Faultless(host.trace) && !host.cancelled ==> err.NoErr? && !HasFail(checks)
  {
    hide Sound, Continues, Follows, Faultless, Unbroken, Plays, Downed, Stops, Removes, HasFail, PurgedPart, Purged;
    hide EndChecks, Shrinks, AtRest;
    ghost var a := host.Now();
    var purged := Purge(host);
    ghost var b := host.Now();
    PartKeeps(a.sys, b.sys);
    RestEnds(if purged then Pass else Fail);
    QuietShrinks(a.sys, b.sys);
    FollowsMeans(a, b);
    FollowsSame(a, b);
    var stop := host.CtxErr();
    ghost var c := host.Now();
    SameCommand(b, c);
    ContinuesTransitive(a, b, c);
    if stop { return [], false, Canceled; }
    checks := [Check(SecretStore, if purged then Pass else Fail)];
    ok, err := StopAtRest(host);
    ghost var d := host.Now();
    ContinuesTransitive(a, c, d);
    SameCommand(c, d);
    PurgedKeeps(a.sys);
    QuietShrinks(a.sys, d.sys);
    RestIs(a.sys, c.sys, d.sys);
    if !err.NoErr? { return checks, false, err; }
    OneMore(checks, Check(MachineItself, if ok then Pass else Fail));
    FailOfOne(SecretStore);
    checks := checks + [Check(MachineItself, if ok then Pass else Fail)];
  }

  lemma RestIs(s: Sys, c: Sys, d: Sys)
    requires c.machine.Running? && (d == c || d == c.(machine := MachineState.Stopped))
    ensures c == Purged(s) && d.machine.Stopped? ==> d == AtRest(s)
    ensures c == Purged(s) ==> d == Purged(s) || d == AtRest(s)
  {
    hide Purged;
  }

  lemma QuietShrinks(s: Sys, s': Sys)
    requires s'.pods == s.pods && s'.networks == s.networks
    ensures Shrinks(s, s')
  {
  }

  lemma RestEnds(x: Status)
    ensures EndChecks([]) && EndChecks([Check(SecretStore, x)])
    ensures EndChecks([Check(SecretStore, x)] + [Check(MachineItself, Pass)])
    ensures EndChecks([Check(SecretStore, x)] + [Check(MachineItself, Fail)])
  {
  }

  lemma FollowsSame(a: State, b: State)
    requires Follows(a, b)
    ensures (Stops(b.trace) <==> Stops(a.trace)) && (Removes(b.trace) <==> Removes(a.trace))
    ensures Downed(b.trace) == Downed(a.trace)
  {
    hide Continues, Stops, Removes, Downed;
  }

  lemma NoPodsHalt(s: Sys)
    requires s.pods == map[]
    ensures Halted(s.pods) == s.pods
  {
  }

  lemma PurgedKeeps(s: Sys)
    ensures Purged(s).pods == s.pods && Purged(s).machine == s.machine
  {
  }

  // ---- How a run of `down` may end ----------------------------------------

  /** The run never got to know which pods there are. */
  ghost predicate ListingFailed(checks: seq<Check>) {
    checks == [Check(MachineItself, Fail)] || checks == [Check(AllPods, Fail)]
  }

  ghost predicate DestroyFailed(checks: seq<Check>) {
    exists c :: c in checks && c.status == Fail && (c.subject.Destruction? || c.subject.Forgotten?)
  }

  /** What lclaw left in the machine is gone, what others put there is not. */
  ghost predicate NothingLeft(s: Sys, s': Sys) {
    && Labelled(s') == {}
    && (forall n :: n in s.store && !s.store[n].labelled ==> n in s'.store && s'.store[n] == s.store[n])
    && s'.volumes == s.volumes - Labelled(s)
  }

  /** The end of a faultless `down`: the selected zones torn down as far as the
      remaining pods allow and, if no pod is left, the machine at rest. */
  ghost predicate CleanDown(p: Plan, s: Sys, s': Sys, checks: seq<Check>) {
    exists m :: TornDown(p, s, m, 0) && s' == (if m.pods == map[] then AtRest(m) else m) &&
      (HasFail(checks) <==> Held(p, s, 0))
  }

  /** The report on a machine whose pods were listed: one check per workload and
      network of the selected zones, all of them true, and then the end. */
  ghost predicate ReportTold(p: Plan, destroy: bool, s: Sys, run: seq<Step>, s': Sys, checks: seq<Check>) {
    && DownSubjects(p, 0) <= SubjectsOf(checks) && |DownSubjects(p, 0)| <= |checks|
    && Told(p.top, checks, s, s.pods.Keys - Downed(run), s')
    && EndTold(p.entries, destroy, !(s.pods.Keys <= Downed(run)), s, s', checks[|DownSubjects(p, 0)|..])
    // a pass is the truth wherever it stands
    && (Check(SecretStore, Pass) in checks ==> Stops(run) && (destroy || NothingLeft(s, s')))
    && (Check(MachineItself, Pass) in checks ==> Stops(run) && !s'.machine.Running?)
    && (Stops(run) && !HasFail(checks) ==> Check(SecretStore, Pass) in checks && Check(MachineItself, Pass) in checks)
  }

  /** The report on a machine that was absent or stopped. */
  ghost predicate IdleTold(p: Plan, destroy: bool, s: Sys, s': Sys, checks: seq<Check>) {
    if s.machine.Stopped? && destroy then DestroyTold(p.entries, checks, s, s')
    else checks == [Check(MachineItself, Warn)]
  }

  /** How a run of `down` from `s` may end. */
  ghost predicate DownEnds(p: Plan, destroy: bool, s: Sys, run: seq<Step>, s': Sys, cancelled: bool, checks: seq<Check>,
      err: Err)
  {
    // nothing to take down: nothing is changed
    && (s.machine.NoMachine? || (s.machine.Stopped? && !destroy) ==> s' == s && !Stops(run))
    && (err.NoErr? && !s.machine.Running? && !ListingFailed(checks) ==> IdleTold(p, destroy, s, s', checks))
    && (err.NoErr? && s.machine.Running? && !ListingFailed(checks) ==>
      // the report is complete and true, whatever failed
      && ReportTold(p, destroy, s, run, s', checks)
      && s'.pods.Keys <= s.pods.Keys - Downed(run)
      // the machine is stopped exactly when every listed pod was taken down
      && (Stops(run) <==> s.pods.Keys <= Downed(run)))
    && (err.NoErr? && ListingFailed(checks) ==> !Stops(run) && s' == s && !Faultless(run))
    // while a listed pod was not taken down, nothing but pods and networks goes, however the run ends
    && (s.machine.Running? && !(s.pods.Keys <= Downed(run)) ==> Tears(s, s'))
    // a failed call is in the report: only a cancellation is an error
    && OnlyCancelled(cancelled, err)
    // a destroy that reports no failure leaves no machine and no minted item
    && (err.NoErr? && !DestroyFailed(checks) && Removes(run) ==>
      s'.machine.NoMachine? && MintedGone(p.entries, |p.entries|, s'))
    && (err.NoErr? && destroy && !HasFail(checks) && Clearable(s, run) ==>
      s'.machine.NoMachine? && MintedGone(p.entries, |p.entries|, s'))
    && (Faultless(run) && !cancelled && s.machine.Running? && !destroy ==> err.NoErr? && CleanDown(p, s, s', checks))
    // and a faultless destroy gets there when nothing else runs in the machine
    && (Faultless(run) && !cancelled && destroy && Destroyable(p, s) ==>
      && s'.machine.NoMachine?
      && (s.hasKeychain ==>
        && MintedGone(p.entries, |p.entries|, s')
        && (HasFail(checks) <==> s.machine.Running? && Held(p, s, 0))))
  }

  /** There is a machine and every pod listed in it was taken down. */
  ghost predicate Clearable(s: Sys, run: seq<Step>) {
    s.machine.Stopped? || (s.machine.Running? && s.pods.Keys <= Downed(run))
  }

  /** There is a machine, running nothing but the selected zones' pods. */
  ghost predicate Destroyable(p: Plan, s: Sys) {
    s.machine.Stopped? || (s.machine.Running? && forall w :: w in s.pods ==> !Remains(p, 0, w))
  }

  lemma ToldIs(top: Topology, checks: seq<Check>, listed: Sys, present: set<string>, s: Sys, c: Check)
    requires Told(top, checks, listed, present, s) && c in checks && !HasFail(checks)
    ensures c.subject.WorkloadOf? ==> c.subject.workload in listed.pods ==> c.subject.workload !in present
    ensures c.subject.ZoneNetwork? && !SomePresent(ZoneOf(top, c.subject.role).workloads, present) ==>
      c.subject.role.NetworkName() !in s.networks
  {
    assert PodTold(c, listed.pods.Keys, present) && NetworkTold(top, c, listed, present, s);
  }

  lemma ReportedGone(p: Plan, checks: seq<Check>, listed: Sys, present: set<string>, s: Sys, k: nat)
    requires Told(p.top, checks, listed, present, s) && DownSubjects(p, 0) <= SubjectsOf(checks) && !HasFail(checks)
    requires k < |p.roles| && present <= listed.pods.Keys
    ensures forall w :: w in ZoneOf(p.top, p.roles[k]).workloads ==> w !in present
    ensures p.roles[k].NetworkName() !in s.networks
  {
    hide Told, SubjectsOf, DownSubjects, HasFail;
    var r := p.roles[k];
    forall w | w in ZoneOf(p.top, r).workloads ensures w !in present {
      InDownSubjects(p, 0, k, w);
      var c := SubjectHasCheck(checks, WorkloadOf(r, w));
      ToldIs(p.top, checks, listed, present, s, c);
    }
    InDownSubjects(p, 0, k, "");
    var c := SubjectHasCheck(checks, ZoneNetwork(r));
    ToldIs(p.top, checks, listed, present, s, c);
  }

  /** A `down` on a running machine that returned no error and reports no
      failure took every selected pod and every selected network away, whatever
      happened on the way. */
  lemma CleanReportMeansGone(
    p: Plan, destroy: bool, s: Sys, run: seq<Step>, s': Sys, cancelled: bool, checks: seq<Check>, err: Err, r: Role)
    requires DownEnds(p, destroy, s, run, s', cancelled, checks, err) && err.NoErr? && !HasFail(checks)
    requires s.machine.Running? && r in p.roles
    ensures r.NetworkName() !in s'.networks
    ensures forall w :: w in ZoneOf(p.top, r).workloads ==> w !in s'.pods
  {
    hide Stops, Removes, Downed, Faultless, MintedGone, CleanDown, Destroyable, NothingLeft, DownSubjects;
    hide SubjectsOf, Told, HasFail, EndTold, IdleTold;
    FailOfOne(MachineItself);
    FailOfOne(AllPods);
    var k :| 0 <= k < |p.roles| && p.roles[k] == r;
    ReportedGone(p, checks, s, s.pods.Keys - Downed(run), s', k);
  }

  /** In the report of a `down` without an error "secrets" passed only if it
      purged lclaw's secrets, and "machine" only if it stopped the machine. */
  lemma PassedEndsAreTrue(
    p: Plan, destroy: bool, s: Sys, run: seq<Step>, s': Sys, cancelled: bool, checks: seq<Check>, err: Err)
    requires DownEnds(p, destroy, s, run, s', cancelled, checks, err) && err.NoErr?
    ensures Check(SecretStore, Pass) in checks ==>
      s.machine.Running? && s.pods.Keys <= Downed(run) && (destroy || NothingLeft(s, s'))
    ensures Check(MachineItself, Pass) in checks ==>
      s.machine.Running? && s.pods.Keys <= Downed(run) && Stops(run) && !s'.machine.Running?
  {
    hide Stops, Removes, Downed, Faultless, MintedGone, CleanDown, Destroyable, NothingLeft, DownSubjects;
    hide SubjectsOf, Told, HasFail, EndTold, DestroyTold;
    if !s.machine.Running? && !ListingFailed(checks) && s.machine.Stopped? && destroy {
      DestroySubjects(p.entries, checks, s, s');
    }
  }

  /** While a listed pod was not taken down the report says that secrets and
      machine were kept, and both were. */
  lemma LeftPodsKeepTheRest(
    p: Plan, destroy: bool, s: Sys, run: seq<Step>, s': Sys, cancelled: bool, checks: seq<Check>, err: Err, w: string)
    requires DownEnds(p, destroy, s, run, s', cancelled, checks, err) && err.NoErr?
    requires s.machine.Running? && w in s.pods && w !in Downed(run) && !ListingFailed(checks)
    ensures |checks| == |DownSubjects(p, 0)| + 2
    ensures checks[|checks| - 2..] == [Check(SecretStore, Warn), Check(MachineItself, Warn)]
    ensures s'.machine == s.machine && s'.store == s.store && s'.volumes == s.volumes && s'.keychain == s.keychain
  {
    hide Stops, Removes, Downed, Faultless, MintedGone, CleanDown, Destroyable, NothingLeft, DownSubjects;
    hide SubjectsOf, Told, HasFail, DestroyTold;
  }

  /** What the report says of each selected pod and network when the pods could
      be listed: a pod that was not there is a warning, one that was taken down a
      pass, and any other a failure; a network is kept, with a warning, while a
      pod of its zone is left. */
  lemma ZonesReported(
    p: Plan, destroy: bool, s: Sys, run: seq<Step>, s': Sys, cancelled: bool, checks: seq<Check>, err: Err, r: Role)
    requires DownEnds(p, destroy, s, run, s', cancelled, checks, err) && err.NoErr?
    requires s.machine.Running? && r in p.roles && !ListingFailed(checks)
    ensures forall w :: w in ZoneOf(p.top, r).workloads ==> exists c :: c in checks && c.subject == WorkloadOf(r, w)
    ensures forall c :: c in checks && c.subject.WorkloadOf? ==>
      && (c.status == Warn <==> c.subject.workload !in s.pods)
      && (c.status == Pass <==> c.subject.workload in s.pods && c.subject.workload in Downed(run))
      && (c.status == Fail <==> c.subject.workload in s.pods && c.subject.workload !in Downed(run))
    ensures exists c :: c in checks && c.subject == ZoneNetwork(r)
    ensures var n, left := r.NetworkName(),
        exists w :: w in ZoneOf(p.top, r).workloads && w in s.pods && w !in Downed(run);
      forall c :: c in checks && c.subject == ZoneNetwork(r) ==>
        && (left ==> c.status == Warn)
        && (!left && c.status == Pass ==> n in s.networks && n !in s'.networks)
        && (!left && c.status == Warn ==> n !in s.networks && n !in s'.networks)
  {
    hide Stops, Removes, Downed, Faultless, MintedGone, CleanDown, Destroyable, NothingLeft, DownSubjects;
    hide SubjectsOf, HasFail, EndTold, IdleTold, ListingFailed;
    var k :| 0 <= k < |p.roles| && p.roles[k] == r;
    forall w | w in ZoneOf(p.top, r).workloads ensures exists c :: c in checks && c.subject == WorkloadOf(r, w) {
      InDownSubjects(p, 0, k, w);
      var c := SubjectHasCheck(checks, WorkloadOf(r, w));
    }
    InDownSubjects(p, 0, k, "");
    var c := SubjectHasCheck(checks, ZoneNetwork(r));
    forall c | c in checks
      ensures PodTold(c, s.pods.Keys, s.pods.Keys - Downed(run))
      ensures NetworkTold(p.top, c, s, s.pods.Keys - Downed(run), s')
    {}
    assert SomePresent(ZoneOf(p.top, r).workloads, s.pods.Keys - Downed(run)) <==>
      exists w :: w in ZoneOf(p.top, r).workloads && w in s.pods && w !in Downed(run);
  }

  /** What the report of a destroy says, and the whole report where there was no
      running machine: one warning, or the destroy. */
  lemma IdleReported(
    p: Plan, destroy: bool, s: Sys, run: seq<Step>, s': Sys, cancelled: bool, checks: seq<Check>, err: Err)
    requires DownEnds(p, destroy, s, run, s', cancelled, checks, err) && err.NoErr? && !s.machine.Running?
    ensures Faultless(run) ==> !ListingFailed(checks)
    ensures ListingFailed(checks) ==> s' == s
    ensures !ListingFailed(checks) && (s.machine.NoMachine? || !destroy) ==> checks == [Check(MachineItself, Warn)]
    ensures !ListingFailed(checks) && s.machine.Stopped? && destroy ==>
      && checks != []
      && (checks == [Check(Destruction, Fail)] || (checks[0] == Check(Destruction, Pass) && s'.machine.NoMachine?))
      && (forall i :: 1 <= i < |checks| ==> checks[i].subject.Forgotten? && checks[i].status != Warn)
      && (forall i :: 1 <= i < |checks| && checks[i].status == Pass ==>
        checks[i].subject.name in s.keychain && checks[i].subject.name !in s'.keychain)
      && (checks[0].status == Pass ==> forall e :: e in p.entries && e.source.Minted? && e.name in s.keychain ==>
        exists c :: c in checks && c.subject == Forgotten(e.name))
  {
    hide Stops, Removes, Downed, Faultless, MintedGone, CleanDown, Destroyable, NothingLeft, ReportTold, HasFail;
    hide ListingFailed, DestroyTold, IdleTold;
    if !ListingFailed(checks) {
      IdleMeans(p, destroy, s, s', checks);
      if s.machine.Stopped? && destroy { DestroySays(p.entries, checks, s, s'); }
    }
  }

  lemma IdleMeans(p: Plan, destroy: bool, s: Sys, s': Sys, checks: seq<Check>)
    requires IdleTold(p, destroy, s, s', checks) && !s.machine.Running?
    ensures s.machine.NoMachine? || !destroy ==> checks == [Check(MachineItself, Warn)]
    ensures s.machine.Stopped? && destroy ==> DestroyTold(p.entries, checks, s, s')
  {
    hide DestroyTold;
  }

  lemma DestroySays(entries: seq<SecretSpec>, checks: seq<Check>, s: Sys, s': Sys)
    requires DestroyTold(entries, checks, s, s')
    ensures checks != []
    ensures checks == [Check(Destruction, Fail)] || (checks[0] == Check(Destruction, Pass) && s'.machine.NoMachine?)
    ensures forall i :: 1 <= i < |checks| ==> checks[i].subject.Forgotten? && checks[i].status != Warn
    ensures forall i :: 1 <= i < |checks| && checks[i].status == Pass ==>
      checks[i].subject.name in s.keychain && checks[i].subject.name !in s'.keychain
    ensures checks[0].status == Pass ==> forall e :: e in entries && e.source.Minted? && e.name in s.keychain ==>
      exists c :: c in checks && c.subject == Forgotten(e.name)
  {
    if checks[0].status == Pass {
      assert forall i :: 1 <= i < |checks| ==> checks[i] == checks[1..][i - 1];
      forall e | e in entries && e.source.Minted? && e.name in s.keychain
        ensures exists c :: c in checks && c.subject == Forgotten(e.name)
      {
        var j :| 0 <= j < |entries| && entries[j] == e;
        var c :| c in checks[1..] && c.subject == Forgotten(entries[j].name);
        assert c in checks;
      }
    }
  }

  /** The end of the report where the machine ran and every listed pod was taken
      down: the store, the machine and, where it was stopped and that was asked,
      the destroy. */
  lemma EndReported(
    p: Plan, destroy: bool, s: Sys, run: seq<Step>, s': Sys, cancelled: bool, checks: seq<Check>, err: Err)
    requires DownEnds(p, destroy, s, run, s', cancelled, checks, err) && err.NoErr?
    requires s.machine.Running? && s.pods.Keys <= Downed(run) && !ListingFailed(checks)
    ensures var n := |DownSubjects(p, 0)|;
      && |checks| >= n + 2
      && (checks[n] == Check(SecretStore, Pass) || checks[n] == Check(SecretStore, Fail))
      && (checks[n + 1] == Check(MachineItself, Pass) || checks[n + 1] == Check(MachineItself, Fail))
      && (if destroy && checks[n + 1].status == Pass then
          |checks| > n + 2 && checks[n + 2].subject == Destruction &&
            (checks[n + 2].status == Pass ==> s'.machine.NoMachine?)
        else |checks| == n + 2)
  {
    hide Stops, Removes, Downed, Faultless, MintedGone, CleanDown, Destroyable, NothingLeft, DownSubjects;
    hide SubjectsOf, Told, HasFail, IdleTold, ListingFailed, ForgottenListed;
    var n := |DownSubjects(p, 0)|;
    var end := checks[n..];
    assert end[0] == checks[n] && end[1] == checks[n + 1];
    if destroy && end[1].status == Pass { assert end[2..][0] == checks[n + 2]; }
  }

  lemma PresentMeans(a: State, b: State, present: set<string>, tried: set<string>)
    requires Tearing(a, b, present, tried)
    ensures present == {} <==> a.sys.pods.Keys <= Downed(b.trace)
    ensures present == {} ==> b.sys.pods == map[]
    ensures Faultless(b.trace) && present != {} ==> b.sys.pods != map[]
    ensures !Stops(b.trace) && !Removes(b.trace) && Tears(a.sys, b.sys)
  {
    hide Continues, Faultless, Downed, Stops, Removes;
    if present == {} { assert b.sys.pods.Keys == {}; }
    assert present == a.sys.pods.Keys - Downed(b.trace);
    if a.sys.pods.Keys <= Downed(b.trace) { assert present == {}; }
  }

  lemma RestLeavesNothing(s: Sys, m: Sys, s': Sys)
    requires Tears(s, m) && (s' == Purged(m) || s' == AtRest(m))
    ensures NothingLeft(s, s')
  {
  }

  lemma DestroyFailedIn(checks: seq<Check>, more: seq<Check>)
    requires DestroyChecks(more)
    ensures HasFail(more) ==> DestroyFailed(checks + more)
    ensures Check(SecretStore, Pass) in checks + more <==> Check(SecretStore, Pass) in checks
  {
    if HasFail(more) {
      var c :| c in more && c.status == Fail;
      assert c in checks + more;
    }
  }

  lemma RestPassed(checks: seq<Check>)
    requires |checks| == 2 && checks[0].subject == SecretStore && checks[1].subject == MachineItself
    ensures Check(SecretStore, Pass) in checks <==> checks[0].status == Pass
    ensures checks[0].status == Fail ==> HasFail(checks)
  {
    assert checks[0] in checks;
    if Check(SecretStore, Pass) in checks {
      var i :| 0 <= i < |checks| && checks[i] == Check(SecretStore, Pass);
      assert i == 0;
    }
  }

  /** Checks about neither a workload nor a network. */
  ghost predicate EndChecks(checks: seq<Check>) {
    forall c :: c in checks ==> !c.subject.WorkloadOf? && !c.subject.ZoneNetwork?
  }

  /** The end of a report on a machine that ran, `s` being how it was: two
      warnings while a listed pod is left. Otherwise whether the store was purged
      and the machine stopped and, if it was and that was asked, the destroy. */
  ghost predicate EndTold(
    entries: seq<SecretSpec>, destroy: bool, left: bool, s: Sys, s': Sys, checks: seq<Check>)
  {
    if left then checks == [Check(SecretStore, Warn), Check(MachineItself, Warn)]
    else
      && |checks| >= 2 && checks[0].subject == SecretStore && checks[1].subject == MachineItself
      && checks[0].status != Warn && checks[1].status != Warn
      && (checks[0].status == Pass ==> NothingLeft(s, s') || (destroy && s'.machine.NoMachine?))
      && (checks[1].status == Pass ==> !s'.machine.Running?)
      && (if checks[1].status == Pass && destroy then DestroyTold(entries, checks[2..], s, s') else |checks| == 2)
  }

  /** What the two checks mean when they pass, wherever they stand. */
  lemma EndPasses(entries: seq<SecretSpec>, destroy: bool, left: bool, s: Sys, s': Sys, checks: seq<Check>)
    requires EndTold(entries, destroy, left, s, s', checks)
    ensures Check(SecretStore, Pass) in checks ==> !left && (destroy || NothingLeft(s, s'))
    ensures Check(MachineItself, Pass) in checks ==> !left && !s'.machine.Running?
    ensures |checks| >= 2 && EndChecks(checks)
    ensures !left && !HasFail(checks) ==> Check(SecretStore, Pass) in checks && Check(MachineItself, Pass) in checks
  {
    hide NothingLeft, ForgottenListed;
    assert checks[0] in checks && checks[1] in checks;
    if |checks| > 2 {
      DestroySubjects(entries, checks[2..], s, s');
      assert forall i :: 2 <= i < |checks| ==> checks[i] == checks[2..][i - 2];
    }
  }

  lemma DestroySubjects(entries: seq<SecretSpec>, checks: seq<Check>, s: Sys, s': Sys)
    requires DestroyTold(entries, checks, s, s')
    ensures DestroyChecks(checks)
  {
    hide ForgottenListed;
    if |checks| > 1 { assert forall i :: 1 <= i < |checks| ==> checks[i] == checks[1..][i - 1]; }
  }

  /** The purge and the stop are the end when no destroy follows. */
  lemma RestIsTheEnd(entries: seq<SecretSpec>, destroy: bool, s: Sys, c: Sys, checks: seq<Check>, ok: bool)
    requires |checks| == 2 && checks[0].subject == SecretStore && checks[1].subject == MachineItself
    requires checks[0].status != Warn && checks[1].status == (if ok then Pass else Fail)
    requires (checks[0].status == Pass ==> NothingLeft(s, c)) && (ok ==> !c.machine.Running?)
    requires !ok || !destroy
    ensures EndTold(entries, destroy, false, s, c, checks)
  {
    hide NothingLeft, DestroyTold;
  }

  /** The destroy comes after both. */
  lemma DestroyIsTheEnd(
    entries: seq<SecretSpec>, s: Sys, c: Sys, s': Sys, checks: seq<Check>, more: seq<Check>)
    requires |checks| == 2 && checks[0].subject == SecretStore && checks[1].subject == MachineItself
    requires checks[0].status != Warn && checks[1].status == Pass
    requires (checks[0].status == Pass ==> NothingLeft(s, c)) && c.machine.Stopped? && c.keychain == s.keychain
    requires DestroyTold(entries, more, c, s') && (s' == c || s'.machine.NoMachine?)
    ensures EndTold(entries, true, false, s, s', checks + more)
  {
    hide NothingLeft, DestroyTold;
    assert (checks + more)[2..] == more;
    DestroyToldOf(entries, more, s, c, s');
  }

  lemma NothingShrinks(s: Sys)
    ensures Shrinks(s, s)
  {
  }

  lemma ShrinksTransitive(a: Sys, b: Sys, c: Sys)
    requires Shrinks(a, b) && Shrinks(b, c)
    ensures Shrinks(a, c)
  {
  }

  lemma EndOfDestroy(checks: seq<Check>, more: seq<Check>)
    requires EndChecks(checks) && DestroyChecks(more)
    ensures EndChecks(checks + more)
  {
  }

  /** After the zones: keep everything while pods remain, otherwise purge, stop
      and, if asked, destroy. */
  method Finish(host: Host, entries: seq<SecretSpec>, present: set<string>, destroy: bool, ghost a: State,
      ghost tried: set<string>)
    returns (checks: seq<Check>, err: Err)
    requires Tearing(a, host.Now(), present, tried)
    requires host.command.plan.entries == entries && host.command.destroy == destroy
    requires destroy ==> |host.command.plan.roles| == |ALL|
    modifies host
    ensures Continues(a, host.Now())
    ensures OnlyCancelled(host.cancelled, err)
    ensures err.NoErr? ==> (Stops(host.trace) <==> a.sys.pods.Keys <= Downed(host.trace))
    ensures err.NoErr? ==>
      EndTold(entries, destroy, !(a.sys.pods.Keys <= Downed(host.trace)), a.sys, host.sys, checks)
    ensures err.NoErr? && !DestroyFailed(checks) && Removes(host.trace) ==>
      host.sys.machine.NoMachine? && MintedGone(entries, |entries|, host.sys)
    ensures err.NoErr? && destroy && Stops(host.trace) && !HasFail(checks) ==>
      host.sys.machine.NoMachine? && MintedGone(entries, |entries|, host.sys)
    ensures Downed(host.trace) == Downed(old(host.trace)) && Shrinks(old(host.sys), host.sys) && EndChecks(checks)
    ensures Faultless(host.trace) ==> Faultless(old(host.trace))
    ensures Faultless(host.trace) && !host.cancelled && !destroy ==>
      err.NoErr? && !HasFail(checks) &&
        host.sys == if old(host.sys).pods == map[] then AtRest(old(host.sys)) else old(host.sys)
    ensures Faultless(host.trace) && !host.cancelled && destroy && old(host.sys).pods == map[] ==>
      && host.sys.machine.NoMachine?
      && (old(host.sys).hasKeychain ==> !HasFail(checks) && MintedGone(entries, |entries|, host.sys))
    ensures !(a.sys.pods.Keys <= Downed(host.trace)) ==> host.sys == old(host.sys)
  {
    hide Sound, Continues, Tearing, Faultless, Plays, Downed, Stops, Removes, HasFail, MintedGone, AtRest;
    hide Purged, DestroyFailed, NothingLeft, DestroyChecks, Shrinks, EndChecks, EndTold, DestroyTold;
    ghost var b := host.Now();
    TearingMeans(a, b, present, tried);
    PresentMeans(a, b, present, tried);
    err := NoErr;
    NothingShrinks(b.sys);
    if present != {} {
      checks := [Check(SecretStore, Warn), Check(MachineItself, Warn)];
      WarnsOnly(entries, destroy, a.sys, b.sys);
      return;
    }
    var ok;
    checks, ok, err := Rest(host);
    ghost var c := host.Now();
    ContinuesTransitive(a, b, c);
    if !err.NoErr? { return; }
    RestPassed(checks);
    if checks[0].status == Pass { RestLeavesNothing(a.sys, b.sys, c.sys); }
    if !ok || !destroy {
      RestIsTheEnd(entries, destroy, a.sys, c.sys, checks, ok);
      return;
    }
    var more;
    more, err := Destroy(host, entries);
    ContinuesTransitive(a, c, host.Now());
    SameCommand(c, host.Now());
    DestroyFailedIn(checks, more);
    EndOfDestroy(checks, more);
    ShrinksTransitive(b.sys, c.sys, host.sys);
    FailsConcat(checks, more);
    if err.NoErr? {
      KeychainStands(a.sys, b.sys);
      DestroyIsTheEnd(entries, a.sys, c.sys, host.sys, checks, more);
    }
    checks := checks + more;
  }

  lemma WarnsOnly(entries: seq<SecretSpec>, destroy: bool, s: Sys, s': Sys)
    ensures var checks := [Check(SecretStore, Warn), Check(MachineItself, Warn)];
      !HasFail(checks) && EndChecks(checks) && EndTold(entries, destroy, true, s, s', checks)
  {
  }

  // ---- The command --------------------------------------------------------

  /** The names of the pods. */
  method Present(pods: seq<PodReport>, ghost s: Sys) returns (present: set<string>)
    requires ListsPods(pods, s)
    ensures present == s.pods.Keys
  {
    present := {};
    for i := 0 to |pods|
      invariant forall w :: w in present <==> exists j :: 0 <= j < i && pods[j].name == w
    {
      present := present + {pods[i].name};
    }
    forall w ensures w in present <==> w in s.pods {
      if w in s.pods {
        var p :| p in pods && p.name == w;
        var j :| 0 <= j < |pods| && pods[j] == p;
        assert pods[j].name == w;
      }
      if w in present {
        var j :| 0 <= j < |pods| && pods[j].name == w;
        assert pods[j] in pods;
      }
    }
  }

  /** Nothing was taken down, stopped or removed yet. */
  ghost predicate Untouched(run: seq<Step>) {
    Downed(run) == {} && !Stops(run) && !Removes(run)
  }

  lemma UntouchedKept(a: State, b: State)
    requires Follows(a, b) && Untouched(a.trace)
    ensures Untouched(b.trace)
  {
    hide Continues, Downed, Stops, Removes;
  }

  lemma TearingStarts(a: State, present: set<string>)
    requires Sound(a) && a.command.Down? && a.sys.machine.Running? && Untouched(a.trace) && present == a.sys.pods.Keys
    ensures Tearing(a, a, present, {})
  {
    hide Sound, Faultless, Unbroken, Downed, Stops, Removes;
    ContinuesReflexive(a);
    assert a.sys.pods.Keys - {} == a.sys.pods.Keys;
  }

  /** The zones' checks are about workloads and networks only. */
  predicate ZoneSubject(subject: Subject) {
    subject.WorkloadOf? || subject.ZoneNetwork?
  }

  lemma {:induction false} BackwardsAreZones(role: Role, ws: seq<string>, j: nat)
    requires j <= |ws|
    ensures forall x :: x in Backwards(role, ws, j) ==> ZoneSubject(x)
    decreases |ws| - j
  {
    if j < |ws| { BackwardsAreZones(role, ws, j + 1); }
  }

  lemma {:induction false} DownSubjectsAreZones(p: Plan, i: nat)
    requires i <= |p.roles|
    ensures forall x :: x in DownSubjects(p, i) ==> ZoneSubject(x)
    decreases |p.roles| - i
  {
    hide Backwards;
    if i < |p.roles| {
      DownSubjectsAreZones(p, i + 1);
      BackwardsAreZones(p.roles[i], ZoneOf(p.top, p.roles[i]).workloads, 0);
    }
  }

  /** Only the last part of the report speaks about the store and the end of
      the machine. */
  lemma ZonesThenEnd(p: Plan, zones: seq<Check>, more: seq<Check>)
    requires SubjectsOf(zones) == DownSubjects(p, 0) && |more| >= 2
    ensures DownSubjects(p, 0) <= SubjectsOf(zones + more)
    ensures |DownSubjects(p, 0)| == |zones| && (zones + more)[|zones|..] == more
    ensures Check(SecretStore, Pass) in zones + more <==> Check(SecretStore, Pass) in more
    ensures Check(MachineItself, Pass) in zones + more <==> Check(MachineItself, Pass) in more
    ensures DestroyFailed(more) ==> DestroyFailed(zones + more)
    ensures HasFail(zones + more) <==> HasFail(zones) || HasFail(more)
    ensures !ListingFailed(zones + more)
  {
    hide SubjectsOf, DownSubjects, HasFail, DestroyFailed, ListingFailed;
    SubjectsConcat(zones, more);
    SubjectsLength(zones);
    FailsConcat(zones, more);
    DestroyFailedLater(zones, more);
    TooLong(zones + more);
    NotOfZones(p, zones);
  }

  lemma TooLong(checks: seq<Check>)
    requires |checks| >= 2
    ensures !ListingFailed(checks)
  {
  }

  lemma NotOfZones(p: Plan, zones: seq<Check>)
    requires SubjectsOf(zones) == DownSubjects(p, 0)
    ensures Check(SecretStore, Pass) !in zones && Check(MachineItself, Pass) !in zones
  {
    hide SubjectsOf, DownSubjects;
    OnlyZones(p, zones);
  }

  lemma OnlyZones(p: Plan, zones: seq<Check>)
    requires SubjectsOf(zones) == DownSubjects(p, 0)
    ensures forall c :: c in zones ==> ZoneSubject(c.subject)
  {
    hide SubjectsOf, DownSubjects, ZoneSubject;
    DownSubjectsAreZones(p, 0);
    forall c | c in zones ensures ZoneSubject(c.subject) { SubjectIn(zones, c); }
  }

  lemma DestroyFailedLater(zones: seq<Check>, more: seq<Check>)
    ensures DestroyFailed(more) ==> DestroyFailed(zones + more)
  {
    if DestroyFailed(more) {
      var c :| c in more && c.status == Fail && (c.subject.Destruction? || c.subject.Forgotten?);
      assert c in zones + more;
    }
  }

  lemma NothingRemains(p: Plan, s: Sys, m: Sys)
    requires TornDown(p, s, m, 0) && Destroyable(p, s) && s.machine.Running?
    ensures m.pods == map[]
  {
    hide Remains, Held, HeldUp, Elsewhere;
    assert m.pods.Keys == {};
  }

  lemma KeychainStands(s: Sys, m: Sys)
    requires Tears(s, m)
    ensures m.hasKeychain == s.hasKeychain && m.keychain == s.keychain
  {
  }

  /** What a run that listed the pods and finished is known to have done. */
  lemma TakenDown(p: Plan, destroy: bool, s: Sys, run: seq<Step>, m: Sys, s': Sys, cancelled: bool, zones: seq<Check>,
      more: seq<Check>, err: Err)
    requires s.machine.Running? && SubjectsOf(zones) == DownSubjects(p, 0)
    requires OnlyCancelled(cancelled, err)
    requires err.NoErr? ==>
      Told(p.top, zones, s, s.pods.Keys - Downed(run), m) && EndChecks(more) && Shrinks(m, s')
    requires err.NoErr? ==> m.pods.Keys <= s.pods.Keys - Downed(run)
    requires err.NoErr? && destroy && Stops(run) && !HasFail(more) ==>
      s'.machine.NoMachine? && MintedGone(p.entries, |p.entries|, s')
    requires err.NoErr? ==> EndTold(p.entries, destroy, !(s.pods.Keys <= Downed(run)), s, s', more)
    requires err.NoErr? ==> (Stops(run) <==> s.pods.Keys <= Downed(run))
    requires err.NoErr? && !DestroyFailed(more) && Removes(run) ==>
      s'.machine.NoMachine? && MintedGone(p.entries, |p.entries|, s')
    requires Faultless(run) ==> TornDown(p, s, m, 0) && (HasFail(zones) <==> Held(p, s, 0))
    requires Faultless(run) && !cancelled && !destroy ==>
      err.NoErr? && !HasFail(more) && s' == if m.pods == map[] then AtRest(m) else m
    requires Faultless(run) && !cancelled && destroy && m.pods == map[] ==>
      s'.machine.NoMachine? && (m.hasKeychain ==> !HasFail(more) && MintedGone(p.entries, |p.entries|, s'))
    requires Tears(s, m) && (!(s.pods.Keys <= Downed(run)) ==> s' == m)
    ensures DownEnds(p, destroy, s, run, s', cancelled, zones + more, err)
  {
    hide Stops, Removes, Downed, Faultless, MintedGone, TornDown, Held, AtRest, NothingLeft, HasFail;
    hide DestroyFailed, ListingFailed, SubjectsOf, DownSubjects, Destroyable, Told, EndChecks, Tears, EndTold;
    hide IdleTold;
    if err.NoErr? {
      EndPasses(p.entries, destroy, !(s.pods.Keys <= Downed(run)), s, s', more);
      ZonesThenEnd(p, zones, more);
      ToldToTheEnd(p.top, zones, more, s, s.pods.Keys - Downed(run), m, s');
    }
    if Faultless(run) && Destroyable(p, s) { NothingRemains(p, s, m); }
    KeychainStands(s, m);
  }

  lemma ToldToTheEnd(
    top: Topology, zones: seq<Check>, more: seq<Check>, listed: Sys, present: set<string>, m: Sys, s: Sys)
    requires Told(top, zones, listed, present, m) && EndChecks(more) && Shrinks(m, s)
    ensures Told(top, zones + more, listed, present, s)
  {
    hide Told, Apart;
    ApartFromNothing(top, zones);
    assert present - {} == present;
    ToldKept(top, zones, listed, present, m, present, s, {});
    EndIsTold(top, more, listed, present, s);
    ToldConcat(top, zones, more, listed, present, s);
  }

  lemma EndIsTold(top: Topology, more: seq<Check>, listed: Sys, present: set<string>, s: Sys)
    requires EndChecks(more)
    ensures Told(top, more, listed, present, s)
  {
  }

  /** The pods could not be listed. */
  lemma NotListed(p: Plan, destroy: bool, s: Sys, run: seq<Step>, cancelled: bool, subject: Subject)
    requires Untouched(run) && !Faultless(run) && (subject.MachineItself? || subject.AllPods?)
    ensures DownEnds(p, destroy, s, run, s, cancelled, [Check(subject, Fail)], NoErr)
  {
    hide Stops, Removes, Downed, Faultless, MintedGone, CleanDown, Destroyable, NothingLeft, HasFail;
    hide ReportTold, IdleTold;
    FailOfOne(subject);
  }

  /** There is nothing to take down. */
  lemma NothingToDo(p: Plan, destroy: bool, s: Sys, run: seq<Step>, cancelled: bool)
    requires Untouched(run) && (s.machine.NoMachine? || (s.machine.Stopped? && !destroy))
    ensures DownEnds(p, destroy, s, run, s, cancelled, [Check(MachineItself, Warn)], NoErr)
  {
    hide Stops, Removes, Downed, Faultless, MintedGone, CleanDown, NothingLeft, HasFail, ReportTold;
    assert [Check(MachineItself, Warn)][0].status == Warn;
  }

  method TakeDown(host: Host, top: Topology, entries: seq<SecretSpec>, roles: seq<Role>, destroy: bool)
    returns (checks: seq<Check>, err: Err)
    requires host.Valid() && host.command == Command.Down(Plan(top, entries, roles), destroy)
    requires host.sys.machine.Running? && Untouched(host.trace) && (destroy ==> |roles| == |ALL|)
    modifies host
    ensures Continues(old(host.Now()), host.Now())
    ensures DownEnds(host.command.plan, destroy, old(host.sys), host.trace, host.sys, host.cancelled, checks, err)
  {
    hide Sound, Continues, Follows, Untouched, Tearing, Faultless, HasFail, MintedGone, AtRest, DestroyFailed;
    hide NothingLeft, DownEnds, DownSubjects, SubjectsOf, TornDown, Held, Plays, Downed, Stops, Removes;
    hide Unbroken, Told, EndChecks, Shrinks, EndTold;
    ghost var z, p := host.Now(), host.command.plan;
    var o, pods := host.ListPods();
    ghost var a := host.Now();
    FollowsOnce(z, Event.ListPods, o, a);
    UntouchedKept(z, a);
    SameCommand(z, a);
    if !o.Done? {
      NotListed(p, destroy, a.sys, host.trace, host.cancelled, AllPods);
      return [Check(AllPods, Fail)], NoErr;
    }
    var present := Present(pods, host.sys);
    TearingStarts(a, present);
    checks, present, err := DownZones(host, top, roles, present);
    ghost var b := host.Now();
    ContinuesTransitive(z, a, b);
    SameCommand(a, b);
    if !err.NoErr? {
      CancelledDown(p, destroy, a.sys, b, checks, err);
      return;
    }
    TearingPods(a, b, present, TriedFrom(p, 0));
    var more;
    more, err := Finish(host, entries, present, destroy, a, TriedFrom(p, 0));
    ContinuesTransitive(z, a, host.Now());
    SameCommand(a, host.Now());
    TakenDown(p, destroy, a.sys, host.trace, b.sys, host.sys, host.cancelled, checks, more, err);
    checks := checks + more;
  }

  lemma TearingPods(a: State, b: State, present: set<string>, tried: set<string>)
    requires Tearing(a, b, present, tried)
    ensures present == a.sys.pods.Keys - Downed(b.trace) && b.sys.pods.Keys <= present
  {
    hide Continues, Faultless, Downed, Stops, Removes;
  }

  lemma CancelledDown(p: Plan, destroy: bool, s: Sys, b: State, checks: seq<Check>, err: Err)
    requires err.Canceled? && b.cancelled && s.machine.Running? && Tears(s, b.sys)
    ensures DownEnds(p, destroy, s, b.trace, b.sys, b.cancelled, checks, err)
  {
    hide Stops, Removes, Downed, Faultless, MintedGone, CleanDown, NothingLeft, HasFail, ReportTold, IdleTold;
  }

  ghost predicate LastNamed(machines: seq<Machine>, i: int) {
    0 <= i < |machines| && machines[i].name == MACHINE_NAME &&
      forall j :: i < j < |machines| ==> machines[j].name != MACHINE_NAME
  }

  /** The last machine of that name decides. */
  method FindLast(machines: seq<Machine>) returns (found: bool, running: bool)
    ensures found <==> exists m :: m in machines && m.name == MACHINE_NAME
    ensures found ==> exists i :: LastNamed(machines, i) && running == machines[i].running
  {
    found, running := false, false;
    ghost var last := 0;
    for i := 0 to |machines|
      invariant if found then 0 <= last < i && LastNamed(machines[..i], last) && running == machines[last].running
        else forall j :: 0 <= j < i ==> machines[j].name != MACHINE_NAME
    {
      if machines[i].name == MACHINE_NAME {
        found, running, last := true, machines[i].running, i;
      }
    }
    if found {
      assert machines[..|machines|] == machines;
      assert machines[last] in machines;
    }
  }

  lemma LastDecides(machines: seq<Machine>, s: Sys, found: bool, running: bool)
    requires Lists(machines, s)
    requires found <==> exists m :: m in machines && m.name == MACHINE_NAME
    requires found ==> exists i :: LastNamed(machines, i) && running == machines[i].running
    ensures found <==> !s.machine.NoMachine?
    ensures found ==> running == s.machine.Running?
  {
    if found {
      var i :| LastNamed(machines, i) && running == machines[i].running;
      assert machines[i] in machines;
    }
  }

  lemma DestroyedOnly(p: Plan, s: Sys, run: seq<Step>, s': Sys, cancelled: bool, checks: seq<Check>, err: Err)
    requires s.machine.Stopped? && !Stops(run) && DestroyChecks(checks)
    requires Faultless(run) && !cancelled ==> s'.machine.NoMachine?
    requires OnlyCancelled(cancelled, err)
    requires err.NoErr? && !HasFail(checks) ==> s'.machine.NoMachine? && MintedGone(p.entries, |p.entries|, s')
    requires Faultless(run) && !cancelled && s.hasKeychain ==> !HasFail(checks)
    requires err.NoErr? ==> DestroyTold(p.entries, checks, s, s')
    ensures DownEnds(p, true, s, run, s', cancelled, checks, err)
  {
    hide Stops, Removes, Downed, Faultless, MintedGone, CleanDown, NothingLeft, ReportTold, ForgottenListed;
    if HasFail(checks) {
      var c :| c in checks && c.status == Fail;
      assert c.subject.Destruction? || c.subject.Forgotten?;
      assert DestroyFailed(checks);
    }
    if checks != [] { HeadIsIn(checks); }
  }

  method RunDown(host: Host, top: Topology, entries: seq<SecretSpec>, roles: seq<Role>, destroy: bool)
    returns (checks: seq<Check>, err: Err)
    requires host.Valid() && host.trace == [] && host.start == host.sys
    requires host.command == Command.Down(Plan(top, entries, roles), destroy) && (destroy ==> |roles| == |ALL|)
    modifies host
    ensures RunOf(old(host.command), old(host.sys), host.trace, host.sys)
    ensures DownEnds(old(host.command).plan, destroy, old(host.sys), host.trace, host.sys, host.cancelled, checks, err)
  {
    hide Sound, Continues, Follows, Untouched, RunOf, Faultless, HasFail, MintedGone, DownEnds, Plays, Downed;
    hide Stops, Removes, Unbroken, DestroyChecks, DestroyTold;
    ghost var a, p := host.Now(), host.command.plan;
    assert Untouched(a.trace) by { NothingTouched(); }
    var o, machines := host.ListMachines();
    ghost var b := host.Now();
    FollowsOnce(a, Event.ListMachines, o, b);
    UntouchedKept(a, b);
    SoundRun(a, b);
    SameCommand(a, b);
    if !o.Done? {
      NotListed(p, destroy, a.sys, host.trace, host.cancelled, MachineItself);
      return [Check(MachineItself, Fail)], NoErr;
    }
    var found, running := FindLast(machines);
    LastDecides(machines, host.sys, found, running);
    if !found || (!running && !destroy) {
      NothingToDo(p, destroy, a.sys, host.trace, host.cancelled);
      return [Check(MachineItself, Warn)], NoErr;
    }
    if !running {
      checks, err := Destroy(host, entries);
      UntouchedMeans(b.trace);
      DestroyedOnly(p, a.sys, host.trace, host.sys, host.cancelled, checks, err);
    } else {
      checks, err := TakeDown(host, top, entries, roles, destroy);
      SameCommand(b, host.Now());
    }
    ContinuesTransitive(a, b, host.Now());
    SoundRun(a, host.Now());
  }

  lemma NothingTouched()
    ensures Untouched([])
  {
  }

  lemma UntouchedMeans(run: seq<Step>)
    requires Untouched(run)
    ensures Downed(run) == {} && !Stops(run) && !Removes(run)
  {
    hide Downed, Stops, Removes;
  }

  /** `lclaw down` and `lclaw down --destroy`. */
  method Down(host: Host, scaffold: Scaffold, roles: seq<Role>, destroy: bool)
    returns (checks: seq<Check>, err: Err, ghost p: Plan)
    requires InZoneOrder(roles)
    modifies host
    ensures !(scaffold.Decoded? && WellFormed(scaffold.top, scaffold.files)) ==>
      host.sys == old(host.sys) && !err.NoErr? && checks == []
    ensures destroy && |roles| != |ALL| ==> host.sys == old(host.sys) && !err.NoErr? && checks == []
    ensures scaffold.Decoded? && WellFormed(scaffold.top, scaffold.files) && !(destroy && |roles| != |ALL|) ==>
      && GoodPlan(p) && p.top == scaffold.top && p.roles == roles
      && RunOf(Command.Down(p, destroy), old(host.sys), host.trace, host.sys)
      && DownEnds(p, destroy, old(host.sys), host.trace, host.sys, host.cancelled, checks, err)
  {
    hide WellFormed, Usable, IsCatalogue, RunOf, DownEnds, InZoneOrder;
    var top, entries;
    top, entries, err := Load(scaffold);
    p := Plan(top, entries, roles);
    if !err.NoErr? { return [], err, p; }
    if destroy && |roles| != |ALL| { return [], DestroyNeedsEveryZone, p; }
    host.Begin(Command.Down(p, destroy));
    checks, err := RunDown(host, top, entries, roles, destroy);
  }
}

/** The secret catalogue: the built-in entries merged with the names declared
    per zone (internal/domain/catalogue.go, internal/domain/secret.go). */
module Catalogues {
  import opened Text
  import opened Roles

  newtype Byte = x: int | 0 <= x < 256
  type Bytes = seq<Byte>
  type Value = Bytes

  datatype Source = Generated | Minted | User

  const MAX_SECRET_LEN := 1024
  const MAX_NAME_LEN := 63

  datatype SecretSpec = SecretSpec(name: string, source: Source, zones: seq<Role>, rotatable: bool)

  const MASTER_KEY := "litellm-master-key"
  const SALT_KEY := "litellm-salt-key"
  const DB_PASSWORD := "litellm-db-password"
  const GATEWAY_TOKEN := "openclaw-gateway-token"
  const AGENT_KEY := "openclaw-litellm-key"

  const BUILTIN: seq<SecretSpec> := [
    SecretSpec(MASTER_KEY, Generated, [Services], true),
    SecretSpec(SALT_KEY, Generated, [Services], false),
    SecretSpec(DB_PASSWORD, Generated, [Services], true),
    SecretSpec(GATEWAY_TOKEN, Generated, [Agent], true),
    SecretSpec(AGENT_KEY, Minted, [Agent], true)
  ]

  predicate ValidValue(v: Value) {
    1 <= |v| <= MAX_SECRET_LEN
  }

  predicate LabelChar(c: char) {
    'a' <= c <= 'z' || '0' <= c <= '9'
  }

  /** A lowercase DNS label of at most 63 characters. */
  predicate ValidName(s: string) {
    && 1 <= |s| <= MAX_NAME_LEN
    && LabelChar(s[0]) && LabelChar(s[|s| - 1])
    && forall c :: c in s ==> LabelChar(c) || c == '-'
  }

  datatype Problem =
    | Malformed
    | CollidesWithBuiltin
    | ListedTwice

  datatype SecretFinding = SecretFinding(zone: Role, name: string, problem: Problem)

  predicate IsBuiltin(builtin: seq<SecretSpec>, name: string) {
    exists b :: b in builtin && b.name == name
  }

  // ---- The reference definition -------------------------------------------

  /** Why the name at position `k` of a zone's list is refused, if it is. */
  function Refusal(builtin: seq<SecretSpec>, list: seq<string>, k: nat): Option<Problem>
    requires k < |list|
  {
    if !ValidName(list[k]) then Some(Malformed)
    else if IsBuiltin(builtin, list[k]) then Some(CollidesWithBuiltin)
    else if list[k] in list[..k] then Some(ListedTwice)
    else None
  }

  /** The findings of the first `k` positions of a zone's list, in order. */
  function Refused(builtin: seq<SecretSpec>, role: Role, list: seq<string>, k: nat): seq<SecretFinding>
    requires k <= |list|
  {
    if k == 0 then []
    else
      var rest := Refused(builtin, role, list, k - 1);
      match Refusal(builtin, list, k - 1)
      case None => rest
      case Some(p) => rest + [SecretFinding(role, list[k - 1], p)]
  }

  function ListOf(declared: map<string, seq<string>>, role: Role): seq<string> {
    if role.Name() in declared then declared[role.Name()] else []
  }

  /** The findings of the first `n` zones in zone order. */
  function Findings(builtin: seq<SecretSpec>, declared: map<string, seq<string>>, n: nat): seq<SecretFinding>
    requires n <= |ALL|
  {
    if n == 0 then []
    else
      var list := ListOf(declared, ALL[n - 1]);
      Findings(builtin, declared, n - 1) + Refused(builtin, ALL[n - 1], list, |list|)
  }

  /** The zones among the first `n` that declare `name`, in zone order. */
  function DeclaringZones(declared: map<string, seq<string>>, name: string, n: nat): seq<Role>
    requires n <= |ALL|
  {
    if n == 0 then []
    else if name in ListOf(declared, ALL[n - 1]) then DeclaringZones(declared, name, n - 1) + [ALL[n - 1]]
    else DeclaringZones(declared, name, n - 1)
  }

  /** May `name` be declared at all? */
  predicate Declarable(builtin: seq<SecretSpec>, name: string) {
    ValidName(name) && !IsBuiltin(builtin, name)
  }

  /** The one entry an accepted declared name becomes. */
  function DeclaredSpec(declared: map<string, seq<string>>, name: string): SecretSpec {
    SecretSpec(name, User, DeclaringZones(declared, name, |ALL|), true)
  }

  predicate NameAtMost(a: SecretSpec, b: SecretSpec) {
    AtMost(a.name, b.name)
  }

  ghost predicate SortedByName(entries: seq<SecretSpec>) {
    forall i, j :: 0 <= i < j < |entries| ==>
      AtMost(entries[i].name, entries[j].name) && entries[i].name != entries[j].name
  }

  ghost predicate DistinctNames(specs: seq<SecretSpec>) {
    forall i, j :: 0 <= i < j < |specs| ==> specs[i].name != specs[j].name
  }

  /** In name order; strictly, provided the built-in names differ. */
  ghost predicate InOrder(builtin: seq<SecretSpec>, entries: seq<SecretSpec>) {
    && SortedBy(entries, NameAtMost)
    && (DistinctNames(builtin) ==> DistinctNames(entries))
  }

  /** What a catalogue of `builtin` and `declared` is: sorted by name, the
      built-in entries unchanged, and exactly one rotatable user entry per
      declarable name that some zone declares, consumed by exactly those zones. */
  ghost predicate IsCatalogue(builtin: seq<SecretSpec>, declared: map<string, seq<string>>, entries: seq<SecretSpec>) {
    && InOrder(builtin, entries)
    && (forall b :: b in builtin ==> b in entries)
    && (forall e :: e in entries ==>
      e in builtin || (Declarable(builtin, e.name) && e == DeclaredSpec(declared, e.name) && e.zones != []))
    && (forall name :: Declarable(builtin, name) && DeclaringZones(declared, name, |ALL|) != [] ==>
      DeclaredSpec(declared, name) in entries)
  }

  // ---- The merge ----------------------------------------------------------

  /** The zones collected by a name once `n` zones and the first `k` positions
      of the next zone's list were read. */
  function Collected(declared: map<string, seq<string>>, n: nat, k: nat, name: string): seq<Role>
    requires n <= |ALL|
    requires n == |ALL| ==> k == 0
    requires n < |ALL| ==> k <= |ListOf(declared, ALL[n])|
  {
    DeclaringZones(declared, name, n)
    + if n < |ALL| && name in ListOf(declared, ALL[n])[..k] then [ALL[n]] else []
  }

  /** `specs` holds one entry per declarable name that has collected a zone. */
  ghost predicate Merged(builtin: seq<SecretSpec>, declared: map<string, seq<string>>, n: nat, k: nat,
      specs: seq<SecretSpec>)
    requires n <= |ALL|
    requires n == |ALL| ==> k == 0
    requires n < |ALL| ==> k <= |ListOf(declared, ALL[n])|
  {
    forall i :: 0 <= i < |specs| ==> MergedSpec(builtin, declared, n, k, specs[i])
  }

  ghost predicate MergedSpec(builtin: seq<SecretSpec>, declared: map<string, seq<string>>, n: nat, k: nat,
      spec: SecretSpec)
    requires n <= |ALL|
    requires n == |ALL| ==> k == 0
    requires n < |ALL| ==> k <= |ListOf(declared, ALL[n])|
  {
    && Declarable(builtin, spec.name)
    && spec == SecretSpec(spec.name, User, Collected(declared, n, k, spec.name), true)
    && spec.zones != []
  }

  ghost predicate Complete(builtin: seq<SecretSpec>, declared: map<string, seq<string>>, n: nat, k: nat,
      byName: map<string, nat>)
    requires n <= |ALL|
    requires n == |ALL| ==> k == 0
    requires n < |ALL| ==> k <= |ListOf(declared, ALL[n])|
  {
    forall name :: Declarable(builtin, name) && Collected(declared, n, k, name) != [] ==> name in byName
  }

  /** `byName` finds every entry by its name; among built-in entries that share
      a name, one of them. */
  ghost predicate Indexed(entries: seq<SecretSpec>, byName: map<string, nat>, given: nat) {
    && (forall n :: n in byName ==> byName[n] < |entries| && entries[byName[n]].name == n)
    && (forall i :: 0 <= i < |entries| ==> entries[i].name in byName)
    && (forall i :: given <= i < |entries| ==> byName[entries[i].name] == i)
  }

  /** The merge after `n` lists and `k` positions of the next one. */
  ghost predicate Stage(builtin: seq<SecretSpec>, declared: map<string, seq<string>>, n: nat, k: nat,
      entries: seq<SecretSpec>, byName: map<string, nat>)
  {
    && n <= |ALL| && k <= (if n < |ALL| then |ListOf(declared, ALL[n])| else 0)
    && builtin <= entries && Indexed(entries, byName, |builtin|)
    && Merged(builtin, declared, n, k, entries[|builtin|..])
    && Complete(builtin, declared, n, k, byName)
  }

  /** Reading one more position changes what a name has collected only if that
      position accepts the name. */
  lemma CollectedStep(declared: map<string, seq<string>>, n: nat, k: nat, name: string)
    requires n < |ALL| && k < |ListOf(declared, ALL[n])|
    ensures var list := ListOf(declared, ALL[n]);
      Collected(declared, n, k + 1, name) ==
      if name == list[k] && name !in list[..k] then DeclaringZones(declared, name, n) + [ALL[n]]
      else Collected(declared, n, k, name)
  {
    var list := ListOf(declared, ALL[n]);
    assert list[..k + 1] == list[..k] + [list[k]];
  }

  /** Finishing a list is being at the start of the next one. */
  lemma CollectedNext(declared: map<string, seq<string>>, n: nat, name: string)
    requires n < |ALL|
    ensures Collected(declared, n + 1, 0, name) == Collected(declared, n, |ListOf(declared, ALL[n])|, name)
  {
    var list := ListOf(declared, ALL[n]);
    assert list[..|list|] == list;
  }

  /** A refused position changes neither the entries nor what is collected. */
  lemma RefusalKeepsStage(builtin: seq<SecretSpec>, declared: map<string, seq<string>>, n: nat, k: nat,
      entries: seq<SecretSpec>, byName: map<string, nat>)
    requires n < |ALL| && k < |ListOf(declared, ALL[n])| && Stage(builtin, declared, n, k, entries, byName)
    requires Refusal(builtin, ListOf(declared, ALL[n]), k).Some?
    ensures Stage(builtin, declared, n, k + 1, entries, byName)
  {
    hide Collected, ListOf, ValidName, IsBuiltin, Indexed;
    forall x | Declarable(builtin, x) ensures Collected(declared, n, k + 1, x) == Collected(declared, n, k, x) {
      CollectedStep(declared, n, k, x);
    }
  }

  /** The end of one list is the start of the next. */
  lemma NextList(builtin: seq<SecretSpec>, declared: map<string, seq<string>>, n: nat, entries: seq<SecretSpec>,
      byName: map<string, nat>)
    requires n < |ALL| && Stage(builtin, declared, n, |ListOf(declared, ALL[n])|, entries, byName)
    ensures Stage(builtin, declared, n + 1, 0, entries, byName)
  {
    hide Collected, ListOf, ValidName, IsBuiltin, Indexed;
    forall x ensures Collected(declared, n + 1, 0, x) == Collected(declared, n, |ListOf(declared, ALL[n])|, x) {
      CollectedNext(declared, n, x);
    }
  }

  method ReadList(builtin: seq<SecretSpec>, declared: map<string, seq<string>>, n: nat, entries0: seq<SecretSpec>,
      byName0: map<string, nat>)
    returns (entries: seq<SecretSpec>, byName: map<string, nat>, findings: seq<SecretFinding>)
    requires n < |ALL|
    requires Stage(builtin, declared, n, 0, entries0, byName0)
    ensures Stage(builtin, declared, n + 1, 0, entries, byName)
    ensures var list := ListOf(declared, ALL[n]); findings == Refused(builtin, ALL[n], list, |list|)
  {
    hide ValidName, IsBuiltin, Stage;
    entries, byName, findings := entries0, byName0, [];
    var role := ALL[n];
    var list := ListOf(declared, role);
    var seen: set<string> := {};
    for k := 0 to |list|
      invariant Stage(builtin, declared, n, k, entries, byName)
      invariant findings == Refused(builtin, role, list, k)
      invariant forall x :: x in seen <==> Declarable(builtin, x) && x in list[..k]
    {
      var name := list[k];
      assert list[..k + 1] == list[..k] + [name];
      if !ValidName(name) {
        findings := findings + [SecretFinding(role, name, Malformed)];
      } else if IsBuiltin(builtin, name) {
        findings := findings + [SecretFinding(role, name, CollidesWithBuiltin)];
      } else if name in seen {
        findings := findings + [SecretFinding(role, name, ListedTwice)];
      } else {
        seen := seen + {name};
        entries, byName := Accept(builtin, declared, n, k, entries, byName);
      }
      if Refusal(builtin, list, k).Some? { RefusalKeepsStage(builtin, declared, n, k, entries, byName); }
    }
    NextList(builtin, declared, n, entries, byName);
  }

  lemma BuiltinAt(builtin: seq<SecretSpec>, i: nat)
    requires i < |builtin|
    ensures IsBuiltin(builtin, builtin[i].name)
  {
    assert builtin[i] in builtin;
  }

  /** The accepted name at position `k` extends its entry or starts one. */
  method Accept(builtin: seq<SecretSpec>, declared: map<string, seq<string>>, n: nat, k: nat, entries0: seq<SecretSpec>,
      byName0: map<string, nat>)
    returns (entries: seq<SecretSpec>, byName: map<string, nat>)
    requires n < |ALL| && k < |ListOf(declared, ALL[n])| && Stage(builtin, declared, n, k, entries0, byName0)
    requires Refusal(builtin, ListOf(declared, ALL[n]), k).None?
    ensures Stage(builtin, declared, n, k + 1, entries, byName)
  {
    entries, byName := entries0, byName0;
    var name := ListOf(declared, ALL[n])[k];
    if name in byName {
      var i := byName[name];
      entries := entries[i := entries[i].(zones := entries[i].zones + [ALL[n]])];
      ExtendsEntry(builtin, declared, n, k, entries0, byName0, i);
    } else {
      entries := entries + [SecretSpec(name, User, [ALL[n]], true)];
      byName := byName[name := |entries| - 1];
      StartsEntry(builtin, declared, n, k, entries0, byName0);
    }
  }

  lemma CollectedByAcceptance(builtin: seq<SecretSpec>, declared: map<string, seq<string>>, n: nat, k: nat)
    requires n < |ALL| && k < |ListOf(declared, ALL[n])|
    requires Refusal(builtin, ListOf(declared, ALL[n]), k).None?
    ensures forall x :: (Collected(declared, n, k + 1, x) ==
      if x == ListOf(declared, ALL[n])[k] then Collected(declared, n, k, x) + [ALL[n]]
        else Collected(declared, n, k, x))
  {
    forall x ensures Collected(declared, n, k + 1, x) ==
      if x == ListOf(declared, ALL[n])[k] then Collected(declared, n, k, x) + [ALL[n]] else Collected(declared, n, k, x)
    {
      CollectedStep(declared, n, k, x);
    }
  }

  lemma ExtendsEntry(builtin: seq<SecretSpec>, declared: map<string, seq<string>>, n: nat, k: nat,
      entries: seq<SecretSpec>, byName: map<string, nat>, i: nat)
    requires n < |ALL| && k < |ListOf(declared, ALL[n])|
    requires builtin <= entries && Indexed(entries, byName, |builtin|)
    requires Merged(builtin, declared, n, k, entries[|builtin|..])
    requires Complete(builtin, declared, n, k, byName)
    requires Refusal(builtin, ListOf(declared, ALL[n]), k).None?
    requires ListOf(declared, ALL[n])[k] in byName && i == byName[ListOf(declared, ALL[n])[k]]
    ensures var entries' := entries[i := entries[i].(zones := entries[i].zones + [ALL[n]])];
      && builtin <= entries' && Indexed(entries', byName, |builtin|)
      && Merged(builtin, declared, n, k + 1, entries'[|builtin|..])
    ensures Complete(builtin, declared, n, k + 1, byName)
  {
    if i < |builtin| { BuiltinAt(builtin, i); }
    var entries' := entries[i := entries[i].(zones := entries[i].zones + [ALL[n]])];
    var specs, specs' := entries[|builtin|..], entries'[|builtin|..];
    forall j | 0 <= j < |specs'| ensures MergedSpec(builtin, declared, n, k + 1, specs'[j]) {
      assert specs[j] == entries[|builtin| + j] && specs'[j] == entries'[|builtin| + j];
      assert MergedSpec(builtin, declared, n, k, specs[j]);
      assert (specs[j].name == entries[i].name) == (|builtin| + j == i);
      CollectedByAcceptance(builtin, declared, n, k);
    }
    assert Complete(builtin, declared, n, k + 1, byName) by {
      CollectedByAcceptance(builtin, declared, n, k);
    }
  }

  lemma IndexesOneMore(entries: seq<SecretSpec>, byName: map<string, nat>, given: nat, entry: SecretSpec)
    requires Indexed(entries, byName, given) && entry.name !in byName
    ensures Indexed(entries + [entry], byName[entry.name := |entries|], given)
  {
  }

  lemma StartsEntry(
    builtin: seq<SecretSpec>, declared: map<string, seq<string>>, n: nat, k: nat, entries: seq<SecretSpec>,
    byName: map<string, nat>)
    requires n < |ALL| && k < |ListOf(declared, ALL[n])|
    requires builtin <= entries && Indexed(entries, byName, |builtin|)
    requires Merged(builtin, declared, n, k, entries[|builtin|..])
    requires Complete(builtin, declared, n, k, byName)
    requires Refusal(builtin, ListOf(declared, ALL[n]), k).None?
    requires ListOf(declared, ALL[n])[k] !in byName
    ensures var name := ListOf(declared, ALL[n])[k];
      var entries' := entries + [SecretSpec(name, User, [ALL[n]], true)];
      && builtin <= entries' && Indexed(entries', byName[name := |entries|], |builtin|)
      && Merged(builtin, declared, n, k + 1, entries'[|builtin|..])
      && Complete(builtin, declared, n, k + 1, byName[name := |entries|])
  {
    hide ValidName, IsBuiltin;
    CollectedByAcceptance(builtin, declared, n, k);
    var name := ListOf(declared, ALL[n])[k];
    assert Collected(declared, n, k, name) == [];
    var specs := entries[|builtin|..];
    var entry := SecretSpec(name, User, [ALL[n]], true);
    IndexesOneMore(entries, byName, |builtin|, entry);
    forall j | 0 <= j < |specs| ensures specs[j].name != name {
      assert entries[|builtin| + j] == specs[j];
    }
    hide Indexed;
    assert (entries + [entry])[|builtin|..] == specs + [entry];
  }

  lemma NameAtMostIsTotalPreorder()
    ensures TotalPreorder(NameAtMost)
  {
    AtMostIsTotalPreorder();
    assert TotalPreorder(AtMost);
  }

  lemma MergedNamesDiffer(
    builtin: seq<SecretSpec>, declared: map<string, seq<string>>, entries: seq<SecretSpec>, byName: map<string, nat>)
    requires Stage(builtin, declared, |ALL|, 0, entries, byName) && DistinctNames(builtin)
    ensures DistinctNames(entries)
  {
    hide Declarable;
    forall i, j | 0 <= i < j < |entries| ensures entries[i].name != entries[j].name {
      if i < |builtin| <= j {
        BuiltinAt(builtin, i);
        assert entries[|builtin|..][j - |builtin|] == entries[j];
        MergedIsNew(builtin, declared, entries[j]);
      } else if i >= |builtin| {
        assert byName[entries[i].name] == i && byName[entries[j].name] == j;
      }
    }
  }

  lemma MergedIsNew(builtin: seq<SecretSpec>, declared: map<string, seq<string>>, spec: SecretSpec)
    requires MergedSpec(builtin, declared, |ALL|, 0, spec)
    ensures !IsBuiltin(builtin, spec.name)
  {
  }

  method ReadZone(builtin: seq<SecretSpec>, declared: map<string, seq<string>>, n: nat, entries0: seq<SecretSpec>,
      byName0: map<string, nat>, findings0: seq<SecretFinding>)
    returns (entries: seq<SecretSpec>, byName: map<string, nat>, findings: seq<SecretFinding>)
    requires n < |ALL|
    requires Stage(builtin, declared, n, 0, entries0, byName0)
    requires findings0 == Findings(builtin, declared, n)
    ensures Stage(builtin, declared, n + 1, 0, entries, byName)
    ensures findings == Findings(builtin, declared, n + 1)
  {
    var found;
    entries, byName, found := ReadList(builtin, declared, n, entries0, byName0);
    findings := findings0 + found;
  }

  method IndexBuiltin(ghost declared: map<string, seq<string>>, builtin: seq<SecretSpec>)
    returns (byName: map<string, nat>)
    ensures Stage(builtin, declared, 0, 0, builtin, byName)
  {
    byName := map[];
    for i := 0 to |builtin|
      invariant forall n :: n in byName ==> byName[n] < i && builtin[byName[n]].name == n
      invariant forall j :: 0 <= j < i ==> builtin[j].name in byName
    {
      byName := byName[builtin[i].name := i];
    }
  }

  /** Merges the built-in entries with the declared names and reports every
      name it refuses. Zones that are not roles are not looked at. */
  method NewCatalogue(builtin: seq<SecretSpec>, declared: map<string, seq<string>>)
    returns (entries: seq<SecretSpec>, findings: seq<SecretFinding>)
    ensures IsCatalogue(builtin, declared, entries)
    ensures multiset(builtin) <= multiset(entries)
    ensures findings == Findings(builtin, declared, |ALL|)
  {
    hide Stage, IsCatalogue, DistinctNames;
    entries, findings := builtin, [];
    var byName := IndexBuiltin(declared, builtin);
    for n := 0 to |ALL|
      invariant Stage(builtin, declared, n, 0, entries, byName)
      invariant findings == Findings(builtin, declared, n)
    {
      entries, byName, findings := ReadZone(builtin, declared, n, entries, byName, findings);
    }
    entries := SortEntries(builtin, declared, entries, byName);
  }

  method SortEntries(builtin: seq<SecretSpec>, declared: map<string, seq<string>>, unsorted: seq<SecretSpec>,
      ghost byName: map<string, nat>)
    returns (entries: seq<SecretSpec>)
    requires Stage(builtin, declared, |ALL|, 0, unsorted, byName)
    ensures IsCatalogue(builtin, declared, entries)
    ensures multiset(builtin) <= multiset(entries)
  {
    hide IsCatalogue;
    NameAtMostIsTotalPreorder();
    entries := SortSlice(unsorted, NameAtMost);
    assert unsorted == builtin + unsorted[|builtin|..];
    SortedMergeIsCatalogue(builtin, declared, unsorted, byName, entries);
  }

  lemma PermutationNamesDiffer(xs: seq<SecretSpec>, ys: seq<SecretSpec>)
    requires DistinctNames(xs) && multiset(xs) == multiset(ys)
    ensures DistinctNames(ys)
  {
    PermutationKeepsDistinct(xs, ys);
    forall i, j | 0 <= i < j < |ys| ensures ys[i].name != ys[j].name {
      assert ys[i] in xs && ys[j] in xs;
    }
  }

  lemma SortedMergeIsCatalogue(builtin: seq<SecretSpec>, declared: map<string, seq<string>>, unsorted: seq<SecretSpec>,
      byName: map<string, nat>, entries: seq<SecretSpec>)
    requires Stage(builtin, declared, |ALL|, 0, unsorted, byName)
    requires multiset(entries) == multiset(unsorted) && SortedBy(entries, NameAtMost)
    ensures IsCatalogue(builtin, declared, entries)
  {
    if DistinctNames(builtin) {
      MergedNamesDiffer(builtin, declared, unsorted, byName);
      PermutationNamesDiffer(unsorted, entries);
    }
    PermutationKeepsMembers(unsorted, entries);
    forall b | b in builtin ensures b in entries {
      assert b in unsorted;
    }
    forall name ensures Collected(declared, |ALL|, 0, name) == DeclaringZones(declared, name, |ALL|) {}
    forall e | e in entries && e !in builtin
      ensures Declarable(builtin, e.name) && e == DeclaredSpec(declared, e.name) && e.zones != []
    {
      assert e in unsorted;
      assert unsorted == builtin + unsorted[|builtin|..];
      assert e in unsorted[|builtin|..];
    }
    forall name | Declarable(builtin, name) && DeclaringZones(declared, name, |ALL|) != []
      ensures DeclaredSpec(declared, name) in entries
    {
      assert Collected(declared, |ALL|, 0, name) != [];
      var e := unsorted[byName[name]];
      assert e in unsorted;
      assert e in builtin ==> IsBuiltin(builtin, name);
      assert e in entries;
    }
  }

  // ---- What a catalogue promises ------------------------------------------

  lemma {:induction false} ZonesDeclare(declared: map<string, seq<string>>, name: string, n: nat)
    requires n <= |ALL|
    ensures forall r: Role :: r in DeclaringZones(declared, name, n) <==> r.Rank() < n && name in ListOf(declared, r)
    ensures InZoneOrder(DeclaringZones(declared, name, n))
  {
    if n > 0 {
      ZonesDeclare(declared, name, n - 1);
    }
  }

  lemma InOrderIsSorted(builtin: seq<SecretSpec>, entries: seq<SecretSpec>)
    requires DistinctNames(builtin) && InOrder(builtin, entries)
    ensures SortedByName(entries)
  {
    forall i, j | 0 <= i < j < |entries| ensures AtMost(entries[i].name, entries[j].name) {
      assert NameAtMost(entries[i], entries[j]);
    }
  }

  /** The catalogue is determined by its inputs: sorting leaves no choice. */
  lemma CatalogueUnique(builtin: seq<SecretSpec>, declared: map<string, seq<string>>, xs: seq<SecretSpec>,
      ys: seq<SecretSpec>)
    requires DistinctNames(builtin)
    requires IsCatalogue(builtin, declared, xs) && IsCatalogue(builtin, declared, ys)
    ensures xs == ys
  {
    hide AtMost;
    InOrderIsSorted(builtin, xs);
    InOrderIsSorted(builtin, ys);
    forall e ensures e in xs <==> e in ys {}
    SortedUnique(xs, ys);
  }

  lemma {:induction false} SortedUnique(xs: seq<SecretSpec>, ys: seq<SecretSpec>)
    requires SortedByName(xs) && SortedByName(ys)
    requires forall e :: e in xs <==> e in ys
    ensures xs == ys
  {
    if xs == [] {
      if ys != [] { HeadIsIn(ys); }
    } else {
      assert xs[0] in ys;
      assert ys[0] in xs;
      var i :| 0 <= i < |ys| && ys[i] == xs[0];
      var j :| 0 <= j < |xs| && xs[j] == ys[0];
      if i > 0 && j > 0 {
        AtMostAntisymmetric(xs[0].name, ys[0].name);
      }
      assert xs[0] == ys[0];
      forall e ensures e in xs[1..] <==> e in ys[1..] {
        assert e in xs <==> e == xs[0] || e in xs[1..];
        assert e in ys <==> e == ys[0] || e in ys[1..];
      }
      SortedUnique(xs[1..], ys[1..]);
    }
  }

  /** Every position of a list is either a finding or a membership: nothing is
      dropped silently and nothing is counted twice. */
  lemma {:induction false} PositionsBalance(builtin: seq<SecretSpec>, role: Role, list: seq<string>, k: nat)
    requires k <= |list|
    ensures |Refused(builtin, role, list, k)| + |set name | name in list[..k] && Declarable(builtin, name)| == k
  {
    if k > 0 {
      PositionsBalance(builtin, role, list, k - 1);
      assert list[..k] == list[..k - 1] + [list[k - 1]];
      var before := set name | name in list[..k - 1] && Declarable(builtin, name);
      var after := set name | name in list[..k] && Declarable(builtin, name);
      if Refusal(builtin, list, k - 1).None? {
        assert after == before + {list[k - 1]};
      } else {
        assert after == before;
      }
    } else {
      assert (set name | name in list[..k] && Declarable(builtin, name)) == {};
    }
  }

  /** Per zone: listed names = findings + entries the zone contributed to. */
  lemma CatalogueBalance(builtin: seq<SecretSpec>, declared: map<string, seq<string>>, entries: seq<SecretSpec>,
      role: Role)
    requires IsCatalogue(builtin, declared, entries)
    ensures var list := ListOf(declared, role);
      |list| == |Refused(builtin, role, list, |list|)|
      + |set e | e in entries && Declarable(builtin, e.name) && role in e.zones :: e.name|
  {
    var list := ListOf(declared, role);
    PositionsBalance(builtin, role, list, |list|);
    var accepted := set name | name in list[..|list|] && Declarable(builtin, name);
    var members := set e | e in entries && Declarable(builtin, e.name) && role in e.zones :: e.name;
    forall name ensures name in accepted <==> name in members {
      ZonesDeclare(declared, name, |ALL|);
      if name in accepted {
        var e := DeclaredSpec(declared, name);
        assert role in e.zones;
        assert e in entries && e.name == name;
      }
      if name in members {
        var e :| e in entries && Declarable(builtin, e.name) && role in e.zones && e.name == name;
        assert e !in builtin;
      }
    }
    assert accepted == members;
  }

  lemma BuiltinNamesDiffer()
    ensures DistinctNames(BUILTIN)
  {
    assert MASTER_KEY[8] == 'm' && SALT_KEY[8] == 's' && DB_PASSWORD[8] == 'd';
    assert GATEWAY_TOKEN[9] == 'g' && AGENT_KEY[9] == 'l';
    assert MASTER_KEY[0] == SALT_KEY[0] == DB_PASSWORD[0] == 'l' && GATEWAY_TOKEN[0] == AGENT_KEY[0] == 'o';
  }

  lemma CatalogueSorted(declared: map<string, seq<string>>, entries: seq<SecretSpec>)
    requires IsCatalogue(BUILTIN, declared, entries)
    ensures SortedByName(entries)
  {
    hide DistinctNames, SortedByName, BUILTIN;
    BuiltinNamesDiffer();
    InOrderIsSorted(BUILTIN, entries);
  }

  // ---- Reading a catalogue ------------------------------------------------

  /** The entries among the first `n` that zone `r` consumes. */
  function ConsumedUpTo(entries: seq<SecretSpec>, r: Role, n: nat): seq<SecretSpec>
    requires n <= |entries|
  {
    if n == 0 then []
    else if r in entries[n - 1].zones then ConsumedUpTo(entries, r, n - 1) + [entries[n - 1]]
    else ConsumedUpTo(entries, r, n - 1)
  }

  function Consumed(entries: seq<SecretSpec>, r: Role): seq<SecretSpec> {
    ConsumedUpTo(entries, r, |entries|)
  }

  method ForZone(entries: seq<SecretSpec>, r: Role) returns (out: seq<SecretSpec>)
    ensures out == Consumed(entries, r)
  {
    out := [];
    for i := 0 to |entries|
      invariant out == ConsumedUpTo(entries, r, i)
    {
      if r in entries[i].zones {
        out := out + [entries[i]];
      }
    }
  }

  lemma {:induction false} ConsumedUpToMembers(entries: seq<SecretSpec>, r: Role, n: nat)
    requires n <= |entries|
    ensures forall e :: e in ConsumedUpTo(entries, r, n) <==> e in entries[..n] && r in e.zones
  {
    if n > 0 {
      ConsumedUpToMembers(entries, r, n - 1);
      assert entries[..n] == entries[..n - 1] + [entries[n - 1]];
    }
  }

  lemma {:induction false} ConsumedUpToSorted(entries: seq<SecretSpec>, r: Role, n: nat)
    requires n <= |entries| && SortedByName(entries)
    ensures SortedByName(ConsumedUpTo(entries, r, n))
  {
    hide AtMost;
    if n > 0 {
      ConsumedUpToSorted(entries, r, n - 1);
      var out := ConsumedUpTo(entries, r, n - 1);
      ConsumedUpToMembers(entries, r, n - 1);
      forall i | 0 <= i < |out|
        ensures AtMost(out[i].name, entries[n - 1].name) && out[i].name != entries[n - 1].name
      {
        assert out[i] in out;
        var j :| 0 <= j < n - 1 && entries[j] == out[i];
      }
    }
  }

  /** A zone consumes exactly the entries naming it. */
  lemma ConsumedIsFilter(entries: seq<SecretSpec>, r: Role)
    ensures forall e :: e in Consumed(entries, r) <==> e in entries && r in e.zones
  {
    ConsumedUpToMembers(entries, r, |entries|);
    assert entries[..|entries|] == entries;
  }

  /** And still in name order. */
  lemma ConsumedIsSorted(entries: seq<SecretSpec>, r: Role)
    requires SortedByName(entries)
    ensures SortedByName(Consumed(entries, r))
  {
    ConsumedUpToSorted(entries, r, |entries|);
  }

  /** What a zone consumes: its built-in entries and the names it declares. */
  lemma ConsumedMeans(declared: map<string, seq<string>>, entries: seq<SecretSpec>, r: Role, e: SecretSpec)
    requires IsCatalogue(BUILTIN, declared, entries)
    ensures e in Consumed(entries, r) <==>
      (e in BUILTIN && r in e.zones)
      || (Declarable(BUILTIN, e.name) && e.name in ListOf(declared, r) && e == DeclaredSpec(declared, e.name))
  {
    ConsumedIsFilter(entries, r);
    ZonesDeclare(declared, e.name, |ALL|);
    if e in BUILTIN {
      assert IsBuiltin(BUILTIN, e.name);
    }
  }

  method Lookup(entries: seq<SecretSpec>, name: string) returns (spec: Option<SecretSpec>)
    ensures spec.Some? ==> spec.value in entries && spec.value.name == name
    ensures spec.None? ==> forall e :: e in entries ==> e.name != name
  {
    for i := 0 to |entries|
      invariant forall e :: e in entries[..i] ==> e.name != name
    {
      if entries[i].name == name {
        return Some(entries[i]);
      }
      assert entries[..i + 1] == entries[..i] + [entries[i]];
    }
    assert entries[..|entries|] == entries;
    return None;
  }
}

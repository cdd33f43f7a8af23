/** `lclaw init`: the default files, then the keychain
    (internal/app/init.go). */
module Scaffolding {
  import opened Text
  import opened Catalogues
  import opened Files

  /** One of the default files, in the order they are walked. */
  datatype Default = Default(path: Path, data: Bytes)

  datatype Kind = Wrote | Skipped | Failed

  datatype KeychainState = KeychainCreated | KeychainSkipped | KeychainFailed

  datatype InitReport = InitReport(written: seq<Path>, skipped: seq<Path>, failed: seq<Path>)

  const TOPOLOGY_FILE := "lclaw.toml"

  function Target(dir: Path, d: Default): Path {
    dir + d.path
  }

  /** The defaults are files of one tree: none is another one or lies in it, and
      none is the directory itself. */
  ghost predicate GoodDefaults(defaults: seq<Default>) {
    && (forall i :: 0 <= i < |defaults| ==> defaults[i].path != [])
    && (forall i, j :: 0 <= i < |defaults| && 0 <= j < |defaults| && i != j ==> !(defaults[i].path <= defaults[j].path))
  }

  /** The paths of the first defaults that ended as `kind`, in walk order. */
  ghost function Chosen(defaults: seq<Default>, kinds: seq<Kind>, kind: Kind): seq<Path>
    requires |kinds| <= |defaults|
  {
    if kinds == [] then []
    else
      var n := |kinds| - 1;
      Chosen(defaults, kinds[..n], kind) + if kinds[n] == kind then [defaults[n].path] else []
  }

  ghost predicate Reports(r: InitReport, defaults: seq<Default>, kinds: seq<Kind>) {
    && |kinds| <= |defaults|
    && r.written == Chosen(defaults, kinds, Wrote)
    && r.skipped == Chosen(defaults, kinds, Skipped)
    && r.failed == Chosen(defaults, kinds, Failed)
  }

  lemma ReportsMore(r: InitReport, defaults: seq<Default>, kinds: seq<Kind>, kind: Kind)
    requires |kinds| < |defaults| && Reports(r, defaults, kinds)
    ensures var p := [defaults[|kinds|].path];
      Reports(
        match kind
        case Wrote => r.(written := r.written + p)
        case Skipped => r.(skipped := r.skipped + p)
        case Failed => r.(failed := r.failed + p),
        defaults, kinds + [kind])
  {
    assert (kinds + [kind])[..|kinds|] == kinds;
  }

  /** What the files are after the first defaults, starting from `s`. */
  ghost predicate Placed(s: Tree, t: Tree, dir: Path, defaults: seq<Default>, kinds: seq<Kind>, force: bool) {
    && |kinds| <= |defaults|
    // a pre-existing path changes only when forced and written
    && (forall p :: p in s ==> p in t && (t[p] == s[p] || (force && exists i :: Rewritten(dir, defaults, kinds, p, i))))
    && (forall i :: 0 <= i < |kinds| ==> Settled(s, t, Target(dir, defaults[i]), defaults[i].data, kinds[i], force))
  }

  ghost predicate Rewritten(dir: Path, defaults: seq<Default>, kinds: seq<Kind>, p: Path, i: int) {
    0 <= i < |kinds| <= |defaults| && kinds[i].Wrote? && Target(dir, defaults[i]) == p
  }

  /** A written default holds the default content, a skipped one existed. */
  ghost predicate Settled(s: Tree, t: Tree, target: Path, data: Bytes, kind: Kind, force: bool) {
    match kind
    case Wrote => target in t && t[target] == File(data, FILE_MODE) && (target in s ==> force)
    case Skipped => !force && target in t && t[target].File?
    case Failed => true
  }

  /** What becomes of a default when no operation fails: a directory in its
      place is a failure, a file is kept unless forced, and a free place is
      written unless a file stands where one of its directories should be. */
  ghost function Expected(s: Tree, target: Path, force: bool): Kind
    requires target != []
  {
    if target in s && s[target].Directory? then Failed
    else if target in s && !force then Skipped
    else if Clear(s, Parent(target)) then Wrote
    else Failed
  }

  lemma TargetsApart(dir: Path, a: Default, b: Default)
    requires Target(dir, a) <= Target(dir, b)
    ensures a.path <= b.path
  {
    assert Target(dir, a)[|dir|..] == a.path;
    assert Target(dir, b)[|dir|..] == b.path;
  }

  /** One more default was dealt with. */
  lemma PlacedMore(s: Tree, t: Tree, u: Tree, dir: Path, defaults: seq<Default>, kinds: seq<Kind>, force: bool,
      kind: Kind)
    requires |kinds| < |defaults| && GoodDefaults(defaults) && Placed(s, t, dir, defaults, kinds, force)
    requires Keeps(t, u, Target(dir, defaults[|kinds|]))
    requires kind.Wrote? || Same(t, u, Target(dir, defaults[|kinds|]))
    requires Settled(t, u, Target(dir, defaults[|kinds|]), defaults[|kinds|].data, kind, force)
    ensures Placed(s, u, dir, defaults, kinds + [kind], force)
  {
    hide GoodDefaults;
    var n, more := |kinds|, kinds + [kind];
    var target := Target(dir, defaults[n]);
    forall p | p in s ensures p in u && (u[p] == s[p] || (force && exists i :: Rewritten(dir, defaults, more, p, i))) {
      if force && exists i :: Rewritten(dir, defaults, kinds, p, i) {
        var i :| Rewritten(dir, defaults, kinds, p, i);
        assert Rewritten(dir, defaults, more, p, i);
      }
      if p == target && kind.Wrote? { assert Rewritten(dir, defaults, more, p, n); }
    }
    forall i | 0 <= i < |more| ensures Settled(s, u, Target(dir, defaults[i]), defaults[i].data, more[i], force) {
      if i < n {
        assert more[i] == kinds[i];
        DefaultsDiffer(dir, defaults, i, n);
      }
    }
  }

  lemma DefaultsDiffer(dir: Path, defaults: seq<Default>, i: nat, j: nat)
    requires GoodDefaults(defaults) && i < |defaults| && j < |defaults| && i != j
    ensures !(Target(dir, defaults[i]) <= Target(dir, defaults[j]))
  {
    if Target(dir, defaults[i]) <= Target(dir, defaults[j]) { TargetsApart(dir, defaults[i], defaults[j]); }
  }

  // ---- Runs without failures ----------------------------------------------

  /** What to expect of a default is what it was at the start: the writes so far
      neither took nor cleared its place. */
  ghost predicate AsExpected(s: Tree, t: Tree, dir: Path, defaults: seq<Default>, force: bool, n: nat) {
    forall i :: n <= i < |defaults| && defaults[i].path != [] ==>
      Expected(t, Target(dir, defaults[i]), force) == Expected(s, Target(dir, defaults[i]), force)
  }

  lemma ParentIsPrefix(path: Path, p: Path)
    requires path != [] && p <= Parent(path)
    ensures p <= path
  {
  }

  /** Writing one place does not change what to expect of another. */
  lemma OthersUntouched(s: Tree, t: Tree, path: Path, other: Path, force: bool)
    requires path != [] && other != [] && !(path <= other) && !(other <= path)
    requires Keeps(s, t, path) && OnlyParents(s, t, path)
    ensures Expected(t, other, force) == Expected(s, other, force)
  {
    if other in t && other !in s { ParentIsPrefix(path, other); }
    var dir := Parent(other);
    forall i | 0 < i <= |dir| ensures (dir[..i] in t && t[dir[..i]].File?) == (dir[..i] in s && s[dir[..i]].File?) {
      assert dir[..i] <= other;
      assert dir[..i] != path;
    }
  }

  lemma ExpectedKept(s: Tree, t: Tree, u: Tree, dir: Path, defaults: seq<Default>, force: bool, n: nat)
    requires GoodDefaults(defaults) && n < |defaults| && AsExpected(s, t, dir, defaults, force, n)
    requires Keeps(t, u, Target(dir, defaults[n])) && OnlyParents(t, u, Target(dir, defaults[n]))
    ensures AsExpected(s, u, dir, defaults, force, n + 1)
  {
    hide Keeps, OnlyParents, Expected, GoodDefaults;
    forall i | n < i < |defaults| && defaults[i].path != []
      ensures Expected(u, Target(dir, defaults[i]), force) == Expected(t, Target(dir, defaults[i]), force)
    {
      DefaultsDiffer(dir, defaults, n, i);
      DefaultsDiffer(dir, defaults, i, n);
      OthersUntouched(t, u, Target(dir, defaults[n]), Target(dir, defaults[i]), force);
    }
  }

  lemma NothingPlaced(s: Tree, dir: Path, defaults: seq<Default>, force: bool)
    ensures Placed(s, s, dir, defaults, [], force) && Reports(InitReport([], [], []), defaults, [])
  {
  }

  /** Every default is there already. */
  ghost predicate AllThere(s: Tree, dir: Path, defaults: seq<Default>) {
    forall i :: 0 <= i < |defaults| ==> Target(dir, defaults[i]) in s
  }

  method PlaceOne(disk: Disk, target: Path, data: Bytes, force: bool) returns (kind: Kind)
    requires target != []
    modifies disk
    ensures Keeps(old(disk.nodes), disk.nodes, target)
    ensures kind.Wrote? || Same(old(disk.nodes), disk.nodes, target)
    ensures Settled(old(disk.nodes), disk.nodes, target, data, kind, force)
    ensures !force && target in old(disk.nodes) ==> disk.nodes == old(disk.nodes) && !kind.Wrote?
    ensures disk.failures >= old(disk.failures)
    ensures disk.failures == old(disk.failures) ==>
      kind == Expected(old(disk.nodes), target, force) && OnlyParents(old(disk.nodes), disk.nodes, target)
  {
    hide Keeps, Intact, OnlyParents, Clear;
    var r, _ := disk.WriteFile(target, data, force);
    kind := if r.Written? then Wrote else if r.Exists? then Skipped else Failed;
  }

  /** Writes every default whose path does not exist yet, or every default when
      forced. A failure does not stop the others; the end of the context and an
      unreadable default do. */
  method PlaceFiles(disk: Disk, dir: Path, defaults: seq<Default>, force: bool)
    returns (r: InitReport, ok: bool, ghost kinds: seq<Kind>)
    requires GoodDefaults(defaults)
    modifies disk
    ensures Reports(r, defaults, kinds) && (ok ==> |kinds| == |defaults|)
    ensures Placed(old(disk.nodes), disk.nodes, dir, defaults, kinds, force)
    ensures !force && AllThere(old(disk.nodes), dir, defaults) ==>
      disk.nodes == old(disk.nodes) && forall i :: 0 <= i < |kinds| ==> !kinds[i].Wrote?
    ensures disk.failures >= old(disk.failures)
    ensures disk.failures == old(disk.failures) ==> AllExpected(old(disk.nodes), dir, defaults, force, kinds)
  {
    hide GoodDefaults, Placed, Reports, Settled, Keeps, Same, Expected, OnlyParents;
    ghost var s := disk.nodes;
    kinds := [];
    r := InitReport([], [], []);
    NothingPlaced(s, dir, defaults, force);
    for i := 0 to |defaults|
      invariant |kinds| == i && Reports(r, defaults, kinds)
      invariant Placed(s, disk.nodes, dir, defaults, kinds, force)
      invariant !force && AllThere(s, dir, defaults) ==> disk.nodes == s && forall j :: 0 <= j < i ==> !kinds[j].Wrote?
      invariant disk.failures >= old(disk.failures)
      invariant disk.failures == old(disk.failures) ==>
        AllExpected(s, dir, defaults, force, kinds) && AsExpected(s, disk.nodes, dir, defaults, force, i)
    {
      var stop, unreadable: bool := *, *;
      if stop || unreadable { return r, false, kinds; }
      PathIsGood(defaults, i);
      ghost var t := disk.nodes;
      var kind := PlaceOne(disk, Target(dir, defaults[i]), defaults[i].data, force);
      PlacedMore(s, t, disk.nodes, dir, defaults, kinds, force, kind);
      if disk.failures == old(disk.failures) { ExpectedKept(s, t, disk.nodes, dir, defaults, force, i); }
      ReportsMore(r, defaults, kinds, kind);
      var p := [defaults[i].path];
      r := match kind
        case Wrote => r.(written := r.written + p)
        case Skipped => r.(skipped := r.skipped + p)
        case Failed => r.(failed := r.failed + p);
      kinds := kinds + [kind];
    }
    ok := true;
  }

  /** Every default reached became what was to be expected of it. */
  ghost predicate AllExpected(s: Tree, dir: Path, defaults: seq<Default>, force: bool, kinds: seq<Kind>) {
    forall i :: 0 <= i < |kinds| && i < |defaults| && defaults[i].path != [] ==>
      kinds[i] == Expected(s, Target(dir, defaults[i]), force)
  }

  lemma PathIsGood(defaults: seq<Default>, i: nat)
    requires GoodDefaults(defaults) && i < |defaults|
    ensures defaults[i].path != []
  {
  }

  // ---- The keychain -------------------------------------------------------

  /** The keychain files of the host, by path, with what they hold. Creating one
      that exists would empty it. */
  class Keychains {
    var files: map<string, map<string, Bytes>>
    ghost var failures: nat

    constructor (initial: map<string, map<string, Bytes>>)
      ensures files == initial && failures == 0
    {
      files, failures := initial, 0;
    }

    method Has(path: string) returns (ok: bool, found: bool)
      modifies this`failures
      ensures ok ==> found == (path in files)
      ensures failures == old(failures) + if ok then 0 else 1
    {
      var fail: bool := *;
      if fail { failures := failures + 1; }
      ok, found := !fail, path in files;
    }

    method Create(path: string) returns (ok: bool)
      modifies this
      ensures ok ==> files == old(files)[path := map[]]
      ensures !ok ==> files == old(files) || files == old(files)[path := map[]]
      ensures failures == old(failures) + if ok then 0 else 1
    {
      var fail, struck: bool := *, *;
      if fail { failures := failures + 1; }
      if !fail || struck { files := files[path := map[]]; }
      ok := !fail;
    }
  }

  /** The keychain that the topology file in `dir` names, if it can be read. */
  ghost function NamedPath(s: Tree, dir: Path, decode: Bytes -> Option<string>): Option<string> {
    var file := dir + ["lclaw.toml"];
    if dir in s && s[dir].Directory? && file in s && s[file].File? then decode(s[file].data) else None
  }

  /** What becomes of the keychain when nothing fails. */
  ghost predicate KeychainExpected(path: Option<string>, state: KeychainState, before: set<string>) {
    match path
    case None => state.KeychainFailed?
    case Some(p) => if p in before then state.KeychainSkipped? else state.KeychainCreated?
  }

  /** Reads the keychain's path out of whichever topology file is there now. */
  method LoadPath(disk: Disk, dir: Path, decode: Bytes -> Option<string>) returns (path: Option<string>)
    modifies disk`failures
    ensures disk.failures >= old(disk.failures)
    ensures disk.failures == old(disk.failures) ==> path == NamedPath(disk.nodes, dir, decode)
    ensures path.Some? ==>
      var file := dir + [TOPOLOGY_FILE];
      file in disk.nodes && disk.nodes[file].File? && path == decode(disk.nodes[file].data)
  {
    var fail: bool := *;
    var file := dir + [TOPOLOGY_FILE];
    if fail {
      disk.failures := disk.failures + 1;
      return None;
    }
    if !(dir in disk.nodes && disk.nodes[dir].Directory?) { return None; }
    if !(file in disk.nodes && disk.nodes[file].File?) { return None; }
    path := decode(disk.nodes[file].data);
  }

  /** Creates the keychain the topology names unless it exists. Never asks
      whether the user forced anything. */
  method KeychainStep(disk: Disk, keychains: Keychains, dir: Path, decode: Bytes -> Option<string>)
    returns (path: Option<string>, state: KeychainState)
    modifies keychains, disk`failures
    ensures disk.failures >= old(disk.failures) && keychains.failures >= old(keychains.failures)
    ensures disk.failures == old(disk.failures) && keychains.failures == old(keychains.failures) ==>
      path == NamedPath(disk.nodes, dir, decode) && KeychainExpected(path, state, old(keychains.files).Keys)
    ensures forall k :: k in old(keychains.files) ==>
      k in keychains.files && keychains.files[k] == old(keychains.files)[k]
    ensures state.KeychainCreated? ==>
      path.Some? && path.value !in old(keychains.files) && keychains.files == old(keychains.files)[path.value := map[]]
    ensures state.KeychainSkipped? ==>
      path.Some? && path.value in old(keychains.files) && keychains.files == old(keychains.files)
    ensures path.None? ==> state.KeychainFailed? && keychains.files == old(keychains.files)
    ensures path.Some? ==>
      var file := dir + [TOPOLOGY_FILE];
      file in disk.nodes && disk.nodes[file].File? && path == decode(disk.nodes[file].data)
  {
    path := LoadPath(disk, dir, decode);
    if path.None? { return path, KeychainFailed; }
    var ok, found := keychains.Has(path.value);
    if !ok { return path, KeychainFailed; }
    if found { return path, KeychainSkipped; }
    ok := keychains.Create(path.value);
    state := if ok then KeychainCreated else KeychainFailed;
  }

  /** `lclaw init`. */
  method Init(disk: Disk, keychains: Keychains, dir: Path, defaults: seq<Default>, force: bool,
      decode: Bytes -> Option<string>)
    returns (r: InitReport, path: Option<string>, state: KeychainState, err: bool, ghost kinds: seq<Kind>)
    requires GoodDefaults(defaults)
    modifies disk, keychains
    ensures Reports(r, defaults, kinds) && Placed(old(disk.nodes), disk.nodes, dir, defaults, kinds, force)
    ensures !err ==> |kinds| == |defaults|
    ensures forall k :: k in old(keychains.files) ==>
      k in keychains.files && keychains.files[k] == old(keychains.files)[k]
    ensures !err && !state.KeychainFailed? ==> path.Some? && path.value in keychains.files
    ensures !err && state.KeychainCreated? ==> path.Some? && path.value !in old(keychains.files)
    // where every default is there, an unforced run writes nothing
    ensures !force && AllThere(old(disk.nodes), dir, defaults) ==>
      disk.nodes == old(disk.nodes) && forall i :: 0 <= i < |kinds| ==> !kinds[i].Wrote?
    // what comes of a run in which no operation fails
    ensures disk.failures == old(disk.failures) ==> AllExpected(old(disk.nodes), dir, defaults, force, kinds)
    ensures !err && disk.failures == old(disk.failures) && keychains.failures == old(keychains.failures) ==>
      path == NamedPath(disk.nodes, dir, decode) && KeychainExpected(path, state, old(keychains.files).Keys)
  {
    hide GoodDefaults, Placed, Reports, AllExpected, NamedPath;
    var ok;
    r, ok, kinds := PlaceFiles(disk, dir, defaults, force);
    if !ok { return r, None, KeychainFailed, true, kinds; }
    path, state := KeychainStep(disk, keychains, dir, decode);
    err := *;
  }

  // ---- What the report means ----------------------------------------------

  lemma ChosenStep(defaults: seq<Default>, kinds: seq<Kind>, kind: Kind)
    requires kinds != [] && |kinds| <= |defaults|
    ensures var n := |kinds| - 1; var before, all := Chosen(defaults, kinds[..n], kind), Chosen(defaults, kinds, kind);
      && multiset(all) == multiset(before) + (if kinds[n] == kind then multiset{defaults[n].path} else multiset{})
      && |all| == |before| + if kinds[n] == kind then 1 else 0
  {
  }

  lemma NothingYet(defaults: seq<Default>)
    ensures forall kind :: Chosen(defaults, [], kind) == []
    ensures Paths(defaults, 0) == []
  {
  }

  lemma PathsStep(defaults: seq<Default>, n: nat)
    requires 0 < n <= |defaults|
    ensures multiset(Paths(defaults, n)) == multiset(Paths(defaults, n - 1)) + multiset{defaults[n - 1].path}
  {
  }

  lemma {:induction false} KindsPartition(defaults: seq<Default>, kinds: seq<Kind>)
    requires |kinds| <= |defaults|
    ensures
      var w, s, f :=
        Chosen(defaults, kinds, Wrote), Chosen(defaults, kinds, Skipped), Chosen(defaults, kinds, Failed);
      multiset(w) + multiset(s) + multiset(f) == multiset(Paths(defaults, |kinds|)) && |w| + |s| + |f| == |kinds|
    decreases |kinds|
  {
    hide Chosen, Paths;
    if kinds == [] {
      NothingYet(defaults);
    } else {
      KindsPartition(defaults, kinds[..|kinds| - 1]);
      PathsStep(defaults, |kinds|);
      ChosenStep(defaults, kinds, Wrote);
      ChosenStep(defaults, kinds, Skipped);
      ChosenStep(defaults, kinds, Failed);
    }
  }

  /** Written, skipped and failed split the defaults that were reached: nothing
      is missing and nothing is listed twice. */
  lemma ReportPartitions(r: InitReport, defaults: seq<Default>, kinds: seq<Kind>)
    requires Reports(r, defaults, kinds)
    ensures multiset(r.written) + multiset(r.skipped) + multiset(r.failed) == multiset(Paths(defaults, |kinds|))
    ensures |r.written| + |r.skipped| + |r.failed| == |kinds|
  {
    hide Chosen, Paths;
    KindsPartition(defaults, kinds);
  }

  ghost function Paths(defaults: seq<Default>, n: nat): seq<Path>
    requires n <= |defaults|
  {
    if n == 0 then [] else Paths(defaults, n - 1) + [defaults[n - 1].path]
  }

  lemma {:induction false} NothingChosen(defaults: seq<Default>, kinds: seq<Kind>, kind: Kind)
    requires |kinds| <= |defaults|
    ensures Chosen(defaults, kinds, kind) == [] <==> forall i :: 0 <= i < |kinds| ==> kinds[i] != kind
  {
    if kinds != [] { NothingChosen(defaults, kinds[..|kinds| - 1], kind); }
  }

  /** Every default is there already, as a file. */
  ghost predicate AllFilesThere(s: Tree, dir: Path, defaults: seq<Default>) {
    forall i :: 0 <= i < |defaults| ==> Target(dir, defaults[i]) in s && s[Target(dir, defaults[i])].File?
  }

  /** After a complete run without failures everything is in place. */
  lemma CompleteRunIsEnough(s: Tree, t: Tree, dir: Path, defaults: seq<Default>, kinds: seq<Kind>, force: bool,
      r: InitReport)
    requires Reports(r, defaults, kinds) && |kinds| == |defaults| && r.failed == []
    requires Placed(s, t, dir, defaults, kinds, force)
    ensures AllFilesThere(t, dir, defaults)
  {
    NothingChosen(defaults, kinds, Failed);
    forall i | 0 <= i < |defaults|
      ensures Target(dir, defaults[i]) in t && t[Target(dir, defaults[i])].File?
    {
      assert Settled(s, t, Target(dir, defaults[i]), defaults[i].data, kinds[i], force);
    }
  }

  lemma {:induction false} AllOfOneKind(defaults: seq<Default>, kinds: seq<Kind>, one: Kind, kind: Kind)
    requires |kinds| <= |defaults| && forall i :: 0 <= i < |kinds| ==> kinds[i] == one
    ensures Chosen(defaults, kinds, kind) == if kind == one then Paths(defaults, |kinds|) else []
  {
    if kinds != [] { AllOfOneKind(defaults, kinds[..|kinds| - 1], one, kind); }
  }

  /** Where every default is a file already, an unforced run in which no
      operation fails reports each of them as skipped, in walk order. */
  lemma {:induction false} SkipsWhatIsThere(s: Tree, dir: Path, defaults: seq<Default>, kinds: seq<Kind>, r: InitReport)
    requires GoodDefaults(defaults) && AllFilesThere(s, dir, defaults)
    requires Reports(r, defaults, kinds) && |kinds| == |defaults| && AllExpected(s, dir, defaults, false, kinds)
    ensures r.skipped == Paths(defaults, |defaults|) && r.written == [] && r.failed == []
  {
    forall i | 0 <= i < |kinds| ensures kinds[i] == Skipped {
      assert defaults[i].path != [] && Target(dir, defaults[i]) in s;
    }
    AllOfOneKind(defaults, kinds, Skipped, Wrote);
    AllOfOneKind(defaults, kinds, Skipped, Skipped);
    AllOfOneKind(defaults, kinds, Skipped, Failed);
  }

  /** Where nothing is in the way, a run in which no operation fails writes every
      default, in walk order. */
  lemma {:induction false} WritesWhatIsFree(
    s: Tree, dir: Path, defaults: seq<Default>, force: bool, kinds: seq<Kind>, r: InitReport)
    requires GoodDefaults(defaults)
    requires forall i :: 0 <= i < |defaults| ==> Free(s, Target(dir, defaults[i]))
    requires Reports(r, defaults, kinds) && |kinds| == |defaults| && AllExpected(s, dir, defaults, force, kinds)
    ensures r.written == Paths(defaults, |defaults|) && r.skipped == [] && r.failed == []
  {
    forall i | 0 <= i < |kinds| ensures kinds[i] == Wrote {
      assert defaults[i].path != [] && Free(s, Target(dir, defaults[i]));
    }
    AllOfOneKind(defaults, kinds, Wrote, Wrote);
    AllOfOneKind(defaults, kinds, Wrote, Skipped);
    AllOfOneKind(defaults, kinds, Wrote, Failed);
  }

  /** Nothing is there, and no file stands on the way. */
  ghost predicate Free(s: Tree, target: Path) {
    target != [] && target !in s && Clear(s, Parent(target))
  }

  /** A second run after a complete one: without force, and without a failed
      operation, it skips everything. */
  lemma {:induction false} SecondRunSkips(s: Tree, t: Tree, dir: Path, defaults: seq<Default>, force: bool,
      kinds: seq<Kind>, r: InitReport, kinds': seq<Kind>, r': InitReport)
    requires GoodDefaults(defaults)
    requires Reports(r, defaults, kinds) && |kinds| == |defaults| && r.failed == []
    requires Placed(s, t, dir, defaults, kinds, force)
    requires Reports(r', defaults, kinds') && |kinds'| == |defaults| && AllExpected(t, dir, defaults, false, kinds')
    ensures r'.skipped == Paths(defaults, |defaults|) && r'.written == [] && r'.failed == []
  {
    hide GoodDefaults, Placed, Reports, AllFilesThere, AllExpected;
    CompleteRunIsEnough(s, t, dir, defaults, kinds, force, r);
    SkipsWhatIsThere(t, dir, defaults, kinds', r');
  }

  ghost predicate UnforcedRun(dir: Path, defaults: seq<Default>, s: Tree, t: Tree) {
    exists kinds :: Placed(s, t, dir, defaults, kinds, false)
  }

  /** The files as one unforced run after the other leaves them. */
  ghost predicate Runs(dir: Path, defaults: seq<Default>, states: seq<Tree>) {
    var n := |states| - 1;
    n <= 0 || (UnforcedRun(dir, defaults, states[n - 1], states[n]) && Runs(dir, defaults, states[..n]))
  }

  ghost predicate Preserved(s: Tree, t: Tree) {
    forall p :: p in s ==> p in t && t[p] == s[p]
  }

  lemma UnforcedRunPreserves(dir: Path, defaults: seq<Default>, s: Tree, t: Tree)
    requires UnforcedRun(dir, defaults, s, t)
    ensures Preserved(s, t)
  {
    hide Settled;
  }

  /** However often `init` runs without force, no file that was there is ever
      changed. */
  lemma {:induction false} UnforcedNeverClobbers(dir: Path, defaults: seq<Default>, states: seq<Tree>)
    requires states != [] && Runs(dir, defaults, states)
    ensures Preserved(states[0], states[|states| - 1])
    decreases |states|
  {
    hide UnforcedRun;
    var n := |states| - 1;
    if n > 0 {
      UnforcedNeverClobbers(dir, defaults, states[..n]);
      UnforcedRunPreserves(dir, defaults, states[n - 1], states[n]);
    }
  }
}

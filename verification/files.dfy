/** Writing a file through a temporary name: every state the disk passes
    through, failures and crashes included (internal/adapters/osfs/system.go). */
module Files {
  import opened Text
  import opened Catalogues

  type Path = seq<string>

  const TEMP_MODE := 0x180 // rw-------
  const FILE_MODE := 0x1A4 // rw-r--r--

  datatype Node = File(data: Bytes, mode: nat) | Directory

  type Tree = map<Path, Node>

  // ---- What may differ between two states ---------------------------------

  ghost predicate Same(s: Tree, t: Tree, p: Path) {
    (p in s <==> p in t) && (p in s ==> t[p] == s[p])
  }

  /** Everything that was there still is, apart from `except`. */
  ghost predicate Keeps(s: Tree, t: Tree, except: Path) {
    forall p :: p in s && p != except ==> p in t && t[p] == s[p]
  }

  /** The target is as before or complete, and nothing else was lost. */
  ghost predicate Intact(s: Tree, t: Tree, path: Path, data: Bytes) {
    Keeps(s, t, path) && (Same(s, t, path) || (path in t && t[path] == File(data, FILE_MODE)))
  }

  /** Directories on the way to `dir` were added. */
  ghost predicate Grown(s: Tree, t: Tree, dir: Path) {
    && (forall p :: p in s ==> p in t && t[p] == s[p])
    && (forall p :: p in t && p !in s ==> p <= dir && t[p].Directory?)
  }

  /** `t` is `s` with a file at `name`. */
  ghost predicate WithTemp(s: Tree, t: Tree, name: Path) {
    name !in s && name in t && t[name].File? && t - {name} == s
  }

  function Parent(path: Path): Path
    requires path != []
  {
    path[..|path| - 1]
  }

  function Temp(path: Path, random: string): Path
    requires path != []
  {
    Parent(path) + ["." + path[|path| - 1] + "." + random + ".tmp"]
  }

  lemma TempIsElsewhere(path: Path, random: string)
    requires path != []
    ensures Temp(path, random) != path
  {
    assert |Temp(path, random)[|path| - 1]| > |path[|path| - 1]|;
  }

  lemma GrownIsIntact(s: Tree, t: Tree, path: Path, data: Bytes)
    requires path != [] && Grown(s, t, Parent(path))
    ensures Intact(s, t, path, data) && Same(s, t, path)
  {
  }

  lemma WithTempIsIntact(s: Tree, t: Tree, u: Tree, path: Path, data: Bytes, name: Path)
    requires path != [] && Grown(s, t, Parent(path)) && WithTemp(t, u, name) && name != path
    ensures Intact(s, u, path, data) && Same(s, u, path)
  {
    GrownIsIntact(s, t, path, data);
    forall p | p != name ensures Same(t, u, p) { assert p in u - {name} <==> p in u; }
  }

  lemma RenamedIsIntact(s: Tree, t: Tree, path: Path, data: Bytes)
    requires path != [] && Grown(s, t, Parent(path))
    ensures Intact(s, t[path := File(data, FILE_MODE)], path, data)
  {
  }

  lemma WithTempChanges(s: Tree, t: Tree, name: Path, node: Node)
    requires WithTemp(s, t, name) && node.File?
    ensures WithTemp(s, t[name := node], name)
  {
    assert t[name := node] - {name} == t - {name};
  }

  // ---- The disk -----------------------------------------------------------

  datatype WriteResult = Written | Exists | IsDirectory | Broken

  /** No file is in the way of the directory `dir`. */
  ghost predicate Clear(t: Tree, dir: Path) {
    forall i :: 0 < i <= |dir| && dir[..i] in t ==> t[dir[..i]].Directory?
  }

  /** The file system. Each operation may fail: `failures` counts those that did
      although nothing on the disk stood against them, `seen` records every
      state. */
  class Disk {
    var nodes: Tree
    ghost var seen: seq<Tree>
    ghost var failures: nat

    constructor (initial: Tree)
      ensures nodes == initial && seen == [] && failures == 0
    {
      nodes, seen, failures := initial, [], 0;
    }

    /** The states since `from` all satisfy the promise of a write. */
    ghost predicate AllIntact(from: nat, s: Tree, path: Path, data: Bytes)
      reads this
    {
      forall k :: from <= k < |seen| ==> Intact(s, seen[k], path, data)
    }

    /** One change reaches the disk. */
    method Step(next: Tree)
      modifies this
      ensures nodes == next && seen == old(seen) + [next] && failures == old(failures)
    {
      nodes, seen := next, seen + [next];
    }

    /** Creates the missing directories one by one. */
    method MkdirAll(dir: Path) returns (ok: bool)
      modifies this
      ensures Grown(old(nodes), nodes, dir)
      ensures old(seen) <= seen && forall k :: |old(seen)| <= k < |seen| ==> Grown(old(nodes), seen[k], dir)
      ensures failures >= old(failures) && (failures == old(failures) ==> (ok <==> Clear(old(nodes), dir)))
    {
      ghost var s := nodes;
      for i := 1 to |dir| + 1
        invariant Grown(s, nodes, dir)
        invariant old(seen) <= seen && forall k :: |old(seen)| <= k < |seen| ==> Grown(s, seen[k], dir)
        invariant failures == old(failures)
        invariant forall j :: 0 < j < i && dir[..j] in s ==> s[dir[..j]].Directory?
      {
        var fail: bool := *;
        if fail {
          failures := failures + 1;
          return false;
        }
        if dir[..i] in nodes && nodes[dir[..i]].File? { return false; }
        if dir[..i] !in nodes { Step(nodes[dir[..i] := Directory]); }
      }
      ok := true;
    }

    /** A new, empty file nobody else has. */
    method CreateTemp(path: Path) returns (ok: bool, name: Path)
      requires path != []
      modifies this
      ensures ok ==> WithTemp(old(nodes), nodes, name) && name != path && seen == old(seen) + [nodes]
      ensures !ok ==> nodes == old(nodes) && seen == old(seen)
      ensures failures == old(failures) + if ok then 0 else 1
    {
      var random: string := *;
      var fail: bool := *;
      name := Temp(path, random);
      if fail || name in nodes {
        failures := failures + 1;
        return false, name;
      }
      TempIsElsewhere(path, random);
      Step(nodes[name := File([], TEMP_MODE)]);
      assert nodes - {name} == old(nodes);
      ok := true;
    }

    /** May stop after any number of bytes. */
    method Write(name: Path, data: Bytes, ghost s: Tree) returns (ok: bool)
      requires WithTemp(s, nodes, name)
      modifies this
      ensures WithTemp(s, nodes, name) && (ok ==> nodes[name].data == data)
      ensures old(seen) <= seen && forall k :: |old(seen)| <= k < |seen| ==> WithTemp(s, seen[k], name)
      ensures failures == old(failures) + if ok then 0 else 1
    {
      var n: int := *;
      var mode := nodes[name].mode;
      var part := if 0 <= n < |data| then data[..n] else [];
      WithTempChanges(s, nodes, name, File(part, mode));
      Step(nodes[name := File(part, mode)]);
      var fail: bool := *;
      if fail {
        failures := failures + 1;
        return false;
      }
      WithTempChanges(s, nodes, name, File(data, mode));
      Step(nodes[name := File(data, mode)]);
      ok := true;
    }

    method Chmod(name: Path, mode: nat, ghost s: Tree) returns (ok: bool)
      requires WithTemp(s, nodes, name)
      modifies this
      ensures WithTemp(s, nodes, name) && nodes[name].data == old(nodes)[name].data && (ok ==> nodes[name].mode == mode)
      ensures old(seen) <= seen && forall k :: |old(seen)| <= k < |seen| ==> WithTemp(s, seen[k], name)
      ensures failures == old(failures) + if ok then 0 else 1
    {
      var fail: bool := *;
      if fail {
        failures := failures + 1;
        return false;
      }
      WithTempChanges(s, nodes, name, File(nodes[name].data, mode));
      Step(nodes[name := File(nodes[name].data, mode)]);
      ok := true;
    }

    /** Writes, sets the mode and closes; closing may still fail. */
    method Fill(name: Path, data: Bytes, ghost s: Tree) returns (ok: bool)
      requires WithTemp(s, nodes, name)
      modifies this
      ensures WithTemp(s, nodes, name) && (ok ==> nodes[name] == File(data, FILE_MODE))
      ensures old(seen) <= seen && forall k :: |old(seen)| <= k < |seen| ==> WithTemp(s, seen[k], name)
      ensures failures == old(failures) + if ok then 0 else 1
    {
      ok := Write(name, data, s);
      if !ok { return; }
      ok := Chmod(name, FILE_MODE, s);
      if !ok { return; }
      var fail: bool := *;
      if fail { failures := failures + 1; }
      ok := !fail;
    }

    /** Atomic: the target has the old content or the new one. */
    method Rename(name: Path, path: Path) returns (ok: bool)
      requires name in nodes && nodes[name].File? && name != path
      modifies this
      ensures ok ==> nodes == (old(nodes) - {name})[path := old(nodes)[name]] && seen == old(seen) + [nodes]
      ensures !ok ==> nodes == old(nodes) && seen == old(seen)
      ensures failures >= old(failures)
      ensures failures == old(failures) ==> (ok <==> !(path in old(nodes) && old(nodes)[path].Directory?))
    {
      var fail: bool := *;
      if fail {
        failures := failures + 1;
        return false;
      }
      if path in nodes && nodes[path].Directory? { return false; }
      Step((nodes - {name})[path := nodes[name]]);
      ok := true;
    }

    method Remove(name: Path) returns (ok: bool)
      modifies this
      ensures ok ==> nodes == old(nodes) - {name} && seen == old(seen) + [nodes]
      ensures !ok ==> nodes == old(nodes) && seen == old(seen)
      ensures failures == old(failures) + if ok then 0 else 1
    {
      var fail: bool := *;
      if fail {
        failures := failures + 1;
        return false;
      }
      Step(nodes - {name});
      ok := true;
    }

    /** From a filled temporary file to the target, or back. */
    method Install(name: Path, path: Path, data: Bytes, ghost s: Tree, ghost t: Tree)
      returns (ok: bool, ghost stuck: bool)
      requires path != [] && name != path && Grown(s, t, Parent(path)) && WithTemp(t, nodes, name)
      modifies this
      ensures ok ==> nodes == t[path := File(data, FILE_MODE)] && !stuck
      ensures !ok && !stuck ==> nodes == t
      ensures !ok && stuck ==> WithTemp(t, nodes, name)
      ensures old(seen) <= seen && forall k :: |old(seen)| <= k < |seen| ==> Intact(s, seen[k], path, data)
      ensures failures >= old(failures)
      ensures failures == old(failures) ==> !stuck && (ok <==> !(path in t && t[path].Directory?))
    {
      hide Intact, Grown, WithTemp;
      stuck := false;
      ghost var from := |seen|;
      ok := Fill(name, data, t);
      forall k | from <= k < |seen| ensures Intact(s, seen[k], path, data) {
        WithTempIsIntact(s, t, seen[k], path, data, name);
      }
      WithTempMeans(t, nodes, name);
      if ok {
        ok := Rename(name, path);
        if ok {
          RenamedIsIntact(s, t, path, data);
          return;
        }
      }
      var removed := Remove(name);
      GrownIsIntact(s, t, path, data);
      return false, !removed;
    }

    /** `os.Lstat`. */
    method Lstat(path: Path) returns (ok: bool, node: Option<Node>)
      modifies this
      ensures nodes == old(nodes) && seen == old(seen) && failures == old(failures) + if ok then 0 else 1
      ensures ok && path in nodes ==> node == Some(nodes[path])
      ensures ok && path !in nodes ==> node.None?
    {
      var fail: bool := *;
      if fail { failures := failures + 1; }
      ok := !fail;
      node := if path in nodes then Some(nodes[path]) else None;
    }

    /** Never leaves a half-written target: after every step it is as before or
        complete. An error leaves it as before and takes the temporary file
        away, unless that fails too. */
    method WriteFile(path: Path, data: Bytes, overwrite: bool) returns (r: WriteResult, ghost stuck: bool)
      requires path != []
      modifies this
      ensures old(seen) <= seen && AllIntact(|old(seen)|, old(nodes), path, data)
      ensures Keeps(old(nodes), nodes, path)
      ensures r.Written? ==> path in nodes && nodes[path] == File(data, FILE_MODE) && (path in old(nodes) ==> overwrite)
      ensures !r.Written? ==> Same(old(nodes), nodes, path)
      ensures path in old(nodes) && (!overwrite || old(nodes)[path].Directory?) ==>
        nodes == old(nodes) && seen == old(seen) && !r.Written?
      ensures r.Exists? ==> !overwrite && path in old(nodes) && old(nodes)[path].File?
      ensures r.IsDirectory? ==> path in old(nodes) && old(nodes)[path].Directory?
      ensures !stuck ==> OnlyParents(old(nodes), nodes, path)
      // what becomes of a write when no operation fails
      ensures failures >= old(failures)
      ensures failures == old(failures) ==>
        && !stuck
        && (r.IsDirectory? <==> path in old(nodes) && old(nodes)[path].Directory?)
        && (r.Exists? <==> path in old(nodes) && old(nodes)[path].File? && !overwrite)
        && (r.Written? <==>
          (path in old(nodes) ==> old(nodes)[path].File? && overwrite) && Clear(old(nodes), Parent(path)))
    {
      hide Intact, Grown, Keeps, WithTemp, OnlyParents, Clear;
      stuck := false;
      ghost var s, from := nodes, |seen|;
      NothingDone(s, path, data);
      var ok, node := Lstat(path);
      if ok && node.Some? && node.value.Directory? { return IsDirectory, stuck; }
      if ok && node.Some? && !overwrite { return Exists, stuck; }
      if !ok { return Broken, stuck; }
      ok := MkdirAll(Parent(path));
      ghost var t := nodes;
      forall k | from <= k < |seen| ensures Intact(s, seen[k], path, data) { GrownIsIntact(s, seen[k], path, data); }
      GrownIsIntact(s, t, path, data);
      IntactMeans(s, t, path, data);
      if !ok { return Broken, stuck; }
      var name;
      ok, name := CreateTemp(path);
      if !ok { return Broken, stuck; }
      WithTempIsIntact(s, t, nodes, path, data, name);
      ok, stuck := Install(name, path, data, s, t);
      InstalledMeans(s, t, nodes, path, data, name, ok, stuck);
      r := if ok then Written else Broken;
    }
  }

  /** Besides the target, only directories on its way are new. */
  ghost predicate OnlyParents(s: Tree, t: Tree, path: Path)
    requires path != []
  {
    forall p :: p in t && p !in s && p != path ==> p <= Parent(path) && t[p].Directory?
  }

  lemma NothingDone(s: Tree, path: Path, data: Bytes)
    requires path != []
    ensures Intact(s, s, path, data) && Same(s, s, path) && Keeps(s, s, path) && OnlyParents(s, s, path)
  {
  }

  lemma IntactMeans(s: Tree, t: Tree, path: Path, data: Bytes)
    requires path != [] && Intact(s, t, path, data)
    ensures Keeps(s, t, path)
    ensures Grown(s, t, Parent(path)) ==> OnlyParents(s, t, path)
  {
  }

  lemma InstalledMeans(s: Tree, t: Tree, u: Tree, path: Path, data: Bytes, name: Path, ok: bool, stuck: bool)
    requires path != [] && name != path && Grown(s, t, Parent(path))
    requires ok ==> u == t[path := File(data, FILE_MODE)] && !stuck
    requires !ok && !stuck ==> u == t
    requires !ok && stuck ==> WithTemp(t, u, name)
    ensures Keeps(s, u, path) && (!ok ==> Same(s, u, path)) && (!stuck ==> OnlyParents(s, u, path))
  {
    GrownIsIntact(s, t, path, data);
    if stuck { WithTempIsIntact(s, t, u, path, data, name); }
  }

  lemma WithTempMeans(s: Tree, t: Tree, name: Path)
    requires WithTemp(s, t, name)
    ensures name in t && t[name].File? && name !in s && t - {name} == s
  {
  }
}

/** What lclaw.toml describes and the network assignment it implies
    (internal/domain/topology.go). */
module Topologies {
  import opened Text
  import opened Roles

  datatype MachineSpec = MachineSpec(cpus: int, memoryMiB: int, diskGiB: int, volumes: seq<string>)

  datatype ZoneSpec = ZoneSpec(
    name: string,
    internal: bool,
    workloads: seq<string>,
    secrets: seq<string>,
    bridges: map<string, seq<string>>)

  datatype Topology = Topology(
    schema: int,
    provider: string,
    machine: MachineSpec,
    zones: seq<ZoneSpec>)

  const NO_ZONE := ZoneSpec("", false, [], [], map[])

  function Dir(w: string): string { "workloads/" + w }
  function PodFile(w: string): string { Dir(w) + "/pod.yaml" }
  function RequiredFiles(w: string): seq<string> {
    [Dir(w) + "/Containerfile", PodFile(w), Dir(w) + "/.containerignore"]
  }

  /** The first zone named after `r`; the zero zone when there is none. */
  function ZoneUpTo(zones: seq<ZoneSpec>, r: Role): ZoneSpec {
    if zones == [] then NO_ZONE
    else if zones[0].name == r.Name() then zones[0]
    else ZoneUpTo(zones[1..], r)
  }

  function ZoneOf(t: Topology, r: Role): ZoneSpec {
    ZoneUpTo(t.zones, r)
  }

  method Zone(t: Topology, r: Role) returns (z: ZoneSpec, ok: bool)
    ensures z == ZoneOf(t, r)
    ensures ok <==> exists i :: 0 <= i < |t.zones| && t.zones[i].name == r.Name()
  {
    for i := 0 to |t.zones|
      invariant ZoneOf(t, r) == ZoneUpTo(t.zones[i..], r)
      invariant forall j :: 0 <= j < i ==> t.zones[j].name != r.Name()
    {
      if t.zones[i].name == r.Name() {
        return t.zones[i], true;
      }
      assert t.zones[i..][1..] == t.zones[i + 1..];
    }
    return NO_ZONE, false;
  }

  /** Zone name to the secrets it lists. A later zone of the same name replaces
      an earlier one, as in a Go map. */
  function Declared(zones: seq<ZoneSpec>, n: nat): map<string, seq<string>>
    requires n <= |zones|
  {
    if n == 0 then map[] else Declared(zones, n - 1)[zones[n - 1].name := zones[n - 1].secrets]
  }

  method DeclaredSecrets(t: Topology) returns (out: map<string, seq<string>>)
    ensures out == Declared(t.zones, |t.zones|)
  {
    out := map[];
    for i := 0 to |t.zones|
      invariant out == Declared(t.zones, i)
    {
      out := out[t.zones[i].name := t.zones[i].secrets];
    }
  }

  // ---- Networks -----------------------------------------------------------

  function Bridged(z: ZoneSpec, w: string): seq<string> {
    if w in z.bridges then z.bridges[w] else []
  }

  /** Every target is a role other than the zone itself, none twice. */
  ghost predicate GoodTargets(z: ZoneSpec, w: string) {
    && (forall b :: b in Bridged(z, w) ==> IsRole(b) && b != z.name)
    && Distinct(Bridged(z, w))
  }

  /** The roles of `ALL[..n]` that workload `w` is bridged into, as names. */
  function TargetsInOrder(z: ZoneSpec, w: string, n: nat): seq<string>
    requires n <= |ALL|
  {
    if n == 0 then []
    else TargetsInOrder(z, w, n - 1) + if ALL[n - 1].Name() in Bridged(z, w) then [ALL[n - 1].Name()] else []
  }

  function Prefixed(names: seq<string>): seq<string> {
    if names == [] then [] else Prefixed(names[..|names| - 1]) + ["lclaw-" + names[|names| - 1]]
  }

  /** The networks workload `w` of zone `z` joins: its zone's own, then those
      it is bridged into, in zone order. */
  function NetworksOf(z: ZoneSpec, w: string): seq<string> {
    ["lclaw-" + z.name] + Prefixed(TargetsInOrder(z, w, |ALL|))
  }

  function RankOf(name: string): nat {
    match ParseRole(name)
    case None => |ALL|
    case Some(r) => r.Rank()
  }

  predicate RankAtMost(a: string, b: string) {
    RankOf(a) <= RankOf(b)
  }

  ghost predicate RankAscending(names: seq<string>) {
    forall i, j :: 0 <= i < j < |names| ==> RankOf(names[i]) < RankOf(names[j])
  }

  lemma RankInjective(a: string, b: string)
    requires IsRole(a) && IsRole(b) && RankOf(a) == RankOf(b)
    ensures a == b
  {
  }

  lemma {:induction false} TargetsAscend(z: ZoneSpec, w: string, n: nat)
    requires n <= |ALL|
    ensures forall b :: b in TargetsInOrder(z, w, n) <==> b in Bridged(z, w) && IsRole(b) && RankOf(b) < n
    ensures RankAscending(TargetsInOrder(z, w, n))
  {
    if n > 0 {
      TargetsAscend(z, w, n - 1);
      NamesDiffer(ALL[n - 1], ALL[n - 1]);
      forall b | b in Bridged(z, w) && IsRole(b) && RankOf(b) == n - 1 ensures b == ALL[n - 1].Name() {
        RankInjective(b, ALL[n - 1].Name());
      }
    }
  }

  lemma {:induction false} RankAscendingUnique(xs: seq<string>, ys: seq<string>)
    requires RankAscending(xs) && RankAscending(ys)
    requires forall b :: b in xs <==> b in ys
    ensures xs == ys
  {
    if xs == [] {
      if ys != [] { HeadIsIn(ys); }
    } else {
      assert xs[0] in ys;
      assert ys[0] in xs;
      assert xs[0] == ys[0];
      forall b ensures b in xs[1..] <==> b in ys[1..] {
        assert b in xs <==> b == xs[0] || b in xs[1..];
        assert b in ys <==> b == ys[0] || b in ys[1..];
      }
      RankAscendingUnique(xs[1..], ys[1..]);
    }
  }

  lemma RankAtMostIsTotalPreorder()
    ensures TotalPreorder(RankAtMost)
  {
  }

  /** Sorting good targets by rank leaves one possible order. */
  lemma GoodTargetsSortOneWay(z: ZoneSpec, w: string, sorted: seq<string>)
    requires GoodTargets(z, w) && multiset(sorted) == multiset(Bridged(z, w)) && SortedBy(sorted, RankAtMost)
    ensures sorted == TargetsInOrder(z, w, |ALL|)
  {
    PermutationKeepsDistinct(Bridged(z, w), sorted);
    forall i, j | 0 <= i < j < |sorted| ensures RankOf(sorted[i]) < RankOf(sorted[j]) {
      assert RankAtMost(sorted[i], sorted[j]);
      assert sorted[i] in sorted && sorted[j] in sorted;
      if RankOf(sorted[i]) == RankOf(sorted[j]) { RankInjective(sorted[i], sorted[j]); }
    }
    TargetsAscend(z, w, |ALL|);
    RankAscendingUnique(sorted, TargetsInOrder(z, w, |ALL|));
  }

  /** `out` lists the zone's own network and then the bridged ones, sorted by
      the rank of their zones in one of the possible ways. */
  ghost predicate ListsNetworks(z: ZoneSpec, w: string, out: seq<string>) {
    exists sorted :: SortsTargets(z, w, sorted) && out == ["lclaw-" + z.name] + Prefixed(sorted)
  }

  ghost predicate SortsTargets(z: ZoneSpec, w: string, sorted: seq<string>) {
    multiset(sorted) == multiset(Bridged(z, w)) && SortedBy(sorted, RankAtMost)
  }

  /** Targets that are not roles sort last and repeated ones stay repeated; on
      validated targets only one result is possible. */
  method Networks(z: ZoneSpec, w: string) returns (out: seq<string>)
    ensures ListsNetworks(z, w, out)
    ensures GoodTargets(z, w) ==> out == NetworksOf(z, w)
  {
    hide GoodTargets;
    RankAtMostIsTotalPreorder();
    var bridged := SortSlice(Bridged(z, w), RankAtMost);
    out := ["lclaw-" + z.name];
    for i := 0 to |bridged|
      invariant out == ["lclaw-" + z.name] + Prefixed(bridged[..i])
    {
      assert bridged[..i + 1][..i] == bridged[..i];
      out := out + ["lclaw-" + bridged[i]];
    }
    assert bridged[..|bridged|] == bridged;
    assert SortsTargets(z, w, bridged);
    if GoodTargets(z, w) { GoodTargetsSortOneWay(z, w, bridged); }
  }

  lemma {:induction false} PrefixedAt(names: seq<string>)
    ensures |Prefixed(names)| == |names|
    ensures forall i :: 0 <= i < |names| ==> Prefixed(names)[i] == "lclaw-" + names[i]
  {
    if names != [] {
      PrefixedAt(names[..|names| - 1]);
    }
  }

  lemma PrefixedMember(own: string, targets: seq<string>, name: string)
    ensures "lclaw-" + name in ["lclaw-" + own] + Prefixed(targets) <==> name == own || name in targets
  {
    PrefixedAt(targets);
    var nets := ["lclaw-" + own] + Prefixed(targets);
    forall i | 0 <= i < |nets| && nets[i] == "lclaw-" + name ensures name == own || name in targets {
      NetworksDiffer(name, if i == 0 then own else targets[i - 1]);
    }
    forall i | 0 <= i < |targets| && targets[i] == name ensures "lclaw-" + name in nets {
      assert nets[i + 1] == "lclaw-" + name;
    }
  }

  lemma PrefixedDistinct(own: string, targets: seq<string>)
    requires Distinct([own] + targets)
    ensures Distinct(["lclaw-" + own] + Prefixed(targets))
  {
    PrefixedAt(targets);
    var names, nets := [own] + targets, ["lclaw-" + own] + Prefixed(targets);
    forall i, j | 0 <= i < j < |nets| ensures nets[i] != nets[j] {
      assert nets[i] == "lclaw-" + names[i] && nets[j] == "lclaw-" + names[j];
      if nets[i] == nets[j] { NetworksDiffer(names[i], names[j]); }
    }
  }

  /** A pod joins its own zone's network and exactly the bridged ones. */
  lemma JoinsExactly(z: ZoneSpec, w: string, r: Role)
    ensures r.NetworkName() in NetworksOf(z, w) <==> r.Name() == z.name || r.Name() in Bridged(z, w)
  {
    TargetsAscend(z, w, |ALL|);
    PrefixedMember(z.name, TargetsInOrder(z, w, |ALL|), r.Name());
    NamesDiffer(r, r);
  }

  /** Every network a pod joins is some zone's. */
  lemma JoinsOnlyZones(z: ZoneSpec, w: string, n: string)
    requires IsRole(z.name)
    requires n in NetworksOf(z, w)
    ensures exists r: Role :: n == r.NetworkName()
  {
    hide Prefixed, TargetsInOrder, RankAscending;
    var targets := TargetsInOrder(z, w, |ALL|);
    TargetsAscend(z, w, |ALL|);
    PrefixedAt(targets);
    var name := z.name;
    if n != "lclaw-" + z.name {
      var i :| 0 <= i < |targets| && Prefixed(targets)[i] == n;
      name := targets[i];
    }
    assert n == ParseRole(name).value.NetworkName();
  }

  /** The own network comes first and the rest follow in zone order, so no
      network is listed twice. */
  lemma NetworksAreDistinct(z: ZoneSpec, w: string)
    requires z.name !in Bridged(z, w)
    ensures NetworksOf(z, w)[0] == "lclaw-" + z.name
    ensures Distinct(NetworksOf(z, w))
  {
    var targets := TargetsInOrder(z, w, |ALL|);
    TargetsAscend(z, w, |ALL|);
    forall i, j | 0 <= i < j < |[z.name] + targets| ensures ([z.name] + targets)[i] != ([z.name] + targets)[j] {
      assert targets[j - 1] in targets;
    }
    PrefixedDistinct(z.name, targets);
  }
}

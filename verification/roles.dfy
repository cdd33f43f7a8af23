/** The three zones, the order they are applied in, and their selection on a
    command line (internal/domain/role.go). */
module Roles {
  import opened Text

  datatype Role = Infra | Services | Agent {

    function Name(): string {
      match this
      case Infra => "infra"
      case Services => "services"
      case Agent => "agent"
    }

    /** The Podman network of the zone. */
    function NetworkName(): string {
      "lclaw-" + Name()
    }

    /** Position in the order zones are applied; `down` runs it backwards. */
    function Rank(): nat {
      match this
      case Infra => 0
      case Services => 1
      case Agent => 2
    }
  }

  const ALL: seq<Role> := [Infra, Services, Agent]

  function ParseRole(s: string): (r: Option<Role>)
    ensures r.Some? ==> r.value.Name() == s
    ensures r.None? ==> forall role: Role :: role.Name() != s
  {
    if s == "infra" then Some(Infra)
    else if s == "services" then Some(Services)
    else if s == "agent" then Some(Agent)
    else None
  }

  predicate IsRole(s: string) {
    ParseRole(s).Some?
  }

  lemma NamesDiffer(a: Role, b: Role)
    ensures a.Name() == b.Name() ==> a == b
    ensures ParseRole(a.Name()) == Some(a)
  {
    assert "infra"[0] != "services"[0] && "infra"[0] != "agent"[0] && "services"[0] != "agent"[0];
  }

  lemma NetworksDiffer(a: string, b: string)
    requires "lclaw-" + a == "lclaw-" + b
    ensures a == b
  {
    assert ("lclaw-" + a)[6..] == a;
    assert ("lclaw-" + b)[6..] == b;
  }

  lemma NetworkNamesDiffer(a: Role, b: Role)
    requires a.NetworkName() == b.NetworkName()
    ensures a == b
  {
    NetworksDiffer(a.Name(), b.Name());
    NamesDiffer(a, b);
  }

  /** A selection of zones in the fixed order, none twice. */
  ghost predicate InZoneOrder(roles: seq<Role>) {
    forall i, j :: 0 <= i < j < |roles| ==> roles[i].Rank() < roles[j].Rank()
  }

  datatype Selection = Selected(roles: seq<Role>) | NotAZone(name: string, repeated: bool)

  /** `names[k]` is the first name that is unknown or already given. */
  ghost predicate FirstBadName(names: seq<string>, k: nat, name: string, repeated: bool) {
    && k < |names| && names[k] == name
    && (forall n :: n in names[..k] ==> IsRole(n))
    && Distinct(names[..k])
    && (if repeated then IsRole(name) && name in names[..k] else !IsRole(name))
  }

  /** The roles of a set, in zone order. */
  method InOrder(seen: set<Role>) returns (out: seq<Role>)
    ensures InZoneOrder(out)
    ensures forall r: Role :: r in out <==> r in seen
  {
    out := [];
    for i := 0 to |ALL|
      invariant InZoneOrder(out)
      invariant forall r: Role :: r in out <==> r in seen && r.Rank() < i
    {
      if ALL[i] in seen {
        out := out + [ALL[i]];
      }
    }
  }

  /** Turns zone names into roles in the fixed order. No name means every zone;
      the first unknown or repeated name is the error. */
  method SelectRoles(names: seq<string>) returns (s: Selection)
    ensures s.Selected? ==> InZoneOrder(s.roles)
    ensures s.Selected? ==> forall r: Role :: r in s.roles <==> names == [] || r.Name() in names
    ensures s.Selected? ==> (forall n :: n in names ==> IsRole(n)) && Distinct(names)
    ensures s.NotAZone? ==> exists k: nat :: FirstBadName(names, k, s.name, s.repeated)
    ensures names == [] ==> s == Selected([Infra, Services, Agent])
  {
    if |names| == 0 {
      forall r: Role ensures r in ALL { assert ALL[r.Rank()] == r; }
      return Selected(ALL);
    }
    var seen: set<Role> := {};
    for i := 0 to |names|
      invariant forall n :: n in names[..i] ==> IsRole(n)
      invariant Distinct(names[..i])
      invariant forall r: Role :: r in seen <==> r.Name() in names[..i]
    {
      var n := names[i];
      var parsed := ParseRole(n);
      if parsed.None? || parsed.value in seen {
        assert FirstBadName(names, i, n, parsed.Some?);
        return NotAZone(n, parsed.Some?);
      }
      assert names[..i + 1] == names[..i] + [n];
      forall r: Role ensures r in seen + {parsed.value} <==> r.Name() in names[..i + 1] {
        NamesDiffer(r, parsed.value);
      }
      seen := seen + {parsed.value};
    }
    assert names[..|names|] == names;
    var out := InOrder(seen);
    return Selected(out);
  }

  /** The two outcomes of a selection exclude each other. */
  lemma BadNameRefutesSelection(names: seq<string>, k: nat, name: string, repeated: bool)
    requires FirstBadName(names, k, name, repeated)
    ensures !((forall n :: n in names ==> IsRole(n)) && Distinct(names))
  {
    assert names[k] in names;
    if repeated {
      var j :| 0 <= j < k && names[..k][j] == name;
      assert names[j] == names[k];
    }
  }

  /** The order zones are named in does not matter: equal sets of names select
      equal sequences. */
  lemma {:induction false} SelectionIsOrderFree(xs: seq<Role>, ys: seq<Role>)
    requires InZoneOrder(xs) && InZoneOrder(ys)
    requires forall r :: r in xs <==> r in ys
    ensures xs == ys
  {
    if xs == [] {
      if ys != [] { HeadIsIn(ys); }
    } else {
      assert xs[0] in ys;
      assert ys[0] in xs;
      assert xs[0] == ys[0];
      forall r ensures r in xs[1..] <==> r in ys[1..] {
        assert r in xs <==> r == xs[0] || r in xs[1..];
        assert r in ys <==> r == ys[0] || r in ys[1..];
      }
      SelectionIsOrderFree(xs[1..], ys[1..]);
    }
  }

  lemma {:induction false} RankAtLeast(roles: seq<Role>, i: nat)
    requires InZoneOrder(roles) && i < |roles|
    ensures roles[i].Rank() >= i
  {
    if i > 0 { RankAtLeast(roles, i - 1); }
  }

  /** The fixed order: infra before the services, the services before the agent. */
  lemma ZoneOrder(roles: seq<Role>)
    requires InZoneOrder(roles)
    ensures || roles == [] || roles == [Infra] || roles == [Services] || roles == [Agent]
      || roles == [Infra, Services] || roles == [Infra, Agent] || roles == [Services, Agent]
      || roles == [Infra, Services, Agent]
  {
    if |roles| > 3 {
      RankAtLeast(roles, 3);
    } else if |roles| == 3 {
      assert roles[0].Rank() < roles[1].Rank() < roles[2].Rank();
      assert roles == [Infra, Services, Agent];
    } else if |roles| == 2 {
      assert roles[0].Rank() < roles[1].Rank();
      assert roles == [roles[0], roles[1]];
    } else if |roles| == 1 {
      assert roles == [roles[0]];
      match roles[0] case Infra => {} case Services => {} case Agent => {}
    } else {
      assert roles == [];
    }
  }
}

/** The topology `init` writes (cmd/lclaw/scaffold/lclaw.toml). */
module DefaultTopology {
  import opened Text
  import opened Roles
  import opened Catalogues
  import opened Topologies
  import opened Validation
  import opened WellFormedness

  const INFRA_ZONE := ZoneSpec("infra", false, ["kuma-cp", "gateway"], [], map["kuma-cp" := ["services", "agent"]])

  const SERVICES_ZONE := ZoneSpec("services", false, ["litellm-db", "litellm", "agentgateway"], ["anthropic-api-key"],
    map["agentgateway" := ["agent"]])

  const AGENT_ZONE := ZoneSpec("agent", true, ["openclaw"], [], map[])

  const DEFAULT: Topology :=
    Topology(2, "libkrun", MachineSpec(4, 8192, 60, []), [INFRA_ZONE, SERVICES_ZONE, AGENT_ZONE])

  /** Every workload has its files. */
  ghost predicate Complete(files: set<string>) {
    forall i :: 0 <= i < |DEFAULT.zones| ==> forall w :: w in DEFAULT.zones[i].workloads ==> HasFiles(w, files)
  }

  lemma DefaultNamesAreGood()
    ensures ValidWorkloadName("kuma-cp") && ValidWorkloadName("gateway") && ValidWorkloadName("litellm-db")
    ensures ValidWorkloadName("litellm") && ValidWorkloadName("agentgateway") && ValidWorkloadName("openclaw")
  {
  }

  lemma DefaultNamesDiffer()
    ensures Distinct(["kuma-cp", "gateway", "litellm-db", "litellm", "agentgateway", "openclaw"])
  {
    assert "kuma-cp"[0] == 'k' && "gateway"[0] == 'g' && "litellm"[0] == 'l' && "agentgateway"[0] == 'a' &&
      "openclaw"[0] == 'o';
  }

  lemma DefaultWorkloadsAreGood(files: set<string>)
    requires Complete(files)
    ensures forall i :: 0 <= i < |DEFAULT.zones| ==> GoodWorkloads(DEFAULT.zones, i, files)
  {
    hide HasFiles, ValidWorkloadName;
    DefaultNamesAreGood();
    DefaultNamesDiffer();
    var names := ["kuma-cp", "gateway", "litellm-db", "litellm", "agentgateway", "openclaw"];
    assert names[0] == "kuma-cp" && names[1] == "gateway" && names[2] == "litellm-db" && names[3] == "litellm";
    assert names[4] == "agentgateway" && names[5] == "openclaw";
  }

  lemma DefaultRoles()
    ensures INFRA_ZONE.name == Infra.Name() && SERVICES_ZONE.name == Services.Name() && AGENT_ZONE.name == Agent.Name()
    ensures Distinct(["infra", "services", "agent"])
    ensures IsRole("infra") && IsRole("services") && IsRole("agent")
  {
    NamesDiffer(Infra, Services);
    NamesDiffer(Infra, Agent);
    NamesDiffer(Services, Agent);
  }

  lemma DefaultZoneAt(r: Role)
    ensures OnlyZone(DEFAULT.zones, r.Rank(), r)
  {
    DefaultRoles();
    NamesDiffer(Infra, Services);
    NamesDiffer(Infra, Agent);
    NamesDiffer(Services, Agent);
  }

  lemma DefaultZonesAreNamedOnce()
    ensures forall r: Role :: NamedOnce(DEFAULT.zones, r)
  {
    forall r: Role ensures NamedOnce(DEFAULT.zones, r) { DefaultZoneAt(r); }
  }

  lemma DefaultBridgesAreGood()
    ensures forall z :: z in DEFAULT.zones ==> GoodBridges(z)
    ensures BridgesInto(INFRA_ZONE, "agent")
  {
    DefaultRoles();
    var names := ["infra", "services", "agent"];
    assert names[0] == "infra" && names[1] == "services" && names[2] == "agent";
    assert "kuma-cp" in INFRA_ZONE.workloads && "agentgateway" in SERVICES_ZONE.workloads;
    assert INFRA_ZONE.bridges["kuma-cp"][0] == "services" && INFRA_ZONE.bridges["kuma-cp"][1] == "agent";
  }

  lemma DefaultSecretIsGood()
    ensures Declarable(BUILTIN, "anthropic-api-key")
  {
    assert "anthropic-api-key"[0] == 'a';
  }

  lemma DefaultSecretsAreGood()
    ensures forall z :: z in DEFAULT.zones ==> GoodSecrets(z)
  {
    hide Declarable;
    DefaultSecretIsGood();
  }

  /** The default topology is valid wherever its files are. */
  lemma DefaultIsWellFormed(files: set<string>)
    requires Complete(files)
    ensures WellFormed(DEFAULT, files) && Everything(DEFAULT, files) == []
  {
    hide GoodWorkloads, NamedOnce, GoodBridges, GoodSecrets, Everything;
    DefaultRoles();
    DefaultWorkloadsAreGood(files);
    DefaultZonesAreNamedOnce();
    DefaultBridgesAreGood();
    DefaultSecretsAreGood();
    assert INFRA_ZONE in DEFAULT.zones;
    ValidIffWellFormed(DEFAULT, files);
  }
}

/**
 * The variable maps handed to the provisioning engine: five entries for a
 * deployment, two for an explicit teardown. Every option the user left out is
 * filled with its default; a missing deployment region is drawn at random from
 * the provider's list on every build of the map.
 */
module VarMaps {
  import opened Wrappers
  import opened Providers
  import opened Paths
  import opened InboundRules
  import Json

  type VarMap = map<string, string>

  const InstanceTypeKey := "instance_type"
  const RegionKey := "region"
  const ScriptPathKey := "script_path"
  const InboundRulesKey := "inbound_rules"
  const SshPublicKeyPathKey := "ssh_public_key_path"

  const DeployKeys: set<string> :=
    {InstanceTypeKey, RegionKey, ScriptPathKey, InboundRulesKey, SshPublicKeyPathKey}

  /** The resolved `deploy` subcommand. The script path is kept as its (lossy) text. */
  datatype RunDeployParams = RunDeployParams(
    debug: bool,
    instanceType: Option<string>,
    provider: Provider,
    region: Option<string>,
    scriptPath: Option<string>,
    templatePath: Path,
    inboundRules: Option<seq<InboundRule>>,
    sshPublicKeyPath: Option<string>)
  {
    /**
     * `RunDeployParams::to_atar_map`: one insert per key. The random region is
     * drawn on every call, and used only when no region was given.
     */
    method ToAtarMap() returns (m: VarMap)
      ensures IsDeployMap(this, m)
    {
      m := map[];
      var defaultInstanceType := DefaultInstanceType(provider);
      m := m[InstanceTypeKey := instanceType.GetOr(defaultInstanceType)];
      var randomRegion := ResolveRandomRegion(provider);
      m := m[RegionKey := region.GetOr(randomRegion)];
      m := m[ScriptPathKey := scriptPath.GetOr("")];
      var rules := inboundRules.GetOr(DefaultInboundRules());
      m := m[InboundRulesKey := Json.RulesJson(rules)];
      m := m[SshPublicKeyPathKey := sshPublicKeyPath.GetOr("none")];
    }
  }

  /** The regions a deployment map may carry: the given one, or any of the provider's. */
  ghost function RegionChoices(p: RunDeployParams): set<string>
  {
    if p.region.Some? then {p.region.value} else set r | r in Regions(p.provider)
  }

  /**
   * `m` is a map `to_atar_map` can return for `p`: exactly the five keys, each
   * holding the supplied option or its default.
   */
  ghost predicate IsDeployMap(p: RunDeployParams, m: VarMap)
  {
    && m.Keys == DeployKeys
    && m[InstanceTypeKey] == p.instanceType.GetOr(DefaultInstanceType(p.provider))
    && m[RegionKey] in RegionChoices(p)
    && m[ScriptPathKey] == p.scriptPath.GetOr("")
    && m[InboundRulesKey] == Json.RulesJson(p.inboundRules.GetOr(DefaultInboundRules()))
    && m[SshPublicKeyPathKey] == p.sshPublicKeyPath.GetOr("none")
  }

  /** Two deployment maps for the same parameters differ at most in the region. */
  lemma DeployMapsAgreeOffRegion(p: RunDeployParams, m1: VarMap, m2: VarMap)
    requires IsDeployMap(p, m1) && IsDeployMap(p, m2)
    ensures m1[RegionKey] == m2[RegionKey] ==> m1 == m2
    ensures m1 - {RegionKey} == m2 - {RegionKey}
  {
  }

  /** With a region given, every build of the map yields the same map. */
  lemma DeployMapFixedByRegion(p: RunDeployParams, m1: VarMap, m2: VarMap)
    requires p.region.Some?
    requires IsDeployMap(p, m1) && IsDeployMap(p, m2)
    ensures m1 == m2 && m1[RegionKey] == p.region.value
  {
  }

  /**
   * Without a region, the map is drawn afresh: the region is always one of the
   * provider's own, and two builds may disagree.
   */
  lemma DeployMapRandomRegion(p: RunDeployParams) returns (m1: VarMap, m2: VarMap)
    requires p.region.None?
    ensures IsDeployMap(p, m1) && IsDeployMap(p, m2) && m1 != m2
    ensures forall m :: IsDeployMap(p, m) ==> m[RegionKey] in Regions(p.provider)
  {
    var a, b := RegionsOffer(p.provider);
    var base := map[
      InstanceTypeKey := p.instanceType.GetOr(DefaultInstanceType(p.provider)),
      ScriptPathKey := p.scriptPath.GetOr(""),
      InboundRulesKey := Json.RulesJson(p.inboundRules.GetOr(DefaultInboundRules())),
      SshPublicKeyPathKey := p.sshPublicKeyPath.GetOr("none")];
    m1 := base[RegionKey := a];
    m2 := base[RegionKey := b];
    assert m1[RegionKey] != m2[RegionKey];
  }

  /** The default rule list is sent as `[{"protocol":"tcp","port_number":22}]`. */
  lemma DefaultRulesJson()
    ensures Json.RulesJson(DefaultInboundRules()) == "[{\"protocol\":\"tcp\",\"port_number\":22}]"
  {
    var rule := InboundRule("tcp", 22);
    Json.RulesJsonSingle(rule);
    Json.RuleJsonPlain(rule);
    assert Decimal(22) == "22" by {
      assert Decimal(22) == Decimal(2) + [DigitChar(2)];
    }
    FillDefaultRule(Json.RuleJson(rule), rule.protocol, Decimal(22));
  }

  lemma FillDefaultRule(json: string, protocol: string, port: string)
    requires protocol == "tcp" && port == "22"
    requires json == "{\"protocol\":\"" + protocol + "\",\"port_number\":" + port + "}"
    ensures "[" + json + "]" == "[{\"protocol\":\"tcp\",\"port_number\":22}]"
  {
  }

  /** A deployment with every option left out sends the documented defaults. */
  lemma DeployMapDefaults(p: RunDeployParams, m: VarMap)
    requires p.instanceType.None? && p.scriptPath.None? && p.inboundRules.None?
    requires p.sshPublicKeyPath.None?
    requires IsDeployMap(p, m)
    ensures m[InstanceTypeKey] == DefaultInstanceType(p.provider)
    ensures m[ScriptPathKey] == ""
    ensures m[InboundRulesKey] == "[{\"protocol\":\"tcp\",\"port_number\":22}]"
    ensures m[SshPublicKeyPathKey] == "none"
  {
    DefaultRulesJson();
  }

  /** The resolved `undeploy` subcommand: the region is mandatory there. */
  datatype RunUndeployParams = RunUndeployParams(
    debug: bool,
    instanceType: Option<string>,
    provider: Provider,
    region: string,
    templatePath: Path)
  {
    /** `RunUndeployParams::to_atar_map`: the instance type and the region, nothing else. */
    method ToAtarMap() returns (m: VarMap)
      ensures IsUndeployMap(this, m)
    {
      m := map[];
      var defaultInstanceType := DefaultInstanceType(provider);
      m := m[InstanceTypeKey := instanceType.GetOr(defaultInstanceType)];
      m := m[RegionKey := region];
    }
  }

  /** `m` has exactly the keys instance_type (given or default) and region (verbatim). */
  ghost predicate IsUndeployMap(p: RunUndeployParams, m: VarMap)
  {
    && m.Keys == {InstanceTypeKey, RegionKey}
    && m[InstanceTypeKey] == p.instanceType.GetOr(DefaultInstanceType(p.provider))
    && m[RegionKey] == p.region
  }

  /**
   * The teardown map is determined by its parameters; for instance
   * `region=us-east-1, instance_type=t3.micro` gives exactly those two entries.
   */
  lemma UndeployMapDetermined(p: RunUndeployParams, m1: VarMap, m2: VarMap)
    requires IsUndeployMap(p, m1) && IsUndeployMap(p, m2)
    ensures m1 == m2
    ensures p.region == "us-east-1" && p.instanceType == Some("t3.micro") ==>
      m1 == map[InstanceTypeKey := "t3.micro", RegionKey := "us-east-1"]
  {
  }
}

/**
 * The MSK stack (infra/lib/stacks/msk-stack.ts): the broker configuration, the
 * cluster and its placement in the VPC, the security group, storage
 * auto-scaling, the exported security-group id and the monitoring construct.
 * The `ns` context value, the prefix of every name, is a parameter.
 */
module Stacks {
  import opened Wrappers
  import opened Strings
  import opened CloudWatch
  import opened Msk
  import opened Monitoring

  /** `numberOfBrokerNodes`: the brokers the cluster declares in each availability zone. */
  const BrokerNodes: nat := 1
  /** The broker count the monitoring construct is told about; set apart from `BrokerNodes`. */
  const MonitoredBrokers: nat := 3
  /** `msk.KafkaVersion.V2_8_1`. */
  const KafkaVersion := "2.8.1"

  // ===========================================================================
  // Broker configuration
  // ===========================================================================

  datatype ServerProperty = ServerProperty(key: string, value: string)

  /** `new CfnConfiguration(scope, constructId, {...})`; `serverProperties` is the Java properties text. */
  datatype CfnConfiguration = CfnConfiguration(
    constructId: string,
    name: string,
    serverProperties: string,
    kafkaVersionsList: seq<string>,
    attrArn: Ref)

  /**
   * The lines of the `serverProperties` template literal: it opens with a line
   * break and closes on an indented line.
   */
  const ServerPropertiesLines: seq<string> := [
    "",
    "auto.create.topics.enable=false",
    "default.replication.factor=3",
    "log.retention.hours=376",
    "log.retention.bytes=-1",
    "unclean.leader.election.enable=false",
    "min.insync.replicas=2",
    "      "
  ]

  function ServerPropertiesText(): string {
    Join(ServerPropertiesLines, '\n')
  }

  /** The settings the brokers read from that text, in order. */
  const BrokerSettings: seq<ServerProperty> := [
    ServerProperty("auto.create.topics.enable", "false"),
    ServerProperty("default.replication.factor", "3"),
    ServerProperty("log.retention.hours", "376"),
    ServerProperty("log.retention.bytes", "-1"),
    ServerProperty("unclean.leader.election.enable", "false"),
    ServerProperty("min.insync.replicas", "2")
  ]

  /** One `key=value` line: the key runs to the first `=`, the value is the rest. */
  function ParseLine(line: string): ServerProperty {
    var fields := Split(line, '=');
    ServerProperty(fields[0], if |fields| > 1 then Join(fields[1..], '=') else "")
  }

  /** The properties of the given lines; a line without `=` (a blank one) declares nothing. */
  function ParseLines(lines: seq<string>): seq<ServerProperty>
    decreases |lines|
  {
    if lines == [] then []
    else (if '=' in lines[0] then [ParseLine(lines[0])] else []) + ParseLines(lines[1..])
  }

  function ParseProperties(text: string): seq<ServerProperty> {
    ParseLines(Split(text, '\n'))
  }

  /** The value of the first property named `key`. */
  function Lookup(ps: seq<ServerProperty>, key: string): (v: Option<string>)
    ensures v.Some? <==> exists i :: 0 <= i < |ps| && ps[i].key == key
    decreases |ps|
  {
    if ps == [] then None
    else if ps[0].key == key then Some(ps[0].value)
    else Lookup(ps[1..], key)
  }

  /** A `key=value` line reads back as that key and value when the key holds no `=`. */
  lemma ParseLineRoundTrip(key: string, value: string)
    requires '=' !in key
    ensures ParseLine(key + "=" + value) == ServerProperty(key, value)
  {
    SplitAfterSeparator(key, value, '=');
    var fields := Split(key + "=" + value, '=');
    assert fields[1..] == Split(value, '=');
    JoinSplit(value, '=');
  }

  lemma {:induction false} ParseLinesAppend(a: seq<string>, b: seq<string>)
    ensures ParseLines(a + b) == ParseLines(a) + ParseLines(b)
    decreases |a|
  {
    if a == [] {
      assert a + b == b;
    } else {
      var head := if '=' in a[0] then [ParseLine(a[0])] else [];
      assert (a + b)[0] == a[0] && (a + b)[1..] == a[1..] + b;
      assert ParseLines(a + b) == head + ParseLines(a[1..] + b);
      assert ParseLines(a) == head + ParseLines(a[1..]);
      ParseLinesAppend(a[1..], b);
    }
  }

  /** A line without `=` declares no property. */
  lemma BlankLine(line: string)
    requires '=' !in line
    ensures ParseLines([line]) == []
  {
    assert [line][1..] == [];
  }

  /** Lines that each render one property read back as those properties. */
  lemma {:induction false} ParsePropertyLines(lines: seq<string>, ps: seq<ServerProperty>)
    requires |lines| == |ps|
    requires forall i :: 0 <= i < |ps| ==> '=' !in ps[i].key && lines[i] == ps[i].key + "=" + ps[i].value
    ensures ParseLines(lines) == ps
    decreases |ps|
  {
    if ps != [] {
      ParseLineRoundTrip(ps[0].key, ps[0].value);
      assert '=' in lines[0] by {
        assert lines[0][|ps[0].key|] == '=';
      }
      ParsePropertyLines(lines[1..], ps[1..]);
      assert [ps[0]] + ps[1..] == ps;
    }
  }

  /** The configuration text declares exactly the six broker settings, in order. */
  lemma ServerPropertiesParse()
    ensures ParseProperties(ServerPropertiesText()) == BrokerSettings
  {
    var ls := ServerPropertiesLines;
    LinesUnbroken();
    SplitJoin(ls, '\n');
    SettingLines();
    ParsePropertyLines(ls[1..7], BrokerSettings);
    EdgeLinesBlank();
    FirstMiddleLast(ls);
    ParseLinesAppend([ls[0]], ls[1..7]);
    ParseLinesAppend([ls[0]] + ls[1..7], [ls[7]]);
  }

  lemma FirstMiddleLast(ls: seq<string>)
    requires 2 <= |ls|
    ensures ls == [ls[0]] + ls[1..|ls| - 1] + [ls[|ls| - 1]]
  {
  }

  /** The opening and the closing line of the text declare nothing. */
  lemma EdgeLinesBlank()
    ensures ParseLines([ServerPropertiesLines[0]]) == []
    ensures ParseLines([ServerPropertiesLines[7]]) == []
  {
    var first := ServerPropertiesLines[0];
    var last := ServerPropertiesLines[7];
    assert |first| == 0;
    assert forall k :: 0 <= k < |last| ==> last[k] != '=';
    BlankLine(first);
    BlankLine(last);
  }

  /** No line of the text holds a line break. */
  lemma LinesUnbroken()
    ensures forall i :: 0 <= i < |ServerPropertiesLines| ==> '\n' !in ServerPropertiesLines[i]
  {
    forall i | 0 <= i < |ServerPropertiesLines|
      ensures '\n' !in ServerPropertiesLines[i]
    {
      if i < 4 {
        UpperLineUnbroken(i);
      } else {
        LowerLineUnbroken(i);
      }
    }
  }

  /** None of the first four lines holds a line break. */
  lemma UpperLineUnbroken(i: nat)
    requires i < 4
    ensures '\n' !in ServerPropertiesLines[i]
  {
    var line := ServerPropertiesLines[i];
    if i == 0 {
      assert |line| == 0;
    } else if i == 1 {
      assert forall k :: 0 <= k < |line| ==> line[k] != '\n';
    } else if i == 2 {
      assert forall k :: 0 <= k < |line| ==> line[k] != '\n';
    } else {
      assert forall k :: 0 <= k < |line| ==> line[k] != '\n';
    }
  }

  /** None of the last four lines holds a line break. */
  lemma LowerLineUnbroken(i: nat)
    requires 4 <= i < |ServerPropertiesLines|
    ensures '\n' !in ServerPropertiesLines[i]
  {
    var line := ServerPropertiesLines[i];
    if i == 4 {
      assert forall k :: 0 <= k < |line| ==> line[k] != '\n';
    } else if i == 5 {
      assert forall k :: 0 <= k < |line| ==> line[k] != '\n';
    } else if i == 6 {
      assert forall k :: 0 <= k < |line| ==> line[k] != '\n';
    } else {
      assert forall k :: 0 <= k < |line| ==> line[k] != '\n';
    }
  }

  /** The middle lines of the text are the settings, written `key=value`. */
  lemma SettingLines()
    ensures var ls := ServerPropertiesLines[1..7]; var ps := BrokerSettings;
      |ls| == |ps| &&
      forall i :: 0 <= i < |ps| ==> '=' !in ps[i].key && ls[i] == ps[i].key + "=" + ps[i].value
  {
    var ps := BrokerSettings;
    forall i | 0 <= i < |ps|
      ensures '=' !in ps[i].key && ServerPropertiesLines[i + 1] == ps[i].key + "=" + ps[i].value
    {
      if i < 3 {
        UpperSettingLine(i);
      } else {
        LowerSettingLine(i);
      }
    }
  }

  /** Lines 1 to 3 set the first three settings, whose keys hold no `=`. */
  lemma UpperSettingLine(i: nat)
    requires i < 3
    ensures var p := BrokerSettings[i];
      '=' !in p.key && ServerPropertiesLines[i + 1] == p.key + "=" + p.value
  {
    var key := BrokerSettings[i].key;
    if i == 0 {
      assert forall k :: 0 <= k < |key| ==> key[k] != '=';
    } else if i == 1 {
      assert forall k :: 0 <= k < |key| ==> key[k] != '=';
    } else {
      assert forall k :: 0 <= k < |key| ==> key[k] != '=';
    }
  }

  /** Lines 4 to 6 set the last three settings, whose keys hold no `=`. */
  lemma LowerSettingLine(i: nat)
    requires 3 <= i < |BrokerSettings|
    ensures var p := BrokerSettings[i];
      '=' !in p.key && ServerPropertiesLines[i + 1] == p.key + "=" + p.value
  {
    var key := BrokerSettings[i].key;
    if i == 3 {
      assert forall k :: 0 <= k < |key| ==> key[k] != '=';
    } else if i == 4 {
      assert forall k :: 0 <= k < |key| ==> key[k] != '=';
    } else {
      assert forall k :: 0 <= k < |key| ==> key[k] != '=';
    }
  }

  /** The configuration named after `ns`, with the fixed broker settings. */
  function NewConfiguration(ns: string): (c: CfnConfiguration)
    ensures c.constructId == "MskConfiguration" && c.name == ns + "Configuration"
    ensures c.kafkaVersionsList == [KafkaVersion]
    ensures ParseProperties(c.serverProperties) == BrokerSettings
  {
    ServerPropertiesParse();
    CfnConfiguration("MskConfiguration", ns + "Configuration", ServerPropertiesText(), ["2.8.1"],
      Ref("MskConfiguration", "Arn"))
  }

  /**
   * What the brokers are told: no topic is created implicitly, new topics get
   * three replicas, two of which must acknowledge a write, an out-of-sync replica
   * never becomes leader, and logs are kept 376 hours whatever their size.
   */
  lemma BrokerSettingsValues(ns: string)
    ensures var ps := ParseProperties(NewConfiguration(ns).serverProperties);
      && Lookup(ps, "auto.create.topics.enable") == Some("false")
      && Lookup(ps, "default.replication.factor") == Some("3")
      && Lookup(ps, "log.retention.hours") == Some("376")
      && Lookup(ps, "log.retention.bytes") == Some("-1")
      && Lookup(ps, "unclean.leader.election.enable") == Some("false")
      && Lookup(ps, "min.insync.replicas") == Some("2")
      && |ps| == 6
      && (forall i, j :: 0 <= i < j < |ps| ==> ps[i].key != ps[j].key)
  {
    var ps := BrokerSettings;
    BrokerSettingsKeysDistinct();
    LookupFinds(ps, 0);
    LookupFinds(ps, 1);
    LookupFinds(ps, 2);
    LookupFinds(ps, 3);
    LookupFinds(ps, 4);
    LookupFinds(ps, 5);
  }

  /** Among distinct keys, looking a key up finds its own value. */
  lemma {:induction false} LookupFinds(ps: seq<ServerProperty>, i: nat)
    requires i < |ps|
    requires forall a, b :: 0 <= a < b < |ps| ==> ps[a].key != ps[b].key
    ensures Lookup(ps, ps[i].key) == Some(ps[i].value)
    decreases i
  {
    if i > 0 {
      assert ps[0].key != ps[i].key;
      assert ps[1..][i - 1] == ps[i];
      LookupFinds(ps[1..], i - 1);
    }
  }

  lemma BrokerSettingsKeysDistinct()
    ensures forall i, j :: 0 <= i < j < |BrokerSettings| ==> BrokerSettings[i].key != BrokerSettings[j].key
  {
    var ps := BrokerSettings;
    // The keys differ in length, except three of length 19, which differ in their first or 15th letter.
    var lengths := [25, 26, 19, 19, 30, 19];
    forall i | 0 <= i < |ps|
      ensures |ps[i].key| == lengths[i]
    {
    }
    assert ps[2].key[0] == 'l' && ps[3].key[0] == 'l' && ps[5].key[0] == 'm';
    assert ps[2].key[14] == 'h' && ps[3].key[14] == 'b';
    forall i, j | 0 <= i < j < |ps|
      ensures ps[i].key != ps[j].key
    {
      if lengths[i] == lengths[j] {
        assert ps[i].key[0] != ps[j].key[0] || ps[i].key[14] != ps[j].key[14];
      }
    }
  }

  /** Only the name depends on `ns`: the payload is the same for every deployment. */
  lemma ConfigurationPayloadFixed(ns1: string, ns2: string)
    ensures var c1 := NewConfiguration(ns1); var c2 := NewConfiguration(ns2);
      && c1.serverProperties == c2.serverProperties
      && c1.kafkaVersionsList == c2.kafkaVersionsList
      && (c1.name == c2.name <==> ns1 == ns2)
  {
    if NewConfiguration(ns1).name == NewConfiguration(ns2).name {
      assert ns1 == (ns1 + "Configuration")[..|ns1|];
    }
  }

  // ===========================================================================
  // Subnet placement
  // ===========================================================================

  /**
   * One `"subnetId,az"` entry: the first comma-separated field is the subnet id,
   * the second the availability zone (absent when there is no comma), and any
   * further field is ignored. The construct id is derived from the subnet id.
   */
  function ParseSubnetInfo(info: string): (s: Subnet)
    ensures s.constructId == "Subnet-" + s.subnetId
    ensures ',' !in s.subnetId
    ensures s.availabilityZone.Some? <==> ',' in info
  {
    var fields := Split(info, ',');
    SplitCountsSeparator(info, ',');
    Subnet("Subnet-" + fields[0], fields[0], if |fields| > 1 then Some(fields[1]) else None)
  }

  /** An entry without a comma is all subnet id, and its availability zone is left undefined. */
  lemma SubnetInfoWithoutComma(info: string)
    requires ',' !in info
    ensures ParseSubnetInfo(info) == Subnet("Subnet-" + info, info, None)
  {
    SplitNoSeparator(info, ',');
  }

  /** `id,az` reads back as its two parts, whatever follows a further comma. */
  lemma SubnetInfoFields(id: string, az: string, rest: Option<string>)
    requires ',' !in id && ',' !in az
    ensures var info := id + "," + az + (if rest.Some? then "," + rest.value else "");
      ParseSubnetInfo(info) == Subnet("Subnet-" + id, id, Some(az))
  {
    var tail := az + (if rest.Some? then "," + rest.value else "");
    assert id + "," + az + (if rest.Some? then "," + rest.value else "") == id + [','] + tail;
    SplitAfterSeparator(id, tail, ',');
    if rest.Some? {
      SplitAfterSeparator(az, rest.value, ',');
      assert tail == az + [','] + rest.value;
    } else {
      SplitNoSeparator(az, ',');
      assert tail == az;
    }
  }

  /**
   * The subnet selection for the optional subnet list: the default private
   * subnets when there is no list, otherwise exactly the listed subnets, even
   * when the list is empty.
   */
  function Placement(vpcSubnetInfo: Option<seq<string>>): SubnetSelection {
    match vpcSubnetInfo
    case None => SubnetSelection(Some(PrivateWithEgress), None)
    case Some(infos) =>
      SubnetSelection(None, Some(seq(|infos|, i requires 0 <= i < |infos| => ParseSubnetInfo(infos[i]))))
  }

  /** Exactly one of the two forms, and the explicit form keeps one subnet per entry, in order. */
  lemma PlacementForms(vpcSubnetInfo: Option<seq<string>>)
    ensures var sel := Placement(vpcSubnetInfo);
      && (sel.subnetType.Some? != sel.subnets.Some?)
      && (vpcSubnetInfo.None? <==> sel.subnetType == Some(PrivateWithEgress))
      && (vpcSubnetInfo.Some? ==>
            && |sel.subnets.value| == |vpcSubnetInfo.value|
            && forall i :: 0 <= i < |vpcSubnetInfo.value| ==>
                 sel.subnets.value[i].subnetId == Split(vpcSubnetInfo.value[i], ',')[0])
  {
  }

  /** An empty list still selects explicitly: no subnet at all, not the default ones. */
  lemma EmptySubnetListIsExplicit()
    ensures Placement(Some([])) == SubnetSelection(None, Some([]))
  {
    assert |Placement(Some([])).subnets.value| == 0;
  }

  // ===========================================================================
  // Security group, auto-scaling and output
  // ===========================================================================

  /**
   * The security group: inbound traffic only from its own members, on every
   * port; outbound traffic to any address, by the library's default.
   */
  function NewSecurityGroup(ns: string): (sg: SecurityGroup)
    ensures sg.securityGroupName == ns + "MskSecurityGroup"
    ensures forall r :: r in sg.ingress <==> r == Rule(Itself, AllTraffic)
    ensures sg.allowAllOutbound && forall r :: r in sg.egress <==> r == Rule(AnyIpv4, AllTraffic)
  {
    AllowInternally(DefaultSecurityGroup("MskSecurityGroup", ns + "MskSecurityGroup"), AllTraffic)
  }

  datatype ServiceNamespace = Kafka

  datatype PredefinedMetric = KafkaBrokerStorageUtilization

  datatype ScalableTarget = ScalableTarget(
    constructId: string,
    minCapacity: nat,
    maxCapacity: nat,
    resourceId: Ref,
    scalableDimension: string,
    serviceNamespace: ServiceNamespace)

  datatype TargetTrackingScalingPolicy = TargetTrackingScalingPolicy(
    constructId: string,
    policyName: string,
    scalingTarget: ScalableTarget,
    predefinedMetric: PredefinedMetric,
    targetValue: int,
    disableScaleIn: bool)

  /** `new CfnOutput(scope, constructId, {exportName, value})`. */
  datatype CfnOutput = CfnOutput(constructId: string, exportName: string, value: Ref)

  /** The broker-storage target of the cluster with this ARN. */
  function StorageTarget(clusterArn: Ref): ScalableTarget {
    ScalableTarget("MskStorageASGTarget", 1, 4096, clusterArn, "kafka:broker-storage:VolumeSize", Kafka)
  }

  function StoragePolicy(ns: string, target: ScalableTarget): TargetTrackingScalingPolicy {
    TargetTrackingScalingPolicy("MskStorageASGPolicy", ns + "StorageAutoScaling", target,
      KafkaBrokerStorageUtilization, 75, true)
  }

  datatype ScalingDirection = ScaleOut | ScaleIn | Hold

  /** What a target-tracking policy asks for at a given utilisation of the metric it tracks. */
  function Direction(p: TargetTrackingScalingPolicy, utilization: real): ScalingDirection {
    if utilization > p.targetValue as real then ScaleOut
    else if utilization < p.targetValue as real && !p.disableScaleIn then ScaleIn
    else Hold
  }

  /**
   * Broker storage is scaled on the cluster's volume size within 1..4096, grows
   * exactly when utilisation is above 75 percent, and never shrinks.
   */
  lemma StorageScaling(ns: string, clusterArn: Ref, utilization: real)
    ensures var t := StorageTarget(clusterArn); var p := StoragePolicy(ns, t);
      && 1 == t.minCapacity <= t.maxCapacity == 4096
      && t.resourceId == clusterArn && p.scalingTarget == t
      && p.predefinedMetric == KafkaBrokerStorageUtilization
      && (Direction(p, utilization) == ScaleOut <==> utilization > 75.0)
      && Direction(p, utilization) != ScaleIn
  {
  }

  function SecurityGroupOutput(ns: string, sg: SecurityGroup): (o: CfnOutput)
    ensures o.exportName == ns + "MskSecurityGroupId" && o.value == sg.securityGroupId
  {
    CfnOutput("MskSecurityGroupOutput", ns + "MskSecurityGroupId", sg.securityGroupId)
  }

  // ===========================================================================
  // Names
  // ===========================================================================

  function ClusterName(ns: string): (name: string)
    ensures |name| == |ns| && forall i :: 0 <= i < |name| ==> !IsUpper(name[i])
  {
    ToLower(ns)
  }

  lemma SuffixCancels(a: string, b: string, suffix: string)
    ensures a + suffix == b + suffix <==> a == b
  {
    if a + suffix == b + suffix {
      assert a == (a + suffix)[..|a|] && b == (b + suffix)[..|b|];
    }
  }

  /**
   * Every `ns`-prefixed name determines `ns`: two deployments whose `ns` differ
   * never share a security-group, policy, export or configuration name.
   */
  lemma DerivedNamesDetermineNs(ns1: string, ns2: string)
    ensures NewSecurityGroup(ns1).securityGroupName == NewSecurityGroup(ns2).securityGroupName <==> ns1 == ns2
    ensures (StoragePolicy(ns1, StorageTarget(Ref("MskCluster", "Arn"))).policyName
             == StoragePolicy(ns2, StorageTarget(Ref("MskCluster", "Arn"))).policyName) <==> ns1 == ns2
    ensures (SecurityGroupOutput(ns1, NewSecurityGroup(ns1)).exportName
             == SecurityGroupOutput(ns2, NewSecurityGroup(ns2)).exportName) <==> ns1 == ns2
    ensures NewConfiguration(ns1).name == NewConfiguration(ns2).name <==> ns1 == ns2
  {
    SuffixCancels(ns1, ns2, "MskSecurityGroup");
    SuffixCancels(ns1, ns2, "StorageAutoScaling");
    SuffixCancels(ns1, ns2, "MskSecurityGroupId");
    SuffixCancels(ns1, ns2, "Configuration");
  }

  /**
   * The cluster name, unlike the other names, forgets the case of `ns`: two
   * deployments that differ only in case get clusters of the same name. The
   * notification topic is named after the cluster.
   */
  lemma ClusterNameIgnoresCase(ns: string)
    ensures ClusterName("Dev") == ClusterName("dev")
    ensures NewSecurityGroup("Dev").securityGroupName != NewSecurityGroup("dev").securityGroupName
    ensures TopicName(ns) == ClusterName(ns) + "-kafka-notification"
  {
    assert NewSecurityGroup("Dev").securityGroupName[0] == 'D';
  }

  // ===========================================================================
  // The stack
  // ===========================================================================

  /** The declarations of `newCluster`. */
  datatype ClusterDeclarations = ClusterDeclarations(
    securityGroup: SecurityGroup,
    cluster: Cluster,
    storageTarget: ScalableTarget,
    storagePolicy: TargetTrackingScalingPolicy,
    output: CfnOutput)

  /** The cluster `newCluster` declares for a placement and a configuration. */
  function ClusterFor(ns: string, vpcSubnets: SubnetSelection, configurationInfo: ConfigurationInfo): Cluster {
    Cluster("MskCluster", ClusterName(ns), KafkaVersion, BrokerNodes, vpcSubnets, [NewSecurityGroup(ns)],
      ClusterMonitoring(PerTopicPerPartition, true, true), configurationInfo, Ref("MskCluster", "Arn"))
  }

  class MskStack {
    const ns: string
    const configuration: CfnConfiguration
    const declarations: ClusterDeclarations
    const dashboard: MskDashboard

    constructor (ns: string, vpcSubnetInfo: Option<seq<string>>)
      ensures this.ns == ns
      ensures configuration == NewConfiguration(ns)
      ensures declarations.cluster
        == ClusterFor(ns, Placement(vpcSubnetInfo), ConfigurationInfo(configuration.attrArn, 1))
      ensures declarations.securityGroup == NewSecurityGroup(ns)
      ensures declarations.storageTarget == StorageTarget(declarations.cluster.clusterArn)
      ensures declarations.storagePolicy == StoragePolicy(ns, declarations.storageTarget)
      ensures declarations.output == SecurityGroupOutput(ns, declarations.securityGroup)
      ensures fresh(dashboard) && dashboard.ns == ns
      ensures dashboard.props == DashboardProps(declarations.cluster, MonitoredBrokers)
      ensures dashboard.topics == [Topic("NotificationTopic", TopicName(ns), TopicName(ns))]
      ensures IsMskMetrics(dashboard.mskMetrics, ClusterName(ns), MonitoredBrokers)
      ensures dashboard.appMetrics.maxOffsetLag == LagMap(ClusterName(ns), ConsumerGroups)
      ensures dashboard.alarms == BrokerAlarms(ns, dashboard.mskMetrics, dashboard.topics[0])
        + ApplicationAlarms(ns, dashboard.appMetrics, dashboard.topics[0])
      ensures |dashboard.alarms| == 11
      ensures |dashboard.dashboards| == 1 && |Flatten(dashboard.dashboards[0].rows)| == 5
    {
      this.ns := ns;
      var config := NewConfiguration(ns);
      configuration := config;
      var d := NewCluster(ns, vpcSubnetInfo, ConfigurationInfo(config.attrArn, 1));
      declarations := d;
      var monitoring := NewMonitoring(ns, d.cluster);
      dashboard := monitoring;
    }

    /** The monitoring construct on the cluster, told about three brokers and no consumer group. */
    static method NewMonitoring(ns: string, cluster: Cluster) returns (monitoring: MskDashboard)
      requires cluster.clusterName == ClusterName(ns)
      ensures fresh(monitoring) && monitoring.ns == ns
      ensures monitoring.props == DashboardProps(cluster, MonitoredBrokers)
      ensures monitoring.topics == [Topic("NotificationTopic", TopicName(ns), TopicName(ns))]
      ensures IsMskMetrics(monitoring.mskMetrics, ClusterName(ns), MonitoredBrokers)
      ensures monitoring.appMetrics.maxOffsetLag == LagMap(ClusterName(ns), ConsumerGroups)
      ensures monitoring.alarms == BrokerAlarms(ns, monitoring.mskMetrics, monitoring.topics[0])
        + ApplicationAlarms(ns, monitoring.appMetrics, monitoring.topics[0])
      ensures |monitoring.alarms| == 11
      ensures |monitoring.dashboards| == 1 && |Flatten(monitoring.dashboards[0].rows)| == 5
    {
      monitoring := new MskDashboard(ns, DashboardProps(cluster, 3));
      NoConsumerGroups(ns, monitoring.mskMetrics, ClusterName(ns), 3, monitoring.topics[0]);
    }

    /** The subnet selection: the default private subnets, or one subnet per listed entry. */
    static method SelectSubnets(vpcSubnetInfo: Option<seq<string>>) returns (vpcSubnets: SubnetSelection)
      ensures vpcSubnets == Placement(vpcSubnetInfo)
    {
      if vpcSubnetInfo.None? {
        vpcSubnets := SubnetSelection(Some(PrivateWithEgress), None);
      } else {
        var infos := vpcSubnetInfo.value;
        var subnets := [];
        for i := 0 to |infos|
          invariant |subnets| == i
          invariant forall j :: 0 <= j < i ==> subnets[j] == ParseSubnetInfo(infos[j])
        {
          var fields := Split(infos[i], ',');
          var subnetId := fields[0];
          var az := if |fields| > 1 then Some(fields[1]) else None;
          subnets := subnets + [Subnet("Subnet-" + subnetId, subnetId, az)];
        }
        assert subnets == Placement(vpcSubnetInfo).subnets.value;
        vpcSubnets := SubnetSelection(None, Some(subnets));
      }
    }

    /** The security group, the cluster, its storage auto-scaling and the exported group id. */
    static method NewCluster(ns: string, vpcSubnetInfo: Option<seq<string>>, configurationInfo: ConfigurationInfo)
      returns (d: ClusterDeclarations)
      ensures d.securityGroup == NewSecurityGroup(ns)
      ensures d.cluster == ClusterFor(ns, Placement(vpcSubnetInfo), configurationInfo)
      ensures d.cluster.numberOfBrokerNodes == 1 && d.cluster.securityGroups == [d.securityGroup]
      ensures d.storageTarget == StorageTarget(d.cluster.clusterArn)
      ensures d.storagePolicy == StoragePolicy(ns, d.storageTarget)
      ensures d.output == SecurityGroupOutput(ns, d.securityGroup)
    {
      var securityGroup := NewSecurityGroup(ns);
      var vpcSubnets := SelectSubnets(vpcSubnetInfo);
      var cluster := ClusterFor(ns, vpcSubnets, configurationInfo);
      var target := StorageTarget(cluster.clusterArn);
      var policy := StoragePolicy(ns, target);
      var output := SecurityGroupOutput(ns, securityGroup);
      d := ClusterDeclarations(securityGroup, cluster, target, policy, output);
    }
  }

  /**
   * The monitoring construct always watches three brokers while the cluster
   * declares one broker per availability zone, and its metrics carry the
   * cluster's own name.
   */
  lemma MonitoredBrokersApart(ns: string, vpcSubnetInfo: Option<seq<string>>, configurationInfo: ConfigurationInfo)
    ensures var c := ClusterFor(ns, Placement(vpcSubnetInfo), configurationInfo);
      var props := DashboardProps(c, MonitoredBrokers);
      && c.numberOfBrokerNodes == 1 && props.brokers == 3
      && (forall m :: IsMskMetrics(m, props.cluster.clusterName, props.brokers) ==>
            |m.cpuUser| == 3 && m.activeControllerCount.dimensionsMap["Cluster Name"] == ClusterName(ns))
  {
  }

}

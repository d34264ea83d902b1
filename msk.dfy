/**
 * Plain records for the MSK and EC2 constructs the stack declares: subnets and
 * their selection, the security group, the broker configuration reference and
 * the cluster itself.
 */
module Msk {
  import opened Wrappers

  /** An attribute the provisioner resolves later (an ARN, a group id), named by its resource. */
  datatype Ref = Ref(logicalId: string, attribute: string)

  datatype SubnetType = PrivateWithEgress

  /** `ec2.PrivateSubnet.fromPrivateSubnetAttributes(scope, constructId, {subnetId, availabilityZone})`. */
  datatype Subnet = Subnet(constructId: string, subnetId: string, availabilityZone: Option<string>)

  /** `ec2.SubnetSelection`: an object whose two fields are both optional. */
  datatype SubnetSelection = SubnetSelection(subnetType: Option<SubnetType>, subnets: Option<seq<Subnet>>)

  datatype Port = AllTraffic

  /** Where traffic comes from or goes to: the group's own members, or any IPv4 address. */
  datatype Peer = Itself | AnyIpv4

  /** One security-group rule: a peer and the ports it covers. */
  datatype Rule = Rule(peer: Peer, port: Port)

  /**
   * `ec2.SecurityGroup`: its inbound and outbound rules. With `allowAllOutbound`
   * set, the group carries one rule to any address and refuses to add other
   * outbound rules, since they would grant nothing more.
   */
  datatype SecurityGroup = SecurityGroup(
    constructId: string,
    securityGroupName: string,
    allowAllOutbound: bool,
    ingress: seq<Rule>,
    egress: seq<Rule>,
    securityGroupId: Ref)

  /** `new ec2.SecurityGroup(scope, constructId, {securityGroupName})`, which leaves `allowAllOutbound` at its default, true. */
  function DefaultSecurityGroup(constructId: string, securityGroupName: string): (sg: SecurityGroup)
    ensures sg.securityGroupName == securityGroupName && sg.ingress == []
    ensures sg.allowAllOutbound && sg.egress == [Rule(AnyIpv4, AllTraffic)]
  {
    SecurityGroup(constructId, securityGroupName, true, [], [Rule(AnyIpv4, AllTraffic)], Ref(constructId, "GroupId"))
  }

  /** Adds a rule to a list unless the list already holds it. */
  function AddRule(rules: seq<Rule>, r: Rule): (out: seq<Rule>)
    ensures forall q :: q in out <==> q in rules || q == r
  {
    if r in rules then rules else rules + [r]
  }

  /**
   * `sg.connections.allowInternally(port)`: an inbound and an outbound rule for
   * the group's own members; the outbound one is dropped while all outbound
   * traffic is already allowed.
   */
  function AllowInternally(sg: SecurityGroup, port: Port): (out: SecurityGroup)
    ensures out.securityGroupName == sg.securityGroupName && out.securityGroupId == sg.securityGroupId
    ensures out.allowAllOutbound == sg.allowAllOutbound
    ensures forall r :: r in out.ingress <==> r in sg.ingress || r == Rule(Itself, port)
    ensures forall r :: r in out.egress <==> r in sg.egress || (!sg.allowAllOutbound && r == Rule(Itself, port))
  {
    sg.(ingress := AddRule(sg.ingress, Rule(Itself, port)),
        egress := if sg.allowAllOutbound then sg.egress else AddRule(sg.egress, Rule(Itself, port)))
  }

  datatype ClusterMonitoringLevel = PerTopicPerPartition

  datatype ClusterMonitoring = ClusterMonitoring(
    clusterMonitoringLevel: ClusterMonitoringLevel,
    enablePrometheusJmxExporter: bool,
    enablePrometheusNodeExporter: bool)

  /** `msk.ClusterConfigurationInfo`. */
  datatype ConfigurationInfo = ConfigurationInfo(arn: Ref, revision: nat)

  /** `new msk.Cluster(scope, constructId, {...})`: the settings with logic behind them. */
  datatype Cluster = Cluster(
    constructId: string,
    clusterName: string,
    kafkaVersion: string,
    numberOfBrokerNodes: nat,
    vpcSubnets: SubnetSelection,
    securityGroups: seq<SecurityGroup>,
    monitoring: ClusterMonitoring,
    configurationInfo: ConfigurationInfo,
    clusterArn: Ref)

}

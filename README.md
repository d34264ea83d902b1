# Amazon MSK cluster and its monitoring, modelled in Dafny

This project models the part of the AWS CDK infrastructure code that makes
decisions. Every CDK construct becomes a plain record, and the model covers
the data each construct is given. There are two parts:

- **The monitoring construct** (`MskDashboard`, module `Monitoring`) creates:
  - the notification topic;
  - the cluster-wide and per-broker CloudWatch metrics;
  - a consumer-group lag map with JavaScript `Map.set` semantics;
  - the alarms, from a fixed policy table;
  - the dashboard, whose lag widget appears only when there is a lag metric.

  The construct is a class. Its `alarms` and `dashboards` sequences are
  extended by loop methods. Each method is proved equal to a specification
  function, and the properties are proved about those functions.
- **The stack** (`MskStack`, module `Stacks`) covers:
  - the broker configuration text and the settings it declares;
  - subnet placement from optional `"subnetId,az"` strings;
  - the security group, storage auto-scaling and the exported group id;
  - the names derived from the `ns` context value;
  - wiring the monitoring construct to the cluster.

The supporting modules model what the code relies on:

- `Strings`: ASCII lower-casing, the decimal text of a broker index, and `split`/`join` on one character.
- `JsMaps`: an insertion-ordered string-keyed `Map`.
- `CloudWatch` and `Msk`: records for the constructs.

`ns` is a parameter. Deploy-time attributes (ARNs, the security-group id) are
opaque `Ref` values.

The model follows the code as written, including three behaviours a reader might not expect:

- A subnet list that is present but empty still selects explicitly, so no subnet is selected (`EmptySubnetListIsExplicit`).
- An entry without a comma is not rejected. Its availability zone is left undefined (`SubnetInfoWithoutComma`).
- The monitoring construct is told about 3 brokers, while the cluster declares `numberOfBrokerNodes: 1`, which counts brokers per availability zone. These are kept as two constants (`MonitoredBrokersApart`).

## Model

| member | source | states |
|---|---|---|
| Monitoring.MskDashboard.constructor | infra/lib/constructs/msk-dashboard.ts:31-50 | One topic; the metric set of `props.brokers` brokers; the lag map of the (empty) group list; alarms = broker alarms then application alarms, all to that topic; one dashboard with the specified rows |
| Monitoring.MskDashboard.NewTopic | infra/lib/constructs/msk-dashboard.ts:52-58 | The topic is appended to the construct's topics, with display and topic name `TopicName(ns)` |
| Monitoring.TopicName | infra/lib/constructs/msk-dashboard.ts:56-57 | The name is lower-case `ns` followed by `-kafka-notification`, and contains no upper-case letter |
| Monitoring.MskDashboard.NewMskMetrics | infra/lib/constructs/msk-dashboard.ts:60-137 | Two cluster metrics (SUM, 1 minute, only `Cluster Name`). Three families of exactly `brokers` metrics: UnderReplicatedPartitions SUM, CpuUser and KafkaDataLogsDiskUsed AVERAGE. Entry i has `Broker ID` = decimal text of i |
| Monitoring.MskMetricsDetermined | infra/lib/constructs/msk-dashboard.ts:60-137 | The metric set is fully determined by cluster name and broker count |
| Monitoring.BrokerMetricsDistinct | infra/lib/constructs/msk-dashboard.ts:81-128 | Within a family, no two brokers share a metric |
| Monitoring.MskDashboard.NewAppMetrics | infra/lib/constructs/msk-dashboard.ts:140-162 | The map equals `LagMap` of the whole group list, kept as the loop invariant over each prefix |
| Monitoring.LagMap | infra/lib/constructs/msk-dashboard.ts:141-157 | The map built by successive `set` calls is well formed: distinct keys, and exactly the listed keys have values |
| Monitoring.LagMapKeys | infra/lib/constructs/msk-dashboard.ts:141-157 | The map has a key exactly for each id that occurs in the group list |
| Monitoring.LagMapOrder | infra/lib/constructs/msk-dashboard.ts:141-157 | Keys are listed in order of the first occurrence of their id; a repeated id keeps its first position |
| Monitoring.LagMapLastWins | infra/lib/constructs/msk-dashboard.ts:141-157 | The value under an id is the MAXIMUM lag metric (cluster, consumer group, topic) of the last group with that id |
| JsMaps.InsertionMap.Set | infra/lib/constructs/msk-dashboard.ts:143-156 | `set` replaces the value; a new key is appended, an existing key keeps its position; the map stays well formed |
| Monitoring.PolicyFiresWhen | infra/lib/constructs/msk-dashboard.ts:168-233 | Controller < 1, offline > 0, under-replicated > 0, CPU > 60, disk >= 85, lag >= 100; every kind uses 3 evaluation periods |
| Monitoring.MskDashboard.NewBrokerAlarms | infra/lib/constructs/msk-dashboard.ts:164-218 | Appends exactly `BrokerAlarms`: controller, offline partitions, then each broker family in order, written with the code's literal ids, names and thresholds |
| Monitoring.ScalarAlarms | infra/lib/constructs/msk-dashboard.ts:167-183 | The two cluster alarms of the policy table are the code's `ActiveControllerAlarm` (< 1) and `OfflinePartitionsCountAlarm` (> 0), named `ns` + stem |
| Monitoring.MskDashboard.NewUnderReplicatedPartitionsAlarms | infra/lib/constructs/msk-dashboard.ts:185-195 | One alarm per entry of the family's own sequence, index i giving id and name suffix `${i}`, > 0 |
| Monitoring.MskDashboard.NewCpuUserAlarms | infra/lib/constructs/msk-dashboard.ts:197-206 | One alarm per CPU metric, suffix `${i}`, > 60 |
| Monitoring.MskDashboard.NewDiskUsedAlarms | infra/lib/constructs/msk-dashboard.ts:208-217 | One alarm per disk metric, suffix `${i}`, >= 85 |
| Monitoring.MskDashboard.NewApplicationAlarms | infra/lib/constructs/msk-dashboard.ts:220-235 | Appends one alarm per lag-map entry in map order, id and name suffix `-` + group id, >= 100 |
| Monitoring.AlarmsFollowMetrics | infra/lib/constructs/msk-dashboard.ts:164-235 | Alarm p watches metric p of controller, offline, URP 0.., CPU 0.., disk 0.., lag in map order; carries its kind's policy; has exactly one action, to the topic |
| Monitoring.AlarmCount | infra/lib/constructs/msk-dashboard.ts:164-235 | Alarm count = 2 + the three family lengths + the lag-map size |
| Monitoring.MakeAlarmInjective | infra/lib/constructs/msk-dashboard.ts:186-227 | Different kinds or suffixes give different alarm names and different construct ids |
| Monitoring.AlarmNamesDistinct | infra/lib/constructs/msk-dashboard.ts:164-235 | All alarm names in one run are pairwise distinct, and so are all alarm construct ids |
| Monitoring.NoConsumerGroups | infra/lib/constructs/msk-dashboard.ts:37-49 | With no consumer group: 2 + 3·brokers alarms (11 for 3 brokers) and five widgets |
| Monitoring.OneConsumerGroup | infra/lib/constructs/msk-dashboard.ts:38-43 | With the commented-out `trip` group and 3 brokers: 12 alarms and a sixth widget, the MaxOffsetLag graph of that group's metric |
| Monitoring.MskDashboard.NewDashboard | infra/lib/constructs/msk-dashboard.ts:237-287 | Adds one fresh dashboard `ns`+`KafkaDashboard` whose rows are the broker row and, only if lag metrics exist, the lag row collected in map order |
| CloudWatch.Dashboard.AddWidgets | infra/lib/constructs/msk-dashboard.ts:278-286 | Each call appends its widgets as one new row |
| Monitoring.DashboardWidgets | infra/lib/constructs/msk-dashboard.ts:249-286 | The widgets in display order are the five broker widgets, then the lag graph if there is a lag metric |
| Monitoring.DashboardShape | infra/lib/constructs/msk-dashboard.ts:249-286 | A single-value widget then graphs; titles and widths 4, 4, 16, 12, 12 (+12); a MaxOffsetLag widget exists if and only if the lag map is not empty |
| CloudWatch.PlaceWithinGrid | infra/lib/constructs/msk-dashboard.ts:249-286 | A row's widgets are placed left to right, and one that would cross the 24-unit edge starts the next line: each widget's line is at least its predecessor's and the row's first, and no widget that fits the grid crosses its right edge |
| Monitoring.FirstRowFillsTwoLines | infra/lib/constructs/msk-dashboard.ts:249-276 | The broker row is placed as controller, offline partitions and under-replication on the first grid line, then CPU and disk on the second; each line ends exactly at the right edge |
| Monitoring.BrokerRowCharts | infra/lib/constructs/msk-dashboard.ts:249-276 | The broker row charts controller, offline partitions, then each whole family in order |
| Monitoring.DashboardChartsAlarmedMetrics | infra/lib/constructs/msk-dashboard.ts:244-286 | The dashboard charts exactly the alarmed metrics, in alarm order |
| Strings.NatToString | infra/lib/constructs/msk-dashboard.ts:92 | `${i}` is at least one digit, with no leading zero |
| Strings.DecimalRoundTrip | infra/lib/constructs/msk-dashboard.ts:92 | The decimal text reads back as the index |
| Strings.DecimalCanonical | infra/lib/constructs/msk-dashboard.ts:92 | Every canonical digit string is the text of its value |
| Strings.NatToStringInjective | infra/lib/constructs/msk-dashboard.ts:187 | Different broker indices give different suffixes |
| Strings.ToLower | infra/lib/stacks/msk-stack.ts:87 | Same length; no upper-case letter remains; other characters unchanged; letters shifted to lower case |
| Strings.ToLowerIdempotent | infra/lib/stacks/msk-stack.ts:87 | Lower-casing twice changes nothing more |
| Strings.Split | infra/lib/stacks/msk-stack.ts:71 | At least one field, none containing the separator |
| Strings.JoinSplit | infra/lib/stacks/msk-stack.ts:71 | Joining the fields with the separator gives back the string |
| Strings.SplitJoin | infra/lib/stacks/msk-stack.ts:71 | Splitting separator-free fields joined with it gives back the fields |
| Strings.SplitCountsSeparator | infra/lib/stacks/msk-stack.ts:71 | The string holds the separator if and only if it splits into more than one field |
| Stacks.NewConfiguration | infra/lib/stacks/msk-stack.ts:33-48 | Construct `MskConfiguration`, name `ns`+`Configuration`, Kafka versions `['2.8.1']`, and a properties text that declares exactly the six broker settings |
| Stacks.ServerPropertiesParse | infra/lib/stacks/msk-stack.ts:38-45 | The template-literal text (leading line break, indented closing line) parses to the six settings in order |
| Stacks.ParseLineRoundTrip | infra/lib/stacks/msk-stack.ts:39-44 | A `key=value` line reads back as that key and value |
| Stacks.BrokerSettingsValues | infra/lib/stacks/msk-stack.ts:38-46 | auto.create.topics.enable=false, default.replication.factor=3, log.retention.hours=376, log.retention.bytes=-1, unclean.leader.election.enable=false, min.insync.replicas=2; six settings with distinct keys |
| Stacks.ConfigurationPayloadFixed | infra/lib/stacks/msk-stack.ts:33-48 | The properties text and versions do not depend on `ns`; the name does, injectively |
| Stacks.ParseSubnetInfo | infra/lib/stacks/msk-stack.ts:71-81 | Construct id `Subnet-`+subnet id; the id holds no comma; the zone is defined if and only if the entry holds a comma |
| Stacks.SubnetInfoWithoutComma | infra/lib/stacks/msk-stack.ts:71-79 | An entry without a comma is all subnet id with an undefined zone, not an error |
| Stacks.SubnetInfoFields | infra/lib/stacks/msk-stack.ts:71-79 | `id,az` gives that id and zone, and any further fields are ignored |
| Stacks.MskStack.SelectSubnets | infra/lib/stacks/msk-stack.ts:62-84 | The loop builds exactly `Placement` of the optional list |
| Stacks.PlacementForms | infra/lib/stacks/msk-stack.ts:63-84 | Exactly one of the two forms; no list gives PRIVATE_WITH_EGRESS; a list gives one subnet per entry, in order, with the entry's first field as id |
| Stacks.EmptySubnetListIsExplicit | infra/lib/stacks/msk-stack.ts:64-83 | A present but empty list gives the explicit form with no subnet |
| Msk.DefaultSecurityGroup | infra/lib/stacks/msk-stack.ts:56-58 | A new group with no `allowAllOutbound` option allows all outbound traffic and no inbound traffic |
| Msk.AllowInternally | infra/lib/stacks/msk-stack.ts:60 | `allowInternally` adds inbound traffic from the group's own members on that port, and an outbound rule to them only when outbound traffic is not already all allowed; name and id are unchanged |
| Stacks.NewSecurityGroup | infra/lib/stacks/msk-stack.ts:56-60 | Name `ns`+`MskSecurityGroup`; inbound rules admit exactly the group's own members on all ports; outbound rules admit all traffic to any IPv4 address, the library default |
| Stacks.StorageScaling | infra/lib/stacks/msk-stack.ts:116-130 | Capacity 1..4096 on the cluster's broker storage; the policy tracks storage utilisation at 75, scales out exactly above 75, and never scales in |
| Stacks.SecurityGroupOutput | infra/lib/stacks/msk-stack.ts:132-135 | Export `ns`+`MskSecurityGroupId` carrying the security-group id |
| Stacks.ClusterName | infra/lib/stacks/msk-stack.ts:87 | Same length as `ns`, no upper-case letter |
| Stacks.DerivedNamesDetermineNs | infra/lib/stacks/msk-stack.ts:37-135 | Security-group, policy, export and configuration names are equal if and only if the `ns` values are |
| Stacks.ClusterNameIgnoresCase | infra/lib/stacks/msk-stack.ts:87 | `Dev` and `dev` give the same cluster name but different security-group names; the topic is the cluster name + `-kafka-notification` |
| Stacks.MskStack.NewCluster | infra/lib/stacks/msk-stack.ts:50-138 | Security group, cluster (name, version 2.8.1, `numberOfBrokerNodes` 1 (brokers per availability zone), placement, that group only, per-topic-per-partition monitoring with both exporters, given configuration), storage target and policy on the cluster ARN, output |
| Stacks.MskStack.NewMonitoring | infra/lib/stacks/msk-stack.ts:27-30 | A fresh monitoring construct on the cluster with 3 brokers: one topic, the metrics of 3 brokers, the alarm list `BrokerAlarms` + `ApplicationAlarms` of those metrics (11 alarms, since there is no consumer group), and one dashboard of five widgets |
| Stacks.MskStack.constructor | infra/lib/stacks/msk-stack.ts:18-31 | Configuration first; cluster with configuration revision 1 on its ARN; a fresh monitoring construct on that cluster with 3 brokers, declaring its 11 alarms and one five-widget dashboard |
| Stacks.MonitoredBrokersApart | infra/lib/stacks/msk-stack.ts:27-30 | The cluster declares `numberOfBrokerNodes: 1` (brokers per availability zone) while monitoring covers 3 brokers, each metric tagged with the cluster's own name |

## Left out

- CDK construct instantiation and CloudFormation synthesis are not modelled. Constructs are records, and deploy-time attributes (ARNs, the security-group id) are `Ref` values.
- Construct-id clashes are not modelled. Two subnet entries with the same id, which would fail at synthesis, are accepted by the model.
- `ns` comes from the CDK context (`tryGetContext`) and the configuration loader. Here it is a parameter. infra/config/loader.ts and infra/bin/infra.ts are not part of this model.
- Some settings are passed through to AWS with nothing to decide: the VPC prop, instance type m5.xlarge, EBS size 1000, the log group, its two-week retention, and the removal policies.
- Strings.ToLower: covers only ASCII letters, not Unicode case mapping.
- Stacks.ParseProperties: reads `key=value` lines and skips lines without `=`. It does not trim whitespace, handle comments or continuation lines as Java properties do; the configuration text needs none of them.
- CloudWatch evaluation is not modelled. `Breaches` compares one datapoint with the threshold, and evaluation periods, missing data and statistics aggregation are not simulated.
- Stacks.Direction: simplifies target tracking to the direction of the next scaling step. It does not compute capacities or cooldowns.
- Widget heights are not modelled. A widget that wraps starts at the row's current height, below every widget placed so far, so `CloudWatch.Place` counts grid lines within a row instead of measuring them. The stacking of rows in grid units is not computed.
- `brokers: number` is modelled as a `nat` in `Monitoring.DashboardProps`. The source's `i < props.brokers` loops would give ⌈brokers⌉ entries per family for a fractional count and none for a negative one. The only caller passes 3.
- Stacks.ClusterFor: three behaviours of the MSK cluster construct are not modelled. It multiplies `numberOfBrokerNodes` by the number of selected availability zones, refuses fewer than two subnets, and reads every selected subnet's availability zone. So a present but empty subnet list, or an entry with no comma, passes the stack code but fails when the stack is synthesized.
- Security-group rules keep only the peer (the group itself or any IPv4 address) and an all-traffic port. IPv6 egress, rule descriptions and the warning the library emits when it drops a redundant outbound rule are not modelled.
- Display-only metric options are not modelled. No widget or metric sets labels or colours.


/**
 * The `MskDashboard` construct: from a cluster and a broker count it builds the
 * cluster's metric set, a lag metric per consumer group, one alarm per metric
 * (every alarm notifying one topic), and a dashboard charting the same metrics.
 *
 * The first half states what the construct must produce, as functions and
 * predicates over plain values, with the lemmas that say what those values
 * mean; the class at the end declares them step by step the way the construct
 * does and is proved to produce exactly them.
 */
module Monitoring {
  import opened Strings
  import opened JsMaps
  import opened CloudWatch
  import opened Msk

  datatype DashboardProps = DashboardProps(cluster: Cluster, brokers: nat)

  datatype MskMetrics = MskMetrics(
    activeControllerCount: Metric,
    offlinePartitionsCount: Metric,
    underReplicatedPartitions: seq<Metric>,
    cpuUser: seq<Metric>,
    diskUsed: seq<Metric>)

  datatype ConsumerGroup = ConsumerGroup(id: string, topic: string)

  /** Lag metrics keyed by consumer-group id. */
  datatype AppMetrics = AppMetrics(maxOffsetLag: InsertionMap<Metric>)

  /** The consumer groups the construct watches: its list is written out empty. */
  const ConsumerGroups: seq<ConsumerGroup> := []

  const KafkaNamespace: string := "AWS/Kafka"

  // ===========================================================================
  // Notification topic
  // ===========================================================================

  /** Display and topic name of the notification topic: `ns` lower-cased plus a fixed tail. */
  function TopicName(ns: string): (name: string)
    ensures |name| == |ns| + |"-kafka-notification"|
    ensures name[|ns|..] == "-kafka-notification"
    ensures forall i :: 0 <= i < |name| ==> !IsUpper(name[i])
  {
    ToLower(ns) + "-kafka-notification"
  }

  // ===========================================================================
  // Cluster and broker metrics
  // ===========================================================================

  /** A cluster-wide metric: summed over one minute, dimensioned by the cluster name only. */
  ghost predicate IsClusterMetric(x: Metric, metricName: string, clusterName: string) {
    && x.namespace == KafkaNamespace
    && x.metricName == metricName
    && x.period == Minutes(1)
    && x.statistic == Sum
    && x.dimensionsMap == map["Cluster Name" := clusterName]
  }

  /** The metric of one broker: dimensioned by the cluster name and the broker's decimal index. */
  ghost predicate IsBrokerMetric(x: Metric, metricName: string, statistic: Statistic, clusterName: string, broker: nat) {
    && x.namespace == KafkaNamespace
    && x.metricName == metricName
    && x.period == Minutes(1)
    && x.statistic == statistic
    && x.dimensionsMap == map["Cluster Name" := clusterName, "Broker ID" := NatToString(broker)]
  }

  /** One metric per broker index 0 .. brokers-1, in index order. */
  ghost predicate IsBrokerFamily(ms: seq<Metric>, metricName: string, statistic: Statistic, clusterName: string, brokers: nat) {
    && |ms| == brokers
    && forall i :: 0 <= i < |ms| ==> IsBrokerMetric(ms[i], metricName, statistic, clusterName, i)
  }

  /** The metric set of a cluster with `brokers` brokers. */
  ghost predicate IsMskMetrics(m: MskMetrics, clusterName: string, brokers: nat) {
    && IsClusterMetric(m.activeControllerCount, "ActiveControllerCount", clusterName)
    && IsClusterMetric(m.offlinePartitionsCount, "OfflinePartitionsCount", clusterName)
    && IsBrokerFamily(m.underReplicatedPartitions, "UnderReplicatedPartitions", Sum, clusterName, brokers)
    && IsBrokerFamily(m.cpuUser, "CpuUser", Average, clusterName, brokers)
    && IsBrokerFamily(m.diskUsed, "KafkaDataLogsDiskUsed", Average, clusterName, brokers)
  }

  /** Building the metric set twice from the same inputs gives the same metrics. */
  lemma MskMetricsDetermined(m1: MskMetrics, m2: MskMetrics, clusterName: string, brokers: nat)
    requires IsMskMetrics(m1, clusterName, brokers)
    requires IsMskMetrics(m2, clusterName, brokers)
    ensures m1 == m2
  {
    assert m1.underReplicatedPartitions == m2.underReplicatedPartitions;
    assert m1.cpuUser == m2.cpuUser;
    assert m1.diskUsed == m2.diskUsed;
  }

  /** No two brokers share a metric: their `Broker ID` dimensions differ. */
  lemma BrokerMetricsDistinct(ms: seq<Metric>, metricName: string, statistic: Statistic, clusterName: string, brokers: nat)
    requires IsBrokerFamily(ms, metricName, statistic, clusterName, brokers)
    ensures forall i, j :: 0 <= i < j < |ms| ==> ms[i] != ms[j]
  {
    forall i, j | 0 <= i < j < |ms|
      ensures ms[i] != ms[j]
    {
      NatToStringInjective(i, j);
      assert ms[i].dimensionsMap["Broker ID"] != ms[j].dimensionsMap["Broker ID"];
    }
  }

  // ===========================================================================
  // Consumer-group lag metrics
  // ===========================================================================

  /** The lag metric of one consumer group on one topic. */
  function LagMetric(clusterName: string, id: string, topic: string): Metric {
    Metric(KafkaNamespace, "MaxOffsetLag", Minutes(1), Maximum,
      map["Cluster Name" := clusterName, "Consumer Group" := id, "Topic" := topic])
  }

  function Ids(groups: seq<ConsumerGroup>): seq<string> {
    seq(|groups|, j requires 0 <= j < |groups| => groups[j].id)
  }

  /** The lag map after setting each group's metric under its id, in list order. */
  function LagMap(clusterName: string, groups: seq<ConsumerGroup>): (lag: InsertionMap<Metric>)
    ensures lag.Valid()
    decreases |groups|
  {
    if groups == [] then Empty()
    else
      var last := groups[|groups| - 1];
      LagMap(clusterName, groups[..|groups| - 1]).Set(last.id, LagMetric(clusterName, last.id, last.topic))
  }

  /** Position of the first occurrence of `k` in `ids`. */
  function FirstIndex(ids: seq<string>, k: string): (r: nat)
    requires k in ids
    ensures r < |ids| && ids[r] == k
    ensures forall j :: 0 <= j < r ==> ids[j] != k
  {
    if ids[0] == k then 0 else 1 + FirstIndex(ids[1..], k)
  }

  /** Group `j` is the last one in the list with its id. */
  ghost predicate IsLastOccurrence(groups: seq<ConsumerGroup>, j: int) {
    && 0 <= j < |groups|
    && forall j' :: j < j' < |groups| ==> groups[j'].id != groups[j].id
  }

  /** The lag map has an entry for exactly the ids that occur in the list. */
  lemma {:induction false} LagMapKeys(clusterName: string, groups: seq<ConsumerGroup>)
    ensures forall k :: k in LagMap(clusterName, groups).keys <==> k in Ids(groups)
    decreases |groups|
  {
    if groups != [] {
      var p := groups[..|groups| - 1];
      LagMapKeys(clusterName, p);
      assert Ids(groups) == Ids(p) + [groups[|groups| - 1].id];
    }
  }

  lemma FirstIndexAppend(ids: seq<string>, x: string, k: string)
    requires k in ids
    ensures FirstIndex(ids + [x], k) == FirstIndex(ids, k)
  {
    var a := FirstIndex(ids, k);
    assert (ids + [x])[a] == k;
  }

  /** `keys` are ids of `ids`, listed in the order of their first occurrence there. */
  ghost predicate InFirstOccurrenceOrder(keys: seq<string>, ids: seq<string>) {
    && (forall i :: 0 <= i < |keys| ==> keys[i] in ids)
    && (forall i, j :: 0 <= i < j < |keys| ==> FirstIndex(ids, keys[i]) < FirstIndex(ids, keys[j]))
  }

  /**
   * The lag map lists its ids in order of their first occurrence in the list:
   * a repeated id keeps the position it got when it was first set.
   */
  lemma {:induction false} LagMapOrder(clusterName: string, groups: seq<ConsumerGroup>)
    ensures InFirstOccurrenceOrder(LagMap(clusterName, groups).keys, Ids(groups))
    decreases |groups|
  {
    if groups != [] {
      var p := groups[..|groups| - 1];
      var x := groups[|groups| - 1];
      LagMapOrder(clusterName, p);
      LagMapKeys(clusterName, p);
      var ids, pids := Ids(groups), Ids(p);
      assert ids == pids + [x.id];
      var before := LagMap(clusterName, p).keys;
      var keys := LagMap(clusterName, groups).keys;
      forall i | 0 <= i < |before|
        ensures before[i] in pids && FirstIndex(ids, before[i]) == FirstIndex(pids, before[i])
      {
        FirstIndexAppend(pids, x.id, before[i]);
      }
      if x.id in before {
        assert keys == before;
      } else {
        assert keys == before + [x.id];
        assert x.id !in pids;
        assert FirstIndex(ids, x.id) == |pids|;
        OrderExtend(ids, before, x.id);
      }
    }
  }

  /** Appending a key first seen after all earlier keys keeps the order. */
  lemma OrderExtend(ids: seq<string>, before: seq<string>, k: string)
    requires k in ids && FirstIndex(ids, k) == |ids| - 1
    requires forall i :: 0 <= i < |before| ==> before[i] in ids && FirstIndex(ids, before[i]) < |ids| - 1
    requires InFirstOccurrenceOrder(before, ids)
    ensures InFirstOccurrenceOrder(before + [k], ids)
  {
    var keys := before + [k];
    forall i, j | 0 <= i < j < |keys|
      ensures FirstIndex(ids, keys[i]) < FirstIndex(ids, keys[j])
    {
      assert keys[i] == before[i];
      if j < |before| {
        assert keys[j] == before[j];
      }
    }
  }

  /** The value under each id is the metric of the last group in the list with that id. */
  lemma {:induction false} LagMapLastWins(clusterName: string, groups: seq<ConsumerGroup>)
    ensures forall j :: IsLastOccurrence(groups, j) ==>
      && groups[j].id in LagMap(clusterName, groups).values
      && LagMap(clusterName, groups).values[groups[j].id] == LagMetric(clusterName, groups[j].id, groups[j].topic)
    decreases |groups|
  {
    if groups != [] {
      var p := groups[..|groups| - 1];
      var x := groups[|groups| - 1];
      LagMapLastWins(clusterName, p);
      forall j | IsLastOccurrence(groups, j)
        ensures groups[j].id in LagMap(clusterName, groups).values
        ensures LagMap(clusterName, groups).values[groups[j].id] == LagMetric(clusterName, groups[j].id, groups[j].topic)
      {
        if j < |p| {
          assert groups[|groups| - 1].id != groups[j].id;
          assert groups[j] == p[j];
          assert IsLastOccurrence(p, j);
        }
      }
    }
  }

  // ===========================================================================
  // Alarms
  // ===========================================================================

  datatype AlarmKind =
    | ActiveControllerCount
    | OfflinePartitionsCount
    | UnderReplicatedPartitions
    | CpuUser
    | DiskUsed
    | MaxOffsetLag

  datatype AlarmPolicy = AlarmPolicy(comparisonOperator: ComparisonOperator, threshold: int, evaluationPeriods: nat)

  /** The fixed alarm policy of each metric kind; nothing in it depends on the broker count. */
  function Policy(kind: AlarmKind): AlarmPolicy {
    match kind
    case ActiveControllerCount => AlarmPolicy(LessThanThreshold, 1, 3)
    case OfflinePartitionsCount => AlarmPolicy(GreaterThanThreshold, 0, 3)
    case UnderReplicatedPartitions => AlarmPolicy(GreaterThanThreshold, 0, 3)
    case CpuUser => AlarmPolicy(GreaterThanThreshold, 60, 3)
    case DiskUsed => AlarmPolicy(GreaterThanOrEqualToThreshold, 85, 3)
    case MaxOffsetLag => AlarmPolicy(GreaterThanOrEqualToThreshold, 100, 3)
  }

  predicate Fires(kind: AlarmKind, value: real) {
    Breaches(Policy(kind).comparisonOperator, Policy(kind).threshold, value)
  }

  /** What each alarm kind fires on, and that every kind waits three evaluation periods. */
  lemma PolicyFiresWhen(value: real)
    ensures Fires(ActiveControllerCount, value) <==> value < 1.0
    ensures Fires(OfflinePartitionsCount, value) <==> value > 0.0
    ensures Fires(UnderReplicatedPartitions, value) <==> value > 0.0
    ensures Fires(CpuUser, value) <==> value > 60.0
    ensures Fires(DiskUsed, value) <==> value >= 85.0
    ensures Fires(MaxOffsetLag, value) <==> value >= 100.0
    ensures forall kind :: Policy(kind).evaluationPeriods == 3
  {
  }

  /** The alarm name between `ns` and the broker index or group id. */
  function NameStem(kind: AlarmKind): string {
    match kind
    case ActiveControllerCount => "KafkaActiveControllerCount"
    case OfflinePartitionsCount => "KafkaOfflinePartitionsCount"
    case UnderReplicatedPartitions => "KafkaUnderReplicatedPartitions"
    case CpuUser => "KafkaCpuUser"
    case DiskUsed => "KafkaDataLogsDiskUsed"
    case MaxOffsetLag => "KafkaMaxOffsetLag-"
  }

  /** The construct id before the broker index or group id. */
  function IdStem(kind: AlarmKind): string {
    match kind
    case ActiveControllerCount => "ActiveControllerAlarm"
    case OfflinePartitionsCount => "OfflinePartitionsCountAlarm"
    case UnderReplicatedPartitions => "UnderReplicatedPartitionsAlarm"
    case CpuUser => "CpuUser"
    case DiskUsed => "KafkaDataLogsDiskUsed"
    case MaxOffsetLag => "KafkaMaxOffsetLag-"
  }

  /** One alarm to declare: its kind, the text after the stems (index, group id or nothing), its metric. */
  datatype AlarmEntry = AlarmEntry(kind: AlarmKind, suffix: string, metric: Metric)

  function MakeAlarm(ns: string, e: AlarmEntry, topic: Topic): Alarm {
    var p := Policy(e.kind);
    Alarm(IdStem(e.kind) + e.suffix, ns + NameStem(e.kind) + e.suffix, e.metric,
      p.comparisonOperator, p.threshold, p.evaluationPeriods, [SnsAction(topic)])
  }

  function Declare(ns: string, entries: seq<AlarmEntry>, topic: Topic): seq<Alarm> {
    seq(|entries|, i requires 0 <= i < |entries| => MakeAlarm(ns, entries[i], topic))
  }

  function FamilyEntries(kind: AlarmKind, ms: seq<Metric>): seq<AlarmEntry> {
    seq(|ms|, i requires 0 <= i < |ms| => AlarmEntry(kind, NatToString(i), ms[i]))
  }

  function ScalarEntries(m: MskMetrics): seq<AlarmEntry> {
    [AlarmEntry(ActiveControllerCount, "", m.activeControllerCount),
     AlarmEntry(OfflinePartitionsCount, "", m.offlinePartitionsCount)]
  }

  function BrokerEntries(m: MskMetrics): seq<AlarmEntry> {
    ScalarEntries(m)
    + FamilyEntries(UnderReplicatedPartitions, m.underReplicatedPartitions)
    + FamilyEntries(CpuUser, m.cpuUser)
    + FamilyEntries(DiskUsed, m.diskUsed)
  }

  function ApplicationEntries(lag: InsertionMap<Metric>): seq<AlarmEntry>
    requires lag.Valid()
  {
    seq(|lag.keys|, i requires 0 <= i < |lag.keys| => AlarmEntry(MaxOffsetLag, lag.keys[i], lag.values[lag.keys[i]]))
  }

  /** The alarms on the cluster and broker metrics, in declaration order. */
  function BrokerAlarms(ns: string, m: MskMetrics, topic: Topic): seq<Alarm> {
    Declare(ns, BrokerEntries(m), topic)
  }

  /** The alarms on the lag metrics, in the lag map's order. */
  function ApplicationAlarms(ns: string, a: AppMetrics, topic: Topic): seq<Alarm>
    requires a.maxOffsetLag.Valid()
  {
    Declare(ns, ApplicationEntries(a.maxOffsetLag), topic)
  }

  /** Every metric of the bundle, in the order the construct alarms on them. */
  function AllMetrics(m: MskMetrics, a: AppMetrics): seq<Metric>
    requires a.maxOffsetLag.Valid()
  {
    [m.activeControllerCount, m.offlinePartitionsCount]
    + m.underReplicatedPartitions + m.cpuUser + m.diskUsed
    + a.maxOffsetLag.Values()
  }

  function Repeat(kind: AlarmKind, n: nat): seq<AlarmKind> {
    seq(n, _ => kind)
  }

  /** The kind of each metric of `AllMetrics`, position by position. */
  function AllKinds(m: MskMetrics, a: AppMetrics): seq<AlarmKind> {
    [ActiveControllerCount, OfflinePartitionsCount]
    + Repeat(UnderReplicatedPartitions, |m.underReplicatedPartitions|)
    + Repeat(CpuUser, |m.cpuUser|)
    + Repeat(DiskUsed, |m.diskUsed|)
    + Repeat(MaxOffsetLag, |a.maxOffsetLag.keys|)
  }

  lemma DeclareAppend(ns: string, e1: seq<AlarmEntry>, e2: seq<AlarmEntry>, topic: Topic)
    ensures Declare(ns, e1 + e2, topic) == Declare(ns, e1, topic) + Declare(ns, e2, topic)
  {
  }

  lemma DeclarePrefixStep(ns: string, es: seq<AlarmEntry>, i: nat, topic: Topic)
    requires i < |es|
    ensures Declare(ns, es[..i + 1], topic) == Declare(ns, es[..i], topic) + [MakeAlarm(ns, es[i], topic)]
  {
  }

  lemma DeclareWhole(ns: string, es: seq<AlarmEntry>, topic: Topic)
    ensures Declare(ns, es[..|es|], topic) == Declare(ns, es, topic)
  {
    assert es[..|es|] == es;
  }

  /** Declaring one more alarm of a broker family appends the alarm for the next broker index. */
  lemma FamilyStep(ns: string, kind: AlarmKind, ms: seq<Metric>, i: nat, topic: Topic)
    requires i < |ms|
    ensures var es := FamilyEntries(kind, ms);
      Declare(ns, es[..i + 1], topic) == Declare(ns, es[..i], topic)
        + [Alarm(IdStem(kind) + NatToString(i), ns + NameStem(kind) + NatToString(i), ms[i],
                 Policy(kind).comparisonOperator, Policy(kind).threshold, Policy(kind).evaluationPeriods,
                 [SnsAction(topic)])]
  {
    DeclarePrefixStep(ns, FamilyEntries(kind, ms), i, topic);
  }

  /** The broker alarms, family by family. */
  lemma BrokerAlarmsParts(ns: string, m: MskMetrics, topic: Topic)
    ensures BrokerAlarms(ns, m, topic) == Declare(ns, ScalarEntries(m), topic)
      + Declare(ns, FamilyEntries(UnderReplicatedPartitions, m.underReplicatedPartitions), topic)
      + Declare(ns, FamilyEntries(CpuUser, m.cpuUser), topic)
      + Declare(ns, FamilyEntries(DiskUsed, m.diskUsed), topic)
  {
    var e0 := ScalarEntries(m);
    var e1 := FamilyEntries(UnderReplicatedPartitions, m.underReplicatedPartitions);
    var e2 := FamilyEntries(CpuUser, m.cpuUser);
    var e3 := FamilyEntries(DiskUsed, m.diskUsed);
    DeclareAppend(ns, e0, e1, topic);
    DeclareAppend(ns, e0 + e1, e2, topic);
    DeclareAppend(ns, e0 + e1 + e2, e3, topic);
  }

  /** The two cluster-wide alarms. */
  lemma ScalarAlarms(ns: string, m: MskMetrics, topic: Topic)
    ensures Declare(ns, ScalarEntries(m), topic) == [
      Alarm("ActiveControllerAlarm", ns + "KafkaActiveControllerCount", m.activeControllerCount,
            LessThanThreshold, 1, 3, [SnsAction(topic)]),
      Alarm("OfflinePartitionsCountAlarm", ns + "KafkaOfflinePartitionsCount", m.offlinePartitionsCount,
            GreaterThanThreshold, 0, 3, [SnsAction(topic)])]
  {
    assert IdStem(ActiveControllerCount) + "" == "ActiveControllerAlarm";
    assert ns + NameStem(ActiveControllerCount) + "" == ns + "KafkaActiveControllerCount";
    assert IdStem(OfflinePartitionsCount) + "" == "OfflinePartitionsCountAlarm";
    assert ns + NameStem(OfflinePartitionsCount) + "" == ns + "KafkaOfflinePartitionsCount";
  }

  function EntryMetrics(es: seq<AlarmEntry>): seq<Metric> {
    seq(|es|, i requires 0 <= i < |es| => es[i].metric)
  }

  function EntryKinds(es: seq<AlarmEntry>): seq<AlarmKind> {
    seq(|es|, i requires 0 <= i < |es| => es[i].kind)
  }

  lemma EntriesAppend(e1: seq<AlarmEntry>, e2: seq<AlarmEntry>)
    ensures EntryMetrics(e1 + e2) == EntryMetrics(e1) + EntryMetrics(e2)
    ensures EntryKinds(e1 + e2) == EntryKinds(e1) + EntryKinds(e2)
  {
  }

  lemma AllEntries(m: MskMetrics, a: AppMetrics)
    requires a.maxOffsetLag.Valid()
    ensures EntryMetrics(BrokerEntries(m) + ApplicationEntries(a.maxOffsetLag)) == AllMetrics(m, a)
    ensures EntryKinds(BrokerEntries(m) + ApplicationEntries(a.maxOffsetLag)) == AllKinds(m, a)
  {
    var e0 := ScalarEntries(m);
    var e1 := FamilyEntries(UnderReplicatedPartitions, m.underReplicatedPartitions);
    var e2 := FamilyEntries(CpuUser, m.cpuUser);
    var e3 := FamilyEntries(DiskUsed, m.diskUsed);
    var e4 := ApplicationEntries(a.maxOffsetLag);
    EntriesAppend(e0, e1);
    EntriesAppend(e0 + e1, e2);
    EntriesAppend(e0 + e1 + e2, e3);
    EntriesAppend(e0 + e1 + e2 + e3, e4);
    assert EntryMetrics(e0) == [m.activeControllerCount, m.offlinePartitionsCount];
    assert EntryMetrics(e1) == m.underReplicatedPartitions;
    assert EntryMetrics(e2) == m.cpuUser;
    assert EntryMetrics(e3) == m.diskUsed;
    assert EntryMetrics(e4) == a.maxOffsetLag.Values();
    assert EntryKinds(e0) == [ActiveControllerCount, OfflinePartitionsCount];
    assert EntryKinds(e1) == Repeat(UnderReplicatedPartitions, |m.underReplicatedPartitions|);
    assert EntryKinds(e2) == Repeat(CpuUser, |m.cpuUser|);
    assert EntryKinds(e3) == Repeat(DiskUsed, |m.diskUsed|);
    assert EntryKinds(e4) == Repeat(MaxOffsetLag, |a.maxOffsetLag.keys|);
  }

  /**
   * One alarm per metric of the bundle, in the bundle's order: controller,
   * offline partitions, under-replicated partitions, CPU and disk per broker,
   * then the lag metrics in map order. Each carries its kind's policy and a
   * single action notifying `topic`.
   */
  lemma AlarmsFollowMetrics(ns: string, m: MskMetrics, a: AppMetrics, topic: Topic)
    requires a.maxOffsetLag.Valid()
    ensures var alarms := BrokerAlarms(ns, m, topic) + ApplicationAlarms(ns, a, topic);
      && |alarms| == |AllMetrics(m, a)| == |AllKinds(m, a)|
      && forall p :: 0 <= p < |alarms| ==>
           && alarms[p].metric == AllMetrics(m, a)[p]
           && Policy(AllKinds(m, a)[p])
              == AlarmPolicy(alarms[p].comparisonOperator, alarms[p].threshold, alarms[p].evaluationPeriods)
           && alarms[p].alarmActions == [SnsAction(topic)]
  {
    var es := BrokerEntries(m) + ApplicationEntries(a.maxOffsetLag);
    DeclareAppend(ns, BrokerEntries(m), ApplicationEntries(a.maxOffsetLag), topic);
    AllEntries(m, a);
    var alarms := Declare(ns, es, topic);
    forall p | 0 <= p < |alarms|
      ensures alarms[p].metric == AllMetrics(m, a)[p]
      ensures Policy(AllKinds(m, a)[p])
              == AlarmPolicy(alarms[p].comparisonOperator, alarms[p].threshold, alarms[p].evaluationPeriods)
    {
      assert EntryMetrics(es)[p] == es[p].metric;
      assert EntryKinds(es)[p] == es[p].kind;
    }
  }

  /** Two alarms per cluster, three per broker metric family entry, one per lag metric. */
  lemma AlarmCount(ns: string, m: MskMetrics, a: AppMetrics, topic: Topic)
    requires a.maxOffsetLag.Valid()
    ensures |BrokerAlarms(ns, m, topic) + ApplicationAlarms(ns, a, topic)|
      == 2 + |m.underReplicatedPartitions| + |m.cpuUser| + |m.diskUsed| + |a.maxOffsetLag.keys|
  {
  }

  ghost predicate DistinctKeys(es: seq<AlarmEntry>) {
    forall p, q :: 0 <= p < q < |es| ==> es[p].kind != es[q].kind || es[p].suffix != es[q].suffix
  }

  /** No two alarms share a name, and no two share a construct id. */
  ghost predicate DistinctNames(alarms: seq<Alarm>) {
    forall p, q :: 0 <= p < q < |alarms| ==>
      alarms[p].alarmName != alarms[q].alarmName && alarms[p].constructId != alarms[q].constructId
  }

  /** The stems of different kinds differ in their sixth letter. */
  lemma NameStemTags(k1: AlarmKind, k2: AlarmKind)
    requires k1 != k2
    ensures 6 <= |NameStem(k1)| && 6 <= |NameStem(k2)| && NameStem(k1)[5] != NameStem(k2)[5]
  {
  }

  /** The construct-id stems of different kinds differ in their first or sixth letter. */
  lemma IdStemTags(k1: AlarmKind, k2: AlarmKind)
    requires k1 != k2
    ensures 6 <= |IdStem(k1)| && 6 <= |IdStem(k2)|
    ensures IdStem(k1)[0] != IdStem(k2)[0] || IdStem(k1)[5] != IdStem(k2)[5]
  {
  }

  /** Different kinds or different suffixes give different names and construct ids. */
  lemma MakeAlarmInjective(ns: string, e1: AlarmEntry, e2: AlarmEntry, topic: Topic)
    requires e1.kind != e2.kind || e1.suffix != e2.suffix
    ensures MakeAlarm(ns, e1, topic).alarmName != MakeAlarm(ns, e2, topic).alarmName
    ensures MakeAlarm(ns, e1, topic).constructId != MakeAlarm(ns, e2, topic).constructId
  {
    AlarmNameInjective(ns, e1, e2);
    ConstructIdInjective(e1, e2);
  }

  lemma AlarmNameInjective(ns: string, e1: AlarmEntry, e2: AlarmEntry)
    requires e1.kind != e2.kind || e1.suffix != e2.suffix
    ensures ns + NameStem(e1.kind) + e1.suffix != ns + NameStem(e2.kind) + e2.suffix
  {
    var n1, n2 := ns + NameStem(e1.kind) + e1.suffix, ns + NameStem(e2.kind) + e2.suffix;
    if e1.kind != e2.kind {
      NameStemTags(e1.kind, e2.kind);
      assert n1[|ns| + 5] == NameStem(e1.kind)[5] && n2[|ns| + 5] == NameStem(e2.kind)[5];
    } else {
      var s := ns + NameStem(e1.kind);
      assert n1[|s|..] == e1.suffix && n2[|s|..] == e2.suffix;
    }
  }

  lemma ConstructIdInjective(e1: AlarmEntry, e2: AlarmEntry)
    requires e1.kind != e2.kind || e1.suffix != e2.suffix
    ensures IdStem(e1.kind) + e1.suffix != IdStem(e2.kind) + e2.suffix
  {
    var i1, i2 := IdStem(e1.kind) + e1.suffix, IdStem(e2.kind) + e2.suffix;
    if e1.kind != e2.kind {
      IdStemTags(e1.kind, e2.kind);
      assert i1[0] == IdStem(e1.kind)[0] && i1[5] == IdStem(e1.kind)[5];
      assert i2[0] == IdStem(e2.kind)[0] && i2[5] == IdStem(e2.kind)[5];
    } else {
      assert i1[|IdStem(e1.kind)|..] == e1.suffix && i2[|IdStem(e1.kind)|..] == e2.suffix;
    }
  }

  lemma DistinctKeysAppend(e1: seq<AlarmEntry>, e2: seq<AlarmEntry>)
    requires DistinctKeys(e1) && DistinctKeys(e2)
    requires forall p, q :: 0 <= p < |e1| && 0 <= q < |e2| ==> e1[p].kind != e2[q].kind
    ensures DistinctKeys(e1 + e2)
  {
    var es := e1 + e2;
    forall p, q | 0 <= p < q < |es|
      ensures es[p].kind != es[q].kind || es[p].suffix != es[q].suffix
    {
      if q < |e1| {
        assert es[p] == e1[p] && es[q] == e1[q];
      } else if |e1| <= p {
        assert es[p] == e2[p - |e1|] && es[q] == e2[q - |e1|];
      } else {
        assert es[p] == e1[p] && es[q] == e2[q - |e1|];
      }
    }
  }

  lemma FamilyKeysDistinct(kind: AlarmKind, ms: seq<Metric>)
    ensures DistinctKeys(FamilyEntries(kind, ms))
  {
    var es := FamilyEntries(kind, ms);
    forall p, q | 0 <= p < q < |es|
      ensures es[p].kind != es[q].kind || es[p].suffix != es[q].suffix
    {
      NatToStringInjective(p, q);
    }
  }

  /**
   * Every alarm of a run has its own name and its own construct id: the stem
   * tells the kinds apart, the decimal index the brokers, and the map key the
   * consumer groups.
   */
  lemma AlarmNamesDistinct(ns: string, m: MskMetrics, a: AppMetrics, topic: Topic)
    requires a.maxOffsetLag.Valid()
    ensures DistinctNames(BrokerAlarms(ns, m, topic) + ApplicationAlarms(ns, a, topic))
  {
    var e0 := ScalarEntries(m);
    var e1 := FamilyEntries(UnderReplicatedPartitions, m.underReplicatedPartitions);
    var e2 := FamilyEntries(CpuUser, m.cpuUser);
    var e3 := FamilyEntries(DiskUsed, m.diskUsed);
    var e4 := ApplicationEntries(a.maxOffsetLag);
    FamilyKeysDistinct(UnderReplicatedPartitions, m.underReplicatedPartitions);
    FamilyKeysDistinct(CpuUser, m.cpuUser);
    FamilyKeysDistinct(DiskUsed, m.diskUsed);
    DistinctKeysAppend(e0, e1);
    DistinctKeysAppend(e0 + e1, e2);
    DistinctKeysAppend(e0 + e1 + e2, e3);
    DistinctKeysAppend(e0 + e1 + e2 + e3, e4);
    var es := e0 + e1 + e2 + e3 + e4;
    DeclareAppend(ns, BrokerEntries(m), e4, topic);
    var alarms := Declare(ns, es, topic);
    forall p, q | 0 <= p < q < |alarms|
      ensures alarms[p].alarmName != alarms[q].alarmName && alarms[p].constructId != alarms[q].constructId
    {
      MakeAlarmInjective(ns, es[p], es[q], topic);
    }
  }

  // ===========================================================================
  // Dashboard layout
  // ===========================================================================

  /** The row of the first `addWidgets` call: the cluster metrics and the three broker families. */
  function BrokerRow(m: MskMetrics): seq<Widget> {
    [SingleValueWidget("ActiveControllerCount", [m.activeControllerCount], 4),
     GraphWidget("OfflinePartitionsCount", [m.offlinePartitionsCount], 4),
     GraphWidget("UnderReplicatedPartitions", m.underReplicatedPartitions, 16),
     GraphWidget("CPU User", m.cpuUser, 12),
     GraphWidget("Disk Used", m.diskUsed, 12)]
  }

  /** The rows the dashboard receives; the lag row only when there is a lag metric. */
  function DashboardRows(m: MskMetrics, a: AppMetrics): seq<seq<Widget>>
    requires a.maxOffsetLag.Valid()
  {
    var lag := a.maxOffsetLag.Values();
    [BrokerRow(m)] + (if |lag| > 0 then [[GraphWidget("MaxOffsetLag", lag, 12)]] else [])
  }

  function Flatten(rows: seq<seq<Widget>>): seq<Widget> {
    if rows == [] then [] else rows[0] + Flatten(rows[1..])
  }

  lemma FlattenRows(rows: seq<seq<Widget>>)
    ensures |rows| == 1 ==> Flatten(rows) == rows[0]
    ensures |rows| == 2 ==> Flatten(rows) == rows[0] + rows[1]
  {
    if |rows| == 1 {
      assert rows[1..] == [];
    } else if |rows| == 2 {
      assert rows[1..][0] == rows[1] && rows[1..][1..] == [];
    }
  }

  function Widths(ws: seq<Widget>): seq<nat> {
    seq(|ws|, i requires 0 <= i < |ws| => ws[i].width)
  }

  function Titles(ws: seq<Widget>): seq<string> {
    seq(|ws|, i requires 0 <= i < |ws| => ws[i].title)
  }

  /** Everything the widgets chart, widget by widget. */
  function ChartedAll(ws: seq<Widget>): seq<Metric> {
    if ws == [] then [] else ws[0].Charted() + ChartedAll(ws[1..])
  }

  /** The widgets in display order: the broker row, then the lag graph if there is one. */
  lemma DashboardWidgets(m: MskMetrics, a: AppMetrics)
    requires a.maxOffsetLag.Valid()
    ensures var lag := a.maxOffsetLag.Values();
      Flatten(DashboardRows(m, a))
        == BrokerRow(m) + (if |lag| > 0 then [GraphWidget("MaxOffsetLag", lag, 12)] else [])
  {
    FlattenRows(DashboardRows(m, a));
  }

  /**
   * The dashboard has the five fixed widgets with their titles and widths, and a
   * sixth, the lag graph, exactly when the lag map is not empty.
   */
  lemma DashboardShape(m: MskMetrics, a: AppMetrics)
    requires a.maxOffsetLag.Valid()
    ensures var ws := Flatten(DashboardRows(m, a));
      var hasLag := a.maxOffsetLag.keys != [];
      && |ws| == (if hasLag then 6 else 5)
      && ws[0].SingleValueWidget?
      && (forall i :: 1 <= i < |ws| ==> ws[i].GraphWidget?)
      && Titles(ws) == ["ActiveControllerCount", "OfflinePartitionsCount", "UnderReplicatedPartitions",
                        "CPU User", "Disk Used"] + (if hasLag then ["MaxOffsetLag"] else [])
      && Widths(ws) == [4, 4, 16, 12, 12] + (if hasLag then [12] else [])
      && ((exists i :: 0 <= i < |ws| && ws[i].title == "MaxOffsetLag") <==> hasLag)
  {
    var ws := Flatten(DashboardRows(m, a));
    DashboardWidgets(m, a);
    var titles := ["ActiveControllerCount", "OfflinePartitionsCount", "UnderReplicatedPartitions",
                   "CPU User", "Disk Used"];
    assert Titles(BrokerRow(m)) == titles;
    if a.maxOffsetLag.keys != [] {
      assert ws[5].title == "MaxOffsetLag";
    } else {
      assert forall i :: 0 <= i < |ws| ==> ws[i].title == titles[i];
    }
  }

  /** The widths 4, 4, 16 | 12, 12 are placed as three widgets on one line and two on the next. */
  lemma BrokerWidthsLayout()
    ensures Layout([4, 4, 16, 12, 12])
      == [Position(0, 0), Position(0, 4), Position(0, 8), Position(1, 0), Position(1, 12)]
  {
    var ws: seq<nat> := [4, 4, 16, 12, 12];
    assert ws[1..] == [4, 16, 12, 12] && ws[2..] == [16, 12, 12];
    assert ws[3..] == [12, 12] && ws[4..] == [12] && ws[5..] == [];
    assert Place(ws[4..], 1, 12) == [Position(1, 12)];
    assert Place(ws[3..], 0, 24) == [Position(1, 0), Position(1, 12)];
    assert Place(ws[2..], 0, 8) == [Position(0, 8), Position(1, 0), Position(1, 12)];
    assert Place(ws[1..], 0, 4) == [Position(0, 4), Position(0, 8), Position(1, 0), Position(1, 12)];
  }

  /** In that placement both lines end exactly at the right edge of the grid. */
  lemma BrokerLinesFull()
    ensures FillsLines([4, 4, 16, 12, 12],
      [Position(0, 0), Position(0, 4), Position(0, 8), Position(1, 0), Position(1, 12)])
  {
    var ws: seq<nat> := [4, 4, 16, 12, 12];
    var ps := [Position(0, 0), Position(0, 4), Position(0, 8), Position(1, 0), Position(1, 12)];
    forall i | 0 <= i < |ps| && (i == |ps| - 1 || ps[i + 1].line != ps[i].line)
      ensures ps[i].column + ws[i] == GridWidth
    {
      assert i == 2 || i == 4;
    }
  }

  /**
   * The broker row packs into two full grid lines: the controller, offline-partition
   * and under-replication widgets on the first, the CPU and disk graphs on the second.
   */
  lemma FirstRowFillsTwoLines(m: MskMetrics)
    ensures var ws := Widths(BrokerRow(m)); var ps := Layout(ws);
      && ps == [Position(0, 0), Position(0, 4), Position(0, 8), Position(1, 0), Position(1, 12)]
      && FillsLines(ws, ps)
  {
    assert Widths(BrokerRow(m)) == [4, 4, 16, 12, 12];
    BrokerWidthsLayout();
    BrokerLinesFull();
  }

  /** Everything the broker row charts: the cluster metrics, then each family in turn. */
  lemma BrokerRowCharts(m: MskMetrics)
    ensures ChartedAll(BrokerRow(m)) == [m.activeControllerCount, m.offlinePartitionsCount]
      + m.underReplicatedPartitions + m.cpuUser + m.diskUsed
  {
    var ws := BrokerRow(m);
    assert ws[1..][1..][1..][1..][1..] == [];
    assert ChartedAll(ws[4..]) == m.diskUsed;
    assert ws[3..][1..] == ws[4..];
    assert ChartedAll(ws[3..]) == m.cpuUser + m.diskUsed;
    assert ws[2..][1..] == ws[3..];
    assert ChartedAll(ws[2..]) == m.underReplicatedPartitions + m.cpuUser + m.diskUsed;
    assert ws[1..][1..] == ws[2..];
    assert ChartedAll(ws[1..]) == [m.offlinePartitionsCount] + m.underReplicatedPartitions + m.cpuUser + m.diskUsed;
  }

  /**
   * The dashboard charts exactly the metrics that are alarmed on, in the same
   * order: each graph holds its whole family, and the lag graph all lag metrics.
   */
  lemma DashboardChartsAlarmedMetrics(m: MskMetrics, a: AppMetrics)
    requires a.maxOffsetLag.Valid()
    ensures ChartedAll(Flatten(DashboardRows(m, a))) == AllMetrics(m, a)
  {
    var lag := a.maxOffsetLag.Values();
    DashboardWidgets(m, a);
    BrokerRowCharts(m);
    if |lag| > 0 {
      var g := [GraphWidget("MaxOffsetLag", lag, 12)];
      ChartedAllAppend(BrokerRow(m), g);
      assert g[1..] == [];
    } else {
      assert BrokerRow(m) + [] == BrokerRow(m);
    }
  }

  lemma {:induction false} ChartedAllAppend(w1: seq<Widget>, w2: seq<Widget>)
    ensures ChartedAll(w1 + w2) == ChartedAll(w1) + ChartedAll(w2)
    decreases |w1|
  {
    if w1 == [] {
      assert w1 + w2 == w2;
    } else {
      assert (w1 + w2)[0] == w1[0] && (w1 + w2)[1..] == w1[1..] + w2;
      ChartedAllAppend(w1[1..], w2);
    }
  }

  // ===========================================================================
  // The construct
  // ===========================================================================

  /**
   * The construct as declared: the topics, alarms and dashboards it adds to
   * its scope, in declaration order.
   */
  class MskDashboard {
    const ns: string
    const props: DashboardProps
    var topics: seq<Topic>
    var alarms: seq<Alarm>
    var dashboards: seq<Dashboard>
    /** The metric bundle the construct built; kept for its contract. */
    ghost var mskMetrics: MskMetrics
    ghost var appMetrics: AppMetrics

    constructor (ns: string, props: DashboardProps)
      ensures this.ns == ns && this.props == props
      ensures topics == [Topic("NotificationTopic", TopicName(ns), TopicName(ns))]
      ensures IsMskMetrics(mskMetrics, props.cluster.clusterName, props.brokers)
      ensures appMetrics.maxOffsetLag == LagMap(props.cluster.clusterName, ConsumerGroups)
      ensures alarms == BrokerAlarms(ns, mskMetrics, topics[0]) + ApplicationAlarms(ns, appMetrics, topics[0])
      ensures |dashboards| == 1 && fresh(dashboards[0])
      ensures dashboards[0].dashboardName == ns + "KafkaDashboard"
      ensures dashboards[0].rows == DashboardRows(mskMetrics, appMetrics)
    {
      this.ns := ns;
      this.props := props;
      topics, alarms, dashboards := [], [], [];
      new;
      var topic := NewTopic();
      var msk := NewMskMetrics(props);
      var consumerGroups := ConsumerGroups;
      var app := NewAppMetrics(consumerGroups, props);
      NewBrokerAlarms(msk, topic);
      NewApplicationAlarms(app, topic);
      NewDashboard(msk, app);
      mskMetrics, appMetrics := msk, app;
    }

    /** Declares the notification topic, named after `ns` in lower case. */
    method NewTopic() returns (topic: Topic)
      modifies this`topics
      ensures topic == Topic("NotificationTopic", TopicName(ns), TopicName(ns))
      ensures topics == old(topics) + [topic]
    {
      var name := ToLower(ns) + "-kafka-notification";
      topic := Topic("NotificationTopic", name, name);
      topics := topics + [topic];
    }

    /** Builds the two cluster metrics and the three per-broker families. */
    method NewMskMetrics(props: DashboardProps) returns (metrics: MskMetrics)
      ensures IsMskMetrics(metrics, props.cluster.clusterName, props.brokers)
    {
      var clusterName := props.cluster.clusterName;
      var activeControllerCount :=
        Metric(KafkaNamespace, "ActiveControllerCount", Minutes(1), Sum, map["Cluster Name" := clusterName]);
      var offlinePartitionsCount :=
        Metric(KafkaNamespace, "OfflinePartitionsCount", Minutes(1), Sum, map["Cluster Name" := clusterName]);

      var underReplicatedPartitions := [];
      for i := 0 to props.brokers
        invariant |underReplicatedPartitions| == i
        invariant forall j :: 0 <= j < i ==>
          IsBrokerMetric(underReplicatedPartitions[j], "UnderReplicatedPartitions", Sum, clusterName, j)
      {
        underReplicatedPartitions := underReplicatedPartitions + [
          Metric(KafkaNamespace, "UnderReplicatedPartitions", Minutes(1), Sum,
            map["Cluster Name" := clusterName, "Broker ID" := NatToString(i)])];
      }

      var cpuUser := [];
      for i := 0 to props.brokers
        invariant |cpuUser| == i
        invariant forall j :: 0 <= j < i ==> IsBrokerMetric(cpuUser[j], "CpuUser", Average, clusterName, j)
      {
        cpuUser := cpuUser + [
          Metric(KafkaNamespace, "CpuUser", Minutes(1), Average,
            map["Cluster Name" := clusterName, "Broker ID" := NatToString(i)])];
      }

      var diskUsed := [];
      for i := 0 to props.brokers
        invariant |diskUsed| == i
        invariant forall j :: 0 <= j < i ==> IsBrokerMetric(diskUsed[j], "KafkaDataLogsDiskUsed", Average, clusterName, j)
      {
        diskUsed := diskUsed + [
          Metric(KafkaNamespace, "KafkaDataLogsDiskUsed", Minutes(1), Average,
            map["Cluster Name" := clusterName, "Broker ID" := NatToString(i)])];
      }

      metrics := MskMetrics(activeControllerCount, offlinePartitionsCount, underReplicatedPartitions, cpuUser, diskUsed);
    }

    /** Sets one lag metric per consumer group, keyed by its id. */
    method NewAppMetrics(consumerGroups: seq<ConsumerGroup>, props: DashboardProps) returns (metrics: AppMetrics)
      ensures metrics.maxOffsetLag == LagMap(props.cluster.clusterName, consumerGroups)
    {
      var maxOffsetLag := Empty();
      for i := 0 to |consumerGroups|
        invariant maxOffsetLag == LagMap(props.cluster.clusterName, consumerGroups[..i])
      {
        var group := consumerGroups[i];
        assert consumerGroups[..i + 1][..i] == consumerGroups[..i];
        maxOffsetLag := maxOffsetLag.Set(group.id, LagMetric(props.cluster.clusterName, group.id, group.topic));
      }
      assert consumerGroups[..|consumerGroups|] == consumerGroups;
      metrics := AppMetrics(maxOffsetLag);
    }

    /**
     * Declares the broker alarms: the two cluster-wide alarms, then one alarm per
     * broker metric, family by family, each notifying `topic`.
     */
    method NewBrokerAlarms(metrics: MskMetrics, topic: Topic)
      modifies this`alarms
      ensures alarms == old(alarms) + BrokerAlarms(ns, metrics, topic)
    {
      var action := [SnsAction(topic)];
      alarms := alarms + [Alarm("ActiveControllerAlarm", ns + "KafkaActiveControllerCount",
        metrics.activeControllerCount, LessThanThreshold, 1, 3, action)];
      alarms := alarms + [Alarm("OfflinePartitionsCountAlarm", ns + "KafkaOfflinePartitionsCount",
        metrics.offlinePartitionsCount, GreaterThanThreshold, 0, 3, action)];
      ScalarAlarms(ns, metrics, topic);
      NewUnderReplicatedPartitionsAlarms(metrics.underReplicatedPartitions, topic);
      NewCpuUserAlarms(metrics.cpuUser, topic);
      NewDiskUsedAlarms(metrics.diskUsed, topic);
      BrokerAlarmsParts(ns, metrics, topic);
    }

    /** One loop of `NewBrokerAlarms`: the UnderReplicatedPartitions alarm of each broker. */
    method NewUnderReplicatedPartitionsAlarms(ms: seq<Metric>, topic: Topic)
      modifies this`alarms
      ensures alarms == old(alarms) + Declare(ns, FamilyEntries(UnderReplicatedPartitions, ms), topic)
    {
      ghost var es := FamilyEntries(UnderReplicatedPartitions, ms);
      for i := 0 to |ms|
        invariant alarms == old(alarms) + Declare(ns, es[..i], topic)
      {
        FamilyStep(ns, UnderReplicatedPartitions, ms, i, topic);
        alarms := alarms + [Alarm("UnderReplicatedPartitionsAlarm" + NatToString(i), ns + "KafkaUnderReplicatedPartitions" + NatToString(i),
          ms[i], GreaterThanThreshold, 0, 3, [SnsAction(topic)])];
      }
      DeclareWhole(ns, es, topic);
    }

    /** One loop of `NewBrokerAlarms`: the CpuUser alarm of each broker. */
    method NewCpuUserAlarms(ms: seq<Metric>, topic: Topic)
      modifies this`alarms
      ensures alarms == old(alarms) + Declare(ns, FamilyEntries(CpuUser, ms), topic)
    {
      ghost var es := FamilyEntries(CpuUser, ms);
      for i := 0 to |ms|
        invariant alarms == old(alarms) + Declare(ns, es[..i], topic)
      {
        FamilyStep(ns, CpuUser, ms, i, topic);
        alarms := alarms + [Alarm("CpuUser" + NatToString(i), ns + "KafkaCpuUser" + NatToString(i),
          ms[i], GreaterThanThreshold, 60, 3, [SnsAction(topic)])];
      }
      DeclareWhole(ns, es, topic);
    }

    /** One loop of `NewBrokerAlarms`: the DiskUsed alarm of each broker. */
    method NewDiskUsedAlarms(ms: seq<Metric>, topic: Topic)
      modifies this`alarms
      ensures alarms == old(alarms) + Declare(ns, FamilyEntries(DiskUsed, ms), topic)
    {
      ghost var es := FamilyEntries(DiskUsed, ms);
      for i := 0 to |ms|
        invariant alarms == old(alarms) + Declare(ns, es[..i], topic)
      {
        FamilyStep(ns, DiskUsed, ms, i, topic);
        alarms := alarms + [Alarm("KafkaDataLogsDiskUsed" + NatToString(i), ns + "KafkaDataLogsDiskUsed" + NatToString(i),
          ms[i], GreaterThanOrEqualToThreshold, 85, 3, [SnsAction(topic)])];
      }
      DeclareWhole(ns, es, topic);
    }

    /** Declares one alarm per lag metric, in the lag map's order. */
    method NewApplicationAlarms(metrics: AppMetrics, topic: Topic)
      requires metrics.maxOffsetLag.Valid()
      modifies this`alarms
      ensures alarms == old(alarms) + ApplicationAlarms(ns, metrics, topic)
    {
      var lag := metrics.maxOffsetLag;
      ghost var es := ApplicationEntries(lag);
      for i := 0 to |lag.keys|
        invariant alarms == old(alarms) + Declare(ns, es[..i], topic)
      {
        var consumerGroup := lag.keys[i];
        var metric := lag.values[consumerGroup];
        DeclarePrefixStep(ns, es, i, topic);
        alarms := alarms + [Alarm("KafkaMaxOffsetLag-" + consumerGroup, ns + "KafkaMaxOffsetLag-" + consumerGroup,
          metric, GreaterThanOrEqualToThreshold, 100, 3, [SnsAction(topic)])];
      }
      assert es[..|es|] == es;
    }

    /** Declares the dashboard and adds its rows of widgets. */
    method NewDashboard(mskMetrics: MskMetrics, appMetrics: AppMetrics)
      requires appMetrics.maxOffsetLag.Valid()
      modifies this`dashboards
      ensures |dashboards| == |old(dashboards)| + 1
      ensures dashboards[..|old(dashboards)|] == old(dashboards)
      ensures var d := dashboards[|old(dashboards)|];
        && fresh(d)
        && d.constructId == "KafkaDashboard" && d.dashboardName == ns + "KafkaDashboard"
        && d.rows == DashboardRows(mskMetrics, appMetrics)
    {
      var dashboard := new Dashboard("KafkaDashboard", ns + "KafkaDashboard");

      var lag := appMetrics.maxOffsetLag;
      var maxOffsetLagMetrics: seq<Metric> := [];
      for i := 0 to |lag.keys|
        invariant maxOffsetLagMetrics == lag.Values()[..i]
      {
        maxOffsetLagMetrics := maxOffsetLagMetrics + [lag.values[lag.keys[i]]];
      }
      assert maxOffsetLagMetrics == lag.Values();

      dashboard.AddWidgets([
        SingleValueWidget("ActiveControllerCount", [mskMetrics.activeControllerCount], 4),
        GraphWidget("OfflinePartitionsCount", [mskMetrics.offlinePartitionsCount], 4),
        GraphWidget("UnderReplicatedPartitions", mskMetrics.underReplicatedPartitions, 16),
        GraphWidget("CPU User", mskMetrics.cpuUser, 12),
        GraphWidget("Disk Used", mskMetrics.diskUsed, 12)]);

      if |maxOffsetLagMetrics| > 0 {
        dashboard.AddWidgets([GraphWidget("MaxOffsetLag", maxOffsetLagMetrics, 12)]);
      }

      dashboards := dashboards + [dashboard];
    }
  }

  // ===========================================================================
  // Scenarios
  // ===========================================================================

  /** With no consumer groups there are 2 + 3 * brokers alarms and five widgets: eleven alarms for three brokers. */
  lemma NoConsumerGroups(ns: string, m: MskMetrics, clusterName: string, brokers: nat, topic: Topic)
    requires IsMskMetrics(m, clusterName, brokers)
    ensures var a := AppMetrics(LagMap(clusterName, []));
      && |BrokerAlarms(ns, m, topic) + ApplicationAlarms(ns, a, topic)| == 2 + 3 * brokers
      && |Flatten(DashboardRows(m, a))| == 5
    ensures brokers == 3 ==>
      |BrokerAlarms(ns, m, topic) + ApplicationAlarms(ns, AppMetrics(LagMap(clusterName, [])), topic)| == 11
  {
    var a := AppMetrics(LagMap(clusterName, []));
    AlarmCount(ns, m, a, topic);
    DashboardShape(m, a);
  }

  /** One consumer group on three brokers: twelve alarms, and a sixth widget charting its one lag metric. */
  lemma OneConsumerGroup(ns: string, m: MskMetrics, clusterName: string, topic: Topic)
    requires IsMskMetrics(m, clusterName, 3)
    ensures var a := AppMetrics(LagMap(clusterName, [ConsumerGroup("trip", "trip-service")]));
      var ws := Flatten(DashboardRows(m, a));
      && |BrokerAlarms(ns, m, topic) + ApplicationAlarms(ns, a, topic)| == 12
      && |ws| == 6
      && ws[5] == GraphWidget("MaxOffsetLag", [LagMetric(clusterName, "trip", "trip-service")], 12)
  {
    var a := AppMetrics(LagMap(clusterName, [ConsumerGroup("trip", "trip-service")]));
    assert a.maxOffsetLag.keys == ["trip"];
    AlarmCount(ns, m, a, topic);
    DashboardShape(m, a);
    FlattenRows(DashboardRows(m, a));
  }

}

/**
 * Plain records for the CloudWatch and SNS constructs the monitoring code
 * declares: metrics, alarms with their actions, dashboard widgets, the
 * notification topic, and the dashboard itself, whose rows `addWidgets` extends.
 */
module CloudWatch {

  /** `Duration`, reduced to the one unit the code uses. */
  datatype Duration = Minutes(minutes: nat)

  datatype Statistic = Sum | Average | Maximum

  /** `new cw.Metric({...})`: the fields the code sets. */
  datatype Metric = Metric(
    namespace: string,
    metricName: string,
    period: Duration,
    statistic: Statistic,
    dimensionsMap: map<string, string>)

  datatype ComparisonOperator =
    | LessThanThreshold
    | GreaterThanThreshold
    | GreaterThanOrEqualToThreshold

  /** When a datapoint `value` counts as breaching an alarm with this operator and threshold. */
  predicate Breaches(op: ComparisonOperator, threshold: int, value: real) {
    match op
    case LessThanThreshold => value < threshold as real
    case GreaterThanThreshold => value > threshold as real
    case GreaterThanOrEqualToThreshold => value >= threshold as real
  }

  /** `new sns.Topic(scope, constructId, {displayName, topicName})`. */
  datatype Topic = Topic(constructId: string, displayName: string, topicName: string)

  /** `new cwActions.SnsAction(topic)`. */
  datatype AlarmAction = SnsAction(topic: Topic)

  /** `new cw.Alarm(scope, constructId, {...})` together with the actions added to it. */
  datatype Alarm = Alarm(
    constructId: string,
    alarmName: string,
    metric: Metric,
    comparisonOperator: ComparisonOperator,
    threshold: int,
    evaluationPeriods: nat,
    alarmActions: seq<AlarmAction>)

  datatype Widget =
    | SingleValueWidget(title: string, metrics: seq<Metric>, width: nat)
    | GraphWidget(title: string, left: seq<Metric>, width: nat)
  {
    /** The metrics the widget charts, in order. */
    function Charted(): seq<Metric> {
      match this
      case SingleValueWidget(_, ms, _) => ms
      case GraphWidget(_, ms, _) => ms
    }
  }

  /** CloudWatch dashboards are 24 grid units wide. */
  const GridWidth: nat := 24

  /** Where a widget sits within its row: the grid line (counted from the row's top) and the column. */
  datatype Position = Position(line: nat, column: nat)

  /**
   * The positions of a row's widgets, placed left to right from `column` on
   * `line`: a widget that would cross the right edge, unless it is first on its
   * line, moves to the start of the next line. Such a widget starts at the
   * row's current height, below every widget placed so far, so lines can be
   * counted rather than measured; heights are not modelled.
   */
  function Place(widths: seq<nat>, line: nat, column: nat): (ps: seq<Position>)
    ensures |ps| == |widths|
  {
    if widths == [] then []
    else
      var wrap := column > 0 && column + widths[0] > GridWidth;
      var here := if wrap then Position(line + 1, 0) else Position(line, column);
      [here] + Place(widths[1..], here.line, here.column + widths[0])
  }

  /**
   * Placement never goes back up a line: each widget's line is at least its
   * predecessor's and at least the starting line. No widget that fits the grid
   * crosses its right edge.
   */
  lemma {:induction false} PlaceWithinGrid(widths: seq<nat>, line: nat, column: nat)
    requires column <= GridWidth
    requires forall i :: 0 <= i < |widths| ==> widths[i] <= GridWidth
    ensures var ps := Place(widths, line, column);
      && (forall i :: 0 <= i < |ps| ==> line <= ps[i].line && ps[i].column + widths[i] <= GridWidth)
      && (forall i :: 0 <= i < |ps| - 1 ==> ps[i].line <= ps[i + 1].line)
  {
    if widths != [] {
      var wrap := column > 0 && column + widths[0] > GridWidth;
      var here := if wrap then Position(line + 1, 0) else Position(line, column);
      var rest := Place(widths[1..], here.line, here.column + widths[0]);
      PlaceWithinGrid(widths[1..], here.line, here.column + widths[0]);
      var ps := Place(widths, line, column);
      assert ps == [here] + rest;
      forall i | 0 < i < |ps|
        ensures line <= ps[i].line && ps[i].column + widths[i] <= GridWidth
      {
        assert ps[i] == rest[i - 1];
        assert widths[i] == widths[1..][i - 1];
      }
      forall i | 0 <= i < |ps| - 1
        ensures ps[i].line <= ps[i + 1].line
      {
        assert ps[i + 1] == rest[i];
        if i > 0 {
          assert ps[i] == rest[i - 1];
        }
      }
    }
  }

  /** The layout of one row, starting at its top-left corner. */
  function Layout(widths: seq<nat>): seq<Position> {
    Place(widths, 0, 0)
  }

  /** Every widget that ends a line of the row ends exactly at the right edge of the grid. */
  predicate FillsLines(widths: seq<nat>, ps: seq<Position>)
    requires |ps| == |widths|
  {
    forall i :: 0 <= i < |ps| && (i == |ps| - 1 || ps[i + 1].line != ps[i].line) ==>
      ps[i].column + widths[i] == GridWidth
  }

  /**
   * `new cw.Dashboard(scope, constructId, {dashboardName})`. Each `addWidgets`
   * call lays its widgets out left to right as one row; rows of successive calls
   * are stacked below each other.
   */
  class Dashboard {
    const constructId: string
    const dashboardName: string
    var rows: seq<seq<Widget>>

    constructor (constructId: string, dashboardName: string)
      ensures this.constructId == constructId && this.dashboardName == dashboardName
      ensures rows == []
    {
      this.constructId := constructId;
      this.dashboardName := dashboardName;
      rows := [];
    }

    method AddWidgets(widgets: seq<Widget>)
      modifies this`rows
      ensures rows == old(rows) + [widgets]
    {
      rows := rows + [widgets];
    }
  }

}

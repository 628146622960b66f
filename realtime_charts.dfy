/** The real-time chart of the monitoring page: a rolling window of one
    point per minute, refreshed every 15 seconds while live, with the
    points above the selected metric's anomaly threshold flagged. The
    random readings and the clock are parameters. */
module RealTimeCharts {
  import opened Common

  datatype Reading = Reading(spend: real, impressions: real, conversions: real, cpa: real)

  /** A chart point: its clock label, its time in milliseconds, its
      readings. */
  datatype ChartPoint = ChartPoint(time: string, timestamp: int, values: Reading)

  datatype Metric = SpendVelocity | ImpressionTrends | ConversionPatterns | CpaFluctuations

  /** `point[selectedMetric]`. */
  function Value(p: ChartPoint, m: Metric): real
  {
    match m
    case SpendVelocity => p.values.spend
    case ImpressionTrends => p.values.impressions
    case ConversionPatterns => p.values.conversions
    case CpaFluctuations => p.values.cpa
  }

  /** The anomaly threshold of each metric. */
  function AnomalyThreshold(m: Metric): (r: real)
    ensures r > 0.0
  {
    match m
    case SpendVelocity => 300.0
    case ImpressionTrends => 7000.0
    case ConversionPatterns => 30.0
    case CpaFluctuations => 20.0
  }

  // ---------------------------------------------------------------------
  // The initial window

  /** The point `i` minutes before `now`; `sample(i)` stands for the
      random readings drawn for it and `clock` for `toLocaleTimeString`. */
  function MockPoint(now: int, clock: int -> string, sample: nat -> Reading, i: nat): ChartPoint
  {
    ChartPoint(clock(now - i * 60000), now - i * 60000, sample(i))
  }

  /** `generateMockData`: sixty points, from 59 minutes ago up to now. */
  method GenerateMockData(now: int, clock: int -> string, sample: nat -> Reading) returns (points: seq<ChartPoint>)
    ensures |points| == 60
    ensures forall j :: 0 <= j < 60 ==> points[j] == MockPoint(now, clock, sample, 59 - j)
  {
    points := [];
    var i := 59;
    while i >= 0
      invariant -1 <= i <= 59
      invariant |points| == 59 - i
      invariant forall j :: 0 <= j < |points| ==> points[j] == MockPoint(now, clock, sample, 59 - j)
    {
      points := points + [MockPoint(now, clock, sample, i)];
      i := i - 1;
    }
  }

  /** The initial window runs in time order, one minute apart, ending now. */
  lemma MockDataTimeline(now: int, clock: int -> string, sample: nat -> Reading, points: seq<ChartPoint>)
    requires |points| == 60
    requires forall j :: 0 <= j < 60 ==> points[j] == MockPoint(now, clock, sample, 59 - j)
    ensures points[59].timestamp == now && points[0].timestamp == now - 59 * 60000
    ensures forall j :: 0 < j < 60 ==> points[j].timestamp == points[j - 1].timestamp + 60000
  {
    forall j | 0 < j < 60
      ensures points[j].timestamp == points[j - 1].timestamp + 60000
    {
      assert points[j].timestamp == now - (59 - j) * 60000;
      assert points[j - 1].timestamp == now - (59 - (j - 1)) * 60000;
    }
  }

  // ---------------------------------------------------------------------
  // Refresh and anomalies

  /** `newData.shift(); newData.push(point)`; shifting an empty array does
      nothing. */
  function ShiftPush(data: seq<ChartPoint>, point: ChartPoint): (r: seq<ChartPoint>)
    ensures |r| == if data == [] then 1 else |data|
    ensures r[|r| - 1] == point
    ensures data != [] ==> r[..|r| - 1] == data[1..]
  {
    if data == [] then [point] else data[1..] + [point]
  }

  /** A full window stays full, drops its oldest point and keeps the rest
      in order. */
  lemma ShiftPushWindow(data: seq<ChartPoint>, point: ChartPoint)
    requires |data| == 60
    ensures |ShiftPush(data, point)| == 60
    ensures forall j :: 0 <= j < 59 ==> ShiftPush(data, point)[j] == data[j + 1]
  {
  }

  /** A point of the chart and its anomaly flag. */
  datatype FlaggedPoint = FlaggedPoint(point: ChartPoint, isAnomaly: bool)

  /** `detectAnomalies`: every point, flagged when the selected metric is
      strictly above the threshold. */
  function DetectAnomalies(data: seq<ChartPoint>, m: Metric, threshold: real): (r: seq<FlaggedPoint>)
    ensures |r| == |data|
    ensures forall i :: 0 <= i < |r| ==> r[i].point == data[i]
    ensures forall i :: 0 <= i < |r| ==> (r[i].isAnomaly <==> Value(data[i], m) > threshold)
  {
    seq(|data|, i requires 0 <= i < |data| => FlaggedPoint(data[i], Value(data[i], m) > threshold))
  }

  /** Raising the threshold never flags a point that was not flagged. */
  lemma RaisingThresholdFlagsFewer(data: seq<ChartPoint>, m: Metric, t1: real, t2: real, i: nat)
    requires t1 <= t2 && i < |data|
    ensures DetectAnomalies(data, m, t2)[i].isAnomaly ==> DetectAnomalies(data, m, t1)[i].isAnomaly
  {
  }

  class Charts {
    var selectedMetric: Metric
    var isLive: bool
    var chartData: seq<ChartPoint>

    /** Spend is selected, the chart is live, the window is the mock one. */
    constructor(initial: seq<ChartPoint>)
      ensures selectedMetric == SpendVelocity && isLive && chartData == initial
    {
      selectedMetric := SpendVelocity;
      isLive := true;
      chartData := initial;
    }

    /** One 15-second tick of the interval, which only runs while live. */
    method Tick(point: ChartPoint)
      modifies this
      ensures old(isLive) ==> chartData == ShiftPush(old(chartData), point)
      ensures !old(isLive) ==> chartData == old(chartData)
      ensures isLive == old(isLive) && selectedMetric == old(selectedMetric)
    {
      if isLive {
        chartData := ShiftPush(chartData, point);
      }
    }

    method ToggleLive()
      modifies this
      ensures isLive == !old(isLive)
      ensures chartData == old(chartData) && selectedMetric == old(selectedMetric)
    {
      isLive := !isLive;
    }

    method SelectMetric(m: Metric)
      modifies this
      ensures selectedMetric == m
      ensures chartData == old(chartData) && isLive == old(isLive)
    {
      selectedMetric := m;
    }

    /** `processedData`: the window flagged against the selected metric's
        threshold. */
    function ProcessedData(): (r: seq<FlaggedPoint>)
      reads this
      ensures |r| == |chartData|
      ensures forall i :: 0 <= i < |r| ==>
        (r[i].isAnomaly <==> Value(chartData[i], selectedMetric) > AnomalyThreshold(selectedMetric))
    {
      DetectAnomalies(chartData, selectedMetric, AnomalyThreshold(selectedMetric))
    }
  }
}

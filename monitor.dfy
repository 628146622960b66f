/** The real-time monitoring page: its alert list (dismissed from the
    banner), the live metrics nudged every 30 seconds, and the connection
    status drawn every minute with weights 85/10/5. The random draws are
    parameters. */
module Monitor {
  import opened Common
  import opened Alerts
  import opened Filters

  datatype RealTimeMetrics = RealTimeMetrics(
    currentSpendRate: real,
    impressionsPerMinute: int,
    activeCampaigns: int,
    systemHealth: real,
    spendTrend: string,
    impressionsTrend: string)

  /** `Math.max(95, Math.min(100, h))`. */
  function ClampHealth(h: real): (r: real)
    ensures 95.0 <= r <= 100.0
    ensures 95.0 <= h <= 100.0 ==> r == h
    ensures h > 100.0 ==> r == 100.0
    ensures h < 95.0 ==> r == 95.0
  {
    var m := if h < 100.0 then h else 100.0;
    if m > 95.0 then m else 95.0
  }

  /** One 30-second update: spend rate moved by `(r1 - 0.5) * 20`,
      impressions by `floor((r2 - 0.5) * 200)`, health by
      `(r3 - 0.5) * 2` and clamped to [95, 100]; the rest is kept. */
  function UpdateMetrics(prev: RealTimeMetrics, r1: real, r2: real, r3: real): (r: RealTimeMetrics)
    ensures 95.0 <= r.systemHealth <= 100.0
    ensures 0.0 <= r1 < 1.0 ==> -10.0 <= r.currentSpendRate - prev.currentSpendRate < 10.0
    ensures 0.0 <= r2 < 1.0 ==> -100 <= r.impressionsPerMinute - prev.impressionsPerMinute <= 99
    ensures 0.0 <= r3 < 1.0 && 95.0 <= prev.systemHealth <= 100.0 ==> -1.0 <= r.systemHealth - prev.systemHealth < 1.0
    ensures r.activeCampaigns == prev.activeCampaigns
    ensures r.spendTrend == prev.spendTrend && r.impressionsTrend == prev.impressionsTrend
  {
    prev.(
      currentSpendRate := prev.currentSpendRate + (r1 - 0.5) * 20.0,
      impressionsPerMinute := prev.impressionsPerMinute + ((r2 - 0.5) * 200.0).Floor,
      systemHealth := ClampHealth(prev.systemHealth + (r3 - 0.5) * 2.0))
  }

  // ---------------------------------------------------------------------
  // Connection status

  datatype Connection = Connected | Connecting | Disconnected

  const Statuses: seq<Connection> := [Connected, Connecting, Disconnected]
  const Weights: seq<real> := [0.85, 0.10, 0.05]

  /** The sum of the first `i` weights. */
  function PrefixSum(ws: seq<real>, i: nat): real
    requires i <= |ws|
  {
    if i == 0 then 0.0 else PrefixSum(ws, i - 1) + ws[i - 1]
  }

  /** The running totals of the weights: 0.85, 0.95 and 1. */
  lemma CumulativeWeights()
    ensures PrefixSum(Weights, 1) == 0.85 && PrefixSum(Weights, 2) == 0.95 && PrefixSum(Weights, 3) == 1.0
  {
    assert PrefixSum(Weights, 0) == 0.0;
    assert PrefixSum(Weights, 1) == 0.85;
    assert PrefixSum(Weights, 2) == 0.95;
  }

  /** The status a draw selects: the first whose cumulative weight reaches
      the draw; none (the status stays) for a draw above the total. */
  function WeightedPick(random: real): (r: Option<Connection>)
    ensures r == Some(Connected) <==> random <= 0.85
    ensures r == Some(Connecting) <==> 0.85 < random <= 0.95
    ensures r == Some(Disconnected) <==> 0.95 < random <= 1.0
    ensures r.None? <==> random > 1.0
  {
    if random <= 0.85 then Some(Connected)
    else if random <= 0.95 then Some(Connecting)
    else if random <= 1.0 then Some(Disconnected)
    else None
  }

  /** The weighted loop with its running total and early `break`. */
  method PickStatus(random: real) returns (picked: Option<Connection>)
    ensures picked == WeightedPick(random)
  {
    CumulativeWeights();
    var cumulative := 0.0;
    var i := 0;
    picked := None;
    while i < |Statuses|
      invariant 0 <= i <= |Statuses|
      invariant cumulative == PrefixSum(Weights, i)
      invariant picked == None
      invariant forall j :: 1 <= j <= i ==> random > PrefixSum(Weights, j)
    {
      cumulative := cumulative + Weights[i];
      if random <= cumulative {
        picked := Some(Statuses[i]);
        break;
      }
      i := i + 1;
    }
  }

  /** Every draw `Math.random` can make, in [0, 1), selects a status. */
  lemma EveryDrawPicks(random: real)
    requires 0.0 <= random < 1.0
    ensures WeightedPick(random).Some?
  {
  }

  /** The floating badge: its text and colour follow the status. */
  function ConnectionLabel(c: Connection): (r: string)
    ensures r == "Live" <==> c == Connected
    ensures r == "Connecting" <==> c == Connecting
    ensures r == "Offline" <==> c == Disconnected
  {
    match c
    case Connected => "Live"
    case Connecting => "Connecting"
    case Disconnected => "Offline"
  }

  function ConnectionColor(c: Connection): (r: string)
    ensures r == "text-success" <==> c == Connected
  {
    match c
    case Connected => "text-success"
    case Connecting => "text-warning"
    case Disconnected => "text-error"
  }

  // ---------------------------------------------------------------------
  // The page

  class MonitorPage {
    var alerts: seq<Alert<int>>
    var filters: FilterMap
    var metrics: RealTimeMetrics
    var connectionStatus: Connection

    constructor(initialAlerts: seq<Alert<int>>)
      ensures alerts == initialAlerts && connectionStatus == Connected
      ensures metrics == RealTimeMetrics(247.50, 1250, 6, 99.8, "up", "up")
      ensures filters == map["dateRange" := Str("last-7-days"), "campaigns" := List([]), "adGroups" := List([]), "keywords" := Str("")]
    {
      alerts := initialAlerts;
      filters := map["dateRange" := Str("last-7-days"), "campaigns" := List([]), "adGroups" := List([]), "keywords" := Str("")];
      metrics := RealTimeMetrics(247.50, 1250, 6, 99.8, "up", "up");
      connectionStatus := Connected;
    }

    /** `handleAlertDismiss(alertId)`. */
    method HandleAlertDismiss(alertId: int)
      modifies this
      ensures alerts == Dismiss(old(alerts), alertId)
      ensures forall a :: a in alerts <==> a in old(alerts) && a.id != alertId
      ensures filters == old(filters) && metrics == old(metrics) && connectionStatus == old(connectionStatus)
    {
      alerts := Dismiss(alerts, alertId);
    }

    /** The 30-second metrics interval. */
    method MetricsTick(r1: real, r2: real, r3: real)
      modifies this
      ensures metrics == UpdateMetrics(old(metrics), r1, r2, r3)
      ensures 95.0 <= metrics.systemHealth <= 100.0
      ensures alerts == old(alerts) && filters == old(filters) && connectionStatus == old(connectionStatus)
    {
      metrics := UpdateMetrics(metrics, r1, r2, r3);
    }

    /** The one-minute status interval. */
    method StatusTick(random: real)
      modifies this
      ensures WeightedPick(random).Some? ==> connectionStatus == WeightedPick(random).value
      ensures WeightedPick(random).None? ==> connectionStatus == old(connectionStatus)
      ensures alerts == old(alerts) && filters == old(filters) && metrics == old(metrics)
    {
      var picked := PickStatus(random);
      if picked.Some? {
        connectionStatus := picked.value;
      }
    }

    method HandleFilterChange(newFilters: FilterMap)
      modifies this
      ensures filters == newFilters
      ensures alerts == old(alerts) && metrics == old(metrics) && connectionStatus == old(connectionStatus)
    {
      filters := newFilters;
    }
  }
}

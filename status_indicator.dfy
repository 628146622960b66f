/** The connection indicator shared by the dashboards: the status pill,
    the time since the last update (re-rendered every second), the
    "Stale" tag, and a close button that hides it for good. */
module StatusIndicator {
  import opened Common
  import opened TimeAgo
  import Monitor

  datatype StatusConfig = StatusConfig(color: string, textColor: string, icon: string, caption: string, pulse: bool, spin: bool)

  /** `getStatusConfig`: only a live connection pulses and only a
      connecting one spins. */
  function GetStatusConfig(connectionStatus: string): (r: StatusConfig)
    ensures r.pulse <==> connectionStatus == "connected"
    ensures r.spin <==> connectionStatus == "connecting"
    ensures connectionStatus == "connected" ==> r.caption == "Live" && r.icon == "Wifi"
    ensures connectionStatus == "connecting" ==> r.caption == "Connecting" && r.icon == "Loader2"
    ensures connectionStatus == "disconnected" ==> r.caption == "Offline" && r.icon == "WifiOff"
    ensures r.caption == "Unknown" <==> connectionStatus !in {"connected", "connecting", "disconnected"}
  {
    match connectionStatus
    case "connected" => StatusConfig("success", "text-success", "Wifi", "Live", true, false)
    case "connecting" => StatusConfig("warning", "text-warning", "Loader2", "Connecting", false, true)
    case "disconnected" => StatusConfig("error", "text-error", "WifiOff", "Offline", false, false)
    case _ => StatusConfig("muted", "text-muted-foreground", "Circle", "Unknown", false, false)
  }

  /** The status string the monitoring page keeps for each state. */
  function StatusKey(c: Monitor.Connection): string
  {
    match c
    case Connected => "connected"
    case Connecting => "connecting"
    case Disconnected => "disconnected"
  }

  /** The indicator and the monitoring page's floating badge use the same
      words for every connection state. */
  lemma SameWordsAsMonitor(c: Monitor.Connection)
    ensures GetStatusConfig(StatusKey(c)).caption == Monitor.ConnectionLabel(c)
  {
  }

  /** What the indicator renders when visible. */
  datatype View = View(config: StatusConfig, updateText: string, stale: bool)

  class Indicator {
    /** The clock of the one-second interval. */
    var currentTime: int
    var isVisible: bool

    constructor(now: int)
      ensures currentTime == now && isVisible
    {
      currentTime := now;
      isVisible := true;
    }

    /** The one-second interval. */
    method Tick(now: int)
      modifies this
      ensures currentTime == now && isVisible == old(isVisible)
    {
      currentTime := now;
    }

    /** The close button; nothing shows the indicator again. */
    method Hide()
      modifies this
      ensures !isVisible && currentTime == old(currentTime)
    {
      isVisible := false;
    }

    /** The render: nothing once hidden; otherwise the pill, the update
        text and the stale tag. */
    function Render(connectionStatus: string, lastUpdate: Option<int>, dataFreshness: string, clock: int -> string): (r: Option<View>)
      reads this
      ensures r.None? <==> !isVisible
      ensures r.Some? ==> r.value.config == GetStatusConfig(connectionStatus)
      ensures r.Some? ==> r.value.updateText == LastUpdateText(currentTime, lastUpdate, clock)
      ensures r.Some? ==> (r.value.stale <==> dataFreshness == "stale")
    {
      if !isVisible then None
      else Some(View(GetStatusConfig(connectionStatus), LastUpdateText(currentTime, lastUpdate, clock), dataFreshness == "stale"))
    }
  }
}

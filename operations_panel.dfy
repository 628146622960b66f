/** The operations center of the monitoring page: the alert feed with its
    severity tallies, one expandable alert at a time whose action buttons
    report `onAlertAction(alertId, action)`, and two emergency buttons. */
module OperationsPanel {
  import opened Common

  datatype FeedAlert = FeedAlert(id: int, kind: string, severity: string, title: string, campaign: string, timestamp: int, actions: seq<string>)

  datatype SeverityConfig = SeverityConfig(bgColor: string, borderColor: string, textColor: string, icon: string)

  /** The panel's `getSeverityConfig` (left-border variants). */
  function GetSeverityConfig(severity: string): (r: SeverityConfig)
    ensures severity == "critical" ==> r == SeverityConfig("bg-error/10", "border-l-error", "text-error", "AlertTriangle")
    ensures severity == "warning" ==> r == SeverityConfig("bg-warning/10", "border-l-warning", "text-warning", "AlertCircle")
    ensures severity !in {"critical", "warning"} ==> r == SeverityConfig("bg-primary/10", "border-l-primary", "text-primary", "Info")
  {
    match severity
    case "critical" => SeverityConfig("bg-error/10", "border-l-error", "text-error", "AlertTriangle")
    case "warning" => SeverityConfig("bg-warning/10", "border-l-warning", "text-warning", "AlertCircle")
    case _ => SeverityConfig("bg-primary/10", "border-l-primary", "text-primary", "Info")
  }

  datatype ActionConfig = ActionConfig(caption: string, icon: string, variant: string)

  /** The ten actions the panel knows. */
  predicate KnownAction(action: string)
  {
    action in {"pause", "increase-budget", "investigate", "adjust-bids", "pause-keywords",
               "acknowledge", "reduce-frequency", "expand-keywords", "add-budget", "resume"}
  }

  /** `getActionConfig`: the table entry, or a plain outlined button
      captioned with the action's own name. */
  function GetActionConfig(action: string): (r: ActionConfig)
    ensures !KnownAction(action) ==> r == ActionConfig(action, "Circle", "outline")
    ensures KnownAction(action) ==> r.icon != "Circle"
    ensures r.variant in {"destructive", "default", "outline"}
    ensures r.variant == "destructive" <==> action in {"pause", "pause-keywords"}
  {
    match action
    case "pause" => ActionConfig("Pause", "Pause", "destructive")
    case "increase-budget" => ActionConfig("Increase Budget", "Plus", "default")
    case "investigate" => ActionConfig("Investigate", "Search", "outline")
    case "adjust-bids" => ActionConfig("Adjust Bids", "TrendingUp", "default")
    case "pause-keywords" => ActionConfig("Pause Keywords", "Pause", "destructive")
    case "acknowledge" => ActionConfig("Acknowledge", "Check", "outline")
    case "reduce-frequency" => ActionConfig("Reduce Frequency", "Minus", "outline")
    case "expand-keywords" => ActionConfig("Expand Keywords", "Plus", "default")
    case "add-budget" => ActionConfig("Add Budget", "DollarSign", "default")
    case "resume" => ActionConfig("Resume", "Play", "default")
    case _ => ActionConfig(action, "Circle", "outline")
  }

  /** No two known actions share a caption, so every button of an alert
      is told apart. */
  lemma KnownCaptionsDistinct(a: string, b: string)
    requires KnownAction(a) && KnownAction(b) && a != b
    ensures GetActionConfig(a).caption != GetActionConfig(b).caption
  {
  }

  // ---------------------------------------------------------------------
  // Header tallies

  predicate IsCritical(a: FeedAlert) { a.severity == "critical" }
  predicate IsWarning(a: FeedAlert) { a.severity == "warning" }
  predicate IsOther(a: FeedAlert) { a.severity != "critical" && a.severity != "warning" }

  /** The critical and warning badges, with the alerts shown in neither,
      account for the whole feed. */
  lemma TalliesCoverFeed(feed: seq<FeedAlert>)
    ensures Count(feed, IsCritical) + Count(feed, IsWarning) + Count(feed, IsOther) == |feed|
  {
    CountPartition3(feed, IsCritical, IsWarning, IsOther);
  }

  // ---------------------------------------------------------------------
  // The panel component

  /** The receiver of an action: an alert, or the emergency controls. */
  datatype Target = OfAlert(alertId: int) | Emergency

  /** One `onAlertAction(alertId, action)` call. */
  datatype AlertAction = AlertAction(target: Target, action: string)

  class Panel {
    /** The expanded alert, `null` when none is. */
    var selectedAlert: Option<int>

    constructor()
      ensures selectedAlert == None
    {
      selectedAlert := None;
    }

    /** Clicking an alert expands it, or collapses it when it is the one
        expanded. */
    method ClickAlert(id: int)
      modifies this
      ensures old(selectedAlert) == Some(id) ==> selectedAlert == None
      ensures old(selectedAlert) != Some(id) ==> selectedAlert == Some(id)
    {
      selectedAlert := if selectedAlert == Some(id) then None else Some(id);
    }

    /** The action buttons rendered under an alert: its actions when it is
        expanded, none otherwise. */
    function ShownActions(a: FeedAlert): (r: seq<string>)
      reads this
      ensures r == if selectedAlert == Some(a.id) then a.actions else []
    {
      if selectedAlert == Some(a.id) then a.actions else []
    }

    /** An action button of an expanded alert. */
    method ActionClick(a: FeedAlert, action: string) returns (call: AlertAction)
      requires action in ShownActions(a)
      ensures call == AlertAction(OfAlert(a.id), action)
      ensures selectedAlert == Some(a.id)
    {
      call := AlertAction(OfAlert(a.id), action);
    }

    /** "Pause All" and "Budget Lock". */
    method EmergencyClick(pauseAll: bool) returns (call: AlertAction)
      ensures call.target == Emergency
      ensures call.action == if pauseAll then "pause-all" else "budget-protection"
    {
      call := AlertAction(Emergency, if pauseAll then "pause-all" else "budget-protection");
    }
  }

  /** At most one alert shows its action buttons at a time. */
  lemma AtMostOneExpanded(p: Panel, a: FeedAlert, b: FeedAlert)
    requires a.id != b.id
    ensures p.ShownActions(a) == [] || p.ShownActions(b) == []
  {
  }
}

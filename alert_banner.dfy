/** The alert banner of the monitoring page: it shows the most severe
    alert (the first critical one, else the first warning, else the first
    alert), how many more there are, and dismisses the alert it shows. */
module AlertBanner {
  import opened Common
  import opened Alerts

  function LevelIs<I>(level: string): Alert<I> -> bool
  {
    (a: Alert<I>) => a.level == level
  }

  /** Position of the first alert at `level`, if any. */
  function FirstAt<I>(alerts: seq<Alert<I>>, level: string): (r: Option<nat>)
    ensures r.Some? ==> r.value < |alerts| && alerts[r.value].level == level
    ensures r.Some? ==> forall j :: 0 <= j < r.value ==> alerts[j].level != level
    ensures r.None? ==> forall j :: 0 <= j < |alerts| ==> alerts[j].level != level
  {
    if alerts == [] then None
    else if alerts[0].level == level then Some(0)
    else match FirstAt(alerts[1..], level)
      case None => None
      case Some(k) => Some(k + 1)
  }

  /** `criticalAlerts[0] || warningAlerts[0] || alerts[0]`, the banner
      being absent for an empty list. */
  function PrimaryAlert<I(!new)>(alerts: seq<Alert<I>>): (r: Option<Alert<I>>)
    ensures r.Some? <==> alerts != []
    ensures r.Some? ==> r.value in alerts
  {
    var critical := Filter(alerts, LevelIs("critical"));
    var warning := Filter(alerts, LevelIs("warning"));
    if critical != [] then Some(critical[0])
    else if warning != [] then Some(warning[0])
    else if alerts != [] then Some(alerts[0])
    else None
  }

  /** The banner shows the earliest alert of the highest level present. */
  lemma PrimaryIsFirstMostSevere<I(!new)>(alerts: seq<Alert<I>>)
    requires alerts != []
    ensures FirstAt(alerts, "critical").Some? ==>
      PrimaryAlert(alerts) == Some(alerts[FirstAt(alerts, "critical").value])
    ensures FirstAt(alerts, "critical").None? && FirstAt(alerts, "warning").Some? ==>
      PrimaryAlert(alerts) == Some(alerts[FirstAt(alerts, "warning").value])
    ensures FirstAt(alerts, "critical").None? && FirstAt(alerts, "warning").None? ==>
      PrimaryAlert(alerts) == Some(alerts[0])
  {
    var c, w := FirstAt(alerts, "critical"), FirstAt(alerts, "warning");
    if c.Some? {
      FilterHeadIsFirst(alerts, LevelIs("critical"), c.value);
    } else {
      FilterNonePass(alerts, LevelIs("critical"));
      if w.Some? {
        FilterHeadIsFirst(alerts, LevelIs("warning"), w.value);
      } else {
        FilterNonePass(alerts, LevelIs("warning"));
      }
    }
  }

  datatype SeverityConfig = SeverityConfig(bgColor: string, borderColor: string, textColor: string, icon: string)

  /** The banner's `getSeverityConfig`: critical, warning, or the
      informational look for anything else. */
  function GetSeverityConfig(severity: string): (r: SeverityConfig)
    ensures severity == "critical" ==> r == SeverityConfig("bg-error/10", "border-error", "text-error", "AlertTriangle")
    ensures severity == "warning" ==> r == SeverityConfig("bg-warning/10", "border-warning", "text-warning", "AlertCircle")
    ensures severity !in {"critical", "warning"} ==> r == SeverityConfig("bg-primary/10", "border-primary", "text-primary", "Info")
  {
    match severity
    case "critical" => SeverityConfig("bg-error/10", "border-error", "text-error", "AlertTriangle")
    case "warning" => SeverityConfig("bg-warning/10", "border-warning", "text-warning", "AlertCircle")
    case _ => SeverityConfig("bg-primary/10", "border-primary", "text-primary", "Info")
  }

  /** What the banner renders: its alert and look, the "+n more" figure
      and the "View All (n)" figure, both present only beyond one alert. */
  datatype Banner<I> = Banner(primary: Alert<I>, config: SeverityConfig, more: Option<nat>, viewAll: Option<nat>)

  function RenderBanner<I(!new)>(alerts: seq<Alert<I>>): (r: Option<Banner<I>>)
    ensures r.None? <==> alerts == []
    ensures r.Some? ==> r.value.primary == PrimaryAlert(alerts).value
    ensures r.Some? ==> r.value.config == GetSeverityConfig(r.value.primary.level)
    ensures r.Some? ==> (r.value.more.Some? <==> |alerts| > 1) && (r.value.viewAll.Some? <==> |alerts| > 1)
    ensures r.Some? && |alerts| > 1 ==> r.value.more.value + 1 == |alerts| && r.value.viewAll.value == |alerts|
  {
    match PrimaryAlert(alerts)
    case None => None
    case Some(p) =>
      Some(Banner(p, GetSeverityConfig(p.level),
        if |alerts| > 1 then Some(|alerts| - 1) else None,
        if |alerts| > 1 then Some(|alerts|) else None))
  }

  /** The close button: `onDismiss(primaryAlert.id)`. */
  function DismissClick<I(!new)>(alerts: seq<Alert<I>>): (r: I)
    requires alerts != []
    ensures r == PrimaryAlert(alerts).value.id
    ensures exists i :: 0 <= i < |alerts| && alerts[i].id == r
  {
    var p := PrimaryAlert(alerts).value;
    assert p in alerts;
    p.id
  }

  /** Dismissing from the banner always shortens the list, so the banner
      moves on to another alert or disappears. */
  lemma DismissShortens<I(!new)>(alerts: seq<Alert<I>>)
    requires alerts != []
    ensures |Dismiss(alerts, DismissClick(alerts))| < |alerts|
  {
    var id := DismissClick(alerts);
    var k :| 0 <= k < |alerts| && alerts[k].id == id;
    FilterDropsFailing(alerts, (a: Alert<I>) => a.id != id, k);
  }
}

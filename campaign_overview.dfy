/** The campaign overview page: its alert list (marked read one by one
    or all at once, counted for the bell badge), the global filters it
    receives, auto-refresh and the export flag. */
module CampaignOverview {
  import opened Alerts
  import opened Filters

  class OverviewPage {
    var alerts: seq<Alert<int>>
    var filters: FilterMap
    var autoRefresh: bool
    var isExporting: bool

    /** The first render: no alerts yet, last seven days, auto-refresh on. */
    constructor()
      ensures alerts == [] && autoRefresh && !isExporting
      ensures filters == map["dateRange" := Str("last-7-days"), "campaigns" := List([]), "adGroups" := List([]), "keywords" := Str("")]
    {
      alerts := [];
      filters := map["dateRange" := Str("last-7-days"), "campaigns" := List([]), "adGroups" := List([]), "keywords" := Str("")];
      autoRefresh := true;
      isExporting := false;
    }

    /** The mount effect installs the alert feed. */
    method LoadAlerts(feed: seq<Alert<int>>)
      modifies this
      ensures alerts == feed
      ensures filters == old(filters) && autoRefresh == old(autoRefresh) && isExporting == old(isExporting)
    {
      alerts := feed;
    }

    /** `handleMarkAsRead(alertId)`. */
    method MarkAsRead(alertId: int)
      modifies this
      ensures alerts == MarkRead(old(alerts), alertId)
      ensures UnreadAlertCount() <= old(UnreadAlertCount())
      ensures filters == old(filters) && autoRefresh == old(autoRefresh) && isExporting == old(isExporting)
    {
      MarkReadUnreadCount(alerts, alertId);
      alerts := MarkRead(alerts, alertId);
    }

    /** `handleMarkAllAsRead`. */
    method MarkAllAsRead()
      modifies this
      ensures alerts == MarkAllRead(old(alerts))
      ensures UnreadAlertCount() == 0
      ensures filters == old(filters) && autoRefresh == old(autoRefresh) && isExporting == old(isExporting)
    {
      MarkAllReadClearsUnread(alerts);
      alerts := MarkAllRead(alerts);
    }

    /** `unreadAlertCount`, passed to the bell badge. */
    function UnreadAlertCount(): (r: nat)
      reads this
      ensures r <= |alerts|
      ensures r == 0 <==> forall i :: 0 <= i < |alerts| ==> alerts[i].read
    {
      UnreadCount(alerts)
    }

    /** `handleFilterChange`: the global filter bar's announcement replaces
        the page filters. */
    method HandleFilterChange(newFilters: FilterMap)
      modifies this
      ensures filters == newFilters
      ensures alerts == old(alerts) && autoRefresh == old(autoRefresh) && isExporting == old(isExporting)
    {
      filters := newFilters;
    }

    /** The pause/resume button. */
    method ToggleAutoRefresh()
      modifies this
      ensures autoRefresh == !old(autoRefresh)
      ensures alerts == old(alerts) && filters == old(filters) && isExporting == old(isExporting)
    {
      autoRefresh := !autoRefresh;
    }

    /** `handleExport` starts: the flag is raised until the export settles. */
    method ExportStarted()
      modifies this
      ensures isExporting
      ensures alerts == old(alerts) && filters == old(filters) && autoRefresh == old(autoRefresh)
    {
      isExporting := true;
    }

    /** The `finally` of `handleExport`: lowered whether or not it failed. */
    method ExportSettled()
      modifies this
      ensures !isExporting
      ensures alerts == old(alerts) && filters == old(filters) && autoRefresh == old(autoRefresh)
    {
      isExporting := false;
    }
  }
}

/** The bell in the header: the unread count badge (capped at "99+"), a
    dropdown that only opens while there are alerts to show, and the
    callbacks it makes to its page. */
module AlertBadge {
  import opened Common
  import opened Alerts

  /** The badge over the bell: nothing for a zero count, the count up to
      99, then "99+". */
  function BadgeText(alertCount: int): (r: Option<string>)
    ensures r.None? <==> alertCount <= 0
    ensures alertCount > 99 ==> r == Some("99+")
    ensures 0 < alertCount <= 99 ==> r == Some(NatToString(alertCount))
  {
    if alertCount <= 0 then None
    else if alertCount > 99 then Some("99+")
    else Some(NatToString(alertCount))
  }

  /** The badge shows the exact count up to 99: its digits read back as
      the count, and it never runs past two characters. */
  lemma BadgeTextReadsBack(alertCount: int)
    requires 0 < alertCount <= 99
    ensures |BadgeText(alertCount).value| <= 2
    ensures DecimalValue(BadgeText(alertCount).value) == alertCount
  {
    NatToStringRoundTrip(alertCount);
  }

  datatype TypeConfig = TypeConfig(color: string, bgColor: string, textColor: string, icon: string)

  /** `getAlertTypeConfig`: critical, warning, info, and a plain bell for
      anything else. */
  function GetAlertTypeConfig(level: string): (r: TypeConfig)
    ensures level == "critical" ==> r.icon == "AlertTriangle" && r.color == "error"
    ensures level == "warning" ==> r.icon == "AlertCircle" && r.color == "warning"
    ensures level == "info" ==> r.icon == "Info" && r.color == "primary"
    ensures r.icon == "Bell" <==> level !in {"critical", "warning", "info"}
  {
    match level
    case "critical" => TypeConfig("error", "bg-error/10", "text-error", "AlertTriangle")
    case "warning" => TypeConfig("warning", "bg-warning/10", "text-warning", "AlertCircle")
    case "info" => TypeConfig("primary", "bg-primary/10", "text-primary", "Info")
    case _ => TypeConfig("muted", "bg-muted", "text-muted-foreground", "Bell")
  }

  /** The calls the badge makes to its page. */
  datatype BadgeCall<I> = AlertClicked(alert: Alert<I>) | MarkAsRead(id: I) | MarkAllAsRead

  /** `handleAlertItemClick`: report the click, then ask for the alert to be
      marked read unless it already is. */
  function ItemClickCalls<I>(alert: Alert<I>): (r: seq<BadgeCall<I>>)
    ensures |r| >= 1 && r[0] == AlertClicked(alert)
    ensures |r| == 2 <==> !alert.read
    ensures |r| == 2 ==> r[1] == MarkAsRead(alert.id)
  {
    [AlertClicked(alert)] + (if !alert.read then [MarkAsRead(alert.id)] else [])
  }

  /** Clicking an unread alert of the list, with the page marking it read,
      lowers the unread count. */
  lemma ItemClickLowersUnread<I(!new)>(alerts: seq<Alert<I>>, k: nat)
    requires k < |alerts| && !alerts[k].read
    ensures UnreadCount(MarkRead(alerts, ItemClickCalls(alerts[k])[1].id)) < UnreadCount(alerts)
  {
    var id := alerts[k].id;
    MarkReadUnreadCount(alerts, id);
    var p := (a: Alert<I>) => a.id == id && !a.read;
    assert alerts[k] in Filter(alerts, p);
  }

  class Badge {
    var isDropdownOpen: bool

    constructor()
      ensures !isDropdownOpen
    {
      isDropdownOpen := false;
    }

    /** `handleBadgeClick`: the bell does nothing without alerts. */
    method BadgeClick(alertCount: int)
      modifies this
      ensures alertCount > 0 ==> isDropdownOpen == !old(isDropdownOpen)
      ensures alertCount <= 0 ==> isDropdownOpen == old(isDropdownOpen)
    {
      if alertCount > 0 {
        isDropdownOpen := !isDropdownOpen;
      }
    }

    /** The dropdown is rendered only while open and there are alerts. */
    predicate DropdownVisible(alertCount: int)
      reads this
    {
      isDropdownOpen && alertCount > 0
    }

    method ItemClick<I>(alert: Alert<I>) returns (calls: seq<BadgeCall<I>>)
      ensures calls == ItemClickCalls(alert)
    {
      calls := [AlertClicked(alert)];
      if !alert.read {
        calls := calls + [MarkAsRead(alert.id)];
      }
    }

    /** `handleMarkAllAsRead`: report it, then close the dropdown. */
    method MarkAllClick<I>() returns (call: BadgeCall<I>)
      modifies this
      ensures call == MarkAllAsRead && !isDropdownOpen
    {
      call := MarkAllAsRead;
      isDropdownOpen := false;
    }

    /** The backdrop, and "View all alerts" (which also navigates to
        `/alerts`), close the dropdown. */
    method Close()
      modifies this
      ensures !isDropdownOpen
    {
      isDropdownOpen := false;
    }
  }

  /** "Mark all read" is offered exactly when some alert is unread. */
  lemma MarkAllOfferedWhenUnread<I(!new)>(alerts: seq<Alert<I>>)
    ensures (exists i :: 0 <= i < |alerts| && !alerts[i].read) <==> UnreadCount(alerts) > 0
  {
  }
}

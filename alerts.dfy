/** Alert records and the list operations the three pages apply to them:
    the unread count, mark one or all as read, and dismiss by id. */
module Alerts {
  import opened Common

  /** An alert: its id (a string on the keyword page, a number elsewhere),
      its level (the `type` field on the overview and keyword pages, the
      `severity` field on the monitoring page), its read flag (absent, so
      `false`, on the monitoring page) and its timestamp in milliseconds. */
  datatype Alert<I> = Alert(id: I, level: string, title: string, read: bool, timestamp: int)

  predicate IsUnread<I>(a: Alert<I>)
  {
    !a.read
  }

  /** `alerts.filter(a => !a.read).length`. */
  function UnreadCount<I(!new)>(alerts: seq<Alert<I>>): (r: nat)
    ensures r <= |alerts|
    ensures r == 0 <==> forall i :: 0 <= i < |alerts| ==> alerts[i].read
    ensures r == |alerts| <==> forall i :: 0 <= i < |alerts| ==> !alerts[i].read
  {
    UnreadFacts(alerts);
    Count(alerts, IsUnread)
  }

  lemma {:induction false} UnreadFacts<I(!new)>(alerts: seq<Alert<I>>)
    ensures Count(alerts, IsUnread) == 0 <==> forall i :: 0 <= i < |alerts| ==> alerts[i].read
    ensures Count(alerts, IsUnread) == |alerts| <==> forall i :: 0 <= i < |alerts| ==> !alerts[i].read
  {
    if alerts != [] {
      UnreadFacts(alerts[1..]);
      assert forall i :: 1 <= i < |alerts| ==> alerts[i] == alerts[1..][i - 1];
    }
  }

  /** `alerts.map(a => a.id === id ? { ...a, read: true } : a)`. */
  function MarkRead<I(==)>(alerts: seq<Alert<I>>, id: I): (r: seq<Alert<I>>)
    ensures |r| == |alerts|
    ensures forall i :: 0 <= i < |r| ==>
      r[i] == if alerts[i].id == id then alerts[i].(read := true) else alerts[i]
  {
    seq(|alerts|, i requires 0 <= i < |alerts| =>
      if alerts[i].id == id then alerts[i].(read := true) else alerts[i])
  }

  /** `alerts.map(a => ({ ...a, read: true }))`. */
  function MarkAllRead<I>(alerts: seq<Alert<I>>): (r: seq<Alert<I>>)
    ensures |r| == |alerts|
    ensures forall i :: 0 <= i < |r| ==> r[i] == alerts[i].(read := true)
  {
    seq(|alerts|, i requires 0 <= i < |alerts| => alerts[i].(read := true))
  }

  lemma MarkReadIdempotent<I>(alerts: seq<Alert<I>>, id: I)
    ensures MarkRead(MarkRead(alerts, id), id) == MarkRead(alerts, id)
  {
  }

  /** After marking every alert read nothing is unread, and every alert
      keeps its position and its other fields. */
  lemma MarkAllReadClearsUnread<I(!new)>(alerts: seq<Alert<I>>)
    ensures UnreadCount(MarkAllRead(alerts)) == 0
    ensures forall i :: 0 <= i < |alerts| ==>
      MarkAllRead(alerts)[i].id == alerts[i].id && MarkAllRead(alerts)[i].level == alerts[i].level
  {
  }

  /** Marking one id read lowers the unread count by the number of unread
      alerts carrying that id. */
  lemma {:induction false} MarkReadUnreadCount<I(!new)>(alerts: seq<Alert<I>>, id: I)
    ensures UnreadCount(MarkRead(alerts, id)) ==
      UnreadCount(alerts) - Count(alerts, (a: Alert<I>) => a.id == id && !a.read)
  {
    if alerts != [] {
      MarkReadUnreadCount(alerts[1..], id);
      assert MarkRead(alerts, id)[1..] == MarkRead(alerts[1..], id);
    }
  }

  /** `alerts.filter(a => a.id !== id)`. */
  function Dismiss<I(==,!new)>(alerts: seq<Alert<I>>, id: I): (r: seq<Alert<I>>)
    ensures forall a :: a in r <==> a in alerts && a.id != id
    ensures |r| <= |alerts|
  {
    Filter(alerts, (a: Alert<I>) => a.id != id)
  }

  /** Dismissing keeps the other alerts in their order, and is a no-op for
      an id no alert carries. */
  lemma DismissFacts<I(!new)>(alerts: seq<Alert<I>>, id: I)
    ensures IsSubsequence(Dismiss(alerts, id), alerts)
    ensures (forall i :: 0 <= i < |alerts| ==> alerts[i].id != id) ==> Dismiss(alerts, id) == alerts
  {
    FilterIsSubsequence(alerts, (a: Alert<I>) => a.id != id);
    if forall i :: 0 <= i < |alerts| ==> alerts[i].id != id {
      FilterAllPass(alerts, (a: Alert<I>) => a.id != id);
    }
  }
}

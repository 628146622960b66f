/** The relative times printed by the alert dropdown, the status grid and
    the operations panel ("Just now", "5m ago", "3h ago", or a date), and
    by the status indicator ("42s ago", "5m ago", or a clock time).
    The current time is a parameter; times are milliseconds since the
    epoch. */
module TimeAgo {
  import opened Common

  /** The four forms of `formatTimeAgo`. */
  datatype Elapsed = JustNow | MinutesAgo(minutes: nat) | HoursAgo(hours: nat) | OnDate

  /** `diffMinutes = floor(diff / 60000)`, `diffHours = floor(diffMinutes
      / 60)`; Dafny's division by a positive constant is that floor. A
      time in the future gives a negative difference and reads "Just now". */
  function Classify(diffMs: int): (r: Elapsed)
    ensures r == JustNow <==> diffMs < 60000
    ensures r.MinutesAgo? ==> 60000 <= diffMs < 3600000 && 1 <= r.minutes < 60
    ensures r.MinutesAgo? ==> r.minutes * 60000 <= diffMs < (r.minutes + 1) * 60000
    ensures r.HoursAgo? ==> 3600000 <= diffMs < 86400000 && 1 <= r.hours < 24
    ensures r.HoursAgo? ==> r.hours * 3600000 <= diffMs < (r.hours + 1) * 3600000
    ensures r == OnDate <==> diffMs >= 86400000
  {
    var minutes := diffMs / 60000;
    var hours := minutes / 60;
    if minutes < 1 then JustNow
    else if minutes < 60 then MinutesAgo(minutes)
    else if hours < 24 then HoursAgo(hours)
    else OnDate
  }

  function Rank(e: Elapsed): nat
  {
    match e
    case JustNow => 0
    case MinutesAgo(_) => 1
    case HoursAgo(_) => 2
    case OnDate => 3
  }

  /** An older event never gets a younger reading, and within a form the
      number never goes down. */
  lemma ClassifyMonotone(d1: int, d2: int)
    requires d1 <= d2
    ensures Rank(Classify(d1)) <= Rank(Classify(d2))
    ensures Classify(d1).MinutesAgo? && Classify(d2).MinutesAgo? ==> Classify(d1).minutes <= Classify(d2).minutes
    ensures Classify(d1).HoursAgo? && Classify(d2).HoursAgo? ==> Classify(d1).hours <= Classify(d2).hours
  {
  }

  /** The text of a reading; `localeDate` is the event's
      `toLocaleDateString()`. */
  function ElapsedText(e: Elapsed, localeDate: string): (r: string)
  {
    match e
    case JustNow => "Just now"
    case MinutesAgo(m) => NatToString(m) + "m ago"
    case HoursAgo(h) => NatToString(h) + "h ago"
    case OnDate => localeDate
  }

  /** `formatTimeAgo(timestamp)` at time `now`. */
  function FormatTimeAgo(now: int, timestamp: int, localeDate: string): (r: string)
    ensures now - timestamp < 60000 ==> r == "Just now"
    ensures now - timestamp >= 86400000 ==> r == localeDate
  {
    ElapsedText(Classify(now - timestamp), localeDate)
  }

  /** A number followed by a unit suffix reads back as that number. */
  lemma ReadBack(n: nat, suffix: string)
    ensures |NatToString(n) + suffix| >= |suffix|
    ensures var t := NatToString(n) + suffix;
      t[|t| - |suffix|..] == suffix &&
      (forall i :: 0 <= i < |t| - |suffix| ==> '0' <= t[i] <= '9') &&
      DecimalValue(t[..|t| - |suffix|]) == n
  {
    var t := NatToString(n) + suffix;
    assert t[..|t| - |suffix|] == NatToString(n);
    NatToStringRoundTrip(n);
  }

  /** The minutes shown for an event between one minute and one hour old
      are the whole minutes elapsed, and they can be read back from the
      text. */
  lemma MinutesTextReadsBack(now: int, timestamp: int, localeDate: string)
    requires 60000 <= now - timestamp < 3600000
    ensures var t := FormatTimeAgo(now, timestamp, localeDate);
      |t| > 5 && t[|t| - 5..] == "m ago" &&
      (forall i :: 0 <= i < |t| - 5 ==> '0' <= t[i] <= '9') &&
      DecimalValue(t[..|t| - 5]) * 60000 <= now - timestamp < (DecimalValue(t[..|t| - 5]) + 1) * 60000
  {
    var e := Classify(now - timestamp);
    ReadBack(e.minutes, "m ago");
  }

  /** Likewise the hours shown for an event between one hour and one day
      old. */
  lemma HoursTextReadsBack(now: int, timestamp: int, localeDate: string)
    requires 3600000 <= now - timestamp < 86400000
    ensures var t := FormatTimeAgo(now, timestamp, localeDate);
      |t| > 5 && t[|t| - 5..] == "h ago" &&
      (forall i :: 0 <= i < |t| - 5 ==> '0' <= t[i] <= '9') &&
      DecimalValue(t[..|t| - 5]) * 3600000 <= now - timestamp < (DecimalValue(t[..|t| - 5]) + 1) * 3600000
  {
    var e := Classify(now - timestamp);
    ReadBack(e.hours, "h ago");
  }

  // ---------------------------------------------------------------------
  // `getLastUpdateText` of the status indicator

  /** `${n}` for an integer, with a minus sign when negative. */
  function IntToString(n: int): (r: string)
    ensures n >= 0 ==> r == NatToString(n)
    ensures n < 0 ==> r == "-" + NatToString(-n)
  {
    if n < 0 then "-" + NatToString(-n) else NatToString(n)
  }

  /** The forms of the indicator's text. */
  datatype Freshness = NoUpdate | SecondsAgo(seconds: int) | MinutesOld(minutes: nat) | AtClock

  /** Seconds below 60 (negative ones, for an update stamped in the future,
      included), whole minutes below 60, then the clock time. */
  function ClassifyUpdate(currentTime: int, lastUpdate: Option<int>): (r: Freshness)
    ensures lastUpdate.None? <==> r == NoUpdate
    ensures r.SecondsAgo? ==> currentTime - lastUpdate.value < 60000 && r.seconds < 60
    ensures r.SecondsAgo? ==> r.seconds * 1000 <= currentTime - lastUpdate.value < (r.seconds + 1) * 1000
    ensures r.MinutesOld? ==> 60000 <= currentTime - lastUpdate.value < 3600000 && 1 <= r.minutes < 60
    ensures r == AtClock <==> lastUpdate.Some? && currentTime - lastUpdate.value >= 3600000
  {
    match lastUpdate
    case None => NoUpdate
    case Some(t) =>
      var seconds := (currentTime - t) / 1000;
      var minutes := seconds / 60;
      if seconds < 60 then SecondsAgo(seconds)
      else if minutes < 60 then MinutesOld(minutes)
      else AtClock
  }

  /** `getLastUpdateText`; `clock(t)` is the hour-and-minute rendering of
      the time `t`. */
  function LastUpdateText(currentTime: int, lastUpdate: Option<int>, clock: int -> string): (r: string)
    ensures lastUpdate.None? ==> r == clock(currentTime)
    ensures lastUpdate.Some? && currentTime - lastUpdate.value < 60000 ==>
      r == IntToString((currentTime - lastUpdate.value) / 1000) + "s ago"
    ensures lastUpdate.Some? && 60000 <= currentTime - lastUpdate.value < 3600000 ==>
      r == NatToString((currentTime - lastUpdate.value) / 60000) + "m ago"
    ensures lastUpdate.Some? && currentTime - lastUpdate.value >= 3600000 ==> r == clock(lastUpdate.value)
  {
    match ClassifyUpdate(currentTime, lastUpdate)
    case NoUpdate => clock(currentTime)
    case SecondsAgo(s) => IntToString(s) + "s ago"
    case MinutesOld(m) => NatToString(m) + "m ago"
    case AtClock => clock(lastUpdate.value)
  }

  /** The indicator and `formatTimeAgo` agree on the minutes of an update
      between one minute and one hour old. */
  lemma IndicatorAgreesOnMinutes(now: int, t: int, clock: int -> string, localeDate: string)
    requires 60000 <= now - t < 3600000
    ensures LastUpdateText(now, Some(t), clock) == FormatTimeAgo(now, t, localeDate)
  {
    var d := now - t;
    assert (d / 1000) / 60 == d / 60000;
  }
}

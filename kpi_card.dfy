/** A KPI card of the campaign overview: the headline value in its
    format, the trend badge and the optional sparkline. */
module KpiCard {
  /** How the headline value is written. The two `Intl.NumberFormat`
      styles are parameters of the model (`currency` with no decimals, and
      `number` with grouping); `fmt` is plain template-literal rendering. */
  datatype Formatters = Formatters(currency: real -> string, grouped: real -> string, fmt: real -> string)

  /** `formatValue`: currency, percentage, number, or the raw value. */
  function FormatValue(format: string, val: real, f: Formatters): (r: string)
    ensures format == "percentage" ==> r == f.fmt(val) + "%"
    ensures format == "currency" ==> r == f.currency(val)
    ensures format == "number" ==> r == f.grouped(val)
    ensures format !in {"currency", "percentage", "number"} ==> r == f.fmt(val)
  {
    if format == "currency" then f.currency(val)
    else if format == "percentage" then f.fmt(val) + "%"
    else if format == "number" then f.grouped(val)
    else f.fmt(val)
  }

  datatype TrendBadge = TrendBadge(color: string, icon: string)

  /** `getTrendColor` and `getTrendIcon`: both are chosen by the `trend`
      prop alone, `'up'`, `'down'`, or anything else. */
  function GetTrendBadge(trend: string): (r: TrendBadge)
    ensures r.color == "text-success" <==> trend == "up"
    ensures r.color == "text-error" <==> trend == "down"
    ensures r.icon == "TrendingUp" <==> trend == "up"
    ensures r.icon == "TrendingDown" <==> trend == "down"
    ensures trend !in {"up", "down"} ==> r == TrendBadge("text-muted-foreground", "Minus")
  {
    if trend == "up" then TrendBadge("text-success", "TrendingUp")
    else if trend == "down" then TrendBadge("text-error", "TrendingDown")
    else TrendBadge("text-muted-foreground", "Minus")
  }

  function Abs(x: real): (r: real)
    ensures r >= 0.0 && (r == x || r == -x)
  {
    if x < 0.0 then -x else x
  }

  /** The change figure: its magnitude as a percentage, or in the card's
      format. The sign is never printed; the trend icon carries it. */
  function ChangeText(change: real, changeType: string, format: string, f: Formatters): (r: string)
    ensures changeType == "percentage" ==> r == f.fmt(Abs(change)) + "%"
    ensures changeType != "percentage" ==> r == FormatValue(format, Abs(change), f)
  {
    if changeType == "percentage" then f.fmt(Abs(change)) + "%" else FormatValue(format, Abs(change), f)
  }

  /** A change and its opposite are printed identically. */
  lemma ChangeTextIgnoresSign(change: real, changeType: string, format: string, f: Formatters)
    ensures ChangeText(-change, changeType, format, f) == ChangeText(change, changeType, format, f)
  {
    assert Abs(-change) == Abs(change);
  }
}

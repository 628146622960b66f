/** The four metric cards above the keyword heatmap: the change badge of
    each card and its mini histogram. */
module KeywordMetricsStrip {
  import opened Common

  datatype ChangeIcon = TrendingUp | TrendingDown | Minus

  /** `getChangeColor` and `getChangeIcon` together: both follow the sign
      of the change. */
  datatype ChangeBadge = ChangeBadge(color: string, icon: ChangeIcon)

  function GetChangeBadge(change: real): (r: ChangeBadge)
    ensures r.icon == TrendingUp <==> change > 0.0
    ensures r.icon == TrendingDown <==> change < 0.0
    ensures r.color == "text-success" <==> change > 0.0
    ensures r.color == "text-error" <==> change < 0.0
  {
    if change > 0.0 then ChangeBadge("text-success", TrendingUp)
    else if change < 0.0 then ChangeBadge("text-error", TrendingDown)
    else ChangeBadge("text-muted-foreground", Minus)
  }

  /** `Math.abs(change)`, the figure printed next to the icon. */
  function AbsChange(change: real): (r: real)
    ensures r >= 0.0
    ensures r == change || r == -change
  {
    if change < 0.0 then -change else change
  }

  /** The badge of a change and of its opposite show the same figure with
      opposite icons. */
  lemma BadgeOfOpposite(change: real)
    requires change != 0.0
    ensures AbsChange(-change) == AbsChange(change)
    ensures GetChangeBadge(-change).icon != GetChangeBadge(change).icon
    ensures GetChangeBadge(-change).icon != Minus
  {
  }

  /** Bar heights of the mini histogram: each value as a percentage of
      the largest. */
  function HistogramHeights(values: seq<real>): (r: seq<real>)
    requires |values| > 0 && MaxOf(values) > 0.0
    ensures |r| == |values|
    ensures forall i :: 0 <= i < |r| ==> r[i] == (values[i] / MaxOf(values)) * 100.0
  {
    var m := MaxOf(values);
    seq(|values|, i requires 0 <= i < |values| => (values[i] / m) * 100.0)
  }

  /** With non-negative values every bar is between 0 and 100 percent. */
  lemma HistogramBounded(values: seq<real>)
    requires |values| > 0 && MaxOf(values) > 0.0
    requires forall i :: 0 <= i < |values| ==> values[i] >= 0.0
    ensures forall i :: 0 <= i < |values| ==> 0.0 <= HistogramHeights(values)[i] <= 100.0
  {
    var m, h := MaxOf(values), HistogramHeights(values);
    forall i | 0 <= i < |values| ensures 0.0 <= h[i] <= 100.0 {
      assert values[i] <= m;
      RatioUnit(values[i], m);
      ScaleUnit(values[i] / m, 100.0);
    }
  }

  /** The largest value fills its bar. */
  lemma HistogramPeak(values: seq<real>)
    requires |values| > 0 && MaxOf(values) > 0.0
    ensures exists i :: 0 <= i < |values| && HistogramHeights(values)[i] == 100.0
  {
    var m := MaxOf(values);
    var k :| 0 <= k < |values| && values[k] == m;
    RatioSelf(m);
    assert HistogramHeights(values)[k] == 100.0;
  }

  /** The bars keep the order of the values. */
  lemma HistogramMonotone(values: seq<real>, i: nat, j: nat)
    requires |values| > 0 && MaxOf(values) > 0.0
    requires i < |values| && j < |values| && values[i] <= values[j]
    ensures HistogramHeights(values)[i] <= HistogramHeights(values)[j]
  {
    RatioMono(values[i], values[j], MaxOf(values));
  }
}

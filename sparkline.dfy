/** The small trend lines drawn by the campaign table (40 x 12, from a
    campaign's CPA history) and by the KPI cards (60 x 20): values are
    spread evenly from left to right and scaled between the smallest
    (bottom) and the largest (top), then joined into an SVG path. */
module Sparkline {
  import opened Common

  datatype Point = Point(x: real, y: real)

  /** `max - min || 1`: the value span, or 1 when all values are equal. */
  function Span(values: seq<real>): (r: real)
    requires |values| > 0
    ensures r > 0.0
    ensures MaxOf(values) > MinOf(values) ==> r == MaxOf(values) - MinOf(values)
  {
    var d := MaxOf(values) - MinOf(values);
    var k :| 0 <= k < |values| && values[k] == MinOf(values);
    assert values[k] <= MaxOf(values);
    if d == 0.0 then 1.0 else d
  }

  /** `x = (index / (length - 1)) * width`. */
  function SparkX(index: nat, n: nat, width: real): real
    requires n >= 2
  {
    ((index as real) / ((n - 1) as real)) * width
  }

  /** `y = height - ((value - min) / range) * height`. */
  function SparkY(value: real, values: seq<real>, height: real): real
    requires |values| > 0
  {
    ScaleY(value, MinOf(values), Span(values), height)
  }

  function ScaleY(value: real, lo: real, span: real, height: real): real
    requires span > 0.0
  {
    height - ((value - lo) / span) * height
  }

  lemma ScaleYEnds(lo: real, span: real, height: real)
    requires span > 0.0
    ensures ScaleY(lo, lo, span, height) == height
    ensures ScaleY(lo + span, lo, span, height) == 0.0
  {
    assert (lo + span - lo) / span == 1.0;
  }

  /** The points of a line through at least two values. */
  function SparkPoints(values: seq<real>, width: real, height: real): (r: seq<Point>)
    requires |values| >= 2
    ensures |r| == |values|
    ensures forall i :: 0 <= i < |r| ==> r[i] == Point(SparkX(i, |values|, width), SparkY(values[i], values, height))
  {
    seq(|values|, i requires 0 <= i < |values| =>
      Point(SparkX(i, |values|, width), SparkY(values[i], values, height)))
  }

  /** The line starts at the left edge, ends at the right edge and no
      point lies outside them. */
  lemma SparkXInBox(i: nat, n: nat, width: real)
    requires n >= 2 && i < n && width >= 0.0
    ensures 0.0 <= SparkX(i, n, width) <= width
    ensures SparkX(0, n, width) == 0.0 && SparkX(n - 1, n, width) == width
  {
    var t := (i as real) / ((n - 1) as real);
    RatioUnit(i as real, (n - 1) as real);
    ScaleUnit(t, width);
    RatioSelf((n - 1) as real);
  }

  /** Every value lies within the span above the smallest. */
  lemma SpanCovers(values: seq<real>, i: nat)
    requires i < |values|
    ensures 0.0 <= values[i] - MinOf(values) <= Span(values)
  {
    assert MinOf(values) <= values[i] <= MaxOf(values);
  }

  /** Every value of the line is drawn between the top and bottom edges. */
  lemma SparkYInBox(values: seq<real>, height: real, i: nat)
    requires i < |values| && height >= 0.0
    ensures 0.0 <= SparkY(values[i], values, height) <= height
  {
    SpanCovers(values, i);
    ScaledInRange(values[i] - MinOf(values), Span(values), height);
  }

  /** The smallest value sits on the bottom edge, and when the values
      differ the largest sits on the top edge. */
  lemma SparkYExtremes(values: seq<real>, height: real)
    requires |values| > 0
    ensures SparkY(MinOf(values), values, height) == height
    ensures MaxOf(values) > MinOf(values) ==> SparkY(MaxOf(values), values, height) == 0.0
  {
    var lo, hi, span := MinOf(values), MaxOf(values), Span(values);
    ScaleYEnds(lo, span, height);
    if hi > lo {
      assert hi == lo + span;
    }
  }

  /** A flat series falls back to a span of 1, so the whole line lies on
      the bottom edge. */
  lemma ConstantSeriesIsFlat(values: seq<real>, height: real, i: nat)
    requires i < |values|
    requires forall j :: 0 <= j < |values| ==> values[j] == values[0]
    ensures SparkY(values[i], values, height) == height
  {
    var k :| 0 <= k < |values| && values[k] == MinOf(values);
    assert values[i] == MinOf(values);
    ScaleYEnds(MinOf(values), Span(values), height);
  }

  /** A larger value is drawn higher up. */
  lemma SparkYMonotone(values: seq<real>, height: real, a: real, b: real)
    requires |values| > 0 && height > 0.0 && a < b
    ensures SparkY(b, values, height) < SparkY(a, values, height)
  {
    var lo, span := MinOf(values), Span(values);
    RatioMono(a - lo, b - lo, span);
    ScaleMono((a - lo) / span, (b - lo) / span, height);
  }

  /** `${x},${y}`: one point of the path; `fmt` renders a number the way
      a template literal does. */
  function PointText(p: Point, fmt: real -> string): string
  {
    fmt(p.x) + "," + fmt(p.y)
  }

  /** The point texts joined by " L ". */
  function JoinPoints(points: seq<Point>, fmt: real -> string): (r: string)
    ensures points == [] <==> r == ""
    ensures |points| == 1 ==> r == PointText(points[0], fmt)
  {
    if points == [] then ""
    else if |points| == 1 then PointText(points[0], fmt)
    else
      var rest := JoinPoints(points[1..], fmt);
      PointText(points[0], fmt) + " L " + rest
  }

  /** Joining two non-empty runs of points puts one " L " between their
      texts: the path lists every point once, in order. */
  lemma {:induction false} JoinPointsAppend(ps: seq<Point>, qs: seq<Point>, fmt: real -> string)
    requires ps != [] && qs != []
    ensures JoinPoints(ps + qs, fmt) == JoinPoints(ps, fmt) + " L " + JoinPoints(qs, fmt)
  {
    assert (ps + qs)[0] == ps[0];
    assert (ps + qs)[1..] == ps[1..] + qs;
    if |ps| > 1 {
      JoinPointsAppend(ps[1..], qs, fmt);
    }
  }

  /** `generateSparkline` of the campaign table (40 x 12). It has no guard
      for an empty history: `Math.max()` and `Math.min()` of nothing give
      a span of `-Infinity`, which is truthy, so `|| 1` does not apply; no
      points are mapped, and the path is just "M ". */
  function CampaignSparkline(history: seq<real>, fmt: real -> string): (r: string)
    requires |history| != 1
    ensures |r| >= 2 && r[..2] == "M "
    ensures history == [] ==> r == "M "
    ensures history != [] ==> r == "M " + JoinPoints(SparkPoints(history, 40.0, 12.0), fmt)
  {
    var pts := if history == [] then [] else SparkPoints(history, 40.0, 12.0);
    assert ("M " + JoinPoints(pts, fmt))[..2] == "M ";
    "M " + JoinPoints(pts, fmt)
  }

  /** `generateSparklinePath` of the KPI card (60 x 20): empty data draws
      nothing. */
  function KpiSparkline(data: seq<real>, fmt: real -> string): (r: string)
    requires |data| != 1
    ensures data == [] <==> r == ""
    ensures data != [] ==> |r| >= 2 && r[..2] == "M "
    ensures data != [] ==> r == "M " + JoinPoints(SparkPoints(data, 60.0, 20.0), fmt)
  {
    if data == [] then ""
    else
      var path := "M " + JoinPoints(SparkPoints(data, 60.0, 20.0), fmt);
      assert path[..2] == "M ";
      path
  }
}

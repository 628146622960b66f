/** The keyword heatmap: each keyword is a bubble placed by impressions
    (x) and conversion rate (y), sized by spend and coloured by its
    performance zone; a lasso drawn in lasso mode selects the keywords
    whose bubble centres fall inside it. */
module KeywordHeatmap {
  import opened Common
  import opened KeywordData

  // ---------------------------------------------------------------------
  // Scales of the 800 x 400 chart with 40 units of padding

  const Width: real := 800.0
  const Height: real := 400.0
  const Padding: real := 40.0

  function ImpressionValues(keywords: seq<Keyword>): (r: seq<real>)
    ensures |r| == |keywords|
    ensures forall i :: 0 <= i < |r| ==> r[i] == keywords[i].impressions as real
  {
    seq(|keywords|, i requires 0 <= i < |keywords| => keywords[i].impressions as real)
  }

  function RateValues(keywords: seq<Keyword>): (r: seq<real>)
    ensures |r| == |keywords|
    ensures forall i :: 0 <= i < |r| ==> r[i] == keywords[i].conversionRate
  {
    seq(|keywords|, i requires 0 <= i < |keywords| => keywords[i].conversionRate)
  }

  function SpendValues(keywords: seq<Keyword>): (r: seq<real>)
    ensures |r| == |keywords|
    ensures forall i :: 0 <= i < |r| ==> r[i] == keywords[i].spend
  {
    seq(|keywords|, i requires 0 <= i < |keywords| => keywords[i].spend)
  }

  /** `xScale`: impressions from 0 to the maximum span the plot from the
      left padding to the right padding, in increasing order. */
  function XScale(impressions: real, maxImpressions: real): (r: real)
    requires maxImpressions > 0.0
    ensures impressions == 0.0 ==> r == Padding
    ensures impressions == maxImpressions ==> r == Width - Padding
    ensures 0.0 <= impressions <= maxImpressions ==> Padding <= r <= Width - Padding
  {
    ScaledInRange(impressions, maxImpressions, Width - 2.0 * Padding);
    (impressions / maxImpressions) * (Width - 2.0 * Padding) + Padding
  }

  /** `yScale`: rates from 0 to the maximum span the plot from the bottom
      padding up to the top padding (SVG y grows downwards). */
  function YScale(conversionRate: real, maxRate: real): (r: real)
    requires maxRate > 0.0
    ensures conversionRate == 0.0 ==> r == Height - Padding
    ensures conversionRate == maxRate ==> r == Padding
    ensures 0.0 <= conversionRate <= maxRate ==> Padding <= r <= Height - Padding
  {
    ScaledInRange(conversionRate, maxRate, Height - 2.0 * Padding);
    Height - Padding - (conversionRate / maxRate) * (Height - 2.0 * Padding)
  }

  /** More impressions place a bubble further right; a higher rate places
      it higher up. */
  lemma ScalesMonotone(a: real, b: real, max: real)
    requires max > 0.0 && a < b
    ensures XScale(a, max) < XScale(b, max)
    ensures YScale(a, max) > YScale(b, max)
  {
    RatioMono(a, b, max);
  }

  /** `bubbleSize`: radius 4 for no spend up to 20 for the largest spend. */
  function BubbleSize(spend: real, maxSpend: real): (r: real)
    requires maxSpend > 0.0
    ensures 0.0 <= spend <= maxSpend ==> 4.0 <= r <= 20.0
    ensures spend == maxSpend ==> r == 20.0
  {
    ScaledInRange(spend, maxSpend, 20.0 - 4.0);
    4.0 + (spend / maxSpend) * (20.0 - 4.0)
  }

  // ---------------------------------------------------------------------
  // Performance zones relative to the averages of the shown keywords

  function Sum(values: seq<real>): real
  {
    if values == [] then 0.0 else values[0] + Sum(values[1..])
  }

  /** `values.reduce((s, v) => s + v, 0) / values.length`. */
  function Mean(values: seq<real>): real
    requires |values| > 0
  {
    Sum(values) / (|values| as real)
  }

  lemma {:induction false} SumAbove(values: seq<real>, a: real)
    requires forall i :: 0 <= i < |values| ==> values[i] > a
    ensures |values| > 0 ==> Sum(values) > (|values| as real) * a
  {
    if |values| > 0 {
      assert forall i :: 1 <= i < |values| ==> values[1..][i - 1] == values[i];
      SumAbove(values[1..], a);
    }
  }

  lemma {:induction false} SumBelow(values: seq<real>, a: real)
    requires forall i :: 0 <= i < |values| ==> values[i] < a
    ensures |values| > 0 ==> Sum(values) < (|values| as real) * a
  {
    if |values| > 0 {
      assert forall i :: 1 <= i < |values| ==> values[1..][i - 1] == values[i];
      SumBelow(values[1..], a);
    }
  }

  /** Not every value lies above the mean, and not every value below it. */
  lemma MeanIsAttained(values: seq<real>)
    requires |values| > 0
    ensures exists i :: 0 <= i < |values| && values[i] <= Mean(values)
    ensures exists i :: 0 <= i < |values| && values[i] >= Mean(values)
  {
    var n := |values| as real;
    assert n * Mean(values) == Sum(values);
    if forall i :: 0 <= i < |values| ==> values[i] > Mean(values) {
      SumAbove(values, Mean(values));
    }
    if forall i :: 0 <= i < |values| ==> values[i] < Mean(values) {
      SumBelow(values, Mean(values));
    }
  }

  datatype Zone = HighPerformer | LowPerformer | HighConverting | HighVolume

  /** `getPerformanceZone`: above both averages, below both, above the
      rate average only, and the rest. */
  function PerformanceZone(rate: real, impressions: real, avgRate: real, avgImpressions: real): (z: Zone)
    ensures z == HighPerformer <==> rate > avgRate && impressions > avgImpressions
    ensures z == LowPerformer <==> rate < avgRate && impressions < avgImpressions
    ensures z == HighConverting <==> rate > avgRate && impressions <= avgImpressions
    ensures z == HighVolume <==> rate <= avgRate && !(rate < avgRate && impressions < avgImpressions)
  {
    if rate > avgRate && impressions > avgImpressions then HighPerformer
    else if rate < avgRate && impressions < avgImpressions then LowPerformer
    else if rate > avgRate then HighConverting
    else HighVolume
  }

  function ZoneOf(k: Keyword, keywords: seq<Keyword>): Zone
    requires |keywords| > 0
  {
    PerformanceZone(k.conversionRate, k.impressions as real,
                    Mean(RateValues(keywords)), Mean(ImpressionValues(keywords)))
  }

  function ZoneColor(z: Zone): string
  {
    match z
    case HighPerformer => "#10B981"
    case LowPerformer => "#DC2626"
    case HighConverting => "#3B82F6"
    case HighVolume => "#F59E0B"
  }

  /** Some shown keyword is not a high performer, and some is not a low
      performer: the zones are relative to the averages. */
  lemma ZonesAreRelative(keywords: seq<Keyword>)
    requires |keywords| > 0
    ensures exists i :: 0 <= i < |keywords| && ZoneOf(keywords[i], keywords) != HighPerformer
    ensures exists i :: 0 <= i < |keywords| && ZoneOf(keywords[i], keywords) != LowPerformer
  {
    var rates := RateValues(keywords);
    MeanIsAttained(rates);
    var i :| 0 <= i < |rates| && rates[i] <= Mean(rates);
    assert ZoneOf(keywords[i], keywords) != HighPerformer;
    var j :| 0 <= j < |rates| && rates[j] >= Mean(rates);
    assert ZoneOf(keywords[j], keywords) != LowPerformer;
  }

  // ---------------------------------------------------------------------
  // Point in polygon (even-odd rule)

  datatype Point = Point(x: real, y: real)

  /** The edge from `b` to `a` crosses the horizontal ray running right
      from `p`. */
  predicate EdgeCrosses(p: Point, a: Point, b: Point)
  {
    ((a.y > p.y) != (b.y > p.y)) &&
    p.x < (b.x - a.x) * (p.y - a.y) / (b.y - a.y) + a.x
  }

  /** The vertex before `i`, wrapping around to the last one. */
  function PrevVertex(i: nat, n: nat): nat
    requires i < n
  {
    if i == 0 then n - 1 else i - 1
  }

  /** Crossings of the ray with the edges ending at vertices `0..k`. */
  function Crossings(polygon: seq<Point>, p: Point, k: nat): nat
    requires k <= |polygon|
  {
    if k == 0 then 0
    else
      Crossings(polygon, p, k - 1) +
      if EdgeCrosses(p, polygon[k - 1], polygon[PrevVertex(k - 1, |polygon|)]) then 1 else 0
  }

  /** Inside means an odd number of crossings. */
  predicate Inside(polygon: seq<Point>, p: Point)
  {
    Crossings(polygon, p, |polygon|) % 2 == 1
  }

  /** `isPointInPolygon`: walks the edges `(i, j)` with `j` trailing `i`,
      flipping `inside` at every crossing. */
  method IsPointInPolygon(point: Point, polygon: seq<Point>) returns (inside: bool)
    ensures inside == Inside(polygon, point)
  {
    inside := false;
    var i := 0;
    var j := |polygon| - 1;
    while i < |polygon|
      invariant 0 <= i <= |polygon|
      invariant j == if i == 0 then |polygon| - 1 else i - 1
      invariant inside == (Crossings(polygon, point, i) % 2 == 1)
    {
      assert j == PrevVertex(i, |polygon|);
      if EdgeCrosses(point, polygon[i], polygon[j]) {
        inside := !inside;
      }
      j := i;
      i := i + 1;
    }
  }

  /** A point with no vertex below its horizontal line is outside. */
  lemma {:induction false} NoVertexBelowMeansOutside(polygon: seq<Point>, p: Point, k: nat)
    requires k <= |polygon|
    requires forall i :: 0 <= i < |polygon| ==> polygon[i].y <= p.y
    ensures Crossings(polygon, p, k) == 0
  {
    if k > 0 {
      NoVertexBelowMeansOutside(polygon, p, k - 1);
    }
  }

  /** The square with corners (0, 0) and (10, 10) holds its centre and not
      a point to its right. */
  lemma SquareExample()
    ensures var square := [Point(0.0, 0.0), Point(10.0, 0.0), Point(10.0, 10.0), Point(0.0, 10.0)];
            Inside(square, Point(5.0, 5.0)) && !Inside(square, Point(15.0, 5.0))
  {
    var square := [Point(0.0, 0.0), Point(10.0, 0.0), Point(10.0, 10.0), Point(0.0, 10.0)];
    var centre, right := Point(5.0, 5.0), Point(15.0, 5.0);
    // Only the edges ending at vertices 0 and 2 span y = 5; the ray from
    // the centre meets the right one (x = 10) only.
    assert !EdgeCrosses(centre, square[0], square[3]) && !EdgeCrosses(right, square[0], square[3]);
    assert !EdgeCrosses(centre, square[1], square[0]) && !EdgeCrosses(right, square[1], square[0]);
    assert EdgeCrosses(centre, square[2], square[1]) && !EdgeCrosses(right, square[2], square[1]);
    assert !EdgeCrosses(centre, square[3], square[2]) && !EdgeCrosses(right, square[3], square[2]);
    assert Crossings(square, centre, 4) == 1;
    assert Crossings(square, right, 4) == 0;
  }

  // ---------------------------------------------------------------------
  // The heatmap component and its lasso

  /** Impressions and rates can be scaled: their maxima are positive. */
  predicate Scalable(keywords: seq<Keyword>)
  {
    |keywords| > 0 ==> MaxOf(ImpressionValues(keywords)) > 0.0 && MaxOf(RateValues(keywords)) > 0.0
  }

  /** Where the bubble of `k` is drawn. */
  function BubbleCentre(k: Keyword, keywords: seq<Keyword>): Point
    requires |keywords| > 0 && Scalable(keywords)
  {
    Point(XScale(k.impressions as real, MaxOf(ImpressionValues(keywords))),
          YScale(k.conversionRate, MaxOf(RateValues(keywords))))
  }

  /** Whether the bubble of a keyword lies inside the lasso. */
  function InLasso(keywords: seq<Keyword>, lasso: seq<Point>): Keyword -> bool
    requires |keywords| > 0 && Scalable(keywords)
  {
    k => Inside(lasso, BubbleCentre(k, keywords))
  }

  /** The ids of the keywords whose bubble centre lies inside the lasso. */
  function LassoIds(keywords: seq<Keyword>, shown: seq<Keyword>, lasso: seq<Point>): (r: seq<string>)
    requires |keywords| > 0 && Scalable(keywords)
  {
    Ids(Filter(shown, InLasso(keywords, lasso)))
  }

  lemma IdsAppend(a: seq<Keyword>, k: Keyword)
    ensures Ids(a + [k]) == Ids(a) + [k.id]
  {
    assert |Ids(a + [k])| == |Ids(a) + [k.id]|;
  }

  /** One more keyword considered adds its id exactly when its bubble
      lies inside the lasso. */
  lemma LassoIdsStep(keywords: seq<Keyword>, lasso: seq<Point>, i: nat)
    requires |keywords| > 0 && Scalable(keywords) && i < |keywords|
    ensures Ids(Filter(keywords[..i + 1], InLasso(keywords, lasso))) ==
      Ids(Filter(keywords[..i], InLasso(keywords, lasso))) +
      (if Inside(lasso, BubbleCentre(keywords[i], keywords)) then [keywords[i].id] else [])
  {
    var p, k := InLasso(keywords, lasso), keywords[i];
    assert keywords[..i + 1] == keywords[..i] + [k];
    FilterAppend(keywords[..i], k, p);
    if p(k) {
      IdsAppend(Filter(keywords[..i], p), k);
    }
  }

  /** `keywords.filter(k => isPointInPolygon(centre(k), lasso)).map(k => k.id)`. */
  method SelectInside(keywords: seq<Keyword>, lasso: seq<Point>) returns (ids: seq<string>)
    requires Scalable(keywords)
    ensures |keywords| > 0 ==> ids == LassoIds(keywords, keywords, lasso)
    ensures |keywords| == 0 ==> ids == []
  {
    ids := [];
    if |keywords| == 0 {
      return;
    }
    var i := 0;
    while i < |keywords|
      invariant 0 <= i <= |keywords|
      invariant ids == Ids(Filter(keywords[..i], InLasso(keywords, lasso)))
    {
      var inside := IsPointInPolygon(BubbleCentre(keywords[i], keywords), lasso);
      LassoIdsStep(keywords, lasso, i);
      if inside {
        ids := ids + [keywords[i].id];
      }
      i := i + 1;
    }
    assert keywords[..|keywords|] == keywords;
  }

  class Heatmap {
    var isLassoMode: bool
    var lassoPath: seq<Point>

    constructor()
      ensures !isLassoMode && lassoPath == []
    {
      isLassoMode := false;
      lassoPath := [];
    }

    /** The "Lasso Select" button. */
    method ToggleLasso()
      modifies this
      ensures isLassoMode == !old(isLassoMode) && lassoPath == old(lassoPath)
    {
      isLassoMode := !isLassoMode;
    }

    /** Mouse down: in lasso mode a new path starts at the pointer. */
    method LassoStart(p: Point)
      modifies this
      ensures lassoPath == if isLassoMode then [p] else old(lassoPath)
      ensures isLassoMode == old(isLassoMode)
    {
      if isLassoMode {
        lassoPath := [p];
      }
    }

    /** Mouse move: a started path grows by the pointer position. */
    method LassoMove(p: Point)
      modifies this
      ensures lassoPath == if isLassoMode && |old(lassoPath)| > 0 then old(lassoPath) + [p] else old(lassoPath)
      ensures isLassoMode == old(isLassoMode)
    {
      if isLassoMode && |lassoPath| > 0 {
        lassoPath := lassoPath + [p];
      }
    }

    /** Mouse up: a path of at least three points selects the keywords
        inside it (`Some(ids)` is the `onKeywordSelect(ids)` call); the
        path is cleared in every case. */
    method LassoEnd(keywords: seq<Keyword>) returns (selection: Option<seq<string>>)
      requires Scalable(keywords)
      modifies this
      ensures lassoPath == [] && isLassoMode == old(isLassoMode)
      ensures selection.None? <==> !isLassoMode || |old(lassoPath)| < 3
      ensures selection.Some? && |keywords| > 0 ==> selection.value == LassoIds(keywords, keywords, old(lassoPath))
      ensures selection.Some? && |keywords| == 0 ==> selection.value == []
    {
      if !isLassoMode || |lassoPath| < 3 {
        lassoPath := [];
        return None;
      }
      var ids := SelectInside(keywords, lassoPath);
      selection := Some(ids);
      lassoPath := [];
    }
  }
}

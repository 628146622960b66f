/** The keyword ranking panel: the ten best keywords by a chosen column,
    each with a bid recommendation and a search-volume trend icon, and a
    summary of how many keywords get each recommendation. */
module KeywordRanking {
  import opened Common
  import opened Sorting
  import opened KeywordData

  /** The first ten keywords of the sorted copy. */
  function TopKeywords(keywords: seq<Keyword>, sortBy: Column, order: Direction): (r: seq<Keyword>)
    ensures |r| == Min(10, |keywords|)
    ensures r == SortedKeywords(keywords, SortConfig(sortBy, order))[..Min(10, |keywords|)]
    ensures forall k :: k in r ==> k in keywords
  {
    var sorted := SortedKeywords(keywords, SortConfig(sortBy, order));
    JsSliceNonNegative(sorted, 0, 10);
    var r := JsSlice(sorted, 0, 10);
    assert forall k :: k in r ==> k in sorted;
    assert forall k :: k in sorted ==> k in multiset(keywords);
    r
  }

  // ---------------------------------------------------------------------
  // Bid recommendation: target CPA 20, average CPA 25

  datatype BidAction = Increase | Decrease | Maintain

  datatype BidRecommendation = BidRecommendation(action: BidAction, percentage: nat, color: string)

  /** Raise bids on cheap, well-converting keywords; lower them on
      expensive, poorly converting ones; hold the rest. */
  function GetBidRecommendation(cpa: real, conversionRate: real): (r: BidRecommendation)
    ensures r.action == Increase <==> cpa < 20.0 && conversionRate > 3.0
    ensures r.action == Decrease <==> cpa > 25.0 && conversionRate < 2.0
    ensures r.action == Increase ==> r.percentage == 15 && r.color == "success"
    ensures r.action == Decrease ==> r.percentage == 20 && r.color == "error"
    ensures r.action == Maintain ==> r.percentage == 0 && r.color == "muted"
  {
    if cpa < 20.0 && conversionRate > 3.0 then BidRecommendation(Increase, 15, "success")
    else if cpa > 25.0 && conversionRate < 2.0 then BidRecommendation(Decrease, 20, "error")
    else BidRecommendation(Maintain, 0, "muted")
  }

  function BidRank(a: BidAction): (r: int)
    ensures -1 <= r <= 1
    ensures r == -1 <==> a == Decrease
    ensures r == 1 <==> a == Increase
  {
    match a
    case Decrease => -1
    case Maintain => 0
    case Increase => 1
  }

  /** A keyword that is no more expensive and converts no worse never gets
      a lower recommendation. */
  lemma BidRecommendationMonotone(cpa1: real, cr1: real, cpa2: real, cr2: real)
    requires cpa2 <= cpa1 && cr1 <= cr2
    ensures BidRank(GetBidRecommendation(cpa1, cr1).action) <= BidRank(GetBidRecommendation(cpa2, cr2).action)
  {
  }

  /** The badge: "Hold" for maintain, the percentage otherwise. */
  function BidBadgeText(rec: BidRecommendation): (r: string)
    ensures rec.action == Maintain ==> r == "Hold"
    ensures rec.action != Maintain ==>
      |r| >= 2 && r[|r| - 1] == '%' &&
      (forall i :: 0 <= i < |r| - 1 ==> '0' <= r[i] <= '9') &&
      DecimalValue(r[..|r| - 1]) == rec.percentage
  {
    if rec.action == Maintain then "Hold"
    else
      var digits := NatToString(rec.percentage);
      NatToStringRoundTrip(rec.percentage);
      assert (digits + "%")[..|digits|] == digits;
      digits + "%"
  }

  predicate IsIncrease(k: Keyword)
  {
    GetBidRecommendation(k.cpa, k.conversionRate).action == Increase
  }

  predicate IsMaintain(k: Keyword)
  {
    GetBidRecommendation(k.cpa, k.conversionRate).action == Maintain
  }

  predicate IsDecrease(k: Keyword)
  {
    GetBidRecommendation(k.cpa, k.conversionRate).action == Decrease
  }

  /** The three summary figures account for every keyword on the panel
      exactly once. */
  lemma SummaryCountsCoverTop(top: seq<Keyword>)
    ensures Count(top, IsIncrease) + Count(top, IsMaintain) + Count(top, IsDecrease) == |top|
  {
    CountPartition3(top, IsIncrease, IsMaintain, IsDecrease);
  }

  // ---------------------------------------------------------------------
  // Search-volume trend icon

  datatype TrendIcon = TrendingUp | TrendingDown | Flat

  /** Up above +5, down below -5, flat in between. */
  function GetTrendIcon(trend: real): (r: TrendIcon)
    ensures r == TrendingUp <==> trend > 5.0
    ensures r == TrendingDown <==> trend < -5.0
  {
    if trend > 5.0 then TrendingUp else if trend < -5.0 then TrendingDown else Flat
  }

  function Mirror(t: TrendIcon): TrendIcon
  {
    match t
    case TrendingUp => TrendingDown
    case TrendingDown => TrendingUp
    case Flat => Flat
  }

  /** Negating the trend mirrors the icon. */
  lemma TrendIconSymmetric(trend: real)
    ensures GetTrendIcon(-trend) == Mirror(GetTrendIcon(trend))
  {
  }

  // ---------------------------------------------------------------------
  // The panel component

  /** One `onBidAdjustment(keywordId, recommendation)` call. */
  datatype BidAdjustment = BidAdjustment(keywordId: string, recommendation: BidRecommendation)

  class Panel {
    var sortBy: Column
    var sortOrder: Direction

    /** The sort column is one of the four the select offers. */
    ghost predicate Valid()
      reads this
    {
      sortBy in {ConversionRate, Impressions, Spend, Cpa}
    }

    constructor()
      ensures Valid()
      ensures sortBy == ConversionRate && sortOrder == Desc
    {
      sortBy := ConversionRate;
      sortOrder := Desc;
    }

    /** `handleSort`: the current column flips its order; a new column
        starts descending. */
    method HandleSort(field: Column)
      modifies this
      ensures sortBy == field
      ensures sortOrder == if old(sortBy) == field then Flip(old(sortOrder)) else Desc
    {
      if sortBy == field {
        sortOrder := Flip(sortOrder);
      } else {
        sortBy := field;
        sortOrder := Desc;
      }
    }

    /** The column select: changes the column and keeps the order. */
    method SelectColumn(field: Column)
      requires field in {ConversionRate, Impressions, Spend, Cpa}
      modifies this
      ensures Valid()
      ensures sortBy == field && sortOrder == old(sortOrder)
    {
      sortBy := field;
    }

    /** The order button. */
    method ToggleOrder()
      modifies this
      ensures sortOrder == Flip(old(sortOrder)) && sortBy == old(sortBy)
    {
      sortOrder := Flip(sortOrder);
    }

    function Top(keywords: seq<Keyword>): (r: seq<Keyword>)
      reads this
      ensures |r| == Min(10, |keywords|)
      ensures r == TopKeywords(keywords, sortBy, sortOrder)
    {
      TopKeywords(keywords, sortBy, sortOrder)
    }

    /** The settings button of a row. */
    method ApplyRecommendation(k: Keyword) returns (call: BidAdjustment)
      ensures call.keywordId == k.id
      ensures call.recommendation == GetBidRecommendation(k.cpa, k.conversionRate)
    {
      call := BidAdjustment(k.id, GetBidRecommendation(k.cpa, k.conversionRate));
    }
  }
}

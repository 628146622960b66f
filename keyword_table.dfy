/** The keyword performance table: row selection, column sorting,
    pagination, the per-row performance status and the bulk actions. */
module KeywordTable {
  import opened Common
  import opened Sorting
  import opened KeywordData

  // ---------------------------------------------------------------------
  // Pagination

  /** `Math.ceil(n / size)`: the fewest pages of `size` rows holding `n`. */
  function TotalPages(n: nat, size: nat): (r: nat)
    requires size > 0
    ensures r * size >= n
    ensures n > 0 ==> (r - 1) * size < n
    ensures r == 0 <==> n == 0
  {
    (n + size - 1) / size
  }

  /** `rows.slice((page - 1) * size, page * size)`. */
  function PageRows<R>(rows: seq<R>, page: int, size: nat): (r: seq<R>)
    ensures |r| <= size
  {
    JsSlice(rows, (page - 1) * size, page * size)
  }

  lemma MulMono(a: int, b: int, c: nat)
    requires a <= b
    ensures a * c <= b * c
  {
    assert b * c - a * c == (b - a) * c;
  }

  /** The slice bounds of page `p` are `size` apart. */
  lemma PageSliceBounds(p: int, size: nat)
    requires p >= 1
    ensures 0 <= (p - 1) * size
    ensures p * size == (p - 1) * size + size
  {
    MulMono(0, p - 1, size);
  }

  /** The page of row `i` is one the pager offers. */
  lemma IndexPageOffered(n: nat, size: nat, i: nat)
    requires size > 0 && i < n
    ensures 1 <= i / size + 1 <= TotalPages(n, size)
  {
    var q, t := i / size, TotalPages(n, size);
    assert q * size <= i;
    if q + 1 > t {
      MulMono(t, q, size);
      assert false;
    }
  }

  /** Every row sits on page `i / size + 1`, which is one of the pages the
      pager offers, at offset `i % size`. */
  lemma PageOfIndex<R>(rows: seq<R>, size: nat, i: nat)
    requires size > 0 && i < |rows|
    ensures 1 <= i / size + 1 <= TotalPages(|rows|, size)
    ensures var page := PageRows(rows, i / size + 1, size);
            i % size < |page| && page[i % size] == rows[i]
  {
    IndexPageOffered(|rows|, size, i);
    var q, m := i / size, i % size;
    assert i == q * size + m;
    PageSliceBounds(q + 1, size);
    var lo := q * size;
    assert (q + 1 - 1) * size == lo;
    JsSliceNonNegative(rows, lo, lo + size);
  }

  /** Each offered page is non-empty and holds `size` rows except possibly
      the last; a page past the end is empty. */
  lemma PageLength<R>(rows: seq<R>, size: nat, p: int)
    requires size > 0 && p >= 1
    ensures p <= TotalPages(|rows|, size) ==>
      |PageRows(rows, p, size)| == Min(size, |rows| - (p - 1) * size) > 0
    ensures p > TotalPages(|rows|, size) ==> PageRows(rows, p, size) == []
  {
    var t := TotalPages(|rows|, size);
    PageSliceBounds(p, size);
    var lo := (p - 1) * size;
    JsSliceNonNegative(rows, lo, lo + size);
    if p <= t {
      MulMono(p - 1, t - 1, size);
    } else {
      MulMono(t, p - 1, size);
    }
  }

  /** The "first-last of n" caption under the table. */
  datatype RangeCaption = RangeCaption(first: int, last: int, total: nat)

  function Caption(page: int, size: nat, n: nat): (c: RangeCaption)
    ensures c.total == n
  {
    RangeCaption((page - 1) * size + 1, Min(page * size, n), n)
  }

  /** On an offered page the caption counts exactly the rows shown. */
  lemma CaptionMatchesPage<R>(rows: seq<R>, size: nat, p: int)
    requires size > 0 && 1 <= p <= TotalPages(|rows|, size)
    ensures Caption(p, size, |rows|).last - Caption(p, size, |rows|).first + 1 == |PageRows(rows, p, size)|
  {
    PageLength(rows, size, p);
    PageSliceBounds(p, size);
  }

  /** Previous-page button: `Math.max(1, page - 1)`. */
  function PrevPage(page: int): (r: int)
    ensures r >= 1
    ensures page > 1 ==> r == page - 1
  {
    Max(1, page - 1)
  }

  /** Next-page button as written: `Math.min(totalPages, page + 1)`. The
      button is disabled only when `page === totalPages`, so on an empty
      table (no pages) it is enabled on page 1 and leads to page 0. */
  function NextPageAsWritten(page: int, totalPages: nat): (r: int)
    ensures r <= totalPages
    ensures page < totalPages ==> r == page + 1
  {
    Min(totalPages, page + 1)
  }

  lemma NextPageAsWrittenLeavesFirstPage()
    ensures TotalPages(0, 25) == 0
    ensures 1 != TotalPages(0, 25) && NextPageAsWritten(1, TotalPages(0, 25)) == 0
  {
  }

  /** Next-page button as intended: one page on, never past the last page
      and never below page 1. */
  function NextPage(page: int, totalPages: nat): (r: int)
    ensures r >= 1
    ensures 1 <= page < totalPages ==> r == page + 1
    ensures 1 <= page ==> r <= Max(page, totalPages)
  {
    Max(1, Min(totalPages, page + 1))
  }

  /** From an offered page the corrected button stays on an offered page,
      and the pager of an empty table stays on page 1. */
  lemma NextPageStaysInRange(page: int, totalPages: nat)
    requires 1 <= page
    ensures page <= totalPages ==> 1 <= NextPage(page, totalPages) <= totalPages
    ensures totalPages == 0 ==> NextPage(page, totalPages) == 1
  {
  }

  // ---------------------------------------------------------------------
  // Row status

  datatype Performance = Excellent | Good | Average | Poor

  /** `getPerformanceStatus`: the first band whose thresholds the keyword
      meets. */
  function PerformanceStatus(conversionRate: real, cpa: real): (r: Performance)
    ensures r == Excellent <==> conversionRate > 5.0 && cpa < 20.0
    ensures r == Good <==> !(conversionRate > 5.0 && cpa < 20.0) && conversionRate > 3.0 && cpa < 30.0
    ensures r == Poor <==> conversionRate <= 1.0
  {
    if conversionRate > 5.0 && cpa < 20.0 then Excellent
    else if conversionRate > 3.0 && cpa < 30.0 then Good
    else if conversionRate > 1.0 then Average
    else Poor
  }

  function Rank(p: Performance): (r: nat)
    ensures r <= 3
    ensures r == 0 <==> p == Poor
    ensures r == 3 <==> p == Excellent
  {
    match p
    case Poor => 0
    case Average => 1
    case Good => 2
    case Excellent => 3
  }

  /** A keyword converting at least as well at no higher cost never gets
      a worse status. */
  lemma PerformanceStatusMonotone(cr1: real, cpa1: real, cr2: real, cpa2: real)
    requires cr1 <= cr2 && cpa2 <= cpa1
    ensures Rank(PerformanceStatus(cr1, cpa1)) <= Rank(PerformanceStatus(cr2, cpa2))
  {
  }

  function StatusColor(p: Performance): string
  {
    match p
    case Excellent => "success"
    case Good => "primary"
    case Average => "warning"
    case Poor => "error"
  }

  function StatusLabel(p: Performance): string
  {
    match p
    case Excellent => "Excellent"
    case Good => "Good"
    case Average => "Average"
    case Poor => "Poor"
  }

  /** Each status has its own colour and label. */
  lemma StatusPresentationDistinct(p: Performance, q: Performance)
    requires p != q
    ensures StatusColor(p) != StatusColor(q) && StatusLabel(p) != StatusLabel(q)
  {
  }

  // ---------------------------------------------------------------------
  // Column header icon

  datatype SortIcon = ArrowUpDown | ArrowUp | ArrowDown

  function SortIconFor(cfg: SortConfig<Column>, column: Column): (r: SortIcon)
    ensures r == ArrowUpDown <==> cfg.key != column
    ensures r == ArrowUp <==> cfg.key == column && cfg.direction == Asc
  {
    if cfg.key != column then ArrowUpDown
    else if cfg.direction == Asc then ArrowUp
    else ArrowDown
  }

  // ---------------------------------------------------------------------
  // The table component

  /** One `onBulkAction(action, ids)` call. */
  datatype BulkCall = BulkCall(action: string, ids: seq<string>)

  class Table {
    var selected: seq<string>
    var sortConfig: SortConfig<Column>
    var currentPage: int
    var pageSize: nat

    /** The page size is one of the three offered and the page is at
        least 1. */
    ghost predicate Valid()
      reads this
    {
      pageSize in {25, 50, 100} && currentPage >= 1
    }

    constructor()
      ensures Valid()
      ensures selected == [] && sortConfig == SortConfig(Impressions, Desc)
      ensures currentPage == 1 && pageSize == 25
    {
      selected := [];
      sortConfig := SortConfig(Impressions, Desc);
      currentPage := 1;
      pageSize := 25;
    }

    /** The header check box: checked exactly when as many ids are
        selected as there are keywords. */
    function AllChecked(keywords: seq<Keyword>): bool
      reads this
    {
      |selected| == |keywords|
    }

    method SelectAll(keywords: seq<Keyword>, checked: bool)
      modifies this
      ensures selected == if checked then Ids(keywords) else []
      ensures AllChecked(keywords) <==> checked || keywords == []
      ensures sortConfig == old(sortConfig) && currentPage == old(currentPage) && pageSize == old(pageSize)
    {
      selected := if checked then Ids(keywords) else [];
    }

    method SelectKeyword(id: string, checked: bool)
      modifies this
      ensures checked ==> selected == old(selected) + [id]
      ensures !checked ==> selected == RemoveAll(old(selected), id)
      ensures id in selected <==> checked
      ensures forall x :: x != id ==> (x in selected <==> x in old(selected))
      ensures sortConfig == old(sortConfig) && currentPage == old(currentPage) && pageSize == old(pageSize)
    {
      if checked {
        selected := selected + [id];
      } else {
        selected := RemoveAll(selected, id);
      }
    }

    method Sort(key: Column)
      modifies this
      ensures sortConfig == TableSortClick(old(sortConfig), key)
      ensures selected == old(selected) && currentPage == old(currentPage) && pageSize == old(pageSize)
    {
      sortConfig := TableSortClick(sortConfig, key);
    }

    /** Hands the selection to the page, then clears it. */
    method BulkAction(action: string) returns (call: BulkCall)
      modifies this
      ensures call == BulkCall(action, old(selected))
      ensures selected == []
      ensures sortConfig == old(sortConfig) && currentPage == old(currentPage) && pageSize == old(pageSize)
    {
      call := BulkCall(action, selected);
      selected := [];
    }

    method SetPageSize(size: nat)
      requires size in {25, 50, 100}
      modifies this
      ensures Valid()
      ensures pageSize == size && currentPage == 1
      ensures selected == old(selected) && sortConfig == old(sortConfig)
    {
      pageSize := size;
      currentPage := 1;
    }

    method Prev()
      requires Valid()
      modifies this
      ensures Valid()
      ensures currentPage == PrevPage(old(currentPage))
      ensures selected == old(selected) && sortConfig == old(sortConfig) && pageSize == old(pageSize)
    {
      currentPage := PrevPage(currentPage);
    }

    method Next(keywords: seq<Keyword>)
      requires Valid()
      modifies this
      ensures Valid()
      ensures currentPage == NextPage(old(currentPage), TotalPages(|keywords|, pageSize))
      ensures selected == old(selected) && sortConfig == old(sortConfig) && pageSize == old(pageSize)
    {
      currentPage := NextPage(currentPage, TotalPages(|keywords|, pageSize));
    }

    /** The rows on screen: the current page of the sorted copy. */
    function Visible(keywords: seq<Keyword>): (r: seq<Keyword>)
      reads this
      ensures r == PageRows(SortedKeywords(keywords, sortConfig), currentPage, pageSize)
      ensures |r| <= pageSize
      ensures forall k :: k in r ==> k in keywords
    {
      var sorted := SortedKeywords(keywords, sortConfig);
      var r := PageRows(sorted, currentPage, pageSize);
      assert forall k :: k in r ==> k in sorted by {
        forall k | k in r ensures k in sorted {
          var a, b := SliceBound((currentPage - 1) * pageSize, |sorted|), SliceBound(currentPage * pageSize, |sorted|);
          if a < b {
            assert r == sorted[a..b];
          }
        }
      }
      assert forall k :: k in sorted ==> k in multiset(keywords);
      r
    }
  }
}

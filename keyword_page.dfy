/** The keyword analytics page itself: the keyword-level filter applied to
    the keyword list, the shared keyword selection, and the page state. */
module KeywordPage {
  import opened Common
  import opened Filters
  import opened KeywordData

  /** `needle` occurs in `hay` starting at index `i`. */
  predicate OccursAt(hay: string, needle: string, i: int)
  {
    0 <= i && i + |needle| <= |hay| && hay[i..i + |needle|] == needle
  }

  /** `hay.includes(needle)`. */
  predicate Includes(hay: string, needle: string)
  {
    exists i :: 0 <= i <= |hay| && OccursAt(hay, needle, i)
  }

  // ---------------------------------------------------------------------
  // The four keyword filters; each keeps a keyword unless its filter value
  // is set and the keyword fails it. `lower`, `parseInt` and `parseFloat`
  // stand for `toLowerCase`, `parseInt` and `parseFloat`; `None` is NaN.

  /** Search term: the lower-cased term must contain the lower-cased
      search text. */
  predicate PassesSearch(k: Keyword, f: FilterMap, lower: string -> string)
  {
    match StrAt(f, "searchTerm")
    case Some(t) => t == "" || Includes(lower(k.term), lower(t))
    case None => true
  }

  /** Match type: any truthy value other than `'all'` must equal the
      keyword's match type. */
  predicate PassesMatchType(k: Keyword, f: FilterMap)
  {
    !Truthy(f, "matchType") || f["matchType"] == Str("all") || f["matchType"] == Str(k.matchType)
  }

  /** Minimum impressions: a keyword below the parsed minimum is dropped;
      a value that does not parse (NaN) drops nothing. */
  predicate PassesMinImpressions(k: Keyword, f: FilterMap, parseInt: string -> Option<int>)
  {
    match StrAt(f, "minImpressions")
    case Some(t) => t == "" || parseInt(t).None? || k.impressions >= parseInt(t).value
    case None => true
  }

  /** Maximum CPA: a keyword above the parsed maximum is dropped. */
  predicate PassesMaxCpa(k: Keyword, f: FilterMap, parseFloat: string -> Option<real>)
  {
    match StrAt(f, "maxCPA")
    case Some(t) => t == "" || parseFloat(t).None? || k.cpa <= parseFloat(t).value
    case None => true
  }

  predicate Passes(k: Keyword, f: FilterMap, lower: string -> string,
                   parseInt: string -> Option<int>, parseFloat: string -> Option<real>)
  {
    PassesSearch(k, f, lower) && PassesMatchType(k, f)
    && PassesMinImpressions(k, f, parseInt) && PassesMaxCpa(k, f, parseFloat)
  }

  /** `filteredKeywords`: exactly the keywords passing all four filters. */
  function FilteredKeywords(keywords: seq<Keyword>, f: FilterMap, lower: string -> string,
                            parseInt: string -> Option<int>, parseFloat: string -> Option<real>): (r: seq<Keyword>)
    ensures forall k :: k in r <==> k in keywords && Passes(k, f, lower, parseInt, parseFloat)
    ensures |r| <= |keywords|
  {
    Filter(keywords, k => Passes(k, f, lower, parseInt, parseFloat))
  }

  /** Filtering only removes keywords: the survivors keep their order. */
  lemma FilteredKeywordsIsSubsequence(keywords: seq<Keyword>, f: FilterMap, lower: string -> string,
                                      parseInt: string -> Option<int>, parseFloat: string -> Option<real>)
    ensures IsSubsequence(FilteredKeywords(keywords, f, lower, parseInt, parseFloat), keywords)
  {
    FilterIsSubsequence(keywords, k => Passes(k, f, lower, parseInt, parseFloat));
  }

  /** With no filter value set (the page's initial `{}` included) every
      keyword is shown, in its original order. */
  lemma NoFilterKeepsAll(keywords: seq<Keyword>, f: FilterMap, lower: string -> string,
                         parseInt: string -> Option<int>, parseFloat: string -> Option<real>)
    requires !Truthy(f, "searchTerm") && !Truthy(f, "matchType")
    requires !Truthy(f, "minImpressions") && !Truthy(f, "maxCPA")
    ensures FilteredKeywords(keywords, f, lower, parseInt, parseFloat) == keywords
  {
    FilterAllPass(keywords, k => Passes(k, f, lower, parseInt, parseFloat));
  }

  /** A kept keyword meets every filter that is set and parses. */
  lemma KeptKeywordMeetsFilters(keywords: seq<Keyword>, k: Keyword, f: FilterMap, lower: string -> string,
                                parseInt: string -> Option<int>, parseFloat: string -> Option<real>)
    requires k in FilteredKeywords(keywords, f, lower, parseInt, parseFloat)
    ensures Truthy(f, "searchTerm") && f["searchTerm"].Str? ==> Includes(lower(k.term), lower(f["searchTerm"].s))
    ensures Truthy(f, "matchType") && f["matchType"] != Str("all") ==> f["matchType"] == Str(k.matchType)
    ensures Truthy(f, "minImpressions") && f["minImpressions"].Str? && parseInt(f["minImpressions"].s).Some?
            ==> k.impressions >= parseInt(f["minImpressions"].s).value
    ensures Truthy(f, "maxCPA") && f["maxCPA"].Str? && parseFloat(f["maxCPA"].s).Some?
            ==> k.cpa <= parseFloat(f["maxCPA"].s).value
  {
  }

  // ---------------------------------------------------------------------
  // handleKeywordSelect

  /** What a component hands to `onKeywordSelect`: a whole array of ids
      (lasso, bubble click, clear) or a single id. */
  datatype Selection = Many(ids: seq<string>) | One(id: string)

  /** An array replaces the selection; a single id is toggled. */
  function KeywordSelect(prev: seq<string>, sel: Selection): (r: seq<string>)
    ensures sel.Many? ==> r == sel.ids
    ensures sel.One? ==> (sel.id in r <==> sel.id !in prev)
    ensures sel.One? ==> forall x :: x != sel.id ==> (x in r <==> x in prev)
    ensures sel.One? && sel.id !in prev ==> r == prev + [sel.id]
    ensures sel.One? && sel.id in prev ==> r == RemoveAll(prev, sel.id)
  {
    match sel
    case Many(ids) => ids
    case One(id) => Toggle(prev, id)
  }

  /** The page's own state. */
  class Page {
    var selectedKeywords: seq<string>
    var filters: FilterMap
    var keywordFilters: FilterMap
    var isLoading: bool

    constructor()
      ensures selectedKeywords == [] && filters == map[] && keywordFilters == map[] && !isLoading
    {
      selectedKeywords := [];
      filters := map[];
      keywordFilters := map[];
      isLoading := false;
    }

    /** A global filter change stores the filters and starts the loading
        indicator; `LoadingDone` is the timer that ends it. */
    method HandleGlobalFilterChange(newFilters: FilterMap)
      modifies this
      ensures filters == newFilters && isLoading
      ensures selectedKeywords == old(selectedKeywords) && keywordFilters == old(keywordFilters)
    {
      filters := newFilters;
      isLoading := true;
    }

    method LoadingDone()
      modifies this
      ensures !isLoading
      ensures selectedKeywords == old(selectedKeywords) && filters == old(filters)
      ensures keywordFilters == old(keywordFilters)
    {
      isLoading := false;
    }

    method HandleKeywordFilterChange(newFilters: FilterMap)
      modifies this
      ensures keywordFilters == newFilters
      ensures selectedKeywords == old(selectedKeywords) && filters == old(filters) && isLoading == old(isLoading)
    {
      keywordFilters := newFilters;
    }

    method HandleKeywordSelect(sel: Selection)
      modifies this
      ensures selectedKeywords == KeywordSelect(old(selectedKeywords), sel)
      ensures filters == old(filters) && keywordFilters == old(keywordFilters) && isLoading == old(isLoading)
    {
      selectedKeywords := KeywordSelect(selectedKeywords, sel);
    }

    /** The list the table, heatmap and ranking panel receive. */
    function Shown(keywords: seq<Keyword>, lower: string -> string,
                   parseInt: string -> Option<int>, parseFloat: string -> Option<real>): (r: seq<Keyword>)
      reads this
      ensures forall k :: k in r <==> k in keywords && Passes(k, keywordFilters, lower, parseInt, parseFloat)
    {
      FilteredKeywords(keywords, keywordFilters, lower, parseInt, parseFloat)
    }
  }
}

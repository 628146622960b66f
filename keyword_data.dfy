/** The keyword record shared by the components of the keyword analytics
    page, and the columns its table and ranking panel sort by. */
module KeywordData {
  import opened Sorting

  datatype Keyword = Keyword(
    id: string,
    term: string,
    matchType: string,
    impressions: int,
    clicks: int,
    conversions: int,
    conversionRate: real,
    spend: real,
    cpa: real,
    searchVolume: int,
    searchVolumeTrend: real,
    status: string)

  /** The sortable columns: the seven headers of the keyword table and the
      four options of the ranking panel's sort select. */
  datatype Column =
    | Term | MatchType | Impressions | Clicks | ConversionRate | Cpa | Spend

  /** `keyword[column]` as the sort comparator reads it. */
  function Field(k: Keyword, c: Column): (v: Value)
    ensures v.Text? <==> c == Term || c == MatchType
  {
    match c
    case Term => Text(k.term)
    case MatchType => Text(k.matchType)
    case Impressions => Num(k.impressions as real)
    case Clicks => Num(k.clicks as real)
    case ConversionRate => Num(k.conversionRate)
    case Cpa => Num(k.cpa)
    case Spend => Num(k.spend)
  }

  /** The key function the sort uses for one column. */
  function KeyOf(c: Column): Keyword -> Value
  {
    k => Field(k, c)
  }

  /** `keywords.map(k => k.id)`. */
  function Ids(keywords: seq<Keyword>): (r: seq<string>)
    ensures |r| == |keywords|
    ensures forall i :: 0 <= i < |r| ==> r[i] == keywords[i].id
  {
    seq(|keywords|, i requires 0 <= i < |keywords| => keywords[i].id)
  }

  /** The keywords sorted by one column in one direction, as a copy. */
  function SortedKeywords(keywords: seq<Keyword>, cfg: SortConfig<Column>): (r: seq<Keyword>)
    ensures multiset(r) == multiset(keywords)
  {
    SortedCopy(keywords, KeyOf(cfg.key), cfg.direction)
  }

  /** When no two keywords share a value in the sort column the copy is
      strictly ordered by it. */
  lemma SortedKeywordsOrdered(keywords: seq<Keyword>, cfg: SortConfig<Column>)
    requires forall i, j :: 0 <= i < j < |keywords| ==> Field(keywords[i], cfg.key) != Field(keywords[j], cfg.key)
    ensures StrictlyOrdered(SortedKeywords(keywords, cfg), KeyOf(cfg.key), cfg.direction)
  {
    SortedCopyOrdered(keywords, KeyOf(cfg.key), cfg.direction);
  }
}

/** The global filter bar shared by the dashboards: date range,
    campaigns, ad groups and keyword text, announced to the page 300 ms
    after the last change (each change cancels the pending timer), with a
    reset and a count of active filters. */
module GlobalFilterBar {
  import opened Common
  import opened Filters

  /** The four defaults, which are also the reset state. */
  function DefaultFilters(): (r: FilterMap)
    ensures r.Keys == {"dateRange", "campaigns", "adGroups", "keywords"}
  {
    map["dateRange" := Str("last-7-days"), "campaigns" := List([]), "adGroups" := List([]), "keywords" := Str("")]
  }

  /** The initial state as written: each default guarded by `||`, then
      `...initialFilters` spread over it. */
  function InitialFilters(f: FilterMap): (r: FilterMap)
    ensures forall k :: k in f ==> k in r && r[k] == f[k]
  {
    var d := DefaultFilters();
    map[
      "dateRange" := OrDefault(f, "dateRange", d["dateRange"]),
      "campaigns" := OrDefault(f, "campaigns", d["campaigns"]),
      "adGroups" := OrDefault(f, "adGroups", d["adGroups"]),
      "keywords" := OrDefault(f, "keywords", d["keywords"])
    ] + f
  }

  /** The initial state is the given filters spread over the defaults. */
  lemma InitialFiltersIsSpread(f: FilterMap)
    ensures InitialFilters(f) == Spread(DefaultFilters(), f)
  {
    var a, b := InitialFilters(f), Spread(DefaultFilters(), f);
    forall k | k in a
      ensures k in b && a[k] == b[k]
    {
      if k !in f {
        assert !Truthy(f, k);
      }
    }
  }

  /** `keywords.trim()` needs a string: a present keyword value of any
      other kind makes the count throw. */
  predicate KeywordsIsText(m: FilterMap)
  {
    "keywords" !in m || m["keywords"].Str?
  }

  /** `getActiveFilterCount`: chosen campaigns, chosen ad groups, keyword
      text other than white space. The date range is never counted. */
  function ActiveFilterCount(m: FilterMap): (r: nat)
    requires KeywordsIsText(m)
    ensures r <= 3
    ensures r == 0 <==>
      (!HasLength(m, "campaigns") && !HasLength(m, "adGroups") && ("keywords" !in m || !TrimNonEmpty(m["keywords"].s)))
  {
    (if HasLength(m, "campaigns") then 1 else 0)
    + (if HasLength(m, "adGroups") then 1 else 0)
    + (if "keywords" in m && TrimNonEmpty(m["keywords"].s) then 1 else 0)
  }

  /** The defaults count nothing, and neither a date-range change nor a
      performance choice is ever counted. */
  lemma DefaultsCountNothing(m: FilterMap, range: string, performance: FilterValue)
    requires KeywordsIsText(m)
    ensures ActiveFilterCount(DefaultFilters()) == 0
    ensures ActiveFilterCount(SetKey(m, "dateRange", Str(range))) == ActiveFilterCount(m)
    ensures ActiveFilterCount(SetKey(m, "performance", performance)) == ActiveFilterCount(m)
  {
    assert !TrimNonEmpty("");
  }

  /** "n filter(s) applied". */
  function SummaryText(count: nat): (r: string)
    ensures count == 1 ==> r == "1 filter applied"
  {
    NatToString(count) + " filter" + (if count > 1 then "s" else "") + " applied"
  }

  /** The summary reads back the count it was given. */
  lemma SummaryReadsBack(count: nat)
    requires count >= 1
    ensures var t := SummaryText(count);
      var n := |NatToString(count)|;
      n <= |t| && (forall i :: 0 <= i < n ==> '0' <= t[i] <= '9') &&
      DecimalValue(t[..n]) == count && t[n] == ' ' &&
      t[n..] == if count > 1 then " filters applied" else " filter applied"
  {
    var t := SummaryText(count);
    assert t[..|NatToString(count)|] == NatToString(count);
    NatToStringRoundTrip(count);
  }

  class FilterBar {
    var filters: FilterMap
    var isExpanded: bool
    /** The announcement the pending 300 ms timer will make, if any. */
    var pending: Option<FilterMap>

    /** A pending timer always announces the current filters. */
    ghost predicate Valid()
      reads this
    {
      pending.Some? ==> pending.value == filters
    }

    /** The first render, whose effect already schedules an announcement. */
    constructor(initialFilters: FilterMap)
      ensures Valid()
      ensures filters == InitialFilters(initialFilters) && !isExpanded
      ensures pending == Some(filters)
    {
      filters := InitialFilters(initialFilters);
      isExpanded := false;
      pending := Some(InitialFilters(initialFilters));
    }

    /** `handleFilterChange(key, value)`; the effect's cleanup cancels the
        pending timer and a new one is set for the new state. */
    method HandleFilterChange(key: string, value: FilterValue)
      modifies this
      ensures Valid()
      ensures filters == SetKey(old(filters), key, value)
      ensures pending == Some(filters)
      ensures isExpanded == old(isExpanded)
    {
      filters := SetKey(filters, key, value);
      pending := Some(filters);
    }

    /** `handleReset`: the defaults, announced after the delay like any
        other change. */
    method HandleReset()
      modifies this
      ensures Valid()
      ensures filters == DefaultFilters() && pending == Some(DefaultFilters())
      ensures isExpanded == old(isExpanded)
    {
      filters := DefaultFilters();
      pending := Some(filters);
    }

    /** The timer fires: `onFilterChange(filters)` with the latest state. */
    method TimerFires() returns (announced: FilterMap)
      requires Valid() && pending.Some?
      modifies this
      ensures Valid()
      ensures announced == filters && pending == None
      ensures filters == old(filters) && isExpanded == old(isExpanded)
    {
      announced := pending.value;
      pending := None;
    }

    method ToggleExpanded()
      modifies this
      ensures isExpanded == !old(isExpanded)
      ensures filters == old(filters) && pending == old(pending)
    {
      isExpanded := !isExpanded;
    }

    /** The reset button and the summary line are shown while some filter
        is active. */
    predicate ShowsReset()
      reads this
      requires KeywordsIsText(filters)
    {
      ActiveFilterCount(filters) > 0
    }
  }
}

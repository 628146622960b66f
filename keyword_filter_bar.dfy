/** The keyword filter bar: a local filter map seeded from the page's
    filters, changes announced to the page after a 300 ms delay, an
    immediate reset, and the count of active filters shown on the
    "Advanced" button. */
module KeywordFilterBar {
  import opened Filters

  /** The six defaults the bar starts from. */
  function DefaultFilters(): (r: FilterMap)
    ensures r.Keys == {"searchTerm", "matchType", "performanceThreshold", "timeComparison", "minImpressions", "maxCPA"}
  {
    map[
      "searchTerm" := Str(""),
      "matchType" := Str("all"),
      "performanceThreshold" := Range(0.0, 100.0),
      "timeComparison" := Str("wow"),
      "minImpressions" := Str(""),
      "maxCPA" := Str("")
    ]
  }

  /** The initial local state as written: each default guarded by `||`,
      then `...filters` spread over the result. */
  function InitialFiltersAsWritten(f: FilterMap): (r: FilterMap)
    ensures forall k :: k in f ==> k in r && r[k] == f[k]
  {
    var d := DefaultFilters();
    map[
      "searchTerm" := OrDefault(f, "searchTerm", d["searchTerm"]),
      "matchType" := OrDefault(f, "matchType", d["matchType"]),
      "performanceThreshold" := OrDefault(f, "performanceThreshold", d["performanceThreshold"]),
      "timeComparison" := OrDefault(f, "timeComparison", d["timeComparison"]),
      "minImpressions" := OrDefault(f, "minImpressions", d["minImpressions"]),
      "maxCPA" := OrDefault(f, "maxCPA", d["maxCPA"])
    ] + f
  }

  /** The trailing spread makes every `||` redundant: the initial state is
      just the given filters spread over the defaults. */
  lemma InitialFiltersIsSpread(f: FilterMap)
    ensures InitialFiltersAsWritten(f) == Spread(DefaultFilters(), f)
  {
    var a, b := InitialFiltersAsWritten(f), Spread(DefaultFilters(), f);
    forall k | k in a
      ensures k in b && a[k] == b[k]
    {
      if k !in f {
        assert !Truthy(f, k);
      }
    }
  }

  /** The state `handleReset` installs and announces: the defaults plus
      `performance: 'all'`. */
  function ResetFilters(): (r: FilterMap)
    ensures r.Keys == DefaultFilters().Keys + {"performance"}
  {
    DefaultFilters()["performance" := Str("all")]
  }

  /** `getActiveFilterCount`: search text, a match type other than all,
      a minimum impressions value, a maximum CPA value, a performance
      choice other than all (an absent one included). */
  function ActiveFilterCount(m: FilterMap): (r: nat)
    ensures r <= 5
    ensures r == 0 <==>
      !Truthy(m, "searchTerm") && !DiffersFrom(m, "matchType", "all") && !Truthy(m, "minImpressions") &&
      !Truthy(m, "maxCPA") && !DiffersFrom(m, "performance", "all")
    ensures r == 5 <==>
      Truthy(m, "searchTerm") && DiffersFrom(m, "matchType", "all") && Truthy(m, "minImpressions") &&
      Truthy(m, "maxCPA") && DiffersFrom(m, "performance", "all")
  {
    (if Truthy(m, "searchTerm") then 1 else 0)
    + (if DiffersFrom(m, "matchType", "all") then 1 else 0)
    + (if Truthy(m, "minImpressions") then 1 else 0)
    + (if Truthy(m, "maxCPA") then 1 else 0)
    + (if DiffersFrom(m, "performance", "all") then 1 else 0)
  }

  /** After a reset no filter counts as active and the reset button hides. */
  lemma ResetClearsCount()
    ensures ActiveFilterCount(ResetFilters()) == 0
  {
  }

  /** As written, the bar opened with no filters already counts one active
      filter: `performance` is not among the initial keys, and an absent
      value is not `'all'`. */
  lemma InitialCountAsWritten()
    ensures ActiveFilterCount(InitialFiltersAsWritten(map[])) == 1
  {
    InitialFiltersIsSpread(map[]);
  }

  /** The initial state as intended: the given filters spread over the
      same defaults the reset installs, `performance: 'all'` included. */
  function InitialFilters(f: FilterMap): (r: FilterMap)
    ensures r.Keys == ResetFilters().Keys + f.Keys
    ensures forall k :: k in f ==> r[k] == f[k]
    ensures forall k :: k in ResetFilters() && k !in f ==> r[k] == ResetFilters()[k]
  {
    Spread(ResetFilters(), f)
  }

  /** With the corrected defaults an unfiltered bar counts nothing, and it
      agrees with the state a reset produces. */
  lemma InitialCountCorrected()
    ensures InitialFilters(map[]) == ResetFilters()
    ensures ActiveFilterCount(InitialFilters(map[])) == 0
  {
    assert InitialFilters(map[]) == ResetFilters();
  }

  /** Changing one filter moves the count by at most one, and changing a
      filter the count ignores (time comparison, threshold, check boxes)
      leaves it alone. */
  lemma ChangeMovesCountByAtMostOne(m: FilterMap, key: string, value: FilterValue)
    ensures -1 <= ActiveFilterCount(SetKey(m, key, value)) - ActiveFilterCount(m) <= 1
    ensures key !in {"searchTerm", "matchType", "minImpressions", "maxCPA", "performance"} ==>
      ActiveFilterCount(SetKey(m, key, value)) == ActiveFilterCount(m)
  {
    var m' := SetKey(m, key, value);
    forall k | k != key ensures Truthy(m', k) == Truthy(m, k) && (forall l :: DiffersFrom(m', k, l) == DiffersFrom(m, k, l)) {
    }
  }

  class FilterBar {
    var localFilters: FilterMap
    /** Announcements scheduled by `setTimeout` and not yet delivered, in
        the order they will fire. */
    var scheduled: seq<FilterMap>
    var isAdvancedOpen: bool

    constructor(filters: FilterMap)
      ensures localFilters == InitialFilters(filters)
      ensures scheduled == [] && !isAdvancedOpen
    {
      localFilters := InitialFilters(filters);
      scheduled := [];
      isAdvancedOpen := false;
    }

    /** `handleFilterChange(key, value)`: updates one key and schedules the
        announcement of the whole updated map. */
    method HandleFilterChange(key: string, value: FilterValue)
      modifies this
      ensures localFilters == SetKey(old(localFilters), key, value)
      ensures scheduled == old(scheduled) + [localFilters]
      ensures isAdvancedOpen == old(isAdvancedOpen)
    {
      localFilters := SetKey(localFilters, key, value);
      scheduled := scheduled + [localFilters];
    }

    /** The oldest pending timer fires: `onFilterChange(updatedFilters)`. */
    method TimerFires() returns (announced: FilterMap)
      requires scheduled != []
      modifies this
      ensures announced == old(scheduled)[0]
      ensures scheduled == old(scheduled)[1..]
      ensures localFilters == old(localFilters) && isAdvancedOpen == old(isAdvancedOpen)
    {
      announced := scheduled[0];
      scheduled := scheduled[1..];
    }

    /** `handleReset`: installs and announces the reset state at once;
        timers already pending still fire afterwards. */
    method HandleReset() returns (announced: FilterMap)
      modifies this
      ensures localFilters == ResetFilters() && announced == ResetFilters()
      ensures ActiveCount() == 0
      ensures scheduled == old(scheduled) && isAdvancedOpen == old(isAdvancedOpen)
    {
      localFilters := ResetFilters();
      announced := localFilters;
      ResetClearsCount();
    }

    method ToggleAdvanced()
      modifies this
      ensures isAdvancedOpen == !old(isAdvancedOpen)
      ensures localFilters == old(localFilters) && scheduled == old(scheduled)
    {
      isAdvancedOpen := !isAdvancedOpen;
    }

    function ActiveCount(): (r: nat)
      reads this
      ensures r <= 5
      ensures r == ActiveFilterCount(localFilters)
    {
      ActiveFilterCount(localFilters)
    }

    /** The reset button is shown while some filter is active. */
    predicate ShowsReset()
      reads this
    {
      ActiveCount() > 0
    }
  }
}

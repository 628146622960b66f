# Apple Search Ads analytics dashboard — a Dafny model

This project models the behaviour of the three dashboard pages of an
Apple Search Ads analytics front end and of the shared UI components they
use. Each React component becomes a Dafny module.

- **Keyword performance analytics.** The page filters the keyword list and
  tracks the selected keywords. Its components are:
  - the keyword table (sorting, row selection, pagination, performance bands);
  - the heatmap (axis scales, performance zones relative to the averages,
    lasso selection by the even-odd point-in-polygon rule);
  - the ranking panel (top ten, bid recommendations, trend icons);
  - the metrics strip (change badges, mini histograms);
  - the keyword filter bar (defaults, debounced announcements, reset,
    active-filter count).
- **Campaign performance overview.** The page's alert list supports
  mark-read, mark-all-read and the unread badge count. It also holds the
  auto-refresh and exporting flags. Its components are:
  - the campaign data table (sort, selection, status, ROAS, budget and CPA
    cells, the CPA sparkline);
  - the KPI cards (value formatting, trend badge, sparkline);
  - the health scorecard (per-campaign badges, the overall health as the
    worst campaign, score bars).
- **Real-time monitoring.** The page has periodic metric updates, a
  weighted random connection status and alert dismissal. Its components
  are:
  - the campaign status grid (health and status badges, budget bars, issue
    lists, quick and bulk actions, footer tallies);
  - the real-time charts (sixty-minute mock series, sliding window,
    anomaly flags);
  - the alert banner (the most severe alert first);
  - the operations panel (action buttons, an expandable alert feed).
- **Shared components.** These are:
  - the global filter bar (debounced announcement, reset, active-filter count);
  - the alert notification badge;
  - the export action bar;
  - the real-time status indicator;
  - the "time ago" texts, shared by four components.

## How the model is built

- Pure helper functions of a component become Dafny functions. Each comes
  with lemmas about its meaning: both directions of every threshold,
  monotonicity, read-back of printed numbers, and permutation and order of
  sorted copies.
- A component's React state becomes a class whose methods are its event
  handlers. Each method states the whole new state, and leaves everything
  else unchanged.
- Loops in the source stay loops, proved against a specification function:
  - the health tally `reduce`;
  - the bulk `forEach`;
  - the ray-casting `for` loop;
  - the mock-data generator;
  - the weighted status pick with `break`.
- The JavaScript library semantics the components rely on are written out
  in the shared modules `Common` and `Filters`:
  - `slice` clamping;
  - `filter` order;
  - `||` defaults;
  - object spread;
  - truthiness;
  - `?.length > 0`;
  - the `trim` test.
- Timers and callbacks become explicit state and returned call records:
  - a `setTimeout` announcement is a pending or scheduled value that a
    `TimerFires` method delivers;
  - a `setInterval` callback is a `Tick` method;
  - an `onX(...)` prop call is a value the method returns.
- `Math.random()`, the clock, locale formatting, `toLowerCase`, `parseInt`
  and `parseFloat` are parameters of the functions that use them.

## Model

| member | source | states |
|---|---|---|
| Sorting.SortedCopy | src/pages/keyword-performance-analytics-dashboard/components/KeywordPerformanceTable.jsx:36-47 | the copy the comparator `a > b ? 1 : -1` (or its mirror) produces holds exactly the same rows, counted with multiplicity |
| Sorting.SortedCopyOrdered | src/pages/keyword-performance-analytics-dashboard/components/KeywordPerformanceTable.jsx:36-47 | when no two rows share a key the copy is strictly ascending or descending in that key |
| Sorting.AfterTransitive | src/pages/keyword-performance-analytics-dashboard/components/KeywordPerformanceTable.jsx:41-44 | the order the comparator induces on numbers and on strings is transitive |
| Sorting.AfterTotal | src/pages/keyword-performance-analytics-dashboard/components/KeywordPerformanceTable.jsx:41-44 | two distinct keys of the same kind are always ordered one way or the other |
| Sorting.AfterAsymmetric | src/pages/keyword-performance-analytics-dashboard/components/KeywordPerformanceTable.jsx:41-44 | no two keys are each placed after the other |
| Sorting.TableSortClick | src/pages/keyword-performance-analytics-dashboard/components/KeywordPerformanceTable.jsx:28-34 | a header click sorts ascending, except that a second click on the ascending column sorts descending |
| Sorting.TableSortClickTwice | src/pages/keyword-performance-analytics-dashboard/components/KeywordPerformanceTable.jsx:28-34 | clicking the current column twice restores the configuration; a fresh column starts ascending and a second click makes it descending |
| Sorting.Flip | src/pages/keyword-performance-analytics-dashboard/components/KeywordRankingPanel.jsx:38-45 | the order button turns ascending into descending and back |
| KeywordData.Field | src/pages/keyword-performance-analytics-dashboard/components/KeywordPerformanceTable.jsx:38-39 | `keyword[column]`: text for the term and match type columns, a number for the others |
| KeywordData.Ids | src/pages/keyword-performance-analytics-dashboard/components/KeywordPerformanceTable.jsx:14 | `keywords.map(k => k.id)`: one id per keyword, in order |
| KeywordData.SortedKeywords | src/pages/keyword-performance-analytics-dashboard/components/KeywordPerformanceTable.jsx:36-47 | the sorted table rows are a permutation of the keywords |
| KeywordData.SortedKeywordsOrdered | src/pages/keyword-performance-analytics-dashboard/components/KeywordPerformanceTable.jsx:36-47 | with distinct values in the sort column the rows are strictly ordered by it |
| KeywordPage.FilteredKeywords | src/pages/keyword-performance-analytics-dashboard/index.jsx:267-281 | a keyword is kept exactly when it passes the search, match type, minimum impressions and maximum CPA filters |
| KeywordPage.FilteredKeywordsIsSubsequence | src/pages/keyword-performance-analytics-dashboard/index.jsx:267-281 | filtering only removes keywords and keeps the order of the rest |
| KeywordPage.NoFilterKeepsAll | src/pages/keyword-performance-analytics-dashboard/index.jsx:267-281 | with no filter value set every keyword is shown in its original order |
| KeywordPage.KeptKeywordMeetsFilters | src/pages/keyword-performance-analytics-dashboard/index.jsx:268-279 | every kept keyword contains the search text, has the chosen match type, and meets the parsed impressions and CPA bounds |
| KeywordPage.KeywordSelect | src/pages/keyword-performance-analytics-dashboard/index.jsx:222-232 | an array replaces the selection; a single id already selected has every copy removed, an absent one is appended at the end, and no other id changes |
| KeywordPage.Page.constructor | src/pages/keyword-performance-analytics-dashboard/index.jsx:14-17 | no selection, empty filter maps, not loading |
| KeywordPage.Page.HandleGlobalFilterChange | src/pages/keyword-performance-analytics-dashboard/index.jsx:208-216 | stores the new filters and starts the loading indicator, nothing else |
| KeywordPage.Page.LoadingDone | src/pages/keyword-performance-analytics-dashboard/index.jsx:213-215 | the one-second timer ends the loading indicator, nothing else |
| KeywordPage.Page.HandleKeywordFilterChange | src/pages/keyword-performance-analytics-dashboard/index.jsx:218-220 | stores the keyword filters, nothing else |
| KeywordPage.Page.HandleKeywordSelect | src/pages/keyword-performance-analytics-dashboard/index.jsx:222-232 | the selection becomes `KeywordSelect` of the old one |
| KeywordPage.Page.Shown | src/pages/keyword-performance-analytics-dashboard/index.jsx:267-281 | the list handed to the table, heatmap and ranking panel holds exactly the keywords passing the stored filters |
| KeywordTable.TotalPages | src/pages/keyword-performance-analytics-dashboard/components/KeywordPerformanceTable.jsx:54 | `Math.ceil(n / size)`: enough pages for all rows and no empty trailing page |
| KeywordTable.PageRows | src/pages/keyword-performance-analytics-dashboard/components/KeywordPerformanceTable.jsx:49-52 | a page never holds more than the page size |
| KeywordTable.PageOfIndex | src/pages/keyword-performance-analytics-dashboard/components/KeywordPerformanceTable.jsx:49-54 | every row appears on page `i / size + 1`, one of the offered pages, at position `i % size` |
| KeywordTable.PageLength | src/pages/keyword-performance-analytics-dashboard/components/KeywordPerformanceTable.jsx:49-54 | each offered page holds `size` rows except the last, which holds the rest; pages past the end are empty |
| KeywordTable.Caption | src/pages/keyword-performance-analytics-dashboard/components/KeywordPerformanceTable.jsx:320 | the "first-last of n" caption always names the row total |
| KeywordTable.CaptionMatchesPage | src/pages/keyword-performance-analytics-dashboard/components/KeywordPerformanceTable.jsx:320 | on an offered page the caption range counts exactly the rows shown |
| KeywordTable.PrevPage | src/pages/keyword-performance-analytics-dashboard/components/KeywordPerformanceTable.jsx:327 | never goes below page 1 and otherwise steps back one page |
| KeywordTable.NextPageAsWritten | src/pages/keyword-performance-analytics-dashboard/components/KeywordPerformanceTable.jsx:334 | the button as written never passes the page count and steps on one page before the last |
| KeywordTable.NextPageAsWrittenLeavesFirstPage | src/pages/keyword-performance-analytics-dashboard/components/KeywordPerformanceTable.jsx:334 | with no rows the button as written moves from page 1 to page 0 |
| KeywordTable.NextPage | src/pages/keyword-performance-analytics-dashboard/components/KeywordPerformanceTable.jsx:334 | the corrected button never goes below page 1 and steps on one page before the last |
| KeywordTable.NextPageStaysInRange | src/pages/keyword-performance-analytics-dashboard/components/KeywordPerformanceTable.jsx:334 | from an offered page the corrected button stays on an offered page, and stays on page 1 when there are no rows |
| KeywordTable.PerformanceStatus | src/pages/keyword-performance-analytics-dashboard/components/KeywordPerformanceTable.jsx:56-65 | excellent, good, average and poor bands, each with both directions of its thresholds |
| KeywordTable.Rank | src/pages/keyword-performance-analytics-dashboard/components/KeywordPerformanceTable.jsx:56-65 | defines the band order that `PerformanceStatusMonotone` uses: poor exactly at the bottom, excellent exactly at the top |
| KeywordTable.PerformanceStatusMonotone | src/pages/keyword-performance-analytics-dashboard/components/KeywordPerformanceTable.jsx:56-65 | converting no worse at no higher CPA never lowers the band |
| KeywordTable.StatusPresentationDistinct | src/pages/keyword-performance-analytics-dashboard/components/KeywordPerformanceTable.jsx:58-64 | each band has its own colour and its own label |
| KeywordTable.SortIconFor | src/pages/keyword-performance-analytics-dashboard/components/KeywordPerformanceTable.jsx:67-78 | the neutral icon exactly for unsorted columns; up exactly for the ascending sort column |
| KeywordTable.Table.constructor | src/pages/keyword-performance-analytics-dashboard/components/KeywordPerformanceTable.jsx:7-10 | no selection, sorted by impressions descending, page 1 of 25 rows |
| KeywordTable.Table.SelectAll | src/pages/keyword-performance-analytics-dashboard/components/KeywordPerformanceTable.jsx:12-18 | checking selects every id and unchecking clears; the header box then reads checked exactly as clicked, except that an empty table always reads checked |
| KeywordTable.Table.SelectKeyword | src/pages/keyword-performance-analytics-dashboard/components/KeywordPerformanceTable.jsx:20-26 | checking appends the id, unchecking removes every copy; only that id changes membership |
| KeywordTable.Table.Sort | src/pages/keyword-performance-analytics-dashboard/components/KeywordPerformanceTable.jsx:28-34 | the sort becomes `TableSortClick` of the old one; selection and paging are unchanged |
| KeywordTable.Table.BulkAction | src/pages/keyword-performance-analytics-dashboard/components/KeywordPerformanceTable.jsx:80-83 | hands the current selection to the page with the action, then clears the selection |
| KeywordTable.Table.SetPageSize | src/pages/keyword-performance-analytics-dashboard/components/KeywordPerformanceTable.jsx:305-308 | one of 25, 50 or 100 rows per page, back to page 1 |
| KeywordTable.Table.Prev | src/pages/keyword-performance-analytics-dashboard/components/KeywordPerformanceTable.jsx:327 | moves to `PrevPage` of the current page |
| KeywordTable.Table.Next | src/pages/keyword-performance-analytics-dashboard/components/KeywordPerformanceTable.jsx:334 | moves to the corrected `NextPage`, so the page stays valid |
| KeywordTable.Table.Visible | src/pages/keyword-performance-analytics-dashboard/components/KeywordPerformanceTable.jsx:49-52 | the rows on screen are exactly the current page of the sorted copy: at most one page, each one of the given keywords |
| KeywordRanking.TopKeywords | src/pages/keyword-performance-analytics-dashboard/components/KeywordRankingPanel.jsx:8-18 | exactly the first ten (or all, if fewer) rows of the sorted copy, each one of the given keywords |
| KeywordRanking.GetBidRecommendation | src/pages/keyword-performance-analytics-dashboard/components/KeywordRankingPanel.jsx:20-30 | increase by 15 exactly when CPA is below 20 and conversion above 3; decrease by 20 exactly when CPA is above 25 and conversion below 2; otherwise hold |
| KeywordRanking.BidRank | src/pages/keyword-performance-analytics-dashboard/components/KeywordRankingPanel.jsx:20-30 | defines the recommendation order that `BidRecommendationMonotone` uses: decrease exactly at the bottom, increase exactly at the top |
| KeywordRanking.BidRecommendationMonotone | src/pages/keyword-performance-analytics-dashboard/components/KeywordRankingPanel.jsx:20-30 | a keyword no more expensive and converting no worse never gets a lower recommendation |
| KeywordRanking.BidBadgeText | src/pages/keyword-performance-analytics-dashboard/components/KeywordRankingPanel.jsx:130 | "Hold" for maintain, otherwise the percentage in decimal digits followed by "%", which reads back as the percentage |
| KeywordRanking.SummaryCountsCoverTop | src/pages/keyword-performance-analytics-dashboard/components/KeywordRankingPanel.jsx:152-164 | the increase, maintain and decrease counts add up to the number of keywords on the panel |
| KeywordRanking.GetTrendIcon | src/pages/keyword-performance-analytics-dashboard/components/KeywordRankingPanel.jsx:32-36 | up exactly above +5, down exactly below -5 |
| KeywordRanking.TrendIconSymmetric | src/pages/keyword-performance-analytics-dashboard/components/KeywordRankingPanel.jsx:32-36 | negating the trend mirrors the icon |
| KeywordRanking.Panel.constructor | src/pages/keyword-performance-analytics-dashboard/components/KeywordRankingPanel.jsx:5-6 | sorted by conversion rate, descending |
| KeywordRanking.Panel.HandleSort | src/pages/keyword-performance-analytics-dashboard/components/KeywordRankingPanel.jsx:38-45 | the current column flips its order; another column becomes current and descending |
| KeywordRanking.Panel.SelectColumn | src/pages/keyword-performance-analytics-dashboard/components/KeywordRankingPanel.jsx:62 | the select changes the column and keeps the order |
| KeywordRanking.Panel.ToggleOrder | src/pages/keyword-performance-analytics-dashboard/components/KeywordRankingPanel.jsx:72 | the order button flips the order and keeps the column |
| KeywordRanking.Panel.Top | src/pages/keyword-performance-analytics-dashboard/components/KeywordRankingPanel.jsx:18 | `TopKeywords` under the panel's current column and order: ten rows or all of them, whichever is fewer |
| KeywordRanking.Panel.ApplyRecommendation | src/pages/keyword-performance-analytics-dashboard/components/KeywordRankingPanel.jsx:136 | calls back with the keyword id and its own recommendation |
| KeywordHeatmap.ImpressionValues | src/pages/keyword-performance-analytics-dashboard/components/KeywordHeatmap.jsx:16 | the impressions of the keywords, in order |
| KeywordHeatmap.RateValues | src/pages/keyword-performance-analytics-dashboard/components/KeywordHeatmap.jsx:21 | the conversion rates of the keywords, in order |
| KeywordHeatmap.SpendValues | src/pages/keyword-performance-analytics-dashboard/components/KeywordHeatmap.jsx:26 | the spends of the keywords, in order |
| KeywordHeatmap.XScale | src/pages/keyword-performance-analytics-dashboard/components/KeywordHeatmap.jsx:15-18 | zero impressions at the left padding, the maximum at the right padding, everything between them |
| KeywordHeatmap.YScale | src/pages/keyword-performance-analytics-dashboard/components/KeywordHeatmap.jsx:20-23 | rate zero at the bottom padding, the maximum at the top padding, everything between them |
| KeywordHeatmap.ScalesMonotone | src/pages/keyword-performance-analytics-dashboard/components/KeywordHeatmap.jsx:15-23 | more impressions is further right and a higher rate is higher up |
| KeywordHeatmap.BubbleSize | src/pages/keyword-performance-analytics-dashboard/components/KeywordHeatmap.jsx:25-30 | radius between 4 and 20, reaching 20 at the largest spend |
| KeywordHeatmap.SumAbove | src/pages/keyword-performance-analytics-dashboard/components/KeywordHeatmap.jsx:33-34 | values all above a bound sum to more than the count times that bound |
| KeywordHeatmap.SumBelow | src/pages/keyword-performance-analytics-dashboard/components/KeywordHeatmap.jsx:33-34 | values all below a bound sum to less than the count times that bound |
| KeywordHeatmap.MeanIsAttained | src/pages/keyword-performance-analytics-dashboard/components/KeywordHeatmap.jsx:33-34 | some value is at or below the average and some at or above it |
| KeywordHeatmap.PerformanceZone | src/pages/keyword-performance-analytics-dashboard/components/KeywordHeatmap.jsx:32-45 | high performer, low performer, high converting and high volume, each with both directions of its condition |
| KeywordHeatmap.ZonesAreRelative | src/pages/keyword-performance-analytics-dashboard/components/KeywordHeatmap.jsx:32-45 | among the shown keywords not all are high performers and not all are low performers |
| KeywordHeatmap.IsPointInPolygon | src/pages/keyword-performance-analytics-dashboard/components/KeywordHeatmap.jsx:80-89 | the loop over the edges returns the even-odd crossing rule |
| KeywordHeatmap.NoVertexBelowMeansOutside | src/pages/keyword-performance-analytics-dashboard/components/KeywordHeatmap.jsx:80-89 | a point with no vertex below its horizontal line is outside |
| KeywordHeatmap.SquareExample | src/pages/keyword-performance-analytics-dashboard/components/KeywordHeatmap.jsx:80-89 | a square holds its centre and not a point beyond its right edge |
| KeywordHeatmap.IdsAppend | src/pages/keyword-performance-analytics-dashboard/components/KeywordHeatmap.jsx:70-74 | mapping ids commutes with appending a keyword |
| KeywordHeatmap.SelectInside | src/pages/keyword-performance-analytics-dashboard/components/KeywordHeatmap.jsx:70-74 | the ids, in order, of exactly the keywords whose bubble centre lies inside the lasso |
| KeywordHeatmap.Heatmap.constructor | src/pages/keyword-performance-analytics-dashboard/components/KeywordHeatmap.jsx:6-7 | lasso mode off, no path |
| KeywordHeatmap.Heatmap.ToggleLasso | src/pages/keyword-performance-analytics-dashboard/components/KeywordHeatmap.jsx:105 | flips lasso mode |
| KeywordHeatmap.Heatmap.LassoStart | src/pages/keyword-performance-analytics-dashboard/components/KeywordHeatmap.jsx:47-53 | in lasso mode the path restarts at the pointer; otherwise nothing changes |
| KeywordHeatmap.Heatmap.LassoMove | src/pages/keyword-performance-analytics-dashboard/components/KeywordHeatmap.jsx:55-61 | a started path in lasso mode grows by the pointer position; otherwise nothing changes |
| KeywordHeatmap.Heatmap.LassoEnd | src/pages/keyword-performance-analytics-dashboard/components/KeywordHeatmap.jsx:63-78 | a path of three or more points in lasso mode selects the enclosed keywords; the path is always cleared |
| KeywordMetricsStrip.GetChangeBadge | src/pages/keyword-performance-analytics-dashboard/components/KeywordMetricsStrip.jsx:44-54 | green and up exactly for a rise, red and down exactly for a fall |
| KeywordMetricsStrip.AbsChange | src/pages/keyword-performance-analytics-dashboard/components/KeywordMetricsStrip.jsx:80 | the printed figure is the size of the change |
| KeywordMetricsStrip.BadgeOfOpposite | src/pages/keyword-performance-analytics-dashboard/components/KeywordMetricsStrip.jsx:44-54 | a change and its opposite print the same figure with opposite icons |
| KeywordMetricsStrip.HistogramHeights | src/pages/keyword-performance-analytics-dashboard/components/KeywordMetricsStrip.jsx:105 | one bar per value, each the value as a percentage of the largest |
| KeywordMetricsStrip.HistogramBounded | src/pages/keyword-performance-analytics-dashboard/components/KeywordMetricsStrip.jsx:105 | with non-negative values every bar lies between 0 and 100 percent |
| KeywordMetricsStrip.HistogramPeak | src/pages/keyword-performance-analytics-dashboard/components/KeywordMetricsStrip.jsx:105 | the largest value fills its bar |
| KeywordMetricsStrip.HistogramMonotone | src/pages/keyword-performance-analytics-dashboard/components/KeywordMetricsStrip.jsx:105 | the bars keep the order of the values |
| KeywordFilterBar.InitialFiltersAsWritten | src/pages/keyword-performance-analytics-dashboard/components/KeywordFilterBar.jsx:8-16 | the initial state as written keeps every given filter |
| KeywordFilterBar.InitialFiltersIsSpread | src/pages/keyword-performance-analytics-dashboard/components/KeywordFilterBar.jsx:8-16 | the `||` defaults are redundant: the state is the given filters spread over the six defaults |
| KeywordFilterBar.InitialCountAsWritten | src/pages/keyword-performance-analytics-dashboard/components/KeywordFilterBar.jsx:69-77 | as written, a bar opened with no filters counts one active filter |
| KeywordFilterBar.InitialFilters | src/pages/keyword-performance-analytics-dashboard/components/KeywordFilterBar.jsx:8-16 | corrected initial state: the given filters over the reset state, which includes `performance: all` |
| KeywordFilterBar.InitialCountCorrected | src/pages/keyword-performance-analytics-dashboard/components/KeywordFilterBar.jsx:56-66 | with the correction an unfiltered bar equals the reset state and counts nothing |
| KeywordFilterBar.ActiveFilterCount | src/pages/keyword-performance-analytics-dashboard/components/KeywordFilterBar.jsx:69-77 | counts at most the five filters the button reports; zero exactly when none of the five tests holds, five exactly when all do |
| KeywordFilterBar.ResetClearsCount | src/pages/keyword-performance-analytics-dashboard/components/KeywordFilterBar.jsx:56-66 | after a reset no filter counts and the reset button hides |
| KeywordFilterBar.ChangeMovesCountByAtMostOne | src/pages/keyword-performance-analytics-dashboard/components/KeywordFilterBar.jsx:42-53 | one change moves the count by at most one, and a key outside the five never moves it |
| KeywordFilterBar.FilterBar.constructor | src/pages/keyword-performance-analytics-dashboard/components/KeywordFilterBar.jsx:8-18 | the corrected initial filters, nothing scheduled, advanced panel closed |
| KeywordFilterBar.FilterBar.HandleFilterChange | src/pages/keyword-performance-analytics-dashboard/components/KeywordFilterBar.jsx:42-53 | updates one key and schedules the announcement of the whole updated map |
| KeywordFilterBar.FilterBar.TimerFires | src/pages/keyword-performance-analytics-dashboard/components/KeywordFilterBar.jsx:50-52 | the oldest scheduled map is announced and leaves the queue |
| KeywordFilterBar.FilterBar.HandleReset | src/pages/keyword-performance-analytics-dashboard/components/KeywordFilterBar.jsx:55-67 | installs and announces the reset state at once, leaving the count at zero |
| KeywordFilterBar.FilterBar.ToggleAdvanced | src/pages/keyword-performance-analytics-dashboard/components/KeywordFilterBar.jsx:120 | flips the advanced panel |
| KeywordFilterBar.FilterBar.ActiveCount | src/pages/keyword-performance-analytics-dashboard/components/KeywordFilterBar.jsx:69-77 | `ActiveFilterCount` of the local filters, at most five |
| Sparkline.Span | src/pages/campaign-performance-overview-dashboard/components/CampaignDataTable.jsx:144 | `max - min || 1`: positive, and the real span when the values differ |
| Sparkline.ScaleYEnds | src/pages/campaign-performance-overview-dashboard/components/CampaignDataTable.jsx:148 | the minimum maps to the bottom edge and the top of the span to the top edge |
| Sparkline.SparkPoints | src/pages/campaign-performance-overview-dashboard/components/CampaignDataTable.jsx:146-150 | one point per value, in order |
| Sparkline.SparkXInBox | src/pages/campaign-performance-overview-dashboard/components/CampaignDataTable.jsx:147 | x starts at 0, ends at the width and stays within it |
| Sparkline.SparkYInBox | src/pages/campaign-performance-overview-dashboard/components/CampaignDataTable.jsx:148 | every y lies between the top and bottom edges |
| Sparkline.SparkYExtremes | src/pages/campaign-performance-overview-dashboard/components/CampaignDataTable.jsx:148 | the smallest value on the bottom edge, the largest on the top edge when values differ |
| Sparkline.ConstantSeriesIsFlat | src/pages/campaign-performance-overview-dashboard/components/CampaignDataTable.jsx:144-148 | a constant series lies flat on the bottom edge |
| Sparkline.SparkYMonotone | src/pages/campaign-performance-overview-dashboard/components/CampaignDataTable.jsx:148 | a larger value is drawn higher |
| Sparkline.JoinPoints | src/pages/campaign-performance-overview-dashboard/components/KPIMetricCard.jsx:53-59 | the empty list joins to the empty text, one point to its "x,y" text |
| Sparkline.JoinPointsAppend | src/pages/campaign-performance-overview-dashboard/components/KPIMetricCard.jsx:53-59 | joining two non-empty runs of points puts one " L " between their texts, so every point appears once, in order |
| Sparkline.CampaignSparkline | src/pages/campaign-performance-overview-dashboard/components/CampaignDataTable.jsx:141-153 | "M " followed by the joined texts of the 40 x 12 points of the history; an empty history gives just "M " |
| Sparkline.KpiSparkline | src/pages/campaign-performance-overview-dashboard/components/KPIMetricCard.jsx:44-60 | empty exactly for empty data, otherwise "M " followed by the joined texts of the 60 x 20 points, one per datum in order |
| CampaignTable.Field | src/pages/campaign-performance-overview-dashboard/components/CampaignDataTable.jsx:105-110 | `campaign[key]`: text only for the name column |
| CampaignTable.SortedCampaigns | src/pages/campaign-performance-overview-dashboard/components/CampaignDataTable.jsx:105-110 | the sorted rows are a permutation of the campaigns |
| CampaignTable.SortedCampaignsOrdered | src/pages/campaign-performance-overview-dashboard/components/CampaignDataTable.jsx:105-110 | with distinct values in the sort column the rows are strictly ordered by it |
| CampaignTable.Ids | src/pages/campaign-performance-overview-dashboard/components/CampaignDataTable.jsx:124 | one id per campaign, in order |
| CampaignTable.HeaderChevrons | src/pages/campaign-performance-overview-dashboard/components/CampaignDataTable.jsx:155-176 | at most one chevron lit, and one is lit exactly on the sort column |
| CampaignTable.GetStatusConfig | src/pages/campaign-performance-overview-dashboard/components/CampaignDataTable.jsx:128-139 | active, warning and paused styles; anything else "Unknown" |
| CampaignTable.RoasColor | src/pages/campaign-performance-overview-dashboard/components/CampaignDataTable.jsx:268-271 | green exactly from 2, red exactly below 1.5 |
| CampaignTable.GetBudgetBar | src/pages/campaign-performance-overview-dashboard/components/CampaignDataTable.jsx:303-307 | width capped at 100; red exactly over 100, amber exactly over 90 up to 100 |
| CampaignTable.OverspentBarIsFullAndRed | src/pages/campaign-performance-overview-dashboard/components/CampaignDataTable.jsx:303-307 | an overspent campaign shows a full red bar |
| CampaignTable.CpaTrendColor | src/pages/campaign-performance-overview-dashboard/components/CampaignDataTable.jsx:284 | green exactly when the fifth CPA is below the first |
| CampaignTable.SelectAllNext | src/pages/campaign-performance-overview-dashboard/components/CampaignDataTable.jsx:120-126 | clears a full selection, otherwise selects every id |
| CampaignTable.SelectAllFlipsHeader | src/pages/campaign-performance-overview-dashboard/components/CampaignDataTable.jsx:214 | the select-all box flips the header check box |
| CampaignTable.Table.constructor | src/pages/campaign-performance-overview-dashboard/components/CampaignDataTable.jsx:6-7 | sorted by spend descending, nothing selected |
| CampaignTable.Table.Sort | src/pages/campaign-performance-overview-dashboard/components/CampaignDataTable.jsx:97-103 | the sort becomes `TableSortClick` of the old one |
| CampaignTable.Table.SelectCampaign | src/pages/campaign-performance-overview-dashboard/components/CampaignDataTable.jsx:112-118 | toggles one id: it is selected afterwards exactly when it was not before |
| CampaignTable.Table.SelectAll | src/pages/campaign-performance-overview-dashboard/components/CampaignDataTable.jsx:120-126 | the selection becomes `SelectAllNext` of the old one |
| CampaignTable.Table.Rows | src/pages/campaign-performance-overview-dashboard/components/CampaignDataTable.jsx:233 | the rows drawn are the sorted copy under the current sort: a permutation of the campaigns |
| KpiCard.FormatValue | src/pages/campaign-performance-overview-dashboard/components/KPIMetricCard.jsx:14-30 | currency, percentage, grouped number or plain rendering by format |
| KpiCard.GetTrendBadge | src/pages/campaign-performance-overview-dashboard/components/KPIMetricCard.jsx:32-42 | green and up exactly for "up", red and down exactly for "down", muted otherwise |
| KpiCard.Abs | src/pages/campaign-performance-overview-dashboard/components/KPIMetricCard.jsx:101 | the size of the change |
| KpiCard.ChangeText | src/pages/campaign-performance-overview-dashboard/components/KPIMetricCard.jsx:101 | a percentage change prints its size with "%", any other is formatted like the value |
| KpiCard.ChangeTextIgnoresSign | src/pages/campaign-performance-overview-dashboard/components/KPIMetricCard.jsx:101 | a change and its opposite print the same text |
| HealthScorecard.GetHealthConfig | src/pages/campaign-performance-overview-dashboard/components/CampaignHealthScorecard.jsx:58-101 | the four known levels with their caption, icon and colour; "Unknown" exactly for anything else |
| HealthScorecard.Severity | src/pages/campaign-performance-overview-dashboard/components/CampaignHealthScorecard.jsx:109-112 | defines the level order the dominance lemmas use: excellent exactly at the bottom, critical exactly at the top |
| HealthScorecard.TallyCounts | src/pages/campaign-performance-overview-dashboard/components/CampaignHealthScorecard.jsx:104-107 | the count map has a key exactly for each present level, holding its number of campaigns |
| HealthScorecard.TallyHealth | src/pages/campaign-performance-overview-dashboard/components/CampaignHealthScorecard.jsx:104-107 | the reduce loop builds that count map |
| HealthScorecard.WorstHealth | src/pages/campaign-performance-overview-dashboard/components/CampaignHealthScorecard.jsx:109-112 | critical if any, else warning if any, else good if any, else excellent |
| HealthScorecard.WorstHealthDominates | src/pages/campaign-performance-overview-dashboard/components/CampaignHealthScorecard.jsx:103-113 | no campaign of a known level is worse than the overall level |
| HealthScorecard.AddingNeverImproves | src/pages/campaign-performance-overview-dashboard/components/CampaignHealthScorecard.jsx:103-113 | adding a campaign never makes the overall level better |
| HealthScorecard.GetOverallHealth | src/pages/campaign-performance-overview-dashboard/components/CampaignHealthScorecard.jsx:103-113 | the method built on the count map returns the worst level |
| HealthScorecard.OverallBadgeKnown | src/pages/campaign-performance-overview-dashboard/components/CampaignHealthScorecard.jsx:115 | the overall badge never reads "Unknown" |
| HealthScorecard.ScoreBarColor | src/pages/campaign-performance-overview-dashboard/components/CampaignHealthScorecard.jsx:191-195 | the four score bands, each with both directions |
| HealthScorecard.ScoreBarMonotone | src/pages/campaign-performance-overview-dashboard/components/CampaignHealthScorecard.jsx:191-195 | a higher score never gets a worse bar colour |
| Alerts.UnreadCount | src/pages/campaign-performance-overview-dashboard/index.jsx:148 | at most the number of alerts; zero exactly when all are read; all exactly when none is |
| Alerts.UnreadFacts | src/pages/campaign-performance-overview-dashboard/index.jsx:148 | the two extreme counts of unread alerts, in both directions |
| Alerts.MarkRead | src/pages/campaign-performance-overview-dashboard/index.jsx:138-142 | same length; the alerts with the id become read, the others are unchanged |
| Alerts.MarkAllRead | src/pages/campaign-performance-overview-dashboard/index.jsx:144-146 | same length; every alert read and otherwise unchanged |
| Alerts.MarkReadIdempotent | src/pages/campaign-performance-overview-dashboard/index.jsx:138-142 | marking the same id twice is marking it once |
| Alerts.MarkAllReadClearsUnread | src/pages/campaign-performance-overview-dashboard/index.jsx:144-146 | after marking all there are no unread alerts and nothing else changed |
| Alerts.MarkReadUnreadCount | src/pages/campaign-performance-overview-dashboard/index.jsx:138-142 | marking an id lowers the unread count by exactly the unread alerts with that id |
| Alerts.Dismiss | src/pages/real-time-campaign-monitoring-dashboard/index.jsx:90-92 | keeps exactly the alerts with another id |
| Alerts.DismissFacts | src/pages/real-time-campaign-monitoring-dashboard/index.jsx:90-92 | dismissal keeps order, and dismissing an absent id changes nothing |
| CampaignOverview.OverviewPage.constructor | src/pages/campaign-performance-overview-dashboard/index.jsx:17-27 | the initial filters, no alerts, auto-refresh on, not exporting |
| CampaignOverview.OverviewPage.LoadAlerts | src/pages/campaign-performance-overview-dashboard/index.jsx:100-102 | the mount effect installs the alert feed, nothing else |
| CampaignOverview.OverviewPage.MarkAsRead | src/pages/campaign-performance-overview-dashboard/index.jsx:138-142 | marks one id read; the unread count never grows |
| CampaignOverview.OverviewPage.MarkAllAsRead | src/pages/campaign-performance-overview-dashboard/index.jsx:144-146 | marks every alert read; the unread count is zero |
| CampaignOverview.OverviewPage.UnreadAlertCount | src/pages/campaign-performance-overview-dashboard/index.jsx:148 | the badge count: zero exactly when every alert is read |
| CampaignOverview.OverviewPage.HandleFilterChange | src/pages/campaign-performance-overview-dashboard/index.jsx:114-116 | stores the filters, nothing else |
| CampaignOverview.OverviewPage.ToggleAutoRefresh | src/pages/campaign-performance-overview-dashboard/index.jsx:196 | flips auto-refresh, nothing else |
| CampaignOverview.OverviewPage.ExportStarted | src/pages/campaign-performance-overview-dashboard/index.jsx:123-124 | an export sets the exporting flag |
| CampaignOverview.OverviewPage.ExportSettled | src/pages/campaign-performance-overview-dashboard/index.jsx:129-131 | the finally clause clears the exporting flag |
| TimeAgo.Classify | src/pages/real-time-campaign-monitoring-dashboard/components/CampaignStatusGrid.jsx:157-167 | just now below a minute, whole minutes below an hour, whole hours below a day, a date after, with the exact bounds of each |
| TimeAgo.ClassifyMonotone | src/pages/real-time-campaign-monitoring-dashboard/components/CampaignStatusGrid.jsx:157-167 | an older timestamp never falls in a more recent bucket or shows fewer minutes or hours |
| TimeAgo.FormatTimeAgo | src/components/ui/AlertNotificationBadge.jsx:47-58 | "Just now" under a minute, the locale date from a day on |
| TimeAgo.ReadBack | src/pages/real-time-campaign-monitoring-dashboard/components/OperationsPanel.jsx:103-113 | the digits before a suffix read back as the number |
| TimeAgo.MinutesTextReadsBack | src/pages/real-time-campaign-monitoring-dashboard/components/OperationsPanel.jsx:103-113 | between a minute and an hour the text is "<n>m ago" with n the whole minutes elapsed |
| TimeAgo.HoursTextReadsBack | src/pages/real-time-campaign-monitoring-dashboard/components/CampaignStatusGrid.jsx:157-167 | between an hour and a day the text is "<n>h ago" with n the whole hours elapsed |
| TimeAgo.IntToString | src/components/ui/RealTimeStatusIndicator.jsx:67-73 | decimal rendering of an integer, with a minus sign when negative |
| TimeAgo.ClassifyUpdate | src/components/ui/RealTimeStatusIndicator.jsx:62-77 | no update, seconds below a minute, minutes below an hour, clock time after, with the exact bounds |
| TimeAgo.LastUpdateText | src/components/ui/RealTimeStatusIndicator.jsx:62-77 | with no update the current clock time; under a minute the floored seconds and "s ago"; under an hour the whole minutes and "m ago"; from an hour the clock time of the update |
| TimeAgo.IndicatorAgreesOnMinutes | src/components/ui/RealTimeStatusIndicator.jsx:62-77 | between a minute and an hour the indicator and the alert lists print the same text |
| StatusGrid.GetHealthConfig | src/pages/real-time-campaign-monitoring-dashboard/components/CampaignStatusGrid.jsx:89-132 | good, warning, critical and paused styles; "Unknown" exactly for anything else |
| StatusGrid.GetStatusConfig | src/pages/real-time-campaign-monitoring-dashboard/components/CampaignStatusGrid.jsx:134-155 | running and paused styles, "Unknown" otherwise; green exactly when running |
| StatusGrid.RatioAtLeastOne | src/pages/real-time-campaign-monitoring-dashboard/components/CampaignStatusGrid.jsx:184-186 | spend reaches the budget exactly when the ratio reaches 100 |
| StatusGrid.BudgetUtilization | src/pages/real-time-campaign-monitoring-dashboard/components/CampaignStatusGrid.jsx:184-186 | capped at 100, reaching it exactly when spend reaches the budget, the plain ratio below |
| StatusGrid.BudgetBarColor | src/pages/real-time-campaign-monitoring-dashboard/components/CampaignStatusGrid.jsx:286-291 | red exactly over 90, amber exactly over 75 up to 90, green otherwise |
| StatusGrid.ExhaustedBudgetIsFullAndRed | src/pages/real-time-campaign-monitoring-dashboard/components/CampaignStatusGrid.jsx:184-186 | an exhausted budget shows a full red bar |
| StatusGrid.ShownIssues | src/pages/real-time-campaign-monitoring-dashboard/components/CampaignStatusGrid.jsx:323 | the first two issues, or all of them if fewer |
| StatusGrid.MoreIssues | src/pages/real-time-campaign-monitoring-dashboard/components/CampaignStatusGrid.jsx:328-332 | the "+n more" note appears exactly with more than two issues |
| StatusGrid.IssuesAccounted | src/pages/real-time-campaign-monitoring-dashboard/components/CampaignStatusGrid.jsx:319-332 | the shown issues plus the "+n more" count cover every issue |
| StatusGrid.QuickAction | src/pages/real-time-campaign-monitoring-dashboard/components/CampaignStatusGrid.jsx:339-361 | the card button pauses exactly a running campaign and resumes any other |
| StatusGrid.BulkCalls | src/pages/real-time-campaign-monitoring-dashboard/components/CampaignStatusGrid.jsx:177-182 | one call per selected id, in order, all with the chosen action |
| StatusGrid.ForEachSelected | src/pages/real-time-campaign-monitoring-dashboard/components/CampaignStatusGrid.jsx:178-180 | the `forEach` loop makes exactly those calls |
| StatusGrid.Grid.constructor | src/pages/real-time-campaign-monitoring-dashboard/components/CampaignStatusGrid.jsx:6 | nothing selected |
| StatusGrid.Grid.SelectCampaign | src/pages/real-time-campaign-monitoring-dashboard/components/CampaignStatusGrid.jsx:169-175 | toggles one id: it is selected afterwards exactly when it was not before |
| StatusGrid.Grid.BulkAction | src/pages/real-time-campaign-monitoring-dashboard/components/CampaignStatusGrid.jsx:177-182 | calls back once per selected id, then clears the selection |
| StatusGrid.FooterTalliesBounded | src/pages/real-time-campaign-monitoring-dashboard/components/CampaignStatusGrid.jsx:387-395 | the healthy, warning and critical counts together never exceed the number of campaigns |
| RealTimeCharts.AnomalyThreshold | src/pages/real-time-campaign-monitoring-dashboard/components/RealTimeCharts.jsx:59-88 | the threshold of each metric: 300, 7000, 30 and 20, all positive |
| RealTimeCharts.GenerateMockData | src/pages/real-time-campaign-monitoring-dashboard/components/RealTimeCharts.jsx:12-29 | sixty points, the j-th sampled 59 - j minutes before now |
| RealTimeCharts.MockDataTimeline | src/pages/real-time-campaign-monitoring-dashboard/components/RealTimeCharts.jsx:12-29 | the points end at now, start 59 minutes earlier and are one minute apart |
| RealTimeCharts.ShiftPush | src/pages/real-time-campaign-monitoring-dashboard/components/RealTimeCharts.jsx:38-52 | drops the oldest point and appends the new one; an empty series becomes the new point alone |
| RealTimeCharts.ShiftPushWindow | src/pages/real-time-campaign-monitoring-dashboard/components/RealTimeCharts.jsx:38-52 | a sixty-point window stays at sixty points and moves by one |
| RealTimeCharts.DetectAnomalies | src/pages/real-time-campaign-monitoring-dashboard/components/RealTimeCharts.jsx:93-98 | each point kept in order, flagged exactly when the selected metric exceeds the threshold |
| RealTimeCharts.RaisingThresholdFlagsFewer | src/pages/real-time-campaign-monitoring-dashboard/components/RealTimeCharts.jsx:93-98 | a point flagged at a higher threshold is flagged at every lower one |
| RealTimeCharts.Charts.constructor | src/pages/real-time-campaign-monitoring-dashboard/components/RealTimeCharts.jsx:7-31 | spend selected, live, the generated series |
| RealTimeCharts.Charts.Tick | src/pages/real-time-campaign-monitoring-dashboard/components/RealTimeCharts.jsx:33-57 | while live a tick shifts the window by the new point; while paused nothing changes |
| RealTimeCharts.Charts.ToggleLive | src/pages/real-time-campaign-monitoring-dashboard/components/RealTimeCharts.jsx:165 | flips live mode, keeping the data |
| RealTimeCharts.Charts.SelectMetric | src/pages/real-time-campaign-monitoring-dashboard/components/RealTimeCharts.jsx:147 | selects a metric, keeping the data |
| RealTimeCharts.Charts.ProcessedData | src/pages/real-time-campaign-monitoring-dashboard/components/RealTimeCharts.jsx:100 | the data flagged against the selected metric's threshold |
| AlertBanner.FirstAt | src/pages/real-time-campaign-monitoring-dashboard/components/AlertBanner.jsx:6-7 | the first index at a severity, with no earlier one; none exactly when no alert has it |
| AlertBanner.PrimaryAlert | src/pages/real-time-campaign-monitoring-dashboard/components/AlertBanner.jsx:37 | some alert exactly when there are alerts, and it is one of them |
| AlertBanner.PrimaryIsFirstMostSevere | src/pages/real-time-campaign-monitoring-dashboard/components/AlertBanner.jsx:37 | the first critical alert, else the first warning, else the first alert |
| AlertBanner.GetSeverityConfig | src/pages/real-time-campaign-monitoring-dashboard/components/AlertBanner.jsx:11-35 | critical and warning styles, info for anything else |
| AlertBanner.RenderBanner | src/pages/real-time-campaign-monitoring-dashboard/components/AlertBanner.jsx:9-82 | nothing exactly for no alerts; otherwise the primary alert in its style, with "+n more" and "View All (n)" exactly when there are several |
| AlertBanner.DismissClick | src/pages/real-time-campaign-monitoring-dashboard/components/AlertBanner.jsx:86 | the dismiss button passes the id of the primary alert, which is an alert of the feed |
| AlertBanner.DismissShortens | src/pages/real-time-campaign-monitoring-dashboard/components/AlertBanner.jsx:86 | dismissing the primary alert shortens the feed |
| OperationsPanel.GetSeverityConfig | src/pages/real-time-campaign-monitoring-dashboard/components/OperationsPanel.jsx:61-85 | critical and warning styles, info for anything else |
| OperationsPanel.GetActionConfig | src/pages/real-time-campaign-monitoring-dashboard/components/OperationsPanel.jsx:87-101 | known actions get their own icon; destructive exactly for the pause actions; an unknown action shows its own name as an outline button |
| OperationsPanel.KnownCaptionsDistinct | src/pages/real-time-campaign-monitoring-dashboard/components/OperationsPanel.jsx:87-101 | two different known actions have different captions |
| OperationsPanel.TalliesCoverFeed | src/pages/real-time-campaign-monitoring-dashboard/components/OperationsPanel.jsx:132-137 | critical, warning and other counts add up to the feed length |
| OperationsPanel.Panel.constructor | src/pages/real-time-campaign-monitoring-dashboard/components/OperationsPanel.jsx:6 | no alert expanded |
| OperationsPanel.Panel.ClickAlert | src/pages/real-time-campaign-monitoring-dashboard/components/OperationsPanel.jsx:175-185 | a click collapses the expanded alert or expands another |
| OperationsPanel.Panel.ShownActions | src/pages/real-time-campaign-monitoring-dashboard/components/OperationsPanel.jsx:214 | only the expanded alert shows its actions |
| OperationsPanel.AtMostOneExpanded | src/pages/real-time-campaign-monitoring-dashboard/components/OperationsPanel.jsx:175 | two different alerts never show their actions at once |
| OperationsPanel.Panel.ActionClick | src/pages/real-time-campaign-monitoring-dashboard/components/OperationsPanel.jsx:226-229 | an action button calls back with its alert and its action |
| OperationsPanel.Panel.EmergencyClick | src/pages/real-time-campaign-monitoring-dashboard/components/OperationsPanel.jsx:150-162 | the emergency buttons call back with "pause-all" or "budget-protection" |
| Monitor.ClampHealth | src/pages/real-time-campaign-monitoring-dashboard/index.jsx:55 | system health clamped into 95..100, unchanged inside it |
| Monitor.UpdateMetrics | src/pages/real-time-campaign-monitoring-dashboard/index.jsx:51-56 | spend rate moves by less than 10, impressions by -100..99, health by under 1 within 95..100; other fields unchanged |
| Monitor.CumulativeWeights | src/pages/real-time-campaign-monitoring-dashboard/index.jsx:66-72 | the running sums of the weights are 0.85, 0.95 and 1 |
| Monitor.WeightedPick | src/pages/real-time-campaign-monitoring-dashboard/index.jsx:65-78 | connected up to 0.85, connecting up to 0.95, disconnected up to 1, nothing above |
| Monitor.PickStatus | src/pages/real-time-campaign-monitoring-dashboard/index.jsx:70-76 | the loop with `break` picks exactly `WeightedPick` |
| Monitor.EveryDrawPicks | src/pages/real-time-campaign-monitoring-dashboard/index.jsx:68-76 | every value `Math.random()` can return picks a status |
| Monitor.ConnectionLabel | src/pages/real-time-campaign-monitoring-dashboard/index.jsx:174-176 | "Live", "Connecting", "Offline", one per status |
| Monitor.ConnectionColor | src/pages/real-time-campaign-monitoring-dashboard/index.jsx:164-166 | green exactly when connected |
| Monitor.MonitorPage.constructor | src/pages/real-time-campaign-monitoring-dashboard/index.jsx:12-47 | the initial filters, alerts and metrics, connected |
| Monitor.MonitorPage.HandleAlertDismiss | src/pages/real-time-campaign-monitoring-dashboard/index.jsx:90-92 | removes exactly the alerts with the id |
| Monitor.MonitorPage.MetricsTick | src/pages/real-time-campaign-monitoring-dashboard/index.jsx:50-57 | the 30-second tick applies `UpdateMetrics`; health stays within 95..100 |
| Monitor.MonitorPage.StatusTick | src/pages/real-time-campaign-monitoring-dashboard/index.jsx:64-79 | the one-minute tick installs the picked status, or keeps the old one if none is picked |
| Monitor.MonitorPage.HandleFilterChange | src/pages/real-time-campaign-monitoring-dashboard/index.jsx:84-88 | stores the filters, nothing else |
| GlobalFilterBar.DefaultFilters | src/components/ui/GlobalFilterBar.jsx:60-68 | the reset state has exactly the four keys |
| GlobalFilterBar.InitialFilters | src/components/ui/GlobalFilterBar.jsx:8-14 | the initial state keeps every given filter |
| GlobalFilterBar.InitialFiltersIsSpread | src/components/ui/GlobalFilterBar.jsx:8-14 | the `||` defaults are redundant: the state is the given filters spread over the defaults |
| GlobalFilterBar.ActiveFilterCount | src/components/ui/GlobalFilterBar.jsx:70-76 | at most three; zero exactly when no campaign, no ad group and no non-blank keyword text is set |
| GlobalFilterBar.DefaultsCountNothing | src/components/ui/GlobalFilterBar.jsx:60-76 | the defaults count nothing, and neither the date range nor a performance choice ever counts |
| GlobalFilterBar.SummaryText | src/components/ui/GlobalFilterBar.jsx:194-196 | "1 filter applied" for one; the general text is stated by `SummaryReadsBack` |
| GlobalFilterBar.SummaryReadsBack | src/components/ui/GlobalFilterBar.jsx:194-196 | the summary is the count in decimal, then " filters applied" above one or " filter applied" for one |
| GlobalFilterBar.FilterBar.constructor | src/components/ui/GlobalFilterBar.jsx:8-16 | the initial filters, collapsed, their announcement pending |
| GlobalFilterBar.FilterBar.HandleFilterChange | src/components/ui/GlobalFilterBar.jsx:45-58 | updates one key; the previous timer is cancelled and the new map is pending |
| GlobalFilterBar.FilterBar.HandleReset | src/components/ui/GlobalFilterBar.jsx:60-68 | installs the four defaults and makes them the pending announcement |
| GlobalFilterBar.FilterBar.TimerFires | src/components/ui/GlobalFilterBar.jsx:46-48 | announces the current filters; nothing is pending afterwards |
| GlobalFilterBar.FilterBar.ToggleExpanded | src/components/ui/GlobalFilterBar.jsx:112 | flips the expanded panel |
| AlertBadge.BadgeText | src/components/ui/AlertNotificationBadge.jsx:95-98 | no badge for zero or fewer, "99+" above 99, the count otherwise |
| AlertBadge.BadgeTextReadsBack | src/components/ui/AlertNotificationBadge.jsx:95-98 | a count of 1..99 shows at most two digits that read back as the count |
| AlertBadge.GetAlertTypeConfig | src/components/ui/AlertNotificationBadge.jsx:14-45 | critical, warning and info icons and colours; the bell exactly for anything else |
| AlertBadge.ItemClickCalls | src/components/ui/AlertNotificationBadge.jsx:66-71 | reports the click, and also marks it read exactly when it was unread |
| AlertBadge.ItemClickLowersUnread | src/components/ui/AlertNotificationBadge.jsx:66-71 | clicking an unread alert lowers the unread count |
| AlertBadge.MarkAllOfferedWhenUnread | src/components/ui/AlertNotificationBadge.jsx:121 | "Mark all read" is offered exactly when the unread count is positive |
| AlertBadge.Badge.constructor | src/components/ui/AlertNotificationBadge.jsx:12 | dropdown closed |
| AlertBadge.Badge.BadgeClick | src/components/ui/AlertNotificationBadge.jsx:60-64 | toggles the dropdown only when there are alerts |
| AlertBadge.Badge.ItemClick | src/components/ui/AlertNotificationBadge.jsx:66-71 | makes the calls of `ItemClickCalls`: the click report, then a mark-read exactly for an unread alert |
| AlertBadge.Badge.MarkAllClick | src/components/ui/AlertNotificationBadge.jsx:73-76 | asks to mark all read and closes the dropdown |
| AlertBadge.Badge.Close | src/components/ui/AlertNotificationBadge.jsx:107 | the backdrop and the "View all" button close the dropdown |
| ExportBar.FormatOptions | src/components/ui/ExportActionBar.jsx:21-26 | exactly the known formats that are available, at most four |
| ExportBar.TimeRangeOptions | src/components/ui/ExportActionBar.jsx:28-33 | exactly the known time ranges that are available, at most four |
| ExportBar.DefaultFormats | src/components/ui/ExportActionBar.jsx:21-26 | the default formats list CSV, Excel and PDF in that order |
| ExportBar.FormatOrderFixed | src/components/ui/ExportActionBar.jsx:21-26 | the options keep the fixed order whatever order the formats are given in |
| ExportBar.ContextLabel | src/components/ui/ExportActionBar.jsx:35-46 | the three page titles, "Analytics Report" exactly for any other context |
| ExportBar.FormatIcon | src/components/ui/ExportActionBar.jsx:150-153 | the generic file icon exactly for unknown formats |
| ExportBar.AsciiUpper | src/components/ui/ExportActionBar.jsx:228 | same length, lower-case ASCII letters raised, other characters kept |
| ExportBar.ExportCaption | src/components/ui/ExportActionBar.jsx:228 | "Export " followed by `AsciiUpper` of the format, i.e. the format in capitals |
| ExportBar.ApplyEdit | src/components/ui/ExportActionBar.jsx:67-72 | an edit replaces exactly one field of the configuration |
| ExportBar.LastEditWins | src/components/ui/ExportActionBar.jsx:67-72 | of two edits of the same field the second wins |
| ExportBar.Bar.constructor | src/components/ui/ExportActionBar.jsx:13-19 | closed, CSV of the current view with charts and filters |
| ExportBar.Bar.QuickExport | src/components/ui/ExportActionBar.jsx:48-56 | exports the configuration with the chosen format and context and closes; disabled while exporting |
| ExportBar.Bar.AdvancedExport | src/components/ui/ExportActionBar.jsx:58-65 | exports the configuration with the context and closes; disabled while exporting |
| ExportBar.Bar.ConfigChange | src/components/ui/ExportActionBar.jsx:67-72 | applies one edit to the configuration |
| ExportBar.Bar.ToggleDropdown | src/components/ui/ExportActionBar.jsx:105-106 | flips the dropdown unless an export is running |
| ExportBar.Bar.Close | src/components/ui/ExportActionBar.jsx:119 | the backdrop closes the dropdown |
| StatusIndicator.GetStatusConfig | src/components/ui/RealTimeStatusIndicator.jsx:20-60 | connected pulses, connecting spins; "Live", "Connecting", "Offline", and "Unknown" exactly otherwise |
| StatusIndicator.SameWordsAsMonitor | src/components/ui/RealTimeStatusIndicator.jsx:20-60 | the indicator and the page footer use the same word for each status |
| StatusIndicator.Indicator.constructor | src/components/ui/RealTimeStatusIndicator.jsx:9-10 | visible at the current time |
| StatusIndicator.Indicator.Tick | src/components/ui/RealTimeStatusIndicator.jsx:12-18 | the one-second timer updates the current time |
| StatusIndicator.Indicator.Hide | src/components/ui/RealTimeStatusIndicator.jsx:129-130 | the close button hides the indicator |
| StatusIndicator.Indicator.Render | src/components/ui/RealTimeStatusIndicator.jsx:79-127 | nothing once hidden; otherwise the status style, the last-update text and the stale warning exactly when data is stale |
| Common.SliceBound | src/pages/keyword-performance-analytics-dashboard/components/KeywordPerformanceTable.jsx:49-52 | a `slice` bound: negative counts from the end, both ends clamped to the array |
| Common.JsSlice | src/pages/keyword-performance-analytics-dashboard/components/KeywordPerformanceTable.jsx:49-52 | `slice` never fails and yields at most `end - start` elements |
| Common.JsSliceNonNegative | src/pages/keyword-performance-analytics-dashboard/components/KeywordPerformanceTable.jsx:49-52 | with non-negative bounds `slice` is the plain sub-array, cut at the end, or empty past it |
| Common.MaxOf | src/pages/campaign-performance-overview-dashboard/components/CampaignDataTable.jsx:142 | `Math.max(...values)`: an element of the list no smaller than any other |
| Common.MinOf | src/pages/campaign-performance-overview-dashboard/components/CampaignDataTable.jsx:143 | `Math.min(...values)`: an element of the list no larger than any other |
| Common.Filter | src/pages/keyword-performance-analytics-dashboard/index.jsx:267 | `filter`: exactly the elements that pass, never more than there were |
| Common.FilterIsSubsequence | src/pages/keyword-performance-analytics-dashboard/index.jsx:267 | `filter` keeps the order of what it keeps |
| Common.RemoveAll | src/pages/keyword-performance-analytics-dashboard/components/KeywordPerformanceTable.jsx:24 | `filter(id => id !== x)`: every other id kept, no copy of x left |
| Common.RemoveAllAbsent | src/pages/keyword-performance-analytics-dashboard/components/KeywordPerformanceTable.jsx:24 | removing an absent id changes nothing |
| Common.Toggle | src/pages/campaign-performance-overview-dashboard/components/CampaignDataTable.jsx:112-118 | the selection toggle: the id is present afterwards exactly when it was absent before, other ids untouched |
| Common.ToggleTwice | src/pages/campaign-performance-overview-dashboard/components/CampaignDataTable.jsx:112-118 | toggling twice restores membership, and the list itself when the id was absent |
| Common.NatToString | src/components/ui/AlertNotificationBadge.jsx:97 | the decimal digits of a whole number, without leading zeros |
| Common.NatToStringRoundTrip | src/components/ui/AlertNotificationBadge.jsx:97 | the printed digits read back as the number |
| Filters.OrDefault | src/components/ui/GlobalFilterBar.jsx:9-12 | `filters?.[key] || fallback`: the stored value when truthy, the fallback otherwise |
| Filters.SetKey | src/components/ui/GlobalFilterBar.jsx:54-57 | `{ ...prev, [key]: value }`: the key changes and no other |
| Filters.Spread | src/components/ui/GlobalFilterBar.jsx:8-14 | `{ ...defaults, ...given }`: every given key wins, every other default survives |

## Left out

- The markup, DOM geometry, SVG and chart rendering, icons beyond the name
  a helper returns, CSS classes beyond those the helpers return,
  navigation (`window.location`) and `console.log` calls are not modelled.
- The header, the spend/revenue chart, the top performers widget, the
  real-time metrics strip and the routes are presentational. They are not
  part of this model.
- `Math.random()` and the clock are parameters:
  - `Monitor.UpdateMetrics` and `Monitor.MonitorPage.StatusTick` take the
    random draws;
  - `RealTimeCharts.GenerateMockData` takes a `sample` function in place
    of the `Math.random()` and `Math.sin` terms;
  - `RealTimeCharts.Charts.Tick` takes the new point.
- `toLocaleTimeString`, `toLocaleDateString`, `Intl.NumberFormat` and
  `toFixed` are function parameters: number-to-text formatting is not
  modelled beyond whole numbers.
- Floating point is modelled as exact reals. No rounding, NaN or Infinity
  is modelled.
- Sparkline.CampaignSparkline: requires a history that is not a single
  value. With one value the source divides by zero and draws a NaN
  coordinate.
- Sparkline.KpiSparkline: requires data that is not a single value, for
  the same reason.
- KeywordHeatmap.XScale: requires a positive maximum. An all-zero axis
  divides by zero in the source. The same holds for
  KeywordHeatmap.YScale, KeywordHeatmap.BubbleSize and
  KeywordMetricsStrip.HistogramHeights.
- StatusGrid.BudgetUtilization: requires a positive budget. The source
  gives Infinity or NaN for a zero budget.
- GlobalFilterBar.ActiveFilterCount: requires the keywords filter to be
  text when present. The source calls `trim` on it, which throws on any
  other value.
- Sorting.SortedCopy: the source's comparator never returns 0, so the
  order of equal keys depends on the engine's sort algorithm. The model
  claims only the permutation, plus strict order when the keys are
  distinct.
- Mixed-kind keys (a number compared with a string) are not ordered by
  the model.
- Strings compare by character code in the model. UTF-16 code-unit order,
  case folding and locale rules are not modelled. `toLowerCase` is a
  parameter.
- Monitor.ConnectionLabel: the connection status is an enumeration of the
  three values the page ever sets. The "Offline" fallback the footer
  gives any other string is therefore reached only by `Disconnected`.
  The indicator's own `StatusIndicator.GetStatusConfig` keeps the
  "Unknown" branch for arbitrary strings.
- RealTimeCharts.AnomalyThreshold: the selected metric is an enumeration
  of the four metrics the buttons offer. The `|| 0` fallback for an
  unknown metric is therefore unreachable and not modelled.
- OperationsPanel.GetActionConfig: keys inherited from the object
  prototype (such as `toString`) would match in the source's lookup
  table. The model treats them as unknown actions.
- KeywordTable.Table.Next: the table class runs the corrected `NextPage`
  of the first finding below, so the move to page 0 on an empty table
  that the source makes cannot happen in the class (its `Valid()` keeps
  the page at 1 or above). The as-written move is modelled by
  `KeywordTable.NextPageAsWritten`.
- KeywordFilterBar.FilterBar.constructor: the filter bar class starts
  from the corrected `InitialFilters` of the second finding below, so
  the source's count of one active filter on an unfiltered bar cannot
  happen in the class. The as-written state is modelled by
  `KeywordFilterBar.InitialFiltersAsWritten`.
- GlobalFilterBar.FilterBar.TimerFires: the effect also re-runs when the
  `onFilterChange` callback changes identity. That re-run re-announces
  the same filters and is not modelled. Cancelling the earlier timer is
  modelled, as a single pending announcement.
- The keyword filter bar's timers are never cancelled, so its
  announcements are a queue (`scheduled`).
- The overview page's auto-refresh interval only updates a
  last-refreshed clock value. That value is not modelled; only the
  `autoRefresh` flag is.
- The export delay of two seconds is modelled as two events,
  `ExportStarted` and `ExportSettled`.
- The hover state of the heatmap and the time-range select of the charts
  only affect rendering, and are not modelled.

## Findings

| source | as written | input that shows it | evidently intended | confidence | as-written member | corrected member |
|---|---|---|---|---|---|---|
| src/pages/keyword-performance-analytics-dashboard/components/KeywordPerformanceTable.jsx:334 | the next-page button sets `Math.min(totalPages, page + 1)` | an empty keyword list: there are 0 pages and the button is enabled on page 1, so a click moves to page 0 and the caption reads "-24-0 of 0" | never leave the offered pages, and stay on page 1 when there are no rows | not executed | KeywordTable.NextPageAsWrittenLeavesFirstPage | KeywordTable.NextPageStaysInRange |
| src/pages/keyword-performance-analytics-dashboard/components/KeywordFilterBar.jsx:8-16 | the initial local filters omit `performance`, while the count treats a missing `performance` as a choice other than `'all'` | the bar opened with `filters = {}` shows "1" on the Advanced button and a reset button, although no filter is set | start from the same defaults the reset installs (`performance: 'all'`), so an unfiltered bar counts nothing | not executed | KeywordFilterBar.InitialCountAsWritten | KeywordFilterBar.InitialCountCorrected |

# Vibe analytics of the employee feedback dashboard, in Dafny

This project models the client-side analytics of the employee feedback
dashboard. That is the code that turns vibe check-ins (a score from 0 to 10 and,
optionally, a mood zone), AI-bot conversations and employee records into the
numbers the dashboard shows. It covers:

- the vibe helpers: the score label and colour, zone colours, counts per label,
  the at-risk share, and the positive and negative vibe tests
  (module `VibeUtils`);
- the vibemeter trend chart. Responses are selected and filtered to a time
  window, grouped by UTC day, and reduced to daily averages sorted by day. The
  chart also gets the overall average and a least-squares trend line
  (`VibemeterTrend`, `Trendline`, and a stable insertion sort in `Sorting`);
- the vibe distribution pie: the optional employee filter, counts in five score
  ranges, the removal of empty zones and the total (`VibeDistribution`);
- the overview cards: the positive and negative shares, employees needing
  attention, and escalated conversations (`OverviewCards`);
- the AI-bot statistics card: the escalation rate, unique employees, mood
  keywords in summaries, and the tally of action items with its most common
  action (`AiBotStats`);
- the employee table. Its state (page, rows per page, search term, sort field
  and order) is a class whose handlers update it in place. The search, the sort
  and the pagination it applies are functions (`EmployeeTable`);
- the analytics page: the department list and filter, engagement buckets, the
  zone distribution, the per-employee averages and the zone shares
  (`Analytics`).

Shared definitions live in `Common`:

- a `JsNumber` result for unguarded JavaScript division: a finite value, `NaN`
  or `Infinity`;
- `Filter`, `Map`, `Sum` and `Mean`;
- first-occurrence de-duplication (`Distinct`, which models `new Set` and
  `Object.keys` insertion order);
- ASCII lower-casing and substring search.

The record types are in `EmployeeTypes`.

The current time is a parameter (`now`, in milliseconds). String collation
(`localeCompare`) is a parameter `collate`, assumed to be a total preorder.

## Model

| member | source | states |
|---|---|---|
| EmployeeTypes.ParseZone | frontend/src/types/employee.ts:1 | a string parses to a zone exactly when it is that zone's name |
| VibeUtils.GetVibeLabel | frontend/src/utils/vibeUtils.ts:29-41 | the label is Critical below 3, Warning in [3,5), Average in [5,7), Good in [7,9), Excellent from 9, each as an if-and-only-if |
| VibeUtils.LabelMonotone | frontend/src/utils/vibeUtils.ts:29-41 | a higher score never gets a lower label |
| VibeUtils.GetVibeColor | frontend/src/utils/vibeUtils.ts:9-22 | the colour of a score is the colour of its label, with the same thresholds |
| VibeUtils.LabelColorsDistinct | frontend/src/utils/vibeUtils.ts:9-22 | different labels get different colours |
| VibeUtils.GetVibeZoneColor | frontend/src/utils/vibeUtils.ts:48-57 | a known zone gets its own colour; a missing or unknown zone gets the neutral grey |
| VibeUtils.ZoneColorsDistinct | frontend/src/utils/vibeUtils.ts:48-57 | the five zone colours differ from each other and from the neutral colour |
| VibeUtils.GroupVibesByZone | frontend/src/utils/vibeUtils.ts:67-83 | the map has exactly the five labels as keys, and each count is the number of responses with that label |
| VibeUtils.LabelCountsSum | frontend/src/utils/vibeUtils.ts:67-83 | the five label counts add up to the number of responses |
| VibeUtils.AtRiskMeansBelowFive | frontend/src/utils/vibeUtils.ts:90-97 | the Critical plus Warning count is the number of scores below 5 |
| VibeUtils.CalculateAtRiskPercentage | frontend/src/utils/vibeUtils.ts:90-97 | 0 for no responses, otherwise 100 times the at-risk share, always within [0,100] |
| VibeUtils.PositiveNegativeExclusive | frontend/src/utils/vibeUtils.ts:117-134 | no response is both positive and negative; a response with an unknown zone is neither |
| VibeUtils.PositiveNegativeByZone | frontend/src/utils/vibeUtils.ts:117-134 | with a known zone: positive iff Happy, Excited or Okay; negative iff Frustrated or Sad; exactly one holds |
| VibeUtils.ScoreOnlyBands | frontend/src/utils/vibeUtils.ts:117-134 | without a zone, a response is neither positive nor negative exactly when its score is in [5,6) |
| Sorting.Insert | frontend/src/components/charts/VibemeterTrendChart.tsx:81 | inserting adds exactly one element and keeps the others (multiset) |
| Sorting.SortBy | frontend/src/components/charts/VibemeterTrendChart.tsx:81 | the sort is a permutation of its input |
| Sorting.InsertSorted | frontend/src/components/charts/VibemeterTrendChart.tsx:81 | inserting into a sorted sequence keeps it sorted under a total preorder |
| Sorting.SortBySorted | frontend/src/components/charts/VibemeterTrendChart.tsx:81 | the result is sorted under any total preorder |
| VibemeterTrend.SelectInput | frontend/src/components/charts/VibemeterTrendChart.tsx:43-51 | chart data wins; otherwise each app response is mapped in order; otherwise the input is empty |
| VibemeterTrend.CeilDiv | frontend/src/components/charts/VibemeterTrendChart.tsx:57 | the result is the least integer q with q*b >= a |
| VibemeterTrend.InWindowIff | frontend/src/components/charts/VibemeterTrendChart.tsx:54-59 | a response is in the window iff its distance from now is at most `days` whole days, in either direction |
| VibemeterTrend.ThirtyDayBoundary | frontend/src/components/charts/VibemeterTrendChart.tsx:54-59 | exactly 30 days ago is inside a 30-day window; 31 days ago is outside |
| VibemeterTrend.FilterWindowKeeps | frontend/src/components/charts/VibemeterTrendChart.tsx:54-59 | the window filter keeps exactly the responses within `days * 86400000` ms of now |
| VibemeterTrend.GroupByDay | frontend/src/components/charts/VibemeterTrendChart.tsx:62-69 | each day's group holds exactly that day's responses in input order; the keys are the days in first-occurrence order |
| VibemeterTrend.OnDayNonEmpty | frontend/src/components/charts/VibemeterTrendChart.tsx:62-69 | every day that occurs has a non-empty group |
| VibemeterTrend.OnDayMultiplicity | frontend/src/components/charts/VibemeterTrendChart.tsx:62-69 | a day's group size is the number of responses on that day |
| VibemeterTrend.DayLeTotalPreorder | frontend/src/components/charts/VibemeterTrendChart.tsx:81 | ordering by day is a total preorder |
| VibemeterTrend.DistinctFaithfulDays | frontend/src/components/charts/VibemeterTrendChart.tsx:72-81 | two different faithful daily summaries are for different days |
| VibemeterTrend.SortedSummaries | frontend/src/components/charts/VibemeterTrendChart.tsx:72-81 | sorting faithful, duplicate-free summaries that cover every day gives one summary per day in strictly increasing day order |
| VibemeterTrend.TotalCountIsTally | frontend/src/components/charts/VibemeterTrendChart.tsx:72-81 | the total of the day counts is the sum of the days' multiplicities |
| VibemeterTrend.CountsCoverResponses | frontend/src/components/charts/VibemeterTrendChart.tsx:72-81 | the daily counts add up to the number of responses |
| VibemeterTrend.DailyAverageBounds | frontend/src/components/charts/VibemeterTrendChart.tsx:72-81 | a daily average lies within the bounds of the scores |
| VibemeterTrend.DailyAverages | frontend/src/components/charts/VibemeterTrendChart.tsx:72-81 | one entry per distinct day, sorted by day, each the count and mean of that day's scores; the counts total the input size |
| VibemeterTrend.OverallAverage | frontend/src/components/charts/VibemeterTrendChart.tsx:84-86 | absent when not requested, NaN with no days, otherwise the mean of the daily averages |
| VibemeterTrend.OverallAverageBounds | frontend/src/components/charts/VibemeterTrendChart.tsx:84-86 | the overall average lies within the bounds of the daily averages |
| VibemeterTrend.FormatChartData | frontend/src/components/charts/VibemeterTrendChart.tsx:89-96 | one point per day with its day, average and count; trend line 0 when requested; the overall average when requested |
| VibemeterTrend.AddTrendline | frontend/src/components/charts/VibemeterTrendChart.tsx:99-118 | with the trend line on and two or more points, each point's trend line is the fitted value at its index and nothing else changes; otherwise the array is untouched |
| VibemeterTrend.PointsCarryDaily | frontend/src/components/charts/VibemeterTrendChart.tsx:89-96 | the formatted points carry back exactly the daily summaries |
| VibemeterTrend.PlotDaily | frontend/src/components/charts/VibemeterTrendChart.tsx:84-118 | the points carry the daily summaries; the trend line is the fit (two or more points), 0 (fewer) or absent; the overall average is the mean or absent |
| VibemeterTrend.TrendChartData | frontend/src/components/charts/VibemeterTrendChart.tsx:42-118 | the chart is one point per distinct day of the windowed input, summarising that day, with the trend line and average as above |
| Trendline.IndexSumClosedForm | frontend/src/components/charts/VibemeterTrendChart.tsx:105 | 0 + 1 + ... + (n-1) = n(n-1)/2 |
| Trendline.XMeanMidpoint | frontend/src/components/charts/VibemeterTrendChart.tsx:105 | the mean index is (n-1)/2 |
| Trendline.DenominatorPositive | frontend/src/components/charts/VibemeterTrendChart.tsx:109-111 | with two or more points the slope's denominator is positive, so the slope is never a division by zero |
| Trendline.SumOnLine | frontend/src/components/charts/VibemeterTrendChart.tsx:106 | the sum of values on a line a*i+b is a times the index sum plus n*b |
| Trendline.NumeratorOnLine | frontend/src/components/charts/VibemeterTrendChart.tsx:108-109 | for values on a line the numerator is the slope times the denominator |
| Trendline.YMeanOnLine | frontend/src/components/charts/VibemeterTrendChart.tsx:105-106 | for values on a line the mean value is the line at the mean index |
| Trendline.FitReproducesLine | frontend/src/components/charts/VibemeterTrendChart.tsx:99-118 | when the daily averages lie on a line, the fit recovers its slope and intercept and reproduces every value |
| Trendline.SlopeOnLine | frontend/src/components/charts/VibemeterTrendChart.tsx:105-111 | when the daily averages lie on a line, the least-squares slope is that line's slope |
| Trendline.RisingSeriesExample | frontend/src/components/charts/VibemeterTrendChart.tsx:99-118 | averages 1,2,3,4,5 give slope 1 and fitted values i+1 |
| VibeDistribution.FilterByEmployeesKeeps | frontend/src/components/charts/VibeDistributionChart.tsx:25-27 | without an id list everything is kept; with one, exactly the listed employees' responses are kept |
| VibeDistribution.EmptyIdListKeepsNothing | frontend/src/components/charts/VibeDistributionChart.tsx:25-27 | an empty id list keeps nothing |
| VibeDistribution.ZoneCounts | frontend/src/components/charts/VibeDistributionChart.tsx:39-49 | five slices in zone order, each with its zone's name, colour and the number of scores in its closed range |
| VibeDistribution.ZonesDisjoint | frontend/src/components/charts/VibeDistributionChart.tsx:30-36 | no score falls in two zones |
| VibeDistribution.GapScoresUncounted | frontend/src/components/charts/VibeDistributionChart.tsx:30-49 | a score is in no zone exactly when it lies in a gap between ranges or outside [0,10] |
| VibeDistribution.CountsPartitionResponses | frontend/src/components/charts/VibeDistributionChart.tsx:39-49 | counted plus gap responses make up all responses |
| VibeDistribution.DropEmptyKeepsTotal | frontend/src/components/charts/VibeDistributionChart.tsx:52-71 | dropping empty slices does not change the total |
| VibeDistribution.ChartDataEmptyIff | frontend/src/components/charts/VibeDistributionChart.tsx:52-55 | no slice is left iff every count is 0 |
| VibeDistribution.ChartDataKeepsPositive | frontend/src/components/charts/VibeDistributionChart.tsx:52 | the kept slices are exactly the zones with a positive count |
| VibeDistribution.ChartDataInZoneOrder | frontend/src/components/charts/VibeDistributionChart.tsx:52 | the kept slices stay in zone order |
| VibeDistribution.DistributionViewSpec | frontend/src/components/charts/VibeDistributionChart.tsx:25-71 | "No data" iff every zone count is 0; otherwise the total is the number of counted responses, positive and at most the input size |
| VibeDistribution.SliceTotalIsCounted | frontend/src/components/charts/VibeDistributionChart.tsx:38-52 | the five zone counts add up to the number of responses that fall in some zone |
| OverviewCards.PositivePercentage | frontend/src/components/dashboard/OverviewCards.tsx:24-27 | 0 without responses, otherwise 100 times the positive share, within [0,100] |
| OverviewCards.NegativePercentage | frontend/src/components/dashboard/OverviewCards.tsx:30-33 | 0 without responses, otherwise 100 times the negative share, within [0,100] |
| OverviewCards.PositiveNegativeBound | frontend/src/components/dashboard/OverviewCards.tsx:24-33 | the positive and negative counts, and their percentages, never exceed the whole |
| OverviewCards.EmployeesNeedingAttention | frontend/src/components/dashboard/OverviewCards.tsx:36-39 | the count is at most the number of negative responses |
| OverviewCards.NegativeIdsAreNegativeEmployees | frontend/src/components/dashboard/OverviewCards.tsx:36-39 | the ids collected are exactly the employees with a negative response |
| OverviewCards.NegativeIdsSound | frontend/src/components/dashboard/OverviewCards.tsx:36-39 | every id collected belongs to an employee with a negative response |
| OverviewCards.NegativeIdsComplete | frontend/src/components/dashboard/OverviewCards.tsx:36-39 | every employee with a negative response has its id collected |
| OverviewCards.AttentionCountsEmployees | frontend/src/components/dashboard/OverviewCards.tsx:36-39 | the count is the number of distinct employees with a negative response |
| OverviewCards.EscalatedPartition | frontend/src/components/dashboard/OverviewCards.tsx:45 | escalated-or-attention conversations and the rest make up all conversations |
| OverviewCards.AttentionPercentage | frontend/src/components/dashboard/OverviewCards.tsx:164-175 | 100 times the count over the employee count; NaN or Infinity when there are no employees |
| AiBotStats.EscalationRate | frontend/src/components/charts/AiBotStatsCard.tsx:23-27 | 0 without conversations, otherwise 100 times the escalated share, within [0,100] |
| AiBotStats.UniqueEmployees | frontend/src/components/charts/AiBotStatsCard.tsx:30 | at most the number of conversations |
| AiBotStats.UniqueEmployeesCountsIds | frontend/src/components/charts/AiBotStatsCard.tsx:30 | the count is the size of the set of employee ids |
| AiBotStats.FirstKeywordIsFirstMatch | frontend/src/components/charts/AiBotStatsCard.tsx:33-48 | the zone found is the first in keyword order whose keyword the lower-cased summary contains; none iff no keyword occurs |
| AiBotStats.KeywordCountsPartition | frontend/src/components/charts/AiBotStatsCard.tsx:33-48 | the five keyword counts plus unmatched summaries make up all conversations |
| AiBotStats.TallyKeywords | frontend/src/components/charts/AiBotStatsCard.tsx:33-48 | the map has the five zones as keys, each counting the conversations whose first keyword is that zone |
| AiBotStats.TallyItems | frontend/src/components/charts/AiBotStatsCard.tsx:52-55 | after one conversation's items, the tally counts every action seen so far and the keys are in first-occurrence order |
| AiBotStats.TallyActions | frontend/src/components/charts/AiBotStatsCard.tsx:51-56 | the tally counts every action item of every conversation, keyed in first-occurrence order |
| AiBotStats.ActionTallyTotal | frontend/src/components/charts/AiBotStatsCard.tsx:51-56 | the tallied counts are the item multiplicities and add up to the number of items |
| AiBotStats.CountGeTotalPreorder | frontend/src/components/charts/AiBotStatsCard.tsx:58-59 | ordering by descending count is a total preorder |
| AiBotStats.SortedHeadIsMaximal | frontend/src/components/charts/AiBotStatsCard.tsx:58-59 | the first entry after sorting has the largest count |
| AiBotStats.MostCommonActionSpec | frontend/src/components/charts/AiBotStatsCard.tsx:51-60 | "No actions recorded" without items; when there are items and none is the empty string, an action item of maximal count is shown; whenever the text shown is not the fallback, it is such an action item |
| AiBotStats.EntriesCountOccurrences | frontend/src/components/charts/AiBotStatsCard.tsx:51-58 | the record's entries are empty iff there are no action items; each entry is an action that occurs, with its number of occurrences, and every action has an entry |
| AiBotStats.HeadIsMostFrequent | frontend/src/components/charts/AiBotStatsCard.tsx:58-60 | with no entries the fallback text is shown; with actions and no empty-string action, the text shown is an action item of maximal count; any text other than the fallback is such an action |
| AiBotStats.ComputeStats | frontend/src/components/charts/AiBotStatsCard.tsx:22-70 | all card figures at once: totals, escalation, unique employees, keyword counts and the most common action, including that an action of maximal count is shown when there are action items and none is empty |
| EmployeeTable.VibeColor | frontend/src/components/employeeList/EmployeeTable.tsx:29-38 | a known zone gets its colour, anything else the neutral colour, matching the shared zone colours |
| EmployeeTable.Rank | frontend/src/components/employeeList/EmployeeTable.tsx:72-77 | a known zone ranks 1 to 5 in zone order; a missing or unknown zone ranks 0 |
| EmployeeTable.RankFollowsZoneOrder | frontend/src/components/employeeList/EmployeeTable.tsx:72-77 | a later zone has a strictly higher rank |
| EmployeeTable.MatchesAsWritten | frontend/src/components/employeeList/EmployeeTable.tsx:64-68 | the filter as written throws exactly when neither name nor department matches and the position is missing |
| EmployeeTable.MatchesAsWrittenAgrees | frontend/src/components/employeeList/EmployeeTable.tsx:64-68 | when the filter as written returns, it agrees with the corrected test |
| EmployeeTable.MatchesAsWrittenThrows | frontend/src/components/employeeList/EmployeeTable.tsx:64-68 | an employee without a position and a non-matching term make the filter as written throw |
| EmployeeTable.SearchKeeps | frontend/src/components/employeeList/EmployeeTable.tsx:64-68 | the search keeps exactly the matching employees, in their order |
| EmployeeTable.EmptySearchKeepsAll | frontend/src/components/employeeList/EmployeeTable.tsx:64-68 | an empty search keeps everyone |
| EmployeeTable.SortKeyAsWritten | frontend/src/components/employeeList/EmployeeTable.tsx:79-83 | the key as written throws exactly when sorting by position and the position is missing |
| EmployeeTable.SortKey | frontend/src/components/employeeList/EmployeeTable.tsx:79-83 | the corrected key agrees with the one as written wherever that one is defined |
| EmployeeTable.SortKeyAsWrittenThrows | frontend/src/components/employeeList/EmployeeTable.tsx:79-83 | an employee without a position makes the sort by position as written throw |
| EmployeeTable.ComparatorIsTotalPreorder | frontend/src/components/employeeList/EmployeeTable.tsx:71-85 | the table's comparator is a total preorder in every field and direction |
| EmployeeTable.SortEmployeesSpec | frontend/src/components/employeeList/EmployeeTable.tsx:71-85 | the sort is a permutation, ordered by zone rank or by collated key, ascending or descending |
| EmployeeTable.Paginate | frontend/src/components/employeeList/EmployeeTable.tsx:88-91 | a page has at most rowsPerPage rows, is full when enough rows remain, is empty past the end, and row k is row page*rowsPerPage+k |
| EmployeeTable.PagesConcatenate | frontend/src/components/employeeList/EmployeeTable.tsx:88-91 | the first n pages, joined, are the first n*rowsPerPage rows, or all rows once they cover the list |
| EmployeeTable.EmployeeTable.constructor | frontend/src/components/employeeList/EmployeeTable.tsx:23-27 | page 0, 10 rows, empty search, sorted by last vibe ascending |
| EmployeeTable.EmployeeTable.HandleChangePage | frontend/src/components/employeeList/EmployeeTable.tsx:40-42 | sets the page and nothing else |
| EmployeeTable.EmployeeTable.HandleChangeRowsPerPage | frontend/src/components/employeeList/EmployeeTable.tsx:44-47 | sets the rows per page and goes back to page 0 |
| EmployeeTable.EmployeeTable.HandleSearchChange | frontend/src/components/employeeList/EmployeeTable.tsx:49-52 | sets the search term and goes back to page 0 |
| EmployeeTable.EmployeeTable.HandleSort | frontend/src/components/employeeList/EmployeeTable.tsx:54-61 | moves the sort state to the next one for the clicked field and changes nothing else |
| EmployeeTable.NextSortSpec | frontend/src/components/employeeList/EmployeeTable.tsx:54-61 | the clicked field becomes the sort field; clicking the current field flips the order and a second click restores it; a new field starts ascending |
| EmployeeTable.EmployeeTable.Visible | frontend/src/components/employeeList/EmployeeTable.tsx:64-91 | the rows shown are at most rowsPerPage employees, each from the list and matching the search |
| EmployeeTable.EmployeeTable.VisibleIsPage | frontend/src/components/employeeList/EmployeeTable.tsx:87-91 | the rows shown are the slice of the sorted search result from row page·rowsPerPage, rowsPerPage long, cut at its end, empty past it |
| EmployeeTable.EmployeeTable.VisibleSorted | frontend/src/components/employeeList/EmployeeTable.tsx:70-91 | the rows shown are in the order of the current sort column and direction |
| EmployeeTable.PageOfSorted | frontend/src/components/employeeList/EmployeeTable.tsx:87-91 | any page of a sorted list is sorted |
| Analytics.Departments | frontend/src/pages/reports/AnalyticsPage.tsx:70-73 | "all" comes first, followed by at most one entry per employee |
| Analytics.DepartmentsSpec | frontend/src/pages/reports/AnalyticsPage.tsx:70-73 | after "all": exactly the departments that occur, each once, in order of first occurrence |
| Analytics.FilterDepartmentSpec | frontend/src/pages/reports/AnalyticsPage.tsx:75-78 | "all" keeps everyone; otherwise exactly that department's employees; order kept |
| Analytics.EngagementBucketsExclusive | frontend/src/pages/reports/AnalyticsPage.tsx:81-104 | an employee with a rate is in exactly one of high (>0.7), medium ([0.4,0.7]) and low (<0.4); one without a rate is in none |
| Analytics.ConversationStats | frontend/src/pages/reports/AnalyticsPage.tsx:81-104 | three named buckets, high, medium, low |
| Analytics.EngagementCountsCover | frontend/src/pages/reports/AnalyticsPage.tsx:81-104 | the three counts add up to the number of employees with a rate |
| Analytics.VibeDistribution | frontend/src/pages/reports/AnalyticsPage.tsx:107-132 | five named zone counts in the page's order |
| Analytics.VibeDistributionCover | frontend/src/pages/reports/AnalyticsPage.tsx:107-132 | the five zone counts plus employees with no listed zone make up all employees |
| Analytics.VibeDistributionBound | frontend/src/pages/reports/AnalyticsPage.tsx:107-132 | the zone counts total at most the number of employees |
| Analytics.PositiveIsHappyPlusVeryHappy | frontend/src/pages/reports/AnalyticsPage.tsx:411-427 | the positive-zone count is the happy count plus the very-happy count |
| Analytics.Average | frontend/src/pages/reports/AnalyticsPage.tsx:263-286 | NaN for no employees, otherwise the mean of the per-employee values, missing values counting as 0 |
| Analytics.AverageBounds | frontend/src/pages/reports/AnalyticsPage.tsx:263-286 | the average lies within the bounds of the values |
| Analytics.AverageResponseRate | frontend/src/pages/reports/AnalyticsPage.tsx:248-256 | NaN for no employees, otherwise 100 times the mean response rate |
| Analytics.AverageActionableFeedbackRate | frontend/src/pages/reports/AnalyticsPage.tsx:292-302 | NaN for no employees, otherwise 100 times the mean actionable-feedback rate |
| Analytics.ResponseRatePercentBounds | frontend/src/pages/reports/AnalyticsPage.tsx:248-256 | rates in [0,1] give a percentage in [0,100] |
| Analytics.VibeScoreBounds | frontend/src/pages/reports/AnalyticsPage.tsx:360-366 | vibe averages in [0,10] give an average in [0,10] |
| Analytics.Share | frontend/src/pages/reports/AnalyticsPage.tsx:373-427 | count/n*100 when there are employees; NaN for 0/0 |
| Analytics.ZoneSharesBounded | frontend/src/pages/reports/AnalyticsPage.tsx:373-427 | the critical, concerned and positive shares are NaN with no employees, otherwise within [0,100] |
| Analytics.ShareBounded | frontend/src/pages/reports/AnalyticsPage.tsx:373-427 | a count of at most n gives a share within [0,100] |
| Common.Divide | frontend/src/components/dashboard/OverviewCards.tsx:164-175 | JavaScript division: the quotient for a non-zero divisor, NaN for 0/0, Infinity or -Infinity otherwise |
| Common.GuardedPercentage | frontend/src/components/dashboard/OverviewCards.tsx:24-33 | 0 for an empty whole, otherwise 100*part/whole, within [0,100] when part <= whole |
| Common.Lower | frontend/src/components/employeeList/EmployeeTable.tsx:64-68 | lower-cases exactly the ASCII capitals and keeps the length |

## Left out

- Rounding for display is not modelled. This covers `toFixed` and `Math.round` on percentages, on daily averages and on the fitted trend line. The model keeps exact reals, so the trend line is fitted to unrounded daily averages; the source fits it to averages rounded to one decimal.
- Day grouping: a day is `timestamp / 86400000` (UTC), standing for `toISOString().split('T')[0]`. Parsing dates and the `toLocaleDateString` labels are not modelled.
- `formatDate` in vibeUtils.ts is not modelled: it only formats a date for display.
- VibemeterTrend.InWindowIff: the model takes `days` as an integer. A fractional `days` prop is not modelled.
- Common.Lower: lower-cases ASCII letters only. JavaScript's full Unicode case mapping is not modelled.
- `localeCompare` is not modelled. It is the parameter `collate`, which the sort lemmas assume is a total preorder.
- `parseInt` of the rows-per-page selection is not modelled. The handler takes the resulting natural number.
- Engagement rates and scores are reals. `NaN` or missing numeric fields inside records are not modelled, except where the source substitutes 0 (`|| 0`).
- JavaScript orders integer-like object keys numerically, before insertion order. Action-item strings that look like integers are not modelled that way. Keys inherited from `Object.prototype`, such as an action named "constructor", are not modelled either.
- AiBotStats.MostCommonActionSpec: proves that the action shown has the maximal count, and that one is shown when there are action items and none is the empty string. Which action wins a tie (the first in insertion order, since the sort is stable) is not stated. When an empty-string action heads the sort, the fallback "No actions recorded" is shown, as in the source; the contract does not state when that happens.
- Rendering, tab switching (`handleTabChange`), the department drop-down handler (`handleDepartmentChange`), `useMemo` caching and all I/O are not modelled. The modelled functions take the selected values as parameters.
- Analytics.FilterDepartmentSpec: a department literally named "all" selects every employee, as in the source.
- The clock is not modelled. `new Date()` is the parameter `now`.
- Employee ids are strings. The source types `employeeId` as `string | number`, and `new Set` and `includes` tell `1` and `"1"` apart (OverviewCards.tsx:36-39, AiBotStatsCard.tsx:30, VibeDistributionChart.tsx:26); ids that mix the two types for the same employee are not modelled.
- VibemeterTrend.TrendChartData: the prop defaults `days = 30`, `showAverage = false` and `showTrendline = false` (VibemeterTrendChart.tsx:35-38) are not modelled; the caller passes all three.

## Findings

| source | as written | input that shows it | evidently intended | confidence | as-written member | corrected member |
|---|---|---|---|---|---|---|
| frontend/src/components/employeeList/EmployeeTable.tsx:64-68 | the search calls `toLowerCase()` on the optional `position` when neither name nor department matches | an employee without a position (name "Ann", department "Sales") and the search term "x", typed into the search box | an employee without a position simply does not match on position | not executed | EmployeeTable.MatchesAsWrittenThrows | EmployeeTable.SearchKeeps |
| frontend/src/components/employeeList/EmployeeTable.tsx:79-83 | sorting by position reads `a[sortField].toLowerCase()` on the optional `position` | two employees, one of them without a position, after clicking the Position column header | a missing position sorts as the empty string | not executed | EmployeeTable.SortKeyAsWrittenThrows | EmployeeTable.SortEmployeesSpec |

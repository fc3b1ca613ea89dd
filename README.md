# Road-accident charts: the data layer of `js/charts.js`, in Dafny

The charts page of the Polish road-accident dashboard turns CSV rows into
the series and positions that D3 then draws. This project models that data
layer and proves what each step promises:

- **Monthly chart** (`MonthlyCounts`). `d3.rollups` sums the counts per
  year-month and the buckets are sorted by period with a stable insertion
  sort, proved to be a sorted permutation of its input. The 12-month trailing
  average is `null` below index 12 (index 11 included, as written) and the
  mean of the twelve buckets ending at `i` from there on. The average is
  computed by a `method` with the source's nested loops, proved equal to
  `TrailingYearMean`.
- **Daily chart** (`DailyCounts`). February 29 rows are dropped while
  parsing. The rest are grouped by year and then by day-of-year, each in
  order of first appearance (`Grouping.GroupBy`, the model of
  `d3.groups`/`d3.rollups`). Each year's day list gets a trailing average
  over at most seven list positions that never leaves that year's list. The
  window loop from -6 to 0, with its bounds test, is a `method` proved
  against `TrailingWeekMean`.
- **Layout rules** (`Layout`):
  - the `legend-position` keyword grid, including the daily chart's
    `width-210`;
  - the remark marks, meaning the band or rule and the two captions, with
    the caption row chosen by `text-position`;
  - the daily chart's year filter on remarks;
  - highlighted versus other year-line styling;
  - `raise()` of the highlighted line.

  `String.prototype.split` is modelled as `Split`, with its inverse `Join`.
- **Type breakdown** (`TypeBreakdown`). The total is the sum of the counts.
  Shares are `count/total*100` as exact rationals, and the label-placement
  rule puts a label inside the bar above 900000.
- **Predictive chart** (`PredictiveChart`). The singleton object
  `load_predicted_accident_counts_by_months` is a `class Chart`. Its fields
  change in `Load`/`Draw` (`load` and its callback), `ChangeDomain`
  (`change_chart_domain`) and `ChangeDataset` (`chage_chart_dataset`). Its
  invariant `Valid` says the drawn lines are bound either to the data or to
  its flattened copy, and that the y domain is [0, 1350].

Averages and shares are `real`: an integer sum divided by an integer count.
D3 scales are function parameters `x: int -> real`. Where a property needs
the scale to keep order, that is a precondition of the lemma.

Shared helpers live in `Seqs`: `SumOf`, `Filter`, `Project` (map),
`FirstAppearances`, and the mean bound `MeanBetween`.

## Model

| member | source | states |
|---|---|---|
| MonthlyCounts.Rollup | js/charts.js:10-16 | one bucket per distinct year-month, in order of first appearance; each bucket's count is the sum of the counts of that month's records; the bucket counts add up to the sum of all record counts |
| MonthlyCounts.InsertByPeriod | js/charts.js:17 | inserting one bucket gives one more element, the same elements plus the new one, and adds its count to the total |
| MonthlyCounts.InsertPermutes | js/charts.js:17 | insertion adds exactly the new bucket and keeps every other bucket as often as before |
| MonthlyCounts.InsertAfterSamePeriod | js/charts.js:17 | inserting into a sorted sequence puts the new bucket after every bucket of its own period and keeps the order within each period |
| MonthlyCounts.SortByPeriod | js/charts.js:17 | the sort keeps the length, the set of buckets and the total count |
| MonthlyCounts.SortByPeriodPermutes | js/charts.js:17 | the sort's result is a permutation of its input: each bucket occurs as often as in the input |
| MonthlyCounts.SortByPeriodStable | js/charts.js:17 | the sort is stable, as `Array.prototype.sort` is: the buckets of any one period keep their input order |
| MonthlyCounts.SortByPeriodSorts | js/charts.js:17 | the sort's result is ascending by period, each bucket's period at least the previous one's |
| MonthlyCounts.SortByPeriodStrict | js/charts.js:17 | with no repeated period, each bucket's period in the sort's result is above the previous one's |
| MonthlyCounts.MonthlyBucketsIncreasing | js/charts.js:10-17 | `MonthlyBuckets`, the rollup sorted by period: its buckets are strictly increasing by period, so there is exactly one bucket per month |
| MonthlyCounts.MonthlyBucketsCoverMonths | js/charts.js:10-17 | a bucket exists for a month iff some record falls in that month |
| MonthlyCounts.MonthlyBucketsSumCounts | js/charts.js:10-17 | after sorting, each bucket still holds its month's sum, and the buckets conserve the total count |
| MonthlyCounts.TrailingYearMean | js/charts.js:19-27 | the trailing mean exists iff the index is at least 12, and then 12 times it is the sum of the twelve counts ending at the index |
| MonthlyCounts.TrailingYearAverages | js/charts.js:19-28 | same length and periods as the buckets; `None` (null) at every index below 12; from 12 on, the sum of the twelve counts ending at i divided by 12 |
| MonthlyCounts.MonthlySeries | js/charts.js:10-28 | the drawn counts are the sorted buckets and the rolling line is their trailing-year mean, point by point |
| MonthlyCounts.TrailingYearMeanBounds | js/charts.js:19-27 | when every count in the window lies in [lo, hi], so does the average |
| MonthlyCounts.TrailingYearMeanSlides | js/charts.js:22-26 | consecutive averages differ by (entering count - leaving count) / 12 |
| Grouping.GroupBy | js/charts.js:259 | `d3.groups`: the group keys are the distinct keys in order of first appearance, each group holds exactly the elements with its key in input order, and no group is empty |
| Grouping.GroupByConservesSum | js/charts.js:10-11 | grouping loses and invents no record: the group sums add up to the total |
| DailyCounts.DropLeapDaysSpec | js/charts.js:242-257 | `DropLeapDays`, the parser's filter: no February 29 row survives parsing; every other row is kept, unchanged, as often as it occurs |
| DailyCounts.NoLeapDayInBuckets | js/charts.js:254-259 | no February 29 row reaches any day group of any year |
| DailyCounts.TrailingWeekMean | js/charts.js:262-276 | the mean times the number of list positions in the window max(0, i-6)..i is the sum of the day totals there |
| DailyCounts.RollingDays | js/charts.js:261-278 | one point per day group, in list order, carrying the group's day-of-year and its trailing-week mean |
| DailyCounts.WindowAverage | js/charts.js:262-277 | the window loop over offsets -6..0, skipping positions outside the list, yields the sum of the day totals at max(0, i-6)..i divided by the number of positions visited |
| DailyCounts.SevenDayAverages | js/charts.js:262-278 | one point per day group with its key and trailing-week mean |
| DailyCounts.YearLines | js/charts.js:259-279 | each year gets its own line, computed from that year's day list |
| DailyCounts.DailyRolling | js/charts.js:254-279 | the whole daily pipeline equals `DailySeries` of the rows |
| DailyCounts.DailySeries | js/charts.js:259-279 | one line per year group |
| DailyCounts.YearLinesAreIsolated | js/charts.js:259-278 | `YearLine` of each group of `YearGroups`: a year's line equals the line of that year's rows alone, so no window borrows another year's days |
| DailyCounts.DailySeriesShape | js/charts.js:259-279 | `YearGroups` (rows by year) and `DayGroups` (a year's rows by day): the lines are the distinct years in order of first appearance, each with one point per distinct day of that year |
| DailyCounts.TrailingWeekMeanFirst | js/charts.js:262-277 | the first point of each year is that day's own total |
| DailyCounts.TrailingWeekDivisor | js/charts.js:265-276 | the divisor is min(i+1, 7), always between 1 and 7, and divisor times average is the window sum |
| DailyCounts.TrailingWeekMeanBounds | js/charts.js:262-277 | when every day total in the window lies in [lo, hi], so does the average |
| DailyCounts.DailyTotalsConserved | js/charts.js:259-269 | the day totals of all years add up to the sum of the kept rows' counts |
| Layout.Split | js/charts.js:66 | the split yields at least one part and no part contains the separator |
| Layout.SplitThenJoin | js/charts.js:66 | joining the parts of a split with the separator gives back the string |
| Layout.JoinThenSplit | js/charts.js:114 | splitting a join of separator-free parts gives back the parts |
| Layout.SplitAfterPlainPrefix | js/charts.js:114 | a separator-free prefix only extends the first part |
| Layout.Field | js/charts.js:122 | `split("-")[i]` exists iff i is below the number of parts, and contains no '-' |
| Layout.LegendX | js/charts.js:113-120 | the legend's x is 20, width/2 or width less the chart's right inset (200, or 210 for the daily chart) |
| Layout.LegendY | js/charts.js:121-128 | the legend's y is 0, half the plot height or 180 |
| Layout.LegendFromKeywords | js/charts.js:113-128 | for "h-v": left, center and right give 20, width/2 and width-inset, anything else 20; top, center and bottom give 0, height/2 and 180, anything else 180 |
| Layout.LegendWithoutDash | js/charts.js:121-127 | a legend-position without '-' has no vertical keyword, so the legend sits at y = 180 |
| Layout.DailyLegendInsidePlot | js/charts.js:327-342 | in the daily chart, once the plot is at least 420 px wide, the 210x52 legend box lies inside the plot for every position string, and "right" puts it flush with the right edge |
| Layout.LegendOverhangsRightEdge | js/charts.js:725-754 | in the other charts (plot at least 420 px wide) the box ends at most 10 px past the right edge, exactly 10 px past iff "right", and always fits vertically |
| Layout.CaptionTop | js/charts.js:66 | the first caption row is 210 iff the second `text-position` keyword is "bottom", else 10 |
| Layout.CaptionAnchor | js/charts.js:79 | the caption anchor is the first `text-position` keyword |
| Layout.CaptionFromKeywords | js/charts.js:66 | for "h-v" with dash-free keywords: the first caption row is 210 iff v is "bottom", else 10, and the anchor is h |
| Layout.Midpoint | js/charts.js:77 | the area caption x is equidistant from both band edges and between them |
| Layout.RemarkMarks | js/charts.js:64-110 | a remark draws three marks iff its kind is "area" or "line", else none; the second and third are the upper caption (12 px) and the lower caption (10 px), both anchored by the first `text-position` keyword |
| Layout.RemarkMarksShape | js/charts.js:64-110 | an "area" or "line" remark draws exactly three marks and any other kind none; the captions carry the upper/lower text at sizes 12/10, the second 15 px below the first and at the same x; an area caption sits at the band's middle, a line caption 5 px right of the rule (10 px in the daily change view) |
| Layout.AreaCaptionOverBand | js/charts.js:68-82 | with an order-preserving scale, the band has non-negative width and its captions lie over it |
| Layout.DailyChangeIsShiftedChartGroup | js/charts.js:474-513 | the daily change view draws the chart-group marks moved by (40, 20), except line captions, moved by (45, 20), and area captions, moved by (40, 30) |
| Layout.AllRemarkMarksCount | js/charts.js:65-110 | `AllRemarkMarks`, the marks of a list of remarks in order: three per remark of a known kind |
| Layout.VisibleRemarksSpec | js/charts.js:472-473 | `VisibleRemarks`, the daily chart's year filter: a remark is drawn on a year change iff its `years` list contains the highlighted year; each occurrence is kept, in order; the filter distributes over concatenation |
| Layout.AllRemarksShownForListedYear | js/charts.js:473 | when every remark lists the highlighted year, all are drawn |
| Layout.LoadStyle | js/charts.js:385-399 | at load the highlighted year's line is crimson, 2 px and sharp, and every other line grey, 1 px and blurred |
| Layout.ChangeStyle | js/charts.js:449-459 | on a year change the highlighted year's line becomes crimson, 2 px and sharp, and every other line grey, 1 px and blurred |
| Layout.HighlightStyles | js/charts.js:451-459 | load and change style a line identically; the highlighted year is crimson, 2 px and sharp, every other year grey, 1 px and blurred (both directions) |
| Layout.Raise | js/charts.js:446-448 | `raise()` keeps exactly the years that were drawn |
| Layout.RaisePermutes | js/charts.js:446-448 | `raise()` reorders the lines without adding or losing any |
| Layout.RaisePutsHighlightedOnTop | js/charts.js:446-448 | after `raise()` the highlighted line, when present, is the last one (drawn on top) |
| Layout.RaiseKeepsOtherOrder | js/charts.js:446-448 | `raise()` keeps the other years' lines in their relative order |
| Layout.RaiseKeepsHighlightedOrder | js/charts.js:446-448 | `raise()` keeps the highlighted year's lines in their relative order |
| Layout.RaiseIdempotent | js/charts.js:446-448 | raising twice is raising once |
| TypeBreakdown.Total | js/charts.js:542 | with no negative count, no row's count exceeds the total |
| TypeBreakdown.Share | js/charts.js:582 | a share exists iff the total is non-zero, and share times total equals count times 100 |
| TypeBreakdown.ShareSumScalesSum | js/charts.js:582 | the shares add up to (sum of counts) / total * 100 |
| TypeBreakdown.SharesSumToHundred | js/charts.js:542 | with the total as computed, the shares add up to exactly 100 |
| TypeBreakdown.ShareBounds | js/charts.js:582 | with non-negative counts every share lies in [0, 100] |
| TypeBreakdown.LabelFor | js/charts.js:579-583 | a label is white iff its count is above 900000; otherwise it is at least 3 px from the axis and at least 10 px right of its bar's end |
| TypeBreakdown.LabelPlacement | js/charts.js:579-583 | a label is white at x = 10 iff its count is above 900000; otherwise it is dark at max(3, x(count)+10) |
| TypeBreakdown.OutsideLabelsOrdered | js/charts.js:579 | with an order-preserving scale, outside labels keep the order of the counts |
| PredictiveChart.Extent | js/charts.js:651 | `d3.extent` is defined iff there are periods; it is an ordered pair of periods that bounds all of them |
| PredictiveChart.DomainRecords | js/charts.js:646 | the records kept for a domain are at most all of them and exactly those with lo <= period <= hi |
| PredictiveChart.DomainRecordsSpec | js/charts.js:647 | the domain filter keeps exactly the records with lo <= period <= hi, each as often as it occurs, in order |
| PredictiveChart.DomainExtentWithin | js/charts.js:819-820 | `DomainExtent`, the extent of the in-domain periods: the x domain is undefined iff no record is in the domain; otherwise it lies within [lo, hi] |
| PredictiveChart.DomainExtentExact | js/charts.js:819-820 | when records exist at both ends of the domain, the x domain is exactly the domain |
| PredictiveChart.Flatten | js/charts.js:886-890 | the flattened copy (`Zeroed` applied to each record) has one record per record, with the same period and both counts 0 |
| PredictiveChart.FlattenSpec | js/charts.js:886-890 | the flattened copy has the same length and periods with both counts 0; it is idempotent and is the identity iff all counts are already 0 |
| PredictiveChart.FixedRemarkIsLineRemark | js/charts.js:831-850 | `FixedRemarkMarks`, the marks drawn by hand: the hand-drawn remark is the generic "line" remark at 2021-06-01 with a "start" anchor on the top row, every mark moved 10 px right, because it is drawn under translate(50, 0) while settings remarks are drawn under translate(40, 0) |
| PredictiveChart.StartTopKeywords | js/charts.js:844 | "start-top" reads as the keywords "start" and "top" |
| PredictiveChart.DomainRemarks | js/charts.js:829-830 | after a domain change there is one remark, the fixed one, iff the domain ends at 2022-12-01, and none otherwise |
| PredictiveChart.DomainRemarksDrawing | js/charts.js:829-854 | after a domain change the remark marks, each moved 10 px right, are the hand-drawn ones iff the domain ends at 2022-12-01, and there are none otherwise |
| PredictiveChart.Chart.constructor | js/charts.js:599-607 | the object starts unloaded, with no data, settings, container, domain, remarks or legend |
| PredictiveChart.Chart.Load | js/charts.js:609-620 | settings and container are stored at once; a failed fetch changes nothing else; a successful one draws the chart |
| PredictiveChart.Chart.Draw | js/charts.js:613-780 | data and both lines hold the records; the width is clientWidth - 90; the x domain is the extent of the in-domain records; the y domain is [0, 1350]; with settings, the known-kind remarks (`LoadedRemarks`) and the legend corner (`LoadedLegend`) are drawn |
| PredictiveChart.Chart.ChangeDomain | js/charts.js:817-883 | the x domain becomes the extent of the records in the new domain; the remarks become the fixed remark iff the domain ends at 2022-12-01; the lines are redrawn from the data; everything else is unchanged |
| PredictiveChart.Chart.ChangeDataset | js/charts.js:885-954 | the lines are first bound to the flattened copy of the old data; a successful fetch replaces the data and rebinds the lines; a failed one leaves the data and the flattened lines; the domains, remarks and legend are unchanged |

## Left out

- D3 scales, axes, line generators and curves are not modelled. A scale is a function parameter, and the y scale's range is not modelled.
- SVG and DOM construction, opacity transitions, delays, easing, `getTotalLength` and the clip-path rectangle update in `change_chart_domain` are not modelled, since they are rendering only.
- The `unload_*` functions are not modelled: they only fade out and remove SVG elements.
- CSV fetching and parsing are replaced by their results. A fetch is an `Option` parameter, where `None` stands for a failed request. The `catch`/`console.log` paths are left out.
- Non-numeric counts (`+d.count` giving NaN) are not modelled: counts are integers.
- JavaScript `Date` parsing, time zones and `dayOfYearToDate` are not modelled.
  - Year-month, year, day-of-year and period keys are given as integers.
  - Predictive periods are milliseconds since the epoch at UTC midnight: 2021-06-01 is 1622505600000 and 2022-12-01 is 1669852800000.
- `toFixed(1)` formatting is not modelled, and neither are the label and legend text strings apart from the fixed remark's captions.
- Counts and sums are unbounded integers rather than IEEE doubles. The sums stay far below 2^53.
- The asynchronous interleaving of the fetch callbacks with later calls is not modelled. `ChangeDataset` takes its fetch result as a parameter. A call to `ChangeDataset` or `ChangeDomain` made before `load`'s callback has run is excluded by `requires loaded`. In the source `this.data` is still null then, so `this.data.map` (js/charts.js:886) or `this.data.filter` (js/charts.js:819) throws a TypeError.
- Settings are assumed well-formed: `remarks` and `legend-position` are present, and every remark has `text-position` (and, in the daily chart, `years`). In the source a missing key throws a TypeError (for example `remark["text-position"].split` at js/charts.js:66, 474 and 672, or `remark["years"].includes` at js/charts.js:473). That throw ends the `forEach` at that remark, so the remarks after it are not drawn, and neither is the legend that the monthly and predictive charts draw after their remarks, nor, in the monthly chart, the count and rolling-average lines (js/charts.js:172-215). In the predictive chart's load callback it lands in the `catch`, leaving the chart half drawn: the data, the scales and the axes are set, but the lines are not. `Chart.Draw` models only the well-formed case, in which the whole state is set at once.
- The predictive chart's own drawing offsets are not modelled. Its settings remarks carry translate(40, 0) on the bare svg, and its marks are given in that frame (`View.ChartGroup`). The fixed remark's translate(50, 0) appears in the model as a 10 px shift of all its marks. The vertical offset of the plot group (translate(40, 20)) is not applied to remarks: the source does not apply it either.
- The daily chart draws settings remarks only on a year change (`change_accident_counts_by_days`), not at load. The model follows this.
- `js/tooltip.js`, the police-penalties chart (`js/charts.js:961-1090`) and the Python scripts under `aux-calculations/` are not part of this model.
- MonthlyCounts.TrailingYearAverages: index 11 is `None` although its 12-bucket window is full, because the source tests `i < 12`. This is modelled as written. The consequence is that the line starts one month later than it could.
- PredictiveChart.Chart.Draw: `d3.max` of the counts is computed for the y domain but immediately overridden by [0, 1350], so the model keeps only the override.

# Dashboard analytics of etl-ui, modelled in Dafny

This project models the client-side analytics of the financial dashboard:

- the metrics engine `calculateDashboardMetrics` and the trend-series builder
  `prepareTrendData` (`src/utils/dashboardMetrics.ts`);
- the rule-based insight generator `getFinancialInsights`;
- the insight panel's text-based severity classifier and its two
  highlight chips (`src/components/InsightsPanel.tsx`);
- the profit-and-loss row (`src/components/ProfitLossTableRow.tsx`). Its
  parts are the grouping of line items by category, the group totals and
  colours, the zero-value display filter with its "No transactions recorded"
  placeholder, and the margin chip.

Modules, one per concern:

- `Types`: the `Account`, `LineItem` and `Report` records, with money as
  exact `real` and `periodStart` as an integer key.
- `Folds`: the `reduce`-into-a-sum and `filter` combinators.
- `PeriodSort`: the stable sort by `periodStart`, as an insertion sort.
- `DashboardMetrics`: the metrics snapshot and the trend series.
- `FinancialInsights`: the insight rules, as a method that pushes sentences
  and the tier function that specifies it.
- `InsightsPanel`: the substring classifier and the chips.
- `ProfitLossTableRow`: the grouping reduce, as a method with a loop over a
  map plus an insertion-order sequence, and the row's pure rules.

Every operation is tied to an independent description and proved against it:

- The valid reports are exactly the non-degenerate inputs, sorted and stable.
- Totals and the average margin over the valid reports equal those over all
  reports.
- The best and worst month are the earliest maximum and minimum.
- Growth vanishes for at most three valid reports.
- The insight list has three or four entries, in a fixed category order.
- Each generated sentence is coloured by the severity of its rule tier.
- The groups partition the line items in first-seen category order, and
  their totals add up to the sum of all items.

The panel infers an insight's severity by substring matching on the
generated text, and the model does the same. The
lemma `InsightsPanel.InsightSeverityFollowsTier` proves that for the twelve
sentences the generator can emit, the text-based colour is exactly the
tier's intended severity.

## Model

| member | source | states |
|---|---|---|
| Folds.FilterMultiset | src/utils/dashboardMetrics.ts:38-39 | `filter` keeps every element satisfying the predicate exactly as often as it occurs and drops every other element |
| PeriodSort.SortByPeriod | src/utils/dashboardMetrics.ts:40 | the sort returns a permutation of its input (same length, same multiset) |
| PeriodSort.SortIsSorted | src/utils/dashboardMetrics.ts:40 | the sorted reports are in ascending `periodStart` order |
| PeriodSort.SortIsStable | src/utils/dashboardMetrics.ts:40 | reports of the same period keep their input order |
| PeriodSort.SortSum | src/utils/dashboardMetrics.ts:42-43 | sorting does not change any column sum |
| DashboardMetrics.ValidReportsSpec | src/utils/dashboardMetrics.ts:37-40 | the valid reports are exactly the inputs with non-zero gross or net, with their multiplicities, sorted by period and stable within a period |
| DashboardMetrics.ValidReportsMembership | src/utils/dashboardMetrics.ts:38-39 | a report is among the valid reports iff it is an input with non-zero gross or net |
| DashboardMetrics.NoValidReportsIffAllDegenerate | src/utils/dashboardMetrics.ts:38-39 | no valid report is left iff every input has zero gross and zero net |
| DashboardMetrics.EmptyInputGivesZeroSnapshot | src/utils/dashboardMetrics.ts:23-35 | an empty input gives the all-zero snapshot with no best or worst month |
| DashboardMetrics.ThrowsExactlyWhenAllDegenerate | src/utils/dashboardMetrics.ts:53-58 | as written, the computation throws iff the input is non-empty and every report is degenerate |
| DashboardMetrics.SingleDegenerateReportThrows | src/utils/dashboardMetrics.ts:53-55 | one report with zero gross and zero net makes the source throw; the corrected version returns the zero snapshot |
| DashboardMetrics.GuardedAgreesWhenNoThrow | src/utils/dashboardMetrics.ts:22-94 | the corrected metrics equal the source's result whenever the source does not throw, and differ only by returning the zero snapshot |
| DashboardMetrics.TotalsOverAllReports | src/utils/dashboardMetrics.ts:42-44 | total revenue and total profit are the gross and net sums over all inputs; the profitable-month count is the number of inputs with net > 0; it never exceeds the month count, which counts the valid reports |
| DashboardMetrics.AverageMarginOverAllReports | src/utils/dashboardMetrics.ts:46-50 | filtering and sorting do not change the mean margin over reports with positive gross |
| DashboardMetrics.MetricsAverageMargin | src/utils/dashboardMetrics.ts:46-50 | the snapshot's average margin is the mean of net/gross×100 over every input with gross > 0, or 0 when there is none |
| DashboardMetrics.AverageMarginIgnoresNonPositiveGross | src/utils/dashboardMetrics.ts:47-50 | inserting a report with gross ≤ 0 anywhere in the input never changes the average margin |
| DashboardMetrics.BestIndex | src/utils/dashboardMetrics.ts:53-55 | the seedless reduce with a strict `>` lands on a maximum of net profit that is strictly larger than every earlier entry |
| DashboardMetrics.WorstIndex | src/utils/dashboardMetrics.ts:56-58 | the seedless reduce with a strict `<` lands on a minimum of net profit that is strictly smaller than every earlier entry |
| DashboardMetrics.BestIndexEarliest | src/utils/dashboardMetrics.ts:53-55 | in period order, the chosen maximum has the earliest period among all maxima |
| DashboardMetrics.WorstIndexEarliest | src/utils/dashboardMetrics.ts:56-58 | in period order, the chosen minimum has the earliest period among all minima |
| DashboardMetrics.BestMonthIsEarliestMaximum | src/utils/dashboardMetrics.ts:53-55 | the best month is a valid input with maximal net profit and the earliest period among such inputs |
| DashboardMetrics.WorstMonthIsEarliestMinimum | src/utils/dashboardMetrics.ts:56-58 | the worst month is a valid input with minimal net profit and the earliest period among such inputs |
| DashboardMetrics.GrowthVanishesForShortHistory | src/utils/dashboardMetrics.ts:61-81 | with at most three reports both cohorts are the whole list, so growth is 0 |
| DashboardMetrics.GrowthSign | src/utils/dashboardMetrics.ts:74-80 | with a positive first-cohort mean, growth is positive, zero or negative as the last cohort's mean is above, equal to or below it; without one, growth is 0 |
| DashboardMetrics.MetricsGrowthShortHistory | src/utils/dashboardMetrics.ts:60-81 | with at most three valid reports both revenue and profit growth are 0 |
| DashboardMetrics.TrendSeries | src/utils/dashboardMetrics.ts:100-110 | one point per report, in order, each carrying that report's label, gross, net and margin |
| DashboardMetrics.TrendSeriesSums | src/utils/dashboardMetrics.ts:105-106 | the gross and net columns of the series sum to the reports' gross and net totals |
| DashboardMetrics.TrendMatchesMetrics | src/utils/dashboardMetrics.ts:96-111 | the trend has as many points as the metrics have months, in the same order, with matching sums; each margin is net/gross×100 when gross > 0 and 0 otherwise; no point is a zero period |
| FinancialInsights.Texts | src/utils/dashboardMetrics.ts:113-148 | the pushed sentences correspond one to one, in order, to the selected tiers |
| FinancialInsights.GetFinancialInsights | src/utils/dashboardMetrics.ts:113-149 | the method pushes exactly the sentences of the tiers chosen by the four threshold chains, in chain order |
| FinancialInsights.InsightShape | src/utils/dashboardMetrics.ts:113-148 | 4 insights when the average margin is positive and 3 otherwise; the order is profitability, margin, revenue growth, profit growth; a margin insight appears iff the average margin is positive |
| FinancialInsights.ProfitabilityThresholdsAreStrict | src/utils/dashboardMetrics.ts:116-122 | a profitable ratio of exactly 0.8 gives "Good" and one of exactly 0.6 gives "needs improvement" |
| FinancialInsights.NoMonthsNeedsImprovement | src/utils/dashboardMetrics.ts:116-122 | with no months, the 0/0 ratio fails both thresholds, giving "Profitability needs improvement" |
| FinancialInsights.NoDataInsights | src/utils/dashboardMetrics.ts:113-149 | for the corrected metrics, an input without valid reports yields exactly: needs improvement, revenue growth needs attention, profit growth requires focus; with the metrics as written this holds for the empty input only, since a non-empty all-degenerate input throws before any insight exists |
| FinancialInsights.ShortHistoryGrowthInsights | src/utils/dashboardMetrics.ts:132-146 | with at most three valid reports the last two insights are "needs attention" and "requires focus" |
| InsightsPanel.IconAgreesWithColor | src/components/InsightsPanel.tsx:16-34 | the icon and the colour of an insight follow the same ordered tests, so the icon is always drawn in the insight's colour |
| InsightsPanel.InsightSeverityFollowsTier | src/components/InsightsPanel.tsx:29-33 | for every rule tier, the ordered substring test colours the tier's sentence with that tier's severity |
| InsightsPanel.SeverityOfStrongProfitability | src/components/InsightsPanel.tsx:30 | "Strong profitability…" contains "Strong" and is success |
| InsightsPanel.SeverityOfGoodProfitability | src/components/InsightsPanel.tsx:29-33 | "Good profitability…" contains none of the six words and is info |
| InsightsPanel.SeverityOfProfitabilityNeedsImprovement | src/components/InsightsPanel.tsx:31 | "Profitability needs improvement" contains "needs" but no success word, and is error |
| InsightsPanel.SeverityOfExcellentMargin | src/components/InsightsPanel.tsx:30 | "Excellent profit margins…" is success |
| InsightsPanel.SeverityOfHealthyMargin | src/components/InsightsPanel.tsx:29-33 | "Healthy profit margins above 10%" contains none of the six words and is info |
| InsightsPanel.SeverityOfMarginCouldBeImproved | src/components/InsightsPanel.tsx:32 | "Profit margins could be improved" contains "could be", no success or error word, and is warning |
| InsightsPanel.SeverityOfStrongRevenueGrowth | src/components/InsightsPanel.tsx:30 | "Strong revenue growth trend" is success |
| InsightsPanel.SeverityOfPositiveRevenueGrowth | src/components/InsightsPanel.tsx:29-33 | "Positive revenue growth" contains none of the six words and is info |
| InsightsPanel.SeverityOfRevenueGrowthNeedsAttention | src/components/InsightsPanel.tsx:31 | "Revenue growth needs attention" is error |
| InsightsPanel.SeverityOfExcellentProfitGrowth | src/components/InsightsPanel.tsx:30 | "Excellent profit growth trajectory" is success |
| InsightsPanel.SeverityOfPositiveProfitGrowth | src/components/InsightsPanel.tsx:29-33 | "Positive profit growth" contains none of the six words and is info |
| InsightsPanel.SeverityOfProfitGrowthRequiresFocus | src/components/InsightsPanel.tsx:31 | "Profit growth requires focus" contains "requires" but no success word, and is error |
| InsightsPanel.GeneratedInsightsFollowTiers | src/components/InsightsPanel.tsx:29-33 | every sentence the generator emits for any metrics is coloured by the severity of its tier |
| InsightsPanel.NeedsAttentionIsError | src/components/InsightsPanel.tsx:31-32 | "Revenue growth needs attention" contains the warning word "attention" but is error, because "needs" is tested first |
| InsightsPanel.ProfitableChipAgreesWithInsight | src/components/InsightsPanel.tsx:54 | a "Strong" profitability insight comes with a success chip, and "needs improvement" with a warning chip |
| InsightsPanel.MarginChipAgreesWithInsight | src/components/InsightsPanel.tsx:60 | an "Excellent" margin insight implies a success chip; a success chip implies an "Excellent" or "Healthy" insight; no margin insight implies an error chip |
| ProfitLossTableRow.GroupLineItems | src/components/ProfitLossTableRow.tsx:35-42 | the reduce yields the categories in first-seen order as keys, and each key's group is exactly that category's items in input order |
| ProfitLossTableRow.CategoriesComplete | src/components/ProfitLossTableRow.tsx:35-42 | a category gets a group iff some item carries it; a category without a group has no items |
| ProfitLossTableRow.CategoriesDistinct | src/components/ProfitLossTableRow.tsx:37-39 | each category is keyed once |
| ProfitLossTableRow.CategoriesOfPrefix | src/components/ProfitLossTableRow.tsx:158 | the categories of any prefix of the items are a prefix of all categories, which is first-seen order |
| ProfitLossTableRow.GroupsPartitionItems | src/components/ProfitLossTableRow.tsx:35-42 | each item occurs in its own category's group exactly as often as in the input and in no other group, and its category is keyed |
| ProfitLossTableRow.GroupTotalsAddUp | src/components/ProfitLossTableRow.tsx:44-46 | the category totals, summed over all groups, equal the sum of all line-item values |
| ProfitLossTableRow.DisplayedItemsSpec | src/components/ProfitLossTableRow.tsx:184-186 | the display filter keeps exactly the non-zero items, each as often as it occurs, and does not change the group total |
| ProfitLossTableRow.NoTransactionsIffAllZero | src/components/ProfitLossTableRow.tsx:184-220 | the "No transactions recorded" row is shown iff every item of the group is zero, including for an empty group |
| ProfitLossTableRow.DisplayedAmountColors | src/components/ProfitLossTableRow.tsx:205 | a displayed amount is red iff it is negative, since zero amounts are never displayed |
| ProfitLossTableRow.CategoryColorCases | src/components/ProfitLossTableRow.tsx:48-61 | exactly the four named categories get a colour other than default, each a different one; "Other Income" and differently capitalised names are default |
| ProfitLossTableRow.MarginLabelMatchesTrend | src/components/ProfitLossTableRow.tsx:63-65 | the margin is shown iff gross > 0, and then equals the trend margin; "N/A" is where the trend plots 0; a shown margin is green iff it is positive |

## Left out

- String-to-number parsing (`parseFloat`) and date parsing of `periodStart`. Values are exact reals and periods are integer keys. `Date` formatting of the trend label (`toLocaleDateString`) is a function parameter of `PrepareTrendData`.
- IEEE floating point: rounding, and `NaN`/`Infinity` beyond the one place they decide a branch. That place is the division by `totalMonths` in the profitability rules and the profitable-months chip (`RatioAbove`).
- Display formatting: `toFixed`, `formatCurrency`, `formatPeriod`, the chip labels, and the lower-cased category in the placeholder text.
- The `!reports` null check: a sequence is never null.
- Data fetching, loading and error states, and the expand/collapse state of the row. These are React hooks and rendering, outside the computation.
- `Object.entries` puts integer-like keys first in ascending order. The model keeps insertion order for every key, as holds for category names that are not canonical array indices.
- Category names that are inherited object properties (such as `constructor`, `toString` or `__proto__`): there `acc[category]` is already truthy, so the reduce skips creating the array and calls `push` on a value that has none, and the source throws a TypeError. The model's `GroupLineItems` treats every category as a fresh key and groups such items normally.
- `Report.lineItems` is not a field of the model's report. The line items of a report are passed to the grouping directly.
- The payload ingestion and normalisation described for the wider system is not part of this model.

## Findings

| source | as written | input that shows it | evidently intended | confidence | as-written member | corrected member |
|---|---|---|---|---|---|---|
| src/utils/dashboardMetrics.ts:53-58 | the empty-input guard tests the raw input, but the seedless `reduce` for best and worst month runs on the filtered list, which throws a TypeError when it is empty | one report with gross 0 and net 0 | return the zero snapshot whenever no valid report is left, as the empty-input branch does | not executed; latent in the exported function only: the dashboard page (src/pages/DashboardPage.tsx:28-43) drops degenerate reports and returns early when none are left, so the throw is unreachable from the page | DashboardMetrics.SingleDegenerateReportThrows | DashboardMetrics.GuardedAgreesWhenNoThrow |

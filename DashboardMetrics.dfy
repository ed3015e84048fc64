/** The metrics engine and trend series builder of the dashboard
    (src/utils/dashboardMetrics.ts): `calculateDashboardMetrics` and
    `prepareTrendData`. */
module DashboardMetrics {
  import opened Types
  import opened Folds
  import opened PeriodSort

  /** The `DashboardMetrics` record. */
  datatype Metrics = Metrics(
    totalRevenue: real,
    totalProfit: real,
    averageMargin: real,
    profitableMonths: nat,
    totalMonths: nat,
    bestMonth: Option<Report>,
    worstMonth: Option<Report>,
    revenueGrowth: real,
    profitGrowth: real)

  /** The `TypeError` that a `reduce` without a seed throws on an empty array. */
  datatype MetricsError = ReduceOfEmptyArray

  /** The `TrendData` record; `period` is the month/year label of `periodStart`. */
  datatype TrendData = TrendData(period: string, grossProfit: real, netProfit: real, margin: real)

  /** A "no data" period: zero gross and zero net profit. */
  predicate IsDegenerate(r: Report) { r.grossProfit == 0.0 && r.netProfit == 0.0 }

  predicate IsValid(r: Report) { r.grossProfit != 0.0 || r.netProfit != 0.0 }

  predicate IsProfitable(r: Report) { r.netProfit > 0.0 }

  predicate HasPositiveGross(r: Report) { r.grossProfit > 0.0 }

  /** The margin in percent of one report; reports without positive gross
      profit have none and count as 0. */
  function Margin(r: Report): real
  {
    if r.grossProfit > 0.0 then (r.netProfit / r.grossProfit) * 100.0 else 0.0
  }

  /** The non-degenerate reports, oldest period first. */
  function ValidReports(reports: seq<Report>): seq<Report>
  {
    SortByPeriod(Filter(reports, IsValid))
  }

  /** The mean margin over the reports with positive gross profit, 0 if there are none. */
  function AverageMargin(v: seq<Report>): real
  {
    var margins := Filter(v, HasPositiveGross);
    if |margins| > 0 then SumOf(margins, Margin) / (|margins| as real) else 0.0
  }

  /** The index that `v[..n].reduce((best, cur) => cur.net > best.net ? cur : best)` lands on. */
  function BestIndex(v: seq<Report>, n: nat): (i: nat)
    requires 0 < n <= |v|
    ensures i < n
    ensures forall j :: 0 <= j < n ==> v[j].netProfit <= v[i].netProfit
    ensures forall j :: 0 <= j < i ==> v[j].netProfit < v[i].netProfit
  {
    if n == 1 then 0
    else
      var best := BestIndex(v, n - 1);
      if v[n - 1].netProfit > v[best].netProfit then n - 1 else best
  }

  /** The index that `v[..n].reduce((worst, cur) => cur.net < worst.net ? cur : worst)` lands on. */
  function WorstIndex(v: seq<Report>, n: nat): (i: nat)
    requires 0 < n <= |v|
    ensures i < n
    ensures forall j :: 0 <= j < n ==> v[i].netProfit <= v[j].netProfit
    ensures forall j :: 0 <= j < i ==> v[i].netProfit < v[j].netProfit
  {
    if n == 1 then 0
    else
      var worst := WorstIndex(v, n - 1);
      if v[n - 1].netProfit < v[worst].netProfit then n - 1 else worst
  }

  function CohortSize(n: nat): nat { if n < 3 then n else 3 }

  /** `v.slice(0, 3)` */
  function FirstCohort(v: seq<Report>): seq<Report> { v[..CohortSize(|v|)] }

  /** `v.slice(-3)` */
  function LastCohort(v: seq<Report>): seq<Report> { v[|v| - CohortSize(|v|)..] }

  function Mean(s: seq<Report>, f: Report -> real): real
    requires |s| > 0
  {
    SumOf(s, f) / (|s| as real)
  }

  /** Percentage change of the mean of column `f` from the first cohort to the last. */
  function Growth(v: seq<Report>, f: Report -> real): real
  {
    if |v| >= 2 then
      var first := Mean(FirstCohort(v), f);
      var last := Mean(LastCohort(v), f);
      if first > 0.0 then ((last - first) / first) * 100.0 else 0.0
    else 0.0
  }

  const EmptyMetrics := Metrics(0.0, 0.0, 0.0, 0, 0, None, None, 0.0, 0.0)

  /** The snapshot over a non-empty list of valid, sorted reports. */
  function Snapshot(v: seq<Report>): Metrics
    requires |v| > 0
  {
    Metrics(
      totalRevenue := SumOf(v, Gross),
      totalProfit := SumOf(v, Net),
      averageMargin := AverageMargin(v),
      profitableMonths := |Filter(v, IsProfitable)|,
      totalMonths := |v|,
      bestMonth := Some(v[BestIndex(v, |v|)]),
      worstMonth := Some(v[WorstIndex(v, |v|)]),
      revenueGrowth := Growth(v, Gross),
      profitGrowth := Growth(v, Net))
  }

  /** `calculateDashboardMetrics` as written: an empty input gives the zero
      snapshot, but a non-empty input without valid reports reaches the
      seedless `reduce` calls on an empty array, which throw. */
  function CalculateDashboardMetrics(reports: seq<Report>): Result<Metrics, MetricsError>
  {
    if |reports| == 0 then Ok(EmptyMetrics)
    else
      var v := ValidReports(reports);
      if |v| == 0 then Err(ReduceOfEmptyArray) else Ok(Snapshot(v))
  }

  /** `calculateDashboardMetrics` with the zero snapshot returned whenever no
      valid report is left, as the empty-input branch intends. */
  function CalculateDashboardMetricsGuarded(reports: seq<Report>): Metrics
  {
    var v := ValidReports(reports);
    if |v| == 0 then EmptyMetrics else Snapshot(v)
  }

  function TrendPoint(r: Report, periodLabel: int -> string): (p: TrendData)
  {
    TrendData(periodLabel(r.periodStart), r.grossProfit, r.netProfit, Margin(r))
  }

  function TrendSeries(v: seq<Report>, periodLabel: int -> string): (t: seq<TrendData>)
    ensures |t| == |v|
    ensures forall i :: 0 <= i < |v| ==> t[i] == TrendPoint(v[i], periodLabel)
  {
    if v == [] then [] else [TrendPoint(v[0], periodLabel)] + TrendSeries(v[1..], periodLabel)
  }

  /** `prepareTrendData`; `periodLabel` stands for the month/year formatting of `periodStart`. */
  function PrepareTrendData(reports: seq<Report>, periodLabel: int -> string): seq<TrendData>
  {
    TrendSeries(ValidReports(reports), periodLabel)
  }

  function TrendGross(p: TrendData): real { p.grossProfit }

  function TrendNet(p: TrendData): real { p.netProfit }

  // ---------------------------------------------------------------------
  // Filtering and ordering

  /** The valid reports are exactly the non-degenerate inputs, with their
      multiplicities, in ascending period order, and reports of the same
      period keep their input order. */
  lemma ValidReportsSpec(reports: seq<Report>)
    ensures forall x :: multiset(ValidReports(reports))[x] == if IsValid(x) then multiset(reports)[x] else 0
    ensures forall i :: 0 <= i < |ValidReports(reports)| ==> IsValid(ValidReports(reports)[i])
    ensures Sorted(ValidReports(reports))
    ensures forall key :: SamePeriod(ValidReports(reports), key) == SamePeriod(Filter(reports, IsValid), key)
  {
    var v := ValidReports(reports);
    FilterMultiset(reports, IsValid);
    SortIsSorted(Filter(reports, IsValid));
    forall i | 0 <= i < |v| ensures IsValid(v[i]) {
      assert v[i] in multiset(v);
    }
    forall key ensures SamePeriod(v, key) == SamePeriod(Filter(reports, IsValid), key) {
      SortIsStable(Filter(reports, IsValid), key);
    }
  }

  /** No valid report is left exactly when every input is degenerate. */
  lemma NoValidReportsIffAllDegenerate(reports: seq<Report>)
    ensures |ValidReports(reports)| == 0 <==> forall i :: 0 <= i < |reports| ==> IsDegenerate(reports[i])
  {
    var v := ValidReports(reports);
    ValidReportsSpec(reports);
    if exists i :: 0 <= i < |reports| && !IsDegenerate(reports[i]) {
      var i :| 0 <= i < |reports| && !IsDegenerate(reports[i]);
      assert reports[i] in multiset(reports);
      assert reports[i] in multiset(v);
    } else {
      forall x ensures multiset(v)[x] == 0 {
        if IsValid(x) {
          assert forall i :: 0 <= i < |reports| ==> reports[i] != x;
        }
      }
      assert multiset(v) == multiset{};
    }
  }

  // ---------------------------------------------------------------------
  // calculateDashboardMetrics

  lemma EmptyInputGivesZeroSnapshot()
    ensures var m := CalculateDashboardMetrics([]);
      && m.Ok?
      && m.value.totalRevenue == 0.0 && m.value.totalProfit == 0.0 && m.value.averageMargin == 0.0
      && m.value.profitableMonths == 0 && m.value.totalMonths == 0
      && m.value.bestMonth == None && m.value.worstMonth == None
      && m.value.revenueGrowth == 0.0 && m.value.profitGrowth == 0.0
  {
  }

  /** As written, the metrics throw exactly when the input is non-empty and
      every report in it is degenerate. */
  lemma ThrowsExactlyWhenAllDegenerate(reports: seq<Report>)
    ensures CalculateDashboardMetrics(reports).Err?
        <==> |reports| > 0 && forall i :: 0 <= i < |reports| ==> IsDegenerate(reports[i])
  {
    NoValidReportsIffAllDegenerate(reports);
  }

  /** A concrete input on which the source throws instead of returning the zero snapshot. */
  lemma SingleDegenerateReportThrows(r: Report)
    requires IsDegenerate(r)
    ensures CalculateDashboardMetrics([r]) == Err(ReduceOfEmptyArray)
    ensures CalculateDashboardMetricsGuarded([r]) == EmptyMetrics
  {
    NoValidReportsIffAllDegenerate([r]);
  }

  /** The corrected metrics agree with the source wherever it does not throw. */
  lemma GuardedAgreesWhenNoThrow(reports: seq<Report>)
    ensures CalculateDashboardMetrics(reports).Ok?
        ==> CalculateDashboardMetricsGuarded(reports) == CalculateDashboardMetrics(reports).value
    ensures CalculateDashboardMetricsGuarded(reports).totalMonths == 0
        ==> CalculateDashboardMetricsGuarded(reports) == EmptyMetrics
  {
  }

  /** Totals and counts taken over the valid reports equal those over all
      reports: a degenerate report adds nothing to a sum and is never profitable. */
  lemma {:induction false} TotalsOverAllReports(reports: seq<Report>)
    ensures var m := CalculateDashboardMetricsGuarded(reports);
      && m.totalMonths == |Filter(reports, IsValid)|
      && m.totalRevenue == SumOf(reports, Gross)
      && m.totalProfit == SumOf(reports, Net)
      && m.profitableMonths == |Filter(reports, IsProfitable)|
      && m.profitableMonths <= m.totalMonths
  {
    var valid := Filter(reports, IsValid);
    var v := ValidReports(reports);
    ValidReportsSpec(reports);
    SortSum(valid, Gross);
    SortSum(valid, Net);
    SumFilterVanishing(reports, IsValid, Gross);
    SumFilterVanishing(reports, IsValid, Net);
    FilterCountByMultiset(v, reports, IsProfitable, IsProfitable);
  }

  /** The average margin of the valid reports equals that of all reports:
      filtering and sorting do not change it. */
  lemma {:induction false} AverageMarginOverAllReports(reports: seq<Report>)
    ensures AverageMargin(ValidReports(reports)) == AverageMargin(reports)
  {
    var valid := Filter(reports, IsValid);
    var v := ValidReports(reports);
    ValidReportsSpec(reports);
    SumFilterVanishing(v, HasPositiveGross, Margin);
    SortSum(valid, Margin);
    SumFilterVanishing(reports, IsValid, Margin);
    SumFilterVanishing(reports, HasPositiveGross, Margin);
    FilterCountByMultiset(v, reports, HasPositiveGross, HasPositiveGross);
  }

  /** The metrics' average margin is the mean margin over every input report
      with positive gross profit. */
  lemma MetricsAverageMargin(reports: seq<Report>)
    ensures CalculateDashboardMetricsGuarded(reports).averageMargin == AverageMargin(reports)
    ensures CalculateDashboardMetrics(reports).Ok?
        ==> CalculateDashboardMetrics(reports).value.averageMargin == AverageMargin(reports)
  {
    AverageMarginOverAllReports(reports);
  }

  /** Adding a report without positive gross profit anywhere in the input
      never changes the average margin. */
  lemma AverageMarginIgnoresNonPositiveGross(a: seq<Report>, x: Report, b: seq<Report>)
    requires x.grossProfit <= 0.0
    ensures CalculateDashboardMetricsGuarded(a + [x] + b).averageMargin
         == CalculateDashboardMetricsGuarded(a + b).averageMargin
  {
    MetricsAverageMargin(a + [x] + b);
    MetricsAverageMargin(a + b);
    FilterAppend(a + [x], b, HasPositiveGross);
    FilterAppend(a, [x], HasPositiveGross);
    FilterAppend(a, b, HasPositiveGross);
    assert Filter([x], HasPositiveGross) == [];
    assert Filter(a + [x] + b, HasPositiveGross) == Filter(a + b, HasPositiveGross);
  }

  /** In a sorted list, the first maximum has the earliest period among all maxima. */
  lemma BestIndexEarliest(v: seq<Report>)
    requires |v| > 0 && Sorted(v)
    ensures forall j :: 0 <= j < |v| && v[j].netProfit == v[BestIndex(v, |v|)].netProfit
                        ==> v[BestIndex(v, |v|)].periodStart <= v[j].periodStart
  {
    var k := BestIndex(v, |v|);
    forall j | 0 <= j < |v| && v[j].netProfit == v[k].netProfit
      ensures v[k].periodStart <= v[j].periodStart
    {
      assert !(j < k);
    }
  }

  /** In a sorted list, the first minimum has the earliest period among all minima. */
  lemma WorstIndexEarliest(v: seq<Report>)
    requires |v| > 0 && Sorted(v)
    ensures forall j :: 0 <= j < |v| && v[j].netProfit == v[WorstIndex(v, |v|)].netProfit
                        ==> v[WorstIndex(v, |v|)].periodStart <= v[j].periodStart
  {
    var k := WorstIndex(v, |v|);
    forall j | 0 <= j < |v| && v[j].netProfit == v[k].netProfit
      ensures v[k].periodStart <= v[j].periodStart
    {
      assert !(j < k);
    }
  }

  /** Each valid input report occurs among the valid reports, and each of
      those is a valid input report. */
  lemma ValidReportsMembership(reports: seq<Report>)
    ensures forall x :: x in ValidReports(reports) <==> x in reports && IsValid(x)
  {
    var v := ValidReports(reports);
    ValidReportsSpec(reports);
    forall x ensures x in v <==> x in reports && IsValid(x) {
      assert x in v <==> x in multiset(v);
      assert x in reports <==> x in multiset(reports);
    }
  }

  /** The best month is a valid input report with maximal net profit; among
      those it has the earliest period. */
  lemma BestMonthIsEarliestMaximum(reports: seq<Report>)
    requires CalculateDashboardMetricsGuarded(reports).totalMonths > 0
    ensures var best := CalculateDashboardMetricsGuarded(reports).bestMonth;
      && best.Some?
      && best.value in reports && IsValid(best.value)
      && (forall x :: x in reports && IsValid(x) ==> x.netProfit <= best.value.netProfit)
      && (forall x :: x in reports && IsValid(x) && x.netProfit == best.value.netProfit
            ==> best.value.periodStart <= x.periodStart)
  {
    var v := ValidReports(reports);
    ValidReportsSpec(reports);
    ValidReportsMembership(reports);
    BestIndexEarliest(v);
  }

  /** The worst month is a valid input report with minimal net profit; among
      those it has the earliest period. */
  lemma WorstMonthIsEarliestMinimum(reports: seq<Report>)
    requires CalculateDashboardMetricsGuarded(reports).totalMonths > 0
    ensures var worst := CalculateDashboardMetricsGuarded(reports).worstMonth;
      && worst.Some?
      && worst.value in reports && IsValid(worst.value)
      && (forall x :: x in reports && IsValid(x) ==> worst.value.netProfit <= x.netProfit)
      && (forall x :: x in reports && IsValid(x) && x.netProfit == worst.value.netProfit
            ==> worst.value.periodStart <= x.periodStart)
  {
    var v := ValidReports(reports);
    ValidReportsSpec(reports);
    ValidReportsMembership(reports);
    WorstIndexEarliest(v);
  }

  /** With at most three valid reports both cohorts are the whole list, so growth is 0. */
  lemma GrowthVanishesForShortHistory(v: seq<Report>, f: Report -> real)
    requires |v| <= 3
    ensures Growth(v, f) == 0.0
  {
    if |v| >= 2 {
      assert FirstCohort(v) == v && LastCohort(v) == v;
    }
  }

  /** Growth is positive exactly when the last cohort's mean exceeds the
      first's, negative exactly when it falls short, and 0 without a positive base. */
  lemma GrowthSign(v: seq<Report>, f: Report -> real)
    requires |v| >= 2
    ensures var first := Mean(FirstCohort(v), f);
            var last := Mean(LastCohort(v), f);
      && (first <= 0.0 ==> Growth(v, f) == 0.0)
      && (first > 0.0 ==> (Growth(v, f) > 0.0 <==> last > first))
      && (first > 0.0 ==> (Growth(v, f) < 0.0 <==> last < first))
  {
    var first := Mean(FirstCohort(v), f);
    var last := Mean(LastCohort(v), f);
    if first > 0.0 {
      var q := (last - first) / first;
      assert q * first == last - first;
      assert q > 0.0 <==> last > first;
      assert q < 0.0 <==> last < first;
    }
  }

  /** Both growth figures of the metrics are 0 when at most three valid reports exist. */
  lemma MetricsGrowthShortHistory(reports: seq<Report>)
    requires CalculateDashboardMetricsGuarded(reports).totalMonths <= 3
    ensures CalculateDashboardMetricsGuarded(reports).revenueGrowth == 0.0
    ensures CalculateDashboardMetricsGuarded(reports).profitGrowth == 0.0
  {
    var v := ValidReports(reports);
    GrowthVanishesForShortHistory(v, Gross);
    GrowthVanishesForShortHistory(v, Net);
  }

  // ---------------------------------------------------------------------
  // prepareTrendData

  lemma {:induction false} TrendSeriesSums(v: seq<Report>, periodLabel: int -> string)
    ensures SumOf(TrendSeries(v, periodLabel), TrendGross) == SumOf(v, Gross)
    ensures SumOf(TrendSeries(v, periodLabel), TrendNet) == SumOf(v, Net)
  {
    if v != [] {
      TrendSeriesSums(v[1..], periodLabel);
    }
  }

  /** The trend series has one point per valid report, in the metrics' order,
      its columns sum to the metrics' totals, each margin follows the
      positive-gross rule, and no point is a degenerate period. */
  lemma TrendMatchesMetrics(reports: seq<Report>, periodLabel: int -> string)
    ensures var t := PrepareTrendData(reports, periodLabel);
            var m := CalculateDashboardMetricsGuarded(reports);
            var v := ValidReports(reports);
      && |t| == m.totalMonths
      && SumOf(t, TrendGross) == m.totalRevenue
      && SumOf(t, TrendNet) == m.totalProfit
      && (forall i :: 0 <= i < |t| ==>
            t[i].period == periodLabel(v[i].periodStart)
            && t[i].grossProfit == v[i].grossProfit && t[i].netProfit == v[i].netProfit
            && t[i].margin == (if t[i].grossProfit > 0.0 then (t[i].netProfit / t[i].grossProfit) * 100.0 else 0.0)
            && !(t[i].grossProfit == 0.0 && t[i].netProfit == 0.0))
  {
    var v := ValidReports(reports);
    ValidReportsSpec(reports);
    TrendSeriesSums(v, periodLabel);
  }
}

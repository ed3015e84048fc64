/** The insight generator of the dashboard (`getFinancialInsights` in
    src/utils/dashboardMetrics.ts): fixed threshold rules that turn a metrics
    snapshot into three or four sentences. */
module FinancialInsights {
  import opened Types
  import opened DashboardMetrics

  /** One branch of the rule chains; `Text` gives the sentence it pushes. */
  datatype Tier =
    | StrongProfitability | GoodProfitability | ProfitabilityNeedsImprovement
    | ExcellentMargin | HealthyMargin | MarginCouldBeImproved
    | StrongRevenueGrowth | PositiveRevenueGrowth | RevenueGrowthNeedsAttention
    | ExcellentProfitGrowth | PositiveProfitGrowth | ProfitGrowthRequiresFocus

  /** The four rule chains, in the order the generator evaluates them. */
  datatype InsightCategory = Profitability | MarginLevel | RevenueTrend | ProfitTrend

  function Rank(c: InsightCategory): nat
  {
    match c
    case Profitability => 0
    case MarginLevel => 1
    case RevenueTrend => 2
    case ProfitTrend => 3
  }

  function CategoryOf(t: Tier): InsightCategory
  {
    match t
    case StrongProfitability | GoodProfitability | ProfitabilityNeedsImprovement => Profitability
    case ExcellentMargin | HealthyMargin | MarginCouldBeImproved => MarginLevel
    case StrongRevenueGrowth | PositiveRevenueGrowth | RevenueGrowthNeedsAttention => RevenueTrend
    case ExcellentProfitGrowth | PositiveProfitGrowth | ProfitGrowthRequiresFocus => ProfitTrend
  }

  /** The sentence each tier pushes. The two longest are written as two joined
      literals; the value is the same sentence. */
  function Text(t: Tier): string
  {
    match t
    case StrongProfitability => "Strong profitability" + " with 80%+ profitable months"
    case GoodProfitability => "Good profitability" + " with 60%+ profitable months"
    case ProfitabilityNeedsImprovement => "Profitability needs improvement"
    case ExcellentMargin => "Excellent profit margins above 20%"
    case HealthyMargin => "Healthy profit margins above 10%"
    case MarginCouldBeImproved => "Profit margins could be improved"
    case StrongRevenueGrowth => "Strong revenue growth trend"
    case PositiveRevenueGrowth => "Positive revenue growth"
    case RevenueGrowthNeedsAttention => "Revenue growth needs attention"
    case ExcellentProfitGrowth => "Excellent profit growth trajectory"
    case PositiveProfitGrowth => "Positive profit growth"
    case ProfitGrowthRequiresFocus => "Profit growth requires focus"
  }

  /** `part / whole > bound` on JavaScript numbers, for a finite `bound`:
      with `whole = 0` the quotient is Infinity when `part > 0`, which passes
      every such test, and NaN when `part = 0`, which fails every one. */
  predicate RatioAbove(part: nat, whole: nat, bound: real)
  {
    if whole == 0 then part > 0 else (part as real) / (whole as real) > bound
  }

  function ProfitabilityTier(m: Metrics): Tier
  {
    if RatioAbove(m.profitableMonths, m.totalMonths, 0.8) then StrongProfitability
    else if RatioAbove(m.profitableMonths, m.totalMonths, 0.6) then GoodProfitability
    else ProfitabilityNeedsImprovement
  }

  /** No margin insight is emitted when the average margin is not positive. */
  function MarginTier(m: Metrics): Option<Tier>
  {
    if m.averageMargin > 20.0 then Some(ExcellentMargin)
    else if m.averageMargin > 10.0 then Some(HealthyMargin)
    else if m.averageMargin > 0.0 then Some(MarginCouldBeImproved)
    else None
  }

  function RevenueTier(m: Metrics): Tier
  {
    if m.revenueGrowth > 10.0 then StrongRevenueGrowth
    else if m.revenueGrowth > 0.0 then PositiveRevenueGrowth
    else RevenueGrowthNeedsAttention
  }

  function ProfitGrowthTier(m: Metrics): Tier
  {
    if m.profitGrowth > 15.0 then ExcellentProfitGrowth
    else if m.profitGrowth > 0.0 then PositiveProfitGrowth
    else ProfitGrowthRequiresFocus
  }

  /** The tiers the generator selects, in the order it pushes their sentences. */
  function InsightTiers(m: Metrics): seq<Tier>
  {
    [ProfitabilityTier(m)]
    + (match MarginTier(m) case Some(t) => [t] case None => [])
    + [RevenueTier(m), ProfitGrowthTier(m)]
  }

  function Texts(ts: seq<Tier>): (r: seq<string>)
    ensures |r| == |ts|
    ensures forall i :: 0 <= i < |ts| ==> r[i] == Text(ts[i])
  {
    if ts == [] then [] else [Text(ts[0])] + Texts(ts[1..])
  }

  lemma {:induction false} TextsSnoc(ts: seq<Tier>, t: Tier)
    ensures Texts(ts + [t]) == Texts(ts) + [Text(t)]
  {
  }

  lemma InsightTiersUnfold(m: Metrics)
    ensures InsightTiers(m)
         == [ProfitabilityTier(m)] + (match MarginTier(m) case Some(t) => [t] case None => [])
            + [RevenueTier(m)] + [ProfitGrowthTier(m)]
  {
  }

  /** `getFinancialInsights`: builds the list by pushing one sentence per rule chain. */
  method GetFinancialInsights(metrics: Metrics) returns (insights: seq<string>)
    ensures insights == Texts(InsightTiers(metrics))
  {
    insights := [];
    ghost var tiers: seq<Tier> := [];

    var profitability;
    if RatioAbove(metrics.profitableMonths, metrics.totalMonths, 0.8) {
      profitability := StrongProfitability;
    } else if RatioAbove(metrics.profitableMonths, metrics.totalMonths, 0.6) {
      profitability := GoodProfitability;
    } else {
      profitability := ProfitabilityNeedsImprovement;
    }
    assert profitability == ProfitabilityTier(metrics);
    TextsSnoc(tiers, profitability);
    insights, tiers := insights + [Text(profitability)], tiers + [profitability];

    assert tiers == [ProfitabilityTier(metrics)];
    if metrics.averageMargin > 0.0 {
      var margin;
      if metrics.averageMargin > 20.0 {
        margin := ExcellentMargin;
      } else if metrics.averageMargin > 10.0 {
        margin := HealthyMargin;
      } else {
        margin := MarginCouldBeImproved;
      }
      assert MarginTier(metrics) == Some(margin);
      TextsSnoc(tiers, margin);
      insights, tiers := insights + [Text(margin)], tiers + [margin];
    }

    assert tiers == [ProfitabilityTier(metrics)] + (match MarginTier(metrics) case Some(t) => [t] case None => []);
    var revenue;
    if metrics.revenueGrowth > 10.0 {
      revenue := StrongRevenueGrowth;
    } else if metrics.revenueGrowth > 0.0 {
      revenue := PositiveRevenueGrowth;
    } else {
      revenue := RevenueGrowthNeedsAttention;
    }
    assert revenue == RevenueTier(metrics);
    TextsSnoc(tiers, revenue);
    insights, tiers := insights + [Text(revenue)], tiers + [revenue];

    var profit;
    if metrics.profitGrowth > 15.0 {
      profit := ExcellentProfitGrowth;
    } else if metrics.profitGrowth > 0.0 {
      profit := PositiveProfitGrowth;
    } else {
      profit := ProfitGrowthRequiresFocus;
    }
    assert profit == ProfitGrowthTier(metrics);
    TextsSnoc(tiers, profit);
    insights, tiers := insights + [Text(profit)], tiers + [profit];

    InsightTiersUnfold(metrics);
  }

  /** Four insights when the average margin is positive, three otherwise, one
      per rule chain and in the order profitability, margin, revenue growth,
      profit growth. */
  lemma InsightShape(m: Metrics)
    ensures var ts := InsightTiers(m);
      && |ts| == (if m.averageMargin > 0.0 then 4 else 3)
      && CategoryOf(ts[0]) == Profitability
      && CategoryOf(ts[|ts| - 1]) == ProfitTrend
      && (forall i, j :: 0 <= i < j < |ts| ==> Rank(CategoryOf(ts[i])) < Rank(CategoryOf(ts[j])))
      && ((exists i :: 0 <= i < |ts| && CategoryOf(ts[i]) == MarginLevel) <==> m.averageMargin > 0.0)
  {
    var ts := InsightTiers(m);
    if m.averageMargin > 0.0 {
      assert CategoryOf(ts[1]) == MarginLevel;
    } else {
      assert forall i :: 0 <= i < |ts| ==> ts[i] in {ProfitabilityTier(m), RevenueTier(m), ProfitGrowthTier(m)};
    }
  }

  /** The profitability thresholds are strict: a ratio of exactly 0.8 is
      "Good" and one of exactly 0.6 "needs improvement". */
  lemma ProfitabilityThresholdsAreStrict(m: Metrics)
    requires m.totalMonths > 0
    ensures 5 * m.profitableMonths == 4 * m.totalMonths ==> ProfitabilityTier(m) == GoodProfitability
    ensures 5 * m.profitableMonths == 3 * m.totalMonths ==> ProfitabilityTier(m) == ProfitabilityNeedsImprovement
  {
    var p, t := m.profitableMonths as real, m.totalMonths as real;
    if 5 * m.profitableMonths == 4 * m.totalMonths {
      assert p == 0.8 * t;
      assert p / t == 0.8;
    }
    if 5 * m.profitableMonths == 3 * m.totalMonths {
      assert p == 0.6 * t;
      assert p / t == 0.6;
    }
  }

  /** With no months at all the ratio is 0/0, which fails every threshold. */
  lemma NoMonthsNeedsImprovement(m: Metrics)
    requires m.totalMonths == 0 && m.profitableMonths == 0
    ensures ProfitabilityTier(m) == ProfitabilityNeedsImprovement
  {
  }

  /** Without any valid report the generator yields exactly the three guarded
      insights: profitability needs improvement, no margin insight, revenue
      growth needs attention and profit growth requires focus. */
  lemma NoDataInsights(reports: seq<Report>)
    requires forall i :: 0 <= i < |reports| ==> IsDegenerate(reports[i])
    ensures InsightTiers(CalculateDashboardMetricsGuarded(reports))
         == [ProfitabilityNeedsImprovement, RevenueGrowthNeedsAttention, ProfitGrowthRequiresFocus]
  {
    NoValidReportsIffAllDegenerate(reports);
  }

  /** With at most three valid reports both growth figures are 0, so the last
      two insights are always "needs attention" and "requires focus". */
  lemma ShortHistoryGrowthInsights(reports: seq<Report>)
    requires CalculateDashboardMetricsGuarded(reports).totalMonths <= 3
    ensures var ts := InsightTiers(CalculateDashboardMetricsGuarded(reports));
      ts[|ts| - 2..] == [RevenueGrowthNeedsAttention, ProfitGrowthRequiresFocus]
  {
    MetricsGrowthShortHistory(reports);
  }
}

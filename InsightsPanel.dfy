/** The presentation rules of the insights panel (src/components/InsightsPanel.tsx):
    the severity colour and icon of an insight sentence, found by an ordered,
    case-sensitive substring match, and the colours of the highlight chips. */
module InsightsPanel {
  import opened DashboardMetrics
  import opened FinancialInsights
  import opened Types

  datatype Severity = Success | Error | Warning | Info

  datatype Icon = CheckCircleIcon | ErrorIcon | WarningIcon | LightbulbIcon

  predicate OccursAt(s: string, p: string, i: int)
  {
    0 <= i <= |s| - |p| && s[i..i + |p|] == p
  }

  /** `s.includes(p)` */
  predicate Includes(s: string, p: string)
  {
    exists i | 0 <= i <= |s| - |p| :: OccursAt(s, p, i)
  }

  predicate IsSuccessText(insight: string) { Includes(insight, "Strong") || Includes(insight, "Excellent") }

  predicate IsErrorText(insight: string) { Includes(insight, "needs") || Includes(insight, "requires") }

  predicate IsWarningText(insight: string) { Includes(insight, "could be") || Includes(insight, "attention") }

  /** `getInsightColor` */
  function InsightColor(insight: string): Severity
  {
    if IsSuccessText(insight) then Success
    else if IsErrorText(insight) then Error
    else if IsWarningText(insight) then Warning
    else Info
  }

  /** `getInsightIcon` */
  function InsightIcon(insight: string): Icon
  {
    if IsSuccessText(insight) then CheckCircleIcon
    else if IsErrorText(insight) then ErrorIcon
    else if IsWarningText(insight) then WarningIcon
    else LightbulbIcon
  }

  /** The theme colour each icon is drawn in. */
  function IconColor(icon: Icon): Severity
  {
    match icon
    case CheckCircleIcon => Success
    case ErrorIcon => Error
    case WarningIcon => Warning
    case LightbulbIcon => Info
  }

  /** The icon and the text colour of an insight always agree. */
  lemma IconAgreesWithColor(insight: string)
    ensures IconColor(InsightIcon(insight)) == InsightColor(insight)
    ensures InsightIcon(insight) == CheckCircleIcon <==> InsightColor(insight) == Success
  {
  }

  /** The severity each rule tier is meant to carry: "Strong"/"Excellent"
      tiers succeed, "needs"/"requires" tiers are errors, "could be improved"
      is a warning and the "Good"/"Healthy"/"Positive" tiers are information. */
  function TierSeverity(t: Tier): Severity
  {
    match t
    case StrongProfitability | ExcellentMargin | StrongRevenueGrowth | ExcellentProfitGrowth => Success
    case ProfitabilityNeedsImprovement | RevenueGrowthNeedsAttention | ProfitGrowthRequiresFocus => Error
    case MarginCouldBeImproved => Warning
    case GoodProfitability | HealthyMargin | PositiveRevenueGrowth | PositiveProfitGrowth => Info
  }

  /** A pattern matched character by character at `i` occurs in the text. */
  lemma Occurs(s: string, p: string, i: int)
    requires 0 <= i <= |s| - |p|
    requires forall j | 0 <= j < |p| :: s[i + j] == p[j]
    ensures Includes(s, p)
  {
    assert OccursAt(s, p, i);
  }

  /** A pattern with a character from `cs` does not occur in a text free of `cs`. */
  lemma LacksChar(s: string, cs: string, p: string, k: int)
    requires forall i | 0 <= i < |s| :: s[i] !in cs
    requires 0 <= k < |p| && p[k] in cs
    ensures !Includes(s, p)
  {
  }

  /** If `p[k]` occurs in the text only at position `at`, the pattern can only
      start at `at - k`, and a mismatch at `at - k + j` rules that out too. */
  lemma SoleChar(s: string, p: string, k: int, at: int, j: int)
    requires 0 <= k < |p| && 0 <= at < |s| && s[at] == p[k]
    requires forall i | 0 <= i < |s| && i != at :: s[i] != p[k]
    requires 0 <= j < |p| && 0 <= at - k + j < |s| && s[at - k + j] != p[j]
    ensures !Includes(s, p)
  {
  }

  // The words whose characters all occur in a sentence, ruled out one by one.

  lemma NeedsNotInGoodProfitability()
    ensures !Includes(Text(GoodProfitability), "needs")
  {
    var s := Text(GoodProfitability);
    assert forall i | 0 <= i < |s| && i != 3 :: s[i] != 'd';
    SoleChar(s, "needs", 3, 3, 0);
  }

  lemma AttentionNotInGoodProfitability()
    ensures !Includes(Text(GoodProfitability), "attention")
  {
    var s := Text(GoodProfitability);
    assert forall i | 0 <= i < |s| && i != 38 :: s[i] != 'e';
    SoleChar(s, "attention", 3, 38, 1);
  }

  lemma AttentionNotInHealthyMargin()
    ensures !Includes(Text(HealthyMargin), "attention")
  {
    var s := Text(HealthyMargin);
    assert forall i | 0 <= i < |s| && i != 20 :: s[i] != 'n';
    SoleChar(s, "attention", 4, 20, 1);
  }

  lemma NeedsNotInMarginCouldBeImproved()
    ensures !Includes(Text(MarginCouldBeImproved), "needs")
  {
    var s := Text(MarginCouldBeImproved);
    assert forall i | 0 <= i < |s| && i != 12 :: s[i] != 'n';
    SoleChar(s, "needs", 0, 12, 1);
  }

  // One lemma per sentence: which of the searched words it contains.

  lemma SeverityOfStrongProfitability()
    ensures InsightColor(Text(StrongProfitability)) == TierSeverity(StrongProfitability)
  {
    var s := Text(StrongProfitability);
    Occurs(s, "Strong", 0);
  }

  lemma SeverityOfGoodProfitability()
    ensures InsightColor(Text(GoodProfitability)) == TierSeverity(GoodProfitability)
  {
    var s := Text(GoodProfitability);
    assert forall i | 0 <= i < |s| :: s[i] !in "SEqc";
    LacksChar(s, "SEqc", "Strong", 0);
    LacksChar(s, "SEqc", "Excellent", 0);
    LacksChar(s, "SEqc", "requires", 2);
    LacksChar(s, "SEqc", "could be", 0);
    NeedsNotInGoodProfitability();
    AttentionNotInGoodProfitability();
  }

  lemma SeverityOfProfitabilityNeedsImprovement()
    ensures InsightColor(Text(ProfitabilityNeedsImprovement)) == TierSeverity(ProfitabilityNeedsImprovement)
  {
    var s := Text(ProfitabilityNeedsImprovement);
    assert forall i | 0 <= i < |s| :: s[i] !in "SE";
    LacksChar(s, "SE", "Strong", 0);
    LacksChar(s, "SE", "Excellent", 0);
    Occurs(s, "needs", 14);
  }

  lemma SeverityOfExcellentMargin()
    ensures InsightColor(Text(ExcellentMargin)) == TierSeverity(ExcellentMargin)
  {
    var s := Text(ExcellentMargin);
    Occurs(s, "Excellent", 0);
  }

  lemma SeverityOfHealthyMargin()
    ensures InsightColor(Text(HealthyMargin)) == TierSeverity(HealthyMargin)
  {
    var s := Text(HealthyMargin);
    assert forall i | 0 <= i < |s| :: s[i] !in "SEdqc";
    LacksChar(s, "SEdqc", "Strong", 0);
    LacksChar(s, "SEdqc", "Excellent", 0);
    LacksChar(s, "SEdqc", "needs", 3);
    LacksChar(s, "SEdqc", "requires", 2);
    LacksChar(s, "SEdqc", "could be", 0);
    AttentionNotInHealthyMargin();
  }

  lemma SeverityOfMarginCouldBeImproved()
    ensures InsightColor(Text(MarginCouldBeImproved)) == TierSeverity(MarginCouldBeImproved)
  {
    var s := Text(MarginCouldBeImproved);
    assert forall i | 0 <= i < |s| :: s[i] !in "SEq";
    LacksChar(s, "SEq", "Strong", 0);
    LacksChar(s, "SEq", "Excellent", 0);
    LacksChar(s, "SEq", "requires", 2);
    NeedsNotInMarginCouldBeImproved();
    Occurs(s, "could be", 15);
  }

  lemma SeverityOfStrongRevenueGrowth()
    ensures InsightColor(Text(StrongRevenueGrowth)) == TierSeverity(StrongRevenueGrowth)
  {
    var s := Text(StrongRevenueGrowth);
    Occurs(s, "Strong", 0);
  }

  lemma SeverityOfPositiveRevenueGrowth()
    ensures InsightColor(Text(PositiveRevenueGrowth)) == TierSeverity(PositiveRevenueGrowth)
  {
    var s := Text(PositiveRevenueGrowth);
    assert forall i | 0 <= i < |s| :: s[i] !in "SEdqca";
    LacksChar(s, "SEdqca", "Strong", 0);
    LacksChar(s, "SEdqca", "Excellent", 0);
    LacksChar(s, "SEdqca", "needs", 3);
    LacksChar(s, "SEdqca", "requires", 2);
    LacksChar(s, "SEdqca", "could be", 0);
    LacksChar(s, "SEdqca", "attention", 0);
  }

  lemma SeverityOfRevenueGrowthNeedsAttention()
    ensures InsightColor(Text(RevenueGrowthNeedsAttention)) == TierSeverity(RevenueGrowthNeedsAttention)
  {
    var s := Text(RevenueGrowthNeedsAttention);
    assert forall i | 0 <= i < |s| :: s[i] !in "SE";
    LacksChar(s, "SE", "Strong", 0);
    LacksChar(s, "SE", "Excellent", 0);
    Occurs(s, "needs", 15);
  }

  lemma SeverityOfExcellentProfitGrowth()
    ensures InsightColor(Text(ExcellentProfitGrowth)) == TierSeverity(ExcellentProfitGrowth)
  {
    var s := Text(ExcellentProfitGrowth);
    Occurs(s, "Excellent", 0);
  }

  lemma SeverityOfPositiveProfitGrowth()
    ensures InsightColor(Text(PositiveProfitGrowth)) == TierSeverity(PositiveProfitGrowth)
  {
    var s := Text(PositiveProfitGrowth);
    assert forall i | 0 <= i < |s| :: s[i] !in "SEdqca";
    LacksChar(s, "SEdqca", "Strong", 0);
    LacksChar(s, "SEdqca", "Excellent", 0);
    LacksChar(s, "SEdqca", "needs", 3);
    LacksChar(s, "SEdqca", "requires", 2);
    LacksChar(s, "SEdqca", "could be", 0);
    LacksChar(s, "SEdqca", "attention", 0);
  }

  lemma SeverityOfProfitGrowthRequiresFocus()
    ensures InsightColor(Text(ProfitGrowthRequiresFocus)) == TierSeverity(ProfitGrowthRequiresFocus)
  {
    var s := Text(ProfitGrowthRequiresFocus);
    assert forall i | 0 <= i < |s| :: s[i] !in "SEn";
    LacksChar(s, "SEn", "Strong", 0);
    LacksChar(s, "SEn", "Excellent", 0);
    LacksChar(s, "SEn", "needs", 0);
    Occurs(s, "requires", 14);
  }

  /** The colour the panel gives each generated sentence is exactly the
      severity of the tier that produced it. */
  lemma InsightSeverityFollowsTier(t: Tier)
    ensures InsightColor(Text(t)) == TierSeverity(t)
  {
    match t
    case StrongProfitability => SeverityOfStrongProfitability();
    case GoodProfitability => SeverityOfGoodProfitability();
    case ProfitabilityNeedsImprovement => SeverityOfProfitabilityNeedsImprovement();
    case ExcellentMargin => SeverityOfExcellentMargin();
    case HealthyMargin => SeverityOfHealthyMargin();
    case MarginCouldBeImproved => SeverityOfMarginCouldBeImproved();
    case StrongRevenueGrowth => SeverityOfStrongRevenueGrowth();
    case PositiveRevenueGrowth => SeverityOfPositiveRevenueGrowth();
    case RevenueGrowthNeedsAttention => SeverityOfRevenueGrowthNeedsAttention();
    case ExcellentProfitGrowth => SeverityOfExcellentProfitGrowth();
    case PositiveProfitGrowth => SeverityOfPositiveProfitGrowth();
    case ProfitGrowthRequiresFocus => SeverityOfProfitGrowthRequiresFocus();
  }

  /** Every sentence the generator emits is coloured by its tier. */
  lemma GeneratedInsightsFollowTiers(m: Metrics)
    ensures var ts := InsightTiers(m);
      forall i :: 0 <= i < |ts| ==> InsightColor(Texts(ts)[i]) == TierSeverity(ts[i])
  {
    var ts := InsightTiers(m);
    forall i | 0 <= i < |ts| ensures InsightColor(Texts(ts)[i]) == TierSeverity(ts[i]) {
      InsightSeverityFollowsTier(ts[i]);
    }
  }

  /** "Revenue growth needs attention" mentions "attention" but is an error,
      because "needs" is tested first. */
  lemma NeedsAttentionIsError()
    ensures Includes(Text(RevenueGrowthNeedsAttention), "attention")
    ensures InsightColor(Text(RevenueGrowthNeedsAttention)) == Error
  {
    Occurs(Text(RevenueGrowthNeedsAttention), "attention", 21);
    InsightSeverityFollowsTier(RevenueGrowthNeedsAttention);
  }

  /** Colour of the "profitable months" chip. */
  function ProfitableMonthsChip(m: Metrics): Severity
  {
    if RatioAbove(m.profitableMonths, m.totalMonths, 0.7) then Success else Warning
  }

  /** Colour of the "average margin" chip. */
  function AverageMarginChip(m: Metrics): Severity
  {
    if m.averageMargin > 15.0 then Success else if m.averageMargin > 5.0 then Warning else Error
  }

  /** The profitable-months chip is consistent with the profitability insight:
      "Strong" implies a success chip and "needs improvement" a warning chip. */
  lemma ProfitableChipAgreesWithInsight(m: Metrics)
    ensures ProfitabilityTier(m) == StrongProfitability ==> ProfitableMonthsChip(m) == Success
    ensures ProfitabilityTier(m) == ProfitabilityNeedsImprovement ==> ProfitableMonthsChip(m) == Warning
  {
  }

  /** The margin chip is consistent with the margin insight: "Excellent"
      implies a success chip, a success chip implies "Excellent" or "Healthy",
      and no margin insight implies an error chip. */
  lemma MarginChipAgreesWithInsight(m: Metrics)
    ensures MarginTier(m) == Some(ExcellentMargin) ==> AverageMarginChip(m) == Success
    ensures AverageMarginChip(m) == Success ==> MarginTier(m) in {Some(ExcellentMargin), Some(HealthyMargin)}
    ensures MarginTier(m).None? ==> AverageMarginChip(m) == Error
  {
  }
}

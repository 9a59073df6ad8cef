/** The fourth pipeline stage (a model of `src/lib/pipeline/score.ts`): the ordinal risk score
    with its breakdown, confidence and disclaimer, the improvement levers and the early
    warnings, all computed from the decomposition and the synthesis result. Weights and means
    are compared in exact integer arithmetic (hundredths and cross-multiplication). */
module Score {
  import opened Wrappers
  import opened Seqs
  import opened Text
  import opened Types
  import opened Retrieve
  import opened Synthesize

  datatype ScoringResult = ScoringResult(
    riskScore: RiskScore,
    improvementLevers: seq<Lever>,
    earlyWarnings: seq<Warning>)

  // ---------------------------------------------------------------------------------------
  // Level conversions

  /** `riskLevelToNumber` */
  function Ordinal(l: RiskLevel): (n: int)
    ensures 1 <= n <= 4
  {
    match l
    case CRITICAL => 4
    case ELEVATED => 3
    case MODERATE => 2
    case LOW => 1
  }

  /** `numberToRiskLevel`, for a score given in hundredths (3.5 is 350). */
  function LevelOfHundredths(h: int): RiskLevel {
    if h >= 350 then CRITICAL
    else if h >= 250 then ELEVATED
    else if h >= 150 then MODERATE
    else LOW
  }

  /** Converting an ordinal back gives the level it came from. */
  lemma LevelOfOrdinal(l: RiskLevel)
    ensures LevelOfHundredths(100 * Ordinal(l)) == l
  {
  }

  /** On the range of weighted ordinals the conversion rounds to the nearest ordinal, halves up. */
  lemma LevelOfHundredthsNearest(h: int, l: RiskLevel)
    requires 100 <= h <= 400
    ensures LevelOfHundredths(h) == l <==>
      (l == LOW || 100 * Ordinal(l) - 50 <= h) && (l == CRITICAL || h < 100 * Ordinal(l) + 50)
  {
  }

  /** A score between two ordinals converts to a level between them. */
  lemma LevelOfHundredthsBetween(h: int, lo: int, hi: int)
    requires 1 <= lo <= hi <= 4 && 100 * lo <= h <= 100 * hi
    ensures lo <= Ordinal(LevelOfHundredths(h)) <= hi
  {
  }

  // ---------------------------------------------------------------------------------------
  // calculateCategoryScore

  /** The number of risks of a level (`risks.filter(r => r.level === l).length`). */
  function CountLevel(risks: seq<Risk>, l: RiskLevel): (n: nat)
    ensures n <= |risks|
  {
    if risks == [] then 0
    else CountLevel(risks[..|risks| - 1], l) + (if risks[|risks| - 1].level == l then 1 else 0)
  }

  /** `calculateCategoryScore` */
  function CategoryScore(risks: seq<Risk>): RiskLevel {
    if |risks| == 0 then LOW
    else
      var critical := CountLevel(risks, CRITICAL);
      var elevated := CountLevel(risks, ELEVATED);
      if critical >= 2 then CRITICAL
      else if critical >= 1 || elevated >= 2 then ELEVATED
      else if elevated >= 1 then MODERATE
      else LOW
  }

  /** No risk of a level is counted exactly when none of the risks has it. */
  lemma {:induction false} CountLevelZero(risks: seq<Risk>, l: RiskLevel)
    ensures CountLevel(risks, l) == 0 <==> forall i :: 0 <= i < |risks| ==> risks[i].level != l
  {
    if risks != [] {
      var init := risks[..|risks| - 1];
      CountLevelZero(init, l);
      assert forall i :: 0 <= i < |init| ==> init[i] == risks[i];
    }
  }

  /** The levels of a list of risks, in order. */
  function Levels(risks: seq<Risk>): (r: seq<RiskLevel>)
    ensures |r| == |risks| && forall i :: 0 <= i < |r| ==> r[i] == risks[i].level
  {
    seq(|risks|, i requires 0 <= i < |risks| => risks[i].level)
  }

  /** The count of a level is its multiplicity among the levels, whatever their order. */
  lemma {:induction false} CountLevelIsMultiplicity(risks: seq<Risk>, l: RiskLevel)
    ensures CountLevel(risks, l) == multiset(Levels(risks))[l]
  {
    if risks != [] {
      var init := risks[..|risks| - 1];
      CountLevelIsMultiplicity(init, l);
      assert Levels(risks) == Levels(init) + [risks[|risks| - 1].level];
    }
  }

  /** The category score is CRITICAL for two critical risks, LOW exactly when every risk is
      moderate or low (an empty list included), and otherwise ELEVATED or MODERATE by the
      counts of critical and elevated risks. */
  lemma CategoryScoreMeaning(risks: seq<Risk>)
    ensures CategoryScore(risks) == CRITICAL <==> CountLevel(risks, CRITICAL) >= 2
    ensures CategoryScore(risks) == ELEVATED <==>
      CountLevel(risks, CRITICAL) == 1 || (CountLevel(risks, CRITICAL) == 0 && CountLevel(risks, ELEVATED) >= 2)
    ensures CategoryScore(risks) == MODERATE <==>
      CountLevel(risks, CRITICAL) == 0 && CountLevel(risks, ELEVATED) == 1
    ensures CategoryScore(risks) == LOW <==>
      forall i :: 0 <= i < |risks| ==> risks[i].level == MODERATE || risks[i].level == LOW
  {
    CountLevelZero(risks, CRITICAL);
    CountLevelZero(risks, ELEVATED);
  }

  /** The category score depends only on how many risks have each level, not on their order. */
  lemma CategoryScoreOrderFree(a: seq<Risk>, b: seq<Risk>)
    requires multiset(Levels(a)) == multiset(Levels(b))
    ensures CategoryScore(a) == CategoryScore(b)
  {
    CountLevelIsMultiplicity(a, CRITICAL);
    CountLevelIsMultiplicity(b, CRITICAL);
    CountLevelIsMultiplicity(a, ELEVATED);
    CountLevelIsMultiplicity(b, ELEVATED);
    assert |a| == |multiset(Levels(a))| == |multiset(Levels(b))| == |b|;
  }

  /** One more risk never lowers the category score. */
  lemma CategoryScoreMonotone(risks: seq<Risk>, r: Risk)
    ensures Ordinal(CategoryScore(risks)) <= Ordinal(CategoryScore(risks + [r]))
  {
    assert (risks + [r])[..|risks|] == risks;
  }

  // ---------------------------------------------------------------------------------------
  // calculateCompetitionScore

  /** `ratio >= k`, where the ratio is failed/surviving, or the failed count when nothing
      survived; compared by cross-multiplication. */
  predicate RatioAtLeast(failed: nat, surviving: nat, k: nat) {
    if surviving > 0 then failed >= k * surviving else failed >= k
  }

  /** `calculateCompetitionScore` */
  function CompetitionScore(failed: nat, surviving: nat): RiskLevel {
    if RatioAtLeast(failed, surviving, 3) || (failed >= 5 && surviving <= 1) then CRITICAL
    else if RatioAtLeast(failed, surviving, 2) || failed >= 3 then ELEVATED
    else if RatioAtLeast(failed, surviving, 1) || failed >= 2 then MODERATE
    else LOW
  }

  /** The competition score is CRITICAL exactly when the ratio reaches 3: the clause for five
      failures against at most one survivor never decides anything. Without failures it is
      LOW, even when nothing survived either. */
  lemma CompetitionScoreMeaning(failed: nat, surviving: nat)
    ensures CompetitionScore(failed, surviving) == CRITICAL <==> RatioAtLeast(failed, surviving, 3)
    ensures CompetitionScore(failed, surviving) == ELEVATED <==>
      !RatioAtLeast(failed, surviving, 3) && (RatioAtLeast(failed, surviving, 2) || failed >= 3)
    ensures CompetitionScore(0, surviving) == LOW
  {
  }

  /** More failures never lower the competition score; more survivors never raise it. */
  lemma CompetitionScoreMonotone(failed: nat, surviving: nat, failed': nat, surviving': nat)
    requires failed <= failed' && surviving' <= surviving
    ensures Ordinal(CompetitionScore(failed, surviving)) <= Ordinal(CompetitionScore(failed', surviving'))
  {
    assert 3 * surviving' <= 3 * surviving && 2 * surviving' <= 2 * surviving;
  }

  // ---------------------------------------------------------------------------------------
  // calculateExecutionScore

  /** The mean used when there are no failure modes. */
  const DEFAULT_MEAN := 50

  function SumProbability(modes: seq<FailureMode>): nat {
    if modes == [] then 0
    else SumProbability(modes[..|modes| - 1]) + modes[|modes| - 1].probability
  }

  /** The level a whole-number mean probability maps to. */
  function MeanLevel(mean: int): RiskLevel {
    if mean >= 70 then CRITICAL
    else if mean >= 55 then ELEVATED
    else if mean >= 40 then MODERATE
    else LOW
  }

  /** `avgProbability >= k`, compared as sum >= k * count. */
  predicate MeanAtLeast(modes: seq<FailureMode>, k: nat) {
    if |modes| > 0 then SumProbability(modes) >= k * |modes| else DEFAULT_MEAN >= k
  }

  /** `calculateExecutionScore` */
  function ExecutionScore(modes: seq<FailureMode>): RiskLevel {
    if MeanAtLeast(modes, 70) then CRITICAL
    else if MeanAtLeast(modes, 55) then ELEVATED
    else if MeanAtLeast(modes, 40) then MODERATE
    else LOW
  }

  /** Probabilities between `lo` and `hi` sum to between `lo` and `hi` times their count. */
  lemma {:induction false} SumProbabilityBounds(modes: seq<FailureMode>, lo: nat, hi: nat)
    requires forall i :: 0 <= i < |modes| ==> lo <= modes[i].probability <= hi
    ensures lo * |modes| <= SumProbability(modes) <= hi * |modes|
  {
    if modes != [] {
      var init := modes[..|modes| - 1];
      assert forall i :: 0 <= i < |init| ==> init[i] == modes[i];
      SumProbabilityBounds(init, lo, hi);
      assert lo * |modes| == lo * |init| + lo;
      assert hi * |modes| == hi * |init| + hi;
    }
  }

  /** Probabilities between `lo` and `hi` have a mean of at least `k` when `lo` is, and below
      `k` when `hi` is. */
  lemma MeanAtLeastBetween(modes: seq<FailureMode>, lo: nat, hi: nat, k: nat)
    requires |modes| > 0 && forall i :: 0 <= i < |modes| ==> lo <= modes[i].probability <= hi
    ensures lo >= k ==> MeanAtLeast(modes, k)
    ensures hi < k ==> !MeanAtLeast(modes, k)
  {
    var n := |modes|;
    SumProbabilityBounds(modes, lo, hi);
    if lo >= k {
      assert lo * n >= k * n;
    }
    if hi < k {
      assert hi * n < k * n;
    }
  }

  /** With no failure modes the default mean gives MODERATE; otherwise the score lies between
      the levels of the lowest and the highest probability. */
  lemma ExecutionScoreBetween(modes: seq<FailureMode>, lo: nat, hi: nat)
    requires forall i :: 0 <= i < |modes| ==> lo <= modes[i].probability <= hi
    ensures ExecutionScore([]) == MODERATE
    ensures |modes| > 0 ==>
      Ordinal(MeanLevel(lo)) <= Ordinal(ExecutionScore(modes)) <= Ordinal(MeanLevel(hi))
  {
    if |modes| > 0 {
      MeanAtLeastBetween(modes, lo, hi, 40);
      MeanAtLeastBetween(modes, lo, hi, 55);
      MeanAtLeastBetween(modes, lo, hi, 70);
    }
  }

  /** When every failure mode has the same probability, the score is that probability's level. */
  lemma ExecutionScoreUniform(modes: seq<FailureMode>, p: nat)
    requires |modes| > 0 && forall i :: 0 <= i < |modes| ==> modes[i].probability == p
    ensures ExecutionScore(modes) == MeanLevel(p)
  {
    ExecutionScoreBetween(modes, p, p);
  }

  // ---------------------------------------------------------------------------------------
  // The overall level

  /** The weighted sum of the five ordinals, in hundredths (weights 0.25, 0.15, 0.15, 0.25 and
      0.20). */
  function WeightedSum(b: Breakdown): int {
    25 * Ordinal(b.market) + 15 * Ordinal(b.timing) + 15 * Ordinal(b.regulatory)
    + 25 * Ordinal(b.competition) + 20 * Ordinal(b.execution)
  }

  function OverallLevel(b: Breakdown): RiskLevel {
    LevelOfHundredths(WeightedSum(b))
  }

  function MinOrdinal(b: Breakdown): int {
    Min(Min(Min(Min(Ordinal(b.market), Ordinal(b.timing)), Ordinal(b.regulatory)),
            Ordinal(b.competition)), Ordinal(b.execution))
  }

  function MaxOrdinal(b: Breakdown): int {
    -Min(Min(Min(Min(-Ordinal(b.market), -Ordinal(b.timing)), -Ordinal(b.regulatory)),
             -Ordinal(b.competition)), -Ordinal(b.execution))
  }

  /** The overall level lies between the lowest and the highest sub-score. */
  lemma OverallBetween(b: Breakdown)
    ensures MinOrdinal(b) <= Ordinal(OverallLevel(b)) <= MaxOrdinal(b)
  {
    LevelOfHundredthsBetween(WeightedSum(b), MinOrdinal(b), MaxOrdinal(b));
  }

  /** Five equal sub-scores give that level overall (all LOW is LOW, all CRITICAL is CRITICAL). */
  lemma OverallUniform(l: RiskLevel)
    ensures OverallLevel(Breakdown(l, l, l, l, l)) == l
  {
    OverallBetween(Breakdown(l, l, l, l, l));
  }

  // ---------------------------------------------------------------------------------------
  // Confidence and disclaimer

  /** The amount of evidence behind a score. */
  function EvidenceCount(s: SynthesisResult): nat {
    |s.marketRisks| + |s.timingRisks| + |s.regulatoryRisks| + |s.failedComparables| + |s.citations|
  }

  /** `Math.min(85, 40 + evidenceCount * 3)` */
  function Confidence(n: nat): (c: nat)
    ensures 40 <= c <= 85
  {
    Min(85, 40 + 3 * n)
  }

  /** Confidence never decreases with more evidence, and reaches its cap at fifteen items. */
  lemma ConfidenceGrowth(a: nat, b: nat)
    ensures a <= b ==> Confidence(a) <= Confidence(b)
    ensures Confidence(a) == 85 <==> a >= 15
    ensures a < b <= 15 ==> Confidence(a) < Confidence(b)
  {
  }

  function DisclaimerLead(l: RiskLevel): string {
    match l
    case CRITICAL => "This assessment reflects historical patterns suggesting elevated risk factors. "
    case ELEVATED => "Historical data indicates several risk factors common in this space. With "
    case MODERATE => "The risk profile shows a mix of historical patterns. At "
    case LOW => "Fewer common failure patterns are present based on "
  }

  /** The text after the confidence percentage. */
  function DisclaimerRest(l: RiskLevel): string {
    match l
    case CRITICAL =>
      " of similar ventures have encountered significant challenges. This is not a prediction of failure, but an indicator of areas requiring careful attention."
    case ELEVATED =>
      " evidence coverage, we recommend addressing the highlighted concerns while recognizing that many successful startups have navigated similar challenges."
    case MODERATE =>
      " confidence, some challenges are common while others are less prevalent. Success depends heavily on execution and market timing."
    case LOW =>
      " of available evidence. However, this does not guarantee success—novel challenges may emerge that aren't reflected in historical data."
  }

  /** A confidence as the disclaimers print it, e.g. `55%`. */
  function Percent(confidence: nat): string { NatToString(confidence) + "%" }

  /** `generateDisclaimer`: the template of the level with the confidence filled in. */
  function Disclaimer(l: RiskLevel, confidence: nat): string {
    DisclaimerLead(l) + Percent(confidence) + DisclaimerRest(l)
  }

  /** The disclaimer states the confidence as a percentage. */
  lemma DisclaimerMentionsConfidence(l: RiskLevel, confidence: nat)
    ensures Contains(Disclaimer(l, confidence), Percent(confidence))
  {
    ContainsMiddle(DisclaimerLead(l), Percent(confidence), DisclaimerRest(l));
  }

  // ---------------------------------------------------------------------------------------
  // calculateRiskScore

  function Scores(s: SynthesisResult): Breakdown {
    Breakdown(
      CategoryScore(s.marketRisks), CategoryScore(s.timingRisks), CategoryScore(s.regulatoryRisks),
      CompetitionScore(|s.failedComparables|, |s.survivingComparables|), ExecutionScore(s.failureModes))
  }

  /** `calculateRiskScore`: the five sub-scores, their weighted level, the confidence from the
      amount of evidence and the disclaimer of the level. The confidence lies in [40, 85], the
      disclaimer states it, and the overall level lies between the lowest and highest
      sub-scores. */
  function CalculateRiskScore(s: SynthesisResult): (r: RiskScore)
    ensures ValidRiskScore(r) && 40 <= r.confidence <= 85
    ensures r.breakdown == Scores(s) && r.overall == OverallLevel(r.breakdown)
    ensures r.confidence == Confidence(EvidenceCount(s))
    ensures Contains(r.disclaimer, Percent(r.confidence))
    ensures MinOrdinal(r.breakdown) <= Ordinal(r.overall) <= MaxOrdinal(r.breakdown)
  {
    var breakdown := Scores(s);
    var overall := OverallLevel(breakdown);
    var confidence := Confidence(EvidenceCount(s));
    OverallBetween(breakdown);
    DisclaimerMentionsConfidence(overall, confidence);
    RiskScore(overall, confidence, breakdown, Disclaimer(overall, confidence))
  }

  /** A synthesis that found nothing at all: every category LOW, competition LOW, execution
      MODERATE by the default mean, LOW overall at the minimum confidence of 40. */
  lemma EmptySynthesisScore(s: SynthesisResult)
    requires s.marketRisks == [] && s.timingRisks == [] && s.regulatoryRisks == []
    requires s.failedComparables == [] && s.survivingComparables == []
    requires s.failureModes == [] && s.citations == []
    ensures Scores(s) == Breakdown(LOW, LOW, LOW, LOW, MODERATE)
    ensures OverallLevel(Scores(s)) == LOW && Confidence(EvidenceCount(s)) == 40
  {
  }

  // ---------------------------------------------------------------------------------------
  // generateLevers

  /** Levers are cut to this many. */
  const MAX_LEVERS := 6

  /** The five fixed levers, in the order they are pushed. */
  datatype LeverKind = Differentiation | Validation | Testing | DistributionStrategy | Intelligence

  const LEVER_ORDER := [Differentiation, Validation, Testing, DistributionStrategy, Intelligence]

  function LeverRank(k: LeverKind): (n: nat)
    ensures n < |LEVER_ORDER| && LEVER_ORDER[n] == k
  {
    match k
    case Differentiation => 0
    case Validation => 1
    case Testing => 2
    case DistributionStrategy => 3
    case Intelligence => 4
  }

  function LeverId(k: LeverKind): string {
    match k
    case Differentiation => "lever-comp"
    case Validation => "lever-validate"
    case Testing => "lever-test"
    case DistributionStrategy => "lever-dist"
    case Intelligence => "lever-learn"
  }

  function LeverTitle(k: LeverKind): string {
    match k
    case Differentiation => "Differentiation Strategy"
    case Validation => "Assumption Validation Sprint"
    case Testing => "Hypothesis Testing Plan"
    case DistributionStrategy => "Distribution Strategy"
    case Intelligence => "Competitive Intelligence"
  }

  function LeverDescription(k: LeverKind): string {
    match k
    case Differentiation => "Develop unique positioning against identified competitors"
    case Validation => "Systematically test critical assumptions before full commitment"
    case Testing => "Run experiments to validate or invalidate core hypotheses"
    case DistributionStrategy => "Develop alternative channels to reduce distribution risk"
    case Intelligence => "Study successful competitors for strategic insights"
  }

  function LeverImpact(k: LeverKind): Degree {
    if k == Intelligence then Medium else High
  }

  function LeverEffort(k: LeverKind): Degree {
    match k
    case Differentiation => High
    case Validation => Low
    case Testing => Medium
    case DistributionStrategy => High
    case Intelligence => Low
  }

  function LeverCategoryOf(k: LeverKind): LeverCategory {
    if k == Validation || k == Testing then ProductCategory else MarketCategory
  }

  /** Each text prefixed, as `items.map(a => \`Validate: ${a}\`)` builds them. */
  function Prefixed(prefix: string, items: seq<string>): (r: seq<string>)
    ensures |r| == |items| && forall i :: 0 <= i < |r| ==> r[i] == prefix + items[i]
  {
    seq(|items|, i requires 0 <= i < |items| => prefix + items[i])
  }

  /** `c.differences[0] || 'strategy and positioning'`: an absent or empty first difference
      falls back to the default. */
  function FirstDifference(c: Comparable): string {
    if |c.differences| > 0 && c.differences[0] != "" then c.differences[0] else "strategy and positioning"
  }

  function AnalysisSteps(comparables: seq<Comparable>): (r: seq<string>)
    ensures |r| == |comparables|
    ensures forall i :: 0 <= i < |r| ==> r[i] == "Analyze " + comparables[i].name + ": " + FirstDifference(comparables[i])
  {
    seq(|comparables|, i requires 0 <= i < |comparables| =>
      "Analyze " + comparables[i].name + ": " + FirstDifference(comparables[i]))
  }

  function LeverSteps(k: LeverKind, d: IdeaDecomposition, s: SynthesisResult): seq<string> {
    match k
    case Differentiation =>
      ["Identify underserved segments competitors ignore", "Build proprietary data or technology moat",
       "Focus on specific vertical before expanding", "Create switching costs through integrations"]
    case Validation => Prefixed("Validate: ", d.keyAssumptions)
    case Testing => Prefixed("Test: ", d.testableHypotheses)
    case DistributionStrategy =>
      ["Identify organic/viral growth mechanisms", "Build partnership distribution channels",
       "Create content marketing engine", "Develop referral incentive programs"]
    case Intelligence => AnalysisSteps(Take(s.survivingComparables, 4))
  }

  /** The category market risks carry when competitors crowd the space. */
  const COMPETITION := "Competition"

  predicate HasCompetitionRisk(risks: seq<Risk>) {
    exists i | 0 <= i < |risks| :: risks[i].category == COMPETITION
  }

  /** When each fixed lever is pushed. */
  predicate LeverApplies(k: LeverKind, d: IdeaDecomposition, s: SynthesisResult) {
    match k
    case Differentiation => HasCompetitionRisk(s.marketRisks)
    case Validation => |d.keyAssumptions| > 0
    case Testing => |d.testableHypotheses| > 0
    case DistributionStrategy => |s.distributionChallenges| > 0
    case Intelligence => |s.survivingComparables| > 0
  }

  function KindLever(k: LeverKind, d: IdeaDecomposition, s: SynthesisResult): Lever {
    Lever(LeverId(k), LeverTitle(k), LeverDescription(k), LeverImpact(k), LeverEffort(k),
          LeverCategoryOf(k), LeverSteps(k, d, s))
  }

  /** The fixed lever of each kind, as a function of the kind. */
  function MakeLever(d: IdeaDecomposition, s: SynthesisResult): LeverKind -> Lever {
    k => KindLever(k, d, s)
  }

  /** The kind as a one-element list when its lever applies, and nothing otherwise. */
  function KindIf(k: LeverKind, d: IdeaDecomposition, s: SynthesisResult): seq<LeverKind> {
    if LeverApplies(k, d, s) then [k] else []
  }

  /** The kinds pushed by the first `n` of the five checks, in order. */
  function PushedKinds(n: nat, d: IdeaDecomposition, s: SynthesisResult): seq<LeverKind>
    requires n <= |LEVER_ORDER|
  {
    if n == 0 then [] else PushedKinds(n - 1, d, s) + KindIf(LEVER_ORDER[n - 1], d, s)
  }

  /** The kinds of the fixed levers that are pushed, in their order. */
  function LeverKinds(d: IdeaDecomposition, s: SynthesisResult): seq<LeverKind> {
    PushedKinds(|LEVER_ORDER|, d, s)
  }

  /** Kinds listed in strictly increasing rank. */
  predicate RankIncreasing(kinds: seq<LeverKind>) {
    forall i, j :: 0 <= i < j < |kinds| ==> LeverRank(kinds[i]) < LeverRank(kinds[j])
  }

  /** No kind sits after its rank. */
  predicate RankBounded(kinds: seq<LeverKind>) {
    forall i :: 0 <= i < |kinds| ==> i <= LeverRank(kinds[i])
  }

  /** The first `n` checks push exactly the kinds of rank below `n` that apply, by rank. */
  lemma {:induction false} PushedKindsMeaning(n: nat, d: IdeaDecomposition, s: SynthesisResult)
    requires n <= |LEVER_ORDER|
    ensures forall k :: k in PushedKinds(n, d, s) <==> LeverApplies(k, d, s) && LeverRank(k) < n
    ensures RankIncreasing(PushedKinds(n, d, s))
  {
    if n > 0 {
      PushedKindsMeaning(n - 1, d, s);
      var prev, k := PushedKinds(n - 1, d, s), LEVER_ORDER[n - 1];
      assert LeverRank(k) == n - 1;
      forall k' ensures k' in PushedKinds(n, d, s) <==> LeverApplies(k', d, s) && LeverRank(k') < n {
        assert LeverRank(k') == n - 1 ==> k' == k;
      }
    }
  }

  /** In a rank-increasing list, no kind sits after its rank. */
  lemma {:induction false} RankIncreasingBound(kinds: seq<LeverKind>)
    requires RankIncreasing(kinds)
    ensures RankBounded(kinds)
  {
    if kinds != [] {
      var init := kinds[..|kinds| - 1];
      RankIncreasingBound(init);
      assert forall i :: 0 <= i < |init| ==> init[i] == kinds[i];
      if |init| > 0 {
        assert LeverRank(kinds[|init| - 1]) < LeverRank(kinds[|init|]);
      }
    }
  }

  /** A kind is pushed exactly when its lever applies; the kinds keep the fixed order, so none
      comes after as many kinds as precede it in that order. */
  lemma LeverKindsMeaning(d: IdeaDecomposition, s: SynthesisResult)
    ensures forall k :: k in LeverKinds(d, s) <==> LeverApplies(k, d, s)
    ensures RankIncreasing(LeverKinds(d, s)) && RankBounded(LeverKinds(d, s))
  {
    PushedKindsMeaning(|LEVER_ORDER|, d, s);
    RankIncreasingBound(LeverKinds(d, s));
  }

  function MitigationId(n: nat): string { "lever-" + NatToString(n) }

  /** The lever for a failure mode that has mitigations; `n` is the number of levers before it. */
  function MitigationLever(mode: FailureMode, n: nat): Lever
    requires |mode.mitigations| > 0
  {
    Lever(MitigationId(n), "Mitigate: " + mode.name, mode.mitigations[0],
          if mode.probability >= 60 then High else Medium, Medium, ProductCategory, mode.mitigations)
  }

  /** The modes that have mitigations, in order. */
  function Mitigated(m: FailureMode): Option<FailureMode> {
    if |m.mitigations| > 0 then Some(m) else None
  }

  /** The levers pushed for the failure modes, one per mode with mitigations. */
  function MitigationLevers(modes: seq<FailureMode>): (r: seq<Lever>)
    ensures |r| <= |modes|
  {
    if modes == [] then []
    else
      var prev := MitigationLevers(modes[..|modes| - 1]);
      var mode := modes[|modes| - 1];
      if |mode.mitigations| > 0 then prev + [MitigationLever(mode, |prev|)] else prev
  }

  /** The mitigation levers are the modes with mitigations, in order, numbered from 0. */
  lemma {:induction false} MitigationLeversMeaning(modes: seq<FailureMode>)
    ensures var kept := Collect(modes, Mitigated);
      && |MitigationLevers(modes)| == |kept|
      && forall i :: 0 <= i < |kept| ==>
           |kept[i].mitigations| > 0 && MitigationLevers(modes)[i] == MitigationLever(kept[i], i)
  {
    if modes != [] {
      MitigationLeversMeaning(modes[..|modes| - 1]);
    }
  }

  /** Every lever, before the cut. */
  function AllLevers(d: IdeaDecomposition, s: SynthesisResult): seq<Lever> {
    MitigationLevers(Take(s.failureModes, 3)) + Map(LeverKinds(d, s), MakeLever(d, s))
  }

  /** `generateLevers` */
  function Levers(d: IdeaDecomposition, s: SynthesisResult): seq<Lever> {
    Take(AllLevers(d, s), MAX_LEVERS)
  }

  /** The first part of `generateLevers`: a lever for each of the given failure modes that has
      mitigations, numbered by the levers before it. */
  method PushMitigationLevers(modes: seq<FailureMode>) returns (levers: seq<Lever>)
    ensures levers == MitigationLevers(modes)
  {
    levers := [];
    for i := 0 to |modes|
      invariant levers == MitigationLevers(modes[..i])
    {
      assert modes[..i + 1][..i] == modes[..i];
      var mode := modes[i];
      if |mode.mitigations| > 0 {
        levers := levers + [MitigationLever(mode, |levers|)];
      }
    }
    assert modes[..|modes|] == modes;
  }

  /** The five checks of `generateLevers`, in their order, each pushing the fixed lever of its
      kind as `fixed` makes it. */
  method PushFixedLevers(levers: seq<Lever>, d: IdeaDecomposition, s: SynthesisResult,
                         fixed: LeverKind -> Lever) returns (r: seq<Lever>)
    ensures r == levers + Map(LeverKinds(d, s), fixed)
  {
    r := levers;
    ghost var kinds: seq<LeverKind> := [];
    assert r == levers + Map(kinds, fixed);
    if HasCompetitionRisk(s.marketRisks) {
      MapPush(r, levers, kinds, Differentiation, fixed);
      r, kinds := r + [fixed(Differentiation)], kinds + [Differentiation];
    }
    assert kinds == PushedKinds(1, d, s);
    if |d.keyAssumptions| > 0 {
      MapPush(r, levers, kinds, Validation, fixed);
      r, kinds := r + [fixed(Validation)], kinds + [Validation];
    }
    assert kinds == PushedKinds(2, d, s);
    if |d.testableHypotheses| > 0 {
      MapPush(r, levers, kinds, Testing, fixed);
      r, kinds := r + [fixed(Testing)], kinds + [Testing];
    }
    assert kinds == PushedKinds(3, d, s);
    if |s.distributionChallenges| > 0 {
      MapPush(r, levers, kinds, DistributionStrategy, fixed);
      r, kinds := r + [fixed(DistributionStrategy)], kinds + [DistributionStrategy];
    }
    assert kinds == PushedKinds(4, d, s);
    if |s.survivingComparables| > 0 {
      MapPush(r, levers, kinds, Intelligence, fixed);
      r, kinds := r + [fixed(Intelligence)], kinds + [Intelligence];
    }
    assert kinds == LeverKinds(d, s);
  }

  /** `generateLevers`: the mitigation levers of the first three failure modes, then the fixed
      levers that apply, cut to six. */
  method GenerateLevers(d: IdeaDecomposition, s: SynthesisResult) returns (levers: seq<Lever>)
    ensures levers == Levers(d, s)
  {
    levers := PushMitigationLevers(Take(s.failureModes, 3));
    levers := PushFixedLevers(levers, d, s, MakeLever(d, s));
    levers := Take(levers, MAX_LEVERS);
  }

  /** A list of levers holds the fixed lever of a kind. */
  predicate HasLever(levers: seq<Lever>, k: LeverKind) {
    exists i | 0 <= i < |levers| :: levers[i].id == LeverId(k)
  }

  /** A list of levers holds the fixed lever of a kind at an index no larger than `bound`. */
  predicate LeverWithin(levers: seq<Lever>, k: LeverKind, bound: nat) {
    exists p | 0 <= p <= bound && p < |levers| :: levers[p].id == LeverId(k)
  }

  lemma LeverIdsDistinct(a: LeverKind, b: LeverKind)
    requires a != b
    ensures LeverId(a) != LeverId(b)
  {
    assert LeverId(a)[6] != LeverId(b)[6];
  }

  /** A mitigation lever never carries the id of a fixed lever. */
  lemma MitigationIdNotKindId(n: nat, k: LeverKind)
    ensures MitigationId(n) != LeverId(k)
  {
    assert IsDigit(MitigationId(n)[6]);
    assert !IsDigit(LeverId(k)[6]);
  }

  /** `all` is `mit` mitigation levers numbered from 0, then the fixed levers of `kinds`. */
  predicate Layout(all: seq<Lever>, mit: nat, kinds: seq<LeverKind>) {
    && mit + |kinds| == |all|
    && (forall i :: 0 <= i < mit ==> all[i].id == MitigationId(i))
    && (forall i :: mit <= i < |all| ==> all[i].id == LeverId(kinds[i - mit]))
  }

  /** Levers laid out as mitigation levers, then the fixed levers of some kinds in rank order,
      hold the fixed lever of a kind exactly when it is one of those kinds, and then no later
      than the number of mitigation levers plus its rank. */
  lemma FixedLeverPresence(all: seq<Lever>, mit: nat, kinds: seq<LeverKind>, k: LeverKind)
    requires Layout(all, mit, kinds) && RankBounded(kinds)
    ensures HasLever(all, k) <==> k in kinds
    ensures k in kinds ==> LeverWithin(all, k, mit + LeverRank(k))
  {
    if HasLever(all, k) {
      var i :| 0 <= i < |all| && all[i].id == LeverId(k);
      if i < mit {
        MitigationIdNotKindId(i, k);
      } else if kinds[i - mit] != k {
        LeverIdsDistinct(kinds[i - mit], k);
      }
    }
    if k in kinds {
      var i :| 0 <= i < |kinds| && kinds[i] == k;
      assert all[mit + i].id == LeverId(kinds[mit + i - mit]);
    }
  }

  /** The mitigation levers are numbered from 0. */
  lemma MitigationLeverIds(modes: seq<FailureMode>)
    ensures forall i :: 0 <= i < |MitigationLevers(modes)| ==> MitigationLevers(modes)[i].id == MitigationId(i)
  {
    MitigationLeversMeaning(modes);
  }

  /** The fixed lever of each kind carries that kind's id. */
  lemma MakeLeverIds(d: IdeaDecomposition, s: SynthesisResult)
    ensures forall k :: MakeLever(d, s)(k).id == LeverId(k)
  {
  }

  /** Levers numbered from 0 followed by the levers a function that gives each kind its id
      makes for some kinds are laid out as mitigation levers, then those kinds. */
  lemma LayoutOf(before: seq<Lever>, kinds: seq<LeverKind>, fixed: LeverKind -> Lever)
    requires forall i :: 0 <= i < |before| ==> before[i].id == MitigationId(i)
    requires forall k :: fixed(k).id == LeverId(k)
    ensures Layout(before + Map(kinds, fixed), |before|, kinds)
  {
  }

  /** The full list is laid out as the mitigation levers, then the fixed levers of the pushed
      kinds. */
  lemma AllLeversLayout(d: IdeaDecomposition, s: SynthesisResult)
    ensures Layout(AllLevers(d, s), |MitigationLevers(Take(s.failureModes, 3))|, LeverKinds(d, s))
  {
    MitigationLeverIds(Take(s.failureModes, 3));
    MakeLeverIds(d, s);
    LayoutOf(MitigationLevers(Take(s.failureModes, 3)), LeverKinds(d, s), MakeLever(d, s));
  }

  /** The fixed lever of a kind sits in the full list exactly when it applies, and then at an
      index no larger than the number of mitigation levers plus its rank. */
  lemma AllLeversHold(d: IdeaDecomposition, s: SynthesisResult, k: LeverKind)
    ensures HasLever(AllLevers(d, s), k) <==> LeverApplies(k, d, s)
    ensures LeverApplies(k, d, s) ==>
      LeverWithin(AllLevers(d, s), k, |MitigationLevers(Take(s.failureModes, 3))| + LeverRank(k))
  {
    AllLeversLayout(d, s);
    LeverKindsMeaning(d, s);
    FixedLeverPresence(AllLevers(d, s), |MitigationLevers(Take(s.failureModes, 3))|, LeverKinds(d, s), k);
  }

  /** Cutting a list to six keeps a prefix; a fixed lever found within the first six survives,
      and one that is dropped was dropped from a full cut. */
  lemma CutLevers(all: seq<Lever>, k: LeverKind, applies: bool, bound: nat)
    requires HasLever(all, k) <==> applies
    requires applies ==> LeverWithin(all, k, bound)
    ensures var cut := Take(all, MAX_LEVERS);
      && |cut| <= MAX_LEVERS && cut == all[..|cut|]
      && (HasLever(cut, k) ==> applies)
      && (applies && bound < MAX_LEVERS ==> HasLever(cut, k))
      && (applies && !HasLever(cut, k) ==> |cut| == MAX_LEVERS)
  {
    var cut := Take(all, MAX_LEVERS);
    if HasLever(cut, k) {
      var i :| 0 <= i < |cut| && cut[i].id == LeverId(k);
      assert all[i].id == LeverId(k);
    }
    if applies {
      var p :| 0 <= p <= bound && p < |all| && all[p].id == LeverId(k);
      if p < MAX_LEVERS {
        assert cut[p] == all[p];
      }
    }
  }

  /** The cut keeps a prefix and drops later levers first: a fixed lever is present only when it
      applies; the differentiation, validation and testing levers are present whenever they
      apply (at most three mitigation levers come before them), and a lever that applies but is
      missing was cut from a full list of six. */
  lemma LeversMeaning(d: IdeaDecomposition, s: SynthesisResult, k: LeverKind)
    ensures |Levers(d, s)| <= MAX_LEVERS
    ensures Levers(d, s) == AllLevers(d, s)[..|Levers(d, s)|]
    ensures HasLever(Levers(d, s), k) ==> LeverApplies(k, d, s)
    ensures LeverApplies(k, d, s) && LeverRank(k) <= 2 ==> HasLever(Levers(d, s), k)
    ensures LeverApplies(k, d, s) && !HasLever(Levers(d, s), k) ==> |Levers(d, s)| == MAX_LEVERS
  {
    var mit := |MitigationLevers(Take(s.failureModes, 3))|;
    AllLeversHold(d, s, k);
    CutLevers(AllLevers(d, s), k, LeverApplies(k, d, s), mit + LeverRank(k));
  }

  /** The mitigation levers come from the first three failure modes that have mitigations: a
      high impact exactly at probability 60 or more, medium effort, a product lever whose steps
      are the mitigations and whose description is the first of them. */
  lemma MitigationLeverFields(s: SynthesisResult, i: nat)
    requires i < |MitigationLevers(Take(s.failureModes, 3))|
    ensures var lever := MitigationLevers(Take(s.failureModes, 3))[i];
      exists m :: m in Take(s.failureModes, 3) && |m.mitigations| > 0
        && lever.id == MitigationId(i) && lever.title == "Mitigate: " + m.name
        && lever.description == m.mitigations[0] && lever.steps == m.mitigations
        && (lever.impact == High <==> m.probability >= 60) && lever.impact != Low
        && lever.effort == Medium && lever.category == ProductCategory
  {
    var modes := Take(s.failureModes, 3);
    MitigationLeversMeaning(modes);
    var kept := Collect(modes, Mitigated);
    CollectMeaning(modes, Mitigated);
    assert kept[i] in kept;
    var m :| m in modes && Mitigated(m) == Some(kept[i]);
  }

  /** Across the stages: a differentiation lever is due exactly when the market analysis found
      more than five competitors, since only the saturation risk has the Competition category. */
  lemma DifferentiationForCrowdedMarket(d: IdeaDecomposition, evidence: RetrievalResult, s: SynthesisResult)
    requires s.marketRisks == MarketRisks(d, evidence)
    ensures LeverApplies(Differentiation, d, s) <==> |evidence.competitors| > 5
  {
    var kinds := MarketRiskKinds(d, evidence);
    RisksForFields(kinds, evidence);
    MarketRisksMeaning(d, evidence, Saturation);
    RiskKindsMeaning(d, evidence, Saturation);
    if HasCompetitionRisk(s.marketRisks) {
      var i :| 0 <= i < |s.marketRisks| && s.marketRisks[i].category == COMPETITION;
      CompetitionCategoryOnlySaturation(kinds[i]);
      assert kinds[i] in kinds;
    }
    if |evidence.competitors| > 5 {
      var i :| 0 <= i < |kinds| && kinds[i] == Saturation;
    }
  }

  lemma CompetitionCategoryOnlySaturation(k: RiskKind)
    ensures RiskCategory(k) == COMPETITION <==> k == Saturation
  {
    assert RiskCategory(k)[0] == 'C' <==> k == Saturation;
  }

  // ---------------------------------------------------------------------------------------
  // generateWarnings

  /** Warnings are cut to this many. */
  const MAX_WARNINGS := 8

  function ModeWarningId(n: nat): string { "warn-" + NatToString(n) }

  function RiskWarningId(n: nat): string { "warn-mr-" + NatToString(n) }

  /** The warning for a failure mode; `n` is the number of warnings before it. A missing or
      empty first trigger falls back to a generic signal. */
  function ModeWarning(mode: FailureMode, n: nat): Warning {
    Warning(
      ModeWarningId(n),
      if |mode.triggers| > 0 && mode.triggers[0] != "" then mode.triggers[0] else "Signs of " + mode.name,
      "Early indicator of " + Lower(mode.name),
      if |mode.triggers| > 1 then mode.triggers[1] else "When pattern becomes consistent",
      "Track metrics related to " + BeforeFirstSpace(Lower(mode.name)),
      if mode.probability >= 60 then ELEVATED else MODERATE)
  }

  /** The warning for a market risk; `n` is the number of warnings before it. */
  function RiskWarning(risk: Risk, n: nat): Warning {
    Warning(
      RiskWarningId(n),
      risk.category + " deterioration",
      Take(risk.description, 100),
      if |risk.evidence| > 0 && risk.evidence[0] != "" then risk.evidence[0]
      else "Significant change in market conditions",
      "Monthly market analysis and competitor tracking",
      risk.level)
  }

  const RUNWAY_ID := "warn-runway"

  const RETENTION_ID := "warn-retention"

  const RUNWAY_WARNING := Warning(
    RUNWAY_ID, "Runway dropping below 6 months", "Cash runway insufficient for next fundraise or pivot",
    "Less than 6 months of operating capital", "Weekly cash flow monitoring", CRITICAL)

  const RETENTION_WARNING := Warning(
    RETENTION_ID, "Retention rate decline", "User/customer retention dropping below industry benchmarks",
    "Month-over-month retention drops below 80%", "Cohort analysis dashboard", ELEVATED)

  function ModeWarnings(modes: seq<FailureMode>): (r: seq<Warning>)
    ensures |r| == |modes| && forall i :: 0 <= i < |r| ==> r[i] == ModeWarning(modes[i], i)
  {
    seq(|modes|, i requires 0 <= i < |modes| => ModeWarning(modes[i], i))
  }

  function RiskWarnings(risks: seq<Risk>, offset: nat): (r: seq<Warning>)
    ensures |r| == |risks| && forall i :: 0 <= i < |r| ==> r[i] == RiskWarning(risks[i], offset + i)
  {
    seq(|risks|, i requires 0 <= i < |risks| => RiskWarning(risks[i], offset + i))
  }

  /** Every warning, before the cut. */
  function AllWarnings(s: SynthesisResult): seq<Warning> {
    var modes := Take(s.failureModes, 4);
    ModeWarnings(modes) + RiskWarnings(Take(s.marketRisks, 2), |modes|) + [RUNWAY_WARNING, RETENTION_WARNING]
  }

  /** `generateWarnings` */
  function Warnings(s: SynthesisResult): seq<Warning> {
    Take(AllWarnings(s), MAX_WARNINGS)
  }

  /** `generateWarnings`, pushing the warnings one by one. */
  method GenerateWarnings(s: SynthesisResult) returns (warnings: seq<Warning>)
    ensures warnings == Warnings(s)
  {
    warnings := [];
    var modes := Take(s.failureModes, 4);
    for i := 0 to |modes|
      invariant warnings == ModeWarnings(modes[..i])
    {
      warnings := warnings + [ModeWarning(modes[i], |warnings|)];
    }
    assert modes[..|modes|] == modes;
    var risks := Take(s.marketRisks, 2);
    for i := 0 to |risks|
      invariant warnings == ModeWarnings(modes) + RiskWarnings(risks[..i], |modes|)
    {
      warnings := warnings + [RiskWarning(risks[i], |warnings|)];
    }
    assert risks[..|risks|] == risks;
    warnings := warnings + [RUNWAY_WARNING];
    warnings := warnings + [RETENTION_WARNING];
    warnings := Take(warnings, MAX_WARNINGS);
  }

  /** At most four failure-mode warnings and at most two market-risk warnings come before the
      runway and retention warnings; with at most eight in all, the cut drops nothing. */
  lemma WarningsUncut(s: SynthesisResult)
    ensures |AllWarnings(s)| == Min(4, |s.failureModes|) + Min(2, |s.marketRisks|) + 2 <= MAX_WARNINGS
    ensures Warnings(s) == AllWarnings(s)
  {
  }

  /** The pieces of a list made of two lists and two more elements, at their indices. */
  lemma Pieces<T>(w: seq<T>, a: seq<T>, b: seq<T>, x: T, y: T)
    requires w == a + b + [x, y]
    ensures |w| == |a| + |b| + 2
    ensures forall i :: 0 <= i < |a| ==> w[i] == a[i]
    ensures forall i :: |a| <= i < |a| + |b| ==> w[i] == b[i - |a|]
    ensures w[|a| + |b|] == x && w[|a| + |b| + 1] == y
  {
  }

  /** A failure-mode warning is ELEVATED exactly at probability 60 or more, MODERATE otherwise. */
  lemma ModeWarningUrgencies(modes: seq<FailureMode>)
    ensures forall i :: 0 <= i < |modes| ==>
      (ModeWarnings(modes)[i].urgency == ELEVATED <==> modes[i].probability >= 60)
      && (ModeWarnings(modes)[i].urgency == ELEVATED || ModeWarnings(modes)[i].urgency == MODERATE)
  {
  }

  /** A market-risk warning has the risk's own level. */
  lemma RiskWarningUrgencies(risks: seq<Risk>, offset: nat)
    ensures forall i :: 0 <= i < |risks| ==> RiskWarnings(risks, offset)[i].urgency == risks[i].level
  {
  }

  /** A failure-mode warning is ELEVATED exactly at probability 60 or more and MODERATE
      otherwise; a market-risk warning has the risk's own level; the last two are the runway
      and retention warnings. */
  lemma WarningUrgencies(s: SynthesisResult)
    ensures var w, m, r := Warnings(s), Min(4, |s.failureModes|), Min(2, |s.marketRisks|);
      && |w| == m + r + 2
      && (forall i :: 0 <= i < m ==>
            (w[i].urgency == ELEVATED <==> s.failureModes[i].probability >= 60)
            && (w[i].urgency == ELEVATED || w[i].urgency == MODERATE))
      && (forall i :: m <= i < m + r ==> w[i].urgency == s.marketRisks[i - m].level)
      && w[m + r] == RUNWAY_WARNING && w[m + r + 1] == RETENTION_WARNING
  {
    var modes, risks := Take(s.failureModes, 4), Take(s.marketRisks, 2);
    WarningsUncut(s);
    Pieces(Warnings(s), ModeWarnings(modes), RiskWarnings(risks, |modes|), RUNWAY_WARNING, RETENTION_WARNING);
    ModeWarningUrgencies(modes);
    RiskWarningUrgencies(risks, |modes|);
  }

  /** The ids of a list of warnings: `m` failure-mode warnings, then `r` market-risk warnings
      numbered after them, then the runway and retention warnings. */
  predicate WarningLayout(w: seq<Warning>, m: nat, r: nat) {
    && |w| == m + r + 2
    && (forall i :: 0 <= i < m ==> w[i].id == ModeWarningId(i))
    && (forall i :: m <= i < m + r ==> w[i].id == RiskWarningId(i))
    && w[m + r].id == RUNWAY_ID && w[m + r + 1].id == RETENTION_ID
  }

  /** The failure-mode warnings are numbered from 0. */
  lemma ModeWarningIds(modes: seq<FailureMode>)
    ensures forall i :: 0 <= i < |modes| ==> ModeWarnings(modes)[i].id == ModeWarningId(i)
  {
  }

  /** The market-risk warnings are numbered from the offset. */
  lemma RiskWarningIds(risks: seq<Risk>, offset: nat)
    ensures forall i :: offset <= i < offset + |risks| ==> RiskWarnings(risks, offset)[i - offset].id == RiskWarningId(i)
  {
  }

  /** The warnings of some failure modes, then of some market risks numbered after them, then
      the runway and retention warnings are laid out by kind. */
  lemma LayoutOfWarnings(w: seq<Warning>, modes: seq<FailureMode>, risks: seq<Risk>)
    requires w == ModeWarnings(modes) + RiskWarnings(risks, |modes|) + [RUNWAY_WARNING, RETENTION_WARNING]
    ensures WarningLayout(w, |modes|, |risks|)
  {
    ModeWarningIds(modes);
    RiskWarningIds(risks, |modes|);
    Pieces(w, ModeWarnings(modes), RiskWarnings(risks, |modes|), RUNWAY_WARNING, RETENTION_WARNING);
  }

  /** The warnings are laid out by kind. */
  lemma WarningsLayout(s: SynthesisResult)
    ensures WarningLayout(Warnings(s), Min(4, |s.failureModes|), Min(2, |s.marketRisks|))
  {
    WarningsUncut(s);
    LayoutOfWarnings(Warnings(s), Take(s.failureModes, 4), Take(s.marketRisks, 2));
  }

  /** Two warnings of a layout never share an id: the character after "warn-" tells a
      failure-mode warning (a digit), a market-risk warning ("m") and the two fixed ones ("r")
      apart, and the fixed ones differ in the next character. */
  lemma WarningLayoutIdPair(w: seq<Warning>, m: nat, r: nat, i: nat, j: nat)
    requires WarningLayout(w, m, r) && i < j < |w|
    ensures w[i].id != w[j].id
  {
    if j < m {
      PrefixedInjective("warn-", i, j);
    } else if j < m + r {
      if i < m {
        assert IsDigit(w[i].id[5]) && w[j].id[5] == 'm';
      } else {
        PrefixedInjective("warn-mr-", i, j);
      }
    } else if i < m {
      assert IsDigit(w[i].id[5]) && w[j].id[5] == 'r';
    } else if i < m + r {
      assert w[i].id[5] == 'm' && w[j].id[5] == 'r';
    } else {
      assert w[i].id[6] == 'u' && w[j].id[6] == 'e';
    }
  }

  /** No two warnings share an id. */
  lemma WarningIdsDistinct(s: SynthesisResult)
    ensures forall i, j :: 0 <= i < j < |Warnings(s)| ==> Warnings(s)[i].id != Warnings(s)[j].id
  {
    var w, m, r := Warnings(s), Min(4, |s.failureModes|), Min(2, |s.marketRisks|);
    WarningsLayout(s);
    forall i, j | 0 <= i < j < |w| ensures w[i].id != w[j].id {
      WarningLayoutIdPair(w, m, r, i, j);
    }
  }

  // ---------------------------------------------------------------------------------------
  // scoreRisks

  /** `scoreRisks`: the risk score, the levers and the warnings. */
  method ScoreRisks(d: IdeaDecomposition, s: SynthesisResult) returns (r: ScoringResult)
    ensures r == ScoringResult(CalculateRiskScore(s), Levers(d, s), Warnings(s))
  {
    var riskScore := CalculateRiskScore(s);
    var levers := GenerateLevers(d, s);
    var warnings := GenerateWarnings(s);
    r := ScoringResult(riskScore, levers, warnings);
  }
}

/** The entities of the premortem report (a model of `src/lib/types.ts`). Identifiers and
    timestamps built from the clock or a random source are not modelled. */
module Types {
  import opened Wrappers

  /** The four-level ordinal risk scale. */
  datatype RiskLevel = CRITICAL | ELEVATED | MODERATE | LOW

  datatype Citation = Citation(
    id: string,
    source: string,
    url: Option<string>,
    title: string,
    snippet: string,
    relevanceScore: Option<int>)

  datatype Risk = Risk(
    id: string,
    category: string,
    title: string,
    description: string,
    level: RiskLevel,
    evidence: seq<string>,
    citations: seq<string>,
    historicalPrevalence: Option<int>)

  datatype FailureMode = FailureMode(
    id: string,
    name: string,
    description: string,
    probability: nat,
    timeframe: string,
    triggers: seq<string>,
    mitigations: seq<string>,
    citations: seq<string>)

  /** `Challenge.type`: regulatory, distribution, technical, market or operational. */
  datatype ChallengeType = RegulatoryType | DistributionType | TechnicalType | MarketType | OperationalType

  datatype Challenge = Challenge(
    id: string,
    kind: ChallengeType,
    title: string,
    description: string,
    severity: RiskLevel,
    citations: seq<string>)

  /** `Comparable.outcome`: failed, pivoted, survived, acquired or ipo. */
  datatype Outcome = Failed | Pivoted | Survived | Acquired | Ipo

  datatype Comparable = Comparable(
    id: string,
    name: string,
    description: string,
    outcome: Outcome,
    yearFounded: Option<int>,
    yearOutcome: Option<int>,
    fundingRaised: Option<string>,
    moneyBurned: Option<string>,
    failureReason: Option<string>,
    lessonsLearned: seq<string>,
    similarities: seq<string>,
    differences: seq<string>)

  /** Impact and effort of a lever: high, medium or low. */
  datatype Degree = High | Medium | Low

  datatype LeverCategory = ProductCategory | MarketCategory | BusinessModelCategory | TeamCategory | TimingCategory

  datatype Lever = Lever(
    id: string,
    title: string,
    description: string,
    impact: Degree,
    effort: Degree,
    category: LeverCategory,
    steps: seq<string>)

  datatype Warning = Warning(
    id: string,
    signal: string,
    description: string,
    threshold: string,
    monitoringMethod: string,
    urgency: RiskLevel)

  /** Exactly the five named sub-scores of a risk score. */
  datatype Breakdown = Breakdown(
    market: RiskLevel,
    timing: RiskLevel,
    regulatory: RiskLevel,
    competition: RiskLevel,
    execution: RiskLevel)

  datatype RiskScore = RiskScore(
    overall: RiskLevel,
    confidence: int,
    breakdown: Breakdown,
    disclaimer: string)

  datatype IdeaDecomposition = IdeaDecomposition(
    valueProposition: string,
    targetMarket: string,
    businessModel: string,
    keyAssumptions: seq<string>,
    testableHypotheses: seq<string>)

  /** The four pipeline stages, in execution order. */
  datatype Stage = Decomposition | Retrieval | Synthesis | Scoring

  /** `PremortemReport.status`. */
  datatype ReportStatus = Generating | Complete | Failure

  datatype PipelineProgress = PipelineProgress(
    currentStage: Stage,
    stageProgress: int,
    stageMessage: string,
    completedStages: seq<Stage>)

  datatype PerplexityResponse = PerplexityResponse(
    content: string,
    citations: seq<Citation>,
    model: string,
    promptTokens: nat,
    completionTokens: nat)

  // The ranges the type declarations document in their comments.

  predicate IsPercent(n: int) { 0 <= n <= 100 }

  predicate ValidRisk(r: Risk) {
    r.historicalPrevalence.Some? ==> IsPercent(r.historicalPrevalence.value)
  }

  predicate ValidFailureMode(m: FailureMode) { IsPercent(m.probability) }

  predicate ValidRiskScore(s: RiskScore) { IsPercent(s.confidence) }

  predicate ValidProgress(p: PipelineProgress) { IsPercent(p.stageProgress) }
}

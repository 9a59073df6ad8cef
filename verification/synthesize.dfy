/** Pipeline stage 3, failure-pattern synthesis (a model of `src/lib/pipeline/synthesize.ts`):
    failure modes from a keyword-keyed catalogue and from the research reply, threshold rules for
    market, timing, regulatory and distribution risks, and the split of comparables. Record ids
    keep their fixed prefix and index; their timestamp and random parts are not modelled. */
module Synthesize {
  import opened Wrappers
  import opened Seqs
  import opened Text
  import opened Types
  import opened Patterns
  import opened Startups
  import opened Retrieve
  import opened Dedup

  datatype SynthesisResult = SynthesisResult(
    failureModes: seq<FailureMode>,
    marketRisks: seq<Risk>,
    timingRisks: seq<Risk>,
    regulatoryRisks: seq<Risk>,
    distributionChallenges: seq<Challenge>,
    failedComparables: seq<Comparable>,
    survivingComparables: seq<Comparable>,
    citations: seq<Citation>)

  // ---------------------------------------------------------------------------------------
  // The failure-mode catalogue

  /** The six entries of the failure-mode catalogue. */
  datatype CatalogueEntry = ChickenAndEgg | ChurnSpiral | CacBlowout | ViralLoop | AiCommoditization | PrematureScaling

  /** The position of an entry in the catalogue, which its id carries. */
  function CatalogueIndex(e: CatalogueEntry): nat {
    match e
    case ChickenAndEgg => 1
    case ChurnSpiral => 2
    case CacBlowout => 3
    case ViralLoop => 4
    case AiCommoditization => 5
    case PrematureScaling => 6
  }

  function CatalogueName(e: CatalogueEntry): string {
    match e
    case ChickenAndEgg => "Chicken-and-Egg Problem"
    case ChurnSpiral => "Churn Death Spiral"
    case CacBlowout => "CAC Blowout"
    case ViralLoop => "Viral Loop Failure"
    case AiCommoditization => "AI Commoditization"
    case PrematureScaling => "Premature Scaling"
  }

  function CatalogueDescription(e: CatalogueEntry): string {
    match e
    case ChickenAndEgg => "Failure to achieve critical mass on both supply and demand sides simultaneously"
    case ChurnSpiral => "Customer churn rate exceeds acquisition rate, leading to inevitable decline"
    case CacBlowout => "Customer acquisition costs exceed lifetime value, making growth unprofitable"
    case ViralLoop => "Product fails to achieve organic viral growth, requiring unsustainable paid acquisition"
    case AiCommoditization => "Large incumbents release similar AI features, eliminating startup advantage"
    case PrematureScaling => "Scaling operations before achieving product-market fit, burning capital inefficiently"
  }

  /** The catalogue's probabilities lie between 50 and 75 percent. */
  function CatalogueProbability(e: CatalogueEntry): (p: nat)
    ensures 50 <= p <= 75
  {
    match e
    case ChickenAndEgg => 70
    case ChurnSpiral => 60
    case CacBlowout => 55
    case ViralLoop => 75
    case AiCommoditization => 65
    case PrematureScaling => 50
  }

  function CatalogueTimeframe(e: CatalogueEntry): string {
    match e
    case ChickenAndEgg => "6-18 months"
    case ChurnSpiral => "12-24 months"
    case CacBlowout => "12-18 months"
    case ViralLoop => "3-12 months"
    case AiCommoditization => "6-18 months"
    case PrematureScaling => "12-24 months"
  }

  function CatalogueTriggers(e: CatalogueEntry): seq<string> {
    match e
    case ChickenAndEgg => ["Imbalanced growth between supply/demand", "High churn on one side", "Poor unit economics early on"]
    case ChurnSpiral => ["Monthly churn > 5%", "Declining engagement metrics", "Feature requests not addressed"]
    case CacBlowout => ["Rising ad costs", "Declining conversion rates", "LTV < 3x CAC"]
    case ViralLoop => ["K-factor < 1", "Low sharing/invite rate", "Poor retention D1/D7/D30"]
    case AiCommoditization => ["Foundation model improvements", "Big tech feature announcements", "Open source alternatives"]
    case PrematureScaling => ["Hiring ahead of revenue", "Multiple market expansion", "Feature bloat"]
  }

  function CatalogueMitigations(e: CatalogueEntry): seq<string> {
    match e
    case ChickenAndEgg => ["Focus on one side first", "Create artificial supply", "Geographic concentration"]
    case ChurnSpiral => ["Focus on activation and onboarding", "Build switching costs", "Customer success program"]
    case CacBlowout => ["Organic growth channels", "Product-led growth", "Referral programs"]
    case ViralLoop => ["Build sharing into core loop", "Incentivize referrals", "Community building"]
    case AiCommoditization => ["Proprietary data moat", "Vertical specialization", "Workflow integration"]
    case PrematureScaling => ["Focus on one market segment", "Validate before scaling", "Lean operations"]
  }

  function ModeId(n: nat): string { "fm-" + NatToString(n) }

  lemma ModeIdInjective(a: nat, b: nat)
    ensures ModeId(a) == ModeId(b) ==> a == b
  {
    PrefixedInjective("fm-", a, b);
  }

  /** The failure mode a catalogue entry stands for. */
  function CatalogueMode(e: CatalogueEntry): FailureMode {
    FailureMode(
      ModeId(CatalogueIndex(e)), CatalogueName(e), CatalogueDescription(e), CatalogueProbability(e),
      CatalogueTimeframe(e), CatalogueTriggers(e), CatalogueMitigations(e), [])
  }

  // Single facts about a catalogue mode, kept apart so that no proof has to look at the
  // catalogue's texts.

  lemma CatalogueModeProbability(e: CatalogueEntry)
    ensures CatalogueMode(e).probability == CatalogueProbability(e)
  {
  }

  lemma CatalogueModeName(e: CatalogueEntry)
    ensures CatalogueMode(e).name == CatalogueName(e)
  {
  }

  /** The four keyword tests `analyzeFailurePatterns` applies to the lower-cased business
      model. */
  datatype Traits = Traits(marketplace: bool, subscription: bool, consumerApp: bool, aiModel: bool)

  function TraitsOf(model: string): Traits {
    Traits(
      Contains(model, "marketplace"),
      Contains(model, "saas") || Contains(model, "subscription"),
      Contains(model, "consumer") || Contains(model, "app"),
      Contains(model, "ai") || Contains(model, "ml"))
  }

  /** The entries a business model with these traits calls for, in catalogue order: the
      conditional pushes of `analyzeFailurePatterns`. */
  function EntriesFor(t: Traits): seq<CatalogueEntry> {
    (if t.marketplace then [ChickenAndEgg] else [])
    + (if t.subscription then [ChurnSpiral, CacBlowout] else [])
    + (if t.consumerApp then [ViralLoop] else [])
    + (if t.aiModel then [AiCommoditization] else [])
    + [PrematureScaling]
  }

  function CatalogueEntries(model: string): seq<CatalogueEntry> {
    EntriesFor(TraitsOf(model))
  }

  function ModesOf(entries: seq<CatalogueEntry>): (r: seq<FailureMode>)
    ensures |r| == |entries|
  {
    seq(|entries|, i requires 0 <= i < |entries| => CatalogueMode(entries[i]))
  }

  /** `analyzeFailurePatterns`: the catalogue modes the business model calls for. */
  function AnalyzeFailurePatterns(businessModel: string): seq<FailureMode> {
    ModesOf(CatalogueEntries(Lower(businessModel)))
  }

  /** The entries come in catalogue order, hence without repetition, and end with premature
      scaling. */
  lemma EntriesOrdered(t: Traits)
    ensures var r := EntriesFor(t);
      && 1 <= |r| <= 6
      && r[|r| - 1] == PrematureScaling
      && forall i, j :: 0 <= i < j < |r| ==> CatalogueIndex(r[i]) < CatalogueIndex(r[j])
  {
  }

  /** The trait that selects an entry; premature scaling applies to every model. */
  predicate Applies(e: CatalogueEntry, t: Traits) {
    match e
    case ChickenAndEgg => t.marketplace
    case ChurnSpiral => t.subscription
    case CacBlowout => t.subscription
    case ViralLoop => t.consumerApp
    case AiCommoditization => t.aiModel
    case PrematureScaling => true
  }

  /** An entry is called for exactly when its trait holds. */
  lemma EntriesPresent(t: Traits, e: CatalogueEntry)
    ensures e in EntriesFor(t) <==> Applies(e, t)
  {
    var a := if t.marketplace then [ChickenAndEgg] else [];
    var b := if t.subscription then [ChurnSpiral, CacBlowout] else [];
    var c := if t.consumerApp then [ViralLoop] else [];
    var d := if t.aiModel then [AiCommoditization] else [];
    assert EntriesFor(t) == a + b + c + d + [PrematureScaling];
  }

  /** The six catalogue names differ even ignoring case: those of equal length differ in their
      first letter. */
  lemma CatalogueNamesDistinct(a: CatalogueEntry, b: CatalogueEntry)
    requires a != b
    ensures Lower(CatalogueName(a)) != Lower(CatalogueName(b))
  {
    if |CatalogueName(a)| == |CatalogueName(b)| {
      assert Lower(CatalogueName(a))[0] != Lower(CatalogueName(b))[0];
    }
  }

  /** No two modes for entries in catalogue order share a name, even ignoring case. */
  lemma ModesDistinct(entries: seq<CatalogueEntry>)
    requires forall i, j :: 0 <= i < j < |entries| ==> CatalogueIndex(entries[i]) < CatalogueIndex(entries[j])
    ensures DistinctKeys(ModesOf(entries), NameKey)
  {
    var r := ModesOf(entries);
    forall i, j | 0 <= i < j < |r| ensures NameKey(r[i]) != NameKey(r[j]) {
      CatalogueModeName(entries[i]);
      CatalogueModeName(entries[j]);
      CatalogueNamesDistinct(entries[i], entries[j]);
    }
  }

  /** Catalogue modes have probabilities between 50 and 75 percent. */
  lemma ModesValid(entries: seq<CatalogueEntry>)
    ensures forall f :: f in ModesOf(entries) ==> ValidFailureMode(f) && 50 <= f.probability <= 75
  {
    var r := ModesOf(entries);
    forall f | f in r ensures ValidFailureMode(f) && 50 <= f.probability <= 75 {
      var i :| 0 <= i < |r| && r[i] == f;
      CatalogueModeProbability(entries[i]);
    }
  }

  /** The catalogue modes for a business model have names distinct ignoring case and
      probabilities between 50 and 75 percent. */
  lemma AnalyzeFailurePatternsValid(businessModel: string)
    ensures DistinctKeys(AnalyzeFailurePatterns(businessModel), NameKey)
    ensures forall f :: f in AnalyzeFailurePatterns(businessModel) ==> ValidFailureMode(f) && 50 <= f.probability <= 75
  {
    var entries := CatalogueEntries(Lower(businessModel));
    EntriesOrdered(TraitsOf(Lower(businessModel)));
    ModesDistinct(entries);
    ModesValid(entries);
  }

  // ---------------------------------------------------------------------------------------
  // Failure modes parsed from the research reply

  const DEFAULT_PROBABILITY := 50
  const DEFAULT_TIMEFRAME := "12-24 months"

  /** The failure mode one section describes (its id is set by its position): sections shorter
      than 50 characters, without a name, or with a trimmed name outside 5..100 characters are
      skipped. */
  function FailureModeOf(m: Matchers, section: string): Option<FailureMode> {
    if |section| < 50 then None
    else
      match m.failureName(section)
      case None => None
      case Some(raw) =>
        var name := Trim(raw);
        if |name| < 5 || |name| > 100 then None
        else Some(FailureMode(
          "", name, Trim(RemoveDoubleStars(Take(section, 200))),
          m.percent(section).GetOr(DEFAULT_PROBABILITY),
          m.timeframe(section).GetOr(DEFAULT_TIMEFRAME), [], [], []))
  }

  /** Gives each mode the id of its position. */
  function Numbered(modes: seq<FailureMode>): (r: seq<FailureMode>)
    ensures |r| == |modes|
    ensures forall i :: 0 <= i < |r| ==> r[i] == modes[i].(id := ModeId(i))
  {
    seq(|modes|, i requires 0 <= i < |modes| => modes[i].(id := ModeId(i)))
  }

  /** `FailureModeOf` for one set of patterns, as a function of the section. */
  function SectionMode(m: Matchers): string -> Option<FailureMode> {
    s => FailureModeOf(m, s)
  }

  function ParsedModesOf(m: Matchers, sections: seq<string>): seq<FailureMode> {
    Numbered(Collect(sections, SectionMode(m)))
  }

  lemma NumberedSnoc(modes: seq<FailureMode>, f: FailureMode)
    ensures Numbered(modes + [f]) == Numbered(modes) + [f.(id := ModeId(|modes|))]
  {
  }

  /** One more section adds its mode, numbered after the modes before it. */
  lemma ParsedModesStep(m: Matchers, sections: seq<string>, i: nat)
    requires i < |sections|
    ensures var before := ParsedModesOf(m, sections[..i]);
      ParsedModesOf(m, sections[..i + 1])
      == before + (match FailureModeOf(m, sections[i]) case Some(f) => [f.(id := ModeId(|before|))] case None => [])
  {
    CollectStep(sections, i, SectionMode(m));
    var before := Collect(sections[..i], SectionMode(m));
    match FailureModeOf(m, sections[i])
    case Some(f) => NumberedSnoc(before, f);
    case None =>
  }

  /** `parseFailureModes` */
  function ParsedFailureModes(m: Matchers, content: string): seq<FailureMode> {
    Take(ParsedModesOf(m, m.failureSections(content)), 5)
  }

  /** `parseFailureModes`, with its loop over the sections. */
  method ParseFailureModes(m: Matchers, content: string) returns (r: seq<FailureMode>)
    ensures r == ParsedFailureModes(m, content)
  {
    var sections := m.failureSections(content);
    var modes := [];
    for i := 0 to |sections|
      invariant modes == ParsedModesOf(m, sections[..i])
    {
      ParsedModesStep(m, sections, i);
      var section := sections[i];
      if |section| < 50 {
        continue;
      }
      var nameMatch := m.failureName(section);
      if nameMatch.None? {
        continue;
      }
      var name := Trim(nameMatch.value);
      if |name| < 5 || |name| > 100 {
        continue;
      }
      var probability := m.percent(section).GetOr(DEFAULT_PROBABILITY);
      var timeframe := m.timeframe(section).GetOr(DEFAULT_TIMEFRAME);
      var mode := FailureMode(ModeId(|modes|), name, Trim(RemoveDoubleStars(Take(section, 200))),
                              probability, timeframe, [], [], []);
      assert FailureModeOf(m, section) == Some(mode.(id := ""));
      modes := modes + [mode];
    }
    assert sections[..|sections|] == sections;
    r := Take(modes, 5);
  }

  /** A section yields a mode only when it has at least 50 characters; the mode has a trimmed
      name of 5 to 100 characters, the matched percentage or 50, and the matched timeframe or
      the default one. */
  lemma FailureModeOfMeaning(m: Matchers, section: string)
    ensures FailureModeOf(m, section).Some? ==>
      var f := FailureModeOf(m, section).value;
      && |section| >= 50
      && 5 <= |f.name| <= 100 && !IsSpace(f.name[0]) && !IsSpace(f.name[|f.name| - 1])
      && (m.percent(section).None? ==> f.probability == DEFAULT_PROBABILITY)
      && (m.timeframe(section).None? ==> f.timeframe == DEFAULT_TIMEFRAME)
      && f.triggers == [] && f.mitigations == [] && f.citations == []
  {
  }

  /** At most five parsed modes with distinct ids, each from a section of at least 50 characters. */
  lemma ParsedFailureModesShape(m: Matchers, content: string)
    ensures var r := ParsedFailureModes(m, content);
      && |r| <= 5
      && (forall i, j :: 0 <= i < j < |r| ==> r[i].id != r[j].id)
      && forall i :: 0 <= i < |r| ==>
           exists s :: s in m.failureSections(content) && |s| >= 50 && FailureModeOf(m, s) == Some(r[i].(id := ""))
  {
    var sections := m.failureSections(content);
    var all := Collect(sections, SectionMode(m));
    CollectMeaning(sections, SectionMode(m));
    var r := ParsedFailureModes(m, content);
    forall i, j | 0 <= i < j < |r| ensures r[i].id != r[j].id {
      ModeIdInjective(i, j);
    }
    forall i | 0 <= i < |r|
      ensures exists s :: s in sections && |s| >= 50 && FailureModeOf(m, s) == Some(r[i].(id := ""))
    {
      assert all[i] in all;
      var s :| s in sections && FailureModeOf(m, s) == Some(all[i]);
      assert all[i].id == "";
      assert r[i].(id := "") == all[i];
      FailureModeOfMeaning(m, s);
    }
  }

  // ---------------------------------------------------------------------------------------
  // identifyFailureModes

  /** Failure modes are told apart by their lower-cased name. */
  function NameKey(f: FailureMode): string { Lower(f.name) }

  /** The modes `identifyFailureModes` returns for the parsed and the catalogue modes. */
  function CombinedModes(parsed: seq<FailureMode>, catalogue: seq<FailureMode>): seq<FailureMode> {
    Take(DedupBy(parsed + catalogue, NameKey), 7)
  }

  /** `identifyFailureModes`: the catalogue for the business model, the modes parsed from the
      reply (none when the query failed), duplicates by name removed and seven kept. The
      reply's citations are appended to `citations`. */
  method IdentifyFailureModes(
    d: IdeaDecomposition, m: Matchers, reply: Result<PerplexityResponse>, citations: seq<Citation>)
    returns (modes: seq<FailureMode>, citationsOut: seq<Citation>)
    ensures citationsOut == citations + ReplyCitations(reply)
    ensures modes == CombinedModes(
      if reply.Ok? then ParsedFailureModes(m, reply.value.content) else [],
      AnalyzeFailurePatterns(d.businessModel))
  {
    var patterns := AnalyzeFailurePatterns(d.businessModel);
    var parsedModes := [];
    citationsOut := citations;
    if reply.Ok? {
      citationsOut := citationsOut + reply.value.citations;
      parsedModes := ParseFailureModes(m, reply.value.content);
    }
    var failureModes := parsedModes + patterns;
    var unique := DedupByKey(failureModes, NameKey);
    modes := Take(unique, 7);
  }

  /** At most seven modes, no two with names equal up to case, every one from the parsed or the
      catalogue modes, and the parsed modes (deduplicated) first. */
  lemma CombinedModesShape(parsed: seq<FailureMode>, catalogue: seq<FailureMode>)
    ensures var r := CombinedModes(parsed, catalogue);
      && |r| <= 7
      && DistinctKeys(r, NameKey)
      && (forall f :: f in r ==> f in parsed || f in catalogue)
      && (Take(DedupBy(parsed, NameKey), 7) <= r)
  {
    var all := DedupBy(parsed + catalogue, NameKey);
    DedupByMeaning(parsed + catalogue, NameKey);
    SubsequenceIsSubset(all, parsed + catalogue);
    DedupByPrefix(parsed, catalogue, NameKey);
    var r := Take(all, 7);
    forall f | f in r ensures f in parsed || f in catalogue {
      var i :| 0 <= i < |r| && r[i] == f;
      assert all[i] in all;
    }
  }

  /** A mode whose name no earlier mode has survives deduplication, and so is reported when
      there is room for all the modes. */
  lemma {:induction false} UniqueNameKept(parsed: seq<FailureMode>, catalogue: seq<FailureMode>, i: nat)
    requires i < |parsed + catalogue| <= 7
    requires forall j :: 0 <= j < i ==> NameKey((parsed + catalogue)[j]) != NameKey((parsed + catalogue)[i])
    ensures (parsed + catalogue)[i] in CombinedModes(parsed, catalogue)
  {
    var all := parsed + catalogue;
    DedupByKeepsFirst(all, NameKey, i);
    DedupByMeaning(all, NameKey);
    SubsequenceIsSubset(DedupBy(all, NameKey), all);
  }

  /** When there is room, the mode of every entry among the catalogue modes is reported
      unless a parsed mode already has its name. */
  lemma {:induction false} ModeKept(parsed: seq<FailureMode>, entries: seq<CatalogueEntry>, k: nat)
    requires k < |entries|
    requires DistinctKeys(ModesOf(entries), NameKey)
    requires forall f :: f in parsed ==> NameKey(f) != Lower(CatalogueName(entries[k]))
    requires |parsed| + |entries| <= 7
    ensures CatalogueMode(entries[k]) in CombinedModes(parsed, ModesOf(entries))
  {
    var catalogue := ModesOf(entries);
    var all := parsed + catalogue;
    var i := |parsed| + k;
    CatalogueModeName(entries[k]);
    assert all[i] == catalogue[k] == CatalogueMode(entries[k]);
    forall j | 0 <= j < i ensures NameKey(all[j]) != NameKey(all[i]) {
      if j < |parsed| {
        assert all[j] in parsed;
      } else {
        assert all[j] == catalogue[j - |parsed|];
      }
    }
    UniqueNameKept(parsed, catalogue, i);
  }

  /** When there is room, every catalogue mode the business model calls for is reported unless
      a parsed mode already has its name; premature scaling is called for by every model. */
  lemma CatalogueModeKept(parsed: seq<FailureMode>, businessModel: string, e: CatalogueEntry)
    requires Applies(e, TraitsOf(Lower(businessModel)))
    requires forall f :: f in parsed ==> NameKey(f) != Lower(CatalogueName(e))
    requires |parsed| + |CatalogueEntries(Lower(businessModel))| <= 7
    ensures CatalogueMode(e) in CombinedModes(parsed, AnalyzeFailurePatterns(businessModel))
  {
    var t := TraitsOf(Lower(businessModel));
    var entries := EntriesFor(t);
    EntriesPresent(t, e);
    var k :| 0 <= k < |entries| && entries[k] == e;
    EntriesOrdered(t);
    ModesDistinct(entries);
    ModeKept(parsed, entries, k);
  }

  // ---------------------------------------------------------------------------------------
  // Market and timing risks

  /** The five fixed rules of `identifyMarketRisks` and `identifyTimingRisks`. */
  datatype RiskKind = Saturation | PriorFailures | LimitedSize | AiHype | LateEntry

  predicate IsMarketKind(k: RiskKind) { k == Saturation || k == PriorFailures || k == LimitedSize }

  function RiskId(k: RiskKind): string {
    match k
    case Saturation => "mr-1"
    case PriorFailures => "mr-2"
    case LimitedSize => "mr-3"
    case AiHype => "tr-1"
    case LateEntry => "tr-2"
  }

  function RiskCategory(k: RiskKind): string {
    match k
    case Saturation => "Competition"
    case PriorFailures => "Market Validation"
    case LimitedSize => "Market Size"
    case AiHype => "Technology Timing"
    case LateEntry => "Market Timing"
  }

  function RiskTitle(k: RiskKind): string {
    match k
    case Saturation => "High Market Saturation"
    case PriorFailures => "Prior Market Failures"
    case LimitedSize => "Limited Market Size"
    case AiHype => "AI Hype Cycle Risk"
    case LateEntry => "Late Market Entry"
  }

  /** The historical prevalence each rule reports, a percentage. */
  function RiskPrevalence(k: RiskKind): (p: int)
    ensures IsPercent(p)
  {
    match k
    case Saturation => 70
    case PriorFailures => 60
    case LimitedSize => 40
    case AiHype => 55
    case LateEntry => 45
  }

  /** A competitor whose status says it shut down or failed. */
  predicate HasFailed(c: CompetitorData) {
    var status := Lower(c.status);
    Contains(status, "shut") || Contains(status, "failed")
  }

  function KeepFailed(c: CompetitorData): Option<CompetitorData> {
    if HasFailed(c) then Some(c) else None
  }

  function FailedCompetitors(competitors: seq<CompetitorData>): seq<CompetitorData> {
    Collect(competitors, KeepFailed)
  }

  function FailureEvidence(failed: seq<CompetitorData>): (r: seq<string>)
    ensures |r| == |failed|
  {
    seq(|failed|, i requires 0 <= i < |failed| => failed[i].name + " - " + failed[i].status)
  }

  /** A market size that reads as unknown or in millions. */
  predicate SmallMarket(size: string) { size == UNKNOWN || Contains(size, "million") }

  /** A lower-cased value proposition mentioning AI. */
  predicate MentionsAi(valueProposition: string) {
    var v := Lower(valueProposition);
    Contains(v, "ai") || Contains(v, "gpt") || Contains(v, "llm")
  }

  /** Market trends that, joined and lower-cased, speak of decline or maturity. */
  predicate SignalsMaturity(trends: seq<string>) {
    && trends != []
    && var text := Lower(Join(trends, " "));
       Contains(text, "declining") || Contains(text, "mature")
  }

  /** The condition under which each rule raises its risk. */
  predicate Raised(k: RiskKind, d: IdeaDecomposition, evidence: RetrievalResult) {
    match k
    case Saturation => |evidence.competitors| > 5
    case PriorFailures => |FailedCompetitors(evidence.competitors)| > 0
    case LimitedSize => SmallMarket(evidence.marketData.size)
    case AiHype => MentionsAi(d.valueProposition)
    case LateEntry => SignalsMaturity(evidence.marketData.trends)
  }

  /** A count followed by a text, as a template literal renders it. */
  function Counted(n: nat, text: string): string { NatToString(n) + text }

  function RiskDescription(k: RiskKind, evidence: RetrievalResult): string {
    match k
    case Saturation =>
      Counted(|evidence.competitors|, "+ competitors identified in this space, indicating potential commoditization")
    case PriorFailures =>
      Counted(|FailedCompetitors(evidence.competitors)|, " similar companies have failed in this market")
    case LimitedSize => "Market may be too small to support a venture-scale outcome"
    case AiHype => "Entering AI market during peak hype - high competition, inflated expectations, potential correction"
    case LateEntry => "Market shows signs of maturity or decline"
  }

  function RiskLevelOf(k: RiskKind, evidence: RetrievalResult): RiskLevel {
    match k
    case Saturation => if |evidence.competitors| > 10 then CRITICAL else ELEVATED
    case PriorFailures => if |FailedCompetitors(evidence.competitors)| > 2 then CRITICAL else ELEVATED
    case LimitedSize => MODERATE
    case AiHype => ELEVATED
    case LateEntry => ELEVATED
  }

  function RiskEvidence(k: RiskKind, evidence: RetrievalResult): seq<string> {
    match k
    case Saturation => [Counted(|evidence.competitors|, " competitors found")]
    case PriorFailures => FailureEvidence(FailedCompetitors(evidence.competitors))
    case LimitedSize => ["Market size: " + evidence.marketData.size]
    case AiHype => ["2023-2025 AI funding boom", "Rapid model commoditization"]
    case LateEntry => evidence.marketData.trends
  }

  /** The risk record a rule pushes. */
  function RiskFor(k: RiskKind, evidence: RetrievalResult): Risk {
    Risk(
      RiskId(k), RiskCategory(k), RiskTitle(k), RiskDescription(k, evidence), RiskLevelOf(k, evidence),
      RiskEvidence(k, evidence), [], Some(RiskPrevalence(k)))
  }

  /** The rules of `identifyMarketRisks` that fire, in order. */
  function MarketRiskKinds(d: IdeaDecomposition, evidence: RetrievalResult): seq<RiskKind> {
    (if Raised(Saturation, d, evidence) then [Saturation] else [])
    + (if Raised(PriorFailures, d, evidence) then [PriorFailures] else [])
    + (if Raised(LimitedSize, d, evidence) then [LimitedSize] else [])
  }

  /** The rules of `identifyTimingRisks` that fire, in order. */
  function TimingRiskKinds(d: IdeaDecomposition, evidence: RetrievalResult): seq<RiskKind> {
    (if Raised(AiHype, d, evidence) then [AiHype] else [])
    + (if Raised(LateEntry, d, evidence) then [LateEntry] else [])
  }

  function RisksFor(kinds: seq<RiskKind>, evidence: RetrievalResult): (r: seq<Risk>)
    ensures |r| == |kinds|
  {
    seq(|kinds|, i requires 0 <= i < |kinds| => RiskFor(kinds[i], evidence))
  }

  /** `identifyMarketRisks` */
  function MarketRisks(d: IdeaDecomposition, evidence: RetrievalResult): seq<Risk> {
    RisksFor(MarketRiskKinds(d, evidence), evidence)
  }

  /** `identifyTimingRisks` */
  function TimingRisks(d: IdeaDecomposition, evidence: RetrievalResult): seq<Risk> {
    RisksFor(TimingRiskKinds(d, evidence), evidence)
  }

  /** Whether a list of risks holds the risk of a rule. */
  predicate Reports(risks: seq<Risk>, k: RiskKind) {
    exists i :: 0 <= i < |risks| && risks[i].id == RiskId(k)
  }

  lemma RiskIdsDistinct(a: RiskKind, b: RiskKind)
    requires a != b
    ensures RiskId(a) != RiskId(b)
  {
    if RiskId(a)[0] == RiskId(b)[0] {
      assert RiskId(a)[3] != RiskId(b)[3];
    }
  }

  /** The ids, prevalences and citations of the risks the rules push. */
  lemma RisksForFields(kinds: seq<RiskKind>, evidence: RetrievalResult)
    ensures forall i :: 0 <= i < |kinds| ==>
      var r := RisksFor(kinds, evidence)[i];
      && r.id == RiskId(kinds[i]) && r.category == RiskCategory(kinds[i])
      && r.level == RiskLevelOf(kinds[i], evidence)
      && r.evidence == RiskEvidence(kinds[i], evidence)
      && r.historicalPrevalence == Some(RiskPrevalence(kinds[i])) && r.citations == []
  {
  }

  /** Risks tagged with the ids of some rules report exactly those rules. */
  lemma {:induction false} ReportsExactly(risks: seq<Risk>, kinds: seq<RiskKind>, k: RiskKind)
    requires |risks| == |kinds|
    requires forall i :: 0 <= i < |risks| ==> risks[i].id == RiskId(kinds[i])
    ensures Reports(risks, k) <==> k in kinds
  {
    if Reports(risks, k) {
      var i :| 0 <= i < |risks| && risks[i].id == RiskId(k);
      if kinds[i] != k {
        RiskIdsDistinct(kinds[i], k);
      }
      assert kinds[i] in kinds;
    }
    if k in kinds {
      var i :| 0 <= i < |kinds| && kinds[i] == k;
      assert risks[i].id == RiskId(k);
    }
  }

  /** A list of pushed risks reports a rule exactly when the rule fired; the risks carry valid
      prevalences and no citations. */
  lemma RisksForMeaning(kinds: seq<RiskKind>, evidence: RetrievalResult, k: RiskKind)
    ensures Reports(RisksFor(kinds, evidence), k) <==> k in kinds
    ensures forall r :: r in RisksFor(kinds, evidence) ==> ValidRisk(r) && r.citations == []
  {
    RisksForFields(kinds, evidence);
    ReportsExactly(RisksFor(kinds, evidence), kinds, k);
  }

  /** The rules that fire for the market and for the timing, each exactly when its condition
      holds. */
  lemma RiskKindsMeaning(d: IdeaDecomposition, evidence: RetrievalResult, k: RiskKind)
    ensures k in MarketRiskKinds(d, evidence) <==> IsMarketKind(k) && Raised(k, d, evidence)
    ensures k in TimingRiskKinds(d, evidence) <==> !IsMarketKind(k) && Raised(k, d, evidence)
  {
  }

  /** `identifyMarketRisks` raises saturation for more than five competitors, prior failures
      when a competitor has failed, and limited size for an unknown or million-scale market;
      every risk has a valid prevalence and no citations. */
  lemma MarketRisksMeaning(d: IdeaDecomposition, evidence: RetrievalResult, k: RiskKind)
    ensures Reports(MarketRisks(d, evidence), k) <==> IsMarketKind(k) && Raised(k, d, evidence)
    ensures forall r :: r in MarketRisks(d, evidence) ==> ValidRisk(r) && r.citations == []
  {
    RisksForMeaning(MarketRiskKinds(d, evidence), evidence, k);
    RiskKindsMeaning(d, evidence, k);
  }

  /** `identifyTimingRisks` raises the AI risk when the value proposition mentions AI and the
      late-entry risk when the trends speak of decline or maturity. */
  lemma TimingRisksMeaning(d: IdeaDecomposition, evidence: RetrievalResult, k: RiskKind)
    ensures Reports(TimingRisks(d, evidence), k) <==> !IsMarketKind(k) && Raised(k, d, evidence)
    ensures forall r :: r in TimingRisks(d, evidence) ==> ValidRisk(r) && r.citations == []
  {
    RisksForMeaning(TimingRiskKinds(d, evidence), evidence, k);
    RiskKindsMeaning(d, evidence, k);
  }

  /** Only saturation beyond ten competitors and more than two prior failures are critical; the
      market-size risk is moderate and every other risk elevated. */
  lemma RiskLevelCases(k: RiskKind, evidence: RetrievalResult)
    ensures RiskLevelOf(k, evidence) == CRITICAL <==>
      (k == Saturation && |evidence.competitors| > 10)
      || (k == PriorFailures && |FailedCompetitors(evidence.competitors)| > 2)
    ensures RiskLevelOf(k, evidence) == MODERATE <==> k == LimitedSize
    ensures RiskLevelOf(k, evidence) != LOW
  {
  }

  /** A market risk is critical exactly when it is the saturation risk with more than ten
      competitors or the prior-failures risk with more than two failed ones. */
  lemma MarketRiskLevels(d: IdeaDecomposition, evidence: RetrievalResult)
    ensures forall r :: r in MarketRisks(d, evidence) ==>
      (r.level == CRITICAL <==>
         (r.id == RiskId(Saturation) && |evidence.competitors| > 10)
         || (r.id == RiskId(PriorFailures) && |FailedCompetitors(evidence.competitors)| > 2))
  {
    var kinds := MarketRiskKinds(d, evidence);
    var risks := MarketRisks(d, evidence);
    RisksForFields(kinds, evidence);
    forall r | r in risks
      ensures r.level == CRITICAL <==>
         (r.id == RiskId(Saturation) && |evidence.competitors| > 10)
         || (r.id == RiskId(PriorFailures) && |FailedCompetitors(evidence.competitors)| > 2)
    {
      var i :| 0 <= i < |risks| && risks[i] == r;
      RiskLevelCases(kinds[i], evidence);
      if kinds[i] != Saturation { RiskIdsDistinct(kinds[i], Saturation); }
      if kinds[i] != PriorFailures { RiskIdsDistinct(kinds[i], PriorFailures); }
    }
  }

  /** The competitor parser keeps at most ten competitors, so on retrieved evidence the
      saturation risk is never critical: its "more than ten" branch cannot fire. */
  lemma SaturationNeverCritical(
    d: IdeaDecomposition, m: Matchers,
    marketReply: Result<PerplexityResponse>,
    competitorReply: Result<PerplexityResponse>,
    regulatoryReply: Result<PerplexityResponse>,
    catalogue: seq<FailedStartup>)
    ensures var evidence := RetrieveEvidence(d, m, marketReply, competitorReply, regulatoryReply, catalogue);
      forall r :: r in MarketRisks(d, evidence) && r.id == RiskId(Saturation) ==> r.level != CRITICAL
  {
    var evidence := RetrieveEvidence(d, m, marketReply, competitorReply, regulatoryReply, catalogue);
    if competitorReply.Ok? {
      CompetitorsShape(m, competitorReply.value.content);
    }
    MarketRiskLevels(d, evidence);
    RiskIdsDistinct(Saturation, PriorFailures);
  }

  /** The competitors counted as prior failures are exactly those whose status says so. */
  lemma FailedCompetitorsMeaning(competitors: seq<CompetitorData>)
    ensures forall c :: c in FailedCompetitors(competitors) <==> c in competitors && HasFailed(c)
  {
    CollectMeaning(competitors, KeepFailed);
  }

  /** The prior-failures rule fires exactly when some competitor has failed, and its evidence
      names every failed competitor. */
  lemma PriorFailuresEvidence(d: IdeaDecomposition, evidence: RetrievalResult)
    ensures Raised(PriorFailures, d, evidence) <==> exists c :: c in evidence.competitors && HasFailed(c)
    ensures forall c :: c in evidence.competitors && HasFailed(c) ==>
      c.name + " - " + c.status in RiskEvidence(PriorFailures, evidence)
  {
    var failed := FailedCompetitors(evidence.competitors);
    FailedCompetitorsMeaning(evidence.competitors);
    if |failed| > 0 {
      assert failed[0] in failed;
    }
    var lines := RiskEvidence(PriorFailures, evidence);
    assert lines == FailureEvidence(failed);
    forall c | c in evidence.competitors && HasFailed(c)
      ensures c.name + " - " + c.status in lines
    {
      var i :| 0 <= i < |failed| && failed[i] == c;
      assert lines[i] == c.name + " - " + c.status;
    }
  }

  /** A single trend speaking of decline or maturity is enough for the late-entry risk. */
  lemma TrendSignalsMaturity(trends: seq<string>, i: nat)
    requires i < |trends|
    requires Contains(Lower(trends[i]), "declining") || Contains(Lower(trends[i]), "mature")
    ensures SignalsMaturity(trends)
  {
    var joined := Join(trends, " ");
    JoinContainsPart(trends, " ", i);
    LowerContains(joined, trends[i]);
    if Contains(Lower(trends[i]), "declining") {
      ContainsTransitive(Lower(joined), Lower(trends[i]), "declining");
    } else {
      ContainsTransitive(Lower(joined), Lower(trends[i]), "mature");
    }
  }

  // ---------------------------------------------------------------------------------------
  // Regulatory risks

  /** Whether a compliance cost is a dollar amount whose digits, read as one number, exceed
      50000 (every non-digit is dropped before `parseInt`, and no digits at all read as NaN). */
  function CostLevel(cost: string): RiskLevel {
    var digits := KeepDigits(cost);
    if Contains(cost, "$") && digits != [] && DigitsValue(digits) > 50000 then ELEVATED else MODERATE
  }

  function RegulatoryRiskId(idx: nat): string { "rr-" + NatToString(idx) }

  function RegulatoryRisk(reg: RegulatoryData, idx: nat): Risk {
    Risk(
      RegulatoryRiskId(idx), "Regulatory", reg.regulation + " Compliance Required",
      reg.jurisdiction + ": " + Take(reg.impact, 150), CostLevel(reg.complianceCost),
      ["Compliance cost: " + reg.complianceCost], [], Some(30))
  }

  /** `identifyRegulatoryRisks`: one risk per regulation, numbered by position. */
  function RegulatoryRisks(evidence: RetrievalResult): (r: seq<Risk>)
    ensures |r| == |evidence.regulations|
  {
    seq(|evidence.regulations|, i requires 0 <= i < |evidence.regulations| =>
      RegulatoryRisk(evidence.regulations[i], i))
  }

  lemma RegulatoryRiskFields(reg: RegulatoryData, idx: nat)
    ensures var r := RegulatoryRisk(reg, idx);
      && r.id == RegulatoryRiskId(idx) && r.level == CostLevel(reg.complianceCost)
      && r.historicalPrevalence == Some(30) && r.citations == []
  {
  }

  /** One risk per regulation, in order, with distinct ids, the level its compliance cost
      calls for, a valid prevalence and no citations. */
  lemma RegulatoryRisksMeaning(evidence: RetrievalResult)
    ensures var r := RegulatoryRisks(evidence);
      && (forall i, j :: 0 <= i < j < |r| ==> r[i].id != r[j].id)
      && forall i :: 0 <= i < |r| ==>
           && r[i].level == CostLevel(evidence.regulations[i].complianceCost)
           && ValidRisk(r[i]) && r[i].citations == []
  {
    var regs := evidence.regulations;
    var r := RegulatoryRisks(evidence);
    forall i | 0 <= i < |r|
      ensures r[i].level == CostLevel(regs[i].complianceCost) && ValidRisk(r[i]) && r[i].citations == []
    {
      RegulatoryRiskFields(regs[i], i);
    }
    forall i, j | 0 <= i < j < |r| ensures r[i].id != r[j].id {
      RegulatoryRiskFields(regs[i], i);
      RegulatoryRiskFields(regs[j], j);
      PrefixedInjective("rr-", i, j);
    }
  }

  /** A cost written as a dollar sign and a whole number is elevated exactly above $50,000. */
  lemma CostLevelOfAmount(n: nat)
    ensures CostLevel("$" + NatToString(n)) == ELEVATED <==> n > 50000
  {
    var cost := "$" + NatToString(n);
    assert OccursAt(cost, "$", 0);
    assert cost[1..] == NatToString(n);
    KeepDigitsOfDigits(NatToString(n));
    DigitsValueOfNatToString(n);
  }

  /** A cost in millions reads as its leading digits only: "$2 million" is moderate. */
  lemma MillionsReadAsDigits()
    ensures CostLevel("$2 million") == MODERATE
  {
    assert KeepDigits("$2 million") == "2";
  }

  // ---------------------------------------------------------------------------------------
  // Distribution challenges

  /** The three fixed challenges of `identifyDistributionChallenges`. */
  datatype ChallengeKind = EnterpriseSales | AppStoreDiscovery | PlatformDependency

  function ChallengeId(k: ChallengeKind): string {
    match k
    case EnterpriseSales => "dc-1"
    case AppStoreDiscovery => "dc-2"
    case PlatformDependency => "dc-3"
  }

  function ChallengeTitle(k: ChallengeKind): string {
    match k
    case EnterpriseSales => "Enterprise Sales Cycle"
    case AppStoreDiscovery => "App Store Discovery"
    case PlatformDependency => "Platform Dependency Risk"
  }

  function ChallengeDescription(k: ChallengeKind): string {
    match k
    case EnterpriseSales =>
      "Long sales cycles (3-12 months), require dedicated sales team, high customer acquisition cost"
    case AppStoreDiscovery =>
      "Extremely competitive app stores, high CAC, algorithm dependency for visibility"
    case PlatformDependency =>
      "Reliance on third-party platforms (Google, Apple, Meta) creates existential risk from policy changes"
  }

  function ChallengeSeverity(k: ChallengeKind): RiskLevel {
    match k
    case EnterpriseSales => ELEVATED
    case AppStoreDiscovery => CRITICAL
    case PlatformDependency => ELEVATED
  }

  /** The condition under which each challenge is raised. */
  predicate ChallengeApplies(k: ChallengeKind, d: IdeaDecomposition, evidence: RetrievalResult) {
    match k
    case EnterpriseSales =>
      var market := Lower(d.targetMarket);
      Contains(market, "enterprise") || Contains(market, "b2b")
    case AppStoreDiscovery =>
      var model := Lower(d.businessModel);
      Contains(model, "app") || Contains(model, "consumer")
    case PlatformDependency =>
      exists i :: 0 <= i < |evidence.competitors| && Contains(Lower(evidence.competitors[i].description), "platform")
  }

  function ChallengeKinds(d: IdeaDecomposition, evidence: RetrievalResult): seq<ChallengeKind> {
    (if ChallengeApplies(EnterpriseSales, d, evidence) then [EnterpriseSales] else [])
    + (if ChallengeApplies(AppStoreDiscovery, d, evidence) then [AppStoreDiscovery] else [])
    + (if ChallengeApplies(PlatformDependency, d, evidence) then [PlatformDependency] else [])
  }

  function ChallengeFor(k: ChallengeKind): Challenge {
    Challenge(ChallengeId(k), DistributionType, ChallengeTitle(k), ChallengeDescription(k), ChallengeSeverity(k), [])
  }

  /** `identifyDistributionChallenges` */
  function DistributionChallenges(d: IdeaDecomposition, evidence: RetrievalResult): (r: seq<Challenge>)
    ensures |r| == |ChallengeKinds(d, evidence)|
  {
    var kinds := ChallengeKinds(d, evidence);
    seq(|kinds|, i requires 0 <= i < |kinds| => ChallengeFor(kinds[i]))
  }

  lemma ChallengeIdsDistinct(a: ChallengeKind, b: ChallengeKind)
    requires a != b
    ensures ChallengeId(a) != ChallengeId(b)
  {
    assert ChallengeId(a)[3] != ChallengeId(b)[3];
  }

  /** Each challenge is raised exactly when its condition holds, at most once and in a fixed
      order. */
  lemma ChallengeKindsMeaning(d: IdeaDecomposition, evidence: RetrievalResult, k: ChallengeKind)
    ensures k in ChallengeKinds(d, evidence) <==> ChallengeApplies(k, d, evidence)
    ensures |ChallengeKinds(d, evidence)| <= 3
  {
  }

  lemma ChallengeKindsDistinct(d: IdeaDecomposition, evidence: RetrievalResult)
    ensures var kinds := ChallengeKinds(d, evidence);
      forall i, j :: 0 <= i < j < |kinds| ==> kinds[i] != kinds[j]
  {
  }

  /** Challenges tagged with the ids of distinct kinds have distinct ids. */
  lemma {:induction false} ChallengeIdsUnique(cs: seq<Challenge>, kinds: seq<ChallengeKind>)
    requires |cs| == |kinds|
    requires forall i :: 0 <= i < |cs| ==> cs[i].id == ChallengeId(kinds[i])
    requires forall i, j :: 0 <= i < j < |kinds| ==> kinds[i] != kinds[j]
    ensures forall i, j :: 0 <= i < j < |cs| ==> cs[i].id != cs[j].id
  {
    forall i, j | 0 <= i < j < |cs| ensures cs[i].id != cs[j].id {
      ChallengeIdsDistinct(kinds[i], kinds[j]);
    }
  }

  lemma ChallengeFields(d: IdeaDecomposition, evidence: RetrievalResult)
    ensures var kinds := ChallengeKinds(d, evidence);
      forall i :: 0 <= i < |kinds| ==>
        var c := DistributionChallenges(d, evidence)[i];
        c.id == ChallengeId(kinds[i]) && c.kind == DistributionType && c.severity == ChallengeSeverity(kinds[i])
  {
  }

  /** At most three challenges, all of the distribution type, with distinct ids; only the app
      store challenge is critical. */
  lemma DistributionChallengesMeaning(d: IdeaDecomposition, evidence: RetrievalResult)
    ensures var r := DistributionChallenges(d, evidence);
      && |r| <= 3
      && (forall i, j :: 0 <= i < j < |r| ==> r[i].id != r[j].id)
      && forall i :: 0 <= i < |r| ==>
           && r[i].kind == DistributionType
           && (r[i].severity == CRITICAL <==> r[i].id == ChallengeId(AppStoreDiscovery))
  {
    var kinds := ChallengeKinds(d, evidence);
    var r := DistributionChallenges(d, evidence);
    ChallengeFields(d, evidence);
    ChallengeKindsMeaning(d, evidence, AppStoreDiscovery);
    ChallengeKindsDistinct(d, evidence);
    ChallengeIdsUnique(r, kinds);
    forall i | 0 <= i < |r|
      ensures r[i].severity == CRITICAL <==> r[i].id == ChallengeId(AppStoreDiscovery)
    {
      if kinds[i] != AppStoreDiscovery {
        ChallengeIdsDistinct(kinds[i], AppStoreDiscovery);
      }
    }
  }

  /** The app store challenge is raised exactly for the business models whose catalogue
      includes the viral-loop failure mode. */
  lemma AppStoreMatchesViralLoop(d: IdeaDecomposition, evidence: RetrievalResult)
    ensures AppStoreDiscovery in ChallengeKinds(d, evidence)
        <==> ViralLoop in CatalogueEntries(Lower(d.businessModel))
  {
    ChallengeKindsMeaning(d, evidence, AppStoreDiscovery);
    EntriesPresent(TraitsOf(Lower(d.businessModel)), ViralLoop);
  }

  // ---------------------------------------------------------------------------------------
  // Comparables

  /** The category and the sector of a failure, each kept only when non-empty. */
  function Similarities(f: FailedStartup): (r: seq<string>)
    ensures forall s :: s in r ==> s != "" && (s == f.category || s == f.sector)
    ensures f.category != "" ==> f.category in r
    ensures f.sector != "" ==> f.sector in r
  {
    (if f.category != "" then [f.category] else []) + (if f.sector != "" then [f.sector] else [])
  }

  /** The failure reason, when there is a non-empty one, is its only lesson. */
  function Lessons(f: FailedStartup): (r: seq<string>)
    ensures r != [] <==> f.failureReason.Some? && f.failureReason.value != ""
    ensures r != [] ==> r == [f.failureReason.value]
  {
    if f.failureReason.Some? && f.failureReason.value != "" then [f.failureReason.value] else []
  }

  function FailedComparable(f: FailedStartup): Comparable {
    Comparable(
      f.id, f.name, f.description, Failed, None, Some(f.yearDied), None, Some(f.moneyBurned),
      f.failureReason, Lessons(f), Similarities(f), [])
  }

  /** The comparable of a competitor that has not failed; the random part of its id is not
      modelled. */
  function SurvivorOf(c: CompetitorData): Option<Comparable> {
    if HasFailed(c) then None
    else
      var outcome := if Contains(Lower(c.status), "acquired") then Acquired else Survived;
      Some(Comparable("comp-", c.name, c.description, outcome, None, None, c.funding, None, None, [], [], []))
  }

  datatype Comparables = Comparables(failed: seq<Comparable>, surviving: seq<Comparable>)

  /** `categorizeComparables`: the first five failures and the first five competitors that
      have not failed. */
  function CategorizeComparables(failures: seq<FailedStartup>, competitors: seq<CompetitorData>): (r: Comparables)
    ensures |r.failed| == Min(|failures|, 5) && |r.surviving| <= 5
  {
    var failed := seq(|failures|, i requires 0 <= i < |failures| => FailedComparable(failures[i]));
    Comparables(Take(failed, 5), Take(Collect(competitors, SurvivorOf), 5))
  }

  /** The failed comparables are the first five failures, field for field, all with a failed
      outcome. */
  lemma FailedComparablesMeaning(failures: seq<FailedStartup>, competitors: seq<CompetitorData>)
    ensures var r := CategorizeComparables(failures, competitors).failed;
      forall i :: 0 <= i < |r| ==>
        && r[i].id == failures[i].id && r[i].name == failures[i].name
        && r[i].outcome == Failed && r[i].yearOutcome == Some(failures[i].yearDied)
        && r[i].moneyBurned == Some(failures[i].moneyBurned)
        && r[i].lessonsLearned == Lessons(failures[i]) && r[i].similarities == Similarities(failures[i])
  {
  }

  /** A comparable describes a competitor that has not failed, with its name and funding, and
      is acquired exactly when the competitor's status says so. */
  predicate SurvivorFrom(s: Comparable, c: CompetitorData) {
    && !HasFailed(c) && s.name == c.name && s.fundingRaised == c.funding
    && (s.outcome == Acquired <==> Contains(Lower(c.status), "acquired"))
    && (s.outcome == Acquired || s.outcome == Survived)
  }

  /** Every surviving comparable comes from a competitor that has not failed, and is acquired
      exactly when that competitor's status says so. */
  lemma SurvivingComparablesMeaning(failures: seq<FailedStartup>, competitors: seq<CompetitorData>)
    ensures forall s :: s in CategorizeComparables(failures, competitors).surviving ==>
      exists c :: c in competitors && SurvivorFrom(s, c)
  {
    var all := Collect(competitors, SurvivorOf);
    CollectMeaning(competitors, SurvivorOf);
    forall s | s in CategorizeComparables(failures, competitors).surviving
      ensures exists c :: c in competitors && SurvivorFrom(s, c)
    {
      assert s in all;
      var c :| c in competitors && SurvivorOf(c) == Some(s);
    }
  }

  /** The competitors are split between the two stages: every competitor either is counted as
      a prior failure by the market-risk rule or yields a surviving comparable, never both. */
  lemma CompetitorsSplit(competitors: seq<CompetitorData>, c: CompetitorData)
    requires c in competitors
    ensures c in FailedCompetitors(competitors) <==> SurvivorOf(c).None?
    ensures SurvivorOf(c).Some? ==> SurvivorOf(c).value in Collect(competitors, SurvivorOf)
  {
    FailedCompetitorsMeaning(competitors);
    CollectMeaning(competitors, SurvivorOf);
  }

  // ---------------------------------------------------------------------------------------
  // synthesizePatterns

  /** What `synthesizePatterns` returns. */
  function Synthesized(
    d: IdeaDecomposition, evidence: RetrievalResult, m: Matchers, reply: Result<PerplexityResponse>): SynthesisResult
  {
    var split := CategorizeComparables(evidence.historicalFailures, evidence.competitors);
    SynthesisResult(
      CombinedModes(if reply.Ok? then ParsedFailureModes(m, reply.value.content) else [],
                    AnalyzeFailurePatterns(d.businessModel)),
      MarketRisks(d, evidence), TimingRisks(d, evidence), RegulatoryRisks(evidence),
      DistributionChallenges(d, evidence), split.failed, split.surviving,
      evidence.citations + ReplyCitations(reply))
  }

  /** The synthesis hands back the retrieval citations first, followed by the citations of the
      failure-mode reply, so the orchestrator's accumulated list repeats the evidence. */
  lemma SynthesizedRepeatsEvidence(d: IdeaDecomposition, evidence: RetrievalResult, m: Matchers, reply: Result<PerplexityResponse>)
    ensures var r := Synthesized(d, evidence, m, reply);
      evidence.citations <= r.citations && r.citations[|evidence.citations|..] == ReplyCitations(reply)
  {
  }

  /** `synthesizePatterns`: the failure modes (with the citations of their reply appended to
      the evidence's), the four rule-based analyses and the comparables. */
  method SynthesizePatterns(
    d: IdeaDecomposition, evidence: RetrievalResult, m: Matchers, reply: Result<PerplexityResponse>)
    returns (r: SynthesisResult)
    ensures r == Synthesized(d, evidence, m, reply)
    ensures r.citations == evidence.citations + ReplyCitations(reply)
    ensures r.failureModes == CombinedModes(
      if reply.Ok? then ParsedFailureModes(m, reply.value.content) else [],
      AnalyzeFailurePatterns(d.businessModel))
    ensures r.marketRisks == MarketRisks(d, evidence) && r.timingRisks == TimingRisks(d, evidence)
    ensures r.regulatoryRisks == RegulatoryRisks(evidence)
    ensures r.distributionChallenges == DistributionChallenges(d, evidence)
    ensures var split := CategorizeComparables(evidence.historicalFailures, evidence.competitors);
      r.failedComparables == split.failed && r.survivingComparables == split.surviving
  {
    var allCitations := evidence.citations;
    var failureModes;
    failureModes, allCitations := IdentifyFailureModes(d, m, reply, allCitations);
    var marketRisks := MarketRisks(d, evidence);
    var timingRisks := TimingRisks(d, evidence);
    var regulatoryRisks := RegulatoryRisks(evidence);
    var distributionChallenges := DistributionChallenges(d, evidence);
    var split := CategorizeComparables(evidence.historicalFailures, evidence.competitors);
    r := SynthesisResult(
      failureModes, marketRisks, timingRisks, regulatoryRisks, distributionChallenges,
      split.failed, split.surviving, allCitations);
  }
}

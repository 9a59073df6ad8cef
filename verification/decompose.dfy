/** Stage 1 of the pipeline (a model of `src/lib/pipeline/decompose.ts`): the local, keyword
    driven decomposition of an idea and the language-model path that falls back to it. */
module Decompose {
  import opened Wrappers
  import opened Seqs
  import opened Text
  import opened Types

  // ---------------------------------------------------------------------------------------
  // Keyword classification with first-match priority

  /** One branch of an if-else chain: it fires when the text contains any of its keywords. */
  datatype Rule = Rule(keywords: seq<string>, choice: string)

  predicate Fires(text: string, rule: Rule) {
    exists k | k in rule.keywords :: Contains(text, k)
  }

  /** The choice of the first rule that fires, or the default when none does. */
  function FirstMatch(text: string, rules: seq<Rule>, default: string): string {
    if rules == [] then default
    else if Fires(text, rules[0]) then rules[0].choice
    else FirstMatch(text, rules[1..], default)
  }

  /** `rules[i]` is the first rule that fires. */
  predicate FirstFiring(text: string, rules: seq<Rule>, i: nat) {
    i < |rules| && Fires(text, rules[i]) && forall j :: 0 <= j < i ==> !Fires(text, rules[j])
  }

  /** The chain's result is the choice of the first rule that fires, or the default exactly
      when no rule fires. */
  lemma {:induction false} FirstMatchMeaning(text: string, rules: seq<Rule>, default: string)
    ensures (forall j :: 0 <= j < |rules| ==> !Fires(text, rules[j])) ==> FirstMatch(text, rules, default) == default
    ensures forall i: nat :: FirstFiring(text, rules, i) ==> FirstMatch(text, rules, default) == rules[i].choice
  {
    if rules != [] {
      FirstMatchMeaning(text, rules[1..], default);
      forall i: nat | FirstFiring(text, rules, i)
        ensures FirstMatch(text, rules, default) == rules[i].choice
      {
        if i > 0 {
          assert FirstFiring(text, rules[1..], i - 1) by {
            forall j | 0 <= j < i - 1 ensures !Fires(text, rules[1..][j]) {
              assert rules[1..][j] == rules[j + 1];
            }
          }
        }
      }
      if forall j :: 0 <= j < |rules| ==> !Fires(text, rules[j]) {
        forall j | 0 <= j < |rules| - 1 ensures !Fires(text, rules[1..][j]) {
          assert rules[1..][j] == rules[j + 1];
        }
      }
    }
  }

  const GENERAL_CONSUMERS: string := "General consumers"
  const B2B_ENTERPRISE: string := "B2B / Enterprise customers"
  const SMALL_AND_MEDIUM: string := "Small and medium businesses"

  const MARKET_RULES: seq<Rule> := [
    Rule(["b2b", "enterprise", "business"], B2B_ENTERPRISE),
    Rule(["developer", "engineer"], "Software developers and engineers"),
    Rule(["startup", "founder"], "Startups and founders"),
    Rule(["small business", "smb"], SMALL_AND_MEDIUM),
    Rule(["student", "education"], "Students and educational institutions"),
    Rule(["health", "patient"], "Healthcare consumers and patients")
  ]

  const FREEMIUM_SAAS: string := "Freemium SaaS"
  const SUBSCRIPTION_SAAS: string := "Subscription-based SaaS"
  const MARKETPLACE_FEES: string := "Marketplace with transaction fees"

  const MODEL_RULES: seq<Rule> := [
    Rule(["subscription", "monthly"], SUBSCRIPTION_SAAS),
    Rule(["marketplace", "commission"], MARKETPLACE_FEES),
    Rule(["api", "platform"], "API/Platform with usage-based pricing"),
    Rule(["advertising", "ad-supported"], "Advertising-supported free product"),
    Rule(["hardware", "device"], "Hardware sales with software services"),
    Rule(["consulting", "service"], "Professional services / Consulting")
  ]

  /** The target market read off the lower-cased idea. */
  function TargetMarket(lowerIdea: string): string {
    FirstMatch(lowerIdea, MARKET_RULES, GENERAL_CONSUMERS)
  }

  /** The business model read off the lower-cased idea. */
  function BusinessModel(lowerIdea: string): string {
    FirstMatch(lowerIdea, MODEL_RULES, FREEMIUM_SAAS)
  }

  /** The chain yields the default or the choice of one of its rules. */
  lemma {:induction false} FirstMatchRange(text: string, rules: seq<Rule>, default: string)
    ensures var r := FirstMatch(text, rules, default);
      r == default || exists j :: 0 <= j < |rules| && r == rules[j].choice
  {
    if rules != [] && !Fires(text, rules[0]) {
      FirstMatchRange(text, rules[1..], default);
      var r := FirstMatch(text, rules[1..], default);
      if r != default {
        var j :| 0 <= j < |rules[1..]| && r == rules[1..][j].choice;
        assert r == rules[j + 1].choice;
      }
    }
  }

  /** A choice made by one rule only, and not the default, is reached only when that rule
      fires and every earlier one stays silent. */
  lemma {:induction false} FirstMatchChoice(text: string, rules: seq<Rule>, default: string, i: nat)
    requires i < |rules| && FirstMatch(text, rules, default) == rules[i].choice
    requires rules[i].choice != default
    requires forall j :: 0 <= j < |rules| && j != i ==> rules[j].choice != rules[i].choice
    ensures Fires(text, rules[i]) && forall j :: 0 <= j < i ==> !Fires(text, rules[j])
  {
    if !Fires(text, rules[0]) {
      var rest := rules[1..];
      if i == 0 {
        FirstMatchRange(text, rest, default);
      } else {
        forall j | 0 <= j < |rest| && j != i - 1 ensures rest[j].choice != rest[i - 1].choice {
          assert rest[j] == rules[j + 1];
        }
        FirstMatchChoice(text, rest, default, i - 1);
        forall j | 0 <= j < i ensures !Fires(text, rules[j]) {
          if j > 0 { assert rules[j] == rest[j - 1]; }
        }
      }
    }
  }

  lemma SmallBusinessIsBusiness(text: string)
    requires Contains(text, "small business")
    ensures Contains(text, "business")
  {
    ContainsInner(text, "small business", 6, 14);
    assert "small business"[6..14] == "business";
  }

  /** Every "small business" idea also mentions "business", which the enterprise branch tests
      first: the small-and-medium market is reached only through the word "smb". */
  lemma SmallAndMediumOnlyViaSmb(lowerIdea: string)
    ensures TargetMarket(lowerIdea) == SMALL_AND_MEDIUM ==> Contains(lowerIdea, "smb") && !Contains(lowerIdea, "small business")
  {
    if TargetMarket(lowerIdea) == SMALL_AND_MEDIUM {
      var rules := MARKET_RULES;
      assert forall j :: 0 <= j < |rules| && j != 3 ==> rules[j].choice != rules[3].choice;
      FirstMatchChoice(lowerIdea, rules, GENERAL_CONSUMERS, 3);
      assert !Fires(lowerIdea, rules[0]);
      assert !Contains(lowerIdea, "business") by {
        assert "business" in rules[0].keywords;
      }
      if Contains(lowerIdea, "small business") {
        SmallBusinessIsBusiness(lowerIdea);
      }
      var k :| k in rules[3].keywords && Contains(lowerIdea, k);
    }
  }

  /** If some rule fires, a first one does. */
  lemma {:induction false} FirstFiringExists(text: string, rules: seq<Rule>, j: nat)
    requires j < |rules| && Fires(text, rules[j])
    ensures exists i: nat :: i <= j && FirstFiring(text, rules, i)
    decreases j
  {
    if !FirstFiring(text, rules, j) {
      var j' :| 0 <= j' < j && Fires(text, rules[j']);
      FirstFiringExists(text, rules, j');
    }
  }

  // ---------------------------------------------------------------------------------------
  // Value proposition

  predicate IsTerminator(c: char) { c == '.' || c == '!' || c == '?' }

  function FirstTerminator(s: string): (k: nat)
    ensures k <= |s| && (k < |s| ==> IsTerminator(s[k]))
    ensures forall i :: 0 <= i < k ==> !IsTerminator(s[i])
  {
    if s == [] || IsTerminator(s[0]) then 0 else 1 + FirstTerminator(s[1..])
  }

  /** The pieces between terminators. Splitting on runs of terminators, as the source does,
      yields the same pieces plus empty ones, and empty pieces are dropped anyway. */
  function Segments(s: string): seq<string>
    decreases |s|
  {
    var k := FirstTerminator(s);
    if k == |s| then [s] else [s[..k]] + Segments(s[k + 1..])
  }

  /** Every piece occurs in the text and holds no terminator. */
  lemma {:induction false} SegmentsArePieces(s: string)
    ensures forall seg :: seg in Segments(s) ==> Contains(s, seg) && NoTerminator(seg)
    decreases |s|
  {
    var k := FirstTerminator(s);
    assert OccursAt(s, s[..k], 0);
    if k < |s| {
      var rest := Segments(s[k + 1..]);
      SegmentsArePieces(s[k + 1..]);
      forall seg | seg in rest ensures Contains(s, seg) {
        assert s == s[..k + 1] + s[k + 1..];
        ContainsInContext(s[..k + 1], s[k + 1..], seg);
      }
    } else {
      assert s[..k] == s;
    }
  }

  function FirstNonBlank(segs: seq<string>): Option<string> {
    if segs == [] then None
    else if Trim(segs[0]) != "" then Some(Trim(segs[0]))
    else FirstNonBlank(segs[1..])
  }

  /** The first non-blank sentence, trimmed, or else the first 200 characters of the idea. */
  function ValueProposition(idea: string): string {
    match FirstNonBlank(Segments(idea))
    case Some(v) => v
    case None => Take(idea, 200)
  }

  /** A character that is neither white space nor a sentence terminator. */
  predicate HasContent(s: string) {
    exists i | 0 <= i < |s| :: !IsSpace(s[i]) && !IsTerminator(s[i])
  }

  /** The first piece whose trim is non-empty, trimmed. */
  lemma {:induction false} FirstNonBlankMeaning(segs: seq<string>)
    ensures FirstNonBlank(segs).Some? <==> exists seg :: seg in segs && Trim(seg) != ""
    ensures FirstNonBlank(segs).Some? ==> exists seg :: seg in segs && FirstNonBlank(segs).value == Trim(seg) != ""
  {
    if segs != [] {
      FirstNonBlankMeaning(segs[1..]);
      if Trim(segs[0]) == "" {
        forall seg | seg in segs && Trim(seg) != "" ensures seg in segs[1..] {
          var j :| 0 <= j < |segs| && segs[j] == seg;
          assert j != 0;
          assert segs[1..][j - 1] == seg;
        }
      }
    }
  }

  /** A terminator-free piece is non-blank exactly when it has content. */
  lemma BlankIffNoContent(seg: string)
    requires NoTerminator(seg)
    ensures Trim(seg) != "" <==> HasContent(seg)
  {
    TrimEmpty(seg);
  }

  /** Content lies on one side or the other of a terminator. */
  lemma ContentAroundTerminator(s: string, k: nat)
    requires k < |s| && IsTerminator(s[k])
    ensures HasContent(s) <==> HasContent(s[..k]) || HasContent(s[k + 1..])
  {
    if HasContent(s) {
      var i :| 0 <= i < |s| && !IsSpace(s[i]) && !IsTerminator(s[i]);
      if i < k { assert s[..k][i] == s[i]; } else { assert s[k + 1..][i - k - 1] == s[i]; }
    }
    if HasContent(s[..k]) {
      var i :| 0 <= i < k && !IsSpace(s[..k][i]) && !IsTerminator(s[..k][i]);
      assert s[i] == s[..k][i];
    }
    if HasContent(s[k + 1..]) {
      var i :| 0 <= i < |s| - k - 1 && !IsSpace(s[k + 1..][i]) && !IsTerminator(s[k + 1..][i]);
      assert s[k + 1 + i] == s[k + 1..][i];
    }
  }

  /** Some piece is non-blank. */
  predicate SomeNonBlank(segs: seq<string>) {
    exists seg :: seg in segs && Trim(seg) != ""
  }

  /** One step of the induction below: the text up to its first terminator, then the rest. */
  lemma NonBlankStep(s: string, k: nat)
    requires k == FirstTerminator(s) < |s|
    requires SomeNonBlank(Segments(s[k + 1..])) <==> HasContent(s[k + 1..])
    ensures SomeNonBlank(Segments(s)) <==> HasContent(s)
  {
    var head, tail := s[..k], s[k + 1..];
    var segs := Segments(s);
    BlankIffNoContent(head);
    ContentAroundTerminator(s, k);
    assert segs == [head] + Segments(tail);
    if HasContent(s) {
      if HasContent(head) {
        assert head in segs;
      } else {
        var seg :| seg in Segments(tail) && Trim(seg) != "";
        assert seg in segs;
      }
    }
    if SomeNonBlank(segs) {
      var seg :| seg in segs && Trim(seg) != "";
      if seg != head {
        assert seg in Segments(tail);
      }
    }
  }

  /** Some piece between terminators is non-blank exactly when the text has content. */
  lemma {:induction false} NonBlankSegmentIffContent(s: string)
    ensures SomeNonBlank(Segments(s)) <==> HasContent(s)
    decreases |s|
  {
    var k := FirstTerminator(s);
    if k < |s| {
      NonBlankSegmentIffContent(s[k + 1..]);
      NonBlankStep(s, k);
    } else {
      NonBlankWhole(s);
    }
  }

  /** A text without terminators is its only piece. */
  lemma NonBlankWhole(s: string)
    requires FirstTerminator(s) == |s|
    ensures SomeNonBlank(Segments(s)) <==> HasContent(s)
  {
    BlankIffNoContent(s[..|s|]);
    assert s[..|s|] == s;
    assert Segments(s) == [s];
  }

  /** `analyzeIdeaLocally`'s value proposition: when the idea has any sentence content it is a
      non-empty, already trimmed piece of the idea holding no terminator; otherwise it is the
      idea's first 200 characters. */
  lemma ValuePropositionMeaning(idea: string)
    ensures var v := ValueProposition(idea);
      if HasContent(idea) then
        v != "" && Trim(v) == v && Contains(idea, v) && NoTerminator(v)
      else v == Take(idea, 200)
  {
    FirstNonBlankMeaning(Segments(idea));
    NonBlankSegmentIffContent(idea);
    if HasContent(idea) {
      var seg :| seg in Segments(idea) && ValueProposition(idea) == Trim(seg) != "";
      SegmentsArePieces(idea);
      TrimmedPiece(idea, seg);
    }
  }

  predicate NoTerminator(s: string) {
    forall i :: 0 <= i < |s| ==> !IsTerminator(s[i])
  }

  lemma PieceOfTerminatorFree(seg: string, v: string)
    requires Contains(seg, v) && NoTerminator(seg)
    ensures NoTerminator(v)
  {
    var j :| 0 <= j <= |seg| - |v| && OccursAt(seg, v, j);
    forall i | 0 <= i < |v| ensures !IsTerminator(v[i]) {
      assert seg[j..j + |v|][i] == seg[j + i];
    }
  }

  /** The trim of a terminator-free piece of the text is a terminator-free piece of the text. */
  lemma TrimmedPiece(idea: string, seg: string)
    requires Contains(idea, seg) && NoTerminator(seg)
    ensures var v := Trim(seg);
      Trim(v) == v && Contains(idea, v) && NoTerminator(v)
  {
    var v := Trim(seg);
    TrimIdempotent(seg);
    ContainsTransitive(idea, seg, v);
    PieceOfTerminatorFree(seg, v);
  }

  // ---------------------------------------------------------------------------------------
  // Assumptions and hypotheses

  const BUDGET: string := "The target market has budget and willingness to pay for this solution"
  const AI_BETTER: string := "AI/ML technology can deliver meaningfully better results than existing solutions"
  const AI_TRUST: string := "Users trust AI-generated outputs for this use case"
  const DATA_ACCESS: string := "Users have access to or can provide the required data"
  const DATA_QUALITY: string := "Data quality is sufficient for meaningful insights"
  const RECURRING: string := "Users will pay recurring fees rather than seeking one-time alternatives"
  const UNIT_ECONOMICS: string := "Unit economics work at projected customer acquisition costs"
  const CRITICAL_MASS: string := "Can achieve critical mass on both sides of the marketplace"
  const FEE_JUSTIFIED: string := "Transaction value justifies the platform fee"
  const INCUMBENTS: string := "Incumbents will not quickly replicate core features"

  function SeeksSolutions(market: string): string {
    market + " actively seeks solutions in this problem space"
  }

  predicate MentionsAi(idea: string) { Contains(idea, "ai") || Contains(idea, "machine learning") }
  predicate MentionsData(idea: string) { Contains(idea, "data") || Contains(idea, "analytics") }
  predicate RecurringModel(model: string) { Contains(model, "SaaS") || Contains(model, "Subscription") }
  predicate MarketplaceModel(model: string) { Contains(model, "Marketplace") }

  /** The assumptions pushed before the closing competitive one. */
  function LeadingAssumptions(idea: string, market: string, model: string): seq<string> {
    [SeeksSolutions(market), BUDGET]
    + (if MentionsAi(idea) then [AI_BETTER, AI_TRUST] else [])
    + (if MentionsData(idea) then [DATA_ACCESS, DATA_QUALITY] else [])
    + (if RecurringModel(model) then [RECURRING, UNIT_ECONOMICS] else [])
    + (if MarketplaceModel(model) then [CRITICAL_MASS, FEE_JUSTIFIED] else [])
  }

  /** Every assumption pushed, before the cap of five. */
  function AllAssumptions(idea: string, market: string, model: string): seq<string> {
    LeadingAssumptions(idea, market, model) + [INCUMBENTS]
  }

  function Assumptions(idea: string, market: string, model: string): seq<string> {
    Take(AllAssumptions(idea, market, model), 5)
  }

  function Count(b: bool): nat { if b then 1 else 0 }

  /** `generateAssumptions`: pushes the assumptions group by group, then keeps the first five. */
  method GenerateAssumptions(idea: string, market: string, model: string) returns (assumptions: seq<string>)
    ensures assumptions == Assumptions(idea, market, model)
  {
    assumptions := [];
    assumptions := assumptions + [SeeksSolutions(market)];
    assumptions := assumptions + [BUDGET];
    ghost var pushed := [SeeksSolutions(market), BUDGET];
    if Contains(idea, "ai") || Contains(idea, "machine learning") {
      assumptions := assumptions + [AI_BETTER];
      assumptions := assumptions + [AI_TRUST];
    }
    pushed := pushed + (if MentionsAi(idea) then [AI_BETTER, AI_TRUST] else []);
    assert assumptions == pushed;
    if Contains(idea, "data") || Contains(idea, "analytics") {
      assumptions := assumptions + [DATA_ACCESS];
      assumptions := assumptions + [DATA_QUALITY];
    }
    pushed := pushed + (if MentionsData(idea) then [DATA_ACCESS, DATA_QUALITY] else []);
    assert assumptions == pushed;
    if Contains(model, "SaaS") || Contains(model, "Subscription") {
      assumptions := assumptions + [RECURRING];
      assumptions := assumptions + [UNIT_ECONOMICS];
    }
    pushed := pushed + (if RecurringModel(model) then [RECURRING, UNIT_ECONOMICS] else []);
    assert assumptions == pushed;
    if Contains(model, "Marketplace") {
      assumptions := assumptions + [CRITICAL_MASS];
      assumptions := assumptions + [FEE_JUSTIFIED];
    }
    pushed := pushed + (if MarketplaceModel(model) then [CRITICAL_MASS, FEE_JUSTIFIED] else []);
    assert assumptions == pushed == LeadingAssumptions(idea, market, model);
    assumptions := assumptions + [INCUMBENTS];
    assumptions := Take(assumptions, 5);
  }

  /** At most five assumptions, the first two always the market and budget statements; the
      competitive assumption survives the cap exactly when at most one conditional group fired,
      and otherwise only assumptions pushed before it are kept. */
  lemma AssumptionsShape(idea: string, market: string, model: string)
    ensures var r := Assumptions(idea, market, model);
      var leading := LeadingAssumptions(idea, market, model);
      var groups := Count(MentionsAi(idea)) + Count(MentionsData(idea)) + Count(RecurringModel(model)) + Count(MarketplaceModel(model));
      && 3 <= |r| <= 5
      && r[0] == SeeksSolutions(market) && r[1] == BUDGET
      && |leading| == 2 + 2 * groups
      && (groups <= 1 ==> r == leading + [INCUMBENTS])
      && (groups > 1 ==> r == leading[..5])
  {
    var leading := LeadingAssumptions(idea, market, model);
    var all := AllAssumptions(idea, market, model);
    if |leading| >= 5 { assert all[..5] == leading[..5]; }
  }

  const COMMIT_BEFORE_LAUNCH: string := "10+ potential customers commit to paying before product launch"
  const AUTOMATION: string := "Automation reduces task completion time by at least 50%"
  const CAC_UNDER_50: string := "Customer acquisition cost can be kept under $50 per user"
  const RETENTION_80: string := "Monthly retention rate exceeds 80% after first 90 days"
  const FREE_TO_PAID: string := "Customers convert from free to paid at 5%+ rate"
  const SUPPLY_SIDE: string := "Supply-side users can be acquired at <$20 per active participant"
  const NPS: string := "Net Promoter Score exceeds 40 within first 100 users"

  function InterestHypothesis(market: string): string {
    "At least 40% of interviewed " + Lower(market) + " express strong interest"
  }

  predicate MentionsAutomation(idea: string) { Contains(idea, "ai") || Contains(idea, "automat") }

  /** The hypotheses pushed before the closing NPS one. */
  function LeadingHypotheses(idea: string, market: string, model: string): seq<string> {
    [InterestHypothesis(market), COMMIT_BEFORE_LAUNCH]
    + (if MentionsAutomation(idea) then [AUTOMATION] else [])
    + [CAC_UNDER_50, RETENTION_80]
    + (if Contains(model, "SaaS") then [FREE_TO_PAID] else [])
    + (if MarketplaceModel(model) then [SUPPLY_SIDE] else [])
  }

  function AllHypotheses(idea: string, market: string, model: string): seq<string> {
    LeadingHypotheses(idea, market, model) + [NPS]
  }

  function Hypotheses(idea: string, market: string, model: string): seq<string> {
    Take(AllHypotheses(idea, market, model), 5)
  }

  /** `generateHypotheses`: pushes in the fixed order, then keeps the first five. */
  method GenerateHypotheses(idea: string, market: string, model: string) returns (hypotheses: seq<string>)
    ensures hypotheses == Hypotheses(idea, market, model)
  {
    hypotheses := [];
    hypotheses := hypotheses + [InterestHypothesis(market)];
    hypotheses := hypotheses + [COMMIT_BEFORE_LAUNCH];
    if Contains(idea, "ai") || Contains(idea, "automat") {
      hypotheses := hypotheses + [AUTOMATION];
    }
    hypotheses := hypotheses + [CAC_UNDER_50];
    hypotheses := hypotheses + [RETENTION_80];
    if Contains(model, "SaaS") {
      hypotheses := hypotheses + [FREE_TO_PAID];
    }
    if Contains(model, "Marketplace") {
      hypotheses := hypotheses + [SUPPLY_SIDE];
    }
    hypotheses := hypotheses + [NPS];
    hypotheses := Take(hypotheses, 5);
  }

  /** Always five hypotheses, the first two fixed; the closing NPS hypothesis is kept when at
      most four precede it and dropped otherwise, the cap then keeping only earlier ones. */
  lemma HypothesesShape(idea: string, market: string, model: string)
    ensures var r := Hypotheses(idea, market, model);
      var leading := LeadingHypotheses(idea, market, model);
      && |leading| == 4 + Count(MentionsAutomation(idea)) + Count(Contains(model, "SaaS")) + Count(MarketplaceModel(model))
      && |r| == 5
      && r[0] == InterestHypothesis(market) && r[1] == COMMIT_BEFORE_LAUNCH
      && (|leading| <= 4 ==> r == leading + [NPS])
      && (|leading| > 4 ==> r == leading[..5])
  {
    var leading := LeadingHypotheses(idea, market, model);
    var all := AllHypotheses(idea, market, model);
    if |leading| >= 5 { assert all[..5] == leading[..5]; }
  }

  // ---------------------------------------------------------------------------------------
  // The decomposition

  /** What `analyzeIdeaLocally` returns. */
  function LocalDecomposition(idea: string): IdeaDecomposition {
    var lowerIdea := Lower(idea);
    var market := TargetMarket(lowerIdea);
    var model := BusinessModel(lowerIdea);
    IdeaDecomposition(ValueProposition(idea), market, model,
                      Assumptions(lowerIdea, market, model), Hypotheses(lowerIdea, market, model))
  }

  /** `analyzeIdeaLocally` / `decomposeIdea`. */
  method DecomposeIdea(idea: string) returns (d: IdeaDecomposition)
    ensures d == LocalDecomposition(idea)
    ensures 3 <= |d.keyAssumptions| <= 5 && |d.testableHypotheses| == 5
    ensures d.keyAssumptions[0] == SeeksSolutions(d.targetMarket)
  {
    var lowerIdea := Lower(idea);
    var market := TargetMarket(lowerIdea);
    var model := BusinessModel(lowerIdea);
    var keyAssumptions := GenerateAssumptions(lowerIdea, market, model);
    var testableHypotheses := GenerateHypotheses(lowerIdea, market, model);
    AssumptionsShape(lowerIdea, market, model);
    HypothesesShape(lowerIdea, market, model);
    d := IdeaDecomposition(ValueProposition(idea), market, model, keyAssumptions, testableHypotheses);
  }

  /** The fields `JSON.parse` yields for the reply's object: an empty string stands for a
      missing or falsy field, `None` for a list field that is not an array. */
  datatype ParsedDecomposition = ParsedDecomposition(
    valueProposition: string,
    targetMarket: string,
    businessModel: string,
    keyAssumptions: Option<seq<string>>,
    testableHypotheses: Option<seq<string>>)

  /** `/\{[\s\S]*\}/`: from the first opening brace to the last closing brace after it. */
  function JsonObjectSpan(s: string): (r: Option<string>)
    ensures r.Some? ==> Contains(s, r.value) && |r.value| >= 2 && r.value[0] == '{' && r.value[|r.value| - 1] == '}'
  {
    var open := FirstIndexOf(s, '{');
    var close := LastIndexOf(s, '}');
    if open < |s| && close < |s| && open < close then
      assert OccursAt(s, s[open..close + 1], open);
      Some(s[open..close + 1])
    else None
  }

  function FirstIndexOf(s: string, c: char): (k: nat)
    ensures k <= |s| && (k < |s| ==> s[k] == c) && forall i :: 0 <= i < k ==> s[i] != c
  {
    if s == [] || s[0] == c then 0 else 1 + FirstIndexOf(s[1..], c)
  }

  /** The last index of `c`, or `|s|` when there is none. */
  function LastIndexOf(s: string, c: char): (k: nat)
    ensures k <= |s| && (k < |s| ==> s[k] == c && forall i :: k < i < |s| ==> s[i] != c)
    ensures k == |s| ==> c !in s
  {
    if s == [] then 0
    else if s[|s| - 1] == c then |s| - 1
    else
      var k := LastIndexOf(s[..|s| - 1], c);
      if k == |s| - 1 then |s| else k
  }

  /** What `decomposeIdeaWithLLM` returns for a reply (`Err` when the query throws) and a
      parser (`None` when `JSON.parse` throws or yields no object). */
  function LlmDecomposition(idea: string, reply: Result<string>, parseJson: string -> Option<ParsedDecomposition>): IdeaDecomposition {
    if reply.Err? then LocalDecomposition(idea)
    else match JsonObjectSpan(reply.value)
      case None => LocalDecomposition(idea)
      case Some(json) =>
        match parseJson(json)
        case None => LocalDecomposition(idea)
        case Some(p) =>
          IdeaDecomposition(p.valueProposition, p.targetMarket, p.businessModel,
                            p.keyAssumptions.GetOr([]), p.testableHypotheses.GetOr([]))
  }

  /** `decomposeIdeaWithLLM` */
  method DecomposeIdeaWithLlm(idea: string, reply: Result<string>, parseJson: string -> Option<ParsedDecomposition>)
    returns (d: IdeaDecomposition)
    ensures d == LlmDecomposition(idea, reply, parseJson)
  {
    if reply.Ok? {
      var jsonMatch := JsonObjectSpan(reply.value);
      if jsonMatch.Some? {
        var parsed := parseJson(jsonMatch.value);
        if parsed.Some? {
          var p := parsed.value;
          return IdeaDecomposition(p.valueProposition, p.targetMarket, p.businessModel,
                                   if p.keyAssumptions.Some? then p.keyAssumptions.value else [],
                                   if p.testableHypotheses.Some? then p.testableHypotheses.value else []);
        }
      }
    }
    d := DecomposeIdea(idea);
  }

  /** The object the language-model path parses, when the query succeeds, its reply holds a
      braced span and that span parses. */
  function ParsedReply(reply: Result<string>, parseJson: string -> Option<ParsedDecomposition>): Option<ParsedDecomposition> {
    if reply.Ok? && JsonObjectSpan(reply.value).Some? then parseJson(JsonObjectSpan(reply.value).value) else None
  }

  /** The language-model path takes every field from the parsed object, a list field that is
      not an array becoming empty; whenever there is no parsed object (the query failed, the
      reply holds no braced span, or the span does not parse) it is exactly the local
      decomposition. */
  lemma LlmFallback(idea: string, reply: Result<string>, parseJson: string -> Option<ParsedDecomposition>)
    ensures var d := LlmDecomposition(idea, reply, parseJson);
      match ParsedReply(reply, parseJson)
      case None => d == LocalDecomposition(idea)
      case Some(p) =>
        && d.valueProposition == p.valueProposition && d.targetMarket == p.targetMarket
        && d.businessModel == p.businessModel
        && (p.keyAssumptions.Some? ==> d.keyAssumptions == p.keyAssumptions.value)
        && (p.keyAssumptions.None? ==> d.keyAssumptions == [])
        && (p.testableHypotheses.Some? ==> d.testableHypotheses == p.testableHypotheses.value)
        && (p.testableHypotheses.None? ==> d.testableHypotheses == [])
  {
  }
}

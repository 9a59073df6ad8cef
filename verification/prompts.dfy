/** The analysis prompt built from an idea and the failed startups, and the success and failure
    rates read back from an analysis text (`src/lib/prompts.ts`). */
module Prompts {
  import opened Wrappers
  import opened Seqs
  import opened Text
  import opened Startups

  // ---------------------------------------------------------------------------------------
  // buildAnalysisPrompt

  /** At most this many failed startups are listed. */
  const MAX_LISTED: nat := 20
  /** A listed description is cut to this many characters. */
  const MAX_DESCRIPTION: nat := 100

  /** The fixed text of the prompt around the idea and the listing. */
  datatype PromptTexts = PromptTexts(header: string, context: string, task: string)

  /** The line of one failed startup: `- name (category): description...`, with the description
      cut to its first characters. */
  function StartupLine(s: FailedStartup): string {
    "- " + s.name + " (" + s.category + "): " + Take(s.description, MAX_DESCRIPTION) + "..."
  }

  /** The lines of the startups the prompt lists: the first ones, in order. */
  function ListedLines(startups: seq<FailedStartup>): seq<string> {
    Map(Take(startups, MAX_LISTED), StartupLine)
  }

  /** `buildAnalysisPrompt`: the idea, then the listed startups one per line, then the fixed
      instructions. */
  function BuildAnalysisPrompt(texts: PromptTexts, idea: string, startups: seq<FailedStartup>): string {
    texts.header + idea + texts.context + Join(ListedLines(startups), "\n") + texts.task
  }

  /** The prompt lists one line for each of the first twenty startups, in order, and no more. */
  lemma ListedLinesShape(startups: seq<FailedStartup>)
    ensures var lines := ListedLines(startups);
      && |lines| == Min(|startups|, MAX_LISTED)
      && forall i :: 0 <= i < |lines| ==> lines[i] == StartupLine(startups[i])
  {
  }

  /** A line shows the whole name and category and at most the first hundred characters of the
      description: the line's length is fixed by the description's length up to the cut. */
  lemma StartupLineCut(s: FailedStartup)
    ensures |StartupLine(s)| == |s.name| + |s.category| + Min(|s.description|, MAX_DESCRIPTION) + 10
    ensures Contains(StartupLine(s), s.description[..Min(|s.description|, MAX_DESCRIPTION)])
  {
    var shown := Take(s.description, MAX_DESCRIPTION);
    assert shown == s.description[..Min(|s.description|, MAX_DESCRIPTION)];
    ContainsMiddle("- " + s.name + " (" + s.category + "): ", shown, "...");
  }

  /** The prompt states the idea. */
  lemma PromptStatesIdea(texts: PromptTexts, idea: string, startups: seq<FailedStartup>)
    ensures Contains(BuildAnalysisPrompt(texts, idea, startups), idea)
  {
    var rest := texts.context + Join(ListedLines(startups), "\n") + texts.task;
    assert BuildAnalysisPrompt(texts, idea, startups) == texts.header + idea + rest;
    ContainsMiddle(texts.header, idea, rest);
  }

  /** Each of the first twenty startups has its line in the prompt. */
  lemma PromptListsStartup(texts: PromptTexts, idea: string, startups: seq<FailedStartup>, i: nat)
    requires i < |startups| && i < MAX_LISTED
    ensures Contains(BuildAnalysisPrompt(texts, idea, startups), StartupLine(startups[i]))
  {
    var lines := ListedLines(startups);
    var listing := Join(lines, "\n");
    JoinContainsPart(lines, "\n", i);
    ContainsMiddle(texts.header + idea + texts.context, listing, texts.task);
    ContainsTransitive(BuildAnalysisPrompt(texts, idea, startups), listing, lines[i]);
  }

  // ---------------------------------------------------------------------------------------
  // extractProbabilityFromAnalysis

  /** A captured `\d+` group. */
  type Digits = s: string | s != [] && AllDigits(s) witness "0"

  /** The three patterns `extractProbabilityFromAnalysis` searches the analysis with (first match,
      case-insensitive); each gives its capture group. */
  datatype ProbabilityPatterns = ProbabilityPatterns(
    /** `/success(?:\s+likelihood)?[:\s]+(\d+)%/i` */
    successRate: string -> Option<Digits>,
    /** `/failure(?:\s+rate)?[:\s]+(\d+)%/i` */
    failureRate: string -> Option<Digits>,
    /** `/(\d+[-–]\d+\s+months)/i` */
    timeSpan: string -> Option<string>)

  datatype Probability = Probability(successRate: int, failureRate: int, timeToFailure: string)

  const DEFAULT_SUCCESS_RATE: int := 15
  const DEFAULT_FAILURE_RATE: int := 85
  const DEFAULT_TIME_TO_FAILURE: string := "18-24 months"

  /** `extractProbabilityFromAnalysis`: the defaults, overridden by a stated success rate, or
      failed that by a stated failure rate, the other rate being its complement to 100; and the
      stated time span when there is one. */
  method ExtractProbabilityFromAnalysis(analysis: string, p: ProbabilityPatterns) returns (r: Probability)
    ensures r.successRate + r.failureRate == 100
    ensures p.successRate(analysis).Some? ==> r.successRate == DigitsValue(p.successRate(analysis).value)
    ensures p.successRate(analysis).None? && p.failureRate(analysis).Some? ==>
      r.failureRate == DigitsValue(p.failureRate(analysis).value)
    ensures p.successRate(analysis).None? && p.failureRate(analysis).None? ==>
      r.successRate == DEFAULT_SUCCESS_RATE && r.failureRate == DEFAULT_FAILURE_RATE
    ensures r.timeToFailure == p.timeSpan(analysis).GetOr(DEFAULT_TIME_TO_FAILURE)
  {
    var successRate := DEFAULT_SUCCESS_RATE;
    var failureRate := DEFAULT_FAILURE_RATE;
    var timeToFailure := DEFAULT_TIME_TO_FAILURE;

    var successMatch := p.successRate(analysis);
    var failureMatch := p.failureRate(analysis);
    var timeMatch := p.timeSpan(analysis);

    if successMatch.Some? {
      successRate := DigitsValue(successMatch.value);
      failureRate := 100 - successRate;
    } else if failureMatch.Some? {
      failureRate := DigitsValue(failureMatch.value);
      successRate := 100 - failureRate;
    }

    if timeMatch.Some? {
      timeToFailure := timeMatch.value;
    }

    return Probability(successRate, failureRate, timeToFailure);
  }

  /** The captured digits are not bounded by 100: a stated success rate of 150% reads as a
      failure rate of -50. */
  method ExtractedRateOverHundred() returns (r: Probability)
    ensures r.successRate == 150 && r.failureRate == -50
  {
    var captured: Digits := "150";
    assert DigitsValue(captured[..1]) == 1;
    assert DigitsValue(captured[..2]) == 15 by { assert captured[..2][..1] == captured[..1]; }
    assert DigitsValue(captured) == 150 by { assert captured[..|captured| - 1] == captured[..2]; }
    var patterns := ProbabilityPatterns(_ => Some(captured), _ => None, _ => None);
    r := ExtractProbabilityFromAnalysis("Success likelihood: 150%", patterns);
  }
}

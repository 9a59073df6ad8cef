/** The premortem pipeline orchestrator (`src/lib/pipeline/index.ts`): a report whose status,
    version, stage fields and citations are assigned stage by stage, the progress events, the
    end-of-run citation dedup, the quick preview and re-running from a stage.

    The stages are the models of the other modules. What they receive from outside (the
    language-model replies, the JSON parser, the text matchers and the catalogue rows) is a
    `Services` value, and an exception escaping a stage is a `Fault` parameter: every stage
    catches its own query failures, so only an unexpected runtime error reaches the
    orchestrator's catch blocks. */
module Pipeline {
  import opened Wrappers
  import opened Seqs
  import opened Types
  import opened Patterns
  import opened Startups
  import opened Decompose
  import opened Retrieve
  import opened Synthesize
  import opened Score
  import opened Dedup

  // ---------------------------------------------------------------------------------------
  // Stages and progress

  /** `stageOrder`: the stages in execution order. */
  const STAGE_ORDER: seq<Stage> := [Decomposition, Retrieval, Synthesis, Scoring]

  /** `stageOrder.indexOf(stage)`. */
  function StageIndex(stage: Stage): (i: nat)
    ensures i < |STAGE_ORDER| && STAGE_ORDER[i] == stage
  {
    match stage
    case Decomposition => 0
    case Retrieval => 1
    case Synthesis => 2
    case Scoring => 3
  }

  /** The event `updateProgress` hands to the progress callback: the completed stages are
      exactly the stages before the current one, in execution order. */
  function UpdateProgress(stage: Stage, progress: int, message: string): (p: PipelineProgress)
    ensures p.currentStage == stage && p.stageProgress == progress && p.stageMessage == message
    ensures |p.completedStages| == StageIndex(stage)
    ensures forall t :: t in p.completedStages <==> StageIndex(t) < StageIndex(stage)
    ensures forall i, j :: 0 <= i < j < |p.completedStages| ==>
      StageIndex(p.completedStages[i]) < StageIndex(p.completedStages[j])
  {
    var completed := STAGE_ORDER[..StageIndex(stage)];
    assert forall i :: 0 <= i < |completed| ==> StageIndex(completed[i]) == i;
    PipelineProgress(stage, progress, message, completed)
  }

  /** `updateProgress`: the event reaches the progress callback only when one is given. */
  function Notify(reported: seq<PipelineProgress>, callbacks: bool, event: PipelineProgress): seq<PipelineProgress> {
    if callbacks then reported + [event] else reported
  }

  /** The messages of the progress events of a run, in order. */
  const RUN_MESSAGES: seq<string> := [
    "Analyzing idea structure...", "Idea decomposition complete",
    "Gathering market intelligence...", "Evidence retrieval complete",
    "Synthesizing failure patterns...", "Pattern synthesis complete",
    "Calculating risk assessment...", "Risk assessment complete"]

  /** The `i`-th progress event of a run: stage `i / 2` announced at 0 when `i` is even and
      completed at 100 when it is odd. */
  function RunEvent(i: nat): PipelineProgress
    requires i < 2 * |STAGE_ORDER|
  {
    UpdateProgress(STAGE_ORDER[i / 2], if i % 2 == 0 then 0 else 100, RUN_MESSAGES[i])
  }

  /** The first `n` progress events of a run. */
  function RunEvents(n: nat): seq<PipelineProgress>
    requires n <= 2 * |STAGE_ORDER|
  {
    if n == 0 then [] else RunEvents(n - 1) + [RunEvent(n - 1)]
  }

  /** The messages of the progress events of a re-run from retrieval, in order. */
  const RERUN_MESSAGES: seq<string> := ["Re-gathering evidence...", "Re-synthesizing patterns...", "Re-calculating risks..."]

  /** The `i`-th progress event of a re-run from retrieval: stage `i + 1` announced at 0. */
  function RerunEvent(i: nat): PipelineProgress
    requires i < |STAGE_ORDER| - 1
  {
    UpdateProgress(STAGE_ORDER[i + 1], 0, RERUN_MESSAGES[i])
  }

  function RerunEvents(n: nat): seq<PipelineProgress>
    requires n <= |STAGE_ORDER| - 1
  {
    if n == 0 then [] else RerunEvents(n - 1) + [RerunEvent(n - 1)]
  }

  // ---------------------------------------------------------------------------------------
  // Inputs, faults and the report

  /** What the pipeline receives from outside: the reply to each language-model query (`Err`
      when the query throws), the JSON parser, the text matchers and the catalogue rows. */
  datatype Services = Services(
    decompositionReply: Result<string>,
    parseJson: string -> Option<ParsedDecomposition>,
    matchers: Matchers,
    marketReply: Result<PerplexityResponse>,
    competitorReply: Result<PerplexityResponse>,
    regulatoryReply: Result<PerplexityResponse>,
    catalogue: seq<FailedStartup>,
    failureModeReply: Result<PerplexityResponse>)

  /** An exception escaping a stage: the stage whose call throws, and the message when the
      thrown value is an `Error` (`None` for any other thrown value). */
  datatype Fault = NoFault | Throws(stage: Stage, message: Option<string>)

  predicate ThrowsAt(fault: Fault, stage: Stage) {
    fault.Throws? && fault.stage == stage
  }

  const UNKNOWN_ERROR: string := "An unknown error occurred"
  const RERUN_FAILED: string := "Re-run failed"

  /** The synthesis fields of the report, which both `runPipeline` and `rerunFromStage` assign
      together from one synthesis result. */
  datatype Analysis = Analysis(
    failureModes: seq<FailureMode>,
    marketRisks: seq<Risk>,
    timingRisks: seq<Risk>,
    regulatoryRisks: seq<Risk>,
    distributionChallenges: seq<Challenge>,
    failedStartups: seq<Comparable>,
    survivingStartups: seq<Comparable>)

  function AnalysisOf(s: SynthesisResult): Analysis {
    Analysis(s.failureModes, s.marketRisks, s.timingRisks, s.regulatoryRisks,
             s.distributionChallenges, s.failedComparables, s.survivingComparables)
  }

  /** The fields of a `PremortemReport` the orchestrator assigns; `None` is a field not set yet.
      The scoring result stands for `riskScore`, `improvementLevers` and `earlyWarnings`. */
  datatype ReportState = ReportState(
    version: int,
    originalIdea: string,
    status: ReportStatus,
    decomposition: Option<IdeaDecomposition>,
    analysis: Option<Analysis>,
    scoring: Option<ScoringResult>,
    citations: seq<Citation>,
    error: Option<string>)

  /** The report `runPipeline` starts from. */
  function Started(ideaText: string): ReportState {
    ReportState(1, ideaText, Generating, None, None, None, [], None)
  }

  /** A catch block: status error and the thrown message, or `fallback` for a thrown value that
      is not an `Error`; every other field is kept. */
  function Errored(r: ReportState, message: Option<string>, fallback: string): ReportState {
    r.(status := Failure, error := Some(message.GetOr(fallback)))
  }

  /** `c.url || c.title`: the url unless it is missing or empty. */
  function CitationKey(c: Citation): string {
    if c.url.Some? && c.url.value != "" then c.url.value else c.title
  }

  // ---------------------------------------------------------------------------------------
  // The stages as the orchestrator calls them

  /** The four stage calls of the orchestrator: `decomposeIdeaWithLLM` (with its own fallback
      to the local analysis), `retrieveEvidence`, `synthesizePatterns` and `scoreRisks`. */
  datatype Stages = Stages(
    decompose: string -> IdeaDecomposition,
    retrieve: IdeaDecomposition -> RetrievalResult,
    synthesize: (IdeaDecomposition, RetrievalResult) -> SynthesisResult,
    score: (IdeaDecomposition, SynthesisResult) -> ScoringResult)


  /** The stages of this model, answering from the given services. */
  function PipelineStages(env: Services): Stages {
    Stages(
      ideaText => LlmDecomposition(ideaText, env.decompositionReply, env.parseJson),
      d => RetrieveEvidence(d, env.matchers, env.marketReply, env.competitorReply, env.regulatoryReply, env.catalogue),
      (d, evidence) => Synthesized(d, evidence, env.matchers, env.failureModeReply),
      (d, s) => ScoringResult(CalculateRiskScore(s), Levers(d, s), Warnings(s)))
  }

  // ---------------------------------------------------------------------------------------
  // runPipeline

  /** The end-of-run dedup: the first citation with each url-or-title key, in order. */
  function DedupCitations(citations: seq<Citation>): (r: seq<Citation>)
    ensures IsSubsequence(r, citations)
    ensures DistinctKeys(r, CitationKey)
    ensures KeysOf(r, CitationKey) == KeysOf(citations, CitationKey)
    ensures DedupBy(r, CitationKey) == r
  {
    DedupByMeaning(citations, CitationKey);
    DedupByDistinct(DedupBy(citations, CitationKey), CitationKey);
    DedupBy(citations, CitationKey)
  }

  /** The report of a run once its first `n` stages have returned: each stage's fields are set
      only when that stage has returned, and the citations are those of the retrieval and the
      synthesis stages, in that order and not yet deduplicated. */
  function Partial(ideaText: string, stages: Stages, n: nat): ReportState
    requires n <= |STAGE_ORDER|
  {
    var d := stages.decompose(ideaText);
    var evidence := stages.retrieve(d);
    var synthesis := stages.synthesize(d, evidence);
    Started(ideaText).(
      decomposition := if n >= 1 then Some(d) else None,
      analysis := if n >= 3 then Some(AnalysisOf(synthesis)) else None,
      scoring := if n >= 4 then Some(stages.score(d, synthesis)) else None,
      citations := (if n >= 2 then evidence.citations else []) + (if n >= 3 then synthesis.citations else []))
  }


  /** The report a run ends with: a fault ends it in error at its stage; otherwise it is
      complete, with its citations deduplicated. */
  function RunOutcome(ideaText: string, stages: Stages, fault: Fault): ReportState {
    if fault.Throws? then Errored(Partial(ideaText, stages, StageIndex(fault.stage)), fault.message, UNKNOWN_ERROR)
    else
      var finished := Partial(ideaText, stages, 4);
      finished.(status := Complete, citations := DedupCitations(finished.citations))
  }

  /** How many progress events a run reports: those of the stages before the faulting one and
      the announcement of the faulting stage, or all of them. */
  function EventCount(fault: Fault): (n: nat)
    ensures n <= 2 * |STAGE_ORDER|
  {
    if fault.Throws? then 2 * StageIndex(fault.stage) + 1 else 2 * |STAGE_ORDER|
  }

  /** The events a caller has seen after the first `n` events of a run. */
  function Shown(callbacks: bool, n: nat): seq<PipelineProgress>
    requires n <= 2 * |STAGE_ORDER|
  {
    if callbacks then RunEvents(n) else []
  }


  /** `onProgress?.(updateProgress(...))` for the `n`-th event of a run. */
  method Announce(reported: seq<PipelineProgress>, callbacks: bool, n: nat) returns (r: seq<PipelineProgress>)
    requires n < 2 * |STAGE_ORDER|
    requires reported == Shown(callbacks, n)
    ensures r == Shown(callbacks, n + 1)
  {
    r := Notify(reported, callbacks, RunEvent(n));
  }


  /** `runPipeline`: a fresh report filled in stage by stage until a stage throws; the
      `catch` block records the error, otherwise the report is completed and its citations
      deduplicated. `reported` is what the progress callback, when there is one, receives. */
  method RunPipeline(ideaText: string, stages: Stages, fault: Fault, callbacks: bool)
    returns (report: ReportState, reported: seq<PipelineProgress>)
    ensures report == RunOutcome(ideaText, stages, fault)
    ensures reported == Shown(callbacks, EventCount(fault))
  {
    report := Started(ideaText);
    var announced := 0;  // the progress events so far
    reported := Announce([], callbacks, announced);
    announced := announced + 1;
    if ThrowsAt(fault, Decomposition) {
      report := Errored(report, fault.message, UNKNOWN_ERROR);
      assert announced == EventCount(fault);
      return;
    }
    // The language-model stage falls back to the local analysis itself, so the orchestrator's
    // own fallback is never reached.
    var decomposition := stages.decompose(ideaText);
    report := report.(decomposition := Some(decomposition));
    assert report == Partial(ideaText, stages, 1);
    reported := Announce(reported, callbacks, announced);
    announced := announced + 1;

    reported := Announce(reported, callbacks, announced);
    announced := announced + 1;
    if ThrowsAt(fault, Retrieval) {
      report := Errored(report, fault.message, UNKNOWN_ERROR);
      assert announced == EventCount(fault);
      return;
    }
    var evidence := stages.retrieve(decomposition);
    report := report.(citations := report.citations + evidence.citations);
    assert report == Partial(ideaText, stages, 2);
    reported := Announce(reported, callbacks, announced);
    announced := announced + 1;

    reported := Announce(reported, callbacks, announced);
    announced := announced + 1;
    if ThrowsAt(fault, Synthesis) {
      report := Errored(report, fault.message, UNKNOWN_ERROR);
      assert announced == EventCount(fault);
      return;
    }
    var synthesis := stages.synthesize(decomposition, evidence);
    report := report.(analysis := Some(AnalysisOf(synthesis)));
    report := report.(citations := report.citations + synthesis.citations);
    assert report == Partial(ideaText, stages, 3);
    reported := Announce(reported, callbacks, announced);
    announced := announced + 1;

    reported := Announce(reported, callbacks, announced);
    announced := announced + 1;
    if ThrowsAt(fault, Scoring) {
      report := Errored(report, fault.message, UNKNOWN_ERROR);
      assert announced == EventCount(fault);
      return;
    }
    var scoring := stages.score(decomposition, synthesis);
    report := report.(scoring := Some(scoring));
    reported := Announce(reported, callbacks, announced);
    announced := announced + 1;

    assert report == Partial(ideaText, stages, 4);
    assert announced == EventCount(fault);
    report := report.(status := Complete);
    var deduplicated := DedupByKey(report.citations, CitationKey);
    report := report.(citations := deduplicated);
  }

  /** A run ends complete exactly when no stage throws, and in error with the thrown message (or
      the generic one) exactly when one does; it is always a first version of the idea given. */
  lemma RunStatus(ideaText: string, stages: Stages, fault: Fault)
    ensures var r := RunOutcome(ideaText, stages, fault);
      && r.version == 1 && r.originalIdea == ideaText
      && (r.status == Complete <==> fault.NoFault?)
      && (r.status == Failure <==> fault.Throws?)
      && (fault.NoFault? ==> r.error == None)
      && (fault.Throws? ==> r.error == Some(fault.message.GetOr(UNKNOWN_ERROR)))
  {
  }

  /** A complete run carries every stage's result, and its citations are those of retrieval and
      synthesis with one citation per url-or-title key: none lost, none repeated. */
  lemma CompletedRun(ideaText: string, stages: Stages)
    ensures var r := RunOutcome(ideaText, stages, NoFault);
      var d := stages.decompose(ideaText);
      var evidence := stages.retrieve(d);
      var synthesis := stages.synthesize(d, evidence);
      && r.decomposition == Some(d)
      && r.analysis == Some(AnalysisOf(synthesis))
      && r.scoring == Some(stages.score(d, synthesis))
      && IsSubsequence(r.citations, evidence.citations + synthesis.citations)
      && DistinctKeys(r.citations, CitationKey)
      && KeysOf(r.citations, CitationKey) == KeysOf(evidence.citations, CitationKey) + KeysOf(synthesis.citations, CitationKey)
  {
    var d := stages.decompose(ideaText);
    var evidence := stages.retrieve(d);
    var synthesis := stages.synthesize(d, evidence);
    var all := evidence.citations + synthesis.citations;
    assert KeysOf(all, CitationKey) == KeysOf(evidence.citations, CitationKey) + KeysOf(synthesis.citations, CitationKey);
  }

  /** A run that throws keeps the results of the stages that returned before the fault and
      nothing after: the decomposition once decomposition returned, the analysis once synthesis
      did, never a score, and the citations gathered so far without deduplication. */
  lemma FailedRunKeepsEarlierStages(ideaText: string, stages: Stages, fault: Fault)
    requires fault.Throws?
    ensures var r := RunOutcome(ideaText, stages, fault);
      var i := StageIndex(fault.stage);
      var d := stages.decompose(ideaText);
      var evidence := stages.retrieve(d);
      var synthesis := stages.synthesize(d, evidence);
      && (r.decomposition.Some? <==> i >= 1)
      && (r.decomposition.Some? ==> r.decomposition.value == d)
      && (r.analysis.Some? <==> i >= 3)
      && r.scoring.None?
      && r.citations == (if i <= 1 then [] else if i == 2 then evidence.citations else evidence.citations + synthesis.citations)
  {
  }

  /** When the synthesis stage hands back the retrieval citations followed by its own (as
      `synthesizePatterns` does), the end-of-run dedup drops the repeated copies, so a complete
      report lists the evidence citations once. */
  lemma RepeatedEvidenceDropped(ideaText: string, stages: Stages, extra: seq<Citation>)
    requires var d := stages.decompose(ideaText);
      var evidence := stages.retrieve(d);
      stages.synthesize(d, evidence).citations == evidence.citations + extra
    ensures var evidence := stages.retrieve(stages.decompose(ideaText));
      RunOutcome(ideaText, stages, NoFault).citations == DedupCitations(evidence.citations + extra)
  {
    var evidence := stages.retrieve(stages.decompose(ideaText));
    var a := evidence.citations;
    assert KeysOf(a, CitationKey) <= KeysOf(a, CitationKey);
    DedupBySeenKeys(a, a, extra, CitationKey);
    assert a + (a + extra) == a + a + extra;
  }

  /** With the stages of this model, a complete run lists each evidence citation once: its
      citations are the deduplicated evidence citations followed by those of the failure-mode
      reply. */
  lemma PipelineCitations(ideaText: string, env: Services)
    ensures var stages := PipelineStages(env);
      var evidence := stages.retrieve(stages.decompose(ideaText));
      RunOutcome(ideaText, stages, NoFault).citations ==
        DedupCitations(evidence.citations + ReplyCitations(env.failureModeReply))
  {
    var stages := PipelineStages(env);
    var d := stages.decompose(ideaText);
    var evidence := stages.retrieve(d);
    SynthesizedRepeatsEvidence(d, evidence, env.matchers, env.failureModeReply);
    RepeatedEvidenceDropped(ideaText, stages, ReplyCitations(env.failureModeReply));
  }

  /** The first `n` events of a run are the events of their positions. */
  lemma {:induction false} RunEventsAt(n: nat)
    requires n <= 2 * |STAGE_ORDER|
    ensures |RunEvents(n)| == n
    ensures forall i :: 0 <= i < n ==> RunEvents(n)[i] == RunEvent(i)
  {
    if n > 0 {
      var before := RunEvents(n - 1);
      RunEventsAt(n - 1);
      assert RunEvents(n) == before + [RunEvent(n - 1)];
      forall i | 0 <= i < n
        ensures RunEvents(n)[i] == RunEvent(i)
      {
        if i < n - 1 {
          assert RunEvents(n)[i] == before[i];
        }
      }
    }
  }

  /** A run's progress events announce each stage at 0 and complete it at 100, in stage order,
      each event listing exactly the stages before its own as completed; a run that throws stops
      right after announcing the faulting stage. */
  lemma RunProgressMeaning(fault: Fault)
    ensures var events := RunEvents(EventCount(fault));
      && (forall i :: 0 <= i < |events| ==>
            && StageIndex(events[i].currentStage) == i / 2
            && events[i].stageProgress == (if i % 2 == 0 then 0 else 100)
            && (forall t :: t in events[i].completedStages <==> StageIndex(t) < i / 2))
      && (fault.Throws? ==> events[|events| - 1].currentStage == fault.stage && events[|events| - 1].stageProgress == 0)
      && (fault.NoFault? ==> |events| == 8 && events[7].currentStage == Scoring && events[7].stageProgress == 100)
  {
    var n := EventCount(fault);
    RunEventsAt(n);
    forall i | 0 <= i < n
      ensures StageIndex(RunEvent(i).currentStage) == i / 2
    {
      assert STAGE_ORDER[StageIndex(STAGE_ORDER[i / 2])] == STAGE_ORDER[i / 2];
    }
  }

  // ---------------------------------------------------------------------------------------
  // generateQuickPreview

  /** `generateQuickPreview`: the language-model decomposition, or the local one when the call
      throws anyway (`throws`). Whatever goes wrong, the preview is the local analysis. */
  method GenerateQuickPreview(ideaText: string, reply: Result<string>, parseJson: string -> Option<ParsedDecomposition>, throws: bool)
    returns (d: IdeaDecomposition)
    ensures throws ==> d == LocalDecomposition(ideaText)
    ensures !throws ==> d == LlmDecomposition(ideaText, reply, parseJson)
    ensures (throws || ParsedReply(reply, parseJson).None?) ==> d == LocalDecomposition(ideaText)
  {
    if throws {
      d := DecomposeIdea(ideaText);
    } else {
      d := DecomposeIdeaWithLlm(ideaText, reply, parseJson);
      LlmFallback(ideaText, reply, parseJson);
    }
  }

  // ---------------------------------------------------------------------------------------
  // rerunFromStage

  /** The copy `rerunFromStage` starts from: the next version, generating again. */
  function Bumped(existing: ReportState): ReportState {
    existing.(version := existing.version + 1, status := Generating)
  }

  /** Whether a re-run from `fromStage` re-runs retrieval, synthesis and scoring: only from
      retrieval, and only when the report has a decomposition to start from. */
  predicate RerunsFromRetrieval(existing: ReportState, fromStage: Stage) {
    StageIndex(fromStage) == 1 && existing.decomposition.Some?
  }

  /** The re-run report once its first `n` re-run stages (retrieval, synthesis, scoring) have
      returned: the citations are replaced by the new evidence's, not extended. */
  function Rerun(existing: ReportState, stages: Stages, n: nat): ReportState
    requires existing.decomposition.Some? && n < |STAGE_ORDER|
  {
    var d := existing.decomposition.value;
    var evidence := stages.retrieve(d);
    var synthesis := stages.synthesize(d, evidence);
    Bumped(existing).(
      citations := if n >= 1 then evidence.citations else existing.citations,
      analysis := if n >= 2 then Some(AnalysisOf(synthesis)) else existing.analysis,
      scoring := if n >= 3 then Some(stages.score(d, synthesis)) else existing.scoring)
  }

  /** The report `rerunFromStage` returns. */
  function RerunOutcome(existing: ReportState, fromStage: Stage, stages: Stages, fault: Fault): ReportState {
    if StageIndex(fromStage) == 0 then RunOutcome(existing.originalIdea, stages, fault)
    else if RerunsFromRetrieval(existing, fromStage) then
      if fault.Throws? && StageIndex(fault.stage) >= 1 then
        Errored(Rerun(existing, stages, StageIndex(fault.stage) - 1), fault.message, RERUN_FAILED)
      else Rerun(existing, stages, 3).(status := Complete)
    else Bumped(existing).(status := Complete)
  }

  /** How many progress events a re-run from retrieval reports. */
  function RerunEventCount(fault: Fault): (n: nat)
    ensures n <= |STAGE_ORDER| - 1
  {
    if fault.Throws? && StageIndex(fault.stage) >= 1 then StageIndex(fault.stage) else |STAGE_ORDER| - 1
  }

  /** The events a caller has seen after the first `n` events of a re-run from retrieval. */
  function RerunShown(callbacks: bool, n: nat): seq<PipelineProgress>
    requires n <= |STAGE_ORDER| - 1
  {
    if callbacks then RerunEvents(n) else []
  }

  /** What the progress callback of `rerunFromStage` receives. */
  function RerunReported(existing: ReportState, fromStage: Stage, fault: Fault, callbacks: bool): seq<PipelineProgress> {
    if StageIndex(fromStage) == 0 then Shown(callbacks, EventCount(fault))
    else if RerunsFromRetrieval(existing, fromStage) then RerunShown(callbacks, RerunEventCount(fault))
    else []
  }

  /** `updateProgress` for the `n`-th event of a re-run from retrieval. */
  method AnnounceRerun(reported: seq<PipelineProgress>, callbacks: bool, n: nat) returns (r: seq<PipelineProgress>)
    requires n < |STAGE_ORDER| - 1
    requires reported == RerunShown(callbacks, n)
    ensures r == RerunShown(callbacks, n + 1)
  {
    r := Notify(reported, callbacks, RerunEvent(n));
  }

  /** `rerunFromStage`: a copy of the report, one version on, re-run from the given stage. From
      decomposition that is a whole new run; from retrieval, with a decomposition to start
      from, the later stages re-run on it; otherwise nothing re-runs and the copy is completed. */
  method RerunFromStage(existing: ReportState, fromStage: Stage, stages: Stages, fault: Fault, callbacks: bool)
    returns (report: ReportState, reported: seq<PipelineProgress>)
    ensures report == RerunOutcome(existing, fromStage, stages, fault)
    ensures reported == RerunReported(existing, fromStage, fault, callbacks)
  {
    report := Bumped(existing);
    var startIndex := StageIndex(fromStage);
    if startIndex <= 0 {
      report, reported := RunPipeline(report.originalIdea, stages, fault, callbacks);
      return;
    }
    reported := [];
    if startIndex <= 1 && report.decomposition.Some? {
      var decomposition := report.decomposition.value;
      var announced := 0;  // the progress events so far
      reported := AnnounceRerun(reported, callbacks, announced);
      announced := announced + 1;
      if ThrowsAt(fault, Retrieval) {
        report := Errored(report, fault.message, RERUN_FAILED);
        assert announced == RerunEventCount(fault);
        return;
      }
      var evidence := stages.retrieve(decomposition);
      report := report.(citations := evidence.citations);

      reported := AnnounceRerun(reported, callbacks, announced);
      announced := announced + 1;
      if ThrowsAt(fault, Synthesis) {
        assert report == Rerun(existing, stages, 1);
        report := Errored(report, fault.message, RERUN_FAILED);
        assert announced == RerunEventCount(fault);
        return;
      }
      var synthesis := stages.synthesize(decomposition, evidence);
      report := report.(analysis := Some(AnalysisOf(synthesis)));

      reported := AnnounceRerun(reported, callbacks, announced);
      announced := announced + 1;
      if ThrowsAt(fault, Scoring) {
        assert report == Rerun(existing, stages, 2);
        report := Errored(report, fault.message, RERUN_FAILED);
        assert announced == RerunEventCount(fault);
        return;
      }
      var scoring := stages.score(decomposition, synthesis);
      report := report.(scoring := Some(scoring));
      assert report == Rerun(existing, stages, 3);
      assert announced == RerunEventCount(fault);
    }
    report := report.(status := Complete);
  }

  /** A re-run from decomposition is a whole new run of the original idea: the result does not
      depend on the existing report beyond its idea, and its version starts again at 1. */
  lemma RerunFromStart(existing: ReportState, stages: Stages, fault: Fault)
    ensures var r := RerunOutcome(existing, Decomposition, stages, fault);
      r == RunOutcome(existing.originalIdea, stages, fault) && r.version == 1
  {
    RunStatus(existing.originalIdea, stages, fault);
  }

  /** A re-run from synthesis or scoring, or from retrieval without a decomposition, re-runs
      nothing: only the version and the status change. */
  lemma RerunRunsNothing(existing: ReportState, fromStage: Stage, stages: Stages, fault: Fault)
    requires StageIndex(fromStage) >= 2 || (fromStage == Retrieval && existing.decomposition.None?)
    ensures RerunOutcome(existing, fromStage, stages, fault) == existing.(version := existing.version + 1, status := Complete)
  {
  }

  /** A re-run from retrieval of a decomposed report is the next version, keeps the idea, the
      decomposition and any earlier error message when it completes; it then carries only the
      new evidence's citations and the new analysis and score. A fault in a re-run stage ends it
      in error with the thrown message or the re-run fallback; decomposition is not re-run, so
      a fault there cannot happen. */
  lemma RerunFromRetrieval(existing: ReportState, stages: Stages, fault: Fault)
    requires existing.decomposition.Some?
    ensures var r := RerunOutcome(existing, Retrieval, stages, fault);
      var d := existing.decomposition.value;
      var evidence := stages.retrieve(d);
      var synthesis := stages.synthesize(d, evidence);
      && r.version == existing.version + 1
      && r.originalIdea == existing.originalIdea && r.decomposition == existing.decomposition
      && (r.status == Complete <==> !(fault.Throws? && fault.stage != Decomposition))
      && (r.status == Complete ==>
            && r.error == existing.error
            && r.citations == evidence.citations
            && r.analysis == Some(AnalysisOf(synthesis))
            && r.scoring == Some(stages.score(d, synthesis)))
      && (r.status != Complete ==>
            && r.status == Failure
            && r.error == Some(fault.message.GetOr(RERUN_FAILED))
            && r.scoring == existing.scoring)
  {
  }
}

# FailFast premortem pipeline — a Dafny model

FailFast takes a one-paragraph startup idea and writes a *premortem*: a report on how ideas like
it have failed before. The report is built in four stages:

1. **Decomposition.** The idea is split into a value proposition, a target market, a business
   model, key assumptions and testable hypotheses. A language model is asked first. When it
   fails, a keyword classifier is used instead.
2. **Retrieval.** Evidence is gathered from an answer engine. It covers market size and trends,
   competitors, regulations, and failed startups from a catalogue ranked by keyword relevance.
3. **Synthesis.** The evidence becomes failure modes, market, timing and regulatory risks,
   distribution challenges, and failed and surviving comparables.
4. **Scoring.** Four-level risk scores are computed, with a weighted overall level, a confidence,
   a disclaimer, levers to pull and warnings.

An orchestrator runs the stages. It keeps the report's status, version and citations, and it
reports progress. It can also re-run the report from a given stage. The answer engine is reached
through an adapter with these parts:

- round-robin API keys;
- a response cache with a time-to-live;
- a retry loop that retries only on rate limits;
- a citation parser.

The project models these parts. Each file's form follows its source: decision rules and
parsers are functions with lemmas; list builders that push in loops are methods proved equal to
a specification function; the adapter, whose key index and cache change between calls, is a
class.

| file | module | models |
|---|---|---|
| `wrappers.dfy` | `Wrappers`, `Seqs` | `Option`/`Result`, and sequence helpers (take, map, filter, join, min) |
| `text.dfy` | `Text` | ASCII lower case, trimming, substring search, decimal digits |
| `types.dfy` | `Types` | the records of `src/lib/types.ts`, with their documented ranges as predicates |
| `patterns.dfy` | `Patterns` | the parsers' regular expressions, as parameters |
| `supabase.dfy` | `Startups` | the failed-startup record, search, categories, total burned, money units |
| `perplexity.dfy` | `Perplexity` | request building, cache keys, citation parsing, the retry rule, class `EvidenceAdapter` |
| `dedup.dfy` | `Dedup` | keep-first deduplication by a key |
| `decompose.dfy` | `Decompose` | the keyword classifier, value proposition, assumptions, hypotheses, the LLM path with fallback |
| `retrieve.dfy` | `Retrieve` | market, competitor and regulation parsers, keyword extraction, relevance ranking, fallbacks |
| `synthesize.dfy` | `Synthesize` | the failure-mode catalogue, parsed modes, dedup and cap, risk rules, challenges, comparables |
| `score.dfy` | `Score` | sub-scores, overall level, confidence, disclaimer, levers, warnings |
| `pipeline.dfy` | `Pipeline` | `runPipeline`, progress, citation dedup, quick preview, `rerunFromStage` |
| `prompts.dfy` | `Prompts` | the analysis prompt's listing and the probability read back from an analysis |

Source paths below are relative to the repository root (`src/lib/...`).

## Model

| member | source | states |
|---|---|---|
| Startups.SearchMeaning | src/lib/supabase.ts:78-90 | the search keeps, in input order, exactly the records whose name, description, category or sector contains the lower-cased query |
| Startups.EmptyQueryKeepsAll | src/lib/supabase.ts:82-89 | an empty query keeps every record |
| Startups.LexLessIrreflexive | src/lib/supabase.ts:99 | the default string order of `sort` never puts a string before itself |
| Startups.LexLessTransitive | src/lib/supabase.ts:99 | that order is transitive |
| Startups.LexLessTotal | src/lib/supabase.ts:99 | any two different strings are ordered one way or the other |
| Startups.LeastExists | src/lib/supabase.ts:99 | a non-empty set of strings has a least element, which the sort puts first |
| Startups.GetCategories | src/lib/supabase.ts:93-100 | the result is strictly sorted, without repeats, and holds exactly the non-empty categories and sectors |
| Startups.NoEmptyCategory | src/lib/supabase.ts:96-97 | an empty category or sector is never collected |
| Startups.TotalBurnedAppend | src/lib/supabase.ts:103-107 | the total of two lists of records is the sum of their totals |
| Startups.TotalBurnedBounds | src/lib/supabase.ts:103-107 | records without an amount add nothing; non-negative amounts give a non-negative total |
| Startups.MoneyUnitThresholds | src/lib/supabase.ts:110-121 | billions from 1,000,000,000, millions from 1,000,000, thousands from 1,000, plain dollars below, and a larger amount never gets a smaller unit |
| Perplexity.BuildRequest | src/lib/perplexity.ts:119-132 | the request carries both prompts and the model; the domain filter is sent exactly when one is given and it is non-empty |
| Perplexity.CacheKey | src/lib/perplexity.ts:35-37 | the key is the model, a colon and at most the first 500 characters of the prompt |
| Perplexity.SharedPrefixSharesKey | src/lib/perplexity.ts:35-37 | two prompts that agree on their first 500 characters get the same key for a model |
| Perplexity.KeyDeterminesPrefix | src/lib/perplexity.ts:35-37 | for one model, equal keys mean equal first 500 characters of the prompts |
| Perplexity.FirstUrlError | src/lib/perplexity.ts:45-49 | no error exactly when every source url parses; otherwise the error of the first url that does not, every earlier one parsing |
| Perplexity.FirstUrlErrorIsFirst | src/lib/perplexity.ts:45-49 | the error found belongs to a url that does not parse, and every url before it parses |
| Perplexity.FirstUrlErrorAt | src/lib/perplexity.ts:45-49 | a url that does not parse after urls that all do gives the error the `forEach` throws |
| Perplexity.StructuredStep | src/lib/perplexity.ts:45-56 | one more url that parses extends the structured citations by its own citation |
| Perplexity.StructuredCitations | src/lib/perplexity.ts:45-56 | one citation per structured source, in order; source `i` gets id `citation-(i+1)` and its title falls back to its url |
| Perplexity.DigitRunEnd | src/lib/perplexity.ts:59 | the digit run of `\d+` starting at a position ends at the first non-digit |
| Perplexity.NextRef | src/lib/perplexity.ts:59-61 | a global `exec` from `lastIndex` finds a match that ends strictly later, so the scan moves forward |
| Perplexity.ParseCitations | src/lib/perplexity.ts:42-75 | the loop over the sources, which stops at the first url that does not parse, and the `exec` loop over the content compute exactly `CitationsOf` |
| Perplexity.AddAllInlineKeeps | src/lib/perplexity.ts:61-72 | adding inline placeholders keeps the existing citations as a prefix, keeps ids distinct and gives every reference number a citation |
| Perplexity.StructuredDistinct | src/lib/perplexity.ts:46-48 | structured sources get pairwise different ids |
| Perplexity.CitationsOfProperties | src/lib/perplexity.ts:42-75 | parsing fails exactly when some source url does not parse, with the first such url's error; otherwise the structured citations come first and in order, every inline reference `[k]` has a citation `citation-k`, and no id repeats |
| Perplexity.Advance | src/lib/perplexity.ts:28 | the rotation index stays inside the pool and a full round of steps returns to the start |
| Perplexity.AdvanceInjective | src/lib/perplexity.ts:115-116 | within one round of attempts no key is used twice |
| Perplexity.RetryFrom | src/lib/perplexity.ts:115-185 | while keys remain the loop makes at least one more attempt, and it never makes more than one attempt per key |
| Perplexity.AllRateLimited | src/lib/perplexity.ts:146-185 | when every remaining attempt is rate limited, every key is tried and the last rate-limit error is thrown |
| Perplexity.FirstDecisiveAttempt | src/lib/perplexity.ts:143-181 | the first attempt that is not rate limited ends the loop: its success is returned, any other error is rethrown without trying further keys |
| Perplexity.UnparsableSourceFails | src/lib/perplexity.ts:155-181 | a 2xx reply with a source url that does not parse is no success: the first such url's error goes to the `catch` block, which retries only on a rate-limit message |
| Perplexity.TryOnce | src/lib/perplexity.ts:143-181 | one pass classifies the reply as `Classify` does: a 2xx reply is decoded with its citations, or fails with the error of a source url that does not parse; 429 and "Rate limited" messages are retried; anything else is fatal |
| Perplexity.EvidenceAdapter.constructor | src/lib/perplexity.ts:9-17 | the pool holds exactly the non-empty configured keys, the index starts at 0 and the cache is empty |
| Perplexity.EvidenceAdapter.NonEmpty | src/lib/perplexity.ts:10-14 | `filter(Boolean)` keeps exactly the non-empty keys |
| Perplexity.EvidenceAdapter.NextApiKey | src/lib/perplexity.ts:23-30 | with no keys it fails with the configuration error and changes nothing; otherwise it returns the key at the index and advances the index by one modulo the pool size |
| Perplexity.EvidenceAdapter.TryNextKey | src/lib/perplexity.ts:115-181 | one pass takes the next key in the rotation, advances the index by one and yields that attempt's classification |
| Perplexity.EvidenceAdapter.SendWithRetry | src/lib/perplexity.ts:112-185 | the loop returns what `RetryFrom` decides, the "exhausted" error with no keys, and leaves the index advanced by the number of attempts made |
| Perplexity.EvidenceAdapter.Query | src/lib/perplexity.ts:80-186 | a fresh cache hit is returned with no request and no state change; otherwise the retry loop decides the result, the index advances per attempt, and only a success with caching on is stored under the prompt's key |
| Perplexity.EvidenceAdapter.ClearCache | src/lib/perplexity.ts:191-193 | the cache is emptied |
| Perplexity.EvidenceAdapter.CacheStats | src/lib/perplexity.ts:198-203 | the size is the number of cached keys, and the keys are exactly the cache's |
| Dedup.DedupByKey | src/lib/pipeline/synthesize.ts:117-123 | the filter that consults and fills a set of seen keys computes `DedupBy` |
| Dedup.DedupByMeaning | src/lib/pipeline/synthesize.ts:117-123 | the result is a subsequence of the input, its keys are pairwise different, and every key of the input keeps an element |
| Dedup.DedupByKeepsFirst | src/lib/pipeline/synthesize.ts:117-123 | the first element with a key is the one kept |
| Dedup.DedupByDistinct | src/lib/pipeline/synthesize.ts:117-123 | a list whose keys are already distinct is left unchanged |
| Dedup.DedupByIdempotent | src/lib/pipeline/synthesize.ts:117-123 | deduplicating twice gives what deduplicating once gives |
| Dedup.DedupByPrefix | src/lib/pipeline/synthesize.ts:117-123 | deduplicating a longer list keeps the deduplicated shorter list in front |
| Dedup.DedupBySeenKeys | src/lib/pipeline/index.ts:99-105 | elements whose keys all occurred earlier change nothing |
| Decompose.FirstMatchMeaning | src/lib/pipeline/decompose.ts:48-61 | an if-else keyword chain yields the choice of the first branch whose keywords occur, and the default exactly when no branch fires |
| Decompose.FirstMatchRange | src/lib/pipeline/decompose.ts:48-77 | the chain's result is the default or the choice of one of its branches |
| Decompose.FirstMatchChoice | src/lib/pipeline/decompose.ts:48-77 | a choice made by one branch only is reached only when that branch fires and every earlier branch stays silent |
| Decompose.SmallBusinessIsBusiness | src/lib/pipeline/decompose.ts:49-55 | a text containing "small business" contains "business" |
| Decompose.SmallAndMediumOnlyViaSmb | src/lib/pipeline/decompose.ts:49-56 | the small-and-medium market is chosen only for an idea mentioning "smb" and not "small business", because the enterprise branch tests "business" first |
| Decompose.FirstFiringExists | src/lib/pipeline/decompose.ts:48-77 | if any branch fires then some branch at or before it is the first to fire |
| Decompose.FirstTerminator | src/lib/pipeline/decompose.ts:44 | the index of the first `.`, `!` or `?`, or the length when there is none; no terminator precedes it |
| Decompose.SegmentsArePieces | src/lib/pipeline/decompose.ts:44 | every piece of the split on terminators occurs in the idea and holds no terminator |
| Decompose.FirstNonBlankMeaning | src/lib/pipeline/decompose.ts:44-45 | the first piece with a non-empty trim is found exactly when one exists, and the result is that piece trimmed |
| Decompose.BlankIffNoContent | src/lib/pipeline/decompose.ts:44 | a terminator-free piece trims to non-empty exactly when it has a character that is neither space nor terminator |
| Decompose.ContentAroundTerminator | src/lib/pipeline/decompose.ts:44 | the text has content exactly when the part before or the part after a terminator has |
| Decompose.NonBlankStep | src/lib/pipeline/decompose.ts:44 | splitting off the first sentence keeps "some piece is non-blank iff the text has content" |
| Decompose.NonBlankSegmentIffContent | src/lib/pipeline/decompose.ts:44 | `filter(s => s.trim().length > 0)` leaves a sentence exactly when the idea has any non-space, non-terminator character |
| Decompose.NonBlankWhole | src/lib/pipeline/decompose.ts:44 | a text with no terminator is its own single piece |
| Decompose.ValuePropositionMeaning | src/lib/pipeline/decompose.ts:43-45 | with content, the value proposition is a non-empty, trimmed, terminator-free piece of the idea; otherwise it is the idea's first 200 characters |
| Decompose.PieceOfTerminatorFree | src/lib/pipeline/decompose.ts:44-45 | a piece of a terminator-free text is terminator-free |
| Decompose.TrimmedPiece | src/lib/pipeline/decompose.ts:45 | trimming a terminator-free piece of the idea gives a trimmed, terminator-free piece of the idea |
| Decompose.GenerateAssumptions | src/lib/pipeline/decompose.ts:97-130 | the pushes, group by group, and the cut to five compute `Assumptions` |
| Decompose.AssumptionsShape | src/lib/pipeline/decompose.ts:97-130 | three to five assumptions, the market and budget ones first; the competitive one is kept exactly when at most one conditional group fired |
| Decompose.GenerateHypotheses | src/lib/pipeline/decompose.ts:135-163 | the pushes in their fixed order and the cut to five compute `Hypotheses` |
| Decompose.HypothesesShape | src/lib/pipeline/decompose.ts:135-163 | always five hypotheses, the interest and commitment ones first; the NPS one is kept exactly when at most four precede it |
| Decompose.DecomposeIdea | src/lib/pipeline/decompose.ts:30-92 | the local decomposition of the lower-cased idea, with three to five assumptions, five hypotheses, and the first assumption naming the detected market |
| Decompose.JsonObjectSpan | src/lib/pipeline/decompose.ts:176 | a match of `/\{[\s\S]*\}/` is a piece of the reply that starts with `{` and ends with `}` |
| Decompose.FirstIndexOf | src/lib/pipeline/decompose.ts:176 | the first position of a character, or the length when it is absent |
| Decompose.LastIndexOf | src/lib/pipeline/decompose.ts:176 | the last position of a character, or the length exactly when it is absent |
| Decompose.DecomposeIdeaWithLlm | src/lib/pipeline/decompose.ts:168-193 | the language-model path computes `LlmDecomposition`: parsed fields when the reply yields an object, the local analysis otherwise |
| Decompose.LlmFallback | src/lib/pipeline/decompose.ts:172-192 | fields come from the parsed object, a non-array list becoming empty; a failed query, a reply with no braced span or an unparsable span gives exactly the local decomposition |
| Retrieve.SeparatorRunEnd | src/lib/pipeline/retrieve.ts:128 | the end of the `[:\s]+` run that starts at a position: every character before it is a separator and the one at it is not |
| Retrieve.LabelWordLength | src/lib/pipeline/retrieve.ts:128 | the length of a leading `trend`, `development` or `shift` label (with an optional `s`) never exceeds the text |
| Retrieve.TrendLabelLength | src/lib/pipeline/retrieve.ts:128 | the prefix `^(?:trend\|development\|shift)[s]?[:\s]+` removes, when it matches, ends with a separator |
| Retrieve.StripTrendLabel | src/lib/pipeline/retrieve.ts:128 | removing the label leaves a suffix of the match |
| Retrieve.ParseMarketData | src/lib/pipeline/retrieve.ts:114-143 | the two `forEach` loops compute `ParsedMarketData`: size and growth from their matches or "Not determined", trends and news filtered from the first matches |
| Retrieve.TrendOfMeaning | src/lib/pipeline/retrieve.ts:127-130 | a kept trend is longer than 10 characters, trimmed, and part of its match |
| Retrieve.TrendsShape | src/lib/pipeline/retrieve.ts:124-131 | at most five trends, each clean and part of one of the first five trend matches |
| Retrieve.NewsShape | src/lib/pipeline/retrieve.ts:134-140 | at most three news items, each the trim of one of the first three news matches that is longer than 20 characters |
| Retrieve.Status | src/lib/pipeline/retrieve.ts:209-216 | the status is one of "Shut down", "Acquired", "Struggling" and "Active", the first matching rule winning |
| Retrieve.ParseCompetitorData | src/lib/pipeline/retrieve.ts:184-234 | the loop over the sections, with its `continue`s, computes `ParsedCompetitors` |
| Retrieve.CompetitorOfMeaning | src/lib/pipeline/retrieve.ts:190-230 | a section yields a competitor only when it has at least 30 characters; the name is trimmed with 2 to 50 characters and the status is the section's |
| Retrieve.CompetitorsShape | src/lib/pipeline/retrieve.ts:184-234 | at most ten competitors, each well formed and from a section of at least 30 characters |
| Retrieve.ParseRegulatoryData | src/lib/pipeline/retrieve.ts:271-305 | the loop over the eight-row table computes `ParsedRegulations` |
| Retrieve.RegulationsMeaning | src/lib/pipeline/retrieve.ts:275-304 | a regulation is listed exactly when the reply mentions it, with its row's name and jurisdiction, and at most eight are listed |
| Retrieve.SecurityListsSec | src/lib/pipeline/retrieve.ts:281-287 | `/SEC/gi` matches anywhere, so a reply saying "security" lists SEC regulations |
| Retrieve.KeepWordsAndSpaces | src/lib/pipeline/retrieve.ts:364 | `replace(/[^\w\s]/g, '')` leaves only word characters and white space and adds no upper case |
| Retrieve.SplitOnSpace | src/lib/pipeline/retrieve.ts:365 | `split(/\s+/)` yields at least one piece, and the pieces hold no white space and only characters of the text |
| Retrieve.PiecesAreLowerWords | src/lib/pipeline/retrieve.ts:362-365 | the pieces of lower-cased, cleaned text are lower-case words |
| Retrieve.KeywordsOfLowerWords | src/lib/pipeline/retrieve.ts:366 | the filter keeps only words longer than two characters that are not stop words |
| Retrieve.ExtractKeywordsMeaning | src/lib/pipeline/retrieve.ts:353-367 | every keyword is a lower-case word longer than two characters and not a stop word |
| Retrieve.ScoreRecord | src/lib/pipeline/retrieve.ts:328-333 | the scoring loop computes `Relevance` |
| Retrieve.RelevanceMeaning | src/lib/pipeline/retrieve.ts:328-333 | the score is at most the number of idea keywords, and positive exactly when some idea keyword contains or is contained in a record keyword |
| Retrieve.ScoreAll | src/lib/pipeline/retrieve.ts:322-336 | one score per catalogue record, in catalogue order |
| Retrieve.Insert | src/lib/pipeline/retrieve.ts:341 | inserting adds exactly one element |
| Retrieve.SortByScore | src/lib/pipeline/retrieve.ts:341 | the sort is a permutation of its input |
| Retrieve.InsertSorted | src/lib/pipeline/retrieve.ts:341 | inserting into a list sorted by descending score keeps it sorted |
| Retrieve.SortByScoreSorted | src/lib/pipeline/retrieve.ts:341 | the result is in descending score order |
| Retrieve.InsertStable | src/lib/pipeline/retrieve.ts:341 | among the elements with any one score, the inserted element comes first and the others keep their order |
| Retrieve.SortByScoreStable | src/lib/pipeline/retrieve.ts:341 | the sort is stable: records with equal scores keep their catalogue order |
| Retrieve.TopScoredSorted | src/lib/pipeline/retrieve.ts:339-342 | at most ten records, in descending score order |
| Retrieve.TopScoredMembers | src/lib/pipeline/retrieve.ts:339-342 | every listed record was scored, with a positive score |
| Retrieve.CutKeepsHighest | src/lib/pipeline/retrieve.ts:342 | the cut to ten drops a record only when ten kept records score at least as high |
| Retrieve.TopScoredComplete | src/lib/pipeline/retrieve.ts:339-342 | a positive-score record is missing only when ten records scoring at least as high are listed |
| Retrieve.RecordsOf | src/lib/pipeline/retrieve.ts:343 | the records of the scored entries, in order |
| Retrieve.PositiveScoreRelated | src/lib/pipeline/retrieve.ts:328-340 | a record with a positive score is related to some idea keyword |
| Retrieve.RankedRecordsPositive | src/lib/pipeline/retrieve.ts:339-343 | at most ten records, each from a scored entry with a positive score |
| Retrieve.RankedRecordsRelevant | src/lib/pipeline/retrieve.ts:322-343 | at most ten catalogue records, each related to some idea keyword |
| Retrieve.HistoricalFailuresRelevant | src/lib/pipeline/retrieve.ts:310-348 | at most ten failures, each a catalogue record sharing a keyword relation with the idea's text |
| Retrieve.RetrieveEvidenceFallbacks | src/lib/pipeline/retrieve.ts:45-266 | a failed query never aborts retrieval: unknown market data, no competitors, no regulations, and no citations from that reply |
| Retrieve.GatheredCitations | src/lib/pipeline/retrieve.ts:96-259 | the gathered citations are exactly those of the successful replies, each kept once per occurrence |
| Synthesize.CatalogueProbability | src/lib/pipeline/synthesize.ts:139-205 | the catalogue's probabilities lie between 50 and 75 percent |
| Synthesize.ModeIdInjective | src/lib/pipeline/synthesize.ts:136-243 | mode ids built from different numbers differ |
| Synthesize.CatalogueModeProbability | src/lib/pipeline/synthesize.ts:135-210 | a catalogue mode carries its entry's probability |
| Synthesize.CatalogueModeName | src/lib/pipeline/synthesize.ts:135-210 | a catalogue mode carries its entry's name |
| Synthesize.ModesOf | src/lib/pipeline/synthesize.ts:129-213 | one mode per selected entry |
| Synthesize.EntriesOrdered | src/lib/pipeline/synthesize.ts:129-213 | one to six entries, in catalogue order and so without repetition, ending with premature scaling |
| Synthesize.EntriesPresent | src/lib/pipeline/synthesize.ts:134-201 | an entry is selected exactly when its keyword test on the lower-cased business model holds; premature scaling always is |
| Synthesize.CatalogueNamesDistinct | src/lib/pipeline/synthesize.ts:137-203 | the six catalogue names differ even after lower-casing |
| Synthesize.ModesDistinct | src/lib/pipeline/synthesize.ts:129-213 | modes for entries in catalogue order have names distinct up to case |
| Synthesize.ModesValid | src/lib/pipeline/synthesize.ts:129-213 | catalogue modes are valid failure modes with probabilities from 50 to 75 |
| Synthesize.AnalyzeFailurePatternsValid | src/lib/pipeline/synthesize.ts:129-213 | `analyzeFailurePatterns` yields valid modes with names distinct up to case |
| Synthesize.Numbered | src/lib/pipeline/synthesize.ts:243 | each parsed mode gets the id of its position among the modes pushed |
| Synthesize.NumberedSnoc | src/lib/pipeline/synthesize.ts:242-251 | pushing one more mode numbers it after the ones before |
| Synthesize.ParsedModesStep | src/lib/pipeline/synthesize.ts:224-252 | one more section adds its mode, if any, numbered after the modes before it |
| Synthesize.ParseFailureModes | src/lib/pipeline/synthesize.ts:218-255 | the loop over the sections, with its `continue`s, computes `ParsedFailureModes` |
| Synthesize.FailureModeOfMeaning | src/lib/pipeline/synthesize.ts:224-251 | a section yields a mode only with at least 50 characters; the name is trimmed with 5 to 100 characters, probability 50 and timeframe "12-24 months" when not matched, no triggers, mitigations or citations |
| Synthesize.ParsedFailureModesShape | src/lib/pipeline/synthesize.ts:218-255 | at most five parsed modes with distinct ids, each from a section of at least 50 characters |
| Synthesize.IdentifyFailureModes | src/lib/pipeline/synthesize.ts:72-124 | the parsed modes (none when the query fails) then the catalogue modes, deduplicated by lower-cased name and cut to seven; the reply's citations are appended |
| Synthesize.CombinedModesShape | src/lib/pipeline/synthesize.ts:113-123 | at most seven modes, names distinct up to case, each parsed or from the catalogue, the deduplicated parsed modes first |
| Synthesize.UniqueNameKept | src/lib/pipeline/synthesize.ts:117-123 | a mode whose name no earlier mode has is kept when there are at most seven |
| Synthesize.ModeKept | src/lib/pipeline/synthesize.ts:113-123 | with room for all, every catalogue mode whose name no parsed mode shares is reported |
| Synthesize.CatalogueModeKept | src/lib/pipeline/synthesize.ts:80-123 | with room for all, every catalogue mode the business model calls for is reported unless a parsed mode has its name |
| Synthesize.RiskPrevalence | src/lib/pipeline/synthesize.ts:276-350 | every rule's historical prevalence is a percentage |
| Synthesize.FailureEvidence | src/lib/pipeline/synthesize.ts:291 | one evidence line per failed competitor |
| Synthesize.RisksFor | src/lib/pipeline/synthesize.ts:264-311 | one risk per rule that fired |
| Synthesize.RiskIdsDistinct | src/lib/pipeline/synthesize.ts:269-343 | different rules push different ids |
| Synthesize.RisksForFields | src/lib/pipeline/synthesize.ts:264-355 | each pushed risk has its rule's id and prevalence and no citations |
| Synthesize.ReportsExactly | src/lib/pipeline/synthesize.ts:264-355 | risks tagged with the ids of some rules report exactly those rules |
| Synthesize.RisksForMeaning | src/lib/pipeline/synthesize.ts:264-355 | pushed risks report a rule exactly when it fired, and all are valid with no citations |
| Synthesize.RiskKindsMeaning | src/lib/pipeline/synthesize.ts:267-341 | a market or timing rule fires exactly when its condition holds |
| Synthesize.MarketRisksMeaning | src/lib/pipeline/synthesize.ts:260-312 | saturation for more than five competitors, prior failures for any failed competitor, limited size for an unknown or millions market, and nothing else |
| Synthesize.TimingRisksMeaning | src/lib/pipeline/synthesize.ts:317-356 | the AI hype risk when the value proposition mentions ai, gpt or llm, late entry when the trends speak of decline or maturity, and nothing else |
| Synthesize.RiskLevelCases | src/lib/pipeline/synthesize.ts:273-347 | critical exactly for saturation above ten competitors or more than two prior failures; moderate exactly for market size; never low |
| Synthesize.MarketRiskLevels | src/lib/pipeline/synthesize.ts:273-304 | a market risk is critical exactly in those two cases |
| Synthesize.SaturationNeverCritical | src/lib/pipeline/synthesize.ts:267-278 | on retrieved evidence the saturation risk is never critical, because the competitor parser keeps at most ten competitors |
| Synthesize.FailedCompetitorsMeaning | src/lib/pipeline/synthesize.ts:281-283 | the competitors counted as failed are exactly those whose lower-cased status says "shut" or "failed" |
| Synthesize.PriorFailuresEvidence | src/lib/pipeline/synthesize.ts:281-294 | the prior-failures rule fires exactly when some competitor has failed, and lists "name - status" for each |
| Synthesize.TrendSignalsMaturity | src/lib/pipeline/synthesize.ts:339-341 | one trend speaking of decline or maturity suffices for the late-entry risk |
| Synthesize.RegulatoryRisks | src/lib/pipeline/synthesize.ts:361-374 | one risk per regulation |
| Synthesize.RegulatoryRiskFields | src/lib/pipeline/synthesize.ts:362-373 | a regulatory risk has its position's id, the level its cost calls for, prevalence 30 and no citations |
| Synthesize.RegulatoryRisksMeaning | src/lib/pipeline/synthesize.ts:361-374 | one risk per regulation, in order, with distinct ids, the cost's level, valid and without citations |
| Synthesize.CostLevelOfAmount | src/lib/pipeline/synthesize.ts:367-369 | a cost written as `$` and a whole number is elevated exactly above 50000 |
| Synthesize.MillionsReadAsDigits | src/lib/pipeline/synthesize.ts:367 | "$2 million" reads as 2 and is moderate |
| Synthesize.DistributionChallenges | src/lib/pipeline/synthesize.ts:379-424 | one challenge per condition that holds |
| Synthesize.ChallengeIdsDistinct | src/lib/pipeline/synthesize.ts:390-414 | the three challenges have different ids |
| Synthesize.ChallengeKindsMeaning | src/lib/pipeline/synthesize.ts:388-412 | a challenge is raised exactly when its condition holds, and at most three are |
| Synthesize.ChallengeKindsDistinct | src/lib/pipeline/synthesize.ts:383-423 | no challenge is raised twice |
| Synthesize.ChallengeIdsUnique | src/lib/pipeline/synthesize.ts:383-423 | challenges tagged with distinct kinds have distinct ids |
| Synthesize.ChallengeFields | src/lib/pipeline/synthesize.ts:389-420 | each raised challenge has its kind's id and severity and the distribution type |
| Synthesize.DistributionChallengesMeaning | src/lib/pipeline/synthesize.ts:379-424 | at most three distribution challenges with distinct ids; only the app store one is critical |
| Synthesize.AppStoreMatchesViralLoop | src/lib/pipeline/synthesize.ts:173-400 | the app store challenge is raised exactly for business models whose catalogue includes the viral-loop failure |
| Synthesize.Similarities | src/lib/pipeline/synthesize.ts:442 | the category and the sector, each kept exactly when non-empty |
| Synthesize.Lessons | src/lib/pipeline/synthesize.ts:441 | the failure reason is the only lesson when it is present and non-empty, otherwise there is none |
| Synthesize.CategorizeComparables | src/lib/pipeline/synthesize.ts:429-460 | the first five failures, and at most five surviving competitors |
| Synthesize.FailedComparablesMeaning | src/lib/pipeline/synthesize.ts:433-444 | a failed comparable copies its failure's id, name, year and money burned, with the failed outcome, lessons and similarities |
| Synthesize.SurvivingComparablesMeaning | src/lib/pipeline/synthesize.ts:446-457 | every surviving comparable comes from a competitor that has not failed, acquired exactly when its status says so |
| Synthesize.CompetitorsSplit | src/lib/pipeline/synthesize.ts:281-447 | each competitor is either counted as a prior failure or becomes a surviving comparable, never both |
| Synthesize.SynthesizedRepeatsEvidence | src/lib/pipeline/synthesize.ts:41-104 | the synthesis citations are the retrieval citations followed by those of the failure-pattern reply |
| Synthesize.SynthesizePatterns | src/lib/pipeline/synthesize.ts:32-67 | the result is assembled from the failure modes, the four rule-based analyses and the comparables, with the evidence's citations first |
| Score.Ordinal | src/lib/pipeline/score.ts:140-148 | every level maps to a number from 1 to 4 |
| Score.LevelOfOrdinal | src/lib/pipeline/score.ts:140-158 | converting a level's number back gives the level |
| Score.LevelOfHundredthsNearest | src/lib/pipeline/score.ts:153-158 | between 1 and 4 the conversion picks the nearest level, halves rounding up |
| Score.LevelOfHundredthsBetween | src/lib/pipeline/score.ts:153-158 | a score between two level numbers converts to a level between them |
| Score.CountLevel | src/lib/pipeline/score.ts:102-103 | a level's count never exceeds the number of risks |
| Score.CountLevelZero | src/lib/pipeline/score.ts:102-103 | a level's count is zero exactly when no risk has that level |
| Score.Levels | src/lib/pipeline/score.ts:102-103 | the levels of the risks, in order |
| Score.CountLevelIsMultiplicity | src/lib/pipeline/score.ts:102-103 | a level's count is its multiplicity among the levels |
| Score.CategoryScoreMeaning | src/lib/pipeline/score.ts:99-109 | CRITICAL for two critical risks; ELEVATED for one critical or, with none, two elevated; MODERATE for exactly one elevated and no critical; LOW exactly when every risk is moderate or low, the empty list included |
| Score.CategoryScoreOrderFree | src/lib/pipeline/score.ts:99-109 | the category score depends only on how many risks have each level |
| Score.CategoryScoreMonotone | src/lib/pipeline/score.ts:99-109 | one more risk never lowers the category score |
| Score.CompetitionScoreMeaning | src/lib/pipeline/score.ts:114-121 | CRITICAL exactly when the failed-to-surviving ratio reaches 3, so the five-against-one clause never decides; ELEVATED exactly below that with ratio 2 or three failures; LOW without failures |
| Score.CompetitionScoreMonotone | src/lib/pipeline/score.ts:114-121 | more failures never lower the competition score and more survivors never raise it |
| Score.SumProbabilityBounds | src/lib/pipeline/score.ts:128 | probabilities between two bounds sum to between the bounds times their count |
| Score.MeanAtLeastBetween | src/lib/pipeline/score.ts:127-129 | the mean reaches a threshold when the lowest probability does, and not when the highest stays below it |
| Score.ExecutionScoreBetween | src/lib/pipeline/score.ts:126-135 | no failure modes gives MODERATE through the default mean of 50; otherwise the score lies between the levels of the lowest and the highest probability |
| Score.ExecutionScoreUniform | src/lib/pipeline/score.ts:126-135 | equal probabilities give that probability's level |
| Score.OverallBetween | src/lib/pipeline/score.ts:66-70 | the overall level lies between the lowest and the highest sub-score |
| Score.OverallUniform | src/lib/pipeline/score.ts:66-70 | five equal sub-scores give that level overall |
| Score.Confidence | src/lib/pipeline/score.ts:80 | the confidence lies between 40 and 85 |
| Score.ConfidenceGrowth | src/lib/pipeline/score.ts:73-80 | more evidence never lowers the confidence; it grows strictly up to fifteen items and is capped at 85 exactly from fifteen items |
| Score.DisclaimerMentionsConfidence | src/lib/pipeline/score.ts:163-172 | the disclaimer of every level states the confidence as a percentage |
| Score.CalculateRiskScore | src/lib/pipeline/score.ts:50-94 | a valid score whose breakdown is the five sub-scores, whose overall level is their weighted level and lies between them, with the evidence's confidence stated in the disclaimer |
| Score.EmptySynthesisScore | src/lib/pipeline/score.ts:50-135 | a synthesis with nothing in it scores LOW everywhere except execution, which is MODERATE, LOW overall at confidence 40 |
| Score.LeverRank | src/lib/pipeline/score.ts:198-273 | each fixed lever has its position in the push order |
| Score.Prefixed | src/lib/pipeline/score.ts:225-238 | each item with the prefix in front, in order |
| Score.AnalysisSteps | src/lib/pipeline/score.ts:269-271 | one "Analyze name: difference" step per comparable, with the default when the first difference is missing or empty |
| Score.PushedKindsMeaning | src/lib/pipeline/score.ts:198-273 | the first checks push exactly the applying kinds of lower rank, in rank order |
| Score.RankIncreasingBound | src/lib/pipeline/score.ts:198-273 | in a rank-ordered list no kind sits after its rank |
| Score.LeverKindsMeaning | src/lib/pipeline/score.ts:198-273 | a fixed lever is pushed exactly when its condition holds, and in the fixed order |
| Score.MitigationLevers | src/lib/pipeline/score.ts:184-196 | at most one lever per failure mode |
| Score.MitigationLeversMeaning | src/lib/pipeline/score.ts:184-196 | one lever per mode with mitigations, in order, numbered by the levers before it |
| Score.PushMitigationLevers | src/lib/pipeline/score.ts:184-196 | the loop computes `MitigationLevers` |
| Score.PushFixedLevers | src/lib/pipeline/score.ts:198-273 | the five checks append exactly the fixed levers that apply, in order |
| Score.GenerateLevers | src/lib/pipeline/score.ts:177-276 | the mitigation levers of the first three failure modes, then the applying fixed levers, cut to six |
| Score.LeverIdsDistinct | src/lib/pipeline/score.ts:201-263 | the fixed levers have different ids |
| Score.MitigationIdNotKindId | src/lib/pipeline/score.ts:187-263 | a mitigation lever's id is never a fixed lever's id |
| Score.FixedLeverPresence | src/lib/pipeline/score.ts:181-275 | in such a layout a fixed lever is present exactly when its kind was pushed, no later than its rank after the mitigation levers |
| Score.MitigationLeverIds | src/lib/pipeline/score.ts:187 | the mitigation levers are numbered from 0 |
| Score.MakeLeverIds | src/lib/pipeline/score.ts:201-263 | the fixed lever of each kind carries that kind's id |
| Score.LayoutOf | src/lib/pipeline/score.ts:181-273 | mitigation levers followed by fixed levers form the lever layout |
| Score.AllLeversLayout | src/lib/pipeline/score.ts:181-273 | the full list is the mitigation levers, then the pushed fixed levers |
| Score.AllLeversHold | src/lib/pipeline/score.ts:181-273 | before the cut a fixed lever is present exactly when its condition holds, within its rank after the mitigation levers |
| Score.CutLevers | src/lib/pipeline/score.ts:275 | the cut to six keeps a prefix, keeps a lever found within the first six, and drops one only from a full cut |
| Score.LeversMeaning | src/lib/pipeline/score.ts:177-276 | at most six levers, a prefix of all; a fixed lever only when its condition holds; the first three fixed kinds are never cut; a lever is missing only when six are returned |
| Score.MitigationLeverFields | src/lib/pipeline/score.ts:184-196 | each mitigation lever comes from one of the first three modes with mitigations: "Mitigate: name", the first mitigation, all mitigations as steps, high impact exactly at probability 60, medium effort, product category |
| Score.DifferentiationForCrowdedMarket | src/lib/pipeline/score.ts:199 | across the stages, the differentiation lever is due exactly when more than five competitors were found |
| Score.CompetitionCategoryOnlySaturation | src/lib/pipeline/synthesize.ts:270-344 | only the saturation risk has the Competition category |
| Score.ModeWarnings | src/lib/pipeline/score.ts:285-294 | one warning per failure mode, numbered by position |
| Score.RiskWarnings | src/lib/pipeline/score.ts:297-306 | one warning per market risk, numbered after those before it |
| Score.GenerateWarnings | src/lib/pipeline/score.ts:281-328 | the pushes compute `Warnings` |
| Score.WarningsUncut | src/lib/pipeline/score.ts:285-327 | at most four mode warnings and two risk warnings precede the two fixed ones, so the cut to eight drops nothing |
| Score.ModeWarningUrgencies | src/lib/pipeline/score.ts:292 | a mode warning is ELEVATED exactly at probability 60 or more, else MODERATE |
| Score.RiskWarningUrgencies | src/lib/pipeline/score.ts:304 | a risk warning has the risk's level |
| Score.WarningUrgencies | src/lib/pipeline/score.ts:281-328 | the mode warnings' urgencies follow the probabilities, the risk warnings' the risk levels, and the runway and retention warnings close the list |
| Score.ModeWarningIds | src/lib/pipeline/score.ts:287 | mode warnings are numbered from 0 |
| Score.RiskWarningIds | src/lib/pipeline/score.ts:299 | risk warnings are numbered from the number of mode warnings |
| Score.LayoutOfWarnings | src/lib/pipeline/score.ts:285-325 | the pushed warnings are laid out by kind |
| Score.WarningsLayout | src/lib/pipeline/score.ts:281-328 | the returned warnings are laid out by kind |
| Score.WarningLayoutIdPair | src/lib/pipeline/score.ts:287-319 | two warnings of the layout never share an id |
| Score.WarningIdsDistinct | src/lib/pipeline/score.ts:281-328 | no two warnings share an id |
| Score.ScoreRisks | src/lib/pipeline/score.ts:27-45 | the result is the risk score, the levers and the warnings |
| Pipeline.StageIndex | src/lib/pipeline/index.ts:130-131 | every stage has its position in the stage order |
| Pipeline.UpdateProgress | src/lib/pipeline/index.ts:122-140 | the event names the stage, progress and message given, and lists as completed exactly the stages before it, in order |
| Pipeline.DedupCitations | src/lib/pipeline/index.ts:98-105 | a subsequence of the citations with one citation per url-or-title key, none lost, and left unchanged by a second pass |
| Pipeline.EventCount | src/lib/pipeline/index.ts:42-92 | a run reports at most eight progress events |
| Pipeline.Announce | src/lib/pipeline/index.ts:122-140 | each announcement adds the next event of the run exactly when a callback is given |
| Pipeline.RunPipeline | src/lib/pipeline/index.ts:22-117 | the report is filled stage by stage until a stage throws, and the callback sees exactly the events of the stages reached |
| Pipeline.RunStatus | src/lib/pipeline/index.ts:29-111 | a run is a first version of the idea; complete with no error exactly when no stage throws, in error with the thrown message or "An unknown error occurred" exactly when one does |
| Pipeline.CompletedRun | src/lib/pipeline/index.ts:56-105 | a complete run carries every stage's result, and its citations are those of retrieval and synthesis with one per key, none lost |
| Pipeline.FailedRunKeepsEarlierStages | src/lib/pipeline/index.ts:40-116 | a failed run keeps the results of the stages that returned before the fault and nothing after, its citations not deduplicated |
| Pipeline.RepeatedEvidenceDropped | src/lib/pipeline/index.ts:63-105 | when synthesis hands back the retrieval citations followed by its own, the final dedup lists the evidence citations once |
| Pipeline.PipelineCitations | src/lib/pipeline/index.ts:63-105 | with this model's stages, a complete run's citations are the deduplicated evidence citations followed by the failure-mode reply's |
| Pipeline.RunEventsAt | src/lib/pipeline/index.ts:42-92 | the first events of a run are the events of their positions |
| Pipeline.RunProgressMeaning | src/lib/pipeline/index.ts:42-140 | each stage is announced at 0 and completed at 100, in order, with exactly the earlier stages completed; a failed run stops right after announcing the faulting stage |
| Pipeline.GenerateQuickPreview | src/lib/pipeline/index.ts:145-154 | the language-model decomposition, or the local one when the call throws or the reply yields no object |
| Pipeline.RerunEventCount | src/lib/pipeline/index.ts:180-194 | a re-run reports at most three progress events |
| Pipeline.AnnounceRerun | src/lib/pipeline/index.ts:180-194 | each announcement adds the next re-run event exactly when a callback is given |
| Pipeline.RerunFromStage | src/lib/pipeline/index.ts:159-209 | the re-run report and the events the callback sees are those `RerunOutcome` and `RerunReported` describe |
| Pipeline.RerunFromStart | src/lib/pipeline/index.ts:171-176 | a re-run from decomposition is a new run of the original idea, starting again at version 1 |
| Pipeline.RerunRunsNothing | src/lib/pipeline/index.ts:164-202 | from synthesis or scoring, or from retrieval without a decomposition, only the version and the status change |
| Pipeline.RerunFromRetrieval | src/lib/pipeline/index.ts:164-208 | from retrieval the next version keeps the idea and decomposition; when complete it keeps the old error and carries only the new evidence's citations and the new analysis and score; on a fault it is in error with the message or "Re-run failed" |
| Prompts.ListedLinesShape | src/lib/prompts.ts:96-99 | one line for each of the first twenty startups, in order, and no more |
| Prompts.StartupLineCut | src/lib/prompts.ts:97-98 | a line shows the whole name and category and the description cut to its first hundred characters |
| Prompts.PromptStatesIdea | src/lib/prompts.ts:91-120 | the prompt contains the idea |
| Prompts.PromptListsStartup | src/lib/prompts.ts:91-120 | the prompt contains the line of each of the first twenty startups |
| Prompts.ExtractProbabilityFromAnalysis | src/lib/prompts.ts:122-150 | the two rates always sum to 100; a stated success rate wins, a stated failure rate is used only without one, the defaults are 15 and 85, and the time span falls back to "18-24 months" |
| Prompts.ExtractedRateOverHundred | src/lib/prompts.ts:133-143 | a stated success rate of 150% yields a failure rate of -50, since the captured digits are not bounded |

## Left out

- `getFailedStartups` (`src/lib/supabase.ts:41-75`) is a database query. The catalogue it returns is an input: `catalogue` in `Pipeline.Services`, or the `startups` argument.
- The HTTP `fetch` of the answer engine is the `fetch` parameter of `Perplexity.EvidenceAdapter.Query`. The parameter is a function of the request, the key and the attempt number. Each stage's reply to its query is an input (`Pipeline.Services`).
- `JSON.parse` is the `parseJson` parameter of the LLM decomposition. The regular expressions of the market, competitor and regulation parsers and the failure-mode parser are the `Patterns.Matchers` parameters. The probability patterns are `Prompts.ProbabilityPatterns`. Every property about these parsers holds whatever the patterns return. Only the simple matchers (keyword tests, the sentence split, the `[k]` references, the JSON object span, keyword extraction) are written out.
- `new URL(url).hostname` is the `hostOf` parameter of the citation parser. The parameter gives the host name or the message of the error the constructor throws. Which urls parse is not modelled.
- `Date.now()` is the `now` and `doneAt` parameters of the adapter. The `Math.random()` parts of ids are dropped. The report id, `createdAt` and `updatedAt` are not modelled. Citation, risk and comparable ids keep only their deterministic part.
- `formatMoney`'s `toFixed` text is not modelled. `Startups.MoneyUnitThresholds` states only the choice of unit.
- The prompt text constants are not modelled. The templates are a `Prompts.PromptTexts` parameter. The system prompts and `maxTokens` values of each query are passed through `Perplexity.Options` unchanged. The model does not state those values.
- Score.OverallBetween: floating point is not modelled. The weights 0.25/0.15/0.15/0.25/0.20 are exact hundredths, and the thresholds 3.5/2.5/1.5 are 350/250/150. In double arithmetic the weighted sum of the ordinal tuples (2,3,1,4,2), (3,3,1,3,2), (4,1,3,2,2) and (4,3,1,2,2) comes out as 2.4999999999999996 rather than 2.5. The source therefore gives MODERATE (not executed) where the model gives ELEVATED.
- Score.CompetitionScoreMeaning: the `failed / surviving` ratio is a floating-point division in the source. The model compares it exactly, by cross-multiplication.
- Score.ExecutionScoreBetween: the mean failure-mode probability is a floating-point division in the source. The model compares the sum against the threshold times the count.
- Retrieve.GatheredCitations: the four retrieval queries run concurrently under `Promise.all` and share one citation array. The model runs them in sequence. The order is market, competitor, regulatory. The order in which the source appends them is not fixed.
- Strings are sequences of characters. UTF-16 surrogate pairs are not modelled. `toLowerCase` is modelled for ASCII letters only.
- The orchestrator takes its four stages as the `Pipeline.Stages` parameter. `Pipeline.PipelineStages` instantiates them with the stage models. The whole-run lemmas hold for any stages.
- An exception escaping a stage at run time is the `Pipeline.Fault` parameter. In the model, the stage models themselves are total.
- The progress callback is modelled as the list of progress events it receives, in order.
- The report is a value. `runPipeline` returns a report no caller sees before it is complete, and `rerunFromStage` works on a copy.
- A stage name outside the four is excluded by the `Stage` type. The source handles one through `indexOf` returning -1, which re-runs from the start like `decomposition`.
- Console logging is not modelled.
- Perplexity.EvidenceAdapter.CacheStats: the keys are returned as a set. The insertion order of the `Map` keys that `getCacheStats` lists is not modelled.
- The interfaces of `src/lib/types.ts` that no core function builds or reads are not modelled. Those are the database row, UI state and API payload types.

## Notes on the code

The model follows the code in these places:

- A stated success or failure rate is not capped. 150% gives rates 150 and -50 (`Prompts.ExtractedRateOverHundred`).
- The regulation row for SEC matches the word "security" in any case (`Retrieve.SecurityListsSec`).
- An unmatched market size or growth rate is "Not determined". A failing market query gives "Unknown".
- Keyword tests are substring tests. "ai" is found inside words such as "email".
- A compliance cost of "$2 million" reads as the number 2. It is therefore a MODERATE regulatory risk (`Synthesize.MillionsReadAsDigits`).
- The saturation risk is CRITICAL above ten competitors, but the competitor parser keeps at most ten. That branch therefore never fires on retrieved evidence (`Synthesize.SaturationNeverCritical`).
- The competition clause "at least 5 failed and at most 1 surviving" never decides the level. The ratio rule already gives CRITICAL there.
- The small-and-medium-business market is reachable only through "smb", because the "business" keyword comes first in the rule order (`Decompose.SmallAndMediumOnlyViaSmb`).
- The orchestrator's fallback to local decomposition is unreachable, because `decomposeIdeaWithLLM` catches its own failures.
- Synthesis copies the evidence citations into its own list, so a run's citations hold each evidence citation twice before the final dedup removes the repeats (`Pipeline.RepeatedEvidenceDropped`).
- `rerunFromStage` from `decomposition` returns a new run with version 1.
- From `retrieval`, the citations are replaced by the retrieval citations only.
- From `synthesis` or `scoring`, nothing re-runs, yet the status becomes complete.
- A completed re-run keeps an earlier error message.

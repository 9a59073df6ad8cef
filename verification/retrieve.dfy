/** Pipeline stage 2, evidence retrieval (a model of `src/lib/pipeline/retrieve.ts`): parsing the
    three research replies into market, competitor and regulatory data, and ranking catalogue
    failures by keyword overlap with the idea. The replies of the research service and the rows
    of the failure catalogue are inputs; the regular expressions that are not written out here
    are the `Matchers` oracle. */
module Retrieve {
  import opened Wrappers
  import opened Seqs
  import opened Text
  import opened Types
  import opened Patterns
  import opened Startups

  datatype MarketData = MarketData(size: string, growthRate: string, trends: seq<string>, recentNews: seq<string>)

  datatype CompetitorData = CompetitorData(
    name: string,
    description: string,
    funding: Option<string>,
    status: string,
    website: Option<string>,
    strengths: seq<string>,
    weaknesses: seq<string>)

  datatype RegulatoryData = RegulatoryData(regulation: string, jurisdiction: string, impact: string, complianceCost: string)

  datatype RetrievalResult = RetrievalResult(
    marketData: MarketData,
    competitors: seq<CompetitorData>,
    regulations: seq<RegulatoryData>,
    historicalFailures: seq<FailedStartup>,
    citations: seq<Citation>)

  const NOT_DETERMINED := "Not determined"
  const UNKNOWN := "Unknown"
  const ANNUALLY := "% annually"

  /** What a failed market query yields. */
  const DEFAULT_MARKET := MarketData(UNKNOWN, UNKNOWN, [], [])

  // ---------------------------------------------------------------------------------------
  // Market data

  predicate IsLabelSeparator(c: char) { c == ':' || IsSpace(c) }

  /** The end of the run of separators starting at `k`. */
  function SeparatorRunEnd(s: string, k: nat): (e: nat)
    requires k <= |s|
    ensures k <= e <= |s|
    ensures forall i :: k <= i < e ==> IsLabelSeparator(s[i])
    ensures e == |s| || !IsLabelSeparator(s[e])
    decreases |s| - k
  {
    if k < |s| && IsLabelSeparator(s[k]) then SeparatorRunEnd(s, k + 1) else k
  }

  /** The length of the lower-case label word `lower` starts with, or 0. */
  function LabelWordLength(lower: string): (n: nat)
    ensures n <= |lower|
  {
    if "trend" <= lower then 5
    else if "development" <= lower then 11
    else if "shift" <= lower then 5
    else 0
  }

  /** The length of the prefix `^(?:trend|development|shift)[s]?[:\s]+` matches, case-insensitively;
      0 when it does not match. An `s` after the word is only taken when a separator follows. */
  function TrendLabelLength(s: string): (n: nat)
    ensures n <= |s|
    ensures n > 0 ==> IsLabelSeparator(s[n - 1])
  {
    var lower := Lower(s);
    var word := LabelWordLength(lower);
    if word == 0 then 0
    else
      var afterPlural := if word < |lower| && lower[word] == 's' then word + 1 else word;
      var e := SeparatorRunEnd(lower, afterPlural);
      if e == afterPlural then 0 else e
  }

  /** A trend match with its leading label removed: a suffix of it. */
  function StripTrendLabel(found: string): (r: string)
    ensures |r| <= |found| && found == found[..|found| - |r|] + r
  {
    found[TrendLabelLength(found)..]
  }

  /** A trend match with its label removed and trimmed, kept when longer than 10 characters. */
  function TrendOf(found: string): Option<string> {
    var cleaned := Trim(StripTrendLabel(found));
    if |cleaned| > 10 then Some(cleaned) else None
  }

  /** A news match, kept when longer than 20 characters (before trimming), trimmed. */
  function NewsOf(found: string): Option<string> {
    if |found| > 20 then Some(Trim(found)) else None
  }

  /** `parseMarketData` */
  function ParsedMarketData(m: Matchers, content: string): MarketData {
    MarketData(
      m.marketSize(content).GetOr(NOT_DETERMINED),
      match m.growthRate(content) case Some(n) => n + ANNUALLY case None => NOT_DETERMINED,
      Collect(Take(m.trendMatches(content), 5), TrendOf),
      Collect(Take(m.newsMatches(content), 3), NewsOf))
  }

  /** `parseMarketData`, with its two `forEach` loops. */
  method ParseMarketData(m: Matchers, content: string) returns (r: MarketData)
    ensures r == ParsedMarketData(m, content)
  {
    var size := m.marketSize(content).GetOr(NOT_DETERMINED);
    var growthRate := NOT_DETERMINED;
    var growth := m.growthRate(content);
    if growth.Some? {
      growthRate := growth.value + ANNUALLY;
    }
    var trendMatches := Take(m.trendMatches(content), 5);
    var trends := [];
    for i := 0 to |trendMatches|
      invariant trends == Collect(trendMatches[..i], TrendOf)
    {
      CollectStep(trendMatches, i, TrendOf);
      var cleaned := Trim(StripTrendLabel(trendMatches[i]));
      assert TrendOf(trendMatches[i]) == (if |cleaned| > 10 then Some(cleaned) else None);
      if |cleaned| > 10 {
        trends := trends + [cleaned];
      }
    }
    assert trendMatches[..|trendMatches|] == trendMatches;
    var newsMatches := Take(m.newsMatches(content), 3);
    var recentNews := [];
    for i := 0 to |newsMatches|
      invariant recentNews == Collect(newsMatches[..i], NewsOf)
    {
      CollectStep(newsMatches, i, NewsOf);
      assert NewsOf(newsMatches[i]) == (if |newsMatches[i]| > 20 then Some(Trim(newsMatches[i])) else None);
      if |newsMatches[i]| > 20 {
        recentNews := recentNews + [Trim(newsMatches[i])];
      }
    }
    assert newsMatches[..|newsMatches|] == newsMatches;
    r := MarketData(size, growthRate, trends, recentNews);
  }

  /** Longer than 10 characters, with no white space at either end. */
  predicate IsCleanTrend(t: string) {
    |t| > 10 && !IsSpace(t[0]) && !IsSpace(t[|t| - 1])
  }

  /** A kept trend is clean and part of the match it came from. */
  lemma TrendOfMeaning(found: string)
    ensures TrendOf(found).Some? ==> IsCleanTrend(TrendOf(found).value) && Contains(found, TrendOf(found).value)
  {
    var rest := StripTrendLabel(found);
    var t := Trim(rest);
    assert TrendOf(found) == (if |t| > 10 then Some(t) else None);
    if |t| > 10 {
      assert !IsSpace(t[0]) && !IsSpace(t[|t| - 1]);
      ContainsInContext(found[..|found| - |rest|], rest, t);
      assert Contains(found, t);
    }
  }

  /** At most five trends, each clean and part of one of the first five trend matches. */
  lemma TrendsShape(m: Matchers, content: string)
    ensures |ParsedMarketData(m, content).trends| <= 5
    ensures forall t :: t in ParsedMarketData(m, content).trends ==>
      IsCleanTrend(t) && exists x :: x in Take(m.trendMatches(content), 5) && Contains(x, t)
  {
    var matches := Take(m.trendMatches(content), 5);
    var r := Collect(matches, TrendOf);
    assert r == ParsedMarketData(m, content).trends;
    CollectMeaning(matches, TrendOf);
    forall t | t in r
      ensures IsCleanTrend(t) && exists x :: x in matches && Contains(x, t)
    {
      var x :| x in matches && TrendOf(x) == Some(t);
      TrendOfMeaning(x);
    }
  }

  /** At most three news items, each the trim of one of the first three news matches that is
      longer than 20 characters. */
  lemma NewsShape(m: Matchers, content: string)
    ensures var r := ParsedMarketData(m, content).recentNews;
      && |r| <= 3
      && forall n :: n in r ==>
           exists x :: x in Take(m.newsMatches(content), 3) && |x| > 20 && n == Trim(x)
  {
    CollectMeaning(Take(m.newsMatches(content), 3), NewsOf);
  }

  // ---------------------------------------------------------------------------------------
  // Competitors

  const ACTIVE := "Active"
  const SHUT_DOWN := "Shut down"
  const ACQUIRED := "Acquired"
  const STRUGGLING := "Struggling"

  /** Only white space, or white space and dashes when `dashes`, between positions `i` and `j`. */
  predicate GapOnly(s: string, i: nat, j: nat, dashes: bool)
    requires i <= j <= |s|
  {
    forall k :: i <= k < j ==> IsSpace(s[k]) || (dashes && s[k] == '-')
  }

  /** `head` and `tail` occur in `s` separated only by white space (and dashes when `dashes`):
      the patterns `head\s*tail` and `head[\s-]*tail`. */
  predicate GapOccurs(s: string, head: string, tail: string, dashes: bool) {
    exists i, j | 0 <= i && i + |head| <= j <= |s| ::
      OccursAt(s, head, i) && GapOnly(s, i + |head|, j, dashes) && OccursAt(s, tail, j)
  }

  /** The status a competitor section reports, the first matching rule winning. */
  function Status(section: string): (r: string)
    ensures r in {SHUT_DOWN, ACQUIRED, STRUGGLING, ACTIVE}
  {
    var l := Lower(section);
    if GapOccurs(l, "shut", "down", false) || Contains(l, "failed") || Contains(l, "defunct") || Contains(l, "closed") then SHUT_DOWN
    else if Contains(l, "acquired") || Contains(l, "bought") then ACQUIRED
    else if Contains(l, "struggling") || Contains(l, "pivot") || Contains(l, "layoff") then STRUGGLING
    else ACTIVE
  }

  /** The description group when it matches, else the trimmed first 150 characters. */
  function CompetitorDescription(m: Matchers, section: string): string {
    match m.competitorDescription(section)
    case Some(d) => Trim(d)
    case None => Trim(Take(section, 150))
  }

  /** The competitor one section describes: sections shorter than 30 characters, without a
      name, or with a trimmed name outside 2..50 characters are skipped. */
  function CompetitorOf(m: Matchers, section: string): Option<CompetitorData> {
    if |section| < 30 then None
    else
      match m.competitorName(section)
      case None => None
      case Some(raw) =>
        var name := Trim(raw);
        if |name| < 2 || |name| > 50 then None
        else Some(CompetitorData(name, CompetitorDescription(m, section), m.funding(section),
                                 Status(section), m.website(section), [], []))
  }

  function CompetitorsOf(m: Matchers, sections: seq<string>): seq<CompetitorData> {
    Collect(sections, s => CompetitorOf(m, s))
  }

  /** `parseCompetitorData` */
  function ParsedCompetitors(m: Matchers, content: string): seq<CompetitorData> {
    Take(CompetitorsOf(m, m.competitorSections(content)), 10)
  }

  /** `parseCompetitorData`, with its loop over the sections. */
  method ParseCompetitorData(m: Matchers, content: string) returns (r: seq<CompetitorData>)
    ensures r == ParsedCompetitors(m, content)
  {
    var sections := m.competitorSections(content);
    var competitors := [];
    for i := 0 to |sections|
      invariant competitors == CompetitorsOf(m, sections[..i])
    {
      CollectStep(sections, i, s => CompetitorOf(m, s));
      var section := sections[i];
      if |section| < 30 {
        continue;
      }
      var nameMatch := m.competitorName(section);
      if nameMatch.None? {
        continue;
      }
      var name := Trim(nameMatch.value);
      if |name| < 2 || |name| > 50 {
        continue;
      }
      competitors := competitors + [CompetitorData(name, CompetitorDescription(m, section),
        m.funding(section), Status(section), m.website(section), [], [])];
    }
    assert sections[..|sections|] == sections;
    r := Take(competitors, 10);
  }

  /** A competitor's trimmed name has 2 to 50 characters, its status is one of the four, and it
      lists no strengths or weaknesses. */
  predicate WellFormedCompetitor(c: CompetitorData) {
    && 2 <= |c.name| <= 50 && !IsSpace(c.name[0]) && !IsSpace(c.name[|c.name| - 1])
    && c.status in {SHUT_DOWN, ACQUIRED, STRUGGLING, ACTIVE}
    && c.strengths == [] && c.weaknesses == []
  }

  /** A section yields a competitor only when it has at least 30 characters, and the competitor
      is well formed and carries the section's status. */
  lemma CompetitorOfMeaning(m: Matchers, section: string)
    ensures CompetitorOf(m, section).Some? ==>
      |section| >= 30 && WellFormedCompetitor(CompetitorOf(m, section).value)
      && CompetitorOf(m, section).value.status == Status(section)
  {
  }

  /** At most ten competitors, each well formed and from a section of at least 30 characters
      whose status it carries. */
  lemma CompetitorsShape(m: Matchers, content: string)
    ensures |ParsedCompetitors(m, content)| <= 10
    ensures forall c :: c in ParsedCompetitors(m, content) ==>
      WellFormedCompetitor(c)
      && exists s :: s in m.competitorSections(content) && |s| >= 30 && c.status == Status(s)
  {
    var sections := m.competitorSections(content);
    var all := CompetitorsOf(m, sections);
    CollectMeaning(sections, s => CompetitorOf(m, s));
    SubsequenceOfTake(all, 10);
    SubsequenceIsSubset(Take(all, 10), all);
    forall c | c in ParsedCompetitors(m, content)
      ensures WellFormedCompetitor(c)
      ensures exists s :: s in sections && |s| >= 30 && c.status == Status(s)
    {
      var s :| s in sections && CompetitorOf(m, s) == Some(c);
      CompetitorOfMeaning(m, s);
    }
  }

  // ---------------------------------------------------------------------------------------
  // Regulations

  /** How a regulation is recognised in the lower-cased reply. */
  datatype MentionPattern = Word(word: string) | Spaced(head: string, tail: string, dashes: bool)

  datatype RegulationRow = RegulationRow(pattern: MentionPattern, name: string, jurisdiction: string)

  /** The fixed table of regulations the parser looks for, in order. */
  const REGULATION_TABLE: seq<RegulationRow> := [
    RegulationRow(Word("gdpr"), "GDPR", "European Union"),
    RegulationRow(Word("hipaa"), "HIPAA", "United States (Healthcare)"),
    RegulationRow(Spaced("soc", "2", false), "SOC 2", "United States"),
    RegulationRow(Spaced("pci", "dss", true), "PCI-DSS", "Global (Payment Cards)"),
    RegulationRow(Word("ccpa"), "CCPA", "California, USA"),
    RegulationRow(Word("sec"), "SEC Regulations", "United States (Finance)"),
    RegulationRow(Word("ftc"), "FTC Guidelines", "United States"),
    RegulationRow(Word("fda"), "FDA Regulations", "United States (Health/Food)")
  ]

  predicate Mentions(lower: string, p: MentionPattern) {
    match p
    case Word(w) => Contains(lower, w)
    case Spaced(head, tail, dashes) => GapOccurs(lower, head, tail, dashes)
  }

  /** The entry for one table row, present when the reply mentions the regulation. */
  function RegulationFor(m: Matchers, content: string, row: RegulationRow): Option<RegulatoryData> {
    if Mentions(Lower(content), row.pattern) then
      var context := m.regulationContext(content, row.name);
      Some(RegulatoryData(row.name, row.jurisdiction, Trim(Take(context, 150)),
                          m.costToken(context).GetOr("Variable")))
    else None
  }

  /** `parseRegulatoryData` */
  function ParsedRegulations(m: Matchers, content: string): seq<RegulatoryData> {
    Collect(REGULATION_TABLE, row => RegulationFor(m, content, row))
  }

  /** `parseRegulatoryData`, with its loop over the table. */
  method ParseRegulatoryData(m: Matchers, content: string) returns (r: seq<RegulatoryData>)
    ensures r == ParsedRegulations(m, content)
  {
    r := [];
    for i := 0 to |REGULATION_TABLE|
      invariant r == Collect(REGULATION_TABLE[..i], row => RegulationFor(m, content, row))
    {
      CollectStep(REGULATION_TABLE, i, row => RegulationFor(m, content, row));
      var row := REGULATION_TABLE[i];
      if Mentions(Lower(content), row.pattern) {
        var context := m.regulationContext(content, row.name);
        r := r + [RegulatoryData(row.name, row.jurisdiction, Trim(Take(context, 150)),
                                 m.costToken(context).GetOr("Variable"))];
      }
    }
    assert REGULATION_TABLE[..|REGULATION_TABLE|] == REGULATION_TABLE;
  }

  /** A regulation is listed exactly when the reply mentions it, with its row's jurisdiction;
      at most the eight table rows are listed. */
  lemma RegulationsMeaning(m: Matchers, content: string)
    ensures |ParsedRegulations(m, content)| <= 8
    ensures forall e :: e in ParsedRegulations(m, content) ==>
      exists row :: row in REGULATION_TABLE && row.name == e.regulation
                 && row.jurisdiction == e.jurisdiction && Mentions(Lower(content), row.pattern)
    ensures forall row :: row in REGULATION_TABLE && Mentions(Lower(content), row.pattern) ==>
      exists e :: e in ParsedRegulations(m, content) && e.regulation == row.name
  {
    CollectMeaning(REGULATION_TABLE, row => RegulationFor(m, content, row));
  }

  /** `SEC` is matched anywhere, so any reply that says "security" lists SEC regulations. */
  lemma SecurityListsSec(m: Matchers, content: string)
    requires Contains(Lower(content), "security")
    ensures exists e :: e in ParsedRegulations(m, content) && e.regulation == "SEC Regulations"
  {
    ContainsInner(Lower(content), "security", 0, 3);
    assert "security"[0..3] == "sec";
    RegulationsMeaning(m, content);
    assert REGULATION_TABLE[5] in REGULATION_TABLE;
  }

  // ---------------------------------------------------------------------------------------
  // Keywords and relevance of catalogue failures

  const STOP_WORDS: set<string> := {
    "the", "a", "an", "and", "or", "but", "in", "on", "at", "to", "for",
    "of", "with", "by", "from", "is", "are", "was", "were", "be", "been",
    "being", "have", "has", "had", "do", "does", "did", "will", "would",
    "could", "should", "may", "might", "must", "that", "which", "who",
    "whom", "this", "these", "those", "it", "its", "they", "their", "them"
  }

  /** No ASCII upper-case letter in `s`. */
  predicate NoUpper(s: string) {
    forall i :: 0 <= i < |s| ==> !IsUpper(s[i])
  }

  /** Removes every character that is neither a word character nor white space. */
  function KeepWordsAndSpaces(s: string): (r: string)
    ensures forall i :: 0 <= i < |r| ==> IsWordChar(r[i]) || IsSpace(r[i])
    ensures NoUpper(s) ==> NoUpper(r)
  {
    if s == [] then []
    else
      var rest := KeepWordsAndSpaces(s[1..]);
      if IsWordChar(s[0]) || IsSpace(s[0]) then [s[0]] + rest else rest
  }

  /** The pieces between single white-space characters. Splitting on runs of white space, as
      the source does, gives the same non-empty pieces and fewer empty ones. */
  function SplitOnSpace(s: string): (r: seq<string>)
    ensures |r| >= 1
    ensures forall p :: p in r ==> forall k :: 0 <= k < |p| ==> !IsSpace(p[k]) && p[k] in s
  {
    if s == [] then [[]]
    else
      var rest := SplitOnSpace(s[1..]);
      if IsSpace(s[0]) then [[]] + rest
      else
        var first := [s[0]] + rest[0];
        assert forall k :: 1 <= k < |first| ==> first[k] == rest[0][k - 1];
        [first] + rest[1..]
  }

  predicate IsStopWord(word: string) {
    word in STOP_WORDS
  }

  function KeywordOf(word: string): Option<string> {
    if |word| > 2 && !IsStopWord(word) then Some(word) else None
  }

  /** `extractKeywords` */
  function ExtractKeywords(text: string): seq<string> {
    Collect(SplitOnSpace(KeepWordsAndSpaces(Lower(text))), KeywordOf)
  }

  /** Made of lower-case word characters only. */
  predicate IsLowerWord(w: string) {
    forall k :: 0 <= k < |w| ==> IsWordChar(w[k]) && !IsUpper(w[k])
  }

  /** The pieces of a string of lower-case word characters and white space are lower-case words. */
  lemma PiecesAreLowerWords(kept: string)
    requires NoUpper(kept)
    requires forall i :: 0 <= i < |kept| ==> IsWordChar(kept[i]) || IsSpace(kept[i])
    ensures forall p :: p in SplitOnSpace(kept) ==> IsLowerWord(p)
  {
    forall p | p in SplitOnSpace(kept) ensures IsLowerWord(p) {
      forall k | 0 <= k < |p| ensures IsWordChar(p[k]) && !IsUpper(p[k]) {
        var i :| 0 <= i < |kept| && kept[i] == p[k];
      }
    }
  }

  lemma KeywordsOfLowerWords(pieces: seq<string>)
    requires forall p :: p in pieces ==> IsLowerWord(p)
    ensures forall w :: w in Collect(pieces, KeywordOf) ==> |w| > 2 && !IsStopWord(w) && IsLowerWord(w)
  {
    CollectMeaning(pieces, KeywordOf);
    forall w | w in Collect(pieces, KeywordOf) ensures |w| > 2 && !IsStopWord(w) && IsLowerWord(w) {
      var p :| p in pieces && KeywordOf(p) == Some(w);
    }
  }

  /** Every keyword is longer than two characters, is no stop word and consists of lower-case
      word characters only. */
  lemma ExtractKeywordsMeaning(text: string)
    ensures forall w :: w in ExtractKeywords(text) ==> |w| > 2 && !IsStopWord(w) && IsLowerWord(w)
  {
    var lower := Lower(text);
    assert NoUpper(lower);
    var kept := KeepWordsAndSpaces(lower);
    PiecesAreLowerWords(kept);
    KeywordsOfLowerWords(SplitOnSpace(kept));
  }

  /** Some keyword of the catalogue record contains the idea keyword or is contained in it. */
  predicate Related(keyword: string, recordKeywords: seq<string>) {
    exists sk | sk in recordKeywords :: Contains(sk, keyword) || Contains(keyword, sk)
  }

  /** The number of idea keywords related to the record's keywords, repeated ones counted again. */
  function Relevance(ideaKeywords: seq<string>, recordKeywords: seq<string>): nat {
    if ideaKeywords == [] then 0
    else
      Relevance(ideaKeywords[..|ideaKeywords| - 1], recordKeywords)
      + (if Related(ideaKeywords[|ideaKeywords| - 1], recordKeywords) then 1 else 0)
  }

  /** The loop that scores one record. */
  method ScoreRecord(ideaKeywords: seq<string>, recordKeywords: seq<string>) returns (score: nat)
    ensures score == Relevance(ideaKeywords, recordKeywords)
  {
    score := 0;
    for i := 0 to |ideaKeywords|
      invariant score == Relevance(ideaKeywords[..i], recordKeywords)
    {
      assert ideaKeywords[..i + 1][..i] == ideaKeywords[..i];
      if Related(ideaKeywords[i], recordKeywords) {
        score := score + 1;
      }
    }
    assert ideaKeywords[..|ideaKeywords|] == ideaKeywords;
  }

  /** The score is at most the number of idea keywords, and positive exactly when some idea
      keyword is related to the record. */
  lemma {:induction false} RelevanceMeaning(ideaKeywords: seq<string>, recordKeywords: seq<string>)
    ensures Relevance(ideaKeywords, recordKeywords) <= |ideaKeywords|
    ensures Relevance(ideaKeywords, recordKeywords) > 0
        <==> exists k :: k in ideaKeywords && Related(k, recordKeywords)
  {
    if ideaKeywords != [] {
      var init := ideaKeywords[..|ideaKeywords| - 1];
      RelevanceMeaning(init, recordKeywords);
      assert ideaKeywords == init + [ideaKeywords[|ideaKeywords| - 1]];
      forall k | k in ideaKeywords ensures k in init || k == ideaKeywords[|ideaKeywords| - 1] { }
    }
  }

  /** A catalogue record with its relevance score. */
  datatype Scored = Scored(startup: FailedStartup, score: nat)

  /** The text of the record the keywords are drawn from; a missing category or sector is empty. */
  function RecordText(s: FailedStartup): string {
    s.name + " " + s.description + " " + s.category + " " + s.sector
  }

  function IdeaText(d: IdeaDecomposition): string {
    d.valueProposition + " " + d.targetMarket + " " + d.businessModel
  }

  function ScoreOf(ideaKeywords: seq<string>, s: FailedStartup): Scored {
    Scored(s, Relevance(ideaKeywords, ExtractKeywords(RecordText(s))))
  }

  /** Scores every record against the idea's keywords, in catalogue order. */
  function ScoreAll(ideaKeywords: seq<string>, startups: seq<FailedStartup>): (r: seq<Scored>)
    ensures |r| == |startups|
    ensures forall i :: 0 <= i < |r| ==> r[i] == ScoreOf(ideaKeywords, startups[i])
  {
    seq(|startups|, i requires 0 <= i < |startups| => ScoreOf(ideaKeywords, startups[i]))
  }

  function KeepPositive(s: Scored): Option<Scored> {
    if s.score > 0 then Some(s) else None
  }

  predicate SortedByScore(xs: seq<Scored>) {
    forall i, j :: 0 <= i < j < |xs| ==> xs[i].score >= xs[j].score
  }

  /** Puts `x` before the first element whose score is not higher. */
  function Insert(x: Scored, ys: seq<Scored>): (r: seq<Scored>)
    ensures multiset(r) == multiset(ys) + multiset{x}
  {
    if ys == [] || ys[0].score <= x.score then [x] + ys
    else
      assert ys == [ys[0]] + ys[1..];
      [ys[0]] + Insert(x, ys[1..])
  }

  /** A stable sort by descending score, standing for the array sort with comparator
      `b.score - a.score` (stable, as the language requires of its sort). */
  function SortByScore(xs: seq<Scored>): (r: seq<Scored>)
    ensures multiset(r) == multiset(xs)
  {
    if xs == [] then []
    else
      assert xs == [xs[0]] + xs[1..];
      Insert(xs[0], SortByScore(xs[1..]))
  }

  lemma {:induction false} InsertSorted(x: Scored, ys: seq<Scored>)
    requires SortedByScore(ys)
    ensures SortedByScore(Insert(x, ys))
  {
    if ys != [] && ys[0].score > x.score {
      var rest := Insert(x, ys[1..]);
      InsertSorted(x, ys[1..]);
      forall z | z in rest ensures z.score <= ys[0].score {
        assert z in multiset(rest);
        if z != x {
          assert z in ys[1..];
        }
      }
    }
  }

  lemma {:induction false} SortByScoreSorted(xs: seq<Scored>)
    ensures SortedByScore(SortByScore(xs))
  {
    if xs != [] {
      SortByScoreSorted(xs[1..]);
      InsertSorted(xs[0], SortByScore(xs[1..]));
    }
  }

  /** The elements of `xs` with score `k`, in order. */
  function WithScore(xs: seq<Scored>, k: nat): seq<Scored> {
    if xs == [] then [] else (if xs[0].score == k then [xs[0]] else []) + WithScore(xs[1..], k)
  }

  lemma {:induction false} InsertStable(x: Scored, ys: seq<Scored>, k: nat)
    ensures WithScore(Insert(x, ys), k) == (if x.score == k then [x] else []) + WithScore(ys, k)
  {
    if ys != [] && ys[0].score > x.score {
      InsertStable(x, ys[1..], k);
      var r := Insert(x, ys);
      assert r[0] == ys[0] && r[1..] == Insert(x, ys[1..]);
      assert WithScore(r, k) == (if ys[0].score == k then [ys[0]] else []) + WithScore(r[1..], k);
      assert WithScore(ys, k) == (if ys[0].score == k then [ys[0]] else []) + WithScore(ys[1..], k);
      if x.score == k {
        assert ys[0].score != k;
      }
    } else {
      assert (([x] + ys)[1..]) == ys;
    }
  }

  /** The sort is stable: records with equal scores keep their relative order. */
  lemma {:induction false} SortByScoreStable(xs: seq<Scored>, k: nat)
    ensures WithScore(SortByScore(xs), k) == WithScore(xs, k)
  {
    if xs != [] {
      SortByScoreStable(xs[1..], k);
      InsertStable(xs[0], SortByScore(xs[1..]), k);
    }
  }

  /** The filter, sort and cut to ten of `retrieveHistoricalFailures`. */
  function TopScored(scored: seq<Scored>): seq<Scored> {
    Take(SortByScore(Collect(scored, KeepPositive)), 10)
  }

  /** At most ten records, in descending score order. */
  lemma TopScoredSorted(scored: seq<Scored>)
    ensures |TopScored(scored)| <= 10 && SortedByScore(TopScored(scored))
  {
    SortByScoreSorted(Collect(scored, KeepPositive));
  }

  /** Every record listed is a scored record with a positive score. */
  lemma TopScoredMembers(scored: seq<Scored>)
    ensures forall s :: s in TopScored(scored) ==> s in scored && s.score > 0
  {
    var positive := Collect(scored, KeepPositive);
    var sorted := SortByScore(positive);
    CollectMeaning(scored, KeepPositive);
    forall s | s in TopScored(scored) ensures s in scored && s.score > 0 {
      SubsequenceOfTake(sorted, 10);
      SubsequenceIsSubset(Take(sorted, 10), sorted);
      assert s in multiset(sorted);
      assert s in multiset(positive);
      var x :| x in scored && KeepPositive(x) == Some(s);
    }
  }

  /** Cutting a sorted list to ten leaves out an element only when ten elements scoring at
      least as high are kept. */
  lemma CutKeepsHighest(sorted: seq<Scored>, s: Scored)
    requires SortedByScore(sorted) && s in sorted && s !in Take(sorted, 10)
    ensures |Take(sorted, 10)| == 10
    ensures forall t :: t in Take(sorted, 10) ==> t.score >= s.score
  {
    var j :| 0 <= j < |sorted| && sorted[j] == s;
    forall t | t in Take(sorted, 10) ensures t.score >= s.score {
      var i :| 0 <= i < |Take(sorted, 10)| && Take(sorted, 10)[i] == t;
    }
  }

  /** A record with a positive score is left out only when ten records that score at least as
      high are listed. */
  lemma TopScoredComplete(scored: seq<Scored>)
    ensures forall s :: s in scored && s.score > 0 && s !in TopScored(scored) ==>
      |TopScored(scored)| == 10 && forall t :: t in TopScored(scored) ==> t.score >= s.score
  {
    var positive := Collect(scored, KeepPositive);
    var sorted := SortByScore(positive);
    CollectMeaning(scored, KeepPositive);
    SortByScoreSorted(positive);
    forall s | s in scored && s.score > 0 && s !in TopScored(scored)
      ensures |TopScored(scored)| == 10 && forall t :: t in TopScored(scored) ==> t.score >= s.score
    {
      assert KeepPositive(s) == Some(s);
      assert s in multiset(sorted);
      CutKeepsHighest(sorted, s);
    }
  }

  /** `retrieveHistoricalFailures` over the catalogue rows that were fetched (none when the
      catalogue could not be reached). */
  function RetrieveHistoricalFailures(d: IdeaDecomposition, catalogue: seq<FailedStartup>): seq<FailedStartup> {
    RecordsOf(TopScored(ScoreAll(ExtractKeywords(IdeaText(d)), catalogue)))
  }

  /** The records of scored entries, in order. */
  function RecordsOf(xs: seq<Scored>): (r: seq<FailedStartup>)
    ensures |r| == |xs|
    ensures forall i :: 0 <= i < |xs| ==> r[i] == xs[i].startup
  {
    seq(|xs|, i requires 0 <= i < |xs| => xs[i].startup)
  }

  /** A scored entry with a positive score shares a keyword relation with the idea. */
  lemma PositiveScoreRelated(ideaKeywords: seq<string>, s: FailedStartup)
    requires ScoreOf(ideaKeywords, s).score > 0
    ensures exists k :: k in ideaKeywords && Related(k, ExtractKeywords(RecordText(s)))
  {
    RelevanceMeaning(ideaKeywords, ExtractKeywords(RecordText(s)));
  }

  /** The ranked records are at most ten, each the record of a scored entry with a positive
      score. */
  lemma RankedRecordsPositive(scored: seq<Scored>)
    ensures |RecordsOf(TopScored(scored))| <= 10
    ensures forall s :: s in RecordsOf(TopScored(scored)) ==>
      exists x :: x in scored && x.startup == s && x.score > 0
  {
    var top := TopScored(scored);
    TopScoredSorted(scored);
    TopScoredMembers(scored);
    forall s | s in RecordsOf(top) ensures exists x :: x in scored && x.startup == s && x.score > 0 {
      var i :| 0 <= i < |top| && RecordsOf(top)[i] == s;
      assert top[i] in scored;
    }
  }

  /** The records ranked for any list of idea keywords are at most ten catalogue records, each
      related to one of those keywords. */
  lemma RankedRecordsRelevant(ideaKeywords: seq<string>, catalogue: seq<FailedStartup>)
    ensures |RecordsOf(TopScored(ScoreAll(ideaKeywords, catalogue)))| <= 10
    ensures forall s :: s in RecordsOf(TopScored(ScoreAll(ideaKeywords, catalogue))) ==>
      s in catalogue && exists k :: k in ideaKeywords && Related(k, ExtractKeywords(RecordText(s)))
  {
    var scored := ScoreAll(ideaKeywords, catalogue);
    RankedRecordsPositive(scored);
    forall s | s in RecordsOf(TopScored(scored))
      ensures s in catalogue
      ensures exists k :: k in ideaKeywords && Related(k, ExtractKeywords(RecordText(s)))
    {
      var x :| x in scored && x.startup == s && x.score > 0;
      var j :| 0 <= j < |scored| && scored[j] == x;
      PositiveScoreRelated(ideaKeywords, catalogue[j]);
    }
  }

  /** At most ten failures, each a catalogue record sharing at least one keyword relation with
      the idea. */
  lemma HistoricalFailuresRelevant(d: IdeaDecomposition, catalogue: seq<FailedStartup>)
    ensures |RetrieveHistoricalFailures(d, catalogue)| <= 10
    ensures forall s :: s in RetrieveHistoricalFailures(d, catalogue) ==>
      s in catalogue
      && exists k :: k in ExtractKeywords(IdeaText(d)) && Related(k, ExtractKeywords(RecordText(s)))
  {
    RankedRecordsRelevant(ExtractKeywords(IdeaText(d)), catalogue);
  }

  // ---------------------------------------------------------------------------------------
  // retrieveEvidence

  /** The citations of a reply; a failed query contributes none. */
  function ReplyCitations(reply: Result<PerplexityResponse>): seq<Citation> {
    if reply.Ok? then reply.value.citations else []
  }

  /** `retrieveMarketData`: a failed query falls back to unknown market data. */
  function RetrieveMarketData(m: Matchers, reply: Result<PerplexityResponse>): MarketData {
    if reply.Ok? then ParsedMarketData(m, reply.value.content) else DEFAULT_MARKET
  }

  /** `retrieveCompetitors`: a failed query gives no competitors. */
  function RetrieveCompetitors(m: Matchers, reply: Result<PerplexityResponse>): seq<CompetitorData> {
    if reply.Ok? then ParsedCompetitors(m, reply.value.content) else []
  }

  /** `retrieveRegulations`: a failed query gives no regulations. */
  function RetrieveRegulations(m: Matchers, reply: Result<PerplexityResponse>): seq<RegulatoryData> {
    if reply.Ok? then ParsedRegulations(m, reply.value.content) else []
  }

  /** `retrieveEvidence`: the three research replies and the catalogue rows are inputs; the
      citations of the market, competitor and regulatory replies are gathered in that order. */
  function RetrieveEvidence(
    d: IdeaDecomposition, m: Matchers,
    marketReply: Result<PerplexityResponse>,
    competitorReply: Result<PerplexityResponse>,
    regulatoryReply: Result<PerplexityResponse>,
    catalogue: seq<FailedStartup>): RetrievalResult
  {
    RetrievalResult(
      RetrieveMarketData(m, marketReply),
      RetrieveCompetitors(m, competitorReply),
      RetrieveRegulations(m, regulatoryReply),
      RetrieveHistoricalFailures(d, catalogue),
      ReplyCitations(marketReply) + ReplyCitations(competitorReply) + ReplyCitations(regulatoryReply))
  }

  /** A failed query never aborts retrieval: it yields its defaults and no citations. */
  lemma RetrieveEvidenceFallbacks(
    d: IdeaDecomposition, m: Matchers,
    marketReply: Result<PerplexityResponse>,
    competitorReply: Result<PerplexityResponse>,
    regulatoryReply: Result<PerplexityResponse>,
    catalogue: seq<FailedStartup>)
    ensures var r := RetrieveEvidence(d, m, marketReply, competitorReply, regulatoryReply, catalogue);
      && (marketReply.Err? ==> r.marketData == DEFAULT_MARKET)
      && (competitorReply.Err? ==> r.competitors == [])
      && (regulatoryReply.Err? ==> r.regulations == [])
      && r.citations == ReplyCitations(marketReply) + ReplyCitations(competitorReply) + ReplyCitations(regulatoryReply)
  {
  }

  /** The citations gathered from three replies are exactly those of the successful ones, each
      kept once per occurrence. */
  lemma GatheredCitations(
    marketReply: Result<PerplexityResponse>,
    competitorReply: Result<PerplexityResponse>,
    regulatoryReply: Result<PerplexityResponse>)
    ensures var gathered := ReplyCitations(marketReply) + ReplyCitations(competitorReply) + ReplyCitations(regulatoryReply);
      && |gathered| == |ReplyCitations(marketReply)| + |ReplyCitations(competitorReply)| + |ReplyCitations(regulatoryReply)|
      && forall c :: c in gathered <==>
           (marketReply.Ok? && c in marketReply.value.citations)
           || (competitorReply.Ok? && c in competitorReply.value.citations)
           || (regulatoryReply.Ok? && c in regulatoryReply.value.citations)
  {
  }
}

/** The evidence source adapter (a model of `src/lib/perplexity.ts`): round-robin API keys,
    a response cache keyed by model and prompt prefix with a one-hour lifetime, a retry loop
    that moves to the next key only on rate limiting, and citation extraction.

    The network is the parameter `fetch`: the outcome of one HTTP attempt as a function of the
    request, the key used and the attempt number. The clock is the parameter `now` (read when
    the cache is consulted) and `doneAt` (read when a response is cached). */
module Perplexity {
  import opened Wrappers
  import opened Seqs
  import opened Text
  import opened Types

  const CACHE_TTL: int := 1000 * 60 * 60
  const CACHE_PREFIX: nat := 500
  const DEFAULT_MODEL: string := "sonar-pro"
  const EXHAUSTED: string := "All Perplexity API keys exhausted"
  const NO_KEYS: string := "No Perplexity API keys configured"

  /** A structured source as returned by the service; an empty title stands for a missing one. */
  datatype Source = Source(url: string, title: string)

  /** The decoded body of a successful reply. An empty `content` or `model` and a zero token
      count stand for the fields being absent (the source treats all of them as falsy). */
  datatype ApiBody = ApiBody(
    content: string,
    sources: Option<seq<Source>>,
    model: string,
    promptTokens: nat,
    completionTokens: nat)

  /** One HTTP attempt: a reply with its status (its body is read when the status is 2xx, its
      error text otherwise), or an exception thrown by the transport or by decoding. */
  datatype FetchOutcome =
    | Reply(status: nat, body: ApiBody, errorText: string)
    | Thrown(message: string)

  datatype Options = Options(
    model: string,
    temperature: real,
    maxTokens: nat,
    useCache: bool,
    searchDomainFilter: Option<seq<string>>,
    returnCitations: bool)

  /** The defaults `queryPerplexity` destructures its options with. */
  const DEFAULT_OPTIONS: Options := Options(DEFAULT_MODEL, 0.2, 4000, true, None, true)

  datatype Request = Request(
    model: string,
    systemPrompt: string,
    userPrompt: string,
    temperature: real,
    maxTokens: nat,
    returnCitations: bool,
    searchDomainFilter: Option<seq<string>>)

  datatype CacheEntry = CacheEntry(response: PerplexityResponse, timestamp: int)

  /** The request body: the domain filter is sent only when it is non-empty. */
  function BuildRequest(system: string, user: string, opts: Options): (r: Request)
    ensures r.searchDomainFilter.Some? <==> opts.searchDomainFilter.Some? && |opts.searchDomainFilter.value| > 0
    ensures r.systemPrompt == system && r.userPrompt == user && r.model == opts.model
  {
    Request(opts.model, system, user, opts.temperature, opts.maxTokens, opts.returnCitations,
            if opts.searchDomainFilter.Some? && |opts.searchDomainFilter.value| > 0 then opts.searchDomainFilter else None)
  }

  function FullPrompt(system: string, user: string): string {
    system + "\n\n" + user
  }

  // ---------------------------------------------------------------------------------------
  // Cache keys

  /** `generateCacheKey`: the model, a colon and the first 500 characters of the prompt. */
  function CacheKey(prompt: string, model: string): (k: string)
    ensures |k| == |model| + 1 + Min(CACHE_PREFIX, |prompt|)
    ensures k[..|model|] == model && k[|model|] == ':'
  {
    model + ":" + Take(prompt, CACHE_PREFIX)
  }

  /** Prompts that agree on their first 500 characters share a cache entry. */
  lemma SharedPrefixSharesKey(p: string, q: string, model: string)
    requires |p| >= CACHE_PREFIX && |q| >= CACHE_PREFIX && p[..CACHE_PREFIX] == q[..CACHE_PREFIX]
    ensures CacheKey(p, model) == CacheKey(q, model)
  {
  }

  /** Conversely, for one model the key determines the prompt's first 500 characters. */
  lemma {:induction false} KeyDeterminesPrefix(p: string, q: string, model: string)
    requires CacheKey(p, model) == CacheKey(q, model)
    ensures Take(p, CACHE_PREFIX) == Take(q, CACHE_PREFIX)
  {
    var k := CacheKey(p, model);
    assert k[|model| + 1..] == Take(p, CACHE_PREFIX);
    assert CacheKey(q, model)[|model| + 1..] == Take(q, CACHE_PREFIX);
  }

  /** A cache entry that may be served at time `now`. */
  predicate FreshHit(cache: map<string, CacheEntry>, key: string, now: int) {
    key in cache && now - cache[key].timestamp < CACHE_TTL
  }

  // ---------------------------------------------------------------------------------------
  // Citations

  function CitationId(n: nat): string {
    "citation-" + NatToString(n)
  }

  /** `new URL(url).hostname`: the host name, or the message of the error the constructor
      throws for a url it cannot parse. */
  type HostParser = string -> Result<string>

  /** Every source's url has a host name. */
  predicate UrlsParse(sources: seq<Source>, hostOf: HostParser) {
    forall i :: 0 <= i < |sources| ==> hostOf(sources[i].url).Ok?
  }

  /** The error of the first source whose url does not parse, which the `forEach` throws
      before any later source is looked at; `None` when every url parses. */
  function FirstUrlError(sources: seq<Source>, hostOf: HostParser): (r: Option<string>)
    ensures r.None? <==> UrlsParse(sources, hostOf)
  {
    if sources == [] then None
    else if hostOf(sources[0].url).Err? then Some(hostOf(sources[0].url).error)
    else
      var rest := FirstUrlError(sources[1..], hostOf);
      assert UrlsParse(sources, hostOf) <== UrlsParse(sources[1..], hostOf) by {
        assert forall i :: 1 <= i < |sources| ==> sources[i] == sources[1..][i - 1];
      }
      rest
  }

  /** The error found is that of a url that does not parse after urls that all do. */
  lemma {:induction false} FirstUrlErrorIsFirst(sources: seq<Source>, hostOf: HostParser)
    requires !UrlsParse(sources, hostOf)
    ensures exists k :: 0 <= k < |sources| && hostOf(sources[k].url) == Err(FirstUrlError(sources, hostOf).value) &&
                        UrlsParse(sources[..k], hostOf)
  {
    if hostOf(sources[0].url).Err? {
      assert UrlsParse(sources[..0], hostOf);
    } else {
      var tail := sources[1..];
      assert !UrlsParse(tail, hostOf) by {
        var i :| 0 <= i < |sources| && !hostOf(sources[i].url).Ok?;
        assert sources[i] == tail[i - 1];
      }
      FirstUrlErrorIsFirst(tail, hostOf);
      assert FirstUrlError(sources, hostOf) == FirstUrlError(tail, hostOf);
      var k :| 0 <= k < |tail| && hostOf(tail[k].url) == Err(FirstUrlError(tail, hostOf).value) &&
               UrlsParse(tail[..k], hostOf);
      assert UrlsParse(sources[..k + 1], hostOf) by {
        forall i | 0 <= i < k + 1 ensures hostOf(sources[i].url).Ok? {
          if i > 0 {
            assert sources[i] == tail[..k][i - 1];
          }
        }
      }
      assert sources[k + 1] == tail[k];
    }
  }

  /** The citation for the structured source at 1-based position `n`. */
  function SourceCitation(src: Source, n: nat, hostOf: HostParser): Citation
    requires hostOf(src.url).Ok?
  {
    Citation(CitationId(n), RemoveFirst(hostOf(src.url).value, "www."), Some(src.url),
             if src.title != "" then src.title else src.url, "", None)
  }

  function InlineCitation(n: nat): Citation {
    Citation(CitationId(n), "inline", None, "Reference " + NatToString(n), "", None)
  }

  function StructuredCitations(sources: seq<Source>, hostOf: HostParser): (r: seq<Citation>)
    requires UrlsParse(sources, hostOf)
    ensures |r| == |sources|
    ensures forall i :: 0 <= i < |r| ==> r[i] == SourceCitation(sources[i], i + 1, hostOf)
  {
    seq(|sources|, i requires 0 <= i < |sources| => SourceCitation(sources[i], i + 1, hostOf))
  }

  /** The end of the run of digits that starts at `j`. */
  function DigitRunEnd(s: string, j: nat): (e: nat)
    requires j <= |s|
    ensures j <= e <= |s| && AllDigits(s[j..e]) && (e == |s| || !IsDigit(s[e]))
    decreases |s| - j
  {
    if j < |s| && IsDigit(s[j]) then
      var e := DigitRunEnd(s, j + 1);
      assert s[j..e] == [s[j]] + s[j + 1..e];
      e
    else j
  }

  /** A match of `\[(\d+)\]` that starts exactly at `i`: the number and the index after it. */
  function RefAt(s: string, i: nat): Option<(nat, nat)>
    requires i <= |s|
  {
    if i < |s| && s[i] == '[' then
      var e := DigitRunEnd(s, i + 1);
      if e > i + 1 && e < |s| && s[e] == ']' then Some((DigitsValue(s[i + 1..e]), e + 1)) else None
    else None
  }

  /** `regex.exec` on the global pattern from `lastIndex = i`: the leftmost match at or after `i`. */
  function NextRef(s: string, i: nat): (m: Option<(nat, nat)>)
    requires i <= |s|
    ensures m.Some? ==> i < m.value.1 <= |s|
    decreases |s| - i
  {
    if i >= |s| then None
    else if RefAt(s, i).Some? then RefAt(s, i)
    else NextRef(s, i + 1)
  }

  /** The numbers of all inline references from position `i` on, in order. */
  function InlineRefs(s: string, i: nat): seq<nat>
    requires i <= |s|
    decreases |s| - i
  {
    match NextRef(s, i)
    case None => []
    case Some((n, e)) => [n] + InlineRefs(s, e)
  }

  predicate HasId(cits: seq<Citation>, id: string) {
    exists c | c in cits :: c.id == id
  }

  /** Adds a placeholder for reference `n` unless `citation-n` is already present. */
  function AddInline(cits: seq<Citation>, n: nat): seq<Citation> {
    if HasId(cits, CitationId(n)) then cits else cits + [InlineCitation(n)]
  }

  function AddAllInline(cits: seq<Citation>, refs: seq<nat>): seq<Citation>
    decreases |refs|
  {
    if refs == [] then cits else AddAllInline(AddInline(cits, refs[0]), refs[1..])
  }

  /** What `parseCitations` returns, or the error it throws when a source url does not parse. */
  function CitationsOf(content: string, sources: Option<seq<Source>>, hostOf: HostParser): Result<seq<Citation>> {
    if sources.Some? && FirstUrlError(sources.value, hostOf).Some? then
      Err(FirstUrlError(sources.value, hostOf).value)
    else
      var structured := if sources.Some? then StructuredCitations(sources.value, hostOf) else [];
      Ok(AddAllInline(structured, InlineRefs(content, 0)))
  }

  /** A url that does not parse after urls that all do is the first error. */
  lemma FirstUrlErrorAt(sources: seq<Source>, index: nat, hostOf: HostParser)
    requires index < |sources| && UrlsParse(sources[..index], hostOf) && hostOf(sources[index].url).Err?
    ensures FirstUrlError(sources, hostOf) == Some(hostOf(sources[index].url).error)
  {
    FirstUrlErrorIsFirst(sources, hostOf);
    var r := FirstUrlError(sources, hostOf);
    var k :| 0 <= k < |sources| && hostOf(sources[k].url) == Err(r.value) && UrlsParse(sources[..k], hostOf);
    assert forall i :: 0 <= i < index ==> sources[..index][i] == sources[i];
    assert forall i :: 0 <= i < k ==> sources[..k][i] == sources[i];
  }

  /** One more parsing url extends the structured citations by its citation. */
  lemma StructuredStep(sources: seq<Source>, index: nat, hostOf: HostParser)
    requires index < |sources| && UrlsParse(sources[..index], hostOf) && hostOf(sources[index].url).Ok?
    ensures UrlsParse(sources[..index + 1], hostOf)
    ensures StructuredCitations(sources[..index + 1], hostOf) ==
      StructuredCitations(sources[..index], hostOf) + [SourceCitation(sources[index], index + 1, hostOf)]
  {
    assert forall i :: 0 <= i < index ==> sources[..index + 1][i] == sources[..index][i];
  }

  /** `parseCitations`: structured sources first, then a placeholder per new inline reference;
      the first source url that does not parse ends it with that error. */
  method ParseCitations(content: string, sources: Option<seq<Source>>, hostOf: HostParser)
    returns (r: Result<seq<Citation>>)
    ensures r == CitationsOf(content, sources, hostOf)
  {
    var citations := [];
    if sources.Some? {
      var srcs := sources.value;
      for index := 0 to |srcs|
        invariant UrlsParse(srcs[..index], hostOf)
        invariant citations == StructuredCitations(srcs[..index], hostOf)
      {
        var host := hostOf(srcs[index].url);
        if host.Err? {
          FirstUrlErrorAt(srcs, index, hostOf);
          return Err(host.error);
        }
        StructuredStep(srcs, index, hostOf);
        citations := citations + [SourceCitation(srcs[index], index + 1, hostOf)];
      }
      assert srcs[..|srcs|] == srcs;
    }
    var lastIndex := 0;
    var match_ := NextRef(content, lastIndex);
    while match_.Some?
      invariant lastIndex <= |content|
      invariant match_ == NextRef(content, lastIndex)
      invariant Ok(AddAllInline(citations, InlineRefs(content, lastIndex))) == CitationsOf(content, sources, hostOf)
      decreases |content| - lastIndex
    {
      var (citationNum, end) := match_.value;
      if !HasId(citations, CitationId(citationNum)) {
        citations := citations + [InlineCitation(citationNum)];
      }
      lastIndex := end;
      match_ := NextRef(content, lastIndex);
    }
    return Ok(citations);
  }

  predicate DistinctIds(cits: seq<Citation>) {
    forall i, j :: 0 <= i < j < |cits| ==> cits[i].id != cits[j].id
  }

  lemma {:induction false} AddAllInlineKeeps(cits: seq<Citation>, refs: seq<nat>)
    ensures |AddAllInline(cits, refs)| >= |cits|
    ensures AddAllInline(cits, refs)[..|cits|] == cits
    ensures DistinctIds(cits) ==> DistinctIds(AddAllInline(cits, refs))
    ensures forall n :: n in refs ==> HasId(AddAllInline(cits, refs), CitationId(n))
    decreases |refs|
  {
    if refs != [] {
      var next := AddInline(cits, refs[0]);
      AddAllInlineKeeps(next, refs[1..]);
      var r := AddAllInline(next, refs[1..]);
      assert r[..|next|][..|cits|] == r[..|cits|];
      assert HasId(next, CitationId(refs[0]));
      var w :| w in next && w.id == CitationId(refs[0]);
      var k :| 0 <= k < |next| && next[k] == w;
      assert r[k] == w;
      assert HasId(r, CitationId(refs[0]));
      forall n | n in refs
        ensures HasId(r, CitationId(n))
      {
        if n != refs[0] { assert n in refs[1..]; }
      }
    }
  }

  lemma StructuredDistinct(sources: seq<Source>, hostOf: HostParser)
    requires UrlsParse(sources, hostOf)
    ensures DistinctIds(StructuredCitations(sources, hostOf))
  {
    var s := StructuredCitations(sources, hostOf);
    forall i, j | 0 <= i < j < |s|
      ensures s[i].id != s[j].id
    {
      PrefixedInjective("citation-", i + 1, j + 1);
    }
  }

  /** `parseCitations` fails exactly when some source url does not parse, with the error of
      the first such url. Otherwise structured sources get ids citation-1..citation-n in order,
      every inline reference `[k]` ends up with a citation `citation-k`, and all ids are
      distinct. */
  lemma CitationsOfProperties(content: string, sources: Option<seq<Source>>, hostOf: HostParser)
    ensures var r := CitationsOf(content, sources, hostOf);
      && (r.Err? <==> sources.Some? && !UrlsParse(sources.value, hostOf))
      && (r.Err? ==>
            exists k :: 0 <= k < |sources.value| && hostOf(sources.value[k].url) == Err(r.error) &&
                        UrlsParse(sources.value[..k], hostOf))
      && (r.Ok? ==>
            && DistinctIds(r.value)
            && (sources.Some? ==>
                  && |r.value| >= |sources.value|
                  && forall i :: 0 <= i < |sources.value| ==> r.value[i] == SourceCitation(sources.value[i], i + 1, hostOf))
            && forall n :: n in InlineRefs(content, 0) ==> HasId(r.value, CitationId(n)))
  {
    if sources.Some? && !UrlsParse(sources.value, hostOf) {
      FirstUrlErrorIsFirst(sources.value, hostOf);
    } else {
      var structured := if sources.Some? then StructuredCitations(sources.value, hostOf) else [];
      if sources.Some? { StructuredDistinct(sources.value, hostOf); }
      AddAllInlineKeeps(structured, InlineRefs(content, 0));
      var r := CitationsOf(content, sources, hostOf).value;
      if sources.Some? {
        forall i | 0 <= i < |sources.value|
          ensures r[i] == SourceCitation(sources.value[i], i + 1, hostOf)
        {
          assert r[..|structured|][i] == r[i];
        }
      }
    }
  }

  // ---------------------------------------------------------------------------------------
  // The retry loop, specified attempt by attempt

  /** How the loop treats one attempt: a success is returned, a rate limit moves to the next
      key, anything else is rethrown at once. Only the error message decides between the last
      two once an error has been thrown inside the `try`. */
  datatype Attempt = Success(response: PerplexityResponse) | RateLimited(error: string) | Fatal(error: string)

  function ResponseOf(body: ApiBody, model: string, citations: seq<Citation>): PerplexityResponse {
    PerplexityResponse(body.content, citations,
                       if body.model != "" then body.model else model, body.promptTokens, body.completionTokens)
  }

  /** The `catch` block: an error whose message mentions "Rate limited" moves to the next key,
      any other is rethrown. */
  function Caught(message: string): Attempt {
    if Contains(message, "Rate limited") then RateLimited(message) else Fatal(message)
  }

  function ApiErrorMessage(status: nat, text: string): string {
    "Perplexity API error (" + NatToString(status) + "): " + text
  }

  function Classify(o: FetchOutcome, model: string, hostOf: HostParser): Attempt {
    match o
    case Reply(status, body, text) =>
      if 200 <= status <= 299 then
        match CitationsOf(body.content, body.sources, hostOf)
        case Ok(citations) => Success(ResponseOf(body, model, citations))
        case Err(message) => Caught(message)
      else if status == 429 then RateLimited("Rate limited: " + text)
      else Caught(ApiErrorMessage(status, text))
    case Thrown(message) => Caught(message)
  }

  /** A 2xx reply is not a success when one of its source urls does not parse: the error of
      the first such url goes to the `catch` block, and unless it mentions a rate limit the
      query fails with it. */
  lemma UnparsableSourceFails(status: nat, body: ApiBody, text: string, model: string, hostOf: HostParser)
    requires 200 <= status <= 299 && body.sources.Some? && !UrlsParse(body.sources.value, hostOf)
    ensures var a := Classify(Reply(status, body, text), model, hostOf);
      && !a.Success?
      && exists k :: 0 <= k < |body.sources.value| && hostOf(body.sources.value[k].url).Err? &&
                     UrlsParse(body.sources.value[..k], hostOf) &&
                     a == Caught(hostOf(body.sources.value[k].url).error)
  {
    CitationsOfProperties(body.content, body.sources, hostOf);
  }

  /** The rotation index `j` steps after `start` in a pool of `n` keys, `(start + j) % n`
      written without the remainder. */
  function Advance(start: nat, j: nat, n: nat): (r: nat)
    requires start < n && j <= n
    ensures r < n
    ensures j == n ==> r == start
  {
    if start + j < n then start + j else start + j - n
  }

  /** Within one round of `n` attempts no key is used twice. */
  lemma AdvanceInjective(start: nat, i: nat, j: nat, n: nat)
    requires start < n && i < n && j < n && Advance(start, i, n) == Advance(start, j, n)
    ensures i == j
  {
  }

  /** One uncached query: the key pool, the rotation index it starts from, the request, and
      the network and host-name oracles. */
  datatype Round = Round(
    keys: seq<string>,
    start: nat,
    request: Request,
    fetch: (Request, string, nat) -> FetchOutcome,
    hostOf: HostParser)
  {
    predicate Valid() { start < |keys| }

    /** The attempt numbered `j`, made with the key `j` steps after `start`. */
    function AttemptAt(j: nat): Attempt
      requires Valid() && j < |keys|
    {
      Classify(fetch(request, keys[Advance(start, j, |keys|)], j), request.model, hostOf)
    }
  }

  /** The loop's result and the number of attempts it makes. */
  datatype Outcome = Outcome(result: Result<PerplexityResponse>, used: nat)

  /** The retry loop from attempt `j` on, given the last error seen before it. */
  function RetryFrom(round: Round, j: nat, lastError: Option<string>): (r: Outcome)
    requires round.Valid() && j <= |round.keys|
    ensures j <= r.used <= |round.keys|
    ensures j < |round.keys| ==> j < r.used
    decreases |round.keys| - j
  {
    if j == |round.keys| then Outcome(Err(lastError.GetOr(EXHAUSTED)), j)
    else match round.AttemptAt(j)
      case Success(resp) => Outcome(Ok(resp), j + 1)
      case Fatal(e) => Outcome(Err(e), j + 1)
      case RateLimited(e) => RetryFrom(round, j + 1, Some(e))
  }

  /** When every remaining attempt is rate limited, every key is tried and the last
      rate-limit error is what the query throws. */
  lemma {:induction false} AllRateLimited(round: Round, j: nat, lastError: Option<string>)
    requires round.Valid() && j < |round.keys|
    requires forall i :: j <= i < |round.keys| ==> round.AttemptAt(i).RateLimited?
    ensures RetryFrom(round, j, lastError) == Outcome(Err(round.AttemptAt(|round.keys| - 1).error), |round.keys|)
    decreases |round.keys| - j
  {
    if j + 1 < |round.keys| {
      AllRateLimited(round, j + 1, Some(round.AttemptAt(j).error));
    }
  }

  /** The first attempt that is not rate limited ends the loop and decides its result: a
      success is returned, any other error is rethrown without trying the remaining keys. */
  lemma {:induction false} FirstDecisiveAttempt(round: Round, j: nat, lastError: Option<string>, k: nat)
    requires round.Valid() && j <= k < |round.keys| && !round.AttemptAt(k).RateLimited?
    requires forall i :: j <= i < k ==> round.AttemptAt(i).RateLimited?
    ensures RetryFrom(round, j, lastError) ==
      Outcome(if round.AttemptAt(k).Success? then Ok(round.AttemptAt(k).response) else Err(round.AttemptAt(k).error), k + 1)
    decreases k - j
  {
    if j < k {
      FirstDecisiveAttempt(round, j + 1, Some(round.AttemptAt(j).error), k);
    }
  }

  /** The body of one pass through the retry loop once the key is chosen: the reply is
      classified, a 2xx body decoded and its citations parsed. */
  method TryOnce(out: FetchOutcome, model: string, hostOf: HostParser) returns (a: Attempt)
    ensures a == Classify(out, model, hostOf)
  {
    match out {
      case Reply(status, body, errorText) =>
        if !(200 <= status <= 299) {
          if status == 429 {
            return RateLimited("Rate limited: " + errorText);
          }
          var message := ApiErrorMessage(status, errorText);
          if Contains(message, "Rate limited") {
            return RateLimited(message);
          }
          return Fatal(message);
        }
        var parsed := ParseCitations(body.content, body.sources, hostOf);
        if parsed.Err? {
          if Contains(parsed.error, "Rate limited") {
            return RateLimited(parsed.error);
          }
          return Fatal(parsed.error);
        }
        return Success(PerplexityResponse(body.content, parsed.value,
                                          if body.model != "" then body.model else model,
                                          body.promptTokens, body.completionTokens));
      case Thrown(message) =>
        if Contains(message, "Rate limited") {
          return RateLimited(message);
        }
        return Fatal(message);
    }
  }

  /** The process-wide adapter state: the configured keys, the rotation index and the cache. */
  class EvidenceAdapter {
    const keys: seq<string>
    var keyIndex: nat
    var cache: map<string, CacheEntry>

    predicate Valid()
      reads this
    {
      if |keys| == 0 then keyIndex == 0 else keyIndex < |keys|
    }

    /** Keys come from the environment; unset or empty ones are dropped (`filter(Boolean)`). */
    constructor (environment: seq<string>)
      ensures Valid()
      ensures keys == NonEmpty(environment) && keyIndex == 0 && cache == map[]
    {
      keys := NonEmpty(environment);
      keyIndex := 0;
      cache := map[];
    }

    static function NonEmpty(xs: seq<string>): (r: seq<string>)
      ensures forall k :: k in r <==> k in xs && k != ""
    {
      if xs == [] then [] else (if xs[0] != "" then [xs[0]] else []) + NonEmpty(xs[1..])
    }

    /** `getNextApiKey`: the key at the index, which then advances modulo the pool size. */
    method NextApiKey() returns (r: Result<string>)
      requires Valid()
      modifies this`keyIndex
      ensures Valid()
      ensures |keys| == 0 ==> r == Err(NO_KEYS) && keyIndex == old(keyIndex)
      ensures |keys| > 0 ==> r == Ok(keys[old(keyIndex)]) && keyIndex == Advance(old(keyIndex), 1, |keys|)
    {
      if |keys| == 0 {
        return Err(NO_KEYS);
      }
      var key := keys[keyIndex];
      keyIndex := (keyIndex + 1) % |keys|;
      return Ok(key);
    }

    /** One pass of the retry loop: the next key in the rotation, one request with it and the
        classification of what comes back. */
    method TryNextKey(round: Round, attempt: nat) returns (a: Attempt)
      requires Valid() && round.Valid() && round.keys == keys && attempt < |keys|
      requires keyIndex == Advance(round.start, attempt, |keys|)
      modifies this`keyIndex
      ensures Valid() && keyIndex == Advance(round.start, attempt + 1, |keys|)
      ensures a == round.AttemptAt(attempt)
    {
      var apiKey := NextApiKey();
      var out := round.fetch(round.request, apiKey.value, attempt);
      a := TryOnce(out, round.request.model, round.hostOf);
    }

    /** The retry loop of `queryPerplexity`: one attempt per configured key, starting at the
        current rotation index; the index advances once per attempt made. */
    method SendWithRetry(request: Request, fetch: (Request, string, nat) -> FetchOutcome, hostOf: HostParser)
      returns (r: Result<PerplexityResponse>)
      requires Valid()
      modifies this`keyIndex
      ensures Valid()
      ensures |keys| == 0 ==> r == Err(EXHAUSTED) && keyIndex == old(keyIndex)
      ensures |keys| > 0 ==>
        var outcome := RetryFrom(Round(keys, old(keyIndex), request, fetch, hostOf), 0, None);
        r == outcome.result && keyIndex == Advance(old(keyIndex), outcome.used, |keys|)
    {
      if |keys| == 0 {
        return Err(EXHAUSTED);
      }
      var round := Round(keys, keyIndex, request, fetch, hostOf);
      ghost var outcome := RetryFrom(round, 0, None);
      var lastError: Option<string> := None;
      var attempt := 0;
      while attempt < |keys|
        invariant 0 <= attempt <= |keys| && Valid()
        invariant keyIndex == Advance(round.start, attempt, |keys|)
        invariant RetryFrom(round, attempt, lastError) == outcome
      {
        var outcomeOfAttempt := TryNextKey(round, attempt);
        match outcomeOfAttempt {
          case Success(result) =>
            return Ok(result);
          case RateLimited(e) =>
            lastError := Some(e);
          case Fatal(e) =>
            return Err(e);
        }
        attempt := attempt + 1;
      }
      return Err(lastError.GetOr(EXHAUSTED));
    }

    /** `queryPerplexity`. A fresh cache hit is served with no request and no state change;
        otherwise the attempts follow `RetryFrom`, the key index advances by the number of
        attempts made, and only a success is written to the cache. */
    method Query(system: string, user: string, opts: Options,
                 fetch: (Request, string, nat) -> FetchOutcome, hostOf: HostParser,
                 now: int, doneAt: int)
      returns (r: Result<PerplexityResponse>)
      requires Valid()
      modifies this
      ensures Valid()
      ensures var key := CacheKey(FullPrompt(system, user), opts.model);
        if opts.useCache && FreshHit(old(cache), key, now) then
          r == Ok(old(cache)[key].response) && keyIndex == old(keyIndex) && cache == old(cache)
        else if |keys| == 0 then
          r == Err(EXHAUSTED) && keyIndex == old(keyIndex) && cache == old(cache)
        else
          var outcome := RetryFrom(Round(keys, old(keyIndex), BuildRequest(system, user, opts), fetch, hostOf), 0, None);
          && r == outcome.result
          && keyIndex == Advance(old(keyIndex), outcome.used, |keys|)
          && cache == (if r.Ok? && opts.useCache then old(cache)[key := CacheEntry(r.value, doneAt)] else old(cache))
    {
      var fullPrompt := FullPrompt(system, user);
      var cacheKey := CacheKey(fullPrompt, opts.model);
      if opts.useCache {
        if cacheKey in cache && now - cache[cacheKey].timestamp < CACHE_TTL {
          return Ok(cache[cacheKey].response);
        }
      }
      var request := BuildRequest(system, user, opts);
      r := SendWithRetry(request, fetch, hostOf);
      if r.Ok? && opts.useCache {
        cache := cache[cacheKey := CacheEntry(r.value, doneAt)];
      }
    }

    /** `clearCache` */
    method ClearCache()
      modifies this`cache
      ensures cache == map[]
    {
      cache := map[];
    }

    /** `getCacheStats`: the number of entries and their keys (as a set; listing order is not modelled). */
    method CacheStats() returns (size: nat, cacheKeys: set<string>)
      ensures size == |cacheKeys| && cacheKeys == cache.Keys
    {
      size := |cache.Keys|;
      cacheKeys := cache.Keys;
    }
  }
}

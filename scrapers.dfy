/** The scraper of src/lib/scrapers.ts. The HTTP client, the HTML parser, the
    headless browser and the document fetch are inputs: the k-th request's
    outcome, the texts the DOM selectors would collect from a page, the
    outcome of a headless run. What remains is the decision procedure of
    `scrapeURL`, the retry schedule, the content ladder, `cleanText` (in the
    `Text` module) and `detectSPA`. */
module Scrapers {
  import opened Wrappers
  import opened Text
  import opened Types
  import opened DocumentParser
  import opened Cache

  const MaxRetries := 3
  const ContentCap := 50000
  const CombinedThreshold := 500
  const BodyThreshold := 200
  const LowContentThreshold := 500
  const ExhaustedError := "Failed to fetch URL after retries"
  const InvalidUrlError := "Invalid URL format"
  const ScrapeFailurePrefix := "Failed to scrape the URL: "
  const HeadlessFailurePrefix := "Puppeteer failed: "
  const StaticEngine := "cheerio"
  const HeadlessEngine := "puppeteer"
  const CachedSuffix := " (cached)"

  // ---------------------------------------------------------------------
  // retryRequest

  /** What one HTTP GET gives: a response with its status and body, or a
      transport error with its message. */
  datatype AttemptOutcome = Reply(status: nat, body: string) | NetworkError(message: string)

  /** The client's `validateStatus`: 2xx and 3xx are accepted. */
  predicate Accepted(status: nat) {
    200 <= status < 400
  }

  predicate Succeeds(o: AttemptOutcome) {
    o.Reply? && Accepted(o.status)
  }

  /** The message of the error a failed attempt throws. */
  function FailureMessage(o: AttemptOutcome): string {
    match o
    case Reply(status, _) => "Request failed with status code " + NatToString(status)
    case NetworkError(m) => m
  }

  function Pow2(n: nat): (r: nat)
    ensures r >= 1
  {
    if n == 0 then 1 else 2 * Pow2(n - 1)
  }

  /** Milliseconds waited after failed attempt number `attempt`. */
  function Backoff(attempt: nat): nat {
    Pow2(attempt) * 1000
  }

  /** The outcome of the attempts numbered `attempt` to `maxRetries`: the first
      accepted response, or the error of the last attempt; with no attempt at
      all, the "after retries" error. */
  function RetryFrom(attempts: nat -> AttemptOutcome, attempt: nat, maxRetries: nat): Result<string, string>
    decreases maxRetries - attempt
  {
    if attempt > maxRetries then Err(ExhaustedError)
    else if Succeeds(attempts(attempt)) then Ok(attempts(attempt).body)
    else if attempt == maxRetries then Err(FailureMessage(attempts(attempt)))
    else RetryFrom(attempts, attempt + 1, maxRetries)
  }

  /** `retryRequest(url, maxRetries)`: returns the outcome, the number of
      requests made and the waits in between. */
  method RetryRequest(attempts: nat -> AttemptOutcome, maxRetries: nat) returns (r: Result<string, string>, made: nat, waits: seq<nat>)
    ensures r == RetryFrom(attempts, 1, maxRetries)
    ensures made <= maxRetries && (maxRetries > 0 ==> made >= 1)
    ensures forall k :: 1 <= k < made ==> !Succeeds(attempts(k))
    ensures r.Ok? <==> made >= 1 && Succeeds(attempts(made))
    ensures r.Ok? ==> r.value == attempts(made).body
    ensures r.Err? ==> made == maxRetries
    ensures |waits| == if made == 0 then 0 else made - 1
    ensures forall i :: 0 <= i < |waits| ==> waits[i] == Backoff(i + 1)
  {
    var attempt := 1;
    waits := [];
    while attempt <= maxRetries
      invariant 1 <= attempt && (attempt <= maxRetries || (maxRetries == 0 && attempt == 1))
      invariant RetryFrom(attempts, attempt, maxRetries) == RetryFrom(attempts, 1, maxRetries)
      invariant forall k :: 1 <= k < attempt ==> !Succeeds(attempts(k))
      invariant |waits| == attempt - 1
      invariant forall i :: 0 <= i < |waits| ==> waits[i] == Backoff(i + 1)
      decreases maxRetries - attempt
    {
      var outcome := attempts(attempt);
      if Succeeds(outcome) {
        return Ok(outcome.body), attempt, waits;
      }
      if attempt == maxRetries {
        return Err(FailureMessage(outcome)), attempt, waits;
      }
      waits := waits + [Backoff(attempt)];
      attempt := attempt + 1;
    }
    r, made := Err(ExhaustedError), 0;
  }

  /** When attempt `k` is the first accepted one within the budget, its body is the result. */
  lemma {:induction false} RetryTakesFirstSuccess(attempts: nat -> AttemptOutcome, from: nat, maxRetries: nat, k: nat)
    requires from <= k <= maxRetries && Succeeds(attempts(k))
    requires forall j :: from <= j < k ==> !Succeeds(attempts(j))
    ensures RetryFrom(attempts, from, maxRetries) == Ok(attempts(k).body)
    decreases k - from
  {
    if from < k {
      RetryTakesFirstSuccess(attempts, from + 1, maxRetries, k);
    }
  }

  /** When every attempt fails, the last attempt's error is rethrown. */
  lemma {:induction false} RetryRethrowsLast(attempts: nat -> AttemptOutcome, from: nat, maxRetries: nat)
    requires 1 <= from <= maxRetries
    requires forall j :: from <= j <= maxRetries ==> !Succeeds(attempts(j))
    ensures RetryFrom(attempts, from, maxRetries) == Err(FailureMessage(attempts(maxRetries)))
    decreases maxRetries - from
  {
    if from < maxRetries {
      RetryRethrowsLast(attempts, from + 1, maxRetries);
    }
  }

  /** The waits double: each is twice the one before, starting at two seconds. */
  lemma BackoffDoubles(attempt: nat)
    requires attempt >= 1
    ensures Backoff(attempt + 1) == 2 * Backoff(attempt)
    ensures Backoff(1) == 2000
  {
  }

  // ---------------------------------------------------------------------
  // The URL validation pattern

  predicate IsLetter(c: char) {
    'a' <= Lower(c) <= 'z'
  }

  /** One character of `[-a-z0-9]` under the case-insensitive flag. */
  predicate IsLabelChar(c: char) {
    c == '-' || IsDigit(c) || IsLetter(c)
  }

  /** `[-a-z0-9]{1,63}`. */
  predicate IsLabel(s: string) {
    1 <= |s| <= 63 && forall i :: 0 <= i < |s| ==> IsLabelChar(s[i])
  }

  /** `[a-z]{2,63}`. */
  predicate IsTld(s: string) {
    2 <= |s| <= 63 && forall i :: 0 <= i < |s| ==> IsLetter(s[i])
  }

  /** `(?:www\.)?(?:[-a-z0-9]{1,63}\.)+[a-z]{2,63}`: dot-separated labels
      ending in an alphabetic top-level label. The optional `www.` is itself
      a label, so it adds nothing. */
  predicate IsHost(h: string) {
    var parts := Split(h, '.');
    && |parts| >= 2
    && IsTld(parts[|parts| - 1])
    && forall i :: 0 <= i < |parts| - 1 ==> IsLabel(parts[i])
  }

  /** `\d{2,5}`. */
  predicate IsPort(s: string) {
    2 <= |s| <= 5 && forall i :: 0 <= i < |s| ==> IsDigit(s[i])
  }

  predicate IsQuote(c: char) {
    c == '"' || c == '\''
  }

  /** `[/?#][^\s"']*`. */
  predicate IsPathPart(s: string) {
    |s| >= 1 && (s[0] == '/' || s[0] == '?' || s[0] == '#')
    && forall i :: 1 <= i < |s| ==> !IsSpace(s[i]) && !IsQuote(s[i])
  }

  predicate IsPathStart(c: char) {
    c == '/' || c == '?' || c == '#'
  }

  /** Length of the longest prefix of `s` holding none of the given stop characters. */
  function SpanUntil(s: string, stop: char -> bool): (n: nat)
    ensures n <= |s|
    ensures forall i :: 0 <= i < n ==> !stop(s[i])
    ensures n < |s| ==> stop(s[n])
  {
    if s == [] || stop(s[0]) then 0 else 1 + SpanUntil(s[1..], stop)
  }

  /** What follows the host: nothing, a port, a path, or a port then a path. */
  predicate IsAfterHost(rest: string) {
    if rest == [] then true
    else if rest[0] == ':' then
      var n := SpanUntil(rest[1..], IsPathStart);
      IsPort(rest[1..][..n]) && (n == |rest| - 1 || IsPathPart(rest[1 + n..]))
    else IsPathPart(rest)
  }

  predicate IsHostEnd(c: char) {
    c == ':' || IsPathStart(c)
  }

  /** The length of the `http://` or `https://` scheme, in any letter case. */
  function SchemeLength(url: string): Option<nat> {
    var lower := ToLower(url);
    if StartsWith(lower, "https://") then Some(8)
    else if StartsWith(lower, "http://") then Some(7)
    else None
  }

  /** The anchored, case-insensitive URL validation pattern. */
  predicate IsValidUrl(url: string) {
    match SchemeLength(url)
    case None => false
    case Some(n) =>
      n <= |url| &&
      var rest := url[n..];
      var h := SpanUntil(rest, IsHostEnd);
      IsHost(rest[..h]) && IsAfterHost(rest[h..])
  }

  /** The host part of a URL: what follows the scheme, up to the first `:`,
      `/`, `?` or `#`; empty when there is no http or https scheme. */
  function Host(url: string): (r: string)
    ensures forall i :: 0 <= i < |r| ==> !IsHostEnd(r[i])
  {
    match SchemeLength(url)
    case None => ""
    case Some(n) =>
      if n <= |url| then url[n..][..SpanUntil(url[n..], IsHostEnd)] else ""
  }

  /** A valid URL is an http or https URL whose host has a top-level label. */
  lemma ValidUrlShape(url: string)
    requires IsValidUrl(url)
    ensures StartsWith(ToLower(url), "http://") || StartsWith(ToLower(url), "https://")
    ensures '.' in url
    ensures '.' in Host(url)
  {
    var n := SchemeLength(url).value;
    var rest := url[n..];
    var h := SpanUntil(rest, IsHostEnd);
    var host := rest[..h];
    var parts := Split(host, '.');
    if '.' !in host {
      SplitNone(host, '.');
      assert false;
    }
    var i :| 0 <= i < |host| && host[i] == '.';
    assert url[n + i] == '.';
  }

  // ---------------------------------------------------------------------
  // detectSPA

  /** One SPA marker: a literal searched case-insensitively, or a
      `<script … src="…WORD…">` tag. Literals are written in lower case. */
  datatype Indicator = Literal(text: string) | ScriptSrc(word: string)

  const SpaIndicators: seq<Indicator> := [
    Literal("<div id=\"root\">"),
    Literal("<div id=\"app\">"),
    Literal("<div id=\"__next\">"),
    Literal("<div id=\"__nuxt\">"),
    Literal("data-react-"),
    Literal("ng-app"),
    ScriptSrc("react"),
    ScriptSrc("vue"),
    ScriptSrc("angular")
  ]

  predicate NoQuotes(s: string) {
    forall i :: 0 <= i < |s| ==> !IsQuote(s[i])
  }

  /** `<script[^>]*src=["'][^"']*WORD[^"']*["']` matches in `s` with the tag
      at `i`, `src=` at `j`, the word at `k` and the closing quote at `m`. */
  predicate ScriptSrcAt(s: string, word: string, i: nat, j: nat, k: nat, m: nat) {
    && i + 7 <= j && j + 5 <= k && k + |word| <= m < |s|
    && MatchAt(s, "<script", i)
    && '>' !in s[i + 7..j]
    && MatchAt(s, "src=", j)
    && IsQuote(s[j + 4])
    && NoQuotes(s[j + 5..k])
    && MatchAt(s, word, k)
    && NoQuotes(s[k + |word|..m])
    && IsQuote(s[m])
  }

  /** One indicator's regular expression matches somewhere in the page, ignoring case. */
  predicate IndicatorMatches(html: string, ind: Indicator) {
    var s := ToLower(html);
    match ind
    case Literal(t) => Contains(s, t)
    case ScriptSrc(w) => exists i: nat, j: nat, k: nat, m: nat | i < |s| && j < |s| && k < |s| && m < |s| ::
        ScriptSrcAt(s, w, i, j, k, m)
  }

  /** `indicators.some(pattern => pattern.test(html))`. */
  function AnyIndicator(html: string, inds: seq<Indicator>): (r: bool)
    ensures r <==> exists n :: 0 <= n < |inds| && IndicatorMatches(html, inds[n])
  {
    if inds == [] then false
    else if IndicatorMatches(html, inds[0]) then true
    else
      var rest := AnyIndicator(html, inds[1..]);
      assert forall n :: 1 <= n < |inds| ==> inds[n] == inds[1..][n - 1];
      rest
  }

  /** `detectSPA(html)`: one of the nine markers is present. */
  function DetectSpa(html: string): (r: bool)
    ensures r <==> exists n :: 0 <= n < |SpaIndicators| && IndicatorMatches(html, SpaIndicators[n])
  {
    AnyIndicator(html, SpaIndicators)
  }

  /** The SPA verdict does not depend on letter case. */
  lemma DetectSpaIgnoresCase(html: string)
    ensures DetectSpa(ToLower(html)) == DetectSpa(html)
  {
    ToLowerIdempotent(html);
    forall n | 0 <= n < |SpaIndicators|
      ensures IndicatorMatches(ToLower(html), SpaIndicators[n]) == IndicatorMatches(html, SpaIndicators[n])
    {
    }
  }

  // ---------------------------------------------------------------------
  // Content assembly

  /** The texts the page's selectors yield, after the unwanted elements are
      removed. `divText` is only collected by the static path. */
  datatype Buckets = Buckets(
    title: string,
    metaDescription: string,
    h1: string,
    h2: string,
    h3: string,
    articleText: string,
    contentText: string,
    paragraphs: string,
    listItems: string,
    divText: string,
    bodyText: string)

  /** The buckets in the order they are combined. */
  function Priority(b: Buckets): seq<string> {
    [b.title, b.metaDescription, b.h1, b.h2, b.h3, b.articleText, b.contentText, b.paragraphs, b.listItems]
  }

  /** `filter(text => text && text.trim().length > 0)`. */
  function NonBlank(parts: seq<string>): (r: seq<string>)
    ensures |r| <= |parts|
  {
    if parts == [] then []
    else if AllSpace(parts[0]) then NonBlank(parts[1..])
    else [parts[0]] + NonBlank(parts[1..])
  }

  /** The filter keeps exactly the parts that are not blank. */
  lemma {:induction false} NonBlankMeaning(parts: seq<string>)
    ensures forall x :: x in NonBlank(parts) <==> x in parts && !AllSpace(x)
  {
    if parts != [] {
      NonBlankMeaning(parts[1..]);
      assert parts == [parts[0]] + parts[1..];
    }
  }

  /** Filtering a concatenation filters each half, keeping their order. */
  lemma {:induction false} NonBlankAppend(a: seq<string>, b: seq<string>)
    ensures NonBlank(a + b) == NonBlank(a) + NonBlank(b)
  {
    if a == [] {
      assert a + b == b;
    } else {
      NonBlankAppend(a[1..], b);
      AppendHeadTail(a, b);
    }
  }

  /** The non-blank buckets joined with single spaces. */
  function Combined(b: Buckets): string {
    Join(NonBlank(Priority(b)), " ")
  }

  /** The text the static ladder settles on before cleaning: the combined
      text when it reaches 500 characters, else the body text when that
      reaches 200, else the div text. Both tests measure raw lengths. */
  function StaticPick(b: Buckets): string {
    var combined := Combined(b);
    if |combined| >= CombinedThreshold then combined
    else if |b.bodyText| >= BodyThreshold then b.bodyText
    else b.divText
  }

  /** The cleaned, capped content of the static path. */
  function StaticContent(b: Buckets): (r: string)
    ensures |r| <= ContentCap
    ensures NoLeadingSpace(r) && NoDoubleSpace(r) && OnlyPlainSpaces(r)
    ensures |r| < ContentCap ==> NoTrailingSpace(r)
    ensures r == [] <==> AllSpace(StaticPick(b))
  {
    var c := CleanText(StaticPick(b));
    TakeKeepsShape(c, ContentCap);
    Take(c, ContentCap)
  }

  /** The ladder of `scrapeURL`: the combined text is replaced by the body
      text when shorter than 500, and what results by the div text when
      shorter than 200; the survivor is cleaned and capped. */
  method AssembleStatic(b: Buckets) returns (content: string)
    ensures content == StaticContent(b)
  {
    content := Combined(b);
    if |content| < CombinedThreshold {
      content := b.bodyText;
    }
    if |content| < BodyThreshold {
      content := b.divText;
    }
    assert content == StaticPick(b);
    content := Take(CleanText(content), ContentCap);
  }

  /** The headless path's text before cleaning: the combined text, or the
      body text when the combined text is shorter than 500. */
  function HeadlessPick(b: Buckets): string {
    var combined := Combined(b);
    if |combined| < CombinedThreshold then b.bodyText else combined
  }

  // ---------------------------------------------------------------------
  // ScrapeResult

  datatype Headings = Headings(h1: string, h2: string, h3: string)

  datatype ScrapeResult = ScrapeResult(
    url: string,
    title: string,
    headings: Headings,
    metaDescription: string,
    content: string,
    scrapeError: Option<string>,
    scraperUsed: string)

  /** A result that carries only an error. */
  function Failure(url: string, error: string, engine: string): (r: ScrapeResult)
    ensures r.content == "" && r.scrapeError == Some(error) && r.scraperUsed == engine && r.url == url
  {
    ScrapeResult(url, "", Headings("", "", ""), "", "", Some(error), engine)
  }

  /** A successful page result: the buckets' title, headings and description
      cleaned, and the given content. */
  function PageResult(url: string, b: Buckets, content: string, engine: string): (r: ScrapeResult)
    ensures r.scrapeError.None? && r.content == content && r.scraperUsed == engine && r.url == url
    ensures NoLeadingSpace(r.title) && NoTrailingSpace(r.title) && NoDoubleSpace(r.title)
  {
    ScrapeResult(url, CleanText(b.title),
      Headings(CleanText(b.h1), CleanText(b.h2), CleanText(b.h3)),
      CleanText(b.metaDescription), content, None, engine)
  }

  // ---------------------------------------------------------------------
  // scrapePuppeteer

  /** How a headless run goes: the launch throws, a later page step throws
      (with the browser open), or the page is rendered and its texts read. */
  datatype HeadlessRun = LaunchFailed(launchError: Thrown) | PageFailed(pageError: Thrown) | Rendered(buckets: Buckets)

  /** The result `scrapePuppeteer` returns. */
  function HeadlessResult(url: string, run: HeadlessRun): (r: ScrapeResult)
    ensures r.scraperUsed == HeadlessEngine && r.url == url
    ensures r.scrapeError.None? <==> run.Rendered?
    ensures run.LaunchFailed? ==> r == Failure(url, HeadlessFailurePrefix + MessageOr(run.launchError, "Unknown error"), HeadlessEngine)
    ensures run.PageFailed? ==> r == Failure(url, HeadlessFailurePrefix + MessageOr(run.pageError, "Unknown error"), HeadlessEngine)
    ensures run.Rendered? ==> |r.content| <= ContentCap && NoLeadingSpace(r.content) && NoDoubleSpace(r.content)
  {
    match run
    case LaunchFailed(t) => Failure(url, HeadlessFailurePrefix + MessageOr(t, "Unknown error"), HeadlessEngine)
    case PageFailed(t) => Failure(url, HeadlessFailurePrefix + MessageOr(t, "Unknown error"), HeadlessEngine)
    case Rendered(b) => PageResult(url, b, HeadlessContent(b), HeadlessEngine)
  }

  /** The cleaned, capped content of the headless path. */
  function HeadlessContent(b: Buckets): (r: string)
    ensures |r| <= ContentCap && NoLeadingSpace(r) && NoDoubleSpace(r)
  {
    var c := CleanText(HeadlessPick(b));
    TakeKeepsShape(c, ContentCap);
    Take(c, ContentCap)
  }

  /** A launched browser; closing it releases it. */
  class Browser {
    var open: bool

    constructor()
      ensures open
    {
      open := true;
    }

    method Close()
      modifies this
      ensures !open
    {
      open := false;
    }
  }

  /** `scrapePuppeteer(url)`: returns the result and the browser it launched,
      if any, which is closed on every exit. */
  method ScrapePuppeteer(url: string, run: HeadlessRun) returns (r: ScrapeResult, browser: Option<Browser>)
    ensures r == HeadlessResult(url, run)
    ensures browser.Some? <==> !run.LaunchFailed?
    ensures browser.Some? ==> fresh(browser.value) && !browser.value.open
  {
    if run.LaunchFailed? {
      return Failure(url, HeadlessFailurePrefix + MessageOr(run.launchError, "Unknown error"), HeadlessEngine), None;
    }
    var b := new Browser();
    browser := Some(b);
    if run.PageFailed? {
      r := Failure(url, HeadlessFailurePrefix + MessageOr(run.pageError, "Unknown error"), HeadlessEngine);
    } else {
      var data := run.buckets;
      var content := Combined(data);
      if |content| < CombinedThreshold {
        content := data.bodyText;
      }
      assert content == HeadlessPick(data);
      content := Take(CleanText(content), ContentCap);
      assert content == HeadlessContent(data);
      r := PageResult(url, data, content, HeadlessEngine);
    }
    b.Close();
  }

  // ---------------------------------------------------------------------
  // scrapeURL

  /** The lower-case name of a document kind, used as the engine tag. */
  function KindName(kind: DocKind): string {
    match kind
    case Pdf => "pdf"
    case Docx => "docx"
    case Doc => "doc"
  }

  /** `docType.toUpperCase()`. */
  function KindTitle(kind: DocKind): string {
    match kind
    case Pdf => "PDF"
    case Docx => "DOCX"
    case Doc => "DOC"
  }

  /** The result for a document URL, built from the parser's answer. */
  function DocumentResult(url: string, kind: DocKind, doc: ParsedDocument): (r: ScrapeResult)
    ensures r.url == url && r.title == KindTitle(kind) + " Document" && r.scraperUsed == KindName(kind)
    ensures r.headings == Headings("", "", "") && r.content == doc.content
    ensures r.metaDescription == if doc.pageCount.Some? && doc.pageCount.value != 0 then NatToString(doc.pageCount.value) + " pages" else ""
    ensures r.scrapeError == if Truthy(doc.error) then doc.error else None
  {
    ScrapeResult(url, KindTitle(kind) + " Document", Headings("", "", ""),
      if doc.pageCount.Some? && doc.pageCount.value != 0 then NatToString(doc.pageCount.value) + " pages" else "",
      doc.content,
      if Truthy(doc.error) then doc.error else None,
      KindName(kind))
  }

  /** A cache hit is served with its engine tag marked as cached. */
  function ServedFromCache(entry: ScrapeResult): ScrapeResult {
    entry.(scraperUsed := entry.scraperUsed + CachedSuffix)
  }

  /** Only an entry with content counts as a hit. */
  predicate IsHit(cached: Option<ScrapeResult>) {
    cached.Some? && cached.value.content != ""
  }

  /** Everything outside the scraper that `scrapeURL` consults, once the
      cache has answered: the document fetch and extractors, the k-th GET's
      outcome, the selector texts of a fetched page, the headless run. */
  datatype World = World(
    docFetch: FetchOutcome,
    extractors: Extractors,
    attempts: nat -> AttemptOutcome,
    dom: string -> Buckets,
    headless: HeadlessRun)

  /** What `scrapeURL` returns, what it writes to the cache, and which of the
      external steps it took. */
  datatype Decision = Decision(
    result: ScrapeResult,
    write: Option<ScrapeResult>,
    readCache: bool,
    fetchedDocument: bool,
    fetchedPage: bool,
    rendered: bool)

  /** Headless rendering is attempted on an SPA page or on little content. */
  predicate ShouldEscalate(html: string, content: string) {
    DetectSpa(html) || |content| < LowContentThreshold
  }

  /** The headless result replaces the static one when it is strictly longer
      or the static content is under 200 characters. */
  predicate AdoptHeadless(headless: ScrapeResult, content: string) {
    |headless.content| > |content| || |content| < BodyThreshold
  }

  /** The static path, once the page is fetched. */
  function PageDecision(url: string, html: string, w: World): (d: Decision)
    ensures d.readCache && d.fetchedPage && !d.fetchedDocument
    ensures d.write == Some(d.result)
  {
    var b := w.dom(html);
    var content := StaticContent(b);
    if ShouldEscalate(html, content) then
      var h := HeadlessResult(url, w.headless);
      if AdoptHeadless(h, content) then Decision(h, Some(h), true, false, true, true)
      else
        var r := PageResult(url, b, content, StaticEngine);
        Decision(r, Some(r), true, false, true, true)
    else
      var r := PageResult(url, b, content, StaticEngine);
      Decision(r, Some(r), true, false, true, false)
  }

  /** `scrapeURL(url)` given what the cache read returned. */
  function Scrape(url: string, cached: Option<ScrapeResult>, w: World): Decision {
    if !IsValidUrl(url) then
      Decision(Failure(url, ScrapeFailurePrefix + InvalidUrlError, StaticEngine), None, false, false, false, false)
    else if IsHit(cached) then
      Decision(ServedFromCache(cached.value), None, true, false, false, false)
    else match GetDocumentType(url)
      case Some(kind) =>
        KnownTypeNeverNull(url, w.docFetch, w.extractors);
        var doc := ParseDocumentFromUrl(url, w.docFetch, w.extractors).value;
        Decision(DocumentResult(url, kind, doc), None, true, true, false, false)
      case None =>
        match RetryFrom(w.attempts, 1, MaxRetries)
        case Err(m) => Decision(Failure(url, ScrapeFailurePrefix + m, StaticEngine), None, true, false, true, false)
        case Ok(html) => PageDecision(url, html, w)
  }

  /** `scrapeURL(url)` against the cache: `getFails` and `setFails` say
      whether the store throws on the read and on the write. */
  method ScrapeUrl(url: string, cache: ScrapeCache<ScrapeResult>, w: World, getFails: bool, setFails: bool) returns (r: ScrapeResult)
    requires cache.Valid()
    modifies cache
    ensures cache.Valid()
    ensures var d := Scrape(url, Lookup(old(cache.entries), CacheKey(url), cache.Configured(), getFails), w);
      && r == d.result
      && cache.entries == if d.write.Some? then Store(old(cache.entries), CacheKey(url), d.write.value, DefaultTtl, cache.Configured(), setFails) else old(cache.entries)
  {
    if !IsValidUrl(url) {
      return Failure(url, ScrapeFailurePrefix + InvalidUrlError, StaticEngine);
    }
    var cached := cache.Get(CacheKey(url), getFails);
    if cached.Some? && cached.value.content != "" {
      return ServedFromCache(cached.value);
    }
    var docType := GetDocumentType(url);
    if docType.Some? {
      var docResult := ParseDocumentFromUrl(url, w.docFetch, w.extractors);
      if docResult.Some? {
        return DocumentResult(url, docType.value, docResult.value);
      }
    }
    var response, _, _ := RetryRequest(w.attempts, MaxRetries);
    if response.Err? {
      return Failure(url, ScrapeFailurePrefix + response.error, StaticEngine);
    }
    r := ScrapePage(url, response.value, cache, w, setFails);
  }

  /** The part of `scrapeURL` after a page is fetched: the ladder, the
      escalation, the adoption test and the write-through. */
  method ScrapePage(url: string, html: string, cache: ScrapeCache<ScrapeResult>, w: World, setFails: bool) returns (r: ScrapeResult)
    requires cache.Valid()
    modifies cache
    ensures cache.Valid()
    ensures r == PageDecision(url, html, w).result
    ensures cache.entries == Store(old(cache.entries), CacheKey(url), r, DefaultTtl, cache.Configured(), setFails)
  {
    var b := w.dom(html);
    var content := AssembleStatic(b);
    var isSpa := DetectSpa(html);
    var hasLowContent := |content| < LowContentThreshold;
    assert ShouldEscalate(html, content) == (isSpa || hasLowContent);
    if isSpa || hasLowContent {
      var headless, _ := ScrapePuppeteer(url, w.headless);
      if |headless.content| > |content| || |content| < BodyThreshold {
        assert AdoptHeadless(headless, content);
        cache.Set(CacheKey(url), headless, DefaultTtl, setFails);
        return headless;
      }
      assert !AdoptHeadless(HeadlessResult(url, w.headless), content);
    }
    r := PageResult(url, b, content, StaticEngine);
    cache.Set(CacheKey(url), r, DefaultTtl, setFails);
  }

  // ---------------------------------------------------------------------
  // Properties of scrapeURL

  /** An invalid URL fails at once: no cache read, no fetch, no write. */
  lemma InvalidUrlRejected(url: string, cached: Option<ScrapeResult>, w: World)
    requires !IsValidUrl(url)
    ensures var d := Scrape(url, cached, w);
      && d.result == Failure(url, ScrapeFailurePrefix + InvalidUrlError, StaticEngine)
      && !d.readCache && !d.fetchedDocument && !d.fetchedPage && !d.rendered && d.write.None?
  {
  }

  /** A hit is returned as stored, tagged as cached, and nothing is fetched. */
  lemma CacheHitServed(url: string, entry: ScrapeResult, w: World)
    requires IsValidUrl(url) && entry.content != ""
    ensures var d := Scrape(url, Some(entry), w);
      && d.result == entry.(scraperUsed := entry.scraperUsed + " (cached)")
      && !d.fetchedDocument && !d.fetchedPage && d.write.None?
  {
  }

  /** An entry without content is no hit at all. */
  lemma EmptyEntryIsMiss(url: string, entry: ScrapeResult, w: World)
    requires entry.content == ""
    ensures Scrape(url, Some(entry), w) == Scrape(url, None, w)
  {
  }

  /** A document URL is answered by the parser, tagged with its kind, and
      never written to the cache; the page is never fetched. */
  lemma DocumentsNeverCached(url: string, cached: Option<ScrapeResult>, w: World)
    requires IsValidUrl(url) && !IsHit(cached) && GetDocumentType(url).Some?
    ensures var d := Scrape(url, cached, w);
      var kind := GetDocumentType(url).value;
      && d.write.None? && d.fetchedDocument && !d.fetchedPage
      && d.result.scraperUsed == KindName(kind)
      && d.result.title == KindTitle(kind) + " Document"
      && d.result.content == ParseDocumentFromUrl(url, w.docFetch, w.extractors).value.content
  {
  }

  /** A page that cannot be fetched within three attempts gives the last
      attempt's error and writes nothing. */
  lemma FetchFailureReported(url: string, cached: Option<ScrapeResult>, w: World)
    requires IsValidUrl(url) && !IsHit(cached) && GetDocumentType(url).None?
    requires forall k :: 1 <= k <= MaxRetries ==> !Succeeds(w.attempts(k))
    ensures var d := Scrape(url, cached, w);
      && d.result == Failure(url, ScrapeFailurePrefix + FailureMessage(w.attempts(MaxRetries)), StaticEngine)
      && d.write.None? && !d.rendered
  {
    RetryRethrowsLast(w.attempts, 1, MaxRetries);
  }

  /** Rendering happens exactly on an SPA page or on cleaned static content
      under 500 characters; whatever is returned from a fetched page is
      written through to the cache. */
  lemma EscalationRule(url: string, html: string, w: World)
    ensures var d := PageDecision(url, html, w);
      && (d.rendered <==> DetectSpa(html) || |StaticContent(w.dom(html))| < 500)
      && d.write == Some(d.result)
  {
  }

  /** The rendered result is used exactly when it is strictly longer than the
      static content or the static content is under 200 characters. */
  lemma AdoptionRule(url: string, html: string, w: World)
    requires DetectSpa(html) || |StaticContent(w.dom(html))| < 500
    ensures var d := PageDecision(url, html, w);
      var content := StaticContent(w.dom(html));
      var h := HeadlessResult(url, w.headless);
      && (d.result.scraperUsed == "puppeteer" <==> |h.content| > |content| || |content| < 200)
      && (d.result.scraperUsed == "puppeteer" ==> d.result == h)
  {
  }

  /** Content served by the static engine has at least 200 characters, and at
      least 500 when no rendering was attempted. */
  lemma StaticResultLength(url: string, html: string, w: World)
    ensures var d := PageDecision(url, html, w);
      d.result.scraperUsed == "cheerio" ==>
        && d.result.scrapeError.None?
        && 200 <= |d.result.content| <= 50000
        && (!d.rendered ==> |d.result.content| >= 500)
        && NoLeadingSpace(d.result.content) && NoDoubleSpace(d.result.content)
  {
    var b := w.dom(html);
    var content := StaticContent(b);
    var d := PageDecision(url, html, w);
    var r := PageResult(url, b, content, StaticEngine);
    if ShouldEscalate(html, content) {
      var h := HeadlessResult(url, w.headless);
      if AdoptHeadless(h, content) {
        assert d.result == h;
        assert h.scraperUsed != StaticEngine;
      } else {
        assert d.result == r && |content| >= BodyThreshold;
      }
    } else {
      assert d.result == r && |content| >= LowContentThreshold;
    }
  }

  /** A failed headless run is adopted, and so written to the cache, when the
      static content is under 200 characters; the entry has no content, so a
      later call treats it as a miss. */
  lemma HeadlessErrorCachedNotServed(url: string, html: string, w: World, later: World)
    requires |StaticContent(w.dom(html))| < 200 && !w.headless.Rendered?
    ensures var d := PageDecision(url, html, w);
      && d.result.scrapeError.Some? && d.result.content == ""
      && d.write == Some(d.result)
      && Scrape(url, d.write, later) == Scrape(url, None, later)
  {
    EmptyEntryIsMiss(url, PageDecision(url, html, w).result, later);
  }

  /** Whatever is written with content is served from the cache next time. */
  lemma WrittenEntryServed(url: string, cached: Option<ScrapeResult>, w: World, later: World)
    requires var d := Scrape(url, cached, w); d.write.Some? && d.write.value.content != ""
    ensures var d := Scrape(url, cached, w);
      && IsValidUrl(url)
      && Scrape(url, d.write, later).result == ServedFromCache(d.write.value)
      && !Scrape(url, d.write, later).fetchedPage
  {
  }
}

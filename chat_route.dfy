/** The request side of the chat endpoint (src/app/api/chat/route.ts): body
    validation, the fan-out over the URLs found in a message, URL
    de-duplication, the query left after the URLs are removed, the prompt,
    the source summary and the answer built from the model's reply. Finding
    the URLs in the message, the web search and the model's reply are inputs. */
module ChatRoute {
  import opened Wrappers
  import opened Text
  import opened Types
  import Scrapers
  import GroqClient

  const MaxMessageLength := 100000
  const MaxHistoryLength := 50
  const MaxUrls := 5
  const CompareDefault := "Please compare and analyze these websites"
  const SummaryDefault := "Please provide a comprehensive summary " + "and analysis of this website"
  const ScrapeRejectedError := "Failed to scrape URL"
  const DocumentMarker := "[Analyzing uploaded document:"

  // ---------------------------------------------------------------------
  // Request validation

  /** `validateMessage(message)`; `None` is an absent (`undefined`) field. */
  function ValidateMessage(message: Option<Json>): (r: Result<string, string>)
    ensures r.Ok? <==> message.Some? && message.value.JString? && !AllSpace(message.value.s) && |message.value.s| <= MaxMessageLength
    ensures r.Ok? ==> r.value == Trim(message.value.s) && r.value != ""
    ensures r.Ok? ==> NoLeadingSpace(r.value) && NoTrailingSpace(r.value) && |r.value| <= MaxMessageLength
  {
    if message.None? || !message.value.JString? then Err("Message must be a string")
    else
      var s := message.value.s;
      if AllSpace(s) then Err("Message cannot be empty")
      else if |s| > MaxMessageLength then Err("Message exceeds maximum length of 100000 characters")
      else Ok(Trim(s))
  }

  /** A message that passed validation passes again unchanged. */
  lemma ValidatedMessageIsStable(message: Option<Json>)
    requires ValidateMessage(message).Ok?
    ensures ValidateMessage(Some(JString(ValidateMessage(message).value))) == ValidateMessage(message)
  {
    TrimIdempotent(message.value.s);
  }

  /** Why one history entry is refused, if it is: not a non-null object, a
      role other than `user`/`ai`, or content that is not a string. Arrays are
      objects to `typeof` but have no `role`. */
  function EntryError(m: Json): Option<string> {
    if !(m.JObject? || m.JArray?) then Some("Invalid message in history")
    else if !(m.JObject? && "role" in m.fields && (m.fields["role"] == JString("user") || m.fields["role"] == JString("ai")))
    then Some("Invalid role in history message")
    else if !("content" in m.fields && m.fields["content"].JString?) then Some("Invalid content in history message")
    else None
  }

  /** The history entry an accepted object stands for. */
  function ToFrontend(m: Json): FrontendMessage
    requires EntryError(m).None?
  {
    FrontendMessage(if m.fields["role"] == JString("user") then User else Ai, m.fields["content"].s)
  }

  /** The first refused entry at or after `from`, with its reason. */
  function FirstEntryError(items: seq<Json>, from: nat): (r: Option<string>)
    requires from <= |items|
    ensures r.None? <==> forall i :: from <= i < |items| ==> EntryError(items[i]).None?
    ensures r.Some? ==> exists i :: (from <= i < |items| && EntryError(items[i]) == r
      && forall j :: from <= j < i ==> EntryError(items[j]).None?)
    decreases |items| - from
  {
    if from == |items| then None
    else if EntryError(items[from]).Some? then EntryError(items[from])
    else FirstEntryError(items, from + 1)
  }

  /** What `validateHistory` answers, checked in the source's order. */
  function HistoryVerdict(history: Json): Result<seq<FrontendMessage>, string> {
    if !history.JArray? then Err("History must be an array")
    else if |history.items| > MaxHistoryLength then Err("History exceeds maximum length of 50 messages")
    else match FirstEntryError(history.items, 0)
      case Some(e) => Err(e)
      case None => Ok(seq(|history.items|, i requires 0 <= i < |history.items| => ToFrontend(history.items[i])))
  }

  /** `validateHistory(history)`: the entries are checked one by one and the
      first refused one ends the check. */
  method ValidateHistory(history: Json) returns (r: Result<seq<FrontendMessage>, string>)
    ensures r == HistoryVerdict(history)
  {
    if !history.JArray? {
      return Err("History must be an array");
    }
    var items := history.items;
    if |items| > MaxHistoryLength {
      return Err("History exceeds maximum length of 50 messages");
    }
    var i := 0;
    while i < |items|
      invariant 0 <= i <= |items|
      invariant FirstEntryError(items, 0) == FirstEntryError(items, i)
    {
      var e := EntryError(items[i]);
      if e.Some? {
        return Err(e.value);
      }
      i := i + 1;
    }
    r := Ok(seq(|items|, k requires 0 <= k < |items| => ToFrontend(items[k])));
  }

  /** An accepted history has every entry, in order, and at most 50 of them;
      a refusal names the first refused entry. */
  lemma HistoryVerdictMeaning(history: Json)
    ensures var r := HistoryVerdict(history);
      && (r.Ok? <==> (history.JArray? && |history.items| <= MaxHistoryLength
            && forall i :: 0 <= i < |history.items| ==> EntryError(history.items[i]).None?))
      && (r.Ok? ==> (|r.value| == |history.items| <= MaxHistoryLength
            && forall i :: 0 <= i < |r.value| ==> r.value[i] == ToFrontend(history.items[i])))
      && (r.Err? && history.JArray? && |history.items| <= MaxHistoryLength ==>
            exists i :: (0 <= i < |history.items| && EntryError(history.items[i]) == Some(r.error)
              && forall j :: 0 <= j < i ==> EntryError(history.items[j]).None?))
  {
  }

  /** A request that got past the checks. */
  datatype Request = Request(message: string, history: seq<FrontendMessage>, stream: bool)

  /** A refused request: HTTP status and error text. */
  datatype Rejection = Rejection(status: nat, error: string)

  /** A property read: objects look the key up; other non-null values have no
      such property. */
  function Field(body: Json, name: string): Option<Json>
    requires !body.JNull?
  {
    if body.JObject? && name in body.fields then Some(body.fields[name]) else None
  }

  /** The history sent, an absent or `null` one read as empty. */
  function HistoryField(body: Json): Json
    requires !body.JNull?
  {
    var h := Field(body, "history");
    if h.None? || h.value.JNull? then JArray([]) else h.value
  }

  /** The checks at the top of `POST`: an unparseable body, then the message,
      then the history (absent or `null` is an empty list). Reading a property
      of a `null` body throws and ends in the generic 500 answer. */
  function CheckRequest(body: Option<Json>): (r: Result<Request, Rejection>)
    ensures r.Ok? ==> r.value.message != "" && |r.value.message| <= MaxMessageLength && |r.value.history| <= MaxHistoryLength
    ensures body.None? ==> r == Err(Rejection(400, "Invalid JSON in request body"))
    ensures body == Some(JNull) ==> r == Err(Rejection(500, "An unexpected error occurred. Please try again."))
    ensures body.Some? && !body.value.JNull? && ValidateMessage(Field(body.value, "message")).Err? ==>
      r == Err(Rejection(400, ValidateMessage(Field(body.value, "message")).error))
    ensures body.Some? && !body.value.JNull? && ValidateMessage(Field(body.value, "message")).Ok? ==>
      var verdict := HistoryVerdict(HistoryField(body.value));
      && (verdict.Err? ==> r == Err(Rejection(400, verdict.error)))
      && (verdict.Ok? ==> r == Ok(Request(ValidateMessage(Field(body.value, "message")).value, verdict.value,
                                          Field(body.value, "stream") == Some(JBool(true)))))
  {
    if body.None? then Err(Rejection(400, "Invalid JSON in request body"))
    else if body.value.JNull? then Err(Rejection(500, "An unexpected error occurred. Please try again."))
    else
      var b := body.value;
      match ValidateMessage(Field(b, "message"))
      case Err(e) => Err(Rejection(400, e))
      case Ok(message) =>
        var history := HistoryField(b);
        HistoryVerdictMeaning(history);
        match HistoryVerdict(history)
        case Err(e) => Err(Rejection(400, e))
        case Ok(entries) => Ok(Request(message, entries, Field(b, "stream") == Some(JBool(true))))
  }

  // ---------------------------------------------------------------------
  // Fan-out

  /** How one scrape settled. */
  datatype Settled = Fulfilled(result: Scrapers.ScrapeResult) | Rejected

  /** The source for one URL from how its scrape settled. */
  function SourceOf(url: string, s: Settled): (r: ScrapedSource)
    ensures r.url == url
    ensures s.Rejected? ==> r == ScrapedSource(url, "", None, Some(ScrapeRejectedError))
    ensures s.Fulfilled? ==> r.content == s.result.content && r.scraperUsed == Some(s.result.scraperUsed) && r.error == s.result.scrapeError
  {
    match s
    case Fulfilled(res) => ScrapedSource(url, res.content, Some(res.scraperUsed), res.scrapeError)
    case Rejected => ScrapedSource(url, "", None, Some(ScrapeRejectedError))
  }

  /** `scrapeMultipleUrls(urls)`: `settle(i)` is how the i-th scrape settled. */
  function ScrapeMultiple(urls: seq<string>, settle: nat -> Settled): (r: seq<ScrapedSource>)
    ensures |r| == |urls|
    ensures forall i :: 0 <= i < |r| ==> r[i] == SourceOf(urls[i], settle(i))
  {
    seq(|urls|, i requires 0 <= i < |urls| => SourceOf(urls[i], settle(i)))
  }

  /** One source per URL, in order, each under the URL it was asked for;
      a rejected scrape is an error source without content. */
  lemma FanOutKeepsUrls(urls: seq<string>, settle: nat -> Settled, i: nat)
    requires i < |urls|
    ensures ScrapeMultiple(urls, settle)[i].url == urls[i]
    ensures settle(i).Rejected? ==> !Successful(ScrapeMultiple(urls, settle)[i]) && Failed(ScrapeMultiple(urls, settle)[i])
  {
  }

  /** Sources found by web search are tagged as such. */
  function MarkSearch(s: ScrapedSource): (r: ScrapedSource)
    ensures r.url == s.url && r.content == s.content && r.error == s.error
    ensures Truthy(s.scraperUsed) ==> r.scraperUsed == Some(s.scraperUsed.value + " (search)")
    ensures !Truthy(s.scraperUsed) ==> r.scraperUsed == Some("search")
  {
    s.(scraperUsed := if Truthy(s.scraperUsed) then Some(s.scraperUsed.value + " (search)") else Some("search"))
  }

  /** Every search-found source ends up with a non-empty tag mentioning the search. */
  lemma SearchTagAlwaysSet(s: ScrapedSource)
    ensures Truthy(MarkSearch(s).scraperUsed)
    ensures Contains(MarkSearch(s).scraperUsed.value, "search")
  {
    if Truthy(s.scraperUsed) {
      ContainsMiddle(s.scraperUsed.value + " (", "search", ")");
      assert s.scraperUsed.value + " (" + "search" + ")" == s.scraperUsed.value + " (search)";
    } else {
      ContainsMiddle("", "search", "");
      assert "" + "search" + "" == "search";
    }
  }

  // ---------------------------------------------------------------------
  // URL de-duplication

  /** `[...new Set(urls)]` started from the already-seen URLs: first occurrences, in order. */
  function DedupeFrom(urls: seq<string>, seen: set<string>): (r: seq<string>)
    ensures forall i :: 0 <= i < |r| ==> r[i] in urls && r[i] !in seen
    ensures forall i, j :: 0 <= i < j < |r| ==> r[i] != r[j]
    ensures forall u :: u in urls && u !in seen ==> u in r
  {
    if urls == [] then []
    else if urls[0] in seen then DedupeFrom(urls[1..], seen)
    else [urls[0]] + DedupeFrom(urls[1..], seen + {urls[0]})
  }

  function Dedupe(urls: seq<string>): seq<string> {
    DedupeFrom(urls, {})
  }

  /** The insertion-order law of a set: a new URL goes to the end, a repeated one changes nothing. */
  lemma {:induction false} DedupeSnoc(urls: seq<string>, seen: set<string>, u: string)
    ensures DedupeFrom(urls + [u], seen) == DedupeFrom(urls, seen) + (if u in urls || u in seen then [] else [u])
  {
    if urls == [] {
      assert urls + [u] == [u];
    } else {
      assert (urls + [u])[0] == urls[0];
      assert (urls + [u])[1..] == urls[1..] + [u];
      if urls[0] in seen {
        DedupeSnoc(urls[1..], seen, u);
      } else {
        DedupeSnoc(urls[1..], seen + {urls[0]}, u);
      }
    }
  }

  /** A list without repeats is left as it is. */
  lemma {:induction false} DedupeDistinct(urls: seq<string>, seen: set<string>)
    requires forall i, j :: 0 <= i < j < |urls| ==> urls[i] != urls[j]
    requires forall i :: 0 <= i < |urls| ==> urls[i] !in seen
    ensures DedupeFrom(urls, seen) == urls
  {
    if urls != [] {
      DedupeDistinct(urls[1..], seen + {urls[0]});
    }
  }

  /** `[...new Set(urls)].slice(0, 5)`. */
  function UniqueUrls(urls: seq<string>): (r: seq<string>)
    ensures |r| <= MaxUrls
    ensures forall i, j :: 0 <= i < j < |r| ==> r[i] != r[j]
    ensures forall i :: 0 <= i < |r| ==> r[i] in urls
    ensures |r| <= |Dedupe(urls)| && r == Dedupe(urls)[..|r|]
    ensures |r| == if |Dedupe(urls)| <= MaxUrls then |Dedupe(urls)| else MaxUrls
    ensures |Dedupe(urls)| <= MaxUrls ==> forall u :: u in urls ==> u in r
  {
    var d := Dedupe(urls);
    if |d| <= MaxUrls then d else d[..MaxUrls]
  }

  // ---------------------------------------------------------------------
  // The query

  /** The query after each URL in turn has its first occurrence removed and
      the rest trimmed. */
  function StripAll(query: string, urls: seq<string>): (r: string)
    ensures |r| <= |query|
    ensures urls != [] ==> NoLeadingSpace(r) && NoTrailingSpace(r)
    decreases |urls|
  {
    if urls == [] then query else StripAll(Trim(RemoveFirst(query, urls[0])), urls[1..])
  }

  /** The replace loop of `POST`. */
  method StripUrls(message: string, urls: seq<string>) returns (query: string)
    ensures query == StripAll(message, urls)
  {
    query := message;
    for i := 0 to |urls|
      invariant StripAll(query, urls[i..]) == StripAll(message, urls)
    {
      assert urls[i..][1..] == urls[i + 1..];
      query := Trim(RemoveFirst(query, urls[i]));
    }
    assert urls[|urls|..] == [];
  }

  /** The opening phrases removed from a query, in the order they are tried. */
  const LeadPhrases: seq<string> := [
    "give me a summary of this site:", "summarize this site:", "tell me about this site:",
    "what is this site about:", "analyze this website:", "review this website:",
    "compare these", "compare this"
  ]

  /** The openings that become "it". */
  const SubjectPhrases: seq<string> := ["this site", "this website", "this page", "this url", "these sites", "these websites"]

  /** An anchored, case-insensitive alternation replaced once: the first
      listed phrase the query starts with is replaced. */
  function ReplaceLeading(query: string, phrases: seq<string>, replacement: string): (r: string)
    ensures (forall i :: 0 <= i < |phrases| ==> !StartsWith(ToLower(query), phrases[i])) ==> r == query
  {
    if phrases == [] then query
    else if StartsWith(ToLower(query), phrases[0]) then replacement + query[|phrases[0]|..]
    else ReplaceLeading(query, phrases[1..], replacement)
  }

  /** The characters of `^[.,!?;:\s]*$`. */
  predicate OnlyPunctuation(s: string) {
    forall i :: 0 <= i < |s| ==> IsSpace(s[i]) || s[i] in ".,!?;:"
  }

  /** The default query when URLs were given and nothing meaningful is left. */
  function QueryFallback(query: string, urlCount: nat): (r: string)
    ensures urlCount == 0 ==> r == query
    ensures urlCount > 0 && OnlyPunctuation(query) ==> r == (if urlCount > 1 then CompareDefault else SummaryDefault)
    ensures urlCount > 0 && !OnlyPunctuation(query) ==> r == query
  {
    if urlCount > 0 && (query == "" || OnlyPunctuation(query)) then
      if urlCount > 1 then CompareDefault else SummaryDefault
    else query
  }

  /** With URLs, the query sent on is never blank. */
  lemma FallbackNeverBlank(query: string, urlCount: nat)
    requires urlCount > 0
    ensures !AllSpace(QueryFallback(query, urlCount))
  {
    var r := QueryFallback(query, urlCount);
    if r == query {
      var i :| 0 <= i < |query| && !(IsSpace(query[i]) || query[i] in ".,!?;:");
      assert !IsSpace(r[i]);
    } else {
      assert r == CompareDefault || r == SummaryDefault;
      assert CompareDefault[0] == 'P' && SummaryDefault[0] == 'P';
    }
  }

  /** The query that goes into the prompt. */
  function FinalQuery(message: string, urls: seq<string>): string {
    var stripped := StripAll(message, urls);
    var q := Trim(ReplaceLeading(ReplaceLeading(stripped, LeadPhrases, ""), SubjectPhrases, "it"));
    QueryFallback(q, |urls|)
  }

  // ---------------------------------------------------------------------
  // The prompt

  /** `s.content && !s.error`. */
  predicate Successful(s: ScrapedSource) {
    s.content != "" && !Truthy(s.error)
  }

  /** `s.error` is truthy. */
  predicate Failed(s: ScrapedSource) {
    Truthy(s.error)
  }

  function Successes(sources: seq<ScrapedSource>): (r: seq<ScrapedSource>)
    ensures |r| <= |sources|
    ensures forall i :: 0 <= i < |r| ==> Successful(r[i]) && r[i] in sources
    ensures forall s :: s in sources && Successful(s) ==> s in r
  {
    if sources == [] then []
    else if Successful(sources[0]) then [sources[0]] + Successes(sources[1..])
    else Successes(sources[1..])
  }

  function Failures(sources: seq<ScrapedSource>): (r: seq<ScrapedSource>)
    ensures |r| <= |sources|
    ensures forall i :: 0 <= i < |r| ==> Failed(r[i]) && r[i] in sources
    ensures forall s :: s in sources && Failed(s) ==> s in r
  {
    if sources == [] then []
    else if Failed(sources[0]) then [sources[0]] + Failures(sources[1..])
    else Failures(sources[1..])
  }

  /** `filter` works element by element: the successes of two lists in a
      row are the successes of each, in the same order, and one source is
      kept exactly when it succeeded. */
  lemma {:induction false} SuccessesAppend(a: seq<ScrapedSource>, b: seq<ScrapedSource>)
    ensures Successes(a + b) == Successes(a) + Successes(b)
  {
    if a == [] {
      assert a + b == b;
    } else {
      SuccessesAppend(a[1..], b);
      SuccessesAppendStep(a, b);
    }
  }

  /** The step of SuccessesAppend past the first source of `a`. */
  lemma SuccessesAppendStep(a: seq<ScrapedSource>, b: seq<ScrapedSource>)
    requires a != [] && Successes(a[1..] + b) == Successes(a[1..]) + Successes(b)
    ensures Successes(a + b) == Successes(a) + Successes(b)
  {
    AppendHeadTail(a, b);
    var kept := if Successful(a[0]) then [a[0]] else [];
    Substitute(Successes(a + b), Successes(a), Successes(a[1..] + b), kept, Successes(a[1..]), Successes(b));
  }

  lemma SuccessesOne(s: ScrapedSource)
    ensures Successes([s]) == if Successful(s) then [s] else []
  {
    ConsHeadTail(s, []);
  }

  /** The same for the failures. */
  lemma {:induction false} FailuresAppend(a: seq<ScrapedSource>, b: seq<ScrapedSource>)
    ensures Failures(a + b) == Failures(a) + Failures(b)
  {
    if a == [] {
      assert a + b == b;
    } else {
      FailuresAppend(a[1..], b);
      FailuresAppendStep(a, b);
    }
  }

  /** The step of FailuresAppend past the first source of `a`. */
  lemma FailuresAppendStep(a: seq<ScrapedSource>, b: seq<ScrapedSource>)
    requires a != [] && Failures(a[1..] + b) == Failures(a[1..]) + Failures(b)
    ensures Failures(a + b) == Failures(a) + Failures(b)
  {
    AppendHeadTail(a, b);
    var kept := if Failed(a[0]) then [a[0]] else [];
    Substitute(Failures(a + b), Failures(a), Failures(a[1..] + b), kept, Failures(a[1..]), Failures(b));
  }

  lemma FailuresOne(s: ScrapedSource)
    ensures Failures([s]) == if Failed(s) then [s] else []
  {
    ConsHeadTail(s, []);
  }

  /** No source both succeeds and fails, so the two lists together are no
      longer than the sources. */
  lemma {:induction false} SuccessesAndFailuresDisjoint(sources: seq<ScrapedSource>)
    ensures |Successes(sources)| + |Failures(sources)| <= |sources|
  {
    if sources != [] {
      SuccessesAndFailuresDisjoint(sources[1..]);
    }
  }

  function Urls(sources: seq<ScrapedSource>): (r: seq<string>)
    ensures |r| == |sources| && forall i :: 0 <= i < |r| ==> r[i] == sources[i].url
  {
    seq(|sources|, i requires 0 <= i < |sources| => sources[i].url)
  }

  /** Which of the three prompts is built, with what it is built from. */
  datatype Prompt =
    | Unreachable(query: string, failedUrls: seq<string>)
    | Conversational(query: string)
    | Grounded(query: string, sections: seq<ScrapedSource>, failedUrls: seq<string>)
  {
    /** More than one source made it: the prompt asks for a comparison. */
    predicate IsComparison() {
      Grounded? && |sections| > 1
    }
  }

  /** The branch `buildPrompt` takes. */
  function PlanPrompt(query: string, sources: seq<ScrapedSource>): (p: Prompt)
    ensures p.query == query
    ensures p.Unreachable? <==> |Successes(sources)| == 0 && |Failures(sources)| > 0
    ensures p.Conversational? <==> |Successes(sources)| == 0 && |Failures(sources)| == 0
    ensures p.Grounded? <==> |Successes(sources)| > 0
    ensures p.Grounded? ==> p.sections == Successes(sources) && p.failedUrls == Urls(Failures(sources))
    ensures p.Unreachable? ==> p.failedUrls == Urls(Failures(sources))
    ensures p.IsComparison() <==> |Successes(sources)| > 1
  {
    var ok := Successes(sources);
    var failed := Failures(sources);
    if |ok| == 0 && |failed| > 0 then Unreachable(query, Urls(failed))
    else if |ok| == 0 then Conversational(query)
    else Grounded(query, ok, Urls(failed))
  }

  /** One content section: `--- Source N: URL ---` and the content below it. */
  function Section(index: nat, s: ScrapedSource): string {
    "--- Source " + NatToString(index + 1) + ": " + s.url + " ---\n" + s.content
  }

  function Sections(sources: seq<ScrapedSource>): string {
    Join(seq(|sources|, i requires 0 <= i < |sources| => Section(i, sources[i])), "\n\n")
  }

  function Header(comparison: bool): string {
    if comparison then "MULTIPLE WEBSITE CONTENTS:" else "WEBSITE CONTENT:"
  }

  function QuestionLine(query: string): string {
    "User Question: \"" + query + "\""
  }

  function MessageLine(query: string): string {
    "User Message: \"" + query + "\""
  }

  /** A grounded prompt after its question line. */
  function GroundedBody(sections: seq<ScrapedSource>, failedUrls: seq<string>): string {
    "\n\n" + Header(|sections| > 1) + ("\n" + Sections(sections) + GroundedInstructions(|sections| > 1, failedUrls))
  }

  /** The rest of a grounded prompt after its content sections. */
  function GroundedInstructions(comparison: bool, failedUrls: seq<string>): string {
    "\n\nInstructions:\n- Analyze the website content" + (if comparison then "s" else "")
    + " thoroughly and provide a comprehensive answer\n"
    + (if comparison then "- Compare and contrast information from different sources\n- Clearly attribute information to specific sources"
       else "- Cite specific information from the content")
    + "\n- Clearly indicate that your response is based on the scraped website data\n- If the content doesn't fully answer the question, state this limitation\n"
    + (if |failedUrls| > 0 then "\nNote: Could not access: " + Join(failedUrls, ", ") else "")
  }

  /** The text of a prompt. */
  function Render(p: Prompt): string {
    if p.Grounded? then
      QuestionLine(p.query) + GroundedBody(p.sections, p.failedUrls)
    else if p.Unreachable? then
      QuestionLine(p.query) + "\n\nNote: Unable to access webpage content from " + NatToString(|p.failedUrls|) + " URL(s).\nFailed URLs: "
      + Join(p.failedUrls, ", ")
      + "\n\nInstructions:\n- Provide a helpful answer using general knowledge\n- Mention that you couldn't access the specific webpage(s)\n- Offer alternative suggestions if appropriate"
    else
      MessageLine(p.query) + "\n\nInstructions:\n- Provide a helpful, conversational response\n- Use your general knowledge to answer the question"
  }

  /** `buildPrompt(userQuery, sources)`. */
  function BuildPrompt(query: string, sources: seq<ScrapedSource>): string {
    Render(PlanPrompt(query, sources))
  }

  /** A prompt about unreachable pages opens with the question. */
  lemma UnreachablePromptOpening(q: string, urls: seq<string>)
    ensures StartsWith(Render(Unreachable(q, urls)), QuestionLine(q))
  {
    var r := Render(Unreachable(q, urls));
    assert r == QuestionLine(q) + r[|QuestionLine(q)|..];
  }

  /** A prompt without sources opens with the message. */
  lemma ConversationalPromptOpening(q: string)
    ensures StartsWith(Render(Conversational(q)), MessageLine(q))
  {
    var r := Render(Conversational(q));
    assert r == MessageLine(q) + r[|MessageLine(q)|..];
  }

  /** A grounded prompt opens with the question. */
  lemma GroundedPromptOpening(q: string, ss: seq<ScrapedSource>, urls: seq<string>)
    ensures StartsWith(Render(Grounded(q, ss, urls)), QuestionLine(q))
  {
    StartsWithAppend(QuestionLine(q), GroundedBody(ss, urls));
  }

  /** A grounded prompt carries the comparison header exactly when it has
      more than one section, and the single-site header otherwise. */
  lemma GroundedPromptHeader(q: string, ss: seq<ScrapedSource>, urls: seq<string>)
    ensures Contains(Render(Grounded(q, ss, urls)), Header(|ss| > 1))
  {
    GroundedBodyHeader(ss, urls);
    ContainsAfter(QuestionLine(q), GroundedBody(ss, urls), Header(|ss| > 1));
  }

  /** The text after the question line names the sources with the header. */
  lemma GroundedBodyHeader(ss: seq<ScrapedSource>, urls: seq<string>)
    ensures Contains(GroundedBody(ss, urls), Header(|ss| > 1))
  {
    var tail := "\n" + Sections(ss) + GroundedInstructions(|ss| > 1, urls);
    ContainsMiddle("\n\n", Header(|ss| > 1), tail);
  }

  /** Which opening a built prompt has follows from the sources alone, and
      more than one usable source brings the comparison header. */
  lemma PromptOpening(query: string, sources: seq<ScrapedSource>)
    ensures |Successes(sources)| > 0 || |Failures(sources)| > 0 ==>
      StartsWith(BuildPrompt(query, sources), QuestionLine(query))
    ensures |Successes(sources)| == 0 && |Failures(sources)| == 0 ==>
      StartsWith(BuildPrompt(query, sources), MessageLine(query))
    ensures |Successes(sources)| > 1 ==> Contains(BuildPrompt(query, sources), "MULTIPLE WEBSITE CONTENTS:")
  {
    var p := PlanPrompt(query, sources);
    if p.Unreachable? {
      UnreachablePromptOpening(query, p.failedUrls);
    } else if p.Conversational? {
      ConversationalPromptOpening(query);
    } else {
      GroundedPromptOpening(query, p.sections, p.failedUrls);
      GroundedPromptHeader(query, p.sections, p.failedUrls);
    }
  }

  // ---------------------------------------------------------------------
  // POST, between validation and the model call

  /** The sources of a request: the message's URLs when there are any;
      otherwise, unless the message carries an uploaded document, the pages a
      web search found, tagged as search results. */
  function GatherSources(message: string, urls: seq<string>, settle: nat -> Settled, searchUrls: seq<string>): (r: seq<ScrapedSource>)
    ensures |urls| > 0 ==> |r| == |urls| && forall i :: 0 <= i < |r| ==> r[i] == SourceOf(urls[i], settle(i))
    ensures |urls| == 0 && !StartsWith(message, DocumentMarker) ==>
      |r| == |searchUrls| && forall i :: 0 <= i < |r| ==> r[i] == MarkSearch(SourceOf(searchUrls[i], settle(i)))
    ensures |urls| == 0 && StartsWith(message, DocumentMarker) ==> r == []
  {
    if |urls| > 0 then ScrapeMultiple(urls, settle)
    else if !StartsWith(message, DocumentMarker) && |searchUrls| > 0 then
      var found := ScrapeMultiple(searchUrls, settle);
      seq(|found|, i requires 0 <= i < |found| => MarkSearch(found[i]))
    else []
  }

  /** `sourceSummary`: each source's URL, tag and error, in order, without its content. */
  function SourceSummary(sources: seq<ScrapedSource>): (r: seq<Source>)
    ensures |r| == |sources|
    ensures forall i :: 0 <= i < |r| ==> r[i] == Source(sources[i].url, sources[i].scraperUsed, sources[i].error)
  {
    seq(|sources|, i requires 0 <= i < |sources| => Source(sources[i].url, sources[i].scraperUsed, sources[i].error))
  }

  /** The part of `POST` that turns a validated message into a prompt and a
      source summary. `found` are the URLs matched in the message, in order. */
  method PreparePrompt(message: string, found: seq<string>, settle: nat -> Settled, searchUrls: seq<string>)
    returns (prompt: string, summary: seq<Source>)
    ensures var urls := UniqueUrls(found);
      var sources := GatherSources(message, urls, settle, searchUrls);
      && prompt == BuildPrompt(FinalQuery(message, urls), sources)
      && summary == SourceSummary(sources)
  {
    var uniqueUrls := UniqueUrls(found);
    var isDocumentAnalysis := StartsWith(message, DocumentMarker);
    var sources: seq<ScrapedSource> := [];
    if |uniqueUrls| > 0 {
      sources := ScrapeMultiple(uniqueUrls, settle);
    } else if !isDocumentAnalysis {
      if |searchUrls| > 0 {
        sources := ScrapeMultiple(searchUrls, settle);
        sources := seq(|sources|, i requires 0 <= i < |sources| => MarkSearch(sources[i]));
      }
    }
    var userQuery := StripUrls(message, uniqueUrls);
    userQuery := Trim(ReplaceLeading(ReplaceLeading(userQuery, LeadPhrases, ""), SubjectPhrases, "it"));
    if |uniqueUrls| > 0 && (userQuery == "" || OnlyPunctuation(userQuery)) {
      userQuery := if |uniqueUrls| > 1 then CompareDefault else SummaryDefault;
    }
    prompt := BuildPrompt(userQuery, sources);
    summary := SourceSummary(sources);
  }

  /** What `POST` answers once the prompt is built: an error, the streamed
      text with the source summary in a header, or a JSON message with the
      sources. */
  datatype ChatReply =
    | Failed500(error: string)
    | StreamBody(text: string, sourcesHeader: seq<Source>)
    | JsonBody(message: string, sources: seq<Source>)

  /** The end of `POST`: the streaming or the plain model call, and any error
      it reports as a 500. */
  function Respond(stream: bool, keyConfigured: bool, start: GroqClient.StreamStart,
                   completion: GroqClient.Completion, summary: seq<Source>): (r: ChatReply)
    ensures r.Failed500? ==> r.error != ""
    ensures stream ==> !r.JsonBody? && (r.StreamBody? <==> keyConfigured && start.Started?)
    ensures stream && r.StreamBody? ==> r == StreamBody(GroqClient.StreamedText(start.deltas), summary)
    ensures !stream ==> !r.StreamBody? && (r.JsonBody? <==> completion.Completed? && Truthy(completion.content))
    ensures r.JsonBody? ==> r.message == completion.content.value && r.message != ""
  {
    if stream then
      var s := GroqClient.GetGroqStreamResponse(keyConfigured, start);
      GroqClient.ClassificationsAgree(if start.StartThrew? then start.thrown else OtherValue);
      if Truthy(s.error) then Failed500(s.error.value) else StreamBody(s.text, summary)
    else
      var a := GroqClient.GetGroqResponse(completion);
      GroqClient.ClassificationsAgree(if completion.Threw? then completion.thrown else OtherValue);
      if Truthy(a.error) then Failed500(a.error.value) else JsonBody(a.content, summary)
  }
}

# DeepCite core, modelled in Dafny

DeepCite is a chat-based answer engine. The user asks a question, may
paste URLs or attach a PDF or DOCX file, and gets back an answer grounded
in the pages it scraped. This project models the parts of that system that
make the decisions:

- **Scraper** (`scrapers.dfy`). The retry ladder with exponential backoff,
  URL validation, text cleaning, and the single-page-app detector. It also
  models the static extraction ladder and the choice to escalate to a
  headless browser and adopt its result. Documents bypass the cache, and
  so do invalid URLs, failed fetches and cache hits; a page that was
  fetched and extracted is written back to it.
- **Document parser** (`document_parser.dfy`). PDF header validation, text
  normalisation and the truncation marker, DOCX cleaning, the legacy `.doc`
  refusal, and dispatch on the file suffix, from a buffer or a URL.
- **Cache** (`cache.dfy`). The lazily built Redis client, its key scheme,
  and reads and writes that swallow failures.
- **Chat endpoint** (`chat_route.dfy`). Validation of the request body,
  URL de-duplication, the scraping fan-out, web-search tagging, query
  clean-up, the prompt's three shapes, and the streamed or JSON reply.
- **Rate limiter** (`middleware.dfy`). The fixed-window per-client,
  per-route limiter and the 429 response.
- **Model client** (`groq_client.dfy`). Building the message list, which
  drops the last history entry and assistant greetings. Also the error
  classification of the one-shot and the streamed completion.
- **Upload endpoint** (`upload_route.dfy`). The ordered ladder of checks
  on the multipart upload, then parsing.
- **Chat hook** (`use_chat.dfy`). The browser-side session: hydration from
  storage, persistence without streaming placeholders, truncating a large
  attached document, sending, reading the stream, settling the reply, and
  a new chat.
- **Typewriter hook** (`use_typewriter.dfy`). Reveals a reply in chunks.
- **Storage hook** (`use_local_storage.dfy`). Migration from the old
  storage key, the initial load, and write-through updates.
- **Class-name helper** (`utils.dfy`). `cn`.

Shared vocabulary lives in `wrappers.dfy` (Option, Result), `text.dfy`
(whitespace, trimming, splitting and joining, lower-casing, decimal
rendering) and `types.dfy` (the message, source and document records).

Everything outside the process is a parameter of the model. That covers
the network, the Redis server, the headless browser, the model API, the
DOM queries, the PDF and DOCX extractors, `localStorage`, and the clock.
Wherever the source would throw, the model has an explicit outcome.

## Model

| member | source | states |
|---|---|---|
| Text.Trim | src/app/api/chat/route.ts:28-34 | `trim()` is never longer than its input, has no white space at either end, and is empty exactly when the input is all white space |
| Text.TrimIsSlice | src/app/api/chat/route.ts:28-34 | the trimmed text is one contiguous slice of the input, starting after the leading white space |
| Text.TrimEmptyIff | src/app/api/chat/route.ts:28-34 | trimming leaves nothing exactly when every character is white space |
| Text.TrimIdempotent | src/app/api/chat/route.ts:34 | trimming an already trimmed string changes nothing |
| Text.TrimKeepsPrefix | src/app/api/chat/route.ts:162 | a prefix that starts and ends with non-space characters survives `trim()` |
| Text.CleanText | src/lib/scrapers.ts:49-51 | `cleanText` yields text with no leading, trailing or doubled spaces, using only plain spaces, never longer than its input, and empty exactly for blank input; CleanTextKeepsText states that its non-space characters are the input's |
| Text.CollapseSplits | src/lib/scrapers.ts:50 | collapsing splits at every non-space character: that character stays in place and the text on either side collapses on its own |
| Text.CollapseBlankRun | src/lib/scrapers.ts:50 | a non-empty run of white space becomes exactly one plain space |
| Text.CollapseKeepsText | src/lib/scrapers.ts:50 | collapsing keeps every non-space character, in order |
| Text.TrimKeepsText | src/app/api/chat/route.ts:28-34 | trimming keeps every non-space character, in order |
| Text.CleanTextKeepsText | src/lib/scrapers.ts:49-51 | `cleanText` keeps every non-space character, in order |
| Text.CollapseIdempotent | src/lib/scrapers.ts:50 | collapsing white-space runs twice is the same as once |
| Text.SplitJoin | src/middleware.ts:41 | splitting on a character and joining with it gives back the string |
| Text.NatToStringRoundTrip | src/lib/scrapers.ts:210 | the decimal rendering of a page count reads back as the same number |
| Text.NatToStringInjective | src/lib/scrapers.ts:210 | different page counts render differently |
| Scrapers.RetryRequest | src/lib/scrapers.ts:7-42 | the retry loop returns the first accepted response, or rethrows the last failure after `maxRetries` attempts; it waits `2^k` seconds before retry k+1 |
| Scrapers.RetryTakesFirstSuccess | src/lib/scrapers.ts:8-32 | when attempts fail up to the first success, that success's body is the result |
| Scrapers.RetryRethrowsLast | src/lib/scrapers.ts:33-36 | when every attempt fails, the error is the last attempt's |
| Scrapers.BackoffDoubles | src/lib/scrapers.ts:37 | the first wait is 2000 ms and each wait doubles the previous one |
| Scrapers.IsValidUrl | src/lib/scrapers.ts:47 | the anchored, case-insensitive validation pattern: scheme, optional `www.`, dotted host labels, top-level label, optional port and path; its meaning is stated by ValidUrlShape |
| Scrapers.ValidUrlShape | src/lib/scrapers.ts:47 | a URL the pattern accepts starts with `http://` or `https://` in any case, and its host (Scrapers.Host) contains a dot |
| Scrapers.Host | src/lib/scrapers.ts:47 | the host is the text after the scheme up to the first `:`, `/`, `?` or `#`, and holds none of them |
| Scrapers.DetectSpa | src/lib/scrapers.ts:53-67 | the page counts as an app shell exactly when one of the framework indicators matches |
| Scrapers.DetectSpaIgnoresCase | src/lib/scrapers.ts:64-66 | detection sees the page in lower case, so the page's own case does not matter |
| Scrapers.NonBlankMeaning | src/lib/scrapers.ts:139 | the filter keeps exactly the non-blank parts, in order |
| Scrapers.NonBlankAppend | src/lib/scrapers.ts:247 | filtering distributes over concatenation, so order is kept |
| Scrapers.StaticPick | src/lib/scrapers.ts:237-253 | the combined buckets when they reach 500 characters, else the body text when it reaches 200, else the div text; StaticContent and AssembleStatic state what is made of it |
| Scrapers.StaticContent | src/lib/scrapers.ts:237-257 | the extracted content is at most 50000 characters, starts with no space, has no doubled or non-plain spaces, ends with no space unless cut at the cap, and is empty exactly when the text the extraction ladder picks is blank |
| Scrapers.AssembleStatic | src/lib/scrapers.ts:237-257 | the in-place ladder of fallbacks computes the extracted content |
| Scrapers.HeadlessResult | src/lib/scrapers.ts:147-171 | the headless result is tagged `puppeteer`; it is an error result exactly when launching or loading failed, and it carries the thrown message after the fixed prefix |
| Scrapers.ScrapePuppeteer | src/lib/scrapers.ts:69-177 | a browser that was launched is always closed, and none is opened when launching fails |
| Scrapers.DocumentResult | src/lib/scrapers.ts:202-216 | a document result carries the parser's text and error, a title and engine named after the document kind, and `N pages` only for a positive page count |
| Scrapers.Failure | src/lib/scrapers.ts:286-296 | a failed scrape has empty content and carries the error and the engine |
| Scrapers.PageResult | src/lib/scrapers.ts:271-285 | a page result has no error and a title with no stray spaces |
| Scrapers.PageDecision | src/lib/scrapers.ts:218-285 | a fetched page always consults the cache, never goes through the document parser, and writes its result to the cache |
| Scrapers.ScrapeUrl | src/lib/scrapers.ts:189-297 | `scrapeURL` returns the decision for its cache lookup and stores exactly the decided cache write |
| Scrapers.ScrapePage | src/lib/scrapers.ts:218-285 | the page branch returns the page decision and writes it under the URL's key with the default TTL |
| Scrapers.Scrape | src/lib/scrapers.ts:189-297 | the reference definition of `scrapeURL` given the cache read and the outside world: the result, the cache write and which outside calls are made; the lemmas below state its properties |
| Scrapers.InvalidUrlRejected | src/lib/scrapers.ts:191-193 | an invalid URL is refused before the cache or the network is touched |
| Scrapers.CacheHitServed | src/lib/scrapers.ts:196-199 | a cached entry with content is returned tagged ` (cached)`, and nothing is fetched or written |
| Scrapers.EmptyEntryIsMiss | src/lib/scrapers.ts:197 | a cached entry with empty content counts as a miss |
| Scrapers.DocumentsNeverCached | src/lib/scrapers.ts:202-216 | URLs ending in a document suffix go to the parser and are never written to the cache |
| Scrapers.FetchFailureReported | src/lib/scrapers.ts:286-296 | when every fetch attempt fails, the result carries the last attempt's error and nothing is cached |
| Scrapers.EscalationRule | src/lib/scrapers.ts:259-262 | the headless browser runs exactly when the page looks like an app shell or the cleaned static text is under 500 characters, and the result returned is the one written to the cache |
| Scrapers.AdoptionRule | src/lib/scrapers.ts:265-268 | the headless result is returned exactly when it is longer than the static text or the static text is under 200 characters |
| Scrapers.StaticResultLength | src/lib/scrapers.ts:249-285 | a static result has no error and between 200 and 50000 characters of cleaned text, and at least 500 when no rendering was tried |
| Scrapers.HeadlessContent | src/lib/scrapers.ts:141-145 | the headless text is at most 50,000 characters, with no leading white space and no doubled spaces |
| Text.TrimKeepsShape | src/lib/scrapers.ts:49-51 | trimming collapsed text keeps it free of doubled spaces and of any white space other than the plain space |
| Scrapers.HeadlessErrorCachedNotServed | src/lib/scrapers.ts:262-268 | a failed headless run is adopted and cached when the static text is under 200 characters; the cached entry has no content, so the next call treats it as a miss |
| Scrapers.WrittenEntryServed | src/lib/scrapers.ts:196-199 | a result written to the cache with content is served from the cache on the next call, without fetching |
| DocumentParser.ValidateBuffer | src/lib/documentParser.ts:14-25 | a buffer is accepted exactly when it starts with `%PDF`; empty and mis-headed buffers are refused with their own messages |
| DocumentParser.PageCount | src/lib/documentParser.ts:75 | a reported page count is at least one; zero pages is reported as none |
| DocumentParser.NormalizePdf | src/lib/documentParser.ts:64-70 | PDF text keeps at most 50000 characters of its collapsed form, with single plain spaces and no leading space; short text is only collapsed, and the marker follows whenever the trimmed text was over the limit, even if collapsing brought it under |
| DocumentParser.NormalizeDocx | src/lib/documentParser.ts:107-114 | DOCX text keeps at most 50000 characters of its cleaned form; short text is only cleaned, and the marker follows whenever the raw text was over the limit, even if cleaning brought it under |
| DocumentParser.ParsePdfExtraction | src/lib/documentParser.ts:26-87 | PDF parsing is tagged `unpdf`; a thrown extractor or blank text gives an empty document with the matching error, and otherwise the normalised text |
| DocumentParser.GetDocumentType | src/lib/documentParser.ts:134-140 | the kind follows the lower-cased suffix `.pdf`, `.docx` or `.doc` |
| DocumentParser.DocumentTypeIgnoresCase | src/lib/documentParser.ts:135 | the kind does not depend on letter case |
| DocumentParser.DocxIsNotDoc | src/lib/documentParser.ts:136-139 | a `.docx` name is a DOCX document and not a legacy `.doc` one |
| DocumentParser.InvalidPdfNeverExtracted | src/lib/documentParser.ts:89-101 | a buffer without the PDF header is refused without calling the extractor |
| DocumentParser.BlankPdfIsError | src/lib/documentParser.ts:53-62 | a PDF whose text is blank is an error, not an empty success |
| DocumentParser.PdfSuccessHasContent | src/lib/documentParser.ts:53-77 | a PDF parsed without error always has content |
| DocumentParser.ExtractionSuccessHasContent | src/lib/documentParser.ts:53-77 | an extraction accepted without error yields non-empty content |
| DocumentParser.NormalizedNonEmpty | src/lib/documentParser.ts:64-70 | normalising non-blank trimmed text never empties it and keeps it within the cap plus the marker |
| DocumentParser.ParseDocx | src/lib/documentParser.ts:103-132 | DOCX parsing reports the DOCX kind and no engine, with the normalised text or the thrown message |
| DocumentParser.DocxAlwaysDocx | src/lib/documentParser.ts:103-132 | DOCX parsing always reports the DOCX kind, with the cleaned text when extraction succeeds |
| DocumentParser.DocAlwaysRefused | src/lib/documentParser.ts:198-203 | a legacy `.doc` file is always refused with the conversion message |
| DocumentParser.UnknownTypeIsNull | src/lib/documentParser.ts:187-192 | a name with no known suffix yields no document, from a buffer or from a URL |
| DocumentParser.ParseDocumentFromBuffer | src/lib/documentParser.ts:187-207 | dispatch on the name's suffix: no document for an unknown suffix, otherwise that kind's parse; stated by UnknownTypeIsNull, DocAlwaysRefused and SameDispatch |
| DocumentParser.ParseDocumentFromUrl | src/lib/documentParser.ts:142-185 | dispatch on the URL's suffix, then a download that is parsed like an upload or reported as failed; stated by KnownTypeNeverNull, FailedFetchReported and SameDispatch |
| DocumentParser.SameDispatch | src/lib/documentParser.ts:142-185 | a successful download is parsed exactly as the same bytes uploaded under the URL as a name |
| DocumentParser.FailedFetchReported | src/lib/documentParser.ts:153-159 | a failed download of a known kind is reported as an error document of that kind |
| DocumentParser.KnownTypeNeverNull | src/lib/documentParser.ts:142-185 | a URL of a known kind always yields a document of that kind |
| DocumentParser.ParsePdf | src/lib/documentParser.ts:26-87 | PDF parsing always reports the PDF kind and the `unpdf` engine, whether the buffer is refused, the extractor throws or text comes back |
| DocumentParser.CutAndMark | src/lib/documentParser.ts:64-70 | text within the limit is kept whole with no marker; longer text keeps its first 50,000 characters followed by the truncation marker |
| Cache.CacheKey | src/lib/cache.ts:17-19 | the key is the fixed prefix followed by the URL |
| Cache.CacheKeyInjective | src/lib/cache.ts:17-19 | different URLs never share a key |
| Cache.Lookup | src/lib/cache.ts:21-31 | a read finds the stored value exactly when a client exists, the read does not fail and the key is present; otherwise it is a miss |
| Cache.Store | src/lib/cache.ts:33-46 | a write changes only its own key, and nothing at all without a client or when it fails |
| Cache.ReadYourWrite | src/lib/cache.ts:21-46 | a successful write is read back |
| Cache.WriteIsolated | src/lib/cache.ts:33-46 | a write to one key never changes what another key reads |
| Cache.ScrapeCache.GetRedis | src/lib/cache.ts:5-15 | a client exists exactly when both settings are present; it is built once and then reused |
| Cache.ScrapeCache.Get | src/lib/cache.ts:21-31 | `getCached` answers by the lookup rule and changes no entry |
| Cache.ScrapeCache.Set | src/lib/cache.ts:33-46 | `setCache` updates the entries by the store rule |
| ChatRoute.ValidateMessage | src/app/api/chat/route.ts:24-35 | a message is accepted exactly when it is a string that is not blank and is within the maximum length; the accepted value is its trimmed form |
| ChatRoute.ValidatedMessageIsStable | src/app/api/chat/route.ts:24-35 | validating an accepted message again accepts the same value |
| ChatRoute.FirstEntryError | src/app/api/chat/route.ts:44-54 | the history check reports an error exactly when some entry is malformed, and the error is that entry's |
| ChatRoute.ValidateHistory | src/app/api/chat/route.ts:37-56 | the loop over the history computes the history verdict |
| ChatRoute.HistoryVerdict | src/app/api/chat/route.ts:37-56 | the history check in the handler's order; stated by HistoryVerdictMeaning and computed by ValidateHistory |
| ChatRoute.HistoryVerdictMeaning | src/app/api/chat/route.ts:37-56 | a history is accepted exactly when it is an array within the length bound whose entries are all well formed, and the accepted history keeps every entry in order |
| ChatRoute.CheckRequest | src/app/api/chat/route.ts:127-157 | an unparseable body is a 400 "Invalid JSON", a `null` body the generic 500, a refused message or history a 400 with its own error; otherwise the request carries the validated message, the accepted history and `stream` exactly when it is `true` |
| ChatRoute.SourceOf | src/app/api/chat/route.ts:58-82 | a settled scrape becomes a source for the same URL, and a rejected one carries the fixed failure message |
| ChatRoute.ScrapeMultiple | src/app/api/chat/route.ts:58-82 | the fan-out yields one source per URL, in order |
| ChatRoute.FanOutKeepsUrls | src/app/api/chat/route.ts:58-82 | each source keeps its URL, and a rejected scrape becomes a failed source |
| ChatRoute.MarkSearch | src/app/api/chat/route.ts:176-179 | a search result keeps everything but its engine tag, which gains ` (search)` or becomes `search` |
| ChatRoute.SearchTagAlwaysSet | src/app/api/chat/route.ts:176-179 | every search result's engine tag mentions the search |
| ChatRoute.Dedupe | src/app/api/chat/route.ts:160 | `[...new Set(urls)]`: each URL once, in order of first appearance; stated by DedupeFrom, DedupeSnoc and DedupeDistinct |
| ChatRoute.DedupeFrom | src/app/api/chat/route.ts:160 | de-duplication keeps each URL once, drops none, and adds none |
| ChatRoute.DedupeSnoc | src/app/api/chat/route.ts:160 | a URL added at the end survives de-duplication exactly when it is new |
| ChatRoute.DedupeDistinct | src/app/api/chat/route.ts:160 | de-duplicating distinct URLs changes nothing |
| ChatRoute.UniqueUrls | src/app/api/chat/route.ts:160 | the first five distinct URLs from the message in order of first appearance, or all of them when there are at most five |
| ChatRoute.StripAll | src/app/api/chat/route.ts:183-186 | removing the URLs never lengthens the query, and leaves it trimmed when there was a URL |
| ChatRoute.StripUrls | src/app/api/chat/route.ts:183-186 | the removal loop computes the stripped query |
| ChatRoute.ReplaceLeading | src/app/api/chat/route.ts:188-191 | a query that starts with none of the phrases is left as it is |
| ChatRoute.QueryFallback | src/app/api/chat/route.ts:193-197 | with URLs present, a query of only punctuation becomes the default summary or comparison request; otherwise the query stays |
| ChatRoute.FinalQuery | src/app/api/chat/route.ts:182-197 | the URLs stripped, the leading phrases replaced, the result trimmed, and the default question when nothing meaningful is left; stated by StripUrls, ReplaceLeading, QueryFallback and FallbackNeverBlank |
| ChatRoute.FallbackNeverBlank | src/app/api/chat/route.ts:193-197 | with URLs present the final query is never blank |
| ChatRoute.Successes | src/app/api/chat/route.ts:85 | the successful sources are exactly those with content and no error; order and multiplicity are stated by SuccessesAppend and SuccessesOne |
| ChatRoute.Failures | src/app/api/chat/route.ts:86 | the failed sources are exactly those with an error; order and multiplicity are stated by FailuresAppend and FailuresOne |
| ChatRoute.SuccessesAppend | src/app/api/chat/route.ts:85 | the successes of two lists in a row are those of each, in the same order; with SuccessesOne this fixes order and multiplicity |
| ChatRoute.SuccessesOne | src/app/api/chat/route.ts:85 | one source is kept exactly when it succeeded |
| ChatRoute.FailuresAppend | src/app/api/chat/route.ts:86 | the failures of two lists in a row are those of each, in the same order; with FailuresOne this fixes order and multiplicity |
| ChatRoute.FailuresOne | src/app/api/chat/route.ts:86 | one source is kept exactly when it failed |
| ChatRoute.SuccessesAndFailuresDisjoint | src/app/api/chat/route.ts:85-86 | no source is both successful and failed |
| ChatRoute.Urls | src/app/api/chat/route.ts:92 | the failed-URL list lists each failed source's URL, in order |
| ChatRoute.BuildPrompt | src/app/api/chat/route.ts:84-125 | `buildPrompt`: the prompt chosen by PlanPrompt, rendered; stated by PlanPrompt and PromptOpening |
| ChatRoute.Render | src/app/api/chat/route.ts:88-124 | the text of each prompt shape; stated by the opening and header lemmas below |
| ChatRoute.PlanPrompt | src/app/api/chat/route.ts:84-125 | the prompt is the unreachable notice when only failures exist, conversational when nothing was scraped, and grounded in the successful sources otherwise; it is a comparison exactly when more than one source succeeded |
| ChatRoute.UnreachablePromptOpening | src/app/api/chat/route.ts:88-96 | the unreachable prompt opens with the user's question |
| ChatRoute.ConversationalPromptOpening | src/app/api/chat/route.ts:98-103 | the conversational prompt opens with the user's message |
| ChatRoute.GroundedPromptOpening | src/app/api/chat/route.ts:105-124 | the grounded prompt opens with the user's question |
| ChatRoute.GroundedPromptHeader | src/app/api/chat/route.ts:105-124 | the grounded prompt contains the header for its case: the multiple-website header when more than one source is compared, the single-website header otherwise |
| ChatRoute.PromptOpening | src/app/api/chat/route.ts:84-125 | the rendered prompt opens according to its shape, and announces multiple sites exactly when it compares them |
| ChatRoute.GatherSources | src/app/api/chat/route.ts:163-181 | explicit URLs give one source each, in order, the i-th being how the i-th scrape settled; with no URL and no document marker, each search result gives its settled source tagged as a search result, in order; a document question without URLs gathers no sources |
| ChatRoute.SourceSummary | src/app/api/chat/route.ts:200 | the summary keeps each source's URL, engine and error, in order |
| ChatRoute.PreparePrompt | src/app/api/chat/route.ts:155-200 | the handler's preparation computes the de-duplicated URLs, the gathered sources, the final query and the prompt built from them |
| ChatRoute.Respond | src/app/api/chat/route.ts:202-228 | a streamed request gets the model's text exactly when the key is set and the stream opened; a one-shot request gets JSON exactly when the model returned text; every other case is a 500 with a non-empty error |
| Middleware.Admit | src/middleware.ts:5-25 | an expired or absent window restarts at one request; otherwise the count grows; a request is allowed exactly when the count is within the limit, and the remaining count is never negative |
| Middleware.WindowCountsRequests | src/middleware.ts:5-25 | requests inside one window are counted from the first one, and the window ends `windowMs` after it |
| Middleware.InsideWindow | src/middleware.ts:16-24 | requests before an open window's end only add to its count |
| Middleware.NthRequestAllowed | src/middleware.ts:5-25 | within one window, the k-th request is allowed exactly when k is below the limit |
| Middleware.RateLimiter.Check | src/middleware.ts:5-25 | the limiter updates only the client's own window, by the admission rule |
| Middleware.RateLimiter.Handle | src/middleware.ts:27-58 | non-API paths pass untouched; API requests are forwarded with the remaining count, or refused with a Retry-After of whole seconds until the window ends |
| Middleware.ClientIp | src/middleware.ts:34-37 | the client address is never empty: the first forwarded address, the real-IP header, or `unknown` |
| Middleware.CeilDiv | src/middleware.ts:46 | Retry-After is the ceiling of the remaining milliseconds over 1000 |
| Middleware.RouteKey | src/middleware.ts:41 | the client address, a colon and the first three path pieces; stated by RouteKeyKeepsRoute |
| Middleware.RouteKeyKeepsRoute | src/middleware.ts:41 | the key is the client address and the first two path segments, so sub-paths share their route's window |
| Middleware.LeadingPieces | src/middleware.ts:41 | an API path splits into an empty piece, `api` and the route name first |
| Middleware.JoinThree | src/middleware.ts:41 | joining those pieces gives back `/api/` and the route |
| Middleware.LimitFor | src/middleware.ts:39 | the per-window allowance by path; stated by UploadPathsLimitedHarder |
| Middleware.UploadPathsLimitedHarder | src/middleware.ts:39 | upload paths get 10 requests per window, all other API paths 20 |
| GroqClient.Past | src/lib/groqClient.ts:56 | the history sent is everything but its last entry |
| GroqClient.Turns | src/lib/groqClient.ts:58-65 | converting the history never adds turns |
| GroqClient.BuildMessages | src/lib/groqClient.ts:51-69 | the messages are the system prompt, the converted earlier turns, and the user's message last |
| GroqClient.TurnsMeaning | src/lib/groqClient.ts:58-65 | no greeting from the assistant and no system message is ever sent, and without greetings each turn is sent with its role and text |
| GroqClient.GreetingsIgnored | src/lib/groqClient.ts:59 | inserting a greeting anywhere in the history changes nothing sent |
| GroqClient.ClassifyError | src/lib/groqClient.ts:91-104 | checked in order: a non-Error value gets the generic text; a rate-limit message the rate-limit text; else a timeout message the timeout text; else an authentication message the authentication text; any other message is passed on after the service prefix |
| GroqClient.GetGroqResponse | src/lib/groqClient.ts:71-106 | exactly one of content and error is set: the model's non-empty text, the no-response message, or the classified error |
| GroqClient.StreamedText | src/lib/groqClient.ts:128-133 | the truthy deltas in order; stated by StreamedTextAppend and StreamedTextSkipsEmpty |
| GroqClient.StreamedTextAppend | src/lib/groqClient.ts:128-133 | the streamed text of consecutive chunks is the concatenation of their texts |
| GroqClient.StreamedTextSkipsEmpty | src/lib/groqClient.ts:129-132 | an empty or missing delta adds nothing to the stream |
| GroqClient.ClassifyStreamError | src/lib/groqClient.ts:146-153 | the streaming path recognises only rate limits and otherwise passes the message on after the service prefix |
| GroqClient.GetGroqStreamResponse | src/lib/groqClient.ts:108-154 | without a key the stream is refused with the missing-key message; an opened stream carries the deltas' text; a failed start carries the classified error |
| GroqClient.ClassificationsAgree | src/lib/groqClient.ts:146-153 | both classifiers give a non-empty message and agree except on the timeout and authentication cases the streaming path does not recognise |
| UploadRoute.Upload | src/app/api/upload/route.ts:12-143 | an unparseable form, a missing file, unreadable or empty bytes, an unknown suffix and a parse error are each refused with status 400 and their own message (a parse error carries the parser's error, engine and the details line); the upload succeeds exactly when the form parses, the file has an allowed type, a size within 1 byte and 10 MiB, readable non-empty bytes, a known suffix and parses without error, and then it returns the parsed document under the file's name |
| UploadRoute.TypeCheckedFirst | src/app/api/upload/route.ts:42-48 | a disallowed MIME type is refused whatever the name, size or bytes |
| UploadRoute.SizeBounds | src/app/api/upload/route.ts:50-64 | oversized and empty files are refused before they are read |
| UploadRoute.LegacyDocRefused | src/app/api/upload/route.ts:105-126 | a `.doc` name sent with an allowed type reaches the parser and gets the legacy-format refusal |
| UploadRoute.UnknownNameRefused | src/app/api/upload/route.ts:105-113 | a name with no known suffix is refused as undeterminable |
| UploadRoute.AcceptedPdfHasText | src/app/api/upload/route.ts:115-143 | an accepted PDF always has text |
| UseChat.TruncateDocument | src/hooks/useChat.ts:100-117 | documents up to 80000 characters pass unchanged; longer ones keep their first 48000 and last 16000 characters around a note of how many were dropped, and come out shorter |
| UseChat.TruncationCountsDropped | src/hooks/useChat.ts:104-113 | head, dropped middle and tail make up the whole document, and something is dropped |
| UseChat.MessageToSend | src/hooks/useChat.ts:100-117 | without a file the typed text is sent; with one, the marker and file name, the document as TruncateDocument leaves it, then the question header and the typed text, so the message opens with the document marker and ends with the typed text |
| UseChat.DocumentQuestionsNotSearched | src/hooks/useChat.ts:115 | a question about an uploaded document still carries the marker after the server trims it, so when no URL is found in it the server gathers no sources and does not search the web; a URL found anywhere in the message, document text included, is still scraped (ChatRoute.GatherSources) |
| UseChat.Stored | src/hooks/useChat.ts:45-54 | a stored message keeps role, content, error flag, sources, attachment and timestamp, and drops the streaming flag |
| UseChat.Persist | src/hooks/useChat.ts:41-56 | persisting stores only finished messages, in stored form |
| UseChat.PersistAppend | src/hooks/useChat.ts:44-54 | appending a message persists it after the others unless it is still streaming |
| UseChat.PersistKeepsFinished | src/hooks/useChat.ts:44-54 | when nothing is streaming, every message is persisted in order |
| UseChat.PersistIdempotent | src/hooks/useChat.ts:41-56 | persisting what was persisted changes nothing |
| UseChat.Restore | src/hooks/useChat.ts:19-39 | hydration restores saved messages as finished ones, or starts with the greeting when nothing was saved |
| UseChat.RestoreRoundTrip | src/hooks/useChat.ts:19-56 | saving what was restored gives back the saved list |
| UseChat.Piece | src/hooks/useChat.ts:175-195 | a chunk that is not an event (no event prefix, or it does not parse) is appended as it is; a content event appends its text, or `undefined` when it has none; status, source and other events add no text |
| UseChat.Accumulate | src/hooks/useChat.ts:166-213 | the answer text: every chunk's piece in order; stated by AccumulateGrows and PlainChunksJoined |
| UseChat.Run | src/hooks/useChat.ts:166-213 | the reading loop's state after some chunks; stated by RunTracks and computed by ChatSession.ReadStream |
| UseChat.AccumulateGrows | src/hooks/useChat.ts:166-213 | the reply text only grows as chunks arrive |
| UseChat.PlainChunksJoined | src/hooks/useChat.ts:166-213 | without structured events the reply is the chunks joined |
| UseChat.RunTracks | src/hooks/useChat.ts:166-213 | reading the stream accumulates the text and the latest sources and never changes the message's role, attachment or timestamp |
| UseChat.ErrorMessage | src/hooks/useChat.ts:237-247 | an error reply is flagged as an error and is not streaming |
| UseChat.ReplaceLast | src/hooks/useChat.ts:134-146 | only the last message is replaced |
| UseChat.Receipt | src/hooks/useChat.ts:131-254 | the reply settles only the pending message: a refusal or a failure becomes an error message, a completed stream the final reply; it is persisted unless the request was cancelled |
| UseChat.ReceiptSettles | src/hooks/useChat.ts:215-254 | after a persisted reply nothing is left streaming and every message is saved |
| UseChat.ChatSession.Hydrate | src/hooks/useChat.ts:19-39 | hydration happens once, when storage is ready, and restores the saved messages |
| UseChat.ChatSession.ReadStream | src/hooks/useChat.ts:166-213 | the read loop leaves the text and sources that the stream fold computes in the pending message |
| UseChat.ChatSession.Receive | src/hooks/useChat.ts:131-254 | the session takes the settled messages, and saves them when the reply is to be persisted |
| UseChat.ChatSession.Send | src/hooks/useChat.ts:70-256 | nothing happens for blank input or while loading; otherwise the user message and the pending reply are added, the request is sent, the reply is settled and loading ends |
| UseChat.ChatSession.Deliver | src/hooks/useChat.ts:73-254 | a send adds the user message, sends it with the earlier history, settles the reply and ends loading |
| UseChat.ChatSession.Begin | src/hooks/useChat.ts:73-96 | starting a send appends the user message and a pending reply, clears the input and sets loading |
| UseChat.ChatSession.NewChat | src/hooks/useChat.ts:259-274 | a new chat is just the greeting, saved at once |
| UseChat.NewChatStoresGreeting | src/hooks/useChat.ts:259-274 | the greeting saved by a new chat is restored on the next load |
| UseTypewriter.Next | src/hooks/useTypewriter.ts:30-49 | disabled shows the whole content; a tick shows the content up to one chunk past what is shown; a finished reveal stays put |
| UseTypewriter.RevealPrefix | src/hooks/useTypewriter.ts:36-41 | after k ticks from nothing, the first k times chunk-size characters are shown |
| UseTypewriter.RevealCompletes | src/hooks/useTypewriter.ts:36-41 | the whole content shows after ⌈n / chunk⌉ ticks and not one tick earlier |
| UseTypewriter.TickGrowsPrefix | src/hooks/useTypewriter.ts:36-41 | a tick never shrinks the text and keeps it a prefix of the content |
| UseTypewriter.TickMovesWhileTyping | src/hooks/useTypewriter.ts:36-41 | a tick changes the text exactly while not everything is shown |
| UseTypewriter.Typewriter.Tick | src/hooks/useTypewriter.ts:30-49 | one run of the effect advances the text by the step rule |
| UseTypewriter.Typewriter.IsTyping | src/hooks/useTypewriter.ts:58 | typing exactly while enabled and not everything is shown; TickMovesWhileTyping ties it to the ticks |
| UseTypewriter.Typewriter.SkipToEnd | src/hooks/useTypewriter.ts:51-56 | skipping shows everything and stops typing |
| UseTypewriter.Typewriter.SetProps | src/hooks/useTypewriter.ts:13-18 | new props keep the displayed text |
| UseLocalStorage.Migrate | src/hooks/useLocalStorage.ts:17-21 | data under the old key moves to the new key and the old key is removed, only when the new key holds nothing |
| UseLocalStorage.MigrateIdempotent | src/hooks/useLocalStorage.ts:17-21 | migrating twice is migrating once |
| UseLocalStorage.MigrateKeepsData | src/hooks/useLocalStorage.ts:17-21 | after migration the new key holds its own data, or the old key's |
| UseLocalStorage.Loaded | src/hooks/useLocalStorage.ts:23-27 | the loaded value is the parsed item when present and parseable, else the current value |
| UseLocalStorage.StorageHook.Initialize | src/hooks/useLocalStorage.ts:14-32 | the mount effect migrates and loads when storage works, and marks the hook initialised even when it does not |
| UseLocalStorage.StorageHook.SetValue | src/hooks/useLocalStorage.ts:34-48 | the new value, given directly or by an updater, is kept in memory, and written through unless the write fails |
| UseLocalStorage.ReloadReadsWrite | src/hooks/useLocalStorage.ts:14-48 | a value written is read back by a fresh hook on the same store |
| Utils.Cn | src/lib/utils.ts:11-13 | `cn(...classes)`: the truthy names joined with spaces; stated by CnAppend, CnEmptyIff and CnSplits |
| Utils.Kept | src/lib/utils.ts:11-13 | only truthy class names are kept, never more than were given |
| Utils.CnAppend | src/lib/utils.ts:11-13 | a falsy argument changes nothing; a truthy one is appended after one space |
| Utils.CnEmptyIff | src/lib/utils.ts:11-13 | the result is empty exactly when every argument is falsy |
| Utils.CnSplits | src/lib/utils.ts:11-13 | splitting the result on spaces gives back the kept names in order, so they are separated by single spaces |

## Left out

- Network, Redis, the headless browser, the model API, HTML parsing and
  the PDF and DOCX extractors are parameters. Their outcomes are inputs,
  including whether they throw.
- Time and concurrency. Timestamps are parameters (`now`, `later`).
  `Promise.allSettled` is a per-index outcome function. Aborting a request
  that is in flight from the new-chat handler is not modelled; a
  cancelled reply is an input.
- White space and case. They are ASCII approximations of JavaScript's
  Unicode `\s` and `toLowerCase`.
- String lengths. JavaScript's `length`, `slice` and `substring` count
  UTF-16 code units, while a Dafny `string` counts Unicode scalar values.
  Every length threshold in the model therefore counts characters outside
  the Basic Multilingual Plane (emoji, for instance) once where the source
  counts them twice, and a cut in the model never splits a surrogate pair
  where the source's may. This affects the 100,000-character message limit,
  the scraper's 500, 200 and 50,000, the parser's 50,000, and the chat hook's
  80,000, 48,000 and 16,000. The model agrees with the source on text made
  only of Basic Multilingual Plane characters.
- Creating the upload's `Buffer` is modelled as never throwing, so the
  "Failed to process file data" refusal (`src/app/api/upload/route.ts:93-102`)
  is not modelled.
- The URL regular expression that extracts URLs from a chat message is not
  modelled; the URLs found are an input. The validation pattern in
  `scrapers.ts` is modelled.
- Web search (`webSearch.ts`) is not part of this model; its URLs are an
  input.
- The JSON reply's previews (`src/app/api/chat/route.ts:230-243`) are not
  modelled; the reply carries the message and the sources.
- ReadableStream plumbing and mid-stream errors. The model stream is the
  sequence of deltas, and an error raised after the stream starts is not
  modelled.
- HTTP headers other than the ones named above (user agents, timeouts,
  content types), and the response status 200.
- The cache TTL is stored with each entry but expiry is not modelled.
- The upload handler's outer 500 catch cannot be reached in the model,
  because reading, parsing and responding never throw there. A
  `formData.get("file")` that returns a string is not modelled.
- A `null` result from the buffer parser for a known kind cannot happen
  (the suffix chooses the kind), so that branch is absent.
- Closing the browser is modelled as never throwing.
- Middleware.Admit: with a limit of 0 the remaining count would be −1, so
  its bounds are stated for limits of at least 1; the deployed limits are
  10 and 20.
- UseTypewriter.RevealCompletes: a chunk size of 0 never advances, so
  completion is stated for chunk sizes of at least 1.
- The server never sends structured `{"type": …}` events; the client's
  handling of them is modelled as written.
- The chat export (`src/hooks/useChat.ts:276-301`), `formatTime` in
  `src/lib/utils.ts` (locale and clock), `clearFile`, and all rendering
  components are outside this model.

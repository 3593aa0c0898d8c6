/** The language-model client of src/lib/groqClient.ts: the message list sent
    to the completion API, and how answers and thrown errors are turned into
    a result. The remote call is an input (`Completion`, `StreamStart`). */
module GroqClient {
  import opened Wrappers
  import opened Text
  import opened Types

  datatype ChatRole = System | UserRole | Assistant

  datatype ChatMessage = ChatMessage(role: ChatRole, content: string)

  const SystemPrompt :=
    "You are an AI Answer Engine. Your purpose is to analyze websites, documents, and answer factual queries.\n"
    + "\n"
    + "Guidelines:\n"
    + "- Be concise and direct. No small talk.\n"
    + "- When user says \"hello\" or greets you, respond briefly: \"Ready. Paste a URL, upload a document, or ask a question.\"\n"
    + "- When analyzing content, lead with key findings\n"
    + "- Use bullet points only for multiple distinct items\n"
    + "- Never ask \"how's your day\" or offer open-ended conversation\n"
    + "- If no URL or document is provided, prompt the user to provide one\n"
    + "\n"
    + "You are a tool, not a companion."

  /** Assistant openings that are never sent back to the model. */
  const KnownGreetings := [Greeting, "Hello! How can I help you today?"]

  const NoResponseError := "No response generated from AI"
  const RateLimitError := "Rate limit exceeded. Please wait a moment and try again."
  const TimeoutError := "Request timed out. Please try again."
  const AuthError := "Authentication failed. Please check API configuration."
  const ServicePrefix := "AI service error: "
  const UnexpectedError := "An unexpected error occurred with the AI service."
  const MissingKeyError := "API key not configured. Please set GROQ_API_KEY."

  /** The history without its last entry, which is the current message. */
  function Past(history: seq<FrontendMessage>): (r: seq<FrontendMessage>)
    ensures |history| > 0 ==> r == history[..|history| - 1]
    ensures |history| == 0 ==> r == []
  {
    if |history| > 0 then history[..|history| - 1] else []
  }

  /** A stored greeting from the assistant. */
  predicate IsGreeting(m: FrontendMessage) {
    m.role == Ai && m.content in KnownGreetings
  }

  function Convert(m: FrontendMessage): ChatMessage {
    ChatMessage(if m.role == Ai then Assistant else UserRole, m.content)
  }

  /** The past turns that are sent, in order, as API messages. */
  function Turns(past: seq<FrontendMessage>): (r: seq<ChatMessage>)
    ensures |r| <= |past|
  {
    if past == [] then []
    else if IsGreeting(past[0]) then Turns(past[1..])
    else [Convert(past[0])] + Turns(past[1..])
  }

  /** `buildMessages(message, history)`. */
  method BuildMessages(message: string, history: seq<FrontendMessage>) returns (messages: seq<ChatMessage>)
    ensures messages == [ChatMessage(System, SystemPrompt)] + Turns(Past(history)) + [ChatMessage(UserRole, message)]
  {
    messages := [ChatMessage(System, SystemPrompt)];
    var past := if |history| > 0 then history[..|history| - 1] else [];
    var i := 0;
    while i < |past|
      invariant 0 <= i <= |past|
      invariant messages + Turns(past[i..]) == [ChatMessage(System, SystemPrompt)] + Turns(past)
    {
      assert past[i..][1..] == past[i + 1..];
      if !(past[i].role == Ai && past[i].content in KnownGreetings) {
        messages := messages + [ChatMessage(if past[i].role == Ai then Assistant else UserRole, past[i].content)];
      }
      i := i + 1;
    }
    assert past[i..] == [];
    messages := messages + [ChatMessage(UserRole, message)];
  }

  /** The sent turns are the past entries that are not greetings, converted. */
  lemma {:induction false} TurnsMeaning(past: seq<FrontendMessage>)
    ensures forall j :: 0 <= j < |Turns(past)| ==>
      (Turns(past)[j].role == Assistant ==> Turns(past)[j].content !in KnownGreetings)
    ensures forall j :: 0 <= j < |Turns(past)| ==> Turns(past)[j].role != System
    ensures (forall k :: 0 <= k < |past| ==> !IsGreeting(past[k])) ==>
      Turns(past) == seq(|past|, k requires 0 <= k < |past| => Convert(past[k]))
  {
    if past != [] {
      TurnsMeaning(past[1..]);
      var rest := Turns(past[1..]);
      if IsGreeting(past[0]) {
        assert !forall k :: 0 <= k < |past| ==> !IsGreeting(past[k]);
      } else {
        assert Turns(past) == [Convert(past[0])] + rest;
        if forall k :: 0 <= k < |past| ==> !IsGreeting(past[k]) {
          assert forall k :: 0 <= k < |past[1..]| ==> !IsGreeting(past[1..][k]);
        }
      }
    }
  }

  /** Sending the same conversation with greetings added anywhere in the
      past makes no difference. */
  lemma {:induction false} GreetingsIgnored(a: seq<FrontendMessage>, g: FrontendMessage, b: seq<FrontendMessage>)
    requires IsGreeting(g)
    ensures Turns(a + [g] + b) == Turns(a + b)
    decreases |a|
  {
    if a == [] {
      assert (a + [g] + b)[1..] == b;
      assert a + b == b;
    } else {
      assert (a + [g] + b)[1..] == a[1..] + [g] + b;
      assert (a + b)[1..] == a[1..] + b;
      GreetingsIgnored(a[1..], g, b);
    }
  }

  /** The API's answer: the first choice's content (possibly missing), or a
      thrown value. */
  datatype Completion = Completed(content: Option<string>) | Threw(thrown: Thrown)

  datatype GroqResponse = GroqResponse(content: string, error: Option<string>)

  /** The three families of failure the classification recognises. */
  predicate RateLimited(m: string) {
    Contains(m, "rate_limit") || Contains(m, "429")
  }

  predicate TimedOut(m: string) {
    Contains(m, "timeout") || Contains(m, "ETIMEDOUT")
  }

  predicate AuthFailed(m: string) {
    Contains(m, "401") || Contains(m, "invalid_api_key")
  }

  /** The message for a failed non-streaming call, checked in order: rate
      limit, then timeout, then authentication. */
  function ClassifyError(t: Thrown): (e: string)
    ensures t.OtherValue? ==> e == UnexpectedError
    ensures t.ErrorObject? && RateLimited(t.message) ==> e == RateLimitError
    ensures t.ErrorObject? && !RateLimited(t.message) && TimedOut(t.message) ==> e == TimeoutError
    ensures t.ErrorObject? && !RateLimited(t.message) && !TimedOut(t.message) && AuthFailed(t.message) ==> e == AuthError
    ensures t.ErrorObject? && !Mentioned(t.message) ==> e == ServicePrefix + t.message
  {
    match t
    case OtherValue => UnexpectedError
    case ErrorObject(m) =>
      if RateLimited(m) then RateLimitError
      else if TimedOut(m) then TimeoutError
      else if AuthFailed(m) then AuthError
      else ServicePrefix + m
  }

  /** The message mentions one of the words the classification looks for. */
  predicate Mentioned(m: string) {
    RateLimited(m) || TimedOut(m) || AuthFailed(m)
  }

  /** `getGroqResponse(message, history)` once the call has answered. */
  function GetGroqResponse(c: Completion): (r: GroqResponse)
    ensures r.error.None? <==> r.content != ""
    ensures c.Completed? && Truthy(c.content) ==> r == GroqResponse(c.content.value, None)
    ensures c.Completed? && !Truthy(c.content) ==> r.error == Some(NoResponseError)
    ensures c.Threw? ==> r.error == Some(ClassifyError(c.thrown))
  {
    match c
    case Completed(content) =>
      if Truthy(content) then GroqResponse(content.value, None)
      else GroqResponse("", Some(NoResponseError))
    case Threw(t) =>
      GroqResponse("", Some(ClassifyError(t)))
  }

  /** The streaming call: the content deltas of the chunks in order, or a
      value thrown while starting. */
  datatype StreamStart = Started(deltas: seq<Option<string>>) | StartThrew(thrown: Thrown)

  /** What the stream carries: only the truthy deltas, in order. */
  function StreamedText(deltas: seq<Option<string>>): string
    decreases |deltas|
  {
    if deltas == [] then ""
    else (if Truthy(deltas[0]) then deltas[0].value else "") + StreamedText(deltas[1..])
  }

  /** Reading the deltas in two parts streams the parts one after the other. */
  lemma {:induction false} StreamedTextAppend(a: seq<Option<string>>, b: seq<Option<string>>)
    ensures StreamedText(a + b) == StreamedText(a) + StreamedText(b)
    decreases |a|
  {
    if a != [] {
      assert (a + b)[1..] == a[1..] + b;
      StreamedTextAppend(a[1..], b);
    } else {
      assert a + b == b;
    }
  }

  /** Missing and empty deltas add nothing to the stream. */
  lemma StreamedTextSkipsEmpty(a: seq<Option<string>>, b: seq<Option<string>>, d: Option<string>)
    requires !Truthy(d)
    ensures StreamedText(a + [d] + b) == StreamedText(a + b)
  {
    StreamedTextAppend(a + [d], b);
    StreamedTextAppend(a, [d]);
    StreamedTextAppend(a, b);
    assert StreamedText([d]) == "" + StreamedText([d][1..]);
  }

  datatype GroqStream = GroqStream(text: string, error: Option<string>)

  /** The message for a failed streaming call: only rate limits are told apart. */
  function ClassifyStreamError(t: Thrown): (e: string)
    ensures t.OtherValue? ==> e == UnexpectedError
    ensures t.ErrorObject? && RateLimited(t.message) ==> e == RateLimitError
    ensures t.ErrorObject? && !RateLimited(t.message) ==> e == ServicePrefix + t.message
  {
    match t
    case OtherValue => UnexpectedError
    case ErrorObject(m) =>
      if RateLimited(m) then RateLimitError
      else ServicePrefix + m
  }

  /** `getGroqStreamResponse(message, history)`: without a key nothing is
      called and the stream is empty. */
  function GetGroqStreamResponse(keyConfigured: bool, s: StreamStart): (r: GroqStream)
    ensures !keyConfigured ==> r == GroqStream("", Some(MissingKeyError))
    ensures keyConfigured && s.Started? ==> r == GroqStream(StreamedText(s.deltas), None)
    ensures keyConfigured && s.StartThrew? ==> r.text == "" && r.error == Some(ClassifyStreamError(s.thrown))
  {
    if !keyConfigured then GroqStream("", Some(MissingKeyError))
    else match s
      case Started(deltas) => GroqStream(StreamedText(deltas), None)
      case StartThrew(t) => GroqStream("", Some(ClassifyStreamError(t)))
  }

  /** Both calls report every failure with a non-empty message, and they agree
      except where the non-streaming call recognises a timeout or an
      authentication failure. */
  lemma ClassificationsAgree(t: Thrown)
    ensures ClassifyError(t) != "" && ClassifyStreamError(t) != ""
    ensures (t.OtherValue? || !Mentioned(t.message) || RateLimited(t.message))
      ==> ClassifyError(t) == ClassifyStreamError(t)
  {
    assert |ServicePrefix| > 0;
  }
}

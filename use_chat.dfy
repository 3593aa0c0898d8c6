/** The chat hook of src/hooks/useChat.ts: the conversation held by the page,
    what is sent to the chat route, how the streamed answer is folded into the
    last message, and what is written to storage. The network reply and the
    clock are inputs; the stored list stands for the storage hook's value. */
module UseChat {
  import opened Wrappers
  import opened Text
  import opened Types
  import ChatRoute

  /** `Math.floor(MAX_DOC_LENGTH * 0.6)` and `Math.floor(MAX_DOC_LENGTH * 0.2)`. */
  const HeadShare := 48000
  const TailShare := 16000
  const ConnectionError := "[ERROR] Connection failed. Check network and retry."
  /** Chunks starting with this are tried as structured events. */
  const EventPrefix := "{\"type\":"

  // ---------------------------------------------------------------------
  // The send guard and the outgoing message

  /** `handleSend` does nothing for a blank input or while a reply is pending. */
  predicate CanSend(input: string, loading: bool) {
    Trim(input) != "" && !loading
  }

  function TruncationNote(dropped: nat): string {
    "\n\n[... " + NatToString(dropped) + " characters truncated ...]\n\n"
  }

  /** A document over 80,000 characters keeps its first 48,000 and last 16,000
      characters, with a note of how many were dropped between them. */
  function TruncateDocument(doc: string): (r: string)
    ensures |doc| <= MaxDocLength ==> r == doc
    ensures |doc| > MaxDocLength ==>
      && HeadShare + TailShare <= |r| < |doc|
      && r[..HeadShare] == doc[..HeadShare]
      && r[|r| - TailShare..] == doc[|doc| - TailShare..]
      && r[HeadShare..|r| - TailShare] == TruncationNote(|doc| - HeadShare - TailShare)
  {
    if |doc| > MaxDocLength then
      var dropped := |doc| - HeadShare - TailShare;
      NatToStringShort(dropped);
      var r := doc[..HeadShare] + TruncationNote(dropped) + doc[|doc| - TailShare..];
      assert r[..HeadShare] == doc[..HeadShare];
      assert r[|r| - TailShare..] == doc[|doc| - TailShare..];
      assert r[HeadShare..|r| - TailShare] == TruncationNote(dropped);
      r
    else doc
  }

  /** The characters the note counts are exactly those left out. */
  lemma TruncationCountsDropped(doc: string)
    requires |doc| > MaxDocLength
    ensures HeadShare + (|doc| - HeadShare - TailShare) + TailShare == |doc|
    ensures |doc| - HeadShare - TailShare > 0
    ensures doc == doc[..HeadShare] + doc[HeadShare..|doc| - TailShare] + doc[|doc| - TailShare..]
  {
  }

  /** What precedes the attached document in the sent text. */
  function DocumentHeader(filename: string): string {
    ChatRoute.DocumentMarker + " " + filename + "]\n\nDocument content:\n"
  }

  const QuestionHeader := "\n\nUser question: "

  /** The text sent for the input, wrapped around the document when one is attached. */
  function MessageToSend(input: string, file: Option<UploadedFile>): (r: string)
    ensures file.None? ==> r == input
    ensures file.Some? ==> r == DocumentHeader(file.value.filename) + TruncateDocument(file.value.content) + QuestionHeader + input
    ensures file.Some? ==> StartsWith(r, ChatRoute.DocumentMarker) && EndsWith(r, input)
  {
    match file
    case None => input
    case Some(f) =>
      var head := DocumentHeader(f.filename) + TruncateDocument(f.content) + QuestionHeader;
      assert (head + input)[..|ChatRoute.DocumentMarker|] == ChatRoute.DocumentMarker;
      assert (head + input)[|head + input| - |input|..] == input;
      head + input
  }

  /** A question about an attached document passes the route's message check
      still marked as a document, so when no URL is found in it the route
      gathers no sources and never searches the web for it. */
  lemma DocumentQuestionsNotSearched(input: string, f: UploadedFile, settle: nat -> ChatRoute.Settled, found: seq<string>)
    requires ChatRoute.ValidateMessage(Some(JString(MessageToSend(input, Some(f))))).Ok?
    ensures var m := ChatRoute.ValidateMessage(Some(JString(MessageToSend(input, Some(f))))).value;
      StartsWith(m, ChatRoute.DocumentMarker) && ChatRoute.GatherSources(m, [], settle, found) == []
  {
    var sent := MessageToSend(input, Some(f));
    var marker := ChatRoute.DocumentMarker;
    assert marker[0] == '[' && marker[|marker| - 1] == ':';
    TrimKeepsPrefix(sent, marker);
  }

  // ---------------------------------------------------------------------
  // Storage

  /** The fields a message is stored with: no display text, no streaming flag. */
  function Stored(m: Message): (r: Message)
    ensures StoredForm(r)
    ensures r.role == m.role && r.content == m.content && r.isError == m.isError
    ensures r.sources == m.sources && r.attachment == m.attachment && r.timestamp == m.timestamp
  {
    Message(m.role, m.content, None, m.isError, None, m.sources, m.attachment, m.timestamp)
  }

  predicate StoredForm(m: Message) {
    m.displayedContent.None? && m.isStreaming.None?
  }

  /** `persistMessages`: streaming messages are dropped, the rest stored. */
  function Persist(ms: seq<Message>): (r: seq<Message>)
    ensures |r| <= |ms|
    ensures forall i :: 0 <= i < |r| ==> StoredForm(r[i])
    decreases |ms|
  {
    if ms == [] then []
    else (if ms[0].Streaming() then [] else [Stored(ms[0])]) + Persist(ms[1..])
  }

  /** Persisting a longer list persists the added message after the rest. */
  lemma {:induction false} PersistAppend(ms: seq<Message>, m: Message)
    ensures Persist(ms + [m]) == Persist(ms) + (if m.Streaming() then [] else [Stored(m)])
    decreases |ms|
  {
    if ms == [] {
      assert ms + [m] == [m];
    } else {
      assert (ms + [m])[1..] == ms[1..] + [m];
      PersistAppend(ms[1..], m);
    }
  }

  /** Nothing streaming is ever stored, and a list with nothing streaming is
      stored whole. */
  predicate NoneStreaming(ms: seq<Message>) {
    forall i :: 0 <= i < |ms| ==> !ms[i].Streaming()
  }

  lemma {:induction false} PersistKeepsFinished(ms: seq<Message>)
    requires NoneStreaming(ms)
    ensures |Persist(ms)| == |ms|
    ensures forall i :: 0 <= i < |ms| ==> Persist(ms)[i] == Stored(ms[i])
    decreases |ms|
  {
    if ms != [] {
      PersistKeepsFinished(ms[1..]);
      assert Persist(ms) == [Stored(ms[0])] + Persist(ms[1..]);
    }
  }

  /** Storing a stored list changes nothing. */
  lemma {:induction false} PersistIdempotent(ms: seq<Message>)
    ensures Persist(Persist(ms)) == Persist(ms)
  {
    var p := Persist(ms);
    assert NoneStreaming(p);
    PersistKeepsFinished(p);
    assert forall i :: 0 <= i < |p| ==> Stored(p[i]) == p[i];
  }

  function GreetingMessage(now: int): Message {
    Message(Ai, Greeting, Some(Greeting), None, None, None, None, now)
  }

  /** The messages shown after the stored list is read back: each fully
      displayed and not streaming, or the greeting when nothing was stored. */
  function Restore(saved: seq<Message>, now: int): (r: seq<Message>)
    ensures |saved| > 0 ==> |r| == |saved| && forall i :: 0 <= i < |r| ==>
      r[i].displayedContent == Some(saved[i].content) && r[i].isStreaming == Some(false)
    ensures |saved| == 0 ==> r == [GreetingMessage(now)]
    ensures NoneStreaming(r)
  {
    if |saved| > 0 then
      seq(|saved|, i requires 0 <= i < |saved| => saved[i].(displayedContent := Some(saved[i].content), isStreaming := Some(false)))
    else [GreetingMessage(now)]
  }

  /** Storing what was read back gives back what was stored. */
  lemma RestoreRoundTrip(saved: seq<Message>, now: int)
    requires |saved| > 0 && forall i :: 0 <= i < |saved| ==> StoredForm(saved[i])
    ensures Persist(Restore(saved, now)) == saved
  {
    var r := Restore(saved, now);
    PersistKeepsFinished(r);
  }

  // ---------------------------------------------------------------------
  // The streamed answer

  /** A structured event as it parses. */
  datatype StreamEvent =
    | StatusEvent(message: Option<string>)
    | SourcesEvent(data: Option<seq<Source>>)
    | ContentEvent(text: Option<string>)
    | OtherEvent

  /** A decoded chunk, with what `JSON.parse` makes of it (`None` when it throws). */
  datatype Chunk = Chunk(text: string, parsed: Option<StreamEvent>)

  function Event(c: Chunk): Option<StreamEvent> {
    if StartsWith(c.text, EventPrefix) then c.parsed else None
  }

  predicate IsStatus(c: Chunk) {
    Event(c).Some? && Event(c).value.StatusEvent?
  }

  predicate IsSources(c: Chunk) {
    Event(c).Some? && Event(c).value.SourcesEvent?
  }

  /** The text a chunk adds to the answer. An event's missing text is
      appended as JavaScript prints it. */
  function Piece(c: Chunk): (r: string)
    ensures Event(c).None? ==> r == c.text
    ensures Event(c).Some? && Event(c).value.ContentEvent? ==> r == Event(c).value.text.GetOr("undefined")
    ensures Event(c).Some? && !Event(c).value.ContentEvent? ==> r == ""
  {
    if !StartsWith(c.text, EventPrefix) || c.parsed.None? then c.text
    else match c.parsed.value
      case ContentEvent(t) => t.GetOr("undefined")
      case _ => ""
  }

  /** The answer so far: the chunks' pieces in order. */
  function Accumulate(chunks: seq<Chunk>): string
    decreases |chunks|
  {
    if chunks == [] then "" else Accumulate(chunks[..|chunks| - 1]) + Piece(chunks[|chunks| - 1])
  }

  /** The answer only grows: what was shown after some chunks starts what is
      shown after more. */
  lemma {:induction false} AccumulateGrows(chunks: seq<Chunk>, i: nat)
    requires i <= |chunks|
    ensures StartsWith(Accumulate(chunks), Accumulate(chunks[..i]))
    decreases |chunks|
  {
    if i < |chunks| {
      var init := chunks[..|chunks| - 1];
      assert init[..i] == chunks[..i];
      AccumulateGrows(init, i);
    } else {
      assert chunks[..i] == chunks;
    }
  }

  /** Without structured events the answer is the chunks' text joined. */
  lemma {:induction false} PlainChunksJoined(chunks: seq<Chunk>)
    requires forall i :: 0 <= i < |chunks| ==> !StartsWith(chunks[i].text, EventPrefix)
    ensures Accumulate(chunks) == Join(seq(|chunks|, i requires 0 <= i < |chunks| => chunks[i].text), "")
    decreases |chunks|
  {
    if chunks != [] {
      var init := chunks[..|chunks| - 1];
      PlainChunksJoined(init);
      var texts := seq(|chunks|, i requires 0 <= i < |chunks| => chunks[i].text);
      assert seq(|init|, i requires 0 <= i < |init| => init[i].text) == texts[..|texts| - 1];
      JoinSnoc(texts);
    }
  }

  lemma {:induction false} JoinSnoc(parts: seq<string>)
    requires parts != []
    ensures Join(parts, "") == Join(parts[..|parts| - 1], "") + parts[|parts| - 1]
    decreases |parts|
  {
    if |parts| > 1 {
      JoinSnoc(parts[1..]);
      assert parts[1..][..|parts[1..]| - 1] == parts[..|parts| - 1][1..];
      if |parts| == 2 {
        assert parts[..1] == [parts[0]];
      }
    }
  }

  /** The hook's local state while reading: the answer, the sources shown
      with it, the status line and the message being filled. */
  datatype StreamState = StreamState(content: string, sources: Option<seq<Source>>, status: Option<string>, last: Message)

  /** The last message after an update: the answer so far, still streaming. */
  function Touch(m: Message, content: string, sources: Option<seq<Source>>): Message {
    if m.role == Ai then Message(Ai, content, Some(m.displayedContent.GetOr("")), None, Some(true), sources, m.attachment, m.timestamp)
    else m
  }

  /** One chunk: a status or sources event only records itself; anything
      else extends the answer and updates the last message. */
  function Step(st: StreamState, c: Chunk): StreamState {
    if IsStatus(c) then st.(status := Event(c).value.message)
    else if IsSources(c) then st.(sources := Event(c).value.data)
    else
      var content := st.content + Piece(c);
      st.(content := content, last := Touch(st.last, content, st.sources))
  }

  function Run(st: StreamState, chunks: seq<Chunk>): StreamState
    decreases |chunks|
  {
    if chunks == [] then st else Step(Run(st, chunks[..|chunks| - 1]), chunks[|chunks| - 1])
  }

  /** The sources of the last sources event, or the header's. */
  function SourcesAfter(header: Option<seq<Source>>, chunks: seq<Chunk>): Option<seq<Source>>
    decreases |chunks|
  {
    if chunks == [] then header
    else if IsSources(chunks[|chunks| - 1]) then Event(chunks[|chunks| - 1]).value.data
    else SourcesAfter(header, chunks[..|chunks| - 1])
  }

  /** Reading accumulates the pieces, keeps the last sources event, and
      never changes who the last message is from, what it carries or when
      it was written. */
  lemma {:induction false} RunTracks(st: StreamState, chunks: seq<Chunk>)
    ensures Run(st, chunks).content == st.content + Accumulate(chunks)
    ensures Run(st, chunks).sources == SourcesAfter(st.sources, chunks)
    ensures Run(st, chunks).last.role == st.last.role
    ensures Run(st, chunks).last.attachment == st.last.attachment
    ensures Run(st, chunks).last.timestamp == st.last.timestamp
    decreases |chunks|
  {
    if chunks != [] {
      RunTracks(st, chunks[..|chunks| - 1]);
    }
  }

  /** The last message once the stream has ended: the whole answer, displayed. */
  function Final(m: Message, content: string, sources: Option<seq<Source>>): Message {
    if m.role == Ai then Message(Ai, content, Some(content), None, Some(false), sources, m.attachment, m.timestamp)
    else m
  }

  function ErrorMessage(text: string, now: int): (r: Message)
    ensures r.isError == Some(true) && !r.Streaming()
  {
    Message(Ai, text, Some(text), Some(true), Some(false), None, None, now)
  }

  function ReplaceLast(ms: seq<Message>, m: Message): (r: seq<Message>)
    requires |ms| >= 1
    ensures |r| == |ms| && r[..|ms| - 1] == ms[..|ms| - 1] && r[|ms| - 1] == m
  {
    ms[..|ms| - 1] + [m]
  }

  /** The error shown for a refused request: the body's `error` when truthy,
      else the status. */
  function RefusalText(status: nat, error: Option<string>): string {
    "[ERROR] " + (if Truthy(error) then error.value else "Request failed: " + NatToString(status))
  }

  /** How reading the body ended: at its end, with a failure, or by abort. */
  datatype StreamEnd = Complete | Broken | Cancelled

  /** What the chat route's answer turned out to be. `Streamed` carries the
      parsed `X-Sources` header (`None` when absent or not JSON). */
  datatype Reply =
    | Refused(status: nat, error: Option<string>)
    | Streamed(header: Option<seq<Source>>, chunks: seq<Chunk>, end: StreamEnd)
    | NoBody
    | Unreachable
    | Aborted

  /** The messages and status line after a reply, and whether they were stored. */
  datatype After = After(messages: seq<Message>, status: Option<string>, persist: bool)

  /** The effect of a reply on the pending conversation. */
  function Receipt(pending: seq<Message>, status: Option<string>, reply: Reply, later: int): (a: After)
    requires |pending| >= 1
    ensures |a.messages| == |pending| && a.messages[..|pending| - 1] == pending[..|pending| - 1]
    ensures a.persist <==> !(reply.Aborted? || (reply.Streamed? && reply.end.Cancelled?))
    ensures reply.Refused? ==> a.messages[|pending| - 1] == ErrorMessage(RefusalText(reply.status, reply.error), later)
    ensures reply.NoBody? || reply.Unreachable? || (reply.Streamed? && reply.end.Broken?) ==>
      a.messages[|pending| - 1] == ErrorMessage(ConnectionError, later)
    ensures reply.Streamed? && reply.end.Complete? && pending[|pending| - 1].role == Ai ==>
      var m := a.messages[|pending| - 1];
      && m.content == Accumulate(reply.chunks) && m.displayedContent == Some(m.content)
      && !m.Streaming() && m.sources == SourcesAfter(reply.header, reply.chunks)
      && m.attachment == pending[|pending| - 1].attachment && a.status.None?
  {
    match reply
    case Refused(code, error) => After(ReplaceLast(pending, ErrorMessage(RefusalText(code, error), later)), status, true)
    case NoBody => After(ReplaceLast(pending, ErrorMessage(ConnectionError, later)), status, true)
    case Unreachable => After(ReplaceLast(pending, ErrorMessage(ConnectionError, later)), status, true)
    case Aborted => After(pending, status, false)
    case Streamed(header, chunks, end) =>
      var st0 := StreamState("", header, status, pending[|pending| - 1]);
      var st := Run(st0, chunks);
      RunTracks(st0, chunks);
      match end
      case Complete => After(ReplaceLast(pending, Final(st.last, st.content, st.sources)), None, true)
      case Broken => After(ReplaceLast(pending, ErrorMessage(ConnectionError, later)), st.status, true)
      case Cancelled => After(ReplaceLast(pending, st.last), st.status, false)
  }

  /** Unless the request is aborted, nothing is left streaming and everything
      shown is stored. */
  lemma ReceiptSettles(pending: seq<Message>, status: Option<string>, reply: Reply, later: int)
    requires |pending| >= 1 && NoneStreaming(pending[..|pending| - 1]) && pending[|pending| - 1].role == Ai
    requires Receipt(pending, status, reply, later).persist
    ensures NoneStreaming(Receipt(pending, status, reply, later).messages)
    ensures |Persist(Receipt(pending, status, reply, later).messages)| == |pending|
  {
    var a := Receipt(pending, status, reply, later);
    var n := |pending|;
    if reply.Streamed? && reply.end.Complete? {
      var st0 := StreamState("", reply.header, status, pending[n - 1]);
      RunTracks(st0, reply.chunks);
    }
    assert !a.messages[n - 1].Streaming();
    assert forall i :: 0 <= i < n - 1 ==> a.messages[i] == a.messages[..n - 1][i];
    PersistKeepsFinished(a.messages);
  }

  function UserMessage(input: string, now: int): Message {
    Message(User, input, Some(input), None, None, None, None, now)
  }

  /** The placeholder the answer streams into, with the attachment's name and type. */
  function Pending(file: Option<UploadedFile>, now: int): Message {
    Message(Ai, "", Some(""), None, Some(true), None,
      if file.Some? then Some(Attachment(file.value.filename, file.value.kind)) else None, now)
  }

  /** The body posted to the chat route (`stream` is always true). */
  datatype ChatRequest = ChatRequest(message: string, history: seq<Message>)

  // ---------------------------------------------------------------------
  // The hook's state

  class ChatSession {
    var messages: seq<Message>
    var input: string
    var loading: bool
    var status: Option<string>
    /** The stored list, as the storage hook holds it. */
    var saved: seq<Message>
    var storageReady: bool
    var hydrated: bool

    constructor(stored: seq<Message>, ready: bool)
      ensures messages == [] && input == "" && !loading && status.None?
      ensures saved == stored && storageReady == ready && !hydrated
    {
      messages := [];
      input := "";
      loading := false;
      status := None;
      saved := stored;
      storageReady := ready;
      hydrated := false;
    }

    /** The render-time hydration: once storage is ready, the first render
        shows the stored conversation. */
    method Hydrate(now: int)
      modifies this
      ensures storageReady && !old(hydrated) ==> hydrated && messages == Restore(saved, now)
      ensures !(storageReady && !old(hydrated)) ==> hydrated == old(hydrated) && messages == old(messages)
      ensures saved == old(saved) && input == old(input) && loading == old(loading) && status == old(status)
      ensures storageReady == old(storageReady)
    {
      if storageReady && !hydrated {
        hydrated := true;
        messages := Restore(saved, now);
      }
    }

    /** The reading loop: each chunk is decoded and either recorded as an
        event or appended to the answer and shown in the last message. */
    method ReadStream(header: Option<seq<Source>>, chunks: seq<Chunk>) returns (content: string, sources: Option<seq<Source>>)
      requires |messages| >= 1
      modifies this
      ensures var st := Run(StreamState("", header, old(status), old(messages)[|old(messages)| - 1]), chunks);
        && content == st.content && sources == st.sources && status == st.status
        && messages == ReplaceLast(old(messages), st.last)
      ensures saved == old(saved) && input == old(input) && loading == old(loading)
      ensures storageReady == old(storageReady) && hydrated == old(hydrated)
    {
      var prefix := messages[..|messages| - 1];
      ghost var st0 := StreamState("", header, status, messages[|messages| - 1]);
      content := "";
      sources := header;
      var i := 0;
      while i < |chunks|
        invariant 0 <= i <= |chunks|
        invariant |messages| == |prefix| + 1 && messages[..|prefix|] == prefix
        invariant Run(st0, chunks[..i]) == StreamState(content, sources, status, messages[|prefix|])
        invariant saved == old(saved) && input == old(input) && loading == old(loading)
        invariant storageReady == old(storageReady) && hydrated == old(hydrated)
      {
        var c := chunks[i];
        assert chunks[..i + 1][..i] == chunks[..i];
        if StartsWith(c.text, EventPrefix) && c.parsed.Some? && c.parsed.value.StatusEvent? {
          status := c.parsed.value.message;
        } else if StartsWith(c.text, EventPrefix) && c.parsed.Some? && c.parsed.value.SourcesEvent? {
          sources := c.parsed.value.data;
        } else {
          var piece := c.text;
          if StartsWith(c.text, EventPrefix) && c.parsed.Some? {
            piece := if c.parsed.value.ContentEvent? then c.parsed.value.text.GetOr("undefined") else "";
          }
          content := content + piece;
          var last := messages[|prefix|];
          if last.role == Ai {
            messages := prefix + [Message(Ai, content, Some(last.displayedContent.GetOr("")), None, Some(true), sources, last.attachment, last.timestamp)];
          }
        }
        i := i + 1;
      }
      assert chunks[..i] == chunks;
    }

    /** Everything after the request is made, up to the `finally`. */
    method Receive(reply: Reply, later: int)
      requires |messages| >= 1
      modifies this
      ensures var a := Receipt(old(messages), old(status), reply, later);
        && messages == a.messages && status == a.status
        && saved == (if a.persist then Persist(a.messages) else old(saved))
      ensures input == old(input) && loading == old(loading)
      ensures storageReady == old(storageReady) && hydrated == old(hydrated)
    {
      var pending := messages;
      ghost var before := status;
      match reply {
        case Refused(code, error) =>
          messages := ReplaceLast(pending, ErrorMessage(RefusalText(code, error), later));
          saved := Persist(messages);
        case NoBody =>
          messages := ReplaceLast(pending, ErrorMessage(ConnectionError, later));
          saved := Persist(messages);
        case Unreachable =>
          messages := ReplaceLast(pending, ErrorMessage(ConnectionError, later));
          saved := Persist(messages);
        case Aborted =>
        case Streamed(header, chunks, end) =>
          var content, sources := ReadStream(header, chunks);
          ghost var st := Run(StreamState("", header, before, pending[|pending| - 1]), chunks);
          assert content == st.content && sources == st.sources && messages[|messages| - 1] == st.last;
          if end.Complete? {
            status := None;
            messages := ReplaceLast(pending, Final(messages[|messages| - 1], content, sources));
            saved := Persist(messages);
          } else if end.Broken? {
            messages := ReplaceLast(pending, ErrorMessage(ConnectionError, later));
            saved := Persist(messages);
          }
      }
    }

    /** `handleSend(uploadedFile)`: the user's message and a streaming
        placeholder are appended, the request is made, and the reply is
        folded in. `now` is the time of sending, `later` of any error. */
    method Send(file: Option<UploadedFile>, reply: Reply, now: int, later: int) returns (request: Option<ChatRequest>)
      modifies this
      ensures !CanSend(old(input), old(loading)) ==>
        && request.None? && messages == old(messages) && input == old(input)
        && loading == old(loading) && status == old(status) && saved == old(saved)
      ensures CanSend(old(input), old(loading)) ==>
        var sent := old(messages) + [UserMessage(old(input), now)];
        var a := Receipt(sent + [Pending(file, now)], None, reply, later);
        && request == Some(ChatRequest(MessageToSend(old(input), file), sent))
        && messages == a.messages && status == a.status && input == "" && !loading
        && saved == (if a.persist then Persist(a.messages) else old(saved))
      ensures storageReady == old(storageReady) && hydrated == old(hydrated)
    {
      if !CanSend(input, loading) {
        return None;
      }
      var r := Deliver(file, reply, now, later);
      request := Some(r);
    }

    /** `handleSend` past its guard. */
    method Deliver(file: Option<UploadedFile>, reply: Reply, now: int, later: int) returns (request: ChatRequest)
      modifies this
      ensures var sent := old(messages) + [UserMessage(old(input), now)];
        var a := Receipt(sent + [Pending(file, now)], None, reply, later);
        && request == ChatRequest(MessageToSend(old(input), file), sent)
        && messages == a.messages && status == a.status && input == "" && !loading
        && saved == (if a.persist then Persist(a.messages) else old(saved))
      ensures storageReady == old(storageReady) && hydrated == old(hydrated)
    {
      var current := input;
      var sent := Begin(file, now);
      request := ChatRequest(MessageToSend(current, file), sent);
      Receive(reply, later);
      loading := false;
    }

    /** The synchronous start of `handleSend`: the user's message and the
        placeholder are shown, the input cleared, and loading set. */
    method Begin(file: Option<UploadedFile>, now: int) returns (sent: seq<Message>)
      modifies this
      ensures sent == old(messages) + [UserMessage(old(input), now)]
      ensures messages == sent + [Pending(file, now)]
      ensures input == "" && loading && status.None? && saved == old(saved)
      ensures storageReady == old(storageReady) && hydrated == old(hydrated)
    {
      sent := messages + [UserMessage(input, now)];
      messages := sent;
      input := "";
      loading := true;
      status := None;
      messages := messages + [Pending(file, now)];
    }

    /** `handleNewChat`: back to the greeting, which is also stored. */
    method NewChat(now: int)
      modifies this
      ensures messages == [GreetingMessage(now)] && input == "" && !loading && status.None?
      ensures saved == Persist([GreetingMessage(now)])
      ensures storageReady == old(storageReady) && hydrated == old(hydrated)
    {
      messages := [GreetingMessage(now)];
      input := "";
      loading := false;
      status := None;
      saved := Persist(messages);
    }
  }

  /** A fresh chat stores exactly the greeting, which reads back as itself. */
  lemma NewChatStoresGreeting(now: int, later: int)
    ensures Persist([GreetingMessage(now)]) == [Stored(GreetingMessage(now))]
    ensures Restore(Persist([GreetingMessage(now)]), later)[0].content == Greeting
  {
    assert Persist([GreetingMessage(now)]) == [Stored(GreetingMessage(now))] + Persist([]);
  }
}

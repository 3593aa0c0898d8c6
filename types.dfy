/** The shared constants (src/lib/constants.ts) and record shapes
    (src/types/index.ts) of the application. Optional TypeScript fields are
    `Option`s; nullable ones too. The TypeScript field `type` is called `kind`
    here because `type` is a Dafny keyword. */
module Types {
  import opened Wrappers

  const StorageKey := "deepcite-messages"
  const Greeting := "Ready to analyze websites, documents, and answer queries."
  const TypewriterSpeed := 12
  const TypewriterChunkSize := 3
  const MaxDocLength := 80000
  const MaxFileSize := 10 * 1024 * 1024

  /** A byte of a Node `Buffer`. */
  newtype Byte = b: int | 0 <= b < 256

  datatype Role = User | Ai

  /** What the chat route reports about one scraped URL. */
  datatype Source = Source(url: string, scraperUsed: Option<string>, error: Option<string>)

  datatype Attachment = Attachment(filename: string, kind: string)

  /** A chat message as the client keeps it. `isError` and `isStreaming` are
      optional booleans: `None` is `undefined`. */
  datatype Message = Message(
    role: Role,
    content: string,
    displayedContent: Option<string>,
    isError: Option<bool>,
    isStreaming: Option<bool>,
    sources: Option<seq<Source>>,
    attachment: Option<Attachment>,
    timestamp: int)
  {
    /** `msg.isStreaming` is truthy. */
    predicate Streaming() {
      isStreaming == Some(true)
    }
  }

  datatype UploadedFile = UploadedFile(content: string, filename: string, kind: string)

  /** A history entry as the server receives it. */
  datatype FrontendMessage = FrontendMessage(role: Role, content: string)

  /** The per-URL outcome the chat route works with. */
  datatype ScrapedSource = ScrapedSource(url: string, content: string, scraperUsed: Option<string>, error: Option<string>)

  datatype DocKind = Pdf | Docx | Doc

  /** The document parser's result. */
  datatype ParsedDocument = ParsedDocument(
    content: string,
    kind: DocKind,
    pageCount: Option<nat>,
    error: Option<string>,
    scraperUsed: Option<string>)

  /** A JavaScript value of the shape JSON can carry, for request bodies that
      are `unknown` until validated. */
  datatype Json =
    | JNull
    | JBool(b: bool)
    | JNumber(n: int)
    | JString(s: string)
    | JArray(items: seq<Json>)
    | JObject(fields: map<string, Json>)

  /** A thrown value: an `Error` with its message, or anything else. */
  datatype Thrown = ErrorObject(message: string) | OtherValue

  /** `err instanceof Error ? err.message : fallback`. */
  function MessageOr(t: Thrown, fallback: string): string {
    match t
    case ErrorObject(m) => m
    case OtherValue => fallback
  }

  /** A string is truthy when it is present and non-empty. */
  predicate Truthy(s: Option<string>) {
    s.Some? && s.value != ""
  }
}

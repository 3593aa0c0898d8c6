/** The document parser of src/lib/documentParser.ts: type detection from a
    name's suffix, the PDF magic-header check, normalisation of extracted text
    and the two entry points (from a buffer, from a URL). The PDF and DOCX
    extraction libraries and `fetch` are inputs: an extractor is a function
    from bytes to a tagged outcome, a fetch is its outcome. */
module DocumentParser {
  import opened Wrappers
  import opened Text
  import opened Types

  const MaxContentLength := 50000
  const TruncationMarker := "\n\n[Content truncated due to length]"
  const EmptyBufferError := "Invalid buffer: buffer is empty"
  const BadHeaderError := "Invalid PDF: buffer does not start with PDF header"
  const NoTextError := "PDF appears to be empty or contains no extractable text (may be image-based/scanned PDF)"
  const LegacyDocError := "Legacy .doc format not supported. Please convert to .docx"
  const PdfEngine := "unpdf"

  /** The text field of an extraction object: one string or one string per page. */
  datatype PdfText = Whole(text: string) | PerPage(pages: seq<string>)

  /** What the PDF text extractor hands back: a bare string, an object with
      text and page count, or a thrown value. */
  datatype PdfExtraction =
    | PlainString(text: string)
    | WithMetadata(body: PdfText, totalPages: Option<nat>)
    | PdfThrew(thrown: Thrown)

  /** What the DOCX raw-text extractor hands back. */
  datatype DocxExtraction = RawText(value: string, warnings: nat) | DocxThrew(thrown: Thrown)

  datatype Extractors = Extractors(pdf: seq<Byte> -> PdfExtraction, docx: seq<Byte> -> DocxExtraction)

  /** The outcome of fetching a document URL: a response, or a thrown value
      (from `fetch` or from reading its body). */
  datatype FetchOutcome = Response(status: nat, body: seq<Byte>) | FetchThrew(thrown: Thrown)

  datatype Validation = Valid | Invalid(error: string)

  /** `buffer.toString('ascii', 0, 4)` clears the high bit of each byte. */
  function AsciiChar(b: Byte): char {
    ((b as int) % 128) as char
  }

  /** The first four bytes read as ASCII are `%PDF`. */
  predicate HasPdfHeader(buffer: seq<Byte>) {
    |buffer| >= 4 && forall k :: 0 <= k < 4 ==> AsciiChar(buffer[k]) == "%PDF"[k]
  }

  /** `validateBuffer`: the empty check comes first, then the header check. */
  function ValidateBuffer(buffer: seq<Byte>): (v: Validation)
    ensures v.Valid? <==> HasPdfHeader(buffer)
    ensures |buffer| == 0 ==> v == Invalid(EmptyBufferError)
    ensures |buffer| > 0 && !HasPdfHeader(buffer) ==> v == Invalid(BadHeaderError)
  {
    if |buffer| == 0 then Invalid(EmptyBufferError)
    else if |buffer| < 4 || exists k | 0 <= k < 4 :: AsciiChar(buffer[k]) != "%PDF"[k] then Invalid(BadHeaderError)
    else Valid
  }

  /** The text of a successful extraction; a page list is joined with newlines. */
  function ExtractedText(e: PdfExtraction): string
    requires !e.PdfThrew?
  {
    match e
    case PlainString(t) => t
    case WithMetadata(Whole(t), _) => t
    case WithMetadata(PerPage(ps), _) => Join(ps, "\n")
  }

  /** `metadata?.pages || undefined`: a page count of zero is dropped. */
  function PageCount(e: PdfExtraction): (r: Option<nat>)
    ensures r.Some? ==> r.value >= 1
  {
    if e.WithMetadata? && e.totalPages.Some? && e.totalPages.value != 0 then e.totalPages else None
  }

  function Marker(over: bool): string {
    if over then TruncationMarker else ""
  }

  /** Cutting a text of length at most `bound` to the limit and marking it
      when `bound` exceeds the limit: a short text comes back unchanged, a
      long one as its first 50,000 characters and the marker. */
  lemma CutAndMark(c: string, bound: nat)
    requires |c| <= bound
    ensures bound <= MaxContentLength ==> Take(c, MaxContentLength) + Marker(bound > MaxContentLength) == c
    ensures |c| > MaxContentLength ==>
      Take(c, MaxContentLength) + Marker(bound > MaxContentLength) == c[..MaxContentLength] + TruncationMarker
  {
    var body := Take(c, MaxContentLength);
    if bound <= MaxContentLength {
      assert body == c;
      assert body + "" == body;
    }
  }

  /** PDF normalisation: collapse whitespace of the trimmed text, keep at most
      50,000 characters, and add the marker when the TRIMMED text (measured
      before collapsing) was longer than 50,000. */
  function NormalizePdf(trimmed: string): (r: string)
    requires trimmed == Trim(trimmed)
    ensures var body := Take(Collapse(trimmed), MaxContentLength);
      && r == body + Marker(|trimmed| > MaxContentLength)
      && NoLeadingSpace(body) && NoDoubleSpace(body) && OnlyPlainSpaces(body)
    ensures |trimmed| <= MaxContentLength ==> r == Collapse(trimmed)
    ensures |Collapse(trimmed)| > MaxContentLength ==>
      r == Collapse(trimmed)[..MaxContentLength] + TruncationMarker
  {
    var c := Collapse(trimmed);
    TakeKeepsShape(c, MaxContentLength);
    CutAndMark(c, |trimmed|);
    Take(c, MaxContentLength) + Marker(|trimmed| > MaxContentLength)
  }

  /** DOCX normalisation: collapse, trim, keep at most 50,000 characters, and
      add the marker when the RAW text was longer than 50,000. */
  function NormalizeDocx(raw: string): (r: string)
    ensures var body := Take(CleanText(raw), MaxContentLength);
      && r == body + Marker(|raw| > MaxContentLength)
      && NoLeadingSpace(body) && NoDoubleSpace(body) && OnlyPlainSpaces(body)
    ensures |raw| <= MaxContentLength ==> r == CleanText(raw)
    ensures |CleanText(raw)| > MaxContentLength ==>
      r == CleanText(raw)[..MaxContentLength] + TruncationMarker
  {
    var c := CleanText(raw);
    TakeKeepsShape(c, MaxContentLength);
    CutAndMark(c, |raw|);
    Take(c, MaxContentLength) + Marker(|raw| > MaxContentLength)
  }

  /** `parsePDFWithUnpdf` once the extractor has answered. */
  function ParsePdfExtraction(e: PdfExtraction): (d: ParsedDocument)
    ensures d.kind == Pdf && d.scraperUsed == Some(PdfEngine)
    ensures e.PdfThrew? ==> d.content == "" && d.error == Some("unpdf failed: " + MessageOr(e.thrown, "Unknown error"))
    ensures !e.PdfThrew? && AllSpace(ExtractedText(e)) ==> d.content == "" && d.error == Some(NoTextError)
    ensures !e.PdfThrew? && !AllSpace(ExtractedText(e)) ==>
      d.error.None? && d.content == NormalizePdf(Trim(ExtractedText(e))) && d.pageCount == PageCount(e)
  {
    if e.PdfThrew? then
      ParsedDocument("", Pdf, None, Some("unpdf failed: " + MessageOr(e.thrown, "Unknown error")), Some(PdfEngine))
    else
      var trimmed := Trim(ExtractedText(e));
      if trimmed == "" then
        ParsedDocument("", Pdf, None, Some(NoTextError), Some(PdfEngine))
      else
        TrimIdempotent(ExtractedText(e));
        ParsedDocument(NormalizePdf(trimmed), Pdf, PageCount(e), None, Some(PdfEngine))
  }

  /** `parsePDF`: validate the buffer, and only then extract. */
  function ParsePdf(buffer: seq<Byte>, extract: seq<Byte> -> PdfExtraction): (d: ParsedDocument)
    ensures d.kind == Pdf && d.scraperUsed == Some(PdfEngine)
  {
    match ValidateBuffer(buffer)
    case Invalid(err) =>
      ParsedDocument("", Pdf, None, Some(if err == "" then "Invalid PDF buffer" else err), Some(PdfEngine))
    case Valid => ParsePdfExtraction(extract(buffer))
  }

  /** `parseDOCX`. */
  function ParseDocx(buffer: seq<Byte>, extract: seq<Byte> -> DocxExtraction): (d: ParsedDocument)
    ensures d.kind == Docx && d.scraperUsed.None?
  {
    match extract(buffer)
    case RawText(value, _) => ParsedDocument(NormalizeDocx(value), Docx, None, None, None)
    case DocxThrew(t) => ParsedDocument("", Docx, None, Some(MessageOr(t, "Failed to parse DOCX")), None)
  }

  /** The answer for a legacy `.doc` file. */
  function LegacyDoc(): ParsedDocument {
    ParsedDocument("", Doc, None, Some(LegacyDocError), None)
  }

  /** `getDocumentType`: the lower-cased name's suffix, `.docx` matched before `.doc`. */
  function GetDocumentType(name: string): (r: Option<DocKind>)
    ensures r == Some(Pdf) <==> EndsWith(ToLower(name), ".pdf")
    ensures r == Some(Docx) <==> EndsWith(ToLower(name), ".docx")
    ensures r == Some(Doc) <==> EndsWith(ToLower(name), ".doc")
  {
    var lower := ToLower(name);
    if EndsWith(lower, ".pdf") then Some(Pdf)
    else if EndsWith(lower, ".docx") then Some(Docx)
    else if EndsWith(lower, ".doc") then Some(Doc)
    else None
  }

  /** The per-kind step shared by both entry points. */
  function ParseKind(kind: DocKind, buffer: seq<Byte>, ex: Extractors): (d: ParsedDocument)
    ensures d.kind == kind
  {
    match kind
    case Pdf => ParsePdf(buffer, ex.pdf)
    case Docx => ParseDocx(buffer, ex.docx)
    case Doc => LegacyDoc()
  }

  /** `parseDocumentFromBuffer(buffer, filename)`. */
  function ParseDocumentFromBuffer(buffer: seq<Byte>, filename: string, ex: Extractors): Option<ParsedDocument> {
    match GetDocumentType(filename)
    case None => None
    case Some(kind) => Some(ParseKind(kind, buffer, ex))
  }

  /** `response.ok`. */
  predicate StatusOk(status: nat) {
    200 <= status <= 299
  }

  /** `parseDocumentFromURL(url)` once the kind is known: the document is
      fetched for every known kind, `.doc` included, before the kind is
      looked at. */
  function FetchedDocument(kind: DocKind, fetch: FetchOutcome, ex: Extractors): (d: ParsedDocument)
    ensures d.kind == kind
  {
    match fetch
    case FetchThrew(t) =>
      ParsedDocument("", kind, None, Some(MessageOr(t, "Failed to fetch document")), None)
    case Response(status, body) =>
      if !StatusOk(status) then
        ParsedDocument("", kind, None, Some("Failed to fetch document: " + NatToString(status)), None)
      else
        ParseKind(kind, body, ex)
  }

  /** `parseDocumentFromURL(url)`. */
  function ParseDocumentFromUrl(url: string, fetch: FetchOutcome, ex: Extractors): Option<ParsedDocument> {
    match GetDocumentType(url)
    case None => None
    case Some(kind) => Some(FetchedDocument(kind, fetch, ex))
  }

  // ---------------------------------------------------------------------
  // Properties

  /** The document type does not depend on letter case. */
  lemma DocumentTypeIgnoresCase(name: string)
    ensures GetDocumentType(ToLower(name)) == GetDocumentType(name)
  {
    ToLowerIdempotent(name);
  }

  /** The three suffixes are told apart: a `.docx` name is never taken for `.doc`. */
  lemma DocxIsNotDoc(name: string)
    requires EndsWith(ToLower(name), ".docx")
    ensures GetDocumentType(name) == Some(Docx)
    ensures !EndsWith(ToLower(name), ".doc")
  {
    var l := ToLower(name);
    assert l[|l| - 1] == 'x';
  }

  /** An invalid PDF buffer is rejected without looking at the extractor. */
  lemma InvalidPdfNeverExtracted(buffer: seq<Byte>, e1: seq<Byte> -> PdfExtraction, e2: seq<Byte> -> PdfExtraction)
    requires !HasPdfHeader(buffer)
    ensures ParsePdf(buffer, e1) == ParsePdf(buffer, e2)
    ensures ParsePdf(buffer, e1).content == ""
    ensures ParsePdf(buffer, e1).error == Some(if |buffer| == 0 then EmptyBufferError else BadHeaderError)
  {
  }

  /** A valid PDF whose text is blank is an error, not an empty success. */
  lemma BlankPdfIsError(buffer: seq<Byte>, extract: seq<Byte> -> PdfExtraction)
    requires HasPdfHeader(buffer)
    requires !extract(buffer).PdfThrew? && AllSpace(ExtractedText(extract(buffer)))
    ensures ParsePdf(buffer, extract).content == ""
    ensures ParsePdf(buffer, extract).error == Some(NoTextError)
  {
  }

  /** A PDF success never carries an error and its content is never empty. */
  lemma PdfSuccessHasContent(buffer: seq<Byte>, extract: seq<Byte> -> PdfExtraction)
    ensures var d := ParsePdf(buffer, extract);
      d.error.None? ==> d.content != "" && |d.content| <= MaxContentLength + |TruncationMarker|
  {
    if HasPdfHeader(buffer) {
      ExtractionSuccessHasContent(extract(buffer));
    }
  }

  lemma ExtractionSuccessHasContent(e: PdfExtraction)
    ensures var d := ParsePdfExtraction(e);
      d.error.None? ==> d.content != "" && |d.content| <= MaxContentLength + |TruncationMarker|
  {
    if !e.PdfThrew? && !AllSpace(ExtractedText(e)) {
      var t := Trim(ExtractedText(e));
      TrimIdempotent(ExtractedText(e));
      NormalizedNonEmpty(t);
    }
  }

  lemma NormalizedNonEmpty(t: string)
    requires t == Trim(t) && t != ""
    ensures NormalizePdf(t) != "" && |NormalizePdf(t)| <= MaxContentLength + |TruncationMarker|
  {
    var c := Collapse(t);
    assert c != "";
    assert Take(c, MaxContentLength) != "";
  }

  /** A DOCX result is always of kind `docx`; the marker is there exactly when
      the raw text was over the limit. */
  lemma DocxAlwaysDocx(buffer: seq<Byte>, extract: seq<Byte> -> DocxExtraction)
    ensures ParseDocx(buffer, extract).kind == Docx
    ensures extract(buffer).RawText? ==>
      ParseDocx(buffer, extract).content ==
        Take(CleanText(extract(buffer).value), MaxContentLength) + Marker(|extract(buffer).value| > MaxContentLength)
  {
  }

  /** `.doc` is refused whatever the bytes and whatever the extractors. */
  lemma DocAlwaysRefused(buffer: seq<Byte>, filename: string, ex: Extractors)
    requires GetDocumentType(filename) == Some(Doc)
    ensures ParseDocumentFromBuffer(buffer, filename, ex) == Some(ParsedDocument("", Doc, None, Some(LegacyDocError), None))
  {
  }

  /** Both entry points answer `null` for an unrecognised name. */
  lemma UnknownTypeIsNull(buffer: seq<Byte>, name: string, fetch: FetchOutcome, ex: Extractors)
    requires !EndsWith(ToLower(name), ".pdf") && !EndsWith(ToLower(name), ".docx") && !EndsWith(ToLower(name), ".doc")
    ensures ParseDocumentFromBuffer(buffer, name, ex).None?
    ensures ParseDocumentFromUrl(name, fetch, ex).None?
  {
  }

  /** A fetched document goes through exactly the buffer entry point's parsing. */
  lemma SameDispatch(url: string, status: nat, body: seq<Byte>, ex: Extractors)
    requires StatusOk(status)
    ensures ParseDocumentFromUrl(url, Response(status, body), ex) == ParseDocumentFromBuffer(body, url, ex)
  {
  }

  /** A failed response becomes "Failed to fetch document: <status>", even for
      a `.doc` URL, which is fetched before it is refused. */
  lemma FailedFetchReported(url: string, status: nat, body: seq<Byte>, ex: Extractors)
    requires GetDocumentType(url).Some? && !StatusOk(status)
    ensures ParseDocumentFromUrl(url, Response(status, body), ex) ==
      Some(ParsedDocument("", GetDocumentType(url).value, None, Some("Failed to fetch document: " + NatToString(status)), None))
  {
    var kind := GetDocumentType(url).value;
    assert ParseDocumentFromUrl(url, Response(status, body), ex) == Some(FetchedDocument(kind, Response(status, body), ex));
  }

  /** Every known kind gives a document from a URL, never `null`. */
  lemma KnownTypeNeverNull(url: string, fetch: FetchOutcome, ex: Extractors)
    requires GetDocumentType(url).Some?
    ensures ParseDocumentFromUrl(url, fetch, ex).Some?
    ensures ParseDocumentFromUrl(url, fetch, ex).value.kind == GetDocumentType(url).value
  {
  }
}

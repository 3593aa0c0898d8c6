/** The upload endpoint of src/app/api/upload/route.ts: a ladder of checks on
    the multipart request, then the document parser. Reading the form and
    the file's bytes are inputs; so are the two extractors. */
module UploadRoute {
  import opened Wrappers
  import opened Text
  import opened Types
  import DocumentParser

  const PdfMime := "application/pdf"
  const DocxMime := "application/vnd.openxmlformats-officedocument.wordprocessingml.document"
  const AllowedTypes := [PdfMime, DocxMime]

  const FormError := "Failed to parse form data. Please ensure the request is multipart/form-data."
  const NoFileError := "No file provided"
  const TooLargeError := "File too large. Maximum size is 10MB"
  const EmptyFileError := "File is empty"
  const ReadError := "Failed to read file data"
  const EmptyBufferError := "File data is empty after conversion"
  const UnknownTypeError := "Could not determine document type or parse document"
  const ParseDetails := "Document parsing failed. Check server logs for more details."

  /** The `file` form field: its name, declared MIME type, declared size, and
      the bytes `arrayBuffer()` yields (`None` when reading throws). */
  datatype FormFile = FormFile(name: string, mime: string, size: nat, data: Option<seq<Byte>>)

  /** The request: `formData()` threw, or the form with or without a file. */
  datatype UploadRequest = Unparseable | Form(file: Option<FormFile>)

  /** A JSON error answer, or the parsed document. */
  datatype UploadResponse =
    | Refused(status: nat, error: string, scraperUsed: Option<string>, details: Option<string>)
    | Uploaded(content: string, kind: DocKind, pageCount: Option<nat>, filename: string, scraperUsed: Option<string>)

  function InvalidTypeError(mime: string): string {
    "Invalid file type: " + mime + ". Only PDF and DOCX files are supported."
  }

  /** A file that passes every check before parsing. */
  predicate Admissible(f: FormFile) {
    f.mime in AllowedTypes && 0 < f.size <= MaxFileSize && f.data.Some? && |f.data.value| > 0
  }

  /** `POST(req)`: the checks in the order the handler makes them. */
  function Upload(req: UploadRequest, ex: DocumentParser.Extractors): (r: UploadResponse)
    ensures r.Refused? ==> r.status == 400 && r.error != ""
    ensures req.Unparseable? ==> r == Refused(400, FormError, None, None)
    ensures req == Form(None) ==> r == Refused(400, NoFileError, None, None)
    ensures req.Form? && req.file.Some? && req.file.value.mime in AllowedTypes && 0 < req.file.value.size <= MaxFileSize ==>
      && (req.file.value.data.None? ==> r == Refused(400, ReadError, None, None))
      && (req.file.value.data == Some([]) ==> r == Refused(400, EmptyBufferError, None, None))
    ensures req.Form? && req.file.Some? && Admissible(req.file.value) ==>
      var parsed := DocumentParser.ParseDocumentFromBuffer(req.file.value.data.value, req.file.value.name, ex);
      && (parsed.None? ==> r == Refused(400, UnknownTypeError, None, None))
      && (parsed.Some? && Truthy(parsed.value.error) ==>
            r == Refused(400, parsed.value.error.value, parsed.value.scraperUsed, Some(ParseDetails)))
    ensures r.Uploaded? <==>
      && req.Form? && req.file.Some? && Admissible(req.file.value)
      && DocumentParser.GetDocumentType(req.file.value.name).Some?
      && !Truthy(DocumentParser.ParseDocumentFromBuffer(req.file.value.data.value, req.file.value.name, ex).value.error)
    ensures r.Uploaded? ==>
      var d := DocumentParser.ParseDocumentFromBuffer(req.file.value.data.value, req.file.value.name, ex).value;
      r == Uploaded(d.content, d.kind, d.pageCount, req.file.value.name, d.scraperUsed)
  {
    match req
    case Unparseable => Refused(400, FormError, None, None)
    case Form(None) => Refused(400, NoFileError, None, None)
    case Form(Some(f)) =>
      if f.mime !in AllowedTypes then Refused(400, InvalidTypeError(f.mime), None, None)
      else if f.size > MaxFileSize then Refused(400, TooLargeError, None, None)
      else if f.size == 0 then Refused(400, EmptyFileError, None, None)
      else if f.data.None? then Refused(400, ReadError, None, None)
      else if |f.data.value| == 0 then Refused(400, EmptyBufferError, None, None)
      else
        match DocumentParser.ParseDocumentFromBuffer(f.data.value, f.name, ex)
        case None => Refused(400, UnknownTypeError, None, None)
        case Some(d) =>
          if Truthy(d.error) then Refused(400, d.error.value, d.scraperUsed, Some(ParseDetails))
          else Uploaded(d.content, d.kind, d.pageCount, f.name, d.scraperUsed)
  }

  /** The declared MIME type is checked before anything else about the
      file: a disallowed type is refused whatever its name, size or bytes. */
  lemma TypeCheckedFirst(f: FormFile, ex: DocumentParser.Extractors)
    requires f.mime !in AllowedTypes
    ensures Upload(Form(Some(f)), ex) == Refused(400, InvalidTypeError(f.mime), None, None)
  {
  }

  /** Files over 10 MiB and empty files are refused before they are read. */
  lemma SizeBounds(f: FormFile, ex: DocumentParser.Extractors)
    requires f.mime in AllowedTypes
    ensures f.size > MaxFileSize ==> Upload(Form(Some(f)), ex) == Refused(400, TooLargeError, None, None)
    ensures f.size == 0 ==> Upload(Form(Some(f)), ex) == Refused(400, EmptyFileError, None, None)
  {
  }

  /** The MIME type and the file name are checked independently: a `.doc`
      name sent with an allowed type reaches the parser and is refused with
      the parser's legacy-format message. */
  lemma LegacyDocRefused(f: FormFile, ex: DocumentParser.Extractors)
    requires Admissible(f) && DocumentParser.GetDocumentType(f.name) == Some(Doc)
    ensures Upload(Form(Some(f)), ex) == Refused(400, DocumentParser.LegacyDocError, None, Some(ParseDetails))
  {
    DocumentParser.DocAlwaysRefused(f.data.value, f.name, ex);
  }

  /** A name with no known suffix is refused after the file has been read. */
  lemma UnknownNameRefused(f: FormFile, ex: DocumentParser.Extractors)
    requires Admissible(f) && DocumentParser.GetDocumentType(f.name).None?
    ensures Upload(Form(Some(f)), ex) == Refused(400, UnknownTypeError, None, None)
  {
  }

  /** An accepted PDF always carries text; an accepted DOCX may be empty. */
  lemma AcceptedPdfHasText(req: UploadRequest, ex: DocumentParser.Extractors)
    requires Upload(req, ex).Uploaded? && Upload(req, ex).kind == Pdf
    ensures Upload(req, ex).content != ""
  {
    var f := req.file.value;
    var kind := DocumentParser.GetDocumentType(f.name).value;
    if kind == Pdf {
      DocumentParser.PdfSuccessHasContent(f.data.value, ex.pdf);
    }
  }
}

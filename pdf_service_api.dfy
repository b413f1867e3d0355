/**
 * The HTTP layer of the Python PDF service: six POST endpoints, each of
 * which reads its form fields (with defaults), validates the upload,
 * runs one service on a temporary copy and serves the result file under
 * a derived name and media type.  Every failure inside a handler is
 * caught and answered with an error; the services themselves are the
 * `run` parameter.
 */
module PdfServiceApi {
  import opened Wrappers
  import opened Strings
  import opened Bytes
  import PathLib
  import FileUtils
  import SecureService
  import OcrService
  import TranslateService

  /** A request to one of the six endpoints, with its form fields. */
  datatype Endpoint =
    | CompressReq(mode: string, quality: string)
    | ConvertReq(format: string, options: Option<string>)
    | OcrReq(language: string, outputFormat: string)
    | SummarizeReq(length: string, language: string)
    | TranslateReq(targetLanguage: string, sourceLanguage: string, outputFormat: string)
    | SecureReq(action: string, password: Option<string>, watermarkText: Option<string>, watermarkPosition: string)

  /** What the client gets back. */
  datatype Response =
    | FileResponse(filename: string, mediaType: string)
    | ErrorResponse(status: nat, detail: string)
    | MissingField(name: string)
    | NotFound

  // ---------------------------------------------------------------------
  // Form fields

  /**
   * Whether a form field was sent: the framework reads a form value that
   * is the empty string as if the field were absent.
   */
  predicate Sent(fields: map<string, string>, name: string)
  {
    name in fields && fields[name] != ""
  }

  /** An optional form field: the sent value, or None. */
  function Submitted(fields: map<string, string>, name: string): Option<string>
  {
    if Sent(fields, name) then Some(fields[name]) else None
  }

  /** A form field with a default. */
  function FieldOr(fields: map<string, string>, name: string, default: string): string
  {
    if Sent(fields, name) then fields[name] else default
  }

  /**
   * The routing and form parsing done by the framework before a handler
   * runs: an unknown route is not found, a required field (`format`,
   * `target_language`, `action`) that is missing or empty is refused with
   * the field's name, and the other fields, when missing or empty, take
   * their defaults.
   */
  function ParseRequest(route: string, fields: map<string, string>): (r: Result<Endpoint, Response>)
    ensures r.Err? ==> r.error.NotFound? || r.error.MissingField?
    ensures r.Err? && r.error.MissingField? ==> r.error.name in {"format", "target_language", "action"} && !Sent(fields, r.error.name)
  {
    if route == "/compress" then
      Ok(CompressReq(FieldOr(fields, "mode", "whatsapp"), FieldOr(fields, "quality", "medium")))
    else if route == "/convert" then
      if !Sent(fields, "format") then Err(MissingField("format"))
      else Ok(ConvertReq(fields["format"], Submitted(fields, "options")))
    else if route == "/ocr" then
      Ok(OcrReq(FieldOr(fields, "language", "eng"), FieldOr(fields, "output_format", "txt")))
    else if route == "/summarize" then
      Ok(SummarizeReq(FieldOr(fields, "length", "medium"), FieldOr(fields, "language", "en")))
    else if route == "/translate" then
      if !Sent(fields, "target_language") then Err(MissingField("target_language"))
      else Ok(TranslateReq(fields["target_language"], FieldOr(fields, "source_language", "auto"),
                           FieldOr(fields, "output_format", "txt")))
    else if route == "/secure" then
      if !Sent(fields, "action") then Err(MissingField("action"))
      else Ok(SecureReq(fields["action"], Submitted(fields, "password"), Submitted(fields, "watermark_text"),
                        FieldOr(fields, "watermark_position", "center")))
    else Err(NotFound)
  }

  /** With only the required fields submitted, every other field takes its documented default. */
  lemma FormDefaults(format: string, target: string, action: string)
    requires format != "" && target != "" && action != ""
    ensures ParseRequest("/compress", map[]) == Ok(CompressReq("whatsapp", "medium"))
    ensures ParseRequest("/convert", map["format" := format]) == Ok(ConvertReq(format, None))
    ensures ParseRequest("/ocr", map[]) == Ok(OcrReq("eng", "txt"))
    ensures ParseRequest("/summarize", map[]) == Ok(SummarizeReq("medium", "en"))
    ensures ParseRequest("/translate", map["target_language" := target]) == Ok(TranslateReq(target, "auto", "txt"))
    ensures ParseRequest("/secure", map["action" := action]) == Ok(SecureReq(action, None, None, "center"))
    ensures ParseRequest("/convert", map[]) == Err(MissingField("format"))
    ensures ParseRequest("/translate", map[]) == Err(MissingField("target_language"))
    ensures ParseRequest("/secure", map[]) == Err(MissingField("action"))
  {
  }

  /** A sent field is used as it was sent, whatever its default. */
  lemma SubmittedFieldWins(fields: map<string, string>)
    requires "mode" in fields && "quality" in fields
    requires fields["mode"] != "" && fields["quality"] != ""
    ensures ParseRequest("/compress", fields) == Ok(CompressReq(fields["mode"], fields["quality"]))
  {
  }

  /**
   * An empty value counts as no value: an optional field takes its default
   * and a required one is refused as missing.
   */
  lemma EmptyFieldIsMissing(fields: map<string, string>, name: string)
    ensures ParseRequest("/ocr", fields["output_format" := ""]).value.outputFormat == "txt"
    ensures ParseRequest("/compress", fields["mode" := ""]).value.mode == "whatsapp"
    ensures ParseRequest("/convert", fields["format" := ""]) == Err(MissingField("format"))
    ensures ParseRequest("/translate", fields["target_language" := ""]) == Err(MissingField("target_language"))
    ensures ParseRequest("/secure", fields["action" := ""]) == Err(MissingField("action"))
  {
  }

  // ---------------------------------------------------------------------
  // Validation

  const ConvertFormats: set<string> := {"docx", "xlsx", "img", "png", "jpg", "jpeg"}

  /**
   * The first `HTTPException(400)` a handler raises before it runs its
   * service: the upload is not a PDF, convert's format is not one of the
   * six, or secure lacks the password or watermark text its action needs.
   */
  function Precheck(e: Endpoint, valid: bool): Option<string>
  {
    if !valid then Some("Invalid PDF file")
    else match e
      case ConvertReq(format, _) =>
        if format !in ConvertFormats then Some("Unsupported format") else None
      case SecureReq(action, password, watermarkText, _) =>
        if SecureService.WantsPassword(action) && !SecureService.PyTruthy(password) then
          Some("Password required for password protection")
        else if SecureService.WantsWatermark(action) && !SecureService.PyTruthy(watermarkText) then
          Some("Watermark text required for watermark")
        else None
      case _ => None
  }

  /** Convert runs its service exactly for a valid upload and one of the six formats. */
  lemma ConvertFormatGate(format: string, options: Option<string>, valid: bool)
    ensures Precheck(ConvertReq(format, options), valid).None? <==> valid && format in ConvertFormats
  {
  }

  /**
   * The endpoint's checks on a secure request agree with the service's own:
   * for one of the three actions, the endpoint lets a valid upload through
   * exactly when the service would accept it.  An unknown action passes the
   * endpoint and is answered by the service with a copy of the input.
   */
  lemma SecureChecksAgree(action: string, password: Option<string>, watermarkText: Option<string>, position: string)
    ensures action in SecureService.Actions ==>
      (Precheck(SecureReq(action, password, watermarkText, position), true).None?
       <==> SecureService.ValidationError(action, password, watermarkText).None?)
    ensures action in SecureService.Actions && Precheck(SecureReq(action, password, watermarkText, position), true).Some? ==>
      Precheck(SecureReq(action, password, watermarkText, position), true) == SecureService.ValidationError(action, password, watermarkText)
    ensures action !in SecureService.Actions ==> Precheck(SecureReq(action, password, watermarkText, position), true).None?
  {
  }

  // ---------------------------------------------------------------------
  // The served file

  const DocxType: string := "application/vnd.openxmlformats-officedocument.wordprocessingml.document"
  const XlsxType: string := "application/vnd.openxmlformats-officedocument.spreadsheetml.sheet"

  const ConvertMediaTypes: map<string, string> := map[
    "docx" := DocxType, "xlsx" := XlsxType,
    "img" := "image/png", "png" := "image/png",
    "jpg" := "image/jpeg", "jpeg" := "image/jpeg"]

  /** The extension of a translation: the format when it is `txt` or `pdf`, `txt` otherwise. */
  function TranslateExtension(outputFormat: string): (x: string)
    ensures x in {"txt", "pdf"}
    ensures outputFormat in {"txt", "pdf"} ==> x == outputFormat
  {
    if outputFormat in {"txt", "pdf"} then outputFormat else "txt"
  }

  /** The media type a handler serves its result with. */
  function MediaType(e: Endpoint): string
  {
    match e
      case CompressReq(_, _) => "application/pdf"
      case ConvertReq(format, _) =>
        if format in ConvertMediaTypes then ConvertMediaTypes[format] else "application/octet-stream"
      case OcrReq(_, outputFormat) => if outputFormat == "txt" then "text/plain" else DocxType
      case SummarizeReq(_, _) => "text/plain"
      case TranslateReq(_, _, outputFormat) => if outputFormat == "txt" then "text/plain" else "application/pdf"
      case SecureReq(_, _, _, _) => "application/pdf"
  }

  /** The download name a handler gives its result, from the uploaded file's name. */
  function ServedName(e: Endpoint, filename: string): string
  {
    var stem := PathLib.StemOf(filename);
    match e
      case CompressReq(_, _) => "compressed_" + filename
      case ConvertReq(format, _) => "converted_" + (stem + ("." + format))
      case OcrReq(_, outputFormat) => "ocr_" + (stem + ("." + outputFormat))
      case SummarizeReq(_, _) => "summary_" + (stem + ".txt")
      case TranslateReq(_, _, outputFormat) => "translated_" + (stem + ("." + TranslateExtension(outputFormat)))
      case SecureReq(_, _, _, _) => "secured_" + filename
  }

  /** The six convert formats each have their own media type, and none falls back to `application/octet-stream`. */
  lemma ConvertMediaTable(format: string, options: Option<string>)
    requires format in ConvertFormats
    ensures MediaType(ConvertReq(format, options)) != "application/octet-stream"
    ensures MediaType(ConvertReq(format, options)) == "image/png" <==> format in {"img", "png"}
    ensures MediaType(ConvertReq(format, options)) == "image/jpeg" <==> format in {"jpg", "jpeg"}
    ensures format == "docx" ==> MediaType(ConvertReq(format, options)) == DocxType
    ensures format == "xlsx" ==> MediaType(ConvertReq(format, options)) == XlsxType
  {
  }

  /** `ocr` serves plain text exactly for `txt` and the DOCX type for every other format. */
  lemma OcrMediaType(language: string, outputFormat: string)
    ensures MediaType(OcrReq(language, outputFormat)) == "text/plain" <==> outputFormat == "txt"
    ensures outputFormat != "txt" ==> MediaType(OcrReq(language, outputFormat)) == DocxType
  {
  }

  /** `translate` serves plain text exactly for `txt`, and names any format other than `txt` and `pdf` as a `.txt` file. */
  lemma TranslateMediaType(target: string, source: string, outputFormat: string, filename: string)
    ensures MediaType(TranslateReq(target, source, outputFormat)) == "text/plain" <==> outputFormat == "txt"
    ensures outputFormat !in {"txt", "pdf"} ==>
      EndsWith(ServedName(TranslateReq(target, source, outputFormat), filename), ".txt")
  {
    var stem := PathLib.StemOf(filename);
    var name := ServedName(TranslateReq(target, source, outputFormat), filename);
    if outputFormat !in {"txt", "pdf"} {
      assert name == ("translated_" + stem) + ".txt";
    }
  }

  /** The final component of a name without `/`: a stem taken from a path holds no `/`. */
  lemma StemHasNoSlash(filename: string)
    ensures '/' !in PathLib.StemOf(filename)
  {
    var name := PathLib.Name(filename);
    PathLib.NameHasNoSlash(filename);
    var stem := PathLib.Stem(name);
    forall j | 0 <= j < |stem| ensures stem[j] != '/' {
      assert stem[j] == name[j];
    }
  }

  /**
   * A converted file's name carries the requested format as its suffix and
   * the upload's stem after the `converted_` prefix, so the download keeps
   * its directory-free name and the extension the client asked for.
   */
  lemma ConvertedName(filename: string, format: string, options: Option<string>)
    requires format in ConvertFormats
    ensures var n := ServedName(ConvertReq(format, options), filename);
      PathLib.Name(n) == n
      && PathLib.Suffix(n) == "." + format
      && PathLib.Stem(n) == "converted_" + PathLib.StemOf(filename)
  {
    var stem := PathLib.StemOf(filename);
    var base := "converted_" + stem;
    var n := ServedName(ConvertReq(format, options), filename);
    assert n == base + "." + format;
    assert '.' !in format && '/' !in format;
    StemHasNoSlash(filename);
    assert '/' !in n by {
      forall j | 0 <= j < |n| ensures n[j] != '/' {
        if j < |"converted_"| {
        } else if j < |base| {
          assert n[j] == stem[j - |"converted_"|];
        } else if j > |base| {
          assert n[j] == format[j - |base| - 1];
        }
      }
    }
    PathLib.NameOfPlain(n);
    PathLib.SuffixOfAppended(base, format);
  }

  // ---------------------------------------------------------------------
  // Error mapping

  /** What escapes a handler's `try` body: an `HTTPException` or any other exception, by its message. */
  datatype Raised = HttpError(status: nat, detail: string) | Failure(message: string)

  /** `str(e)`: an `HTTPException` reads as its status and detail. */
  function ExceptionText(e: Raised): string
  {
    match e
      case HttpError(status, detail) => NatToString(status) + ": " + detail
      case Failure(message) => message
  }

  /** The word each handler's error detail starts with. */
  function OperationName(e: Endpoint): string
  {
    match e
      case CompressReq(_, _) => "Compression"
      case ConvertReq(_, _) => "Conversion"
      case OcrReq(_, _) => "OCR"
      case SummarizeReq(_, _) => "Summarization"
      case TranslateReq(_, _, _) => "Translation"
      case SecureReq(_, _, _, _) => "Security operation"
  }

  /**
   * What a handler's `try` body raises, if anything: the first failed
   * check, otherwise the service's or the response's failure.  `valid` is
   * `validate_pdf`'s verdict and `outcome` the service run together with
   * the creation of the file response.
   */
  function Raises(e: Endpoint, valid: bool, outcome: Result<(), string>): Option<Raised>
  {
    if Precheck(e, valid).Some? then Some(HttpError(400, Precheck(e, valid).value))
    else if outcome.Err? then Some(Failure(outcome.error))
    else None
  }

  /**
   * A handler as written: whatever the body raises, the `HTTPException(400)`
   * of a failed check included, is caught by `except Exception` and
   * answered with a 500 whose detail embeds the exception's text.
   */
  function RespondAsWritten(e: Endpoint, filename: Option<string>, valid: bool, outcome: Result<(), string>): (r: Response)
    requires valid ==> filename.Some?
    ensures r.ErrorResponse? ==> r.status == 500
    ensures r.FileResponse? <==> Precheck(e, valid).None? && outcome.Ok?
    ensures Precheck(e, valid).Some? ==> r.ErrorResponse? && EndsWith(r.detail, Precheck(e, valid).value)
  {
    var raised := Raises(e, valid, outcome);
    if raised.Some? then ErrorResponse(500, OperationName(e) + " failed: " + ExceptionText(raised.value))
    else FileResponse(ServedName(e, filename.value), MediaType(e))
  }

  /**
   * A handler with the failed checks passed through: a request the handler
   * refuses gets the 400 it raised, a failure of the service or of the
   * response gets a 500 naming the operation, and otherwise the result file
   * is served under its derived name and media type.
   */
  function Respond(e: Endpoint, filename: Option<string>, valid: bool, outcome: Result<(), string>): (r: Response)
    requires valid ==> filename.Some?
    ensures Precheck(e, valid).Some? ==> r == ErrorResponse(400, Precheck(e, valid).value)
    ensures Precheck(e, valid).None? && outcome.Err? ==> r == ErrorResponse(500, OperationName(e) + " failed: " + outcome.error)
    ensures r.FileResponse? <==> Precheck(e, valid).None? && outcome.Ok?
    ensures r.FileResponse? ==> r.filename == ServedName(e, filename.value) && r.mediaType == MediaType(e)
  {
    var raised := Raises(e, valid, outcome);
    if raised.None? then FileResponse(ServedName(e, filename.value), MediaType(e))
    else match raised.value
      case HttpError(status, detail) => ErrorResponse(status, detail)
      case Failure(message) => ErrorResponse(500, OperationName(e) + " failed: " + message)
  }

  /**
   * As written, no handler ever answers 400: a refused upload comes back as
   * a 500 whose detail reads `Compression failed: 400: Invalid PDF file`,
   * where the corrected handler answers 400 `Invalid PDF file`.
   */
  lemma RefusalBecomes500(mode: string, quality: string, filename: Option<string>, outcome: Result<(), string>)
    ensures RespondAsWritten(CompressReq(mode, quality), filename, false, outcome)
         == ErrorResponse(500, "Compression failed: 400: Invalid PDF file")
    ensures Respond(CompressReq(mode, quality), filename, false, outcome) == ErrorResponse(400, "Invalid PDF file")
  {
    RefusalAsWritten(mode, quality, filename, outcome);
    RefusalCorrected(mode, quality, filename, outcome);
  }

  /** The as-written half of `RefusalBecomes500`. */
  lemma RefusalAsWritten(mode: string, quality: string, filename: Option<string>, outcome: Result<(), string>)
    ensures RespondAsWritten(CompressReq(mode, quality), filename, false, outcome)
         == ErrorResponse(500, "Compression failed: 400: Invalid PDF file")
  {
    BadRequestText("Invalid PDF file");
    assert "Compression" + " failed: " + ("400: " + "Invalid PDF file") == "Compression failed: 400: Invalid PDF file";
  }

  /** The corrected half of `RefusalBecomes500`. */
  lemma RefusalCorrected(mode: string, quality: string, filename: Option<string>, outcome: Result<(), string>)
    ensures Respond(CompressReq(mode, quality), filename, false, outcome) == ErrorResponse(400, "Invalid PDF file")
  {
  }

  /** An `HTTPException(400)` reads as `400: ` followed by its detail. */
  lemma BadRequestText(detail: string)
    ensures ExceptionText(HttpError(400, detail)) == "400: " + detail
  {
    assert NatToString(4) == "4";
    assert NatToString(40) == "40";
    assert NatToString(400) == "400";
  }

  /** As written every error is a 500; the two handlers differ only on requests a check refuses. */
  lemma AsWrittenOnly500(e: Endpoint, filename: Option<string>, valid: bool, outcome: Result<(), string>)
    requires valid ==> filename.Some?
    ensures RespondAsWritten(e, filename, valid, outcome).ErrorResponse? ==> RespondAsWritten(e, filename, valid, outcome).status == 500
    ensures Precheck(e, valid).None? ==> RespondAsWritten(e, filename, valid, outcome) == Respond(e, filename, valid, outcome)
    ensures Precheck(e, valid).Some? ==> Respond(e, filename, valid, outcome).status == 400
  {
  }

  /**
   * A handler on an upload: `validate_pdf`, the checks, then the service
   * `run` on a temporary copy of the upload, which is removed afterwards.
   * `run` stands for the service together with `create_file_response`,
   * giving the text of the exception when either raises.
   */
  method Serve(e: Endpoint, upload: FileUtils.Upload, dir: FileUtils.TempDir, tempName: string,
               run: Bytes -> Result<(), string>) returns (r: Response)
    requires tempName !in dir.files
    modifies upload, dir
    ensures dir.files == old(dir.files)
    ensures upload.data == old(upload.data)
    ensures r == Respond(e, upload.filename, FileUtils.PdfAccepted(upload.filename, upload.contentType, old(upload.data), old(upload.closed)),
                         run(old(upload.data)))
  {
    var valid := FileUtils.ValidatePdf(upload);
    var check := Precheck(e, valid);
    if check.Some? {
      return ErrorResponse(400, check.value);
    }
    var outcome := FileUtils.WithTempCopy(upload, dir, tempName, run);
    assert FileUtils.Window(upload.data, 0, |upload.data|) == upload.data;
    if outcome.Err? {
      r := ErrorResponse(500, OperationName(e) + " failed: " + outcome.error);
    } else {
      r := FileResponse(ServedName(e, upload.filename.value), MediaType(e));
    }
  }

  // ---------------------------------------------------------------------
  // The served type against the file the service wrote

  /**
   * For the two documented OCR formats the media type describes the file
   * the service wrote: text for `txt`, a DOCX document for `docx`.
   */
  lemma OcrLabelMatches<Image>(pages: Option<seq<Image>>, ocr: (Image, string) -> Option<string>, language: string,
                               outputFormat: string, inputPath: string, ctime: Option<string>, docxBuilds: bool)
    requires outputFormat in {"txt", "docx"}
    ensures var r := OcrService.OcrResult(pages, ocr, language, outputFormat, inputPath, ctime, docxBuilds);
      (r.OcrText? || (r.OcrPlaceholder? && !r.asDocx) <==> MediaType(OcrReq(language, outputFormat)) == "text/plain")
  {
  }

  /**
   * Any other OCR format is served with the DOCX type although the service
   * wrote plain text: a `pdf` request gets text named `ocr_<stem>.pdf`.
   */
  lemma OcrOtherFormatIsText<Image>(pages: seq<Image>, ocr: (Image, string) -> Option<string>, language: string,
                                    inputPath: string, ctime: string)
    ensures OcrService.OcrResult(Some(pages), ocr, language, "pdf", inputPath, Some(ctime), true).OcrText?
    ensures MediaType(OcrReq(language, "pdf")) == DocxType
  {
  }

  /**
   * A translation asked for as `pdf` whose PDF cannot be built falls back
   * to the text output, which is still served as `application/pdf` under a
   * `.pdf` name.
   */
  lemma TranslatePdfFallbackServedAsPdf(extracted: string, inputPath: string, target: string, source: string,
                                        ctime: string, reprLength: seq<string> -> nat, filename: string)
    requires target in TranslateService.SupportedLanguages && PyStrip(extracted) != ""
    ensures TranslateService.TranslateResult(Some(extracted), inputPath, target, source, "pdf", Some(ctime), false, reprLength).TranslatedText?
  {
    var r := TranslateService.TranslateResult(Some(extracted), inputPath, target, source, "pdf", Some(ctime), false, reprLength);
    assert !r.TranslatePlaceholder? && !r.TranslatedPdf?;
  }

  /** The `pdf` fallback text is labelled as a PDF: served as `application/pdf` under a `.pdf` name. */
  lemma TranslatePdfServedAsPdf(target: string, source: string, filename: string)
    ensures MediaType(TranslateReq(target, source, "pdf")) == "application/pdf"
    ensures EndsWith(ServedName(TranslateReq(target, source, "pdf"), filename), ".pdf")
  {
    var name := ServedName(TranslateReq(target, source, "pdf"), filename);
    assert name == ("translated_" + PathLib.StemOf(filename)) + ".pdf";
  }
}

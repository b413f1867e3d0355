/**
 * The client of the PDF processing service: the request each operation
 * posts, how a response is turned into a result array, the filename taken
 * from `Content-Disposition`, and the round trip through storage that
 * `processS3File` performs.
 */
module MicroserviceClient {
  import opened Wrappers
  import opened Strings
  import opened Bytes
  import opened PdfOps
  import Http
  import Storage
  import FileDownload
  import CommandParser
  import JobHooks

  type Params = map<string, string>

  // ---------------------------------------------------------------------
  // Requests

  /** PHP `array_merge($defaults, $options)` on string keys: the caller's values win. */
  function WithDefaults(defaults: Params, options: Params): (r: Params)
    ensures r.Keys == defaults.Keys + options.Keys
    ensures forall k :: k in options ==> r[k] == options[k]
    ensures forall k :: k in defaults && k !in options ==> r[k] == defaults[k]
  {
    defaults + options
  }

  const CompressDefaults: Params := map["mode" := "whatsapp", "quality" := "medium"]
  const OcrDefaults: Params := map["language" := "eng", "output_format" := "txt"]
  const SummarizeDefaults: Params := map["length" := "medium", "language" := "en"]

  /** The formats `convertPdf` accepts. */
  const SupportedFormats: set<string> := {"docx", "xlsx", "img", "png", "jpg", "jpeg"}

  /** `securePdf`: the security type, plus the password and the watermark text when truthy. */
  function SecureOptions(securityType: string, password: Option<string>, watermarkText: Option<string>): (r: Params)
    ensures "security_type" in r && r["security_type"] == securityType
    ensures ("password" in r) <==> Truthy(password)
    ensures "password" in r ==> r["password"] == password.value
    ensures ("watermark_text" in r) <==> Truthy(watermarkText)
    ensures "watermark_text" in r ==> r["watermark_text"] == watermarkText.value
    ensures r.Keys <= {"security_type", "password", "watermark_text"}
  {
    var withPassword := if Truthy(password) then map["security_type" := securityType, "password" := password.value]
                        else map["security_type" := securityType];
    if Truthy(watermarkText) then withPassword["watermark_text" := watermarkText.value] else withPassword
  }

  /** A request to the service: the endpoint and the form fields. */
  datatype Request = Request(endpoint: string, options: Params)

  /**
   * The request each public method of the client posts for a call, or
   * the exception `convertPdf` throws for a format it does not support.
   */
  function RequestFor(call: JobHooks.RemoteCall): (r: Result<Request, string>)
    ensures r.Ok? ==> r.value.endpoint == TypeName(JobHooks.CallOp(call))
    ensures r.Err? <==> call.ConvertCall? && call.format !in SupportedFormats
  {
    match call
    case CompressCall(_, options) => Ok(Request("compress", WithDefaults(CompressDefaults, options)))
    case ConvertCall(_, format, options) =>
      if format in SupportedFormats then Ok(Request("convert", WithDefaults(map["format" := format], options)))
      else Err("Unsupported format: " + format)
    case OcrCall(_, options) => Ok(Request("ocr", WithDefaults(OcrDefaults, options)))
    case SummarizeCall(_, options) => Ok(Request("summarize", WithDefaults(SummarizeDefaults, options)))
    case TranslateCall(_, target) =>
      Ok(Request("translate", map["target_language" := target, "source_language" := "auto", "output_format" := "txt"]))
    case SecureCall(_, securityType, password, watermarkText) =>
      Ok(Request("secure", SecureOptions(securityType, password, watermarkText)))
  }

  // ---------------------------------------------------------------------
  // Responses

  /** An error as `makeRequest` reports it: a message, or the raw response body. */
  datatype ErrorText = Message(text: string) | RawBody(body: Bytes)

  /**
   * The array `makeRequest` returns (and `processS3File` passes on): a
   * file, a JSON document, or a failure with the HTTP status when there
   * was one.  `outputPath` is the `s3_output_path` key.
   */
  datatype ServiceResult =
    | FileResult(content: Bytes, contentType: string, filename: string, size: nat, outputPath: Option<string>)
    | DataResult(data: Http.JsonDoc)
    | Failure(error: ErrorText, status: Option<int>)
  {
    predicate Success() { !Failure? }
  }

  /** A content type `makeRequest` treats as a file. */
  predicate IsFileContentType(contentType: string)
  {
    Contains(contentType, "application/") || Contains(contentType, "text/")
  }

  /** `$response->json()['detail'] ?? $response->body()`. */
  function ErrorOf(response: Http.Response): ErrorText
  {
    if response.json.JsonObject? && response.json.detail.Some? then Message(response.json.detail.value)
    else RawBody(response.body)
  }

  /**
   * `makeRequest`: a missing local file and a failed connection become
   * failures with the exception's message; a 2xx response becomes a file
   * or a JSON result by its content type; any other status a failure.
   */
  function MakeRequest(filePath: string, fileExists: bool, outcome: Http.Outcome): ServiceResult
  {
    if !fileExists then Failure(Message("File not found: " + filePath), None)
    else match outcome
      case ConnectionFailed(message) => Failure(Message(message), None)
      case Responded(response) =>
        if !Http.Successful(response) then Failure(ErrorOf(response), Some(response.status))
        else if IsFileContentType(response.contentType) then
          FileResult(response.body, response.contentType, ExtractFilename(response.contentDisposition), |response.body|, None)
        else DataResult(response.json)
  }

  // ---------------------------------------------------------------------
  // The filename in Content-Disposition

  /** `filename="`: the text the pattern `/filename="([^"]+)"/` starts with. */
  const FilenameOpening: string := "filename=\""

  /** The first `"` at or after `k`, or the end of `s`. */
  function QuoteFrom(s: string, k: nat): (q: nat)
    requires k <= |s|
    ensures k <= q <= |s|
    ensures q < |s| ==> s[q] == '"'
    ensures forall j :: k <= j < q ==> s[j] != '"'
    decreases |s| - k
  {
    if k == |s| then k else if s[k] == '"' then k else QuoteFrom(s, k + 1)
  }

  /** The pattern matches at `i`: the opening, at least one non-quote character, a closing quote. */
  predicate FilenameMatchAt(d: string, i: int)
  {
    && OccursAt(d, FilenameOpening, i)
    && var q := QuoteFrom(d, i + 10);
    q < |d| && q > i + 10
  }

  /** The leftmost match at or after `i`. */
  function FirstMatchFrom(d: string, i: nat): (m: Option<nat>)
    ensures m.Some? ==> i <= m.value && FilenameMatchAt(d, m.value)
    ensures m.Some? ==> forall k :: i <= k < m.value ==> !FilenameMatchAt(d, k)
    ensures m.None? ==> forall k :: i <= k ==> !FilenameMatchAt(d, k)
    decreases |d| + 1 - i
  {
    if i > |d| then None
    else if FilenameMatchAt(d, i) then Some(i)
    else FirstMatchFrom(d, i + 1)
  }

  /**
   * `extractFilenameFromResponse`: the capture of the leftmost match of
   * `/filename="([^"]+)"/`, or `processed_file`.
   */
  function ExtractFilename(d: string): (name: string)
    ensures FirstMatchFrom(d, 0).None? ==> name == "processed_file"
    ensures FirstMatchFrom(d, 0).Some? ==>
      name != [] && '"' !in name && Contains(d, FilenameOpening + name + "\"")
  {
    var m := FirstMatchFrom(d, 0);
    if m.None? then "processed_file"
    else
      var i := m.value;
      var q := QuoteFrom(d, i + 10);
      var name := d[i + 10..q];
      assert '"' !in name by {
        forall j | 0 <= j < |name| ensures name[j] != '"' { assert name[j] == d[i + 10 + j]; }
      }
      assert d[i..q + 1] == FilenameOpening + name + "\"";
      assert OccursAt(d, FilenameOpening + name + "\"", i);
      name
  }

  // ---------------------------------------------------------------------
  // Health and service information

  datatype Health =
    | Healthy(data: Http.JsonDoc)
    /** Reported as `HTTP {status}: {body}`. */
    | Unhealthy(status: int, body: Bytes)
    | Unreachable(error: string)

  /** `healthCheck`. */
  function HealthOf(outcome: Http.Outcome): (h: Health)
    ensures h.Healthy? <==> outcome.Responded? && Http.Successful(outcome.response)
    ensures h.Unreachable? <==> outcome.ConnectionFailed?
  {
    match outcome
    case ConnectionFailed(message) => Unreachable(message)
    case Responded(response) =>
      if Http.Successful(response) then Healthy(response.json) else Unhealthy(response.status, response.body)
  }

  /** `getServiceInfo`: available with the document, or the reason it is not. */
  function ServiceInfoOf(outcome: Http.Outcome): (r: Result<Http.JsonDoc, string>)
    ensures r.Ok? <==> outcome.Responded? && Http.Successful(outcome.response)
    ensures outcome.Responded? && !Http.Successful(outcome.response) ==>
      r == Err("HTTP " + IntToString(outcome.response.status))
  {
    match outcome
    case ConnectionFailed(message) => Err(message)
    case Responded(response) =>
      if Http.Successful(response) then Ok(response.json) else Err("HTTP " + IntToString(response.status))
  }

  /** The OCR languages the client advertises. */
  const SupportedOcrLanguages: map<string, string> := map[
    "eng" := "English", "fra" := "French", "spa" := "Spanish", "deu" := "German",
    "ita" := "Italian", "por" := "Portuguese", "rus" := "Russian",
    "chi_sim" := "Chinese Simplified", "chi_tra" := "Chinese Traditional",
    "jpn" := "Japanese", "kor" := "Korean"]

  /** The translation languages the client advertises. */
  const SupportedTranslationLanguages: map<string, string> := map[
    "en" := "English", "fr" := "French", "es" := "Spanish", "de" := "German",
    "it" := "Italian", "pt" := "Portuguese", "ru" := "Russian", "zh" := "Chinese",
    "ja" := "Japanese", "ko" := "Korean", "ar" := "Arabic", "hi" := "Hindi"]

  // ---------------------------------------------------------------------
  // The client

  class PdfMicroserviceClient {
    const downloads: FileDownload.FileDownloadService
    const storage: Storage.StorageService
    /** The requests posted to the service, in order. */
    var sent: seq<(Request, Bytes)>

    constructor(downloads: FileDownload.FileDownloadService, storage: Storage.StorageService)
      ensures this.downloads == downloads && this.storage == storage && sent == []
    {
      this.downloads := downloads;
      this.storage := storage;
      sent := [];
    }

    /**
     * `processS3File` as written: the stored object is copied to a
     * temporary file (`tempName`), posted with the request, and the
     * temporary file removed; `outcome` is the service's answer.  The
     * result is `makeRequest`'s array unchanged, because the upload step
     * waits for a `file_path` key that `makeRequest` never sets.
     */
    method ProcessS3FileAsWritten(request: Request, s3Path: string, tempName: string, now: int, outcome: Http.Outcome)
      returns (r: Result<ServiceResult, string>)
      requires downloads.sysTemp.present
      modifies this, downloads.sysTemp
      ensures r.Err? <==> !FileDownload.StoredTruthy(downloads.disk.blobs, s3Path)
      ensures r.Err? ==> r.error == "File not found in storage: " + s3Path
      ensures r.Err? ==> sent == old(sent) && downloads.sysTemp.entries == old(downloads.sysTemp.entries)
      ensures r.Ok? ==> r.value == MakeRequest(tempName, true, outcome)
      ensures r.Ok? ==> sent == old(sent) + [(request, downloads.disk.blobs[s3Path].content)]
      ensures r.Ok? ==> downloads.sysTemp.entries == old(downloads.sysTemp.entries) - {tempName}
      ensures downloads.sysTemp.present
    {
      var temp := downloads.DownloadFromStorage(s3Path, tempName, now);
      if temp.Err? {
        return Err(temp.error);
      }
      sent := sent + [(request, downloads.disk.blobs[s3Path].content)];
      var result := MakeRequest(tempName, true, outcome);
      var _ := downloads.sysTemp.Unlink(tempName, false);
      r := Ok(result);
    }

    /**
     * `processS3File` with the upload step reading what `makeRequest`
     * returns: a file result is stored under
     * `processed/{endpoint}/{original name}_{uniq}.{extension}` and its
     * key reported as `outputPath`; `outputPut` is the disk's answer to
     * that write.  The temporary copy is removed whatever happens after it
     * is made.
     */
    method ProcessS3File(request: Request, s3Path: string, tempName: string, uniq: string, now: int, outcome: Http.Outcome,
                         outputPut: Storage.PutAnswer)
      returns (r: Result<ServiceResult, string>)
      requires downloads.sysTemp.present
      modifies this, downloads.sysTemp, storage.disk
      ensures !FileDownload.StoredTruthy(old(downloads.disk.blobs), s3Path) ==>
        && r == Err("File not found in storage: " + s3Path)
        && sent == old(sent) && downloads.sysTemp.entries == old(downloads.sysTemp.entries)
        && storage.disk.blobs == old(storage.disk.blobs)
      ensures FileDownload.StoredTruthy(old(downloads.disk.blobs), s3Path) ==>
        && sent == old(sent) + [(request, old(downloads.disk.blobs)[s3Path].content)]
        && downloads.sysTemp.entries == old(downloads.sysTemp.entries) - {tempName}
        && Uploaded(MakeRequest(tempName, true, outcome), r, request.endpoint, s3Path, uniq, outputPut,
                    old(storage.disk.blobs), storage.disk.blobs)
      ensures downloads.sysTemp.present
    {
      var temp := downloads.DownloadFromStorage(s3Path, tempName, now);
      if temp.Err? {
        return Err(temp.error);
      }
      sent := sent + [(request, downloads.disk.blobs[s3Path].content)];
      var plain := MakeRequest(tempName, true, outcome);
      r := UploadResult(plain, request.endpoint, s3Path, uniq, outputPut);
      var _ := downloads.sysTemp.Unlink(tempName, false);
    }

    /**
     * The upload step: a file result is stored and its key recorded; an
     * exception from the disk is rethrown with the upload's prefix.
     */
    method UploadResult(plain: ServiceResult, endpoint: string, s3Path: string, uniq: string, answer: Storage.PutAnswer)
      returns (r: Result<ServiceResult, string>)
      modifies storage.disk
      ensures Uploaded(plain, r, endpoint, s3Path, uniq, answer, old(storage.disk.blobs), storage.disk.blobs)
    {
      r := Ok(plain);
      if plain.FileResult? {
        var key := OutputKey(endpoint, s3Path, uniq, plain.filename);
        var stored := storage.StoreFileContent(key, plain.content, plain.contentType, answer);
        if stored.Err? {
          return Err(UploadFailure + stored.error);
        }
        r := Ok(plain.(outputPath := Some(key)));
      }
    }
  }

  /** The message `uploadFileToS3` rethrows a storage exception with. */
  const UploadFailure: string := "Failed to upload file to S3: "

  /**
   * The upload step's effect: a file result is written under its key with
   * its content and content type, and gains that key unless the disk
   * throws, in which case the step fails with the disk's message; any
   * other result, and the disk, are left as they are.
   */
  ghost predicate Uploaded(plain: ServiceResult, r: Result<ServiceResult, string>, endpoint: string, s3Path: string,
                           uniq: string, answer: Storage.PutAnswer,
                           before: map<string, Storage.Blob>, after: map<string, Storage.Blob>)
  {
    if plain.FileResult? then
      var key := OutputKey(endpoint, s3Path, uniq, plain.filename);
      && after == Storage.AfterPut(before, key, Storage.Blob(plain.content, true, Some(plain.contentType)), answer)
      && (answer.Throws? ==> r == Err(UploadFailure + answer.message))
      && (!answer.Throws? ==> r == Ok(plain.(outputPath := Some(key))))
    else r == Ok(plain) && after == before
  }

  /** Where a processed file is stored: `processed/{endpoint}/{name}_{uniq}.{extension}`. */
  function OutputKey(endpoint: string, s3Path: string, uniq: string, filename: string): (key: string)
    ensures StartsWith(key, "processed/" + endpoint + "/")
  {
    var key := "processed/" + endpoint + "/" + Storage.PathInfoOf(s3Path).filename + "_" + uniq
      + "." + Storage.PathInfoOf(filename).extension.GetOr("");
    assert key[..|"processed/" + endpoint + "/"|] == "processed/" + endpoint + "/";
    key
  }

  // ---------------------------------------------------------------------
  // Properties

  /** `makeRequest` succeeds exactly on a 2xx answer to a request whose local file exists. */
  lemma MakeRequestSucceedsIff(filePath: string, fileExists: bool, outcome: Http.Outcome)
    ensures MakeRequest(filePath, fileExists, outcome).Success() <==>
      fileExists && outcome.Responded? && Http.Successful(outcome.response)
    ensures MakeRequest(filePath, fileExists, outcome).FileResult? ==>
      MakeRequest(filePath, fileExists, outcome).size == |MakeRequest(filePath, fileExists, outcome).content|
  {
  }

  /**
   * As written, no result of `makeRequest` carries `s3_output_path`: a
   * job reading that key after a successful call hits an undefined key.
   */
  lemma MakeRequestHasNoOutputPath(filePath: string, fileExists: bool, outcome: Http.Outcome)
    ensures MakeRequest(filePath, fileExists, outcome).FileResult? ==>
      MakeRequest(filePath, fileExists, outcome).outputPath.None?
  {
  }

  /** The filename a header written as `filename="{name}"` carries is read back. */
  lemma ExtractFilenameRoundTrip(name: string)
    requires name != [] && '"' !in name
    ensures ExtractFilename(FilenameOpening + name + "\"") == name
  {
    var d := FilenameOpening + name + "\"";
    assert d[..10] == FilenameOpening;
    assert OccursAt(d, FilenameOpening, 0);
    var q := QuoteFrom(d, 10);
    assert d[10 + |name|] == '"';
    assert forall j :: 10 <= j < 10 + |name| ==> d[j] == name[j - 10];
    assert q == 10 + |name|;
    assert FilenameMatchAt(d, 0);
    assert d[10..q] == name;
  }

  /** A header with no `"` at all yields the default name. */
  lemma ExtractFilenameWithoutQuote(d: string)
    requires '"' !in d
    ensures ExtractFilename(d) == "processed_file"
  {
  }

  /** Every format a parsed convert command can carry is one `convertPdf` accepts. */
  lemma ParsedFormatsSupported()
    ensures CommandParser.Canonical(Convert) <= SupportedFormats
  {
  }

  /** Every target language a parsed translate command can carry is one the client advertises. */
  lemma ParsedLanguagesAdvertised()
    ensures forall l :: l in CommandParser.Canonical(Translate) ==> l in SupportedTranslationLanguages
  {
  }

  /**
   * The secure request carries the password exactly when the job has a
   * password the PHP test `if ($password)` accepts.
   */
  lemma SecureRequestCarriesPassword(s3Path: string, securityType: string, password: Option<string>, watermarkText: Option<string>)
    ensures var r := RequestFor(JobHooks.SecureCall(s3Path, securityType, password, watermarkText));
      r.Ok? && (("password" in r.value.options) <==> Truthy(password))
  {
  }
}

/**
 * The PDF job lifecycle shared by the six job classes: a task job moves
 * from pending to running and ends completed or failed.  The steps run in
 * a fixed order: download the user's file, store it, have it processed
 * (or fall back to a placeholder), deliver the result, record completion.
 * The first failure skips the remaining steps and records the failure.
 * Old temporary files are swept on every path.
 */
module PdfJobs {
  import opened Wrappers
  import opened Strings
  import opened Bytes
  import opened PdfOps
  import Http
  import Storage
  import FileDownload
  import MicroserviceClient
  import JobHooks
  import Records
  import Messaging

  type Params = JobHooks.Params

  /** What the outside world answers during one run of a job. */
  datatype World = World(
    /** The clock when the job starts, during its steps, and when it ends. */
    started: int, now: int, finished: int,
    /** `Y-m-d_H-i-s` of the clock and the MD5 (hex) of the document id and that stamp. */
    stamp: string, digest: string,
    /** `uniqid()` of the download file, the media URL's answer, and the type `finfo` reports. */
    downloadUniq: string, download: Http.Outcome, sniffedMime: string,
    /** `services.pdf_microservice.enabled`. */
    enabled: bool,
    /** `tempnam()` of the service upload, `uniqid()` of the output key, and the service's answer. */
    tempName: string, outputUniq: string, service: Http.Outcome,
    /** The disk's signed link (absent when signing fails) and its public URL prefix. */
    signedUrl: Option<string>, urlBase: string,
    /** The provider's answers to the media message and to a text message. */
    mediaAccepted: bool, textAccepted: bool,
    /** Temporary files the system refuses to delete during the sweep. */
    refused: set<string>,
    /** The disk's answers to the writes of the input, of the service's output and of the placeholder. */
    inputPut: Storage.PutAnswer, outputPut: Storage.PutAnswer, placeholderPut: Storage.PutAnswer,
    /** A database update that throws, each time it is attempted. */
    dbFault: Option<DbFault>)

  /** The database updates of a run after the download, each of which can throw. */
  datatype DbWrite =
    | RecordInput              // the document's `s3_path` and `file_size` (`uploadToStorage`)
    | RecordOutput             // the document's output path and size (`processPdf`, `createPlaceholderResult`)
    | RecordCompletion         // the task job's completion (`markCompleted`)
    | RecordCompletedDocument  // the document's `completed` status (`markCompleted`, after the task job)

  /** An update that throws, and its message. */
  datatype DbFault = DbFault(at: DbWrite, message: string)

  /** The message the update `at` throws with in world `w`, if it throws. */
  function DbThrows(w: World, at: DbWrite): Option<string>
  {
    match w.dbFault
    case Some(f) => if f.at == at then Some(f.message) else None
    case None => None
  }

  /** A world in which every write is stored and no update throws. */
  predicate Reliable(w: World)
  {
    w.inputPut.Stored? && w.outputPut.Stored? && w.placeholderPut.Stored? && w.dbFault.None?
  }

  const NoMediaUrl: string := "No media URL found in document metadata"
  const DeliveryApology: string := "❌ Traitement terminé mais erreur d'envoi. Veuillez réessayer."
  const FailureNotice: string := "❌ Erreur lors du traitement de votre PDF. Veuillez réessayer."

  /** The age, in minutes, beyond which the job sweeps temporary files. */
  const CleanupMinutes: int := 60

  // ---------------------------------------------------------------------
  // Specification of the steps

  /** `metadata['media_url'] ?? null`. */
  function MediaUrl(row: Records.DocumentRow): Option<string>
  {
    if "media_url" in row.metadata then Some(row.metadata["media_url"]) else None
  }

  /**
   * Why the first step throws, if it does: no usable media URL, or the
   * download service's error.
   */
  function StartFailure(row: Records.DocumentRow, maxFileSize: nat, maxSizeText: string, w: World): Option<string>
  {
    if !Truthy(MediaUrl(row)) then Some(NoMediaUrl)
    else FileDownload.DownloadError(w.download, maxFileSize, maxSizeText, w.sniffedMime)
  }

  /** `generateStorageFilename`: `{stamp}_{type}_{8 hex digits}.pdf`. */
  function StorageFilename(stamp: string, op: OpType, digest: string): (name: string)
    ensures StartsWith(name, stamp + "_" + TypeName(op) + "_")
    ensures EndsWith(name, ".pdf")
  {
    var lead := stamp + "_" + TypeName(op) + "_";
    var name := lead + Storage.Prefix8(digest) + ".pdf";
    assert name[..|lead|] == lead;
    assert name[|name| - 4..] == ".pdf";
    name
  }

  /** The key the uploaded input is stored under. */
  function StorageKey(stamp: string, op: OpType, digest: string): (key: string)
    ensures StartsWith(key, "documents/" + stamp + "_" + TypeName(op) + "_")
    ensures EndsWith(key, ".pdf")
  {
    var name := StorageFilename(stamp, op, digest);
    var key := "documents/" + name;
    var lead := stamp + "_" + TypeName(op) + "_";
    assert key[..10 + |lead|] == "documents/" + name[..|lead|];
    assert key[|key| - 4..] == name[|name| - 4..];
    key
  }

  /**
   * What a job class supplies besides its remote call, evaluated once for
   * the run: the placeholder text, the placeholder extension and the
   * caption.  None of their inputs (the parameters, the original name,
   * the recorded duration) changes before the caption is used.
   */
  datatype Hooks = Hooks(placeholder: string, extension: string, caption: string)

  /** The hooks of the job class for `op`. */
  function HooksOf(op: OpType, params: Params, originalName: string, seconds: Option<int>): Hooks
  {
    Hooks(JobHooks.PlaceholderContent(op, params, originalName), JobHooks.PlaceholderExtension(op, params),
          JobHooks.Caption(op, params, seconds))
  }

  /** A processing result: where it is stored, the size recorded for it, and the stored object. */
  datatype Output = Output(path: string, size: nat, blob: Storage.Blob)

  /**
   * `createPlaceholderResult`: the placeholder text, stored next to the
   * input under the suffix `_{type}{placeholder extension}`; its recorded
   * size is its length in bytes.
   */
  function PlaceholderOutput(op: OpType, hooks: Hooks, s3Path: string): Output
  {
    var content := Utf8(hooks.placeholder);
    Output(Storage.ProcessedKey(s3Path, "_" + TypeName(op) + hooks.extension), |content|, Storage.Blob(content, true, None))
  }

  /**
   * The service's file, when it is adopted: the service is enabled, the
   * request can be built, the input can be read back from storage
   * (`stored`), the service answers with a file, and the disk does not
   * throw when that file is written.
   */
  function ServiceOutput(op: OpType, params: Params, s3Path: string, stored: bool, w: World): Option<Output>
  {
    if !w.enabled then None
    else match MicroserviceClient.RequestFor(JobHooks.RemoteCallFor(op, params, s3Path))
      case Err(_) => None
      case Ok(request) =>
        if !stored then None
        else match MicroserviceClient.MakeRequest(w.tempName, true, w.service)
          case FileResult(content, contentType, filename, size, _) =>
            if w.outputPut.Throws? then None
            else Some(Output(MicroserviceClient.OutputKey(request.endpoint, s3Path, w.outputUniq, filename), size,
                             Storage.Blob(content, true, Some(contentType))))
          case _ => None
  }

  /** The result `processPdf` records when no write fails: the service's file when adopted, the placeholder otherwise. */
  function Processed(op: OpType, params: Params, hooks: Hooks, s3Path: string, stored: bool, w: World): Output
  {
    match ServiceOutput(op, params, s3Path, stored, w)
    case Some(out) => out
    case None => PlaceholderOutput(op, hooks, s3Path)
  }

  /**
   * What a step after the download leaves: its value or the exception
   * that escapes it, the document's attributes, and the disk.  An Eloquent
   * `update` fills the attributes before it saves them, so an update that
   * throws still leaves them filled, and `markFailed`'s own update saves
   * them.
   */
  datatype Step<T> = Step(result: Result<T, string>, doc: Records.DocumentRow, blobs: map<string, Storage.Blob>)

  /** The document with `out` recorded as its result. */
  function Filled(doc: Records.DocumentRow, out: Output): Records.DocumentRow
  {
    doc.(s3OutputPath := Some(out.path), outputFileSize := Some(out.size))
  }

  /**
   * `uploadToStorage` on the downloaded `body`: the disk's exception ends
   * the step first; otherwise the document records the key and size, and
   * the update's exception, if any, ends the step.
   */
  function UploadStep(op: OpType, body: Bytes, doc0: Records.DocumentRow, blobs0: map<string, Storage.Blob>, w: World)
    : Step<string>
  {
    var key := StorageKey(w.stamp, op, w.digest);
    if w.inputPut.Throws? then Step(Err(w.inputPut.message), doc0, blobs0)
    else
      var doc := doc0.(s3Path := Some(key), fileSize := Some(|body|));
      var blobs := Storage.AfterPut(blobs0, key, Storage.Blob(body, true, None), w.inputPut);
      match DbThrows(w, RecordInput)
      case Some(m) => Step(Err(m), doc, blobs)
      case None => Step(Ok(key), doc, blobs)
  }

  /**
   * `createPlaceholderResult`: the placeholder is written, then recorded
   * on the document; either can throw.  Where `processPdf` retries it
   * after a first failure, the same write fails the same way and leaves
   * the same state, so one attempt stands for both.
   */
  function PlaceholderStep(op: OpType, hooks: Hooks, s3Path: string, w: World,
                           doc0: Records.DocumentRow, blobs0: map<string, Storage.Blob>): Step<Output>
  {
    var out := PlaceholderOutput(op, hooks, s3Path);
    if w.placeholderPut.Throws? then Step(Err(w.placeholderPut.message), doc0, blobs0)
    else
      var doc := Filled(doc0, out);
      var blobs := Storage.AfterPut(blobs0, out.path, out.blob, w.placeholderPut);
      match DbThrows(w, RecordOutput)
      case Some(m) => Step(Err(m), doc, blobs)
      case None => Step(Ok(out), doc, blobs)
  }

  /**
   * `processPdf`: the service's file when it is adopted and recorded;
   * otherwise, including when recording it throws, the placeholder step,
   * whose exception is the only one that escapes.
   */
  function ProcessStep(op: OpType, params: Params, hooks: Hooks, s3Path: string, w: World,
                       doc0: Records.DocumentRow, blobs0: map<string, Storage.Blob>): Step<Output>
  {
    match ServiceOutput(op, params, s3Path, FileDownload.StoredTruthy(blobs0, s3Path), w)
    case Some(out) =>
      var doc := Filled(doc0, out);
      var blobs := Storage.AfterPut(blobs0, out.path, out.blob, w.outputPut);
      if DbThrows(w, RecordOutput).None? then Step(Ok(out), doc, blobs)
      else PlaceholderStep(op, hooks, s3Path, w, doc, blobs)
    case None => PlaceholderStep(op, hooks, s3Path, w, doc0, blobs0)
  }

  /** The key of a step's output, or its exception. */
  function PathOf(r: Result<Output, string>): Result<string, string>
  {
    match r
    case Ok(out) => Ok(out.path)
    case Err(m) => Err(m)
  }

  /** The exception `markCompleted` raises: the task job's update's, else the document's. */
  function CompletionFault(w: World): Option<string>
  {
    if DbThrows(w, RecordCompletion).Some? then DbThrows(w, RecordCompletion) else DbThrows(w, RecordCompletedDocument)
  }

  /** `markCompleted`'s update of the task job: status, end, duration, and the success metadata naming `outputPath`. */
  function Completion(job: Records.TaskJobRow, outputPath: Option<string>, w: World): Records.TaskJobRow
  {
    var t := Elapsed(job.startedAt, w.finished);
    job.(status := Records.Completed, completedAt := Some(w.finished), processingTimeSeconds := Some(t),
         resultMetadata := Some(Records.ResultMetadata(true, t, outputPath)))
  }

  /** `markFailed`'s update of the task job: status, end, duration and message; the result metadata stays. */
  function Failure(job: Records.TaskJobRow, message: string, w: World): Records.TaskJobRow
  {
    job.(status := Records.Failed, completedAt := Some(w.finished),
         processingTimeSeconds := Some(Elapsed(job.startedAt, w.finished)), errorMessage := Some(message))
  }

  /** The link sent for a stored result. */
  function ResultUrl(path: string, w: World): string
  {
    Storage.TemporaryUrl(w.signedUrl, w.urlBase + path)
  }

  /** `sendResult`: the media message, followed by one apology when the provider refuses it. */
  function Delivery(to: string, url: string, caption: string, accepted: bool): seq<Messaging.Message>
  {
    [Messaging.Media(to, url, Some(caption))] + if accepted then [] else [Messaging.Text(to, DeliveryApology)]
  }

  /** Carbon's `diffInSeconds` against the start; a missing start compares the clock with itself. */
  function Elapsed(startedAt: Option<int>, now: int): (t: nat)
    ensures startedAt.None? ==> t == 0
    ensures startedAt.Some? && startedAt.value <= now ==> t == now - startedAt.value
  {
    match startedAt
    case None => 0
    case Some(s) => if s <= now then now - s else s - now
  }

  /** `isValidPdf`: the file exists and its first four bytes are `%PDF`. */
  predicate IsValidPdf(fileExists: bool, content: Bytes)
  {
    fileExists && |content| >= 4 && content[..4] == FileDownload.PdfHeader
  }

  /** `getResultFileExtension`: the extension matching the first content type found, `.pdf` by default. */
  function ResultFileExtension(contentType: string): (ext: string)
    ensures ext in {".pdf", ".docx", ".xlsx", ".txt", ".png"}
    ensures Contains(contentType, "application/pdf") ==> ext == ".pdf"
    ensures ext == ".png" ==> Contains(contentType, "image/")
    ensures ext == ".txt" ==> Contains(contentType, "text/plain")
  {
    if Contains(contentType, "application/pdf") then ".pdf"
    else if Contains(contentType, "application/vnd.openxmlformats-officedocument.wordprocessingml.document") then ".docx"
    else if Contains(contentType, "application/vnd.openxmlformats-officedocument.spreadsheetml.sheet") then ".xlsx"
    else if Contains(contentType, "text/plain") then ".txt"
    else if Contains(contentType, "image/") then ".png"
    else ".pdf"
  }

  // ---------------------------------------------------------------------
  // What a run leaves behind

  /**
   * What the steps inside the `try` leave: the exception that ends them
   * (none when the run completes), the document's attributes, the disk,
   * the result sent to the user (whose completion `markCompleted` then
   * fills in), and the downloaded content left in the temporary directory
   * when the upload step fails before removing it.
   */
  datatype Outcome = Outcome(failure: Option<string>, doc: Records.DocumentRow, blobs: map<string, Storage.Blob>,
                             delivered: Option<string>, kept: Option<Bytes>)

  /** The steps after a successful download of `body`, in order; the first exception skips the rest. */
  function AfterDownload(op: OpType, params: Params, hooks: Hooks, body: Bytes,
                         doc0: Records.DocumentRow, blobs0: map<string, Storage.Blob>, w: World): Outcome
  {
    var up := UploadStep(op, body, doc0, blobs0, w);
    match up.result
    case Err(m) => Outcome(Some(m), up.doc, up.blobs, None, Some(body))
    case Ok(key) =>
      var p := ProcessStep(op, params, hooks, key, w, up.doc, up.blobs);
      match p.result
      case Err(m) => Outcome(Some(m), p.doc, p.blobs, None, None)
      case Ok(out) =>
        var doc := if DbThrows(w, RecordCompletion).Some? then p.doc else p.doc.(status := "completed");
        Outcome(CompletionFault(w), doc, p.blobs, Some(out.path), None)
  }

  /** The steps of a run: the download's failure, or the steps after it. */
  function RunOutcome(op: OpType, params: Params, hooks: Hooks, doc0: Records.DocumentRow,
                      blobs0: map<string, Storage.Blob>, maxFileSize: nat, maxSizeText: string, w: World): Outcome
  {
    match StartFailure(doc0, maxFileSize, maxSizeText, w)
    case Some(m) => Outcome(Some(m), doc0, blobs0, None, None)
    case None =>
      FileDownload.DownloadedFileWithinLimit(w.download, maxFileSize, maxSizeText, w.sniffedMime);
      AfterDownload(op, params, hooks, w.download.response.body, doc0, blobs0, w)
  }

  /** The task job after the run: the completion when it was reached, then `markFailed`'s update when the run failed. */
  function FinalJob(job0: Records.TaskJobRow, o: Outcome, w: World): Records.TaskJobRow
  {
    var job := if o.delivered.Some? then Completion(job0, o.doc.s3OutputPath, w) else job0;
    match o.failure
    case Some(m) => Failure(job, m, w)
    case None => job
  }

  /** The document after the run: `markFailed` marks it failed. */
  function FinalDoc(o: Outcome): Records.DocumentRow
  {
    if o.failure.Some? then o.doc.(status := "failed") else o.doc
  }

  /** The messages after the run: the result when one was sent, then the failure notice when the run failed. */
  function FinalSent(sent0: seq<Messaging.Message>, replyTo: string, hooks: Hooks, o: Outcome, w: World)
    : seq<Messaging.Message>
  {
    sent0
      + (match o.delivered case Some(path) => Delivery(replyTo, ResultUrl(path, w), hooks.caption, w.mediaAccepted)
                           case None => [])
      + (if o.failure.Some? then [Messaging.Text(replyTo, FailureNotice)] else [])
  }

  /** The temporary directory after the run: the download stays when the upload step fails before removing it. */
  function TempAfterRun(entries0: map<string, FileDownload.Entry>, o: Outcome, w: World): map<string, FileDownload.Entry>
  {
    match o.kept
    case Some(body) => entries0[FileDownload.DestinationName(w.downloadUniq) := FileDownload.File(body, w.now)]
    case None => entries0
  }

  /**
   * A run the download fails: the failure is recorded, the document
   * marked failed, the user told once, and storage untouched.
   */
  ghost predicate FailedRun(metadata0: Option<Records.ResultMetadata>, job: Records.TaskJobRow,
                            doc0: Records.DocumentRow, doc: Records.DocumentRow,
                            blobs0: map<string, Storage.Blob>, blobs: map<string, Storage.Blob>,
                            sent0: seq<Messaging.Message>, sent: seq<Messaging.Message>,
                            replyTo: string, message: string)
  {
    && job.status == Records.Failed
    && job.errorMessage == Some(message)
    && job.resultMetadata == metadata0
    && doc == doc0.(status := "failed")
    && blobs == blobs0
    && sent == sent0 + [Messaging.Text(replyTo, FailureNotice)]
  }

  /**
   * A completed run: the input is stored under its key, the result
   * (service file or placeholder) beside it, both recorded on the
   * document, the result delivered with a caption that shows the duration
   * recorded before completion, and the completion recorded.
   */
  ghost predicate CompletedRun(op: OpType, params: Params, error0: Option<string>, job: Records.TaskJobRow,
                               doc0: Records.DocumentRow, doc: Records.DocumentRow,
                               blobs0: map<string, Storage.Blob>, blobs: map<string, Storage.Blob>,
                               sent0: seq<Messaging.Message>, sent: seq<Messaging.Message>,
                               replyTo: string, hooks: Hooks, w: World)
  {
    && w.download.Responded?
    && var key := StorageKey(w.stamp, op, w.digest);
    var body := w.download.response.body;
    var out := Processed(op, params, hooks, key, true, w);
    && job.status == Records.Completed
    && job.errorMessage == error0
    && job.resultMetadata == Some(Records.ResultMetadata(true, Elapsed(Some(w.started), w.finished), Some(out.path)))
    && doc == doc0.(s3Path := Some(key), fileSize := Some(|body|), s3OutputPath := Some(out.path),
                    outputFileSize := Some(out.size), status := "completed")
    && blobs == blobs0[key := Storage.Blob(body, true, None)][out.path := out.blob]
    && sent == sent0 + Delivery(replyTo, ResultUrl(out.path, w), hooks.caption, w.mediaAccepted)
  }

  /** The download's failure is the run's: it is recorded, and nothing else happens but the notice. */
  lemma StartFailureFailsRun(op: OpType, params: Params, hooks: Hooks, job0: Records.TaskJobRow,
                             doc0: Records.DocumentRow, blobs0: map<string, Storage.Blob>,
                             sent0: seq<Messaging.Message>, replyTo: string, maxFileSize: nat, maxSizeText: string, w: World)
    requires StartFailure(doc0, maxFileSize, maxSizeText, w).Some?
    ensures var o := RunOutcome(op, params, hooks, doc0, blobs0, maxFileSize, maxSizeText, w);
      FailedRun(job0.resultMetadata, FinalJob(job0, o, w), doc0, FinalDoc(o), blobs0, o.blobs,
                sent0, FinalSent(sent0, replyTo, hooks, o, w), replyTo, StartFailure(doc0, maxFileSize, maxSizeText, w).value)
  {
  }

  /**
   * In a world where every write is stored and no update throws, a run
   * whose download succeeds completes.
   */
  lemma ReliableRunCompletes(op: OpType, params: Params, hooks: Hooks, job0: Records.TaskJobRow,
                             doc0: Records.DocumentRow, blobs0: map<string, Storage.Blob>,
                             sent0: seq<Messaging.Message>, replyTo: string, maxFileSize: nat, maxSizeText: string, w: World)
    requires Reliable(w) && job0.startedAt == Some(w.started)
    requires StartFailure(doc0, maxFileSize, maxSizeText, w).None?
    ensures var o := RunOutcome(op, params, hooks, doc0, blobs0, maxFileSize, maxSizeText, w);
      && o.failure.None?
      && CompletedRun(op, params, job0.errorMessage, FinalJob(job0, o, w), doc0, FinalDoc(o), blobs0, o.blobs,
                      sent0, FinalSent(sent0, replyTo, hooks, o, w), replyTo, hooks, w)
  {
    FileDownload.DownloadedFileWithinLimit(w.download, maxFileSize, maxSizeText, w.sniffedMime);
    var body := w.download.response.body;
    FileDownload.AcceptedFileIsPdf(body, w.sniffedMime);
    var key := StorageKey(w.stamp, op, w.digest);
    var up := UploadStep(op, body, doc0, blobs0, w);
    assert up == Step(Ok(key), doc0.(s3Path := Some(key), fileSize := Some(|body|)), blobs0[key := Storage.Blob(body, true, None)]);
    assert FileDownload.StoredTruthy(up.blobs, key);
    var out := Processed(op, params, hooks, key, true, w);
    var p := ProcessStep(op, params, hooks, key, w, up.doc, up.blobs);
    assert p == Step(Ok(out), Filled(up.doc, out), up.blobs[out.path := out.blob]);
    var o := AfterDownload(op, params, hooks, body, doc0, blobs0, w);
    assert o == Outcome(None, p.doc.(status := "completed"), p.blobs, Some(out.path), None);
    assert RunOutcome(op, params, hooks, doc0, blobs0, maxFileSize, maxSizeText, w) == o;
  }

  // ---------------------------------------------------------------------
  // The job

  class PdfJob {
    const document: Records.Document
    const taskJob: Records.TaskJob
    const replyTo: string
    const outbox: Messaging.Outbox
    const storage: Storage.StorageService
    const downloads: FileDownload.FileDownloadService
    const client: MicroserviceClient.PdfMicroserviceClient
    /** The job class's placeholder text, extension and caption for this task. */
    const hooks: Hooks

    constructor(document: Records.Document, taskJob: Records.TaskJob, replyTo: string, outbox: Messaging.Outbox,
                storage: Storage.StorageService, downloads: FileDownload.FileDownloadService,
                client: MicroserviceClient.PdfMicroserviceClient, hooks: Hooks)
      requires hooks == HooksOf(taskJob.row.op, taskJob.row.parameters, document.row.originalName,
                                taskJob.row.processingTimeSeconds)
      ensures this.document == document && this.taskJob == taskJob && this.replyTo == replyTo
      ensures this.outbox == outbox && this.storage == storage && this.downloads == downloads && this.client == client
      ensures this.hooks == hooks
    {
      this.document := document;
      this.taskJob := taskJob;
      this.replyTo := replyTo;
      this.outbox := outbox;
      this.storage := storage;
      this.downloads := downloads;
      this.client := client;
      this.hooks := hooks;
    }

    /**
     * The services share one disk: the default disk, which the job and
     * the storage service write, is the `s3` disk the download service
     * reads.  The two temporary directories are distinct.
     */
    ghost predicate Wired()
      reads this, storage, downloads, client
    {
      && storage.disk == downloads.disk
      && client.downloads == downloads
      && client.storage == storage
      && downloads.appTemp != downloads.sysTemp
    }

    /** `downloadPdfFromTwilio`: fetches the media URL into the application's temporary directory. */
    method DownloadPdf(w: World) returns (r: Result<string, string>)
      modifies downloads.appTemp
      ensures r.Err? <==> StartFailure(document.row, downloads.maxFileSize, downloads.maxSizeText, w).Some?
      ensures r.Err? ==> r.error == StartFailure(document.row, downloads.maxFileSize, downloads.maxSizeText, w).value
      ensures r.Err? && FileDownload.DestinationName(w.downloadUniq) !in old(downloads.appTemp.entries) ==>
        FileDownload.DestinationName(w.downloadUniq) !in downloads.appTemp.entries
      ensures r.Ok? ==> r.value == FileDownload.DestinationName(w.downloadUniq)
      ensures r.Ok? ==> downloads.appTemp.IsFile(r.value)
      ensures r.Ok? ==> downloads.appTemp.entries[r.value].content == w.download.response.body
      ensures r.Ok? ==>
        downloads.appTemp.entries == old(downloads.appTemp.entries)[r.value := FileDownload.File(w.download.response.body, w.now)]
      ensures FileDownload.DestinationName(w.downloadUniq) !in old(downloads.appTemp.entries) ==>
        downloads.appTemp.entries - {FileDownload.DestinationName(w.downloadUniq)} == old(downloads.appTemp.entries)
    {
      if !Truthy(MediaUrl(document.row)) {
        return Err(NoMediaUrl);
      }
      r := downloads.DownloadFile(w.download, w.downloadUniq, w.sniffedMime, w.now);
      if r.Ok? {
        FileDownload.DownloadedFileWithinLimit(w.download, downloads.maxFileSize, downloads.maxSizeText, w.sniffedMime);
      }
    }

    /**
     * `uploadToStorage`: stores the downloaded file, records its key and
     * size on the document, then removes the local copy.  A disk exception
     * ends the step before the document is touched; an update that throws
     * ends it with the local copy still in place.
     */
    method UploadToStorage(localPath: string, w: World) returns (r: Result<string, string>)
      requires Wired()
      requires downloads.appTemp.IsFile(localPath)
      modifies storage.disk, document, downloads.appTemp
      ensures var step := UploadStep(taskJob.row.op, old(downloads.appTemp.entries[localPath].content),
                                     old(document.row), old(storage.disk.blobs), w);
        r == step.result && document.row == step.doc && storage.disk.blobs == step.blobs
      ensures r.Ok? ==> downloads.appTemp.entries == old(downloads.appTemp.entries) - {localPath}
      ensures r.Err? ==> downloads.appTemp.entries == old(downloads.appTemp.entries)
    {
      var content := downloads.appTemp.entries[localPath].content;
      var s3Path := StorageKey(w.stamp, taskJob.row.op, w.digest);
      var written := storage.disk.Put(s3Path, content, None, w.inputPut);
      if written.Err? {
        return Err(written.error);
      }
      document.row := document.row.(s3Path := Some(s3Path), fileSize := Some(|content|));
      var fault := DbThrows(w, RecordInput);
      if fault.Some? {
        return Err(fault.value);
      }
      var _ := downloads.appTemp.Unlink(localPath, false);
      r := Ok(s3Path);
    }

    /** `createPlaceholderResult`: stores the placeholder next to the input and records it. */
    method CreatePlaceholderResult(s3Path: string, hooks: Hooks, w: World) returns (r: Result<string, string>)
      modifies storage.disk, document
      ensures var step := PlaceholderStep(taskJob.row.op, hooks, s3Path, w, old(document.row), old(storage.disk.blobs));
        r == PathOf(step.result) && document.row == step.doc && storage.disk.blobs == step.blobs
    {
      var content := Utf8(hooks.placeholder);
      r := storage.StoreProcessedFile(content, s3Path, "_" + TypeName(taskJob.row.op) + hooks.extension, w.placeholderPut);
      if r.Err? {
        return;
      }
      document.row := document.row.(s3OutputPath := Some(r.value), outputFileSize := Some(|content|));
      var fault := DbThrows(w, RecordOutput);
      if fault.Some? {
        r := Err(fault.value);
      }
    }

    /**
     * `processPdf`, with the client reporting where it stored the
     * service's file: that file is adopted and recorded when there is
     * one; a disabled service, a request that cannot be built, an
     * unreadable input, a failure, a JSON answer, or an exception while
     * storing or recording the file all fall back to the placeholder.
     * With the service disabled the placeholder is created inside the
     * `try`, so a failing attempt is retried once by the `catch`.
     */
    method ProcessPdf(s3Path: string, hooks: Hooks, w: World) returns (r: Result<string, string>)
      requires Wired() && downloads.sysTemp.present
      modifies storage.disk, document, client, downloads.sysTemp
      ensures var step := ProcessStep(taskJob.row.op, taskJob.row.parameters, hooks, s3Path, w,
                                      old(document.row), old(storage.disk.blobs));
        r == PathOf(step.result) && document.row == step.doc && storage.disk.blobs == step.blobs
      ensures downloads.sysTemp.present
    {
      var op, params := taskJob.row.op, taskJob.row.parameters;
      if !w.enabled {
        r := CreatePlaceholderResult(s3Path, hooks, w);
        if r.Err? {
          r := CreatePlaceholderResult(s3Path, hooks, w);
        }
        return;
      }
      var request := MicroserviceClient.RequestFor(JobHooks.RemoteCallFor(op, params, s3Path));
      if request.Ok? {
        var served := client.ProcessS3File(request.value, s3Path, w.tempName, w.outputUniq, w.now, w.service, w.outputPut);
        if served.Ok? && served.value.FileResult? && served.value.outputPath.Some? {
          var path := served.value.outputPath.value;
          document.row := document.row.(s3OutputPath := Some(path), outputFileSize := Some(served.value.size));
          if DbThrows(w, RecordOutput).None? {
            return Ok(path);
          }
        }
      }
      r := CreatePlaceholderResult(s3Path, hooks, w);
    }

    /**
     * `processPdf` as written: the client's result never carries
     * `s3_output_path`, so reading it fails and every run, whatever the
     * service answers, falls back to the placeholder.
     */
    method ProcessPdfAsWritten(s3Path: string, hooks: Hooks, w: World) returns (r: Result<string, string>)
      requires Wired() && downloads.sysTemp.present
      modifies storage.disk, document, client, downloads.sysTemp
      ensures var step := PlaceholderStep(taskJob.row.op, hooks, s3Path, w, old(document.row), old(storage.disk.blobs));
        r == PathOf(step.result) && document.row == step.doc && storage.disk.blobs == step.blobs
    {
      var op, params := taskJob.row.op, taskJob.row.parameters;
      if !w.enabled {
        r := CreatePlaceholderResult(s3Path, hooks, w);
        if r.Err? {
          r := CreatePlaceholderResult(s3Path, hooks, w);
        }
        return;
      }
      var request := MicroserviceClient.RequestFor(JobHooks.RemoteCallFor(op, params, s3Path));
      if request.Ok? {
        // A successful result is then read for `s3_output_path`, which it
        // never holds; the error this raises lands in the fallback below.
        var _ := client.ProcessS3FileAsWritten(request.value, s3Path, w.tempName, w.now, w.service);
      }
      r := CreatePlaceholderResult(s3Path, hooks, w);
    }

    /** `sendResult`: sends the link with the caption; a refused message is followed by one apology. */
    method SendResult(resultPath: string, hooks: Hooks, w: World)
      modifies outbox
      ensures outbox.sent == old(outbox.sent) + Delivery(replyTo, ResultUrl(resultPath, w), hooks.caption, w.mediaAccepted)
    {
      var url := ResultUrl(resultPath, w);
      var delivered := outbox.SendMedia(replyTo, url, Some(hooks.caption), w.mediaAccepted);
      if !delivered {
        var _ := outbox.SendText(replyTo, DeliveryApology, w.textAccepted);
      }
    }

    /**
     * `markCompleted`: fills in the task job's completion, duration and
     * output path, then completes the document; the exception of either
     * update is returned, and one from the task job's skips the document's.
     */
    method MarkCompleted(w: World) returns (failure: Option<string>)
      modifies taskJob, document
      ensures taskJob.row == Completion(old(taskJob.row), old(document.row.s3OutputPath), w)
      ensures failure == CompletionFault(w)
      ensures document.row == if DbThrows(w, RecordCompletion).Some? then old(document.row)
                              else old(document.row).(status := "completed")
    {
      var t := Elapsed(taskJob.row.startedAt, w.finished);
      taskJob.row := taskJob.row.(status := Records.Completed, completedAt := Some(w.finished),
        processingTimeSeconds := Some(t), resultMetadata := Some(Records.ResultMetadata(true, t, document.row.s3OutputPath)));
      failure := DbThrows(w, RecordCompletion);
      if failure.Some? {
        return;
      }
      document.row := document.row.(status := "completed");
      failure := DbThrows(w, RecordCompletedDocument);
    }

    /** `markFailed`: records the failure and its message, fails the document and tells the user. */
    method MarkFailed(message: string, w: World)
      modifies taskJob, document, outbox
      ensures taskJob.row == Failure(old(taskJob.row), message, w)
      ensures document.row == old(document.row).(status := "failed")
      ensures outbox.sent == old(outbox.sent) + [Messaging.Text(replyTo, FailureNotice)]
    {
      taskJob.row := taskJob.row.(status := Records.Failed, completedAt := Some(w.finished),
        processingTimeSeconds := Some(Elapsed(taskJob.row.startedAt, w.finished)), errorMessage := Some(message));
      document.row := document.row.(status := "failed");
      var _ := outbox.SendText(replyTo, FailureNotice, w.textAccepted);
    }

    /** The steps inside the `try` after a successful download, in order; the first exception is returned. */
    method Steps(localPath: string, hooks: Hooks, w: World) returns (failure: Option<string>)
      requires Wired() && downloads.sysTemp.present
      requires downloads.appTemp.IsFile(localPath)
      requires w.download.Responded? && downloads.appTemp.entries[localPath].content == w.download.response.body
      modifies taskJob, document, outbox, storage.disk, client, downloads.appTemp, downloads.sysTemp
      ensures var o := AfterDownload(old(taskJob.row.op), old(taskJob.row.parameters), hooks, w.download.response.body,
                                     old(document.row), old(storage.disk.blobs), w);
        && failure == o.failure && document.row == o.doc && storage.disk.blobs == o.blobs
        && taskJob.row == (if o.delivered.Some? then Completion(old(taskJob.row), o.doc.s3OutputPath, w) else old(taskJob.row))
        && outbox.sent == FinalSent(old(outbox.sent), replyTo, hooks, o.(failure := None), w)
        && downloads.appTemp.entries == if o.kept.Some? then old(downloads.appTemp.entries)
                                        else old(downloads.appTemp.entries) - {localPath}
    {
      var uploaded := UploadToStorage(localPath, w);
      if uploaded.Err? {
        return Some(uploaded.error);
      }
      var processed := ProcessPdf(uploaded.value, hooks, w);
      if processed.Err? {
        return Some(processed.error);
      }
      SendResult(processed.value, hooks, w);
      failure := MarkCompleted(w);
    }

    /** The running job's steps: download, then the remaining steps, and `markFailed` on the first exception. */
    method Run(hooks: Hooks, w: World)
      requires Wired() && downloads.sysTemp.present
      requires taskJob.row.startedAt == Some(w.started)
      modifies taskJob, document, outbox, storage.disk, client, downloads.appTemp, downloads.sysTemp
      ensures var o := RunOutcome(old(taskJob.row.op), old(taskJob.row.parameters), hooks, old(document.row),
                                  old(storage.disk.blobs), downloads.maxFileSize, downloads.maxSizeText, w);
        && taskJob.row == FinalJob(old(taskJob.row), o, w)
        && document.row == FinalDoc(o)
        && storage.disk.blobs == o.blobs
        && outbox.sent == FinalSent(old(outbox.sent), replyTo, hooks, o, w)
        && (FileDownload.DestinationName(w.downloadUniq) !in old(downloads.appTemp.entries) ==>
              downloads.appTemp.entries == TempAfterRun(old(downloads.appTemp.entries), o, w))
    {
      var local := DownloadPdf(w);
      if local.Err? {
        MarkFailed(local.error, w);
        return;
      }
      FileDownload.DownloadedFileWithinLimit(w.download, downloads.maxFileSize, downloads.maxSizeText, w.sniffedMime);
      var failure := Steps(local.value, hooks, w);
      if failure.Some? {
        MarkFailed(failure.value, w);
      }
    }

    /**
     * `handle`: marks the job running, runs the steps, records the
     * outcome, and sweeps old temporary files whatever happened, ignoring
     * the sweep's errors.  The job always ends completed or failed, with
     * its start, end and duration recorded; a failed download fails the
     * run and touches nothing else, and when every write succeeds a
     * successful download completes it.  When the download's name was
     * free, the directory afterwards is the one the steps left less the
     * files the sweep removed from `listing`, the directory's listing as
     * the sweep saw it.
     */
    method Handle(w: World) returns (ghost listing: seq<string>)
      requires Wired() && downloads.sysTemp.present
      modifies taskJob, document, outbox, storage.disk, client, downloads.appTemp, downloads.sysTemp
      ensures var o := RunOutcome(old(taskJob.row.op), old(taskJob.row.parameters), hooks, old(document.row),
                                  old(storage.disk.blobs), downloads.maxFileSize, downloads.maxSizeText, w);
        && taskJob.row == FinalJob(old(taskJob.row).(status := Records.Running, startedAt := Some(w.started)), o, w)
        && document.row == FinalDoc(o)
        && storage.disk.blobs == o.blobs
        && outbox.sent == FinalSent(old(outbox.sent), replyTo, hooks, o, w)
      ensures taskJob.row.status in {Records.Completed, Records.Failed}
      ensures taskJob.row.startedAt == Some(w.started) && taskJob.row.completedAt == Some(w.finished)
      ensures taskJob.row.processingTimeSeconds == Some(Elapsed(Some(w.started), w.finished))
      ensures var failure := StartFailure(old(document.row), downloads.maxFileSize, downloads.maxSizeText, w);
        failure.Some? ==>
          FailedRun(old(taskJob.row.resultMetadata), taskJob.row, old(document.row), document.row, old(storage.disk.blobs),
                    storage.disk.blobs, old(outbox.sent), outbox.sent, replyTo, failure.value)
      ensures StartFailure(old(document.row), downloads.maxFileSize, downloads.maxSizeText, w).None? && Reliable(w) ==>
        CompletedRun(old(taskJob.row.op), old(taskJob.row.parameters), old(taskJob.row.errorMessage), taskJob.row, old(document.row), document.row, old(storage.disk.blobs),
                     storage.disk.blobs, old(outbox.sent), outbox.sent, replyTo, hooks, w)
      ensures FileDownload.DestinationName(w.downloadUniq) !in old(downloads.appTemp.entries) ==>
        var o := RunOutcome(old(taskJob.row.op), old(taskJob.row.parameters), hooks, old(document.row),
                            old(storage.disk.blobs), downloads.maxFileSize, downloads.maxSizeText, w);
        var left := TempAfterRun(old(downloads.appTemp.entries), o, w);
        && FileDownload.IsListing(listing, left)
        && var sweep := FileDownload.Sweep(listing, left, w.finished - CleanupMinutes * 60, w.refused);
           downloads.appTemp.entries == if downloads.appTemp.present then left - (set n | n in sweep.0) else left
    {
      taskJob.row := taskJob.row.(status := Records.Running, startedAt := Some(w.started));
      ghost var job0, doc0, blobs0, sent0 := taskJob.row, document.row, storage.disk.blobs, outbox.sent;
      Run(hooks, w);
      ghost var o := RunOutcome(job0.op, job0.parameters, hooks, doc0, blobs0, downloads.maxFileSize, downloads.maxSizeText, w);
      if StartFailure(doc0, downloads.maxFileSize, downloads.maxSizeText, w).Some? {
        StartFailureFailsRun(job0.op, job0.parameters, hooks, job0, doc0, blobs0, sent0, replyTo,
                             downloads.maxFileSize, downloads.maxSizeText, w);
      } else if Reliable(w) {
        ReliableRunCompletes(job0.op, job0.parameters, hooks, job0, doc0, blobs0, sent0, replyTo,
                             downloads.maxFileSize, downloads.maxSizeText, w);
      }
      var names := downloads.appTemp.List();
      listing := names;
      var _ := downloads.CleanupTempFiles(CleanupMinutes, w.finished, names, w.refused);
    }
  }
}

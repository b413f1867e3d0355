/**
 * Properties of a job run that relate several of its steps: when the
 * service's result is adopted, where the placeholder lands, what an
 * accepted download guarantees to the later steps, and what the user
 * receives.
 */
module PdfJobProperties {
  import opened Wrappers
  import opened Strings
  import opened Bytes
  import opened PdfOps
  import Http
  import Storage
  import FileDownload
  import MicroserviceClient
  import JobHooks
  import Records
  import Messaging
  import opened PdfJobs

  /**
   * The service's file is adopted exactly when the service is enabled,
   * the request can be built (every operation but a conversion to an
   * unsupported format), the input is readable, and the service answers
   * 2xx with a file content type, and the disk does not throw when the
   * file is written.  An adopted file is stored under
   * `processed/{type}/`.
   */
  lemma ServiceOutputIff(op: OpType, params: Params, s3Path: string, stored: bool, w: World)
    ensures ServiceOutput(op, params, s3Path, stored, w).Some? <==>
      && w.enabled
      && !(op == Convert && JobHooks.Param(params, "format", "docx") !in MicroserviceClient.SupportedFormats)
      && stored
      && w.service.Responded? && Http.Successful(w.service.response)
      && MicroserviceClient.IsFileContentType(w.service.response.contentType)
      && !w.outputPut.Throws?
    ensures ServiceOutput(op, params, s3Path, stored, w).Some? ==>
      StartsWith(ServiceOutput(op, params, s3Path, stored, w).value.path, "processed/" + TypeName(op) + "/")
  {
    var call := JobHooks.RemoteCallFor(op, params, s3Path);
    var request := MicroserviceClient.RequestFor(call);
    assert request.Err? <==> op == Convert && JobHooks.Param(params, "format", "docx") !in MicroserviceClient.SupportedFormats;
  }

  /** Without the service's file the result is the placeholder. */
  lemma PlaceholderWhenNotAdopted(op: OpType, params: Params, hooks: Hooks, s3Path: string, stored: bool, w: World)
    requires !w.enabled || !stored || w.service.ConnectionFailed? || w.outputPut.Throws?
    ensures Processed(op, params, hooks, s3Path, stored, w) == PlaceholderOutput(op, hooks, s3Path)
  {
    ServiceOutputIff(op, params, s3Path, stored, w);
  }

  lemma TypeNameSimple(op: OpType)
    ensures '.' !in TypeName(op) && '/' !in TypeName(op)
  {
  }

  /** The storage filename without its extension holds neither `.` nor `/`. */
  lemma StemSimple(op: OpType, stamp: string, digest: string)
    requires '.' !in stamp && '/' !in stamp && '.' !in digest && '/' !in digest
    ensures var stem := stamp + "_" + TypeName(op) + "_" + Storage.Prefix8(digest); '.' !in stem && '/' !in stem
  {
    TypeNameSimple(op);
    var p := Storage.Prefix8(digest);
    assert forall c :: c in p ==> c in digest;
  }

  /** The input's key is `documents/{stem}.pdf`. */
  lemma StorageKeySplit(op: OpType, stamp: string, digest: string)
    ensures StorageKey(stamp, op, digest) ==
      "documents" + "/" + (stamp + "_" + TypeName(op) + "_" + Storage.Prefix8(digest)) + "." + "pdf"
  {
  }

  /**
   * For a stamp and digest free of `.` and `/`, the placeholder is stored
   * beside the input as
   * `documents/{stamp}_{type}_{8 hex}_{type}{placeholder extension}.pdf`:
   * the placeholder extension lands before the input's own `.pdf`.
   */
  lemma PlaceholderKeyShape(op: OpType, stamp: string, digest: string, hooks: Hooks)
    requires '.' !in stamp && '/' !in stamp && '.' !in digest && '/' !in digest
    ensures PlaceholderOutput(op, hooks, StorageKey(stamp, op, digest)).path ==
      "documents/" + stamp + "_" + TypeName(op) + "_" + Storage.Prefix8(digest) + "_" + TypeName(op) + hooks.extension + ".pdf"
  {
    var t, p := TypeName(op), Storage.Prefix8(digest);
    var stem := stamp + "_" + t + "_" + p;
    var suffix := "_" + t + hooks.extension;
    StemSimple(op, stamp, digest);
    StorageKeySplit(op, stamp, digest);
    PlaceholderPath(op, hooks, StorageKey(stamp, op, digest));
    Storage.ProcessedKeyOfSimpleKey("documents", stem, "pdf", suffix);
    KeyPieces(stamp, t, p, hooks.extension);
  }

  lemma PlaceholderPath(op: OpType, hooks: Hooks, s3Path: string)
    ensures PlaceholderOutput(op, hooks, s3Path).path == Storage.ProcessedKey(s3Path, "_" + TypeName(op) + hooks.extension)
  {
  }

  lemma KeyPieces(stamp: string, t: string, p: string, e: string)
    ensures "documents" + "/" + (stamp + "_" + t + "_" + p) + ("_" + t + e) + "." + "pdf"
      == "documents/" + stamp + "_" + t + "_" + p + "_" + t + e + ".pdf"
  {
  }

  /**
   * A download the first step accepts is a valid PDF, and once stored it
   * is a truthy object, so the processing step finds it.
   */
  lemma AcceptedDownloadIsValidPdf(row: Records.DocumentRow, maxFileSize: nat, maxSizeText: string, w: World, key: string)
    requires StartFailure(row, maxFileSize, maxSizeText, w).None?
    ensures w.download.Responded?
    ensures IsValidPdf(true, w.download.response.body)
    ensures FileDownload.StoredTruthy(map[key := Storage.Blob(w.download.response.body, true, None)], key)
  {
    FileDownload.AcceptedFileIsPdf(w.download.response.body, w.sniffedMime);
  }

  /**
   * The user receives the result link with its caption first, and one
   * apology after it exactly when the provider refuses the media message.
   */
  lemma DeliveryShape(to: string, url: string, caption: string, accepted: bool)
    ensures var d := Delivery(to, url, caption, accepted);
      && d[0] == Messaging.Media(to, url, Some(caption))
      && (|d| == 2 <==> !accepted)
      && (accepted ==> |d| == 1)
      && (!accepted ==> d[1] == Messaging.Text(to, DeliveryApology))
  {
  }

  /** The recorded duration is never negative and is the elapsed time when the clock moves forward. */
  lemma ElapsedOfForwardClock(started: int, finished: int)
    requires started <= finished
    ensures Elapsed(Some(started), finished) == finished - started
    ensures Elapsed(Some(finished), started) == finished - started
  {
  }

  // ---------------------------------------------------------------------
  // Faults after the download

  /**
   * The processing step ends with a result exactly when the output's
   * record does not throw and either the service's file is adopted or the
   * placeholder is written without an exception; that result is the one
   * `Processed` names.
   */
  lemma ProcessStepOkIff(op: OpType, params: Params, hooks: Hooks, s3Path: string, w: World,
                         doc0: Records.DocumentRow, blobs0: map<string, Storage.Blob>)
    ensures var stored := FileDownload.StoredTruthy(blobs0, s3Path);
      var step := ProcessStep(op, params, hooks, s3Path, w, doc0, blobs0);
      && (step.result.Ok? <==>
            DbThrows(w, RecordOutput).None? && (ServiceOutput(op, params, s3Path, stored, w).Some? || !w.placeholderPut.Throws?))
      && (step.result.Ok? ==> step.result.value == Processed(op, params, hooks, s3Path, stored, w))
  {
  }

  /**
   * The steps after a download complete exactly when the input write does
   * not throw, no update throws, and the result is either the service's
   * file or a placeholder written without an exception.  Steps that
   * complete have delivered their result.
   */
  lemma AfterDownloadCompletesIff(op: OpType, params: Params, hooks: Hooks, body: Bytes, doc0: Records.DocumentRow,
                                  blobs0: map<string, Storage.Blob>, w: World)
    ensures var o := AfterDownload(op, params, hooks, body, doc0, blobs0, w);
      var key := StorageKey(w.stamp, op, w.digest);
      var input := Storage.AfterPut(blobs0, key, Storage.Blob(body, true, None), w.inputPut);
      && (o.failure.None? <==>
            && !w.inputPut.Throws? && w.dbFault.None?
            && (ServiceOutput(op, params, key, FileDownload.StoredTruthy(input, key), w).Some? || !w.placeholderPut.Throws?))
      && (o.failure.None? ==> o.delivered.Some?)
  {
    var key := StorageKey(w.stamp, op, w.digest);
    var up := UploadStep(op, body, doc0, blobs0, w);
    if up.result.Ok? {
      assert up.result.value == key && !w.inputPut.Throws? && DbThrows(w, RecordInput).None?;
      assert up.blobs == Storage.AfterPut(blobs0, key, Storage.Blob(body, true, None), w.inputPut);
      ProcessStepOkIff(op, params, hooks, key, w, up.doc, up.blobs);
      var p := ProcessStep(op, params, hooks, key, w, up.doc, up.blobs);
      if p.result.Ok? {
        assert DbThrows(w, RecordOutput).None?;
        assert w.dbFault.None? <==> CompletionFault(w).None?;
      }
    }
  }

  /**
   * A run whose download fails never completes; one whose download is
   * accepted completes exactly when its later steps do.
   */
  lemma RunCompletesIff(op: OpType, params: Params, hooks: Hooks, doc0: Records.DocumentRow,
                        blobs0: map<string, Storage.Blob>, maxFileSize: nat, maxSizeText: string, w: World)
    ensures var o := RunOutcome(op, params, hooks, doc0, blobs0, maxFileSize, maxSizeText, w);
      && (StartFailure(doc0, maxFileSize, maxSizeText, w).Some? ==> o.failure.Some?)
      && (StartFailure(doc0, maxFileSize, maxSizeText, w).None? ==>
            var key := StorageKey(w.stamp, op, w.digest);
            var input := Storage.AfterPut(blobs0, key, Storage.Blob(w.download.response.body, true, None), w.inputPut);
            (o.failure.None? <==>
               && !w.inputPut.Throws? && w.dbFault.None?
               && (ServiceOutput(op, params, key, FileDownload.StoredTruthy(input, key), w).Some? || !w.placeholderPut.Throws?)))
      && (o.failure.None? ==> o.delivered.Some?)
  {
    if StartFailure(doc0, maxFileSize, maxSizeText, w).None? {
      FileDownload.DownloadedFileWithinLimit(w.download, maxFileSize, maxSizeText, w.sniffedMime);
      AfterDownloadCompletesIff(op, params, hooks, w.download.response.body, doc0, blobs0, w);
    }
  }

  /** The task job ends completed exactly when the run has no failure, and failed otherwise. */
  lemma FinalStatus(job0: Records.TaskJobRow, op: OpType, params: Params, hooks: Hooks, doc0: Records.DocumentRow,
                    blobs0: map<string, Storage.Blob>, maxFileSize: nat, maxSizeText: string, w: World)
    ensures var o := RunOutcome(op, params, hooks, doc0, blobs0, maxFileSize, maxSizeText, w);
      FinalJob(job0, o, w).status == if o.failure.None? then Records.Completed else Records.Failed
  {
    RunCompletesIff(op, params, hooks, doc0, blobs0, maxFileSize, maxSizeText, w);
  }

  /**
   * The downloaded file stays in the temporary directory exactly when the
   * download is accepted and then the input write or its record throws.
   */
  lemma DownloadKeptIff(op: OpType, params: Params, hooks: Hooks, doc0: Records.DocumentRow,
                        blobs0: map<string, Storage.Blob>, maxFileSize: nat, maxSizeText: string, w: World)
    ensures var o := RunOutcome(op, params, hooks, doc0, blobs0, maxFileSize, maxSizeText, w);
      o.kept.Some? <==>
        StartFailure(doc0, maxFileSize, maxSizeText, w).None? && (w.inputPut.Throws? || DbThrows(w, RecordInput).Some?)
  {
  }

  /**
   * When `markCompleted` throws, after the result has reached the user,
   * `markFailed` overwrites the completion: the task job ends failed with
   * the update's message, yet keeps the success metadata naming the
   * output, the document ends failed, and the user receives the result
   * and then the failure notice.
   */
  lemma CompletedOverwrittenByFailure(op: OpType, params: Params, hooks: Hooks, job0: Records.TaskJobRow,
                                      doc0: Records.DocumentRow, blobs0: map<string, Storage.Blob>,
                                      sent0: seq<Messaging.Message>, replyTo: string,
                                      maxFileSize: nat, maxSizeText: string, w: World, at: DbWrite, message: string)
    requires StartFailure(doc0, maxFileSize, maxSizeText, w).None?
    requires w.inputPut.Stored? && w.outputPut.Stored? && w.placeholderPut.Stored?
    requires at == RecordCompletion || at == RecordCompletedDocument
    requires w.dbFault == Some(DbFault(at, message)) && job0.startedAt == Some(w.started)
    ensures var o := RunOutcome(op, params, hooks, doc0, blobs0, maxFileSize, maxSizeText, w);
      var t := Elapsed(Some(w.started), w.finished);
      var out := Processed(op, params, hooks, StorageKey(w.stamp, op, w.digest), true, w);
      && FinalJob(job0, o, w).status == Records.Failed
      && FinalJob(job0, o, w).errorMessage == Some(message)
      && FinalJob(job0, o, w).resultMetadata == Some(Records.ResultMetadata(true, t, Some(out.path)))
      && FinalDoc(o).status == "failed"
      && FinalSent(sent0, replyTo, hooks, o, w) ==
           sent0 + Delivery(replyTo, ResultUrl(out.path, w), hooks.caption, w.mediaAccepted)
                 + [Messaging.Text(replyTo, FailureNotice)]
  {
    FileDownload.DownloadedFileWithinLimit(w.download, maxFileSize, maxSizeText, w.sniffedMime);
    var body := w.download.response.body;
    FileDownload.AcceptedFileIsPdf(body, w.sniffedMime);
    var key := StorageKey(w.stamp, op, w.digest);
    var up := UploadStep(op, body, doc0, blobs0, w);
    assert up.result == Ok(key) && up.blobs == blobs0[key := Storage.Blob(body, true, None)];
    assert FileDownload.StoredTruthy(up.blobs, key);
    var out := Processed(op, params, hooks, key, true, w);
    ProcessStepOkIff(op, params, hooks, key, w, up.doc, up.blobs);
    var p := ProcessStep(op, params, hooks, key, w, up.doc, up.blobs);
    assert p.result == Ok(out) && p.doc.s3OutputPath == Some(out.path);
  }

  /**
   * When the disk refuses the input without throwing, the run goes on:
   * the document records a key the disk does not hold, the service cannot
   * read the input, and the user receives the placeholder.
   */
  lemma RefusedInputRecordedAnyway(op: OpType, params: Params, hooks: Hooks, doc0: Records.DocumentRow,
                                   blobs0: map<string, Storage.Blob>, maxFileSize: nat, maxSizeText: string, w: World)
    requires StartFailure(doc0, maxFileSize, maxSizeText, w).None?
    requires StorageKey(w.stamp, op, w.digest) !in blobs0
    requires w.inputPut.Refused? && w.placeholderPut.Stored? && w.dbFault.None?
    ensures var o := RunOutcome(op, params, hooks, doc0, blobs0, maxFileSize, maxSizeText, w);
      var key := StorageKey(w.stamp, op, w.digest);
      var placeholder := PlaceholderOutput(op, hooks, key);
      && o.failure.None?
      && FinalDoc(o).s3Path == Some(key)
      && o.delivered == Some(placeholder.path)
      && o.blobs == blobs0[placeholder.path := placeholder.blob]
  {
    FileDownload.DownloadedFileWithinLimit(w.download, maxFileSize, maxSizeText, w.sniffedMime);
    var key := StorageKey(w.stamp, op, w.digest);
    var up := UploadStep(op, w.download.response.body, doc0, blobs0, w);
    assert up.blobs == blobs0 && !FileDownload.StoredTruthy(up.blobs, key);
    PlaceholderWhenNotAdopted(op, params, hooks, key, false, w);
    ServiceOutputIff(op, params, key, false, w);
  }
}

/**
 * The two database records the pipeline works on: a Document (an
 * uploaded PDF, its stored copies and its expiry) and a TaskJob (one
 * processing request on a document, with its lifecycle status).  Times
 * are whole seconds on one clock.
 */
module Records {
  import opened Wrappers
  import opened Strings
  import opened PdfOps
  import Storage

  // ---------------------------------------------------------------------
  // Documents

  /** The columns of a `documents` row. */
  datatype DocumentRow = DocumentRow(
    id: int,
    originalName: string,
    s3Path: Option<string>,
    s3OutputPath: Option<string>,
    fileSize: Option<int>,
    outputFileSize: Option<int>,
    mimeType: Option<string>,
    whatsappUserId: Option<string>,
    status: string,
    metadata: map<string, string>,
    expiresAt: Option<int>)
  {
    /** `isExpired`: an expiry is set and lies strictly in the past. */
    predicate IsExpired(now: int)
    {
      expiresAt.Some? && expiresAt.value < now
    }

    /**
     * `getTemporaryUrl`: no link without a stored copy; otherwise the
     * storage service's signed link (`signed`, absent when signing
     * fails) or its plain link.
     */
    function TemporaryUrl(signed: Option<string>, plain: string): (url: Option<string>)
      ensures url.None? <==> !Truthy(s3Path)
      ensures url.Some? ==> url.value == Storage.TemporaryUrl(signed, plain)
    {
      if !Truthy(s3Path) then None else Some(Storage.TemporaryUrl(signed, plain))
    }

    /** `getOutputTemporaryUrl`: the same for the processed copy. */
    function OutputTemporaryUrl(signed: Option<string>, plain: string): (url: Option<string>)
      ensures url.None? <==> !Truthy(s3OutputPath)
      ensures url.Some? ==> url.value == Storage.TemporaryUrl(signed, plain)
    {
      if !Truthy(s3OutputPath) then None else Some(Storage.TemporaryUrl(signed, plain))
    }
  }

  /** Status a new row receives from the column default. */
  const DefaultDocumentStatus: string := "uploaded"

  /**
   * A row as `create` inserts it from its one required column: every
   * nullable column null, the status the column default, no metadata.
   */
  function NewDocument(originalName: string): (row: DocumentRow)
    ensures row.originalName == originalName && row.status == DefaultDocumentStatus
    ensures row.s3Path.None? && row.s3OutputPath.None? && row.expiresAt.None?
    ensures row.whatsappUserId.None? && row.mimeType.None? && row.metadata == map[]
  {
    DocumentRow(0, originalName, None, None, None, None, None, None, DefaultDocumentStatus, map[], None)
  }

  /**
   * `original_name` is the one column without a null or a default, so an
   * insert whose attributes (after mass-assignment filtering) lack it is
   * refused by the database.
   */
  function InsertDocumentCheck(keys: set<string>): (r: Option<string>)
    ensures r.None? <==> "original_name" in keys && "original_name" in DocumentFillable
  {
    if "original_name" in Assigned(keys) then None
    else Some("NOT NULL constraint failed: documents.original_name")
  }

  /** The default lifetime `setExpiration` gives, in hours. */
  const DefaultExpirationHours: int := 24

  /** `scopeExpired`: `expires_at < now`; SQL drops rows whose expiry is null. */
  predicate InExpiredScope(row: DocumentRow, now: int)
  {
    match row.expiresAt
    case None => false
    case Some(t) => t < now
  }

  /** `scopeActive`: no expiry, or an expiry strictly in the future. */
  predicate InActiveScope(row: DocumentRow, now: int)
  {
    match row.expiresAt
    case None => true
    case Some(t) => t > now
  }

  /**
   * The attributes mass assignment accepts (`$fillable`); any other key
   * given to `create` or `update` is discarded.
   */
  const DocumentFillable: set<string> := {
    "original_name", "s3_path", "s3_output_path", "file_size", "output_file_size",
    "mime_type", "whatsapp_user_id", "status", "metadata", "expires_at"}

  /** The keys of an `update` call that reach the row. */
  function Assigned(keys: set<string>): (kept: set<string>)
    ensures kept <= keys && kept <= DocumentFillable
    ensures forall k :: k in keys && k in DocumentFillable ==> k in kept
  {
    keys * DocumentFillable
  }

  /** A document as the application holds it: its row, updated in place and saved. */
  class Document {
    var row: DocumentRow

    constructor(row: DocumentRow)
      ensures this.row == row
    {
      this.row := row;
    }

    /** `setExpiration`: the document expires `hours` hours after `now`; nothing else changes. */
    method SetExpiration(hours: int, now: int)
      modifies this
      ensures row == old(row).(expiresAt := Some(now + hours * 3600))
      ensures !row.IsExpired(now) <==> hours >= 0
      ensures InActiveScope(row, now) <==> hours > 0
    {
      row := row.(expiresAt := Some(now + hours * 3600));
    }
  }

  // ---------------------------------------------------------------------
  // Task jobs

  /** The lifecycle of a task job (the `status` column). */
  datatype JobStatus = Pending | Running | Completed | Failed

  /** The column value of each status. */
  function StatusName(s: JobStatus): (name: string)
    ensures name in {"pending", "running", "completed", "failed"}
  {
    match s
    case Pending => "pending"
    case Running => "running"
    case Completed => "completed"
    case Failed => "failed"
  }

  /** The `result_metadata` a completed job records. */
  datatype ResultMetadata = ResultMetadata(success: bool, processingTimeSeconds: int, outputPath: Option<string>)

  /** The columns of a `task_jobs` row. */
  datatype TaskJobRow = TaskJobRow(
    id: int,
    documentId: int,
    op: OpType,
    status: JobStatus,
    parameters: map<string, string>,
    errorMessage: Option<string>,
    resultMetadata: Option<ResultMetadata>,
    startedAt: Option<int>,
    completedAt: Option<int>,
    processingTimeSeconds: Option<int>)

  /** A freshly created job: pending, with nothing recorded yet. */
  function NewTaskJob(id: int, documentId: int, op: OpType, parameters: map<string, string>): (row: TaskJobRow)
    ensures row.status == Pending && row.op == op && row.parameters == parameters
    ensures row.startedAt.None? && row.completedAt.None? && row.processingTimeSeconds.None?
    ensures row.errorMessage.None? && row.resultMetadata.None?
  {
    TaskJobRow(id, documentId, op, Pending, parameters, None, None, None, None, None)
  }

  /** A task job as the application holds it. */
  class TaskJob {
    var row: TaskJobRow

    constructor(row: TaskJobRow)
      ensures this.row == row
    {
      this.row := row;
    }
  }

  /** The columns mass assignment accepts on a task job. */
  const TaskJobFillable: set<string> := {
    "document_id", "type", "status", "parameters", "error_message", "result_metadata",
    "started_at", "completed_at", "processing_time_seconds"}

  // ---------------------------------------------------------------------
  // The database

  /** The row with primary key `id`, when rows are kept in id order from 1. */
  function FindDocument(documents: seq<DocumentRow>, id: int): (r: Option<DocumentRow>)
    ensures r.Some? <==> 1 <= id <= |documents|
    ensures r.Some? ==> r.value == documents[id - 1]
  {
    if 1 <= id <= |documents| then Some(documents[id - 1]) else None
  }

  /**
   * The two tables as the webhooks see them: rows in insertion order, the
   * auto-increment key of each row being its position counted from 1.
   */
  class Database {
    var documents: seq<DocumentRow>
    var taskJobs: seq<TaskJobRow>

    constructor()
      ensures documents == [] && taskJobs == []
    {
      documents := [];
      taskJobs := [];
    }

    /** `Document::create`: the row is appended under the next key. */
    method CreateDocument(row: DocumentRow) returns (id: int)
      modifies this
      ensures id == |old(documents)| + 1
      ensures documents == old(documents) + [row.(id := id)]
      ensures taskJobs == old(taskJobs)
    {
      id := |documents| + 1;
      documents := documents + [row.(id := id)];
    }

    /** `TaskJob::create`: the row is appended under the next key. */
    method CreateTaskJob(row: TaskJobRow) returns (id: int)
      modifies this
      ensures id == |old(taskJobs)| + 1
      ensures taskJobs == old(taskJobs) + [row.(id := id)]
      ensures documents == old(documents)
    {
      id := |taskJobs| + 1;
      taskJobs := taskJobs + [row.(id := id)];
    }
  }

  // ---------------------------------------------------------------------
  // Properties

  /** A created document is found under the key it was given, and every older row keeps its key. */
  lemma FindAfterCreate(documents: seq<DocumentRow>, row: DocumentRow, id: int)
    ensures var created := documents + [row.(id := |documents| + 1)];
      && FindDocument(created, |documents| + 1) == Some(row.(id := |documents| + 1))
      && (id != |documents| + 1 ==> FindDocument(created, id) == FindDocument(documents, id))
  {
  }

  /** `isExpired` agrees with the expired scope. */
  lemma IsExpiredIsExpiredScope(row: DocumentRow, now: int)
    ensures row.IsExpired(now) <==> InExpiredScope(row, now)
  {
  }

  /**
   * The two scopes never share a row, and the only rows outside both are
   * those expiring at exactly `now`.
   */
  lemma ScopesPartition(row: DocumentRow, now: int)
    ensures !(InExpiredScope(row, now) && InActiveScope(row, now))
    ensures !InExpiredScope(row, now) && !InActiveScope(row, now) <==> row.expiresAt == Some(now)
  {
  }

  /** A document without expiry is never expired and always active. */
  lemma NoExpiryIsActive(row: DocumentRow, now: int)
    requires row.expiresAt.None?
    ensures !row.IsExpired(now) && InActiveScope(row, now)
  {
  }

  /** The metadata the job attaches to a placeholder never reaches the row. */
  lemma ProcessingMetadataDiscarded()
    ensures Assigned({"s3_output_path", "output_file_size", "processing_metadata"}) == {"s3_output_path", "output_file_size"}
  {
  }
}

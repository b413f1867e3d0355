/**
 * The `documents:cleanup-expired` console command: finds the documents
 * whose expiry has passed, and (unless it is a dry run or the operator
 * declines) deletes each one's stored input and output and then its
 * database row.  A document whose input the disk refuses to delete keeps
 * its row and counts as an error; a disk error on a document counts as
 * an error and leaves its row too.  The command fails exactly when some
 * document could not be deleted.
 */
module ExpiredCleanup {
  import opened Wrappers
  import opened Strings
  import opened Bytes
  import Storage
  import Records

  type Blobs = map<string, Storage.Blob>

  /** The `documents` table, rows by id. */
  class DocumentTable {
    var rows: map<int, Records.DocumentRow>

    constructor(rows: map<int, Records.DocumentRow>)
      ensures this.rows == rows
    {
      this.rows := rows;
    }

    /** `$document->delete()`. */
    method Delete(id: int)
      modifies this
      ensures rows == old(rows) - {id}
    {
      rows := rows - {id};
    }
  }

  /**
   * The result of `Document::where('expires_at', '<', now)->orderBy('expires_at')->get()`:
   * every expired row once, nothing else, earliest expiry first.
   */
  ghost predicate IsExpiredSelection(selection: seq<int>, rows: map<int, Records.DocumentRow>, now: int)
  {
    && (forall i, j :: 0 <= i < j < |selection| ==> selection[i] != selection[j])
    && (forall i :: 0 <= i < |selection| ==>
          selection[i] in rows && Records.InExpiredScope(rows[selection[i]], now))
    && (forall id :: id in rows && Records.InExpiredScope(rows[id], now) ==> id in selection)
    && (forall i, j :: 0 <= i < j < |selection| ==>
          rows[selection[i]].expiresAt.value <= rows[selection[j]].expiresAt.value)
  }

  /** What the command reports. */
  datatype Report =
    | NothingExpired
    | Listed(ids: seq<int>)
    | Cancelled
    | Swept(deleted: nat, errors: nat, freedBytes: int)

  const Success: int := 0
  const Failure: int := 1

  /** The command's exit code: failure exactly when a sweep met errors. */
  function ExitCode(r: Report): (code: int)
    ensures code == Failure <==> r.Swept? && r.errors > 0
    ensures code == Success || code == Failure
  {
    if r.Swept? && r.errors > 0 then Failure else Success
  }

  // ---------------------------------------------------------------------
  // One document

  /**
   * The disk as the command meets it: `refused` keys are not deleted
   * (`delete` answers false), and any call on a `broken` key throws.
   */
  datatype Faults = Faults(refused: set<string>, broken: set<string>)

  /** The storage part of one document's deletion. */
  datatype DocOutcome = DocOutcome(blobs: Blobs, removeRow: bool, failed: bool, freed: int)

  /**
   * The body of the loop for one document: when the input exists its
   * recorded size is counted as freed and it is deleted; when the output
   * exists its size is counted and it is deleted, whatever the answer;
   * the row goes exactly when the input's deletion did not fail.  A
   * `broken` key aborts the document with an error at the point it is met.
   */
  function CleanupOne(row: Records.DocumentRow, blobs: Blobs, faults: Faults): (o: DocOutcome)
    ensures o.removeRow != o.failed
    ensures o.blobs.Keys <= blobs.Keys
    ensures forall k :: k in o.blobs ==> o.blobs[k] == blobs[k]
    ensures forall k :: k in blobs && k !in o.blobs ==> Some(k) == row.s3Path || Some(k) == row.s3OutputPath
  {
    if Truthy(row.s3Path) && row.s3Path.value in faults.broken then DocOutcome(blobs, false, true, 0)
    else
      var inputPresent := Truthy(row.s3Path) && row.s3Path.value in blobs;
      var freed1 := if inputPresent then row.fileSize.GetOr(0) else 0;
      var inputDeleted := !inputPresent || row.s3Path.value !in faults.refused;
      var blobs1 := if inputPresent && inputDeleted then blobs - {row.s3Path.value} else blobs;
      if Truthy(row.s3OutputPath) && row.s3OutputPath.value in faults.broken then DocOutcome(blobs1, false, true, freed1)
      else
        var outputPresent := Truthy(row.s3OutputPath) && row.s3OutputPath.value in blobs1;
        var freed2 := freed1 + if outputPresent then row.outputFileSize.GetOr(0) else 0;
        var blobs2 := if outputPresent && row.s3OutputPath.value !in faults.refused then blobs1 - {row.s3OutputPath.value}
                      else blobs1;
        DocOutcome(blobs2, inputDeleted, !inputDeleted, freed2)
  }

  // ---------------------------------------------------------------------
  // The loop

  /** The running totals of the loop, and the rows it has deleted. */
  datatype Totals = Totals(removed: set<int>, blobs: Blobs, deleted: nat, errors: nat, freed: int)

  /** The totals after one more document. */
  function Step(t: Totals, id: int, row: Records.DocumentRow, faults: Faults): Totals
  {
    var o := CleanupOne(row, t.blobs, faults);
    if o.removeRow then Totals(t.removed + {id}, o.blobs, t.deleted + 1, t.errors, t.freed + o.freed)
    else Totals(t.removed, o.blobs, t.deleted, t.errors + 1, t.freed + o.freed)
  }

  /** The totals after the documents of `selection`, in order, on the rows as selected. */
  function Sweep(selection: seq<int>, rows: map<int, Records.DocumentRow>, blobs: Blobs, faults: Faults): Totals
    requires forall i :: 0 <= i < |selection| ==> selection[i] in rows
  {
    if selection == [] then Totals({}, blobs, 0, 0, 0)
    else
      var last := selection[|selection| - 1];
      Step(Sweep(selection[..|selection| - 1], rows, blobs, faults), last, rows[last], faults)
  }

  /** The command's storage and table. */
  class CleanupCommand {
    const storage: Storage.StorageService
    const table: DocumentTable

    constructor(storage: Storage.StorageService, table: DocumentTable)
      ensures this.storage == storage && this.table == table
    {
      this.storage := storage;
      this.table := table;
    }

    /** One document's storage deletion, as the loop body performs it. */
    method DeleteFiles(row: Records.DocumentRow, faults: Faults) returns (removeRow: bool, freed: int)
      modifies storage.disk
      ensures var o := CleanupOne(row, old(storage.disk.blobs), faults);
        storage.disk.blobs == o.blobs && removeRow == o.removeRow && freed == o.freed
    {
      freed := 0;
      var storageDeleted := true;
      if Truthy(row.s3Path) {
        if row.s3Path.value in faults.broken {
          return false, 0;
        }
        if storage.disk.Exists(row.s3Path.value) {
          freed := freed + row.fileSize.GetOr(0);
          storageDeleted := storage.disk.Delete(row.s3Path.value, row.s3Path.value in faults.refused);
        }
      }
      if Truthy(row.s3OutputPath) {
        if row.s3OutputPath.value in faults.broken {
          return false, freed;
        }
        if storage.disk.Exists(row.s3OutputPath.value) {
          freed := freed + row.outputFileSize.GetOr(0);
          var _ := storage.disk.Delete(row.s3OutputPath.value, row.s3OutputPath.value in faults.refused);
        }
      }
      removeRow := storageDeleted;
    }

    /**
     * `handle`: reports when nothing is expired, lists without deleting
     * in a dry run, stops when the operator declines (only asked without
     * `--force`), and otherwise runs the loop over the selection.
     */
    method Handle(selection: seq<int>, now: int, dryRun: bool, force: bool, confirmed: bool, faults: Faults)
      returns (report: Report)
      requires IsExpiredSelection(selection, table.rows, now)
      modifies table, storage.disk
      ensures selection == [] ==> report == NothingExpired
      ensures selection != [] && dryRun ==> report == Listed(selection)
      ensures selection != [] && !dryRun && !force && !confirmed ==> report == Cancelled
      ensures !report.Swept? ==> table.rows == old(table.rows) && storage.disk.blobs == old(storage.disk.blobs)
      ensures selection != [] && !dryRun && (force || confirmed) ==>
        var t := Sweep(selection, old(table.rows), old(storage.disk.blobs), faults);
        && report == Swept(t.deleted, t.errors, t.freed)
        && table.rows == old(table.rows) - t.removed
        && storage.disk.blobs == t.blobs
    {
      if selection == [] {
        return NothingExpired;
      }
      if dryRun {
        return Listed(selection);
      }
      if !force && !confirmed {
        return Cancelled;
      }
      var rows0 := table.rows;
      ghost var blobs0 := storage.disk.blobs;
      var deleted, errors, freed := 0, 0, 0;
      ghost var removed: set<int> := {};
      for i := 0 to |selection|
        invariant Sweep(selection[..i], rows0, blobs0, faults) == Totals(removed, storage.disk.blobs, deleted, errors, freed)
        invariant table.rows == rows0 - removed
      {
        var id := selection[i];
        assert selection[..i + 1][..i] == selection[..i];
        var row := rows0[id];
        var removeRow, bytes := DeleteFiles(row, faults);
        freed := freed + bytes;
        if removeRow {
          table.Delete(id);
          removed := removed + {id};
          deleted := deleted + 1;
        } else {
          errors := errors + 1;
        }
      }
      assert selection[..|selection|] == selection;
      report := Swept(deleted, errors, freed);
    }
  }

  // ---------------------------------------------------------------------
  // The dry-run table

  /** The name column: the first 30 bytes of the name, then `...` when it is longer. */
  function TableName(name: string): (shown: Bytes)
    ensures Strlen(name) <= 30 ==> shown == Utf8(name)
    ensures Strlen(name) > 30 ==> |shown| == 33 && shown[..30] == Utf8(name)[..30]
  {
    var b := Utf8(name);
    if |b| <= 30 then b else b[..30] + [0x2E, 0x2E, 0x2E]
  }
}

module ExpiredCleanupProperties {
  import opened Wrappers
  import opened Strings
  import Storage
  import Records
  import opened ExpiredCleanup

  /** Every document of the selection counts once, as deleted or as an error. */
  lemma {:induction false} EveryDocumentCounted(selection: seq<int>, rows: map<int, Records.DocumentRow>, blobs: Blobs,
                                                faults: Faults)
    requires forall i :: 0 <= i < |selection| ==> selection[i] in rows
    ensures var t := Sweep(selection, rows, blobs, faults); t.deleted + t.errors == |selection|
  {
    if selection != [] {
      EveryDocumentCounted(selection[..|selection| - 1], rows, blobs, faults);
    }
  }

  /** One document either removes its row and counts as deleted, or keeps it and counts as an error. */
  lemma StepCounts(t: Totals, id: int, row: Records.DocumentRow, faults: Faults)
    ensures var u := Step(t, id, row, faults);
      || (u.removed == t.removed + {id} && u.deleted == t.deleted + 1 && u.errors == t.errors)
      || (u.removed == t.removed && u.deleted == t.deleted && u.errors == t.errors + 1)
  {
  }

  /**
   * Only selected rows are deleted, one per success, and with no error
   * every selected row is deleted.
   */
  lemma {:induction false} RemovedRows(selection: seq<int>, rows: map<int, Records.DocumentRow>, blobs: Blobs, faults: Faults)
    requires forall i :: 0 <= i < |selection| ==> selection[i] in rows
    requires forall i, j :: 0 <= i < j < |selection| ==> selection[i] != selection[j]
    ensures var t := Sweep(selection, rows, blobs, faults);
      && (forall id :: id in t.removed ==> id in selection)
      && |t.removed| == t.deleted
      && (t.errors == 0 ==> forall id :: id in selection ==> id in t.removed)
  {
    if selection != [] {
      var front := selection[..|selection| - 1];
      var last := selection[|selection| - 1];
      RemovedRows(front, rows, blobs, faults);
      EveryDocumentCounted(front, rows, blobs, faults);
      var t := Sweep(front, rows, blobs, faults);
      StepCounts(t, last, rows[last], faults);
      assert last !in t.removed by {
        assert forall i :: 0 <= i < |front| ==> front[i] != last;
      }
      forall id | id in selection
        ensures id in front || id == last
      {
        var i :| 0 <= i < |selection| && selection[i] == id;
        if i < |front| { assert front[i] == id; }
      }
    }
  }

  /**
   * The sweep deletes only objects named by a selected row, and leaves
   * every other object as it was.
   */
  lemma {:induction false} OnlySelectedFilesDeleted(selection: seq<int>, rows: map<int, Records.DocumentRow>, blobs: Blobs,
                                                    faults: Faults)
    requires forall i :: 0 <= i < |selection| ==> selection[i] in rows
    ensures var t := Sweep(selection, rows, blobs, faults);
      && t.blobs.Keys <= blobs.Keys
      && (forall k :: k in t.blobs ==> t.blobs[k] == blobs[k])
      && (forall k :: k in blobs && k !in t.blobs ==>
            exists i :: 0 <= i < |selection| && (Some(k) == rows[selection[i]].s3Path || Some(k) == rows[selection[i]].s3OutputPath))
  {
    if selection != [] {
      var front := selection[..|selection| - 1];
      var last := selection[|selection| - 1];
      OnlySelectedFilesDeleted(front, rows, blobs, faults);
      var t := Sweep(front, rows, blobs, faults);
      var o := CleanupOne(rows[last], t.blobs, faults);
      forall k | k in blobs && k !in Sweep(selection, rows, blobs, faults).blobs
        ensures exists i :: 0 <= i < |selection| && (Some(k) == rows[selection[i]].s3Path || Some(k) == rows[selection[i]].s3OutputPath)
      {
        if k in t.blobs {
          assert Some(k) == rows[selection[|selection| - 1]].s3Path || Some(k) == rows[selection[|selection| - 1]].s3OutputPath;
        } else {
          var i :| 0 <= i < |front| && (Some(k) == rows[front[i]].s3Path || Some(k) == rows[front[i]].s3OutputPath);
          assert front[i] == selection[i];
        }
      }
    }
  }

  /** A handled selection never deletes an active document's row. */
  lemma ActiveRowsSurvive(selection: seq<int>, rows: map<int, Records.DocumentRow>, now: int, blobs: Blobs, faults: Faults,
                          id: int)
    requires IsExpiredSelection(selection, rows, now)
    requires id in rows && Records.InActiveScope(rows[id], now)
    ensures id in rows - Sweep(selection, rows, blobs, faults).removed
  {
    RemovedRows(selection, rows, blobs, faults);
    Records.ScopesPartition(rows[id], now);
  }

  /**
   * A document whose input the disk refuses to delete keeps its row and
   * counts as an error, its input stays, and yet its recorded size is
   * reported as freed.
   */
  lemma RefusedInputKeepsRow(row: Records.DocumentRow, blobs: Blobs, faults: Faults)
    requires Truthy(row.s3Path) && row.s3Path.value in blobs
    requires row.s3Path.value !in faults.broken && row.s3Path.value in faults.refused
    ensures var o := CleanupOne(row, blobs, faults);
      && !o.removeRow && o.failed
      && row.s3Path.value in o.blobs
      && (!Truthy(row.s3OutputPath) ==> o.freed == row.fileSize.GetOr(0))
  {
  }
}

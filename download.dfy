/**
 * The file download service: fetching the user's PDF from the messaging
 * provider's media URL into the application's temporary directory under a
 * size limit, validating it as a PDF, sweeping old temporary files, and
 * copying a stored object into the system temporary directory.
 */
module FileDownload {
  import opened Wrappers
  import opened Strings
  import opened Bytes
  import Http
  import Storage

  // ---------------------------------------------------------------------
  // Temporary directories

  /** A directory entry: a file with its modification time, or a sub-directory. */
  datatype Entry = File(content: Bytes, mtime: int) | Subdir

  /** A local directory the services write temporary files into. */
  class TempDir {
    var present: bool
    var entries: map<string, Entry>

    constructor(present: bool)
      ensures this.present == present && entries == map[]
    {
      this.present := present;
      entries := map[];
    }

    predicate IsFile(name: string)
      reads this
    {
      name in entries && entries[name].File?
    }

    /** `mkdir`: the directory exists afterwards, its entries untouched. */
    method MakeDir()
      modifies this
      ensures present && entries == old(entries)
    {
      present := true;
    }

    /** `fopen(..., 'w')` followed by writes: the file holds exactly `content`. */
    method Write(name: string, content: Bytes, now: int)
      requires present
      modifies this
      ensures present && entries == old(entries)[name := File(content, now)]
    {
      entries := entries[name := File(content, now)];
    }

    /**
     * `unlink`: succeeds on an existing file unless the system refuses
     * (`refused`); a missing name or a directory is not removed.
     */
    method Unlink(name: string, refused: bool) returns (ok: bool)
      modifies this
      ensures present == old(present)
      ensures ok == (!refused && name in old(entries) && old(entries)[name].File?)
      ensures ok ==> entries == old(entries) - {name}
      ensures !ok ==> entries == old(entries)
    {
      ok := !refused && IsFile(name);
      if ok {
        entries := entries - {name};
      }
    }

    /** `glob` over the directory: every entry not starting with a dot, once, in the order the system gives. */
    method List() returns (names: seq<string>)
      ensures IsListing(names, entries)
    {
      var rest := entries.Keys;
      names := [];
      while rest != {}
        invariant rest <= entries.Keys
        invariant forall i, j :: 0 <= i < j < |names| ==> names[i] != names[j]
        invariant forall n :: n in names ==> n in entries && !StartsWith(n, ".") && n !in rest
        invariant forall n :: n in entries && !StartsWith(n, ".") ==> n in names || n in rest
        decreases rest
      {
        var n :| n in rest;
        rest := rest - {n};
        if !StartsWith(n, ".") {
          names := names + [n];
        }
      }
    }
  }

  // ---------------------------------------------------------------------
  // Constants

  /** Bytes read from the response stream per iteration. */
  const ChunkSize: nat := 8192

  /** The size limit when the application configures none: 50 MiB. */
  const DefaultMaxFileSize: nat := 50 * 1024 * 1024

  /** How the default limit is written in the error message. */
  const DefaultMaxSizeText: string := "50 MB"

  const AllowedMimeType: string := "application/pdf"

  /** `%PDF`. */
  const PdfHeader: Bytes := [0x25, 0x50, 0x44, 0x46]

  /** `%%EOF`. */
  const EofMarker: Bytes := [0x25, 0x25, 0x45, 0x4F, 0x46]

  /** Bytes read back from the end of the file when looking for the marker. */
  const TrailerSize: nat := 1024

  // ---------------------------------------------------------------------
  // Validation

  /**
   * What `fread($h, 1024)` returns after `fseek($h, -1024, SEEK_END)`,
   * the handle having read the four header bytes: the last 1024 bytes,
   * or, when the file is shorter and the seek fails, everything after the
   * header.
   */
  function Trailer(body: Bytes): (t: Bytes)
    ensures |t| <= TrailerSize
  {
    if |body| >= TrailerSize then body[|body| - TrailerSize..]
    else if |body| >= 4 then body[4..]
    else []
  }

  predicate HasPdfHeader(body: Bytes)
  {
    |body| >= 4 && body[..4] == PdfHeader
  }

  /** `validateFile` and `validatePdf`: the first check a downloaded file fails, if any. */
  function ValidationError(body: Bytes, mimeType: string): Option<string>
  {
    if |body| == 0 then Some("Downloaded file is empty")
    else if mimeType != AllowedMimeType then
      Some("Invalid file type: " + mimeType + ". Expected: " + AllowedMimeType)
    else if !HasPdfHeader(body) then Some("Invalid PDF file: missing PDF header")
    else if !BytesContain(Trailer(body), EofMarker) then Some("Invalid PDF file: missing EOF marker")
    else None
  }

  /** The temporary file `downloadFile` writes: `download_{uniqid}.pdf`. */
  function DestinationName(uniq: string): string
  {
    "download_" + uniq + ".pdf"
  }

  /** Why `downloadFile` throws for a given response, if it does. */
  function DownloadError(outcome: Http.Outcome, maxFileSize: nat, maxSizeText: string, mimeType: string): Option<string>
  {
    match outcome
    case ConnectionFailed(message) => Some(message)
    case Responded(response) =>
      if !Http.Successful(response) then Some("Failed to download file: HTTP " + IntToString(response.status))
      else if |response.body| > maxFileSize then Some("File too large. Maximum size: " + maxSizeText)
      else ValidationError(response.body, mimeType)
  }

  /** Whether the destination file is opened at all (a 2xx response). */
  predicate OpensDestination(outcome: Http.Outcome)
  {
    outcome.Responded? && Http.Successful(outcome.response)
  }

  // ---------------------------------------------------------------------
  // Sweeping old temporary files

  /** A listed name the sweep removes: a file last modified before the cutoff. */
  predicate Expired(entries: map<string, Entry>, name: string, cutoff: int)
  {
    name in entries && entries[name].File? && entries[name].mtime < cutoff
  }

  /**
   * The sweep of `cleanupTempFiles` over the listing: the names it
   * removes, in order, and the first expired name it fails to remove (an
   * `unlink` warning, which Laravel turns into an exception that ends the
   * sweep).
   */
  function Sweep(names: seq<string>, entries: map<string, Entry>, cutoff: int, refused: set<string>): (seq<string>, Option<string>)
  {
    if names == [] then ([], None)
    else if !Expired(entries, names[0], cutoff) then Sweep(names[1..], entries, cutoff, refused)
    else if names[0] in refused then ([], Some(names[0]))
    else
      var rest := Sweep(names[1..], entries, cutoff, refused);
      ([names[0]] + rest.0, rest.1)
  }

  /** What `glob` lists for the directory's wildcard: every entry whose name does not start with a dot, once. */
  ghost predicate IsListing(names: seq<string>, entries: map<string, Entry>)
  {
    && (forall i, j :: 0 <= i < j < |names| ==> names[i] != names[j])
    && (forall n :: n in names <==> n in entries && !StartsWith(n, "."))
  }

  // ---------------------------------------------------------------------
  // The service

  class FileDownloadService {
    const maxFileSize: nat
    const maxSizeText: string
    /** `storage/app/temp`. */
    const appTemp: TempDir
    /** The system temporary directory. */
    const sysTemp: TempDir
    /** The storage disk. */
    const disk: Storage.BlobStore

    constructor(appTemp: TempDir, sysTemp: TempDir, disk: Storage.BlobStore)
      ensures maxFileSize == DefaultMaxFileSize && maxSizeText == DefaultMaxSizeText
      ensures this.appTemp == appTemp && this.sysTemp == sysTemp && this.disk == disk
    {
      maxFileSize := DefaultMaxFileSize;
      maxSizeText := DefaultMaxSizeText;
      this.appTemp := appTemp;
      this.sysTemp := sysTemp;
      this.disk := disk;
    }

    /**
     * `downloadFile`: streams the response body into
     * `download_{uniq}.pdf` in chunks of at most 8 KiB, giving up as soon
     * as the running total passes the limit, then validates the file.
     * Every failure after the file is opened removes it. `mimeType` is
     * what `finfo` reports for the written file; `now` its modification
     * time.
     */
    method DownloadFile(outcome: Http.Outcome, uniq: string, mimeType: string, now: int) returns (r: Result<string, string>)
      modifies appTemp
      ensures r.Err? <==> DownloadError(outcome, maxFileSize, maxSizeText, mimeType).Some?
      ensures r.Err? ==> r.error == DownloadError(outcome, maxFileSize, maxSizeText, mimeType).value
      ensures r.Ok? ==> r.value == DestinationName(uniq)
      ensures appTemp.present
      ensures !OpensDestination(outcome) ==> appTemp.entries == old(appTemp.entries)
      ensures OpensDestination(outcome) && r.Ok? ==>
        appTemp.entries == old(appTemp.entries)[DestinationName(uniq) := File(outcome.response.body, now)]
      ensures OpensDestination(outcome) && r.Err? ==>
        appTemp.entries == old(appTemp.entries) - {DestinationName(uniq)}
    {
      var dest := DestinationName(uniq);
      if !appTemp.present {
        appTemp.MakeDir();
      }
      if outcome.ConnectionFailed? {
        return Err(outcome.message);
      }
      var response := outcome.response;
      if !Http.Successful(response) {
        return Err("Failed to download file: HTTP " + IntToString(response.status));
      }
      var body := response.body;
      appTemp.Write(dest, [], now);
      var pos := 0;
      var total := 0;
      while pos < |body|
        invariant 0 <= pos <= |body| && total == pos && total <= maxFileSize
        invariant appTemp.present
        invariant appTemp.entries == old(appTemp.entries)[dest := File(body[..pos], now)]
      {
        var n := if |body| - pos < ChunkSize then |body| - pos else ChunkSize;
        var chunk := body[pos..pos + n];
        total := total + |chunk|;
        if total > maxFileSize {
          var _ := appTemp.Unlink(dest, false);
          return Err("File too large. Maximum size: " + maxSizeText);
        }
        assert body[..pos] + chunk == body[..pos + n];
        appTemp.Write(dest, body[..pos] + chunk, now);
        pos := pos + n;
      }
      assert body[..pos] == body;
      var problem := ValidationError(body, mimeType);
      if problem.Some? {
        var _ := appTemp.Unlink(dest, false);
        return Err(problem.value);
      }
      r := Ok(dest);
    }

    /**
     * `cleanupTempFiles`: with the temporary directory present, removes
     * every listed file last modified more than `olderThanMinutes` before
     * `now` and counts the removals; `refused` names the files the system
     * will not remove, the first of which ends the sweep with an error.
     */
    method CleanupTempFiles(olderThanMinutes: int, now: int, listing: seq<string>, refused: set<string>)
      returns (r: Result<nat, string>)
      requires IsListing(listing, appTemp.entries)
      modifies appTemp
      ensures !old(appTemp.present) ==> r == Ok(0) && appTemp.entries == old(appTemp.entries)
      ensures old(appTemp.present) ==>
        var sweep := Sweep(listing, old(appTemp.entries), now - olderThanMinutes * 60, refused);
        && appTemp.entries == old(appTemp.entries) - (set n | n in sweep.0)
        && r == (if sweep.1.Some? then Err(sweep.1.value) else Ok(|sweep.0|))
      ensures appTemp.present == old(appTemp.present)
    {
      if !appTemp.present {
        return Ok(0);
      }
      var cutoff := now - olderThanMinutes * 60;
      ghost var entries0 := appTemp.entries;
      ghost var removed: seq<string> := [];
      var count := 0;
      var i := 0;
      assert listing[0..] == listing;
      assert [] + Sweep(listing, entries0, cutoff, refused).0 == Sweep(listing, entries0, cutoff, refused).0;
      while i < |listing|
        invariant 0 <= i <= |listing|
        invariant appTemp.present
        invariant count == |removed|
        invariant forall n :: n in removed ==> n in listing[..i]
        invariant appTemp.entries == entries0 - (set n | n in removed)
        invariant Sweep(listing, entries0, cutoff, refused) ==
          (removed + Sweep(listing[i..], entries0, cutoff, refused).0, Sweep(listing[i..], entries0, cutoff, refused).1)
      {
        var name := listing[i];
        ghost var tail := listing[i..];
        SweepUnfold(tail, entries0, cutoff, refused);
        assert tail[0] == name && tail[1..] == listing[i + 1..];
        assert name !in listing[..i];
        assert Expired(appTemp.entries, name, cutoff) == Expired(entries0, name, cutoff);
        if Expired(appTemp.entries, name, cutoff) {
          var ok := appTemp.Unlink(name, name in refused);
          if !ok {
            assert removed + [] == removed;
            return Err(name);
          }
          assert removed + [name] + Sweep(listing[i + 1..], entries0, cutoff, refused).0
              == removed + ([name] + Sweep(listing[i + 1..], entries0, cutoff, refused).0);
          removed := removed + [name];
          count := count + 1;
        }
        assert listing[..i + 1] == listing[..i] + [name];
        i := i + 1;
      }
      assert listing[i..] == [];
      assert removed + [] == removed;
      r := Ok(count);
    }

    /**
     * `downloadFromStorage`: copies a stored object into a fresh file of
     * the system temporary directory (`tempName`, as `tempnam` chose it).
     * A missing object, or one whose content PHP reads as false (empty, or
     * the single character `0`), is reported as not found.
     */
    method DownloadFromStorage(s3Path: string, tempName: string, now: int) returns (r: Result<string, string>)
      requires sysTemp.present
      modifies sysTemp
      ensures r.Err? <==> !StoredTruthy(disk.blobs, s3Path)
      ensures r.Err? ==> r.error == "File not found in storage: " + s3Path && sysTemp.entries == old(sysTemp.entries)
      ensures r.Ok? ==> r.value == tempName
      ensures r.Ok? ==> sysTemp.entries == old(sysTemp.entries)[tempName := File(disk.blobs[s3Path].content, now)]
      ensures sysTemp.present
    {
      if !StoredTruthy(disk.blobs, s3Path) {
        return Err("File not found in storage: " + s3Path);
      }
      sysTemp.Write(tempName, disk.blobs[s3Path].content, now);
      r := Ok(tempName);
    }
  }

  /** A stored object whose content PHP treats as true: present, not empty and not `0`. */
  predicate StoredTruthy(blobs: map<string, Storage.Blob>, key: string)
  {
    key in blobs && blobs[key].content != [] && blobs[key].content != [0x30]
  }

  // ---------------------------------------------------------------------
  // Properties

  /**
   * An accepted download is a PDF: reported as `application/pdf`, it
   * starts with `%PDF`, contains `%%EOF`, and so is at least nine bytes
   * long.
   */
  lemma AcceptedFileIsPdf(body: Bytes, mimeType: string)
    requires ValidationError(body, mimeType).None?
    ensures mimeType == AllowedMimeType
    ensures HasPdfHeader(body)
    ensures BytesContain(body, EofMarker)
    ensures |body| >= 9
  {
    var t := Trailer(body);
    var i :| 0 <= i <= |t| && BytesOccurAt(t, EofMarker, i);
    if |body| >= TrailerSize {
      BytesContainOfSuffix(body, |body| - TrailerSize, EofMarker);
    } else {
      BytesContainOfSuffix(body, 4, EofMarker);
    }
  }

  /** A successful download respects the size limit and is a PDF. */
  lemma DownloadedFileWithinLimit(outcome: Http.Outcome, maxFileSize: nat, maxSizeText: string, mimeType: string)
    requires DownloadError(outcome, maxFileSize, maxSizeText, mimeType).None?
    ensures outcome.Responded? && Http.Successful(outcome.response)
    ensures |outcome.response.body| <= maxFileSize
    ensures HasPdfHeader(outcome.response.body) && BytesContain(outcome.response.body, EofMarker)
  {
    AcceptedFileIsPdf(outcome.response.body, mimeType);
  }

  /**
   * A short file is searched for the marker only after its header: the
   * nine bytes `%PDF%%EOF` pass, while `%PDF%EOF`, whose only `%%EOF`
   * would have to reuse the header's `%`, does not.
   */
  lemma ShortFileMarkerAfterHeader()
    ensures ValidationError(PdfHeader + EofMarker, AllowedMimeType).None?
    ensures ValidationError(PdfHeader + EofMarker[1..], AllowedMimeType) == Some("Invalid PDF file: missing EOF marker")
  {
    var good := PdfHeader + EofMarker;
    assert good[..4] == PdfHeader;
    assert Trailer(good) == EofMarker;
    assert BytesOccurAt(Trailer(good), EofMarker, 0);
    var bad := PdfHeader + EofMarker[1..];
    assert bad[..4] == PdfHeader;
    assert Trailer(bad) == EofMarker[1..];
    assert !BytesContain(Trailer(bad), EofMarker) by {
      forall i | 0 <= i <= |Trailer(bad)| ensures !BytesOccurAt(Trailer(bad), EofMarker, i) {}
    }
  }

  lemma SweepUnfold(names: seq<string>, entries: map<string, Entry>, cutoff: int, refused: set<string>)
    requires names != []
    ensures Sweep(names, entries, cutoff, refused) ==
      if !Expired(entries, names[0], cutoff) then Sweep(names[1..], entries, cutoff, refused)
      else if names[0] in refused then ([], Some(names[0]))
      else ([names[0]] + Sweep(names[1..], entries, cutoff, refused).0, Sweep(names[1..], entries, cutoff, refused).1)
  {
  }

  /** Everything the sweep removes was listed and expired. */
  lemma {:induction false} SweepRemovesOnlyExpired(names: seq<string>, entries: map<string, Entry>, cutoff: int, refused: set<string>)
    ensures forall n :: n in Sweep(names, entries, cutoff, refused).0 ==>
      n in names && Expired(entries, n, cutoff) && n !in refused
    decreases |names|
  {
    if names != [] {
      SweepRemovesOnlyExpired(names[1..], entries, cutoff, refused);
    }
  }

  /** When nothing is refused, the sweep removes every listed expired file. */
  lemma {:induction false} SweepRemovesAllExpired(names: seq<string>, entries: map<string, Entry>, cutoff: int, refused: set<string>)
    requires Sweep(names, entries, cutoff, refused).1.None?
    ensures forall n :: n in names && Expired(entries, n, cutoff) ==> n in Sweep(names, entries, cutoff, refused).0
    decreases |names|
  {
    if names != [] {
      SweepRemovesAllExpired(names[1..], entries, cutoff, refused);
      forall n | n in names && Expired(entries, n, cutoff)
        ensures n in Sweep(names, entries, cutoff, refused).0
      {
        if n != names[0] {
          assert n in names[1..];
        }
      }
    }
  }
}

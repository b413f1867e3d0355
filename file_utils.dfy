/**
 * The upload helpers of the Python PDF service: the PDF check on an
 * uploaded file (name, declared type, magic bytes), the temporary copy
 * that lives exactly as long as the work done on it, and the extension
 * fixer.
 */
module FileUtils {
  import opened Wrappers
  import opened Strings
  import opened Bytes
  import PathLib
  import FileDownload

  /** An uploaded file: the client's file name and content type, and the spooled body with its read position. */
  class Upload {
    const filename: Option<string>
    const contentType: Option<string>
    var data: Bytes
    var pos: nat
    var closed: bool

    constructor(filename: Option<string>, contentType: Option<string>, data: Bytes)
      ensures this.filename == filename && this.contentType == contentType
      ensures this.data == data && pos == 0 && !closed
    {
      this.filename := filename;
      this.contentType := contentType;
      this.data := data;
      pos := 0;
      closed := false;
    }

    /** `seek`: a closed file raises. */
    method Seek(p: nat) returns (raised: bool)
      modifies this
      ensures raised == closed && data == old(data) && closed == old(closed)
      ensures pos == if raised then old(pos) else p
    {
      if closed {
        return true;
      }
      pos := p;
      raised := false;
    }

    /** `read(n)`: at most `n` bytes from the position on; a closed file raises. */
    method Read(n: nat) returns (chunk: Bytes, raised: bool)
      modifies this
      ensures raised == closed && data == old(data) && closed == old(closed)
      ensures raised ==> chunk == [] && pos == old(pos)
      ensures !raised ==> chunk == Window(old(data), old(pos), n) && pos == old(pos) + |chunk|
    {
      if closed {
        return [], true;
      }
      chunk := Window(data, pos, n);
      pos := pos + |chunk|;
      raised := false;
    }
  }

  /** The bytes a read of `n` from position `pos` returns. */
  function Window(data: Bytes, pos: nat, n: nat): (w: Bytes)
    ensures |w| <= n
  {
    if pos >= |data| then [] else if pos + n <= |data| then data[pos..pos + n] else data[pos..]
  }

  // ---------------------------------------------------------------------
  // validate_pdf

  /** The name, lower-cased, ends in `.pdf`; a missing name raises, which counts as a refusal. */
  predicate PdfName(filename: Option<string>)
  {
    filename.Some? && EndsWith(Lower(filename.value), ".pdf")
  }

  /** A declared content type, when there is a non-empty one, starts with `application/pdf`. */
  predicate PdfContentType(contentType: Option<string>)
  {
    contentType.None? || contentType.value == "" || StartsWith(contentType.value, "application/pdf")
  }

  /** The checks before the body is read pass. */
  predicate ReachesSignature(filename: Option<string>, contentType: Option<string>)
  {
    PdfName(filename) && PdfContentType(contentType)
  }

  /** `validate_pdf`'s verdict: the name and type pass and the first four bytes of the open body are `%PDF`. */
  predicate PdfAccepted(filename: Option<string>, contentType: Option<string>, data: Bytes, closed: bool)
  {
    ReachesSignature(filename, contentType) && !closed && Window(data, 0, 4) == FileDownload.PdfHeader
  }

  /**
   * `validate_pdf`: any exception counts as a refusal.  Once the name and
   * the type pass, the position is back at the start afterwards.
   */
  method ValidatePdf(file: Upload) returns (ok: bool)
    modifies file
    ensures ok == PdfAccepted(file.filename, file.contentType, old(file.data), old(file.closed))
    ensures file.data == old(file.data) && file.closed == old(file.closed)
    ensures file.pos == if ReachesSignature(file.filename, file.contentType) && !file.closed then 0 else old(file.pos)
  {
    if !PdfName(file.filename) {
      return false;
    }
    if file.contentType.Some? && file.contentType.value != "" && !StartsWith(file.contentType.value, "application/pdf") {
      return false;
    }
    var raised := file.Seek(0);
    if raised {
      return false;
    }
    var header;
    header, raised := file.Read(4);
    raised := file.Seek(0);
    ok := header == FileDownload.PdfHeader;
  }

  /** Only the last four characters of the name matter, in either case. */
  lemma PdfNameIgnoresCase(stem: string, ext: string)
    requires Lower(ext) == ".pdf"
    ensures PdfName(Some(stem + ext))
  {
    assert Lower(stem + ext) == Lower(stem) + Lower(ext);
    assert |ext| == 4;
  }

  /** A body shorter than four bytes never passes, and one starting with `%PDF` does once the name and type pass. */
  lemma SignatureDecides(filename: Option<string>, contentType: Option<string>, data: Bytes)
    requires ReachesSignature(filename, contentType)
    ensures |data| < 4 ==> !PdfAccepted(filename, contentType, data, false)
    ensures |data| >= 4 ==> (PdfAccepted(filename, contentType, data, false) <==> data[..4] == FileDownload.PdfHeader)
  {
  }

  // ---------------------------------------------------------------------
  // create_temp_file

  /** The temporary directory: files by name. */
  class TempDir {
    var files: map<string, Bytes>

    constructor(files: map<string, Bytes>)
      ensures this.files == files
    {
      this.files := files;
    }
  }

  /**
   * `create_temp_file` around the work `body` does on the copy: the rest of
   * the upload, from its position on, is copied to a fresh file, the upload
   * is rewound and the work runs on the copy; whether the work succeeds or
   * raises, and whether the copy itself raised, the file is gone afterwards.
   */
  method WithTempCopy<T>(upload: Upload, dir: TempDir, name: string, body: Bytes -> Result<T, string>) returns (r: Result<T, string>)
    requires name !in dir.files
    modifies upload, dir
    ensures dir.files == old(dir.files)
    ensures upload.data == old(upload.data) && upload.closed == old(upload.closed)
    ensures !old(upload.closed) ==> r == body(Window(old(upload.data), old(upload.pos), |old(upload.data)|)) && upload.pos == 0
    ensures old(upload.closed) ==> r.Err? && upload.pos == old(upload.pos)
  {
    ghost var before := dir.files;
    dir.files := dir.files[name := []];
    var copied, raised := upload.Read(|upload.data|);
    if raised {
      dir.files := dir.files - {name};
      assert dir.files == before;
      return Err("ValueError: I/O operation on closed file.");
    }
    dir.files := dir.files[name := copied];
    raised := upload.Seek(0);
    r := body(dir.files[name]);
    dir.files := dir.files - {name};
    assert dir.files == before;
  }

  // ---------------------------------------------------------------------
  // ensure_file_extension

  /** `ensure_file_extension`: the path is kept when its suffix is already `.ext`, and given that suffix otherwise. */
  function EnsureFileExtension(filePath: string, extension: string): Result<string, string>
  {
    if PathLib.Suffix(PathLib.Name(filePath)) == "." + extension then Ok(filePath)
    else PathLib.WithSuffix(filePath, "." + extension)
  }

  /** For an extension without a dot, the result carries that suffix and only the last suffix of the name was replaced. */
  lemma EnsuredSuffix(filePath: string, extension: string)
    requires '.' !in extension
    requires EnsureFileExtension(filePath, extension).Ok?
    ensures var r := EnsureFileExtension(filePath, extension).value;
      PathLib.Suffix(PathLib.Name(r)) == "." + extension
      && PathLib.Stem(PathLib.Name(r)) == PathLib.Stem(PathLib.Name(filePath))
      && PathLib.Dir(r) == PathLib.Dir(filePath)
  {
    var name := PathLib.Name(filePath);
    if PathLib.Suffix(name) != "." + extension {
      var suffix := "." + extension;
      assert extension != [] && '/' !in extension by {
        assert suffix != ".";
        assert forall j :: 0 <= j < |extension| ==> suffix[1 + j] == extension[j];
      }
      PathLib.WithSuffixParts(filePath, extension);
    }
  }

  /** For an extension without a dot, ensuring it twice is ensuring it once. */
  lemma EnsureIdempotent(filePath: string, extension: string)
    requires '.' !in extension
    requires EnsureFileExtension(filePath, extension).Ok?
    ensures var r := EnsureFileExtension(filePath, extension).value;
      EnsureFileExtension(r, extension) == Ok(r)
  {
    EnsuredSuffix(filePath, extension);
  }

  /** With a dotted extension the check never matches, so each call adds another copy of the first part. */
  lemma DottedExtensionGrows()
    ensures EnsureFileExtension("a.tar.gz", "tar.gz") == Ok("a.tar.tar.gz")
    ensures EnsureFileExtension("a.tar.tar.gz", "tar.gz") == Ok("a.tar.tar.tar.gz")
  {
    PathLib.NameOfPlain("a.tar.gz");
    PathLib.SuffixOfAppended("a.tar", "gz");
    assert "a.tar" + "." + "gz" == "a.tar.gz";
    assert '/' !in ".tar.gz";
    assert "." + "tar.gz" == ".tar.gz";
    assert "" + "a.tar" + ".tar.gz" == "a.tar.tar.gz";
    PathLib.NameOfPlain("a.tar.tar.gz");
    PathLib.SuffixOfAppended("a.tar.tar", "gz");
    assert "a.tar.tar" + "." + "gz" == "a.tar.tar.gz";
    assert "" + "a.tar.tar" + ".tar.gz" == "a.tar.tar.tar.gz";
  }

  /** An empty extension asks for the suffix `.`, which `with_suffix` refuses. */
  lemma EmptyExtensionRefused(filePath: string)
    ensures EnsureFileExtension(filePath, "").Err?
  {
  }
}

/**
 * The storage service: key derivation for uploaded and processed files,
 * signed-URL fallback, and a private blob store standing for the S3/MinIO
 * disk.
 */
module Storage {
  import opened Wrappers
  import opened Strings
  import opened Bytes

  // ---------------------------------------------------------------------
  // Key derivation

  /** The parts PHP `pathinfo` reports for a storage key. */
  datatype PathInfo = PathInfo(dirname: string, basename: string, filename: string, extension: Option<string>)

  /** Index of the last `/`, or -1. */
  function LastSlash(path: string): int
  {
    LastIndexOfChar(path, '/')
  }

  /** A basename split at its last `.`: the filename and, when there is a dot, the extension. */
  function SplitExtension(base: string): (string, Option<string>)
  {
    var dot := LastIndexOfChar(base, '.');
    if dot < 0 then (base, None) else (base[..dot], Some(base[dot + 1..]))
  }

  /**
   * PHP `pathinfo` on a key: the directory is everything before the last
   * `/` (`.` when there is none, `/` for a root key); the extension is
   * what follows the basename's last `.`, when it has one.
   */
  function PathInfoOf(path: string): PathInfo
  {
    var slash := LastSlash(path);
    var dir := if slash < 0 then "." else if slash == 0 then "/" else path[..slash];
    var base := path[slash + 1..];
    var parts := SplitExtension(base);
    PathInfo(dir, base, parts.0, parts.1)
  }

  /** The extension holds no `.` and filename, dot and extension give the basename back. */
  lemma SplitExtensionReassembles(base: string)
    ensures var (f, e) := SplitExtension(base);
      && (e.Some? ==> '.' !in e.value && base == f + "." + e.value)
      && (e.None? ==> '.' !in base && f == base)
  {
    var dot := LastIndexOfChar(base, '.');
    if dot >= 0 {
      var ext := base[dot + 1..];
      assert '.' !in ext by {
        forall i | 0 <= i < |ext| ensures ext[i] != '.' { assert ext[i] == base[dot + 1 + i]; }
      }
      assert base == base[..dot] + "." + ext;
    }
  }

  /**
   * The basename holds no `/`; a key without `/` is its own basename in
   * directory `.`; a key `/x` is `x` in directory `/`; otherwise the
   * directory, a slash and the basename give the key back.
   */
  lemma DirectorySplitReassembles(path: string)
    ensures var p := PathInfoOf(path);
      && '/' !in p.basename
      && ('/' !in path ==> p.dirname == "." && p.basename == path)
      && (LastSlash(path) == 0 ==> p.dirname == "/" && "/" + p.basename == path)
      && (LastSlash(path) > 0 ==> p.dirname + "/" + p.basename == path)
  {
    var p := PathInfoOf(path);
    var slash := LastSlash(path);
    var base := path[slash + 1..];
    assert '/' !in base by {
      forall i | 0 <= i < |base| ensures base[i] != '/' { assert base[i] == path[slash + 1 + i]; }
    }
    if slash < 0 {
      assert base == path;
    } else {
      assert '/' in path;
      assert path == path[..slash] + "/" + base;
    }
  }

  /**
   * What `pathinfo` promises: the basename holds no `/`, the extension no
   * `.`, the basename is the filename plus the extension, and the
   * directory and the basename put back together give the key.
   */
  lemma PathInfoReassembles(path: string)
    ensures var p := PathInfoOf(path);
      && '/' !in p.basename
      && (p.extension.Some? ==> '.' !in p.extension.value && p.basename == p.filename + "." + p.extension.value)
      && (p.extension.None? ==> '.' !in p.basename && p.filename == p.basename)
      && ('/' !in path ==> p.dirname == "." && p.basename == path)
      && (LastSlash(path) == 0 ==> p.dirname == "/" && "/" + p.basename == path)
      && (LastSlash(path) > 0 ==> p.dirname + "/" + p.basename == path)
  {
    DirectorySplitReassembles(path);
    SplitExtensionReassembles(PathInfoOf(path).basename);
  }

  /**
   * The key `storeProcessedFile` writes: the original key's directory and
   * name, the suffix, and the original extension (`pdf` when it has none).
   */
  function ProcessedKey(originalPath: string, suffix: string): string
  {
    var p := PathInfoOf(originalPath);
    p.dirname + "/" + p.filename + suffix + "." + p.extension.GetOr("pdf")
  }

  /** The first eight characters of a digest (PHP `substr($h, 0, 8)`). */
  function Prefix8(h: string): (r: string)
    ensures |r| == if |h| < 8 then |h| else 8
  {
    if |h| < 8 then h else h[..8]
  }

  /**
   * `generateUniqueFilename`: `{timestamp}_{8 hex digits}.{extension}`,
   * the digits being the start of the MD5 of the client name and the
   * timestamp (`digest`).
   */
  function UniqueFilename(stamp: string, digest: string, extension: string): (name: string)
    ensures StartsWith(name, stamp + "_")
    ensures EndsWith(name, "." + extension)
  {
    var name := stamp + "_" + Prefix8(digest) + "." + extension;
    assert name[..|stamp| + 1] == stamp + "_";
    assert name[|name| - |extension| - 1..] == "." + extension;
    name
  }

  /** `getTemporaryUrl`: the signed URL, or the plain URL when signing throws. */
  function TemporaryUrl(signed: Option<string>, plain: string): (url: string)
    ensures signed.None? ==> url == plain
    ensures signed.Some? ==> url == signed.value
  {
    signed.GetOr(plain)
  }

  // ---------------------------------------------------------------------
  // The blob store

  /** A stored object: its bytes, its visibility and, when given, its content type. */
  datatype Blob = Blob(content: Bytes, isPrivate: bool, contentType: Option<string>)

  /**
   * How the disk answers a write: it stores the object, refuses it (the
   * filesystem adapter's `put` returns false), or throws with a message.
   */
  datatype PutAnswer = Stored | Refused | Throws(message: string)

  /** The disk after a write answered with `answer`: only a stored write changes it. */
  function AfterPut(blobs: map<string, Blob>, key: string, blob: Blob, answer: PutAnswer): map<string, Blob>
  {
    if answer.Stored? then blobs[key := blob] else blobs
  }

  /** The storage disk: a map from keys to objects. */
  class BlobStore {
    var blobs: map<string, Blob>

    constructor()
      ensures blobs == map[]
    {
      blobs := map[];
    }

    /** `Storage::exists`. */
    predicate Exists(key: string)
      reads this
    {
      key in blobs
    }

    /**
     * `Storage::put` with private visibility: `true` once stored, `false`
     * when the disk refuses the write, or the exception it throws.
     */
    method Put(key: string, content: Bytes, contentType: Option<string>, answer: PutAnswer) returns (r: Result<bool, string>)
      modifies this
      ensures r.Ok? <==> !answer.Throws?
      ensures r == Ok(true) <==> answer.Stored?
      ensures r.Err? ==> r.error == answer.message
      ensures blobs == AfterPut(old(blobs), key, Blob(content, true, contentType), answer)
    {
      match answer
      case Stored =>
        blobs := blobs[key := Blob(content, true, contentType)];
        r := Ok(true);
      case Refused =>
        r := Ok(false);
      case Throws(message) =>
        r := Err(message);
    }

    /**
     * `Storage::delete`: true once the key is gone (a missing key counts
     * as deleted); `fails` stands for a disk that refuses the deletion.
     */
    method Delete(key: string, fails: bool) returns (deleted: bool)
      modifies this
      ensures deleted == !fails
      ensures deleted ==> blobs == old(blobs) - {key} && !Exists(key)
      ensures !deleted ==> blobs == old(blobs)
    {
      if fails {
        deleted := false;
      } else {
        blobs := blobs - {key};
        deleted := true;
      }
    }
  }

  /** An uploaded file as the HTTP layer describes it. */
  datatype Upload = Upload(content: Bytes, clientName: string, clientExtension: string, mimeType: string)

  /** The array `uploadFile` returns. */
  datatype UploadInfo = UploadInfo(path: string, url: string, size: nat, mimeType: string, originalName: string)

  /** The storage service over one disk. */
  class StorageService {
    const disk: BlobStore

    constructor(disk: BlobStore)
      ensures this.disk == disk
    {
      this.disk := disk;
    }

    /**
     * `uploadFile`: stores the upload privately under
     * `{directory}/{unique name}` and reports its size and client name.
     * `stamp` and `digest` are the clock and MD5 values the name is made
     * of; `signedUrl` and `plainUrl` are the disk's answers for the new key.
     */
    method UploadFile(file: Upload, directory: string, stamp: string, digest: string,
                      signedUrl: Option<string>, plainUrl: string) returns (info: UploadInfo)
      modifies disk
      ensures StartsWith(info.path, directory + "/")
      ensures info.path == directory + "/" + UniqueFilename(stamp, digest, file.clientExtension)
      ensures info.size == |file.content| && info.originalName == file.clientName
      ensures info.mimeType == file.mimeType && info.url == TemporaryUrl(signedUrl, plainUrl)
      ensures disk.blobs == old(disk.blobs)[info.path := Blob(file.content, true, None)]
    {
      var path := directory + "/" + UniqueFilename(stamp, digest, file.clientExtension);
      assert path[..|directory| + 1] == directory + "/";
      var _ := disk.Put(path, file.content, None, Stored);
      info := UploadInfo(path, TemporaryUrl(signedUrl, plainUrl), |file.content|, file.mimeType, file.clientName);
    }

    /**
     * `storeProcessedFile`: writes the content privately under the derived
     * key and returns the key, whether or not the disk stored it (`put`'s
     * answer is ignored); an exception from the disk propagates.
     */
    method StoreProcessedFile(content: Bytes, originalPath: string, suffix: string, answer: PutAnswer)
      returns (r: Result<string, string>)
      modifies disk
      ensures r.Err? <==> answer.Throws?
      ensures r.Err? ==> r.error == answer.message
      ensures r.Ok? ==> r.value == ProcessedKey(originalPath, suffix)
      ensures disk.blobs == AfterPut(old(disk.blobs), ProcessedKey(originalPath, suffix), Blob(content, true, None), answer)
    {
      var key := ProcessedKey(originalPath, suffix);
      var written := disk.Put(key, content, None, answer);
      if written.Err? {
        return Err(written.error);
      }
      r := Ok(key);
    }

    /**
     * `storeFileContent` as written: the content is written, then the
     * unqualified `Log::info` inside the `App\Services` namespace names a
     * class that does not exist, and the resulting `Error` escapes the
     * `catch (\Exception)`.  When the disk throws, the `catch` calls
     * `Log::error`, which fails the same way.
     */
    method StoreFileContentAsWritten(path: string, content: Bytes, mimeType: string, answer: PutAnswer)
      returns (r: Result<bool, string>)
      modifies disk
      ensures r == Err(MissingLogClass)
      ensures disk.blobs == AfterPut(old(disk.blobs), path, Blob(content, true, Some(mimeType)), answer)
    {
      var _ := disk.Put(path, content, Some(mimeType), answer);
      r := Err(MissingLogClass);
    }

    /**
     * `storeFileContent` with the log facade imported: `put`'s answer is
     * returned, `true` exactly when the content is stored with its MIME
     * type, and a disk exception is rethrown.
     */
    method StoreFileContent(path: string, content: Bytes, mimeType: string, answer: PutAnswer)
      returns (r: Result<bool, string>)
      modifies disk
      ensures r.Ok? <==> !answer.Throws?
      ensures r.Err? ==> r.error == answer.message
      ensures r == Ok(true) <==> answer.Stored?
      ensures r == Ok(true) ==> disk.Exists(path)
      ensures disk.blobs == AfterPut(old(disk.blobs), path, Blob(content, true, Some(mimeType)), answer)
    {
      r := disk.Put(path, content, Some(mimeType), answer);
    }
  }

  /** The error PHP raises for the unimported facade. */
  const MissingLogClass: string := "Class \"App\\Services\\Log\" not found"

  // ---------------------------------------------------------------------
  // Properties of the key derivation

  /**
   * A key `dir/name.ext` (non-empty directory, name and extension free of
   * `/` and `.`) gives `dir/name{suffix}.ext`.
   */
  lemma ProcessedKeyOfSimpleKey(dir: string, name: string, ext: string, suffix: string)
    requires dir != [] && '/' !in name && '/' !in ext && '.' !in name && '.' !in ext
    ensures ProcessedKey(dir + "/" + name + "." + ext, suffix) == dir + "/" + name + suffix + "." + ext
  {
    var base := name + "." + ext;
    assert '/' !in base;
    assert dir + "/" + name + "." + ext == dir + "/" + base;
    PathInfoSplit(dir, base);
    SplitExtensionOf(name, ext);
  }

  lemma PathInfoSplit(dir: string, base: string)
    requires dir != [] && '/' !in base
    ensures PathInfoOf(dir + "/" + base).dirname == dir
    ensures PathInfoOf(dir + "/" + base).basename == base
  {
    var path := dir + "/" + base;
    assert path[|dir|] == '/';
    assert forall j :: |dir| < j < |path| ==> path[j] == base[j - |dir| - 1];
    var slash := LastSlash(path);
    assert slash == |dir|;
    assert path[..slash] == dir;
    assert path[slash + 1..] == base;
  }

  lemma SplitExtensionOf(name: string, ext: string)
    requires '.' !in name && '.' !in ext
    ensures SplitExtension(name + "." + ext) == (name, Some(ext))
  {
    var base := name + "." + ext;
    assert base[|name|] == '.';
    assert forall j :: |name| < j < |base| ==> base[j] == ext[j - |name| - 1];
    assert LastIndexOfChar(base, '.') == |name|;
    assert base[..|name|] == name;
    assert base[|name| + 1..] == ext;
  }

  /** A key without a directory yields a key under `./`, as PHP reports the directory as `.`. */
  lemma ProcessedKeyWithoutDirectory(path: string, suffix: string)
    requires '/' !in path
    ensures StartsWith(ProcessedKey(path, suffix), "./")
  {
    var p := PathInfoOf(path);
    assert LastSlash(path) == -1;
    assert p.dirname == ".";
    var rest := p.filename + suffix + "." + p.extension.GetOr("pdf");
    assert ProcessedKey(path, suffix) == "./" + rest;
  }
}

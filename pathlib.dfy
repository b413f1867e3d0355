/**
 * The parts of Python's `pathlib` the PDF services use, on POSIX paths
 * written without repeated or trailing slashes: the final component, its
 * suffix and stem, and `with_suffix`.
 */
module PathLib {
  import opened Wrappers
  import opened Strings

  /** Where the final component starts: just after the last `/`. */
  function NameStart(p: string): (k: nat)
    ensures k <= |p|
    ensures forall i :: k <= i < |p| ==> p[i] != '/'
    ensures k > 0 ==> p[k - 1] == '/'
  {
    LastIndexOfChar(p, '/') + 1
  }

  /** `PurePath.name`. */
  function Name(p: string): string
  {
    p[NameStart(p)..]
  }

  /** The directory part kept by `with_suffix`: everything up to and including the last `/`. */
  function Dir(p: string): string
  {
    p[..NameStart(p)]
  }

  /**
   * Where the suffix of a name starts: its last `.`, unless that dot is the
   * first or the last character, in which case there is no suffix.
   */
  function SuffixStart(name: string): (k: nat)
    ensures k <= |name|
    ensures k < |name| ==> 0 < k < |name| - 1 && name[k] == '.'
  {
    var i := LastIndexOfChar(name, '.');
    if 0 < i < |name| - 1 then i else |name|
  }

  /** `PurePath.suffix` of a name. */
  function Suffix(name: string): string
  {
    name[SuffixStart(name)..]
  }

  /** `PurePath.stem` of a name. */
  function Stem(name: string): string
  {
    name[..SuffixStart(name)]
  }

  /** `Path(p).stem`. */
  function StemOf(p: string): string
  {
    Stem(Name(p))
  }

  /**
   * `PurePath.with_suffix`: a suffix holding a `/`, or not starting with a
   * dot, or that is a lone dot, is refused, and so is a path with an empty
   * name; otherwise the old suffix (if any) is replaced.
   */
  function WithSuffix(p: string, suffix: string): Result<string, string>
  {
    if '/' in suffix then Err("Invalid suffix '" + suffix + "'")
    else if (suffix != "" && suffix[0] != '.') || suffix == "." then Err("Invalid suffix '" + suffix + "'")
    else if Name(p) == "" then Err("'" + p + "' has an empty name")
    else Ok(Dir(p) + Stem(Name(p)) + suffix)
  }

  /** A name is its stem followed by its suffix. */
  lemma StemSuffix(name: string)
    ensures Stem(name) + Suffix(name) == name
  {
  }

  /** The suffix of a name made of a non-empty base, a dot and a dotless, non-empty extension is that dot and extension. */
  lemma SuffixOfAppended(base: string, ext: string)
    requires base != [] && ext != [] && '.' !in ext
    ensures Suffix(base + "." + ext) == "." + ext
    ensures Stem(base + "." + ext) == base
  {
    var name := base + "." + ext;
    var i := LastIndexOfChar(name, '.');
    assert name[|base|] == '.';
    assert i == |base| by {
      forall j | |base| < j < |name| ensures name[j] != '.' {
        assert name[j] == ext[j - |base| - 1];
      }
    }
  }

  /** Replacing the final component of a path by a text without `/` keeps the directory and makes that text the name. */
  lemma NameAfterDir(p: string, tail: string)
    requires '/' !in tail
    ensures Name(Dir(p) + tail) == tail
    ensures Dir(Dir(p) + tail) == Dir(p)
  {
    var q := Dir(p) + tail;
    var k := NameStart(p);
    if k > 0 {
      assert q[k - 1] == '/';
    }
    forall j | k <= j < |q| ensures q[j] != '/' {
      assert q[j] == tail[j - k];
    }
    assert NameStart(q) == k;
  }

  /** The final component of a path holds no `/`. */
  lemma NameHasNoSlash(p: string)
    ensures '/' !in Name(p)
  {
    var n := Name(p);
    forall j | 0 <= j < |n| ensures n[j] != '/' {
      assert n[j] == p[NameStart(p) + j];
    }
  }

  /** A path without `/` is its own name, with an empty directory part. */
  lemma NameOfPlain(p: string)
    requires '/' !in p
    ensures NameStart(p) == 0 && Name(p) == p && Dir(p) == ""
  {
  }

  /**
   * `with_suffix` on a path with a name and a dotless extension: the result
   * keeps the directory and the stem, and its suffix is the new one.
   */
  lemma WithSuffixParts(p: string, ext: string)
    requires ext != [] && '.' !in ext && '/' !in ext && Name(p) != ""
    ensures WithSuffix(p, "." + ext) == Ok(Dir(p) + Stem(Name(p)) + "." + ext)
    ensures var r := Dir(p) + Stem(Name(p)) + "." + ext;
      Dir(r) == Dir(p) && Name(r) == Stem(Name(p)) + "." + ext
      && Suffix(Name(r)) == "." + ext && Stem(Name(r)) == Stem(Name(p))
  {
    var name := Name(p);
    var stem := Stem(name);
    var tail := stem + "." + ext;
    var suffix := "." + ext;
    assert suffix[0] == '.' && suffix != ".";
    assert '/' !in suffix by {
      assert forall j :: 0 <= j < |ext| ==> suffix[1 + j] == ext[j];
    }
    NameHasNoSlash(p);
    assert '/' !in tail by {
      assert forall j :: 0 <= j < |stem| ==> stem[j] == name[j];
      assert forall j :: 0 <= j < |ext| ==> tail[|stem| + 1 + j] == ext[j];
    }
    assert Dir(p) + stem + suffix == Dir(p) + stem + "." + ext == Dir(p) + tail;
    NameAfterDir(p, tail);
    SuffixOfAppended(stem, ext);
  }
}

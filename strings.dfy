/**
 * String primitives shared by the PHP and Python parts of the model:
 * trimming, ASCII case folding, splitting, joining, searching and
 * decimal rendering.  PHP strings are byte strings and its case functions
 * only touch ASCII letters; modelling them over `char` with ASCII-only
 * folding keeps every non-ASCII character unchanged, as PHP does.
 */
module Strings {
  import opened Wrappers

  /** Characters stripped by PHP `trim` with its default character list. */
  const PhpTrimSet: set<char> := {' ', '\t', '\n', '\r', '\0', '\U{000B}'}

  /** Characters matched by PCRE `\s` (space, tab, LF, VT, FF, CR). */
  const PcreSpaceSet: set<char> := {' ', '\t', '\n', '\U{000B}', '\U{000C}', '\r'}

  /** Characters for which Python `str.isspace` holds. */
  const PySpaceSet: set<char> :=
    {' ', '\t', '\n', '\U{000B}', '\U{000C}', '\r', '\U{001C}', '\U{001D}', '\U{001E}', '\U{001F}',
     '\U{0085}', '\U{00A0}', '\U{1680}', '\U{2000}', '\U{2001}', '\U{2002}', '\U{2003}', '\U{2004}',
     '\U{2005}', '\U{2006}', '\U{2007}', '\U{2008}', '\U{2009}', '\U{200A}', '\U{2028}', '\U{2029}',
     '\U{202F}', '\U{205F}', '\U{3000}'}

  /** Python's whitespace is control characters up to the space, or characters from U+0085 on. */
  lemma NotPySpace(c: char)
    requires ' ' < c < '\U{0085}'
    ensures c !in PySpaceSet
  {
  }

  predicate NoneIn(s: string, cs: set<char>)
  {
    forall i :: 0 <= i < |s| ==> s[i] !in cs
  }

  predicate AllIn(s: string, cs: set<char>)
  {
    forall i :: 0 <= i < |s| ==> s[i] in cs
  }

  /** `r` occurs in `s` starting at index `i`. */
  predicate SliceAt(s: string, r: string, i: int)
  {
    0 <= i <= |s| - |r| && r == s[i..i + |r|]
  }

  // ---------------------------------------------------------------------
  // Trimming

  function TrimLeft(s: string, cs: set<char>): (r: string)
    ensures |r| <= |s| && r == s[|s| - |r|..]
    ensures r == [] || r[0] !in cs
    ensures forall i :: 0 <= i < |s| - |r| ==> s[i] in cs
    decreases |s|
  {
    if s != [] && s[0] in cs then TrimLeft(s[1..], cs) else s
  }

  function TrimRight(s: string, cs: set<char>): (r: string)
    ensures |r| <= |s| && r == s[..|r|]
    ensures r == [] || r[|r| - 1] !in cs
    ensures forall i :: |r| <= i < |s| ==> s[i] in cs
    decreases |s|
  {
    if s != [] && s[|s| - 1] in cs then TrimRight(s[..|s| - 1], cs) else s
  }

  /** Removes leading and trailing characters of `cs`; the result is a slice of `s`. */
  function Trim(s: string, cs: set<char>): (r: string)
    ensures exists i :: SliceAt(s, r, i) && AllIn(s[..i], cs) && AllIn(s[i + |r|..], cs)
    ensures r == [] || (r[0] !in cs && r[|r| - 1] !in cs)
  {
    var l := TrimLeft(s, cs);
    var r := TrimRight(l, cs);
    var i := |s| - |l|;
    assert l == s[i..];
    assert r == l[..|r|] == s[i..i + |r|];
    assert SliceAt(s, r, i);
    r
  }

  /** Trimming never brings in a character the text did not have. */
  lemma TrimAvoids(s: string, cs: set<char>, c: char)
    requires c !in s
    ensures c !in Trim(s, cs)
  {
    var l := TrimLeft(s, cs);
    SliceAvoids(s, |s| - |l|, |s|, c);
    SliceAvoids(l, 0, |TrimRight(l, cs)|, c);
  }

  /** A slice holds no character its text does not hold. */
  lemma SliceAvoids(s: string, a: int, b: int, c: char)
    requires 0 <= a <= b <= |s| && c !in s
    ensures c !in s[a..b]
  {
    forall j | 0 <= j < b - a ensures s[a..b][j] != c {
      assert s[a..b][j] == s[a + j];
    }
  }

  /** A character outside `cs` survives trimming, so the result is not empty. */
  lemma TrimKeeps(s: string, cs: set<char>, k: int)
    requires 0 <= k < |s| && s[k] !in cs
    ensures Trim(s, cs) != []
  {
    var r := Trim(s, cs);
    var i :| SliceAt(s, r, i) && AllIn(s[..i], cs) && AllIn(s[i + |r|..], cs);
    if k < i {
      assert s[..i][k] == s[k];
    } else if k >= i + |r| {
      assert s[i + |r|..][k - i - |r|] == s[k];
    }
  }

  /** PHP `trim($s)`. */
  function PhpTrim(s: string): string { Trim(s, PhpTrimSet) }

  /** Python `s.strip()`. */
  function PyStrip(s: string): string { Trim(s, PySpaceSet) }

  /** PHP `empty($s)` on a string: true for "" and "0". */
  predicate PhpEmpty(s: string) { s == "" || s == "0" }

  /** PHP truthiness of an optional string: present, not empty and not `0`. */
  predicate Truthy(s: Option<string>)
  {
    s.Some? && !PhpEmpty(s.value)
  }

  // ---------------------------------------------------------------------
  // ASCII case folding (PHP `strtoupper`/`strtolower`, Python `lower`
  // restricted to what the model feeds it)

  function UpperChar(c: char): (d: char)
    ensures 'a' <= c <= 'z' ==> d as int == c as int - 32
    ensures !('a' <= c <= 'z') ==> d == c
  {
    if 'a' <= c <= 'z' then (c as int - 32) as char else c
  }

  function LowerChar(c: char): (d: char)
    ensures 'A' <= c <= 'Z' ==> d as int == c as int + 32
    ensures !('A' <= c <= 'Z') ==> d == c
  {
    if 'A' <= c <= 'Z' then (c as int + 32) as char else c
  }

  function Upper(s: string): (r: string)
    ensures |r| == |s|
    ensures forall i :: 0 <= i < |s| ==> r[i] == UpperChar(s[i])
  {
    seq(|s|, i requires 0 <= i < |s| => UpperChar(s[i]))
  }

  function Lower(s: string): (r: string)
    ensures |r| == |s|
    ensures forall i :: 0 <= i < |s| ==> r[i] == LowerChar(s[i])
  {
    seq(|s|, i requires 0 <= i < |s| => LowerChar(s[i]))
  }

  /** Python `s.capitalize()` on ASCII letters: the first character upper-cased, the rest lower-cased. */
  function Capitalize(s: string): (r: string)
    ensures |r| == |s|
    ensures s != [] ==> r[0] == UpperChar(s[0]) && r[1..] == Lower(s[1..])
  {
    if s == [] then "" else [UpperChar(s[0])] + Lower(s[1..])
  }

  /** A string no folding step changes: no ASCII upper-case letter. */
  predicate IsLowerFixed(s: string)
  {
    forall i :: 0 <= i < |s| ==> !('A' <= s[i] <= 'Z')
  }

  /** Lower-casing after upper-casing is plain lower-casing. */
  lemma LowerUpper(s: string)
    ensures Lower(Upper(s)) == Lower(s)
  {
    assert forall i :: 0 <= i < |s| ==> LowerChar(UpperChar(s[i])) == LowerChar(s[i]);
  }

  /** Upper-casing after lower-casing is plain upper-casing. */
  lemma UpperLower(s: string)
    ensures Upper(Lower(s)) == Upper(s)
  {
    assert forall i :: 0 <= i < |s| ==> UpperChar(LowerChar(s[i])) == UpperChar(s[i]);
  }

  /** A set of characters holding no ASCII letter. */
  predicate NoLetters(cs: set<char>)
  {
    forall c :: c in cs ==> !('a' <= c <= 'z') && !('A' <= c <= 'Z')
  }

  lemma {:induction false} TrimLeftLower(s: string, cs: set<char>)
    requires NoLetters(cs)
    ensures TrimLeft(Lower(s), cs) == Lower(TrimLeft(s, cs))
    decreases |s|
  {
    if s != [] {
      var ls := Lower(s);
      assert ls[0] in cs <==> s[0] in cs;
      assert ls[1..] == Lower(s[1..]);
      TrimLeftLower(s[1..], cs);
    }
  }

  lemma {:induction false} TrimRightLower(s: string, cs: set<char>)
    requires NoLetters(cs)
    ensures TrimRight(Lower(s), cs) == Lower(TrimRight(s, cs))
    decreases |s|
  {
    if s != [] {
      var ls := Lower(s);
      assert ls[|s| - 1] in cs <==> s[|s| - 1] in cs;
      assert ls[..|s| - 1] == Lower(s[..|s| - 1]);
      TrimRightLower(s[..|s| - 1], cs);
    }
  }

  /** Trimming and lower-casing commute when no letter is trimmed. */
  lemma TrimLower(s: string, cs: set<char>)
    requires NoLetters(cs)
    ensures Trim(Lower(s), cs) == Lower(Trim(s, cs))
  {
    TrimLeftLower(s, cs);
    TrimRightLower(TrimLeft(s, cs), cs);
  }

  /** Lower-casing a lower-case-fixed string changes nothing. */
  lemma LowerOfFixed(s: string)
    requires IsLowerFixed(s)
    ensures Lower(s) == s
  {
  }

  // ---------------------------------------------------------------------
  // Searching

  predicate StartsWith(s: string, p: string)
  {
    |p| <= |s| && s[..|p|] == p
  }

  lemma StartsWithConcat(p: string, x: string)
    ensures StartsWith(p + x, p)
  {
    assert (p + x)[..|p|] == p;
  }

  predicate EndsWith(s: string, p: string)
  {
    |p| <= |s| && s[|s| - |p|..] == p
  }

  predicate OccursAt(s: string, p: string, i: int)
  {
    0 <= i && i + |p| <= |s| && s[i..i + |p|] == p
  }

  /** Python `p in s` / PHP `str_contains($s, $p)`. */
  predicate Contains(s: string, p: string)
  {
    exists i :: 0 <= i <= |s| && OccursAt(s, p, i)
  }

  /** A piece placed between two others is contained in the whole. */
  lemma ContainsMiddle(x: string, p: string, y: string)
    ensures Contains(x + p + y, p)
  {
    assert (x + p + y)[|x|..|x| + |p|] == p;
    assert OccursAt(x + p + y, p, |x|);
  }

  /** Text around a piece does not hide what the piece contains. */
  lemma ContainsWithin(x: string, a: string, y: string, p: string)
    requires Contains(a, p)
    ensures Contains(x + a + y, p)
  {
    var i :| 0 <= i <= |a| && OccursAt(a, p, i);
    assert (x + a + y)[|x| + i..|x| + i + |p|] == a[i..i + |p|];
    assert OccursAt(x + a + y, p, |x| + i);
  }

  /** Text in front of a piece does not hide what the piece contains. */
  lemma ContainsAfter(x: string, a: string, p: string)
    requires Contains(a, p)
    ensures Contains(x + a, p)
  {
    var i :| 0 <= i <= |a| && OccursAt(a, p, i);
    assert (x + a)[|x| + i..|x| + i + |p|] == a[i..i + |p|];
    assert OccursAt(x + a, p, |x| + i);
  }

  /** A text containing `a` contains every prefix of `a`. */
  lemma ContainsPrefixOf(s: string, a: string, p: string)
    requires Contains(s, a) && StartsWith(a, p)
    ensures Contains(s, p)
  {
    var i :| 0 <= i <= |s| && OccursAt(s, a, i);
    assert s[i..i + |p|] == a[..|p|];
    assert OccursAt(s, p, i);
  }

  /** A text that lacks the first character of `p` cannot contain `p`. */
  lemma ContainsFirstChar(s: string, p: string)
    requires |p| > 0 && Contains(s, p)
    ensures p[0] in s
  {
    var i :| 0 <= i <= |s| && OccursAt(s, p, i);
    assert s[i] == s[i..i + |p|][0];
  }

  /** Index of the first occurrence of `p` in `s`, if any. */
  function IndexOf(s: string, p: string): (r: int)
    ensures -1 <= r <= |s|
    ensures r >= 0 ==> OccursAt(s, p, r)
    ensures forall i :: 0 <= i < (if r < 0 then |s| + 1 else r) ==> !OccursAt(s, p, i)
    decreases |s|
  {
    if |s| < |p| then
      assert forall i :: 0 <= i ==> !OccursAt(s, p, i);
      -1
    else if s[..|p|] == p then 0
    else
      var k := IndexOf(s[1..], p);
      forall i | 1 <= i && OccursAt(s, p, i) ensures OccursAt(s[1..], p, i - 1) {
        assert s[1..][i - 1..i - 1 + |p|] == s[i..i + |p|];
      }
      if k < 0 then -1
      else
        assert s[1..][k..k + |p|] == s[k + 1..k + 1 + |p|];
        k + 1
  }

  lemma IndexOfFindsContained(s: string, p: string)
    ensures Contains(s, p) <==> IndexOf(s, p) >= 0
  {
    if Contains(s, p) {
      var i :| OccursAt(s, p, i);
    }
  }

  /** Index of the last occurrence of character `c`, or -1 (PHP `strrpos`, Python `rfind`). */
  function LastIndexOfChar(s: string, c: char): (r: int)
    ensures -1 <= r < |s|
    ensures r >= 0 ==> s[r] == c
    ensures forall i :: r < i < |s| ==> s[i] != c
    decreases |s|
  {
    if s == [] then -1
    else if s[|s| - 1] == c then |s| - 1
    else LastIndexOfChar(s[..|s| - 1], c)
  }

  // ---------------------------------------------------------------------
  // Splitting and joining

  /** The parts one after the other, as a loop appending each in turn builds them. */
  function Concat(parts: seq<string>): string
  {
    if parts == [] then "" else Concat(parts[..|parts| - 1]) + parts[|parts| - 1]
  }

  /** Each part appears in the concatenation. */
  lemma {:induction false} ConcatContains(parts: seq<string>, i: int)
    requires 0 <= i < |parts|
    ensures Contains(Concat(parts), parts[i])
    decreases |parts|
  {
    var prefix := parts[..|parts| - 1];
    var last := parts[|parts| - 1];
    if i == |parts| - 1 {
      ContainsMiddle(Concat(prefix), last, "");
      assert Concat(prefix) + last + "" == Concat(parts);
    } else {
      assert parts[i] == prefix[i];
      ConcatContains(prefix, i);
      ContainsWithin("", Concat(prefix), last, parts[i]);
      assert "" + Concat(prefix) + last == Concat(parts);
    }
  }

  /** `sep.join(parts)` / PHP `implode`. */
  function Join(parts: seq<string>, sep: string): string
  {
    if |parts| == 0 then ""
    else if |parts| == 1 then parts[0]
    else parts[0] + sep + Join(parts[1..], sep)
  }

  /**
   * Python `s.split(sep)` / PHP `explode($sep, $s)` for a non-empty
   * separator: cuts at every occurrence, left to right, without overlap.
   */
  function Split(s: string, sep: string): (r: seq<string>)
    requires |sep| > 0
    ensures |r| >= 1
    ensures Join(r, sep) == s
    ensures forall i :: 0 <= i < |r| ==> !Contains(r[i], sep)
    decreases |s|
  {
    var k := IndexOf(s, sep);
    if k < 0 then
      IndexOfFindsContained(s, sep);
      [s]
    else
      var head := s[..k];
      var rest := Split(s[k + |sep|..], sep);
      assert s == head + sep + s[k + |sep|..];
      NoEarlyOccurrence(s, sep, k);
      JoinCons(head, rest, sep);
      [head] + rest
  }

  lemma JoinCons(head: string, rest: seq<string>, sep: string)
    requires |rest| >= 1
    ensures Join([head] + rest, sep) == head + sep + Join(rest, sep)
  {
    assert ([head] + rest)[1..] == rest;
  }

  lemma NoEarlyOccurrence(s: string, sep: string, k: int)
    requires |sep| > 0 && 0 <= k <= |s|
    requires forall i :: 0 <= i < k ==> !OccursAt(s, sep, i)
    ensures !Contains(s[..k], sep)
  {
    if Contains(s[..k], sep) {
      var i :| 0 <= i <= k && OccursAt(s[..k], sep, i);
      assert i + |sep| <= k;
      assert s[..k][i..i + |sep|] == s[i..i + |sep|];
      assert OccursAt(s, sep, i);
    }
  }

  /** The longest prefix of `s` holding no character of `cs`. */
  function Token(s: string, cs: set<char>): (t: string)
    ensures StartsWith(s, t) && NoneIn(t, cs)
    ensures |t| == |s| || s[|t|] in cs
    decreases |s|
  {
    if s == [] || s[0] in cs then "" else [s[0]] + Token(s[1..], cs)
  }

  /**
   * Splitting a join of parts that lack the separator's first character
   * gives the parts back.
   */
  lemma {:induction false} SplitJoin(parts: seq<string>, sep: string)
    requires |sep| > 0 && |parts| >= 1
    requires forall i :: 0 <= i < |parts| ==> sep[0] !in parts[i]
    ensures Split(Join(parts, sep), sep) == parts
    decreases |parts|
  {
    var x := parts[0];
    if |parts| == 1 {
      NoSeparatorBefore(x, sep, "");
      assert x + "" == x;
      SplitUnfold(x, sep);
    } else {
      var rest := Join(parts[1..], sep);
      var s := x + sep + rest;
      assert Join(parts, sep) == s;
      NoSeparatorBefore(x, sep, sep + rest);
      assert x + (sep + rest) == s;
      assert OccursAt(s, sep, |x|) by {
        assert s[|x|..|x| + |sep|] == sep;
      }
      assert s[|x| + |sep|..] == rest;
      SplitJoin(parts[1..], sep);
      SplitUnfold(s, sep);
      assert [x] + parts[1..] == parts;
    }
  }

  /** No separator starts inside a text that lacks the separator's first character. */
  lemma NoSeparatorBefore(x: string, sep: string, tail: string)
    requires |sep| > 0 && sep[0] !in x
    ensures forall i :: 0 <= i < |x| ==> !OccursAt(x + tail, sep, i)
    ensures tail == "" ==> IndexOf(x + tail, sep) < 0
  {
    var s := x + tail;
    forall i | 0 <= i < |x| ensures !OccursAt(s, sep, i) {
      assert s[i] == x[i];
      if i + |sep| <= |s| {
        assert s[i..i + |sep|][0] == s[i];
      }
    }
    if tail == "" {
      assert s == x;
      IndexOfFindsContained(s, sep);
    }
  }

  /** One step of the split: the text before the first separator, then the split of the rest. */
  lemma SplitUnfold(s: string, sep: string)
    requires |sep| > 0
    ensures IndexOf(s, sep) < 0 ==> Split(s, sep) == [s]
    ensures IndexOf(s, sep) >= 0 ==>
      Split(s, sep) == [s[..IndexOf(s, sep)]] + Split(s[IndexOf(s, sep) + |sep|..], sep)
  {
  }

  /** A character missing from a join is missing from every part. */
  lemma {:induction false} JoinPartAvoids(parts: seq<string>, sep: string, c: char)
    requires c !in Join(parts, sep)
    ensures forall i :: 0 <= i < |parts| ==> c !in parts[i]
    decreases |parts|
  {
    if |parts| > 1 {
      var rest := Join(parts[1..], sep);
      assert Join(parts, sep) == parts[0] + sep + rest;
      JoinPartAvoids(parts[1..], sep, c);
      forall i | 1 <= i < |parts| ensures c !in parts[i] {
        assert parts[i] == parts[1..][i - 1];
      }
    }
  }

  /** A character in no part and not in the separator is not in the join. */
  lemma {:induction false} JoinAvoids(parts: seq<string>, sep: string, c: char)
    requires c !in sep
    requires forall i :: 0 <= i < |parts| ==> c !in parts[i]
    ensures c !in Join(parts, sep)
    decreases |parts|
  {
    if |parts| > 1 {
      JoinAvoids(parts[1..], sep, c);
    }
  }

  /**
   * Python `s.split()` with no argument: the maximal runs of non-blank
   * characters, in order.
   */
  function Words(s: string): (r: seq<string>)
    ensures forall i :: 0 <= i < |r| ==> r[i] != [] && NoneIn(r[i], PySpaceSet)
    decreases |s|
  {
    if s == [] then []
    else if s[0] in PySpaceSet then Words(s[1..])
    else
      var t := Token(s, PySpaceSet);
      [t] + Words(s[|t|..])
  }

  /** Python `" ".join(s.split())`: whitespace runs collapsed to one space, ends trimmed. */
  function CollapseSpaces(s: string): string
  {
    Join(Words(s), " ")
  }

  predicate IsWordList(w: seq<string>)
  {
    forall i :: 0 <= i < |w| ==> w[i] != [] && NoneIn(w[i], PySpaceSet)
  }

  lemma {:induction false} WordsOfWord(t: string, rest: string)
    requires t != [] && NoneIn(t, PySpaceSet)
    requires rest == [] || rest[0] in PySpaceSet
    ensures Words(t + rest) == [t] + Words(rest)
  {
    var s := t + rest;
    var k := Token(s, PySpaceSet);
    TokenOfWord(t, rest, PySpaceSet);
    assert s[|k|..] == rest;
  }

  /** The token of a word followed by a separator (or nothing) is the word. */
  lemma {:induction false} TokenOfWord(t: string, rest: string, cs: set<char>)
    requires NoneIn(t, cs)
    requires rest == [] || rest[0] in cs
    ensures Token(t + rest, cs) == t
    decreases |t|
  {
    if t != [] {
      assert (t + rest)[1..] == t[1..] + rest;
      TokenOfWord(t[1..], rest, cs);
    }
  }

  /** Splitting a space-joined word list gives the list back. */
  lemma {:induction false} WordsOfJoin(w: seq<string>)
    requires IsWordList(w)
    ensures Words(Join(w, " ")) == w
    decreases |w|
  {
    if |w| == 1 {
      WordsOfWord(w[0], "");
      assert w[0] + "" == w[0];
    } else if |w| > 1 {
      var tail := Join(w[1..], " ");
      assert Join(w, " ") == w[0] + (" " + tail);
      WordsOfWord(w[0], " " + tail);
      assert (" " + tail)[1..] == tail;
      WordsOfJoin(w[1..]);
    }
  }

  /** Collapsing whitespace twice is collapsing it once. */
  lemma CollapseSpacesIdempotent(s: string)
    ensures CollapseSpaces(CollapseSpaces(s)) == CollapseSpaces(s)
  {
    WordsOfJoin(Words(s));
  }

  // ---------------------------------------------------------------------
  // Replacement

  /**
   * PHP `str_replace($p, $q, $s)` / Python `s.replace(p, q)`: every
   * occurrence, scanned left to right without overlap.
   */
  function ReplaceAll(s: string, p: string, q: string): (r: string)
    requires |p| > 0
    ensures !Contains(s, p) ==> r == s
    decreases |s|
  {
    var k := IndexOf(s, p);
    if k < 0 then
      IndexOfFindsContained(s, p);
      s
    else
      IndexOfFindsContained(s, p);
      s[..k] + q + ReplaceAll(s[k + |p|..], p, q)
  }

  /** Replacing by text without `c` never brings `c` in. */
  lemma {:induction false} ReplaceAllAvoids(s: string, p: string, q: string, c: char)
    requires |p| > 0 && c !in s && c !in q
    ensures c !in ReplaceAll(s, p, q)
    decreases |s|
  {
    if IndexOf(s, p) < 0 {
      ReplaceAllUnfold(s, p, q);
    } else {
      MatchPiecesAvoid(s, p, c);
      ReplaceAllAvoids(s[IndexOf(s, p) + |p|..], p, q, c);
      ReplaceAllStepAvoids(s, p, q, c);
    }
  }

  /** The text before the first match of `p` and the text after it are shorter than `s` and avoid what `s` avoids. */
  lemma MatchPiecesAvoid(s: string, p: string, c: char)
    requires |p| > 0 && c !in s && 0 <= IndexOf(s, p)
    ensures |s[IndexOf(s, p) + |p|..]| < |s|
    ensures c !in s[..IndexOf(s, p)] && c !in s[IndexOf(s, p) + |p|..]
  {
    var k := IndexOf(s, p);
    SliceAvoids(s, 0, k, c);
    SliceAvoids(s, k + |p|, |s|, c);
  }

  /** The step of ReplaceAllAvoids: the pieces of one unfolding avoid `c`, so the whole does. */
  lemma ReplaceAllStepAvoids(s: string, p: string, q: string, c: char)
    requires |p| > 0 && 0 <= IndexOf(s, p)
    requires c !in s[..IndexOf(s, p)] && c !in q
    requires c !in ReplaceAll(s[IndexOf(s, p) + |p|..], p, q)
    ensures c !in ReplaceAll(s, p, q)
  {
    ReplaceAllUnfold(s, p, q);
    ConcatAvoids(s[..IndexOf(s, p)], q, ReplaceAll(s[IndexOf(s, p) + |p|..], p, q), c);
  }

  lemma ConcatAvoids(a: string, b: string, d: string, c: char)
    requires c !in a && c !in b && c !in d
    ensures c !in a + b + d
  {
  }

  /** One step of the replacement: the text before the first occurrence, the replacement, and the rest replaced. */
  lemma ReplaceAllUnfold(s: string, p: string, q: string)
    requires |p| > 0
    ensures IndexOf(s, p) < 0 ==> ReplaceAll(s, p, q) == s
    ensures IndexOf(s, p) >= 0 ==>
      ReplaceAll(s, p, q) == s[..IndexOf(s, p)] + q + ReplaceAll(s[IndexOf(s, p) + |p|..], p, q)
  {
  }

  lemma ReplaceAllPrefix(p: string, x: string)
    requires |p| > 0 && !Contains(x, p)
    ensures ReplaceAll(p + x, p, "") == x
  {
    var s := p + x;
    assert OccursAt(s, p, 0);
    assert s[|p|..] == x;
  }

  // ---------------------------------------------------------------------
  // Decimal rendering

  function DigitChar(d: nat): (c: char)
    requires d < 10
    ensures '0' <= c <= '9' && c as int - '0' as int == d
  {
    (d + '0' as int) as char
  }

  predicate IsDigits(s: string)
  {
    forall i :: 0 <= i < |s| ==> '0' <= s[i] <= '9'
  }

  /** PHP/Python rendering of a non-negative integer in base 10. */
  function NatToString(n: nat): (r: string)
    ensures |r| > 0 && IsDigits(r)
    decreases n
  {
    if n < 10 then [DigitChar(n)] else NatToString(n / 10) + [DigitChar(n % 10)]
  }

  /** PHP/Python rendering of any integer in base 10. */
  function IntToString(n: int): string
  {
    if n < 0 then "-" + NatToString(-n) else NatToString(n)
  }

  /** The value of a string of decimal digits. */
  function DigitsValue(s: string): nat
    requires IsDigits(s)
  {
    if s == [] then 0 else 10 * DigitsValue(s[..|s| - 1]) + (s[|s| - 1] as int - '0' as int)
  }

  /** Reading back a rendered number gives the number. */
  lemma {:induction false} NatToStringRoundTrip(n: nat)
    ensures DigitsValue(NatToString(n)) == n
    decreases n
  {
    if n >= 10 {
      var s := NatToString(n);
      assert s[..|s| - 1] == NatToString(n / 10);
      NatToStringRoundTrip(n / 10);
    }
  }

  /** Distinct numbers render differently. */
  lemma NatToStringInjective(m: nat, n: nat)
    requires NatToString(m) == NatToString(n)
    ensures m == n
  {
    NatToStringRoundTrip(m);
    NatToStringRoundTrip(n);
  }
}

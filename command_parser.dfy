/**
 * The chat command parser: free text such as "SUMMARIZE court" becomes an
 * operation type, its job class and a parameter map.  Keywords are matched
 * after upper-casing the whole text; the sub-parameter is lower-cased and
 * checked against a closed list per operation, falling back silently to a
 * default.  Secure commands that need a password receive a generated one.
 */
module CommandParser {
  import opened Wrappers
  import opened Strings
  import opened PdfOps

  /** Parameter map of a parsed command (a PHP string-keyed array). */
  type Params = map<string, string>

  datatype ParsedCommand = ParsedCommand(op: OpType, jobClass: string, parameters: Params)

  // ---------------------------------------------------------------------
  // Configuration table

  /** The accepted sub-parameter spellings per operation, as configured. */
  function Allowed(op: OpType): seq<string>
  {
    match op
    case Compress => ["whatsapp", "impression", "équilibré", "balanced"]
    case Convert => ["docx", "xlsx", "img", "image"]
    case Ocr => ["text", "docx"]
    case Summarize => ["short", "medium", "long", "court", "moyen", "détaillé"]
    case Translate => ["fr", "en", "es", "de", "it", "pt", "ru", "ar", "zh"]
    case Secure => ["password", "watermark", "both"]
  }

  /** The value used when the sub-parameter is missing or not accepted. */
  function Default(op: OpType): string
  {
    match op
    case Compress => "whatsapp"
    case Convert => "docx"
    case Ocr => "text"
    case Summarize => "short"
    case Translate => "en"
    case Secure => "password"
  }

  /** The parameter key the operation's sub-parameter is stored under. */
  function ParamKey(op: OpType): (k: string)
    ensures k != "original_command" && k != "password"
  {
    match op
    case Compress => "mode"
    case Convert => "format"
    case Ocr => "output_format"
    case Summarize => "size"
    case Translate => "target_language"
    case Secure => "security_type"
  }

  /** Alias folding: `image` becomes `img`, French sizes become English ones. */
  function Fold(op: OpType, v: string): string
  {
    match op
    case Convert => if v == "image" then "img" else v
    case Summarize =>
      if v == "court" then "short"
      else if v == "moyen" then "medium"
      else if v == "détaillé" then "long"
      else v
    case _ => v
  }

  /** The values a parsed command can carry under `ParamKey(op)`. */
  function Canonical(op: OpType): set<string>
  {
    match op
    case Compress => {"whatsapp", "impression", "équilibré", "balanced"}
    case Convert => {"docx", "xlsx", "img"}
    case Ocr => {"text", "docx"}
    case Summarize => {"short", "medium", "long"}
    case Translate => {"fr", "en", "es", "de", "it", "pt", "ru", "ar", "zh"}
    case Secure => {"password", "watermark", "both"}
  }

  /** The security types for which a password is generated. */
  predicate NeedsPassword(securityType: string)
  {
    securityType == "password" || securityType == "both"
  }

  // ---------------------------------------------------------------------
  // Password generation

  /** `n` consecutive code points starting at `first`. */
  function CharRange(first: char, n: nat): (r: string)
    requires first as int + n <= 0xD800
    ensures |r| == n && forall i :: 0 <= i < n ==> r[i] as int == first as int + i
  {
    seq(n, i requires 0 <= i < n => (first as int + i) as char)
  }

  /** The 62-character alphabet of `generatePassword`: `a`-`z`, then `A`-`Z`, then `0`-`9`. */
  const PasswordAlphabet: string := CharRange('a', 26) + CharRange('A', 26) + CharRange('0', 10)

  const PasswordLength: nat := 8

  predicate IsAlnum(c: char)
  {
    'a' <= c <= 'z' || 'A' <= c <= 'Z' || '0' <= c <= '9'
  }

  predicate Distinct(s: string)
  {
    forall i, j :: 0 <= i < j < |s| ==> s[i] != s[j]
  }

  /** What the source guarantees about a generated password. */
  predicate IsGeneratedPassword(pw: string)
  {
    |pw| == PasswordLength && Distinct(pw) && forall i :: 0 <= i < |pw| ==> IsAlnum(pw[i])
  }

  /** A rearrangement of the indices `0 .. n-1`: the outcome of `str_shuffle` on `n` characters. */
  predicate IsShuffle(perm: seq<int>, n: nat)
  {
    |perm| == n && (forall k :: 0 <= k < n ==> 0 <= perm[k] < n)
    && forall k, l :: 0 <= k < l < n ==> perm[k] != perm[l]
  }

  lemma AlphabetDistinct()
    ensures |PasswordAlphabet| == 62
    ensures Distinct(PasswordAlphabet)
    ensures forall i :: 0 <= i < |PasswordAlphabet| ==> IsAlnum(PasswordAlphabet[i])
  {
    var a := PasswordAlphabet;
    assert forall i :: 0 <= i < 26 ==> a[i] as int == 'a' as int + i;
    assert forall i :: 26 <= i < 52 ==> a[i] as int == 'A' as int + i - 26;
    assert forall i :: 52 <= i < 62 ==> a[i] as int == '0' as int + i - 52;
  }

  /**
   * `generatePassword()`: the first 8 characters of one shuffled copy of the
   * 62-character alphabet (8 / 62 rounds up to a single copy).
   */
  function GeneratePassword(perm: seq<int>): (pw: string)
    requires IsShuffle(perm, 62)
    ensures IsGeneratedPassword(pw)
  {
    AlphabetDistinct();
    var shuffled := seq(|perm|, k requires 0 <= k < |perm| => PasswordAlphabet[perm[k]]);
    shuffled[..PasswordLength]
  }

  // ---------------------------------------------------------------------
  // Parsing

  /** `validateParameter`: the lower-cased parameter when it is in the list. */
  function ValidateParameter(parameter: string, allowed: seq<string>): (r: Option<string>)
    ensures r.Some? <==> Lower(parameter) in allowed
    ensures r.Some? ==> r.value == Lower(parameter)
  {
    var p := Lower(parameter);
    if p in allowed then Some(p) else None
  }

  /** `parseParameters`: the parameter map for an already recognised action. */
  function ParseParameters(op: OpType, action: string, parameter: string, perm: seq<int>): (r: Params)
    requires IsShuffle(perm, 62)
    ensures "original_command" in r && r["original_command"] == action + " " + parameter
    ensures ParamKey(op) in r && r[ParamKey(op)] in Canonical(op)
    ensures Lower(parameter) in Allowed(op) ==> r[ParamKey(op)] == Fold(op, Lower(parameter))
    ensures Lower(parameter) !in Allowed(op) ==> r[ParamKey(op)] == Default(op)
    ensures "password" in r <==> op == Secure && NeedsPassword(r[ParamKey(op)])
    ensures "password" in r ==> IsGeneratedPassword(r["password"])
    ensures r.Keys <= {"original_command", ParamKey(op), "password"}
  {
    var base := map["original_command" := action + " " + parameter];
    var value := Fold(op, ValidateParameter(parameter, Allowed(op)).GetOr(Default(op)));
    var withValue := base[ParamKey(op) := value];
    if op == Secure && NeedsPassword(value) then withValue["password" := GeneratePassword(perm)]
    else withValue
  }

  /** `preg_split('/\s+/', $s)[0]`: the text before the first PCRE blank. */
  function FirstPart(s: string): string
  {
    Token(s, PcreSpaceSet)
  }

  /** `preg_split('/\s+/', $s)[1] ?? ''`: the text after the first blank run, up to the next blank. */
  function SecondPart(s: string): string
  {
    var first := Token(s, PcreSpaceSet);
    if |first| == |s| then "" else Token(TrimLeft(s[|first|..], PcreSpaceSet), PcreSpaceSet)
  }

  /**
   * The action and parameter `parse` reads: the first and second
   * `preg_split('/\s+/')` parts of the trimmed, upper-cased command, or
   * nothing when the trimmed command is PHP-empty ("" or "0").
   */
  function ActionAndParameter(command: string): (r: Option<(string, string)>)
    ensures r.None? <==> PhpEmpty(PhpTrim(command))
  {
    var c := PhpTrim(command);
    if PhpEmpty(c) then None
    else
      var up := Upper(c);
      Some((FirstPart(up), SecondPart(up)))
  }

  /** The table lookup and parameter parsing that follow the split. */
  function ParseParts(parts: Option<(string, string)>, perm: seq<int>): (r: Option<ParsedCommand>)
    requires IsShuffle(perm, 62)
    ensures r.Some? <==> parts.Some? && OfKeyword(parts.value.0).Some?
    ensures r.Some? ==> Keyword(r.value.op) == parts.value.0 && r.value.jobClass == JobClass(r.value.op)
    ensures r.Some? ==> r.value.parameters == ParseParameters(r.value.op, parts.value.0, parts.value.1, perm)
  {
    match parts
    case None => None
    case Some((action, parameter)) =>
      match OfKeyword(action)
      case None => None
      case Some(op) => Some(ParsedCommand(op, JobClass(op), ParseParameters(op, action, parameter, perm)))
  }

  /** `parse($command)`. `perm` is the outcome of the shuffle a secure command draws. */
  function Parse(command: string, perm: seq<int>): (r: Option<ParsedCommand>)
    requires IsShuffle(perm, 62)
    ensures PhpEmpty(PhpTrim(command)) ==> r.None?
    ensures r.Some? <==> !PhpEmpty(PhpTrim(command)) && OfKeyword(FirstPart(Upper(PhpTrim(command)))).Some?
    ensures r.Some? ==> Keyword(r.value.op) == FirstPart(Upper(PhpTrim(command)))
    ensures r.Some? ==> r.value.jobClass == JobClass(r.value.op)
  {
    ParseParts(ActionAndParameter(command), perm)
  }

  /** `isSupported($command)`: the first space-separated piece, upper-cased, is a keyword. */
  predicate IsSupported(command: string)
  {
    OfKeyword(Upper(Split(PhpTrim(command), " ")[0])).Some?
  }

  /** The operations in the order of the parser's table. */
  const TableOrder: seq<OpType> := [Compress, Convert, Ocr, Summarize, Translate, Secure]

  /** `getSupportedCommands()`: the keys of the table, in table order. */
  function SupportedCommands(): (r: seq<string>)
    ensures |r| == 6
  {
    seq(6, i requires 0 <= i < 6 => Keyword(TableOrder[i]))
  }

  /** The supported commands are one keyword per operation, each recognised by the table. */
  lemma SupportedCommandsComplete()
    ensures forall op: OpType :: Keyword(op) in SupportedCommands()
    ensures forall i :: 0 <= i < |SupportedCommands()| ==> OfKeyword(SupportedCommands()[i]).Some?
  {
    var r := SupportedCommands();
    forall op: OpType ensures Keyword(op) in r {
      var i := match op
        case Compress => 0 case Convert => 1 case Ocr => 2
        case Summarize => 3 case Translate => 4 case Secure => 5;
      assert TableOrder[i] == op;
      assert r[i] == Keyword(op);
    }
    AllKeywordsFound();
  }

  /** Every operation's keyword is found in the table. */
  lemma AllKeywordsFound()
    ensures forall op: OpType :: OfKeyword(Keyword(op)) == Some(op)
  {
    forall op: OpType ensures OfKeyword(Keyword(op)) == Some(op) {
      KeywordRoundTrip(op);
    }
  }
}

module CommandParserProperties {
  import opened Wrappers
  import opened Strings
  import opened PdfOps
  import opened CommandParser

  /** A word as a chat user types it: non-empty, with no blank PHP or PCRE would see. */
  predicate IsWord(w: string)
  {
    w != [] && NoneIn(w, PcreSpaceSet) && NoneIn(w, PhpTrimSet)
  }

  lemma {:induction false} UpperConcat(x: string, y: string)
    ensures Upper(x + y) == Upper(x) + Upper(y)
  {
    assert forall i :: 0 <= i < |x + y| ==> Upper(x + y)[i] == (Upper(x) + Upper(y))[i];
  }

  lemma UpperKeepsBlanksOut(w: string, cs: set<char>)
    requires NoLetters(cs) && NoneIn(w, cs)
    ensures NoneIn(Upper(w), cs)
  {
  }

  lemma KeywordIsWord(op: OpType)
    ensures IsWord(Keyword(op)) && Upper(Keyword(op)) == Keyword(op)
  {
    var k := Keyword(op);
    assert forall i :: 0 <= i < |k| ==> 'A' <= k[i] <= 'Z';
    CapitalsWord(k);
  }

  /** A non-empty run of capitals is a word and its own upper case. */
  lemma CapitalsWord(w: string)
    requires w != [] && forall i :: 0 <= i < |w| ==> 'A' <= w[i] <= 'Z'
    ensures IsWord(w) && Upper(w) == w
  {
  }

  /** Trimming a command that starts and ends with words leaves the words and what lies between. */
  lemma {:induction false} TrimBetweenWords(a: string, b: string, rest: string) returns (x: string)
    requires IsWord(a) && IsWord(b)
    ensures PhpTrim(a + " " + b + rest) == a + " " + b + x
    ensures x == [] || x[0] == rest[0]
    ensures |x| <= |rest|
  {
    var c := a + " " + b + rest;
    var m := |a| + 1 + |b|;
    assert c[0] == a[0] && c[m - 1] == b[|b| - 1];
    assert TrimLeft(c, PhpTrimSet) == c;
    var r := TrimRight(c, PhpTrimSet);
    assert |r| >= m;
    x := c[m..|r|];
    assert r == c[..m] + x;
    assert c[..m] == a + " " + b;
  }

  lemma {:induction false} UpperOfTwoWords(a: string, b: string, x: string)
    ensures Upper(a + " " + b + x) == Upper(a) + " " + Upper(b) + Upper(x)
  {
    UpperConcat(a + " " + b, x);
    UpperConcat(a + " ", b);
    UpperConcat(a, " ");
  }

  lemma {:induction false} SkipOneBlank(y: string, c: char, cs: set<char>)
    requires c in cs && y != [] && y[0] !in cs
    ensures TrimLeft([c] + y, cs) == y
  {
    assert ([c] + y)[1..] == y;
  }

  lemma {:induction false} FirstOfUpperWords(ua: string, tail: string)
    requires NoneIn(ua, PcreSpaceSet) && tail != [] && tail[0] == ' '
    ensures FirstPart(ua + tail) == ua
  {
    TokenOfWord(ua, tail, PcreSpaceSet);
  }

  lemma {:induction false} SecondOfUpperWords(ua: string, ub: string, ux: string)
    requires ua != [] && ub != [] && NoneIn(ua, PcreSpaceSet) && NoneIn(ub, PcreSpaceSet)
    requires ux == [] || ux[0] in PcreSpaceSet
    ensures SecondPart(ua + ([' '] + (ub + ux))) == ub
  {
    var u := ua + ([' '] + (ub + ux));
    TokenOfWord(ua, [' '] + (ub + ux), PcreSpaceSet);
    assert u[|ua|..] == [' '] + (ub + ux);
    SkipOneBlank(ub + ux, ' ', PcreSpaceSet);
    TokenOfWord(ub, ux, PcreSpaceSet);
  }

  /** The first and second blank-separated parts of `ua ub…`. */
  lemma {:induction false} PartsOfUpperWords(ua: string, ub: string, ux: string)
    requires ua != [] && ub != [] && NoneIn(ua, PcreSpaceSet) && NoneIn(ub, PcreSpaceSet)
    requires ux == [] || ux[0] in PcreSpaceSet
    ensures FirstPart(ua + " " + ub + ux) == ua
    ensures SecondPart(ua + " " + ub + ux) == ub
  {
    assert ua + " " + ub + ux == ua + ([' '] + (ub + ux));
    FirstOfUpperWords(ua, [' '] + (ub + ux));
    SecondOfUpperWords(ua, ub, ux);
  }

  /** The two parts `parse` reads from an upper-cased `a b…` command. */
  lemma {:induction false} PartsOfTwoWords(a: string, b: string, x: string)
    requires IsWord(a) && IsWord(b) && (x == [] || x[0] in PcreSpaceSet)
    ensures FirstPart(Upper(a + " " + b + x)) == Upper(a)
    ensures SecondPart(Upper(a + " " + b + x)) == Upper(b)
  {
    UpperOfTwoWords(a, b, x);
    UpperKeepsBlanksOut(a, PcreSpaceSet);
    UpperKeepsBlanksOut(b, PcreSpaceSet);
    assert Upper(x) == [] || Upper(x)[0] == x[0];
    PartsOfUpperWords(Upper(a), Upper(b), Upper(x));
  }

  /** `ActionAndParameter` of a command whose trimmed form is `a b…`. */
  lemma {:induction false} PartsOfCommand(c: string, a: string, b: string, x: string)
    requires IsWord(a) && IsWord(b) && (x == [] || x[0] in PcreSpaceSet)
    requires PhpTrim(c) == a + " " + b + x
    ensures ActionAndParameter(c) == Some((Upper(a), Upper(b)))
  {
    PartsOfTwoWords(a, b, x);
  }

  /** A command of two words splits into the two words, upper-cased. */
  lemma TwoWordParts(a: string, b: string)
    requires IsWord(a) && IsWord(b)
    ensures ActionAndParameter(a + " " + b) == Some((Upper(a), Upper(b)))
  {
    var c := a + " " + b;
    var x := TrimBetweenWords(a, b, "");
    assert c + "" == c;
    PartsOfCommand(c, a, b, x);
  }

  /** Only the first two words of a command matter; a third and later words are ignored. */
  lemma ParseIgnoresExtraWords(a: string, b: string, rest: string, perm: seq<int>)
    requires IsShuffle(perm, 62)
    requires IsWord(a) && IsWord(b)
    ensures Parse(a + " " + b + " " + rest, perm) == Parse(a + " " + b, perm)
  {
    var c1, c2 := a + " " + b + " " + rest, a + " " + b;
    assert c1 == a + " " + b + (" " + rest);
    var x1 := TrimBetweenWords(a, b, " " + rest);
    PartsOfCommand(c1, a, b, x1);
    var x2 := TrimBetweenWords(a, b, "");
    assert c2 + "" == c2;
    PartsOfCommand(c2, a, b, x2);
  }

  /** Keyword matching is case-insensitive: lower-casing a command does not change its parse. */
  lemma ParseIgnoresCase(command: string, perm: seq<int>)
    requires IsShuffle(perm, 62)
    ensures Parse(Lower(command), perm) == Parse(command, perm)
  {
    PartsIgnoreCase(command);
  }

  lemma {:induction false} PartsIgnoreCase(command: string)
    ensures ActionAndParameter(Lower(command)) == ActionAndParameter(command)
  {
    var t := PhpTrim(command);
    PhpTrimLower(command);
    UpperLower(t);
    EmptyIgnoresCase(t);
  }

  lemma PhpTrimLower(command: string)
    ensures PhpTrim(Lower(command)) == Lower(PhpTrim(command))
  {
    PhpTrimSetHasNoLetters();
    TrimLower(command, PhpTrimSet);
  }

  lemma PhpTrimSetHasNoLetters()
    ensures NoLetters(PhpTrimSet)
  {
  }

  lemma PcreSpaceSetHasNoLetters()
    ensures NoLetters(PcreSpaceSet)
  {
  }

  lemma EmptyIgnoresCase(t: string)
    ensures PhpEmpty(Lower(t)) <==> PhpEmpty(t)
  {
    assert Lower(t) == "0" ==> t == "0";
  }

  lemma {:induction false} TrimOfWord(w: string)
    requires IsWord(w)
    ensures PhpTrim(w) == w
  {
    assert TrimLeft(w, PhpTrimSet) == w;
    assert TrimRight(w, PhpTrimSet) == w;
  }

  lemma {:induction false} PartsOfKeyword(op: OpType)
    ensures ActionAndParameter(Keyword(op)) == Some((Keyword(op), ""))
  {
    var k := Keyword(op);
    KeywordIsWord(op);
    TrimOfWord(k);
    TokenOfWord(k, "", PcreSpaceSet);
    assert k + "" == k;
  }

  lemma NoEmptyAllowed(op: OpType)
    ensures "" !in Allowed(op)
  {
  }

  /** A bare keyword selects its operation with the default sub-parameter and `original_command` `KEYWORD `. */
  lemma BareKeywordUsesDefault(op: OpType, perm: seq<int>)
    requires IsShuffle(perm, 62)
    ensures Parse(Keyword(op), perm).Some?
    ensures Parse(Keyword(op), perm).value.op == op
    ensures Parse(Keyword(op), perm).value.parameters[ParamKey(op)] == Default(op)
    ensures Parse(Keyword(op), perm).value.parameters["original_command"] == Keyword(op) + " "
  {
    PartsOfKeyword(op);
    KeywordRoundTrip(op);
    NoEmptyAllowed(op);
    assert Lower("") == "";
    assert Keyword(op) + " " + "" == Keyword(op) + " ";
  }

  lemma {:induction false} IndexOfFirstOccurrence(s: string, p: string, k: int)
    requires OccursAt(s, p, k)
    requires forall i :: 0 <= i < k ==> !OccursAt(s, p, i)
    ensures IndexOf(s, p) == k
  {
  }

  lemma {:induction false} SplitAtFirstSpace(a: string, rest: string)
    requires NoneIn(a, {' '})
    ensures Split(a + " " + rest, " ")[0] == a
  {
    var c := a + " " + rest;
    assert OccursAt(c, " ", |a|);
    forall i | 0 <= i < |a| ensures !OccursAt(c, " ", i) {
      assert c[i] == a[i];
    }
    IndexOfFirstOccurrence(c, " ", |a|);
  }

  lemma {:induction false} SplitWithoutSpace(c: string)
    requires NoneIn(c, {' '})
    ensures Split(c, " ") == [c]
  {
    forall i | 0 <= i <= |c| ensures !OccursAt(c, " ", i) {
      if i + 1 <= |c| {
        assert c[i..i + 1][0] == c[i];
      }
    }
    IndexOfFindsContained(c, " ");
  }

  /**
   * `isSupported` splits on a single space, `parse` on any blank run: for
   * space-separated words they agree.
   */
  lemma IsSupportedAgreesOnSpaces(a: string, b: string, perm: seq<int>)
    requires IsShuffle(perm, 62)
    requires IsWord(a) && IsWord(b)
    ensures IsSupported(a + " " + b) <==> Parse(a + " " + b, perm).Some?
  {
    var c := a + " " + b;
    var x := TrimBetweenWords(a, b, "");
    assert c + "" == c;
    PartsOfCommand(c, a, b, x);
    SplitAtFirstSpace(a, b);
  }

  lemma KeywordHasNoBlank(op: OpType)
    ensures NoneIn(Keyword(op), PcreSpaceSet)
  {
    KeywordIsWord(op);
  }

  lemma TabCommandParts(a: string, b: string)
    requires IsWord(a) && IsWord(b)
    ensures ActionAndParameter(a + "\t" + b).Some?
    ensures ActionAndParameter(a + "\t" + b).value.0 == Upper(a)
  {
    TabCommandTrimmed(a, b);
    LongCommandSplits(a + "\t" + b);
    TrimmedCommandAction(a + "\t" + b);
    TabCommandFirstWord(a, b);
  }

  /** The first blank-free run of an upper-cased tab-separated pair is the first word, upper-cased. */
  lemma TabCommandFirstWord(a: string, b: string)
    requires IsWord(a) && IsWord(b)
    ensures FirstPart(Upper(a + "\t" + b)) == Upper(a)
  {
    var tail := "\t" + b;
    assert a + "\t" + b == a + tail;
    UpperConcat(a, tail);
    assert Upper(tail)[0] == '\t';
    PcreSpaceSetHasNoLetters();
    UpperKeepsBlanksOut(a, PcreSpaceSet);
    TokenOfWord(Upper(a), Upper(tail), PcreSpaceSet);
  }

  /** A command of two or more characters after trimming is split. */
  lemma LongCommandSplits(c: string)
    requires |PhpTrim(c)| >= 2
    ensures ActionAndParameter(c).Some?
  {
  }

  /** The action of a split command that trimming leaves alone is its first upper-cased word. */
  lemma TrimmedCommandAction(c: string)
    requires PhpTrim(c) == c && ActionAndParameter(c).Some?
    ensures ActionAndParameter(c).value.0 == FirstPart(Upper(c))
  {
  }

  /** Trimming leaves a tab-separated pair of words as it is. */
  lemma TabCommandTrimmed(a: string, b: string)
    requires IsWord(a) && IsWord(b)
    ensures PhpTrim(a + "\t" + b) == a + "\t" + b
    ensures |PhpTrim(a + "\t" + b)| >= 2
  {
    var c := a + "\t" + b;
    assert c[0] == a[0] && c[|c| - 1] == b[|b| - 1];
    assert TrimLeft(c, PhpTrimSet) == c;
    assert TrimRight(c, PhpTrimSet) == c;
  }

  lemma SpacelessTabCommand(a: string, b: string)
    requires IsWord(a) && IsWord(b)
    ensures NoneIn(a + "\t" + b, {' '})
  {
  }

  lemma KeywordsHaveNoTab(k: string, i: int)
    requires 0 <= i < |k| && k[i] == '\t'
    ensures OfKeyword(k).None?
  {
    if OfKeyword(k).Some? {
      KeywordHasNoBlank(OfKeyword(k).value);
    }
  }

  lemma {:induction false} TabCommandNotSupported(a: string, b: string)
    requires IsWord(a) && IsWord(b)
    ensures !IsSupported(a + "\t" + b)
  {
    var c := a + "\t" + b;
    SpacelessTabCommand(a, b);
    SplitWithoutSpace(c);
    assert Upper(c)[|a|] == '\t';
    KeywordsHaveNoTab(Upper(c), |a|);
  }

  /**
   * A tab between keyword and parameter: `parse` accepts the command,
   * `isSupported` rejects it.
   */
  lemma TabSeparatedDisagrees(a: string, b: string, perm: seq<int>)
    requires IsShuffle(perm, 62)
    requires IsWord(a) && IsWord(b) && OfKeyword(Upper(a)).Some?
    ensures Parse(a + "\t" + b, perm).Some?
    ensures !IsSupported(a + "\t" + b)
  {
    TabCommandParts(a, b);
    TabCommandNotSupported(a, b);
  }

  /** A concrete instance of that disagreement: "compress\twhatsapp" parses but is not supported. */
  lemma TabExample(perm: seq<int>)
    requires IsShuffle(perm, 62)
    ensures Parse("compress\twhatsapp", perm).Some? && !IsSupported("compress\twhatsapp")
  {
    ExampleWords();
    assert "compress" + "\t" + "whatsapp" == "compress\twhatsapp";
    TabSeparatedDisagrees("compress", "whatsapp", perm);
  }

  lemma ExampleWords()
    ensures IsWord("compress") && IsWord("whatsapp") && OfKeyword(Upper("compress")).Some?
  {
    assert Upper("compress") == "COMPRESS";
  }
}

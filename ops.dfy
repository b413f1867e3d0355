/**
 * The six PDF operations the bot offers, with the three spellings the
 * Laravel side uses for each: the upper-case chat keyword, the lower-case
 * `type` stored on a task job, and the queued job class.
 */
module PdfOps {
  import opened Wrappers
  import opened Strings

  datatype OpType = Compress | Convert | Ocr | Summarize | Translate | Secure

  /** The `type` column of a task job. */
  function TypeName(op: OpType): string
  {
    match op
    case Compress => "compress"
    case Convert => "convert"
    case Ocr => "ocr"
    case Summarize => "summarize"
    case Translate => "translate"
    case Secure => "secure"
  }

  /** The chat keyword of the command parser's table. */
  function Keyword(op: OpType): (k: string)
    ensures k == Upper(TypeName(op))
  {
    match op
    case Compress => "COMPRESS"
    case Convert => "CONVERT"
    case Ocr => "OCR"
    case Summarize => "SUMMARIZE"
    case Translate => "TRANSLATE"
    case Secure => "SECURE"
  }

  /** The class-name stem of the operation's job, `<Stem>PdfJob`. */
  function ClassStem(op: OpType): string
  {
    match op
    case Compress => "Compress"
    case Convert => "Convert"
    case Ocr => "Ocr"
    case Summarize => "Summarize"
    case Translate => "Translate"
    case Secure => "Secure"
  }

  /** The fully qualified job class registered for the operation. */
  function JobClass(op: OpType): string
  {
    "App\\Jobs\\" + ClassStem(op) + "PdfJob"
  }

  /** Lookup of a keyword in the parser's table (exact, case-sensitive key match). */
  function OfKeyword(k: string): (r: Option<OpType>)
    ensures r.Some? ==> Keyword(r.value) == k
    ensures r.None? ==> forall op: OpType :: Keyword(op) != k
  {
    if k == "COMPRESS" then Some(Compress)
    else if k == "CONVERT" then Some(Convert)
    else if k == "OCR" then Some(Ocr)
    else if k == "SUMMARIZE" then Some(Summarize)
    else if k == "TRANSLATE" then Some(Translate)
    else if k == "SECURE" then Some(Secure)
    else None
  }

  /** PHP `ucfirst`: upper-cases the first character only. */
  function UcFirst(s: string): (r: string)
    ensures |r| == |s|
    ensures s != [] ==> r[0] == UpperChar(s[0]) && r[1..] == s[1..]
  {
    if s == [] then s else [UpperChar(s[0])] + s[1..]
  }

  /** The class name built from a type string by the menu service. */
  function MenuJobClass(typeName: string): string
  {
    "App\\Jobs\\" + UcFirst(typeName) + "PdfJob"
  }

  /** Every stored type names the class the parser registers for it. */
  lemma MenuJobClassAgrees(op: OpType)
    ensures MenuJobClass(TypeName(op)) == JobClass(op)
  {
    StemIsUcFirst(op);
  }

  /** The class stem is the type name with its first letter upper-cased. */
  lemma StemIsUcFirst(op: OpType)
    ensures UcFirst(TypeName(op)) == ClassStem(op)
  {
    var t := TypeName(op);
    UcFirstOfLower(t[0], t[1..]);
    assert [t[0]] + t[1..] == t;
  }

  /** `ucfirst` of a text starting with a lower-case letter swaps in the capital. */
  lemma UcFirstOfLower(c: char, rest: string)
    requires 'a' <= c <= 'z'
    ensures UcFirst([c] + rest) == [(c as int - 32) as char] + rest
  {
    assert ([c] + rest)[1..] == rest;
  }

  /** The keyword table and the type names are in one-to-one correspondence. */
  lemma KeywordRoundTrip(op: OpType)
    ensures OfKeyword(Keyword(op)) == Some(op)
  {
  }
}

/**
 * The lightweight PDF microservice (the French-language FastAPI app):
 * compress, convert, OCR, summarize, translate and secure, each on an
 * uploaded file copied to a temporary directory.  The PDF library (page
 * texts, page compression, encryption, saving) is a parameter: either
 * the page texts it extracts, or the text of the exception it raised.
 * Paths are relative to the service's temporary directory.
 */
module PdfMicroservice {
  import opened Wrappers
  import opened Strings
  import PathLib

  /** Python `s[:n]` for `n >= 0`. */
  function Prefix<T>(s: seq<T>, n: nat): (r: seq<T>)
    ensures |r| == if n <= |s| then n else |s|
    ensures r == s[..|r|]
  {
    if n <= |s| then s[..n] else s
  }

  // ---------------------------------------------------------------------
  // Guards and names

  const NotPdf: string := "Fichier doit être un PDF"
  const UnsupportedFormat: string := "Format non supporté"
  const ConvertFormats: set<string> := {"docx", "pptx", "jpg"}

  /** The name check of compress and convert: the name must end in `.pdf`, in lower case. */
  predicate PdfName(filename: string)
  {
    EndsWith(filename, ".pdf")
  }

  /** The temporary copy of an upload. */
  function InputName(filename: string): string
  {
    "input_" + filename
  }

  /** The stem of the temporary copy, which the OCR, summary, translation and secured names start from. */
  function TempStem(filename: string): string
  {
    PathLib.StemOf(InputName(filename))
  }

  /**
   * For a plain name ending in `.pdf`, the stem the derived names start
   * from is the name without `.pdf` but with the `input_` prefix of the
   * temporary copy: `report.pdf` gives `input_report`.
   */
  lemma TempStemOfPdf(filename: string)
    requires PdfName(filename) && '/' !in filename
    ensures TempStem(filename) == "input_" + filename[..|filename| - 4]
  {
    var base := "input_" + filename[..|filename| - 4];
    var n := InputName(filename);
    assert n == base + "." + "pdf" by {
      assert filename == filename[..|filename| - 4] + ".pdf";
    }
    assert '/' !in n by {
      forall j | 0 <= j < |n| ensures n[j] != '/' {
        if j >= 6 {
          assert n[j] == filename[j - 6];
        }
      }
    }
    PathLib.NameOfPlain(n);
    PathLib.SuffixOfAppended(base, "pdf");
  }

  /**
   * The name of a converted file: the `.pdf` extension replaced by the
   * target's.
   */
  function ConvertedName(filename: string, ext: string): (r: string)
    requires PdfName(filename)
    ensures |r| == |filename| - 3 + |ext|
    ensures EndsWith(r, "." + ext)
    ensures r[..|filename| - 4] == filename[..|filename| - 4]
  {
    var r := filename[..|filename| - 4] + ("." + ext);
    assert r[|r| - |"." + ext|..] == "." + ext;
    r
  }

  /** The name of a converted file as the service writes it: every `.pdf` in the name is replaced. */
  function ConvertedNameAsWritten(filename: string, ext: string): (r: string)
    ensures !Contains(filename, ".pdf") ==> r == filename
  {
    ReplaceAll(filename, ".pdf", "." + ext)
  }

  /**
   * Replacing every `.pdf` changes the middle of a name that holds `.pdf`
   * twice: `a.pdf.pdf` becomes `a.docx.docx` instead of `a.pdf.docx`.
   */
  lemma ReplaceHitsEveryPdf()
    ensures ConvertedNameAsWritten("a.pdf.pdf", "docx") == "a.docx.docx"
    ensures ConvertedName("a.pdf.pdf", "docx") == "a.pdf.docx"
  {
    EveryPdfReplaced();
    LastPdfReplaced();
  }

  /** The service's replacement turns both `.pdf` of `a.pdf.pdf` into `.docx`. */
  lemma EveryPdfReplaced()
    ensures ConvertedNameAsWritten("a.pdf.pdf", "docx") == "a.docx.docx"
  {
    var s, q := "a.pdf.pdf", "." + "docx";
    var rest := ReplaceAll(s[5..], ".pdf", q);
    assert ReplaceAll(s, ".pdf", q) == s[..1] + q + rest by {
      FirstPdfAt(s, 1);
      ReplaceAllUnfold(s, ".pdf", q);
    }
    assert rest == q by {
      assert s[5..] == ".pdf";
      ReplaceWholePdf("docx");
    }
    DoubleDocx();
  }

  /** The concatenation EveryPdfReplaced ends with. */
  lemma DoubleDocx()
    ensures "a.pdf.pdf"[..1] + ("." + "docx") + ("." + "docx") == "a.docx.docx"
  {
    assert "a.pdf.pdf"[..1] == "a";
  }

  /** Replacing only the extension keeps the inner `.pdf`. */
  lemma LastPdfReplaced()
    ensures ConvertedName("a.pdf.pdf", "docx") == "a.pdf.docx"
  {
    assert "a.pdf.pdf"[..5] == "a.pdf";
  }

  /** The first `.pdf` of `a.pdf.pdf` starts at 1. */
  lemma FirstPdfAt(s: string, k: int)
    requires s == "a.pdf.pdf" && k == 1
    ensures IndexOf(s, ".pdf") == k
  {
    assert !OccursAt(s, ".pdf", 0) by { assert s[0..4][0] != '.'; }
    assert OccursAt(s, ".pdf", 1) by { assert s[1..5] == ".pdf"; }
  }

  /** A name that is just `.pdf` is replaced whole. */
  lemma ReplaceWholePdf(ext: string)
    ensures ReplaceAll(".pdf", ".pdf", "." + ext) == "." + ext
  {
    assert OccursAt(".pdf", ".pdf", 0);
    assert ".pdf"[4..] == "";
  }

  /** The two names agree when the name's only `.pdf` is its extension. */
  lemma ConvertedNamesAgree(filename: string, ext: string)
    requires PdfName(filename) && IndexOf(filename, ".pdf") == |filename| - 4
    ensures ConvertedNameAsWritten(filename, ext) == ConvertedName(filename, ext)
  {
    var k := |filename| - 4;
    assert filename[k + 4..] == "";
    assert ReplaceAll("", ".pdf", "." + ext) == "";
  }

  function OcrName(filename: string): string
  {
    TempStem(filename) + "_extracted.txt"
  }

  function SummaryName(filename: string, length: string): string
  {
    TempStem(filename) + ("_summary_" + (length + ".txt"))
  }

  function TranslatedName(filename: string, target: string): string
  {
    TempStem(filename) + ("_translated_" + (target + ".txt"))
  }

  function SecuredName(filename: string): string
  {
    TempStem(filename) + "_secured.pdf"
  }

  // ---------------------------------------------------------------------
  // Text assembly

  /** One page of the OCR text: a numbered rule, the page's text and a blank line. */
  function OcrEntry(k: nat, text: string): string
  {
    "--- Page " + (NatToString(k) + (" ---\n" + (text + "\n\n")))
  }

  /** The entries of the pages, numbered from 1. */
  function OcrEntries(pageTexts: seq<string>): (r: seq<string>)
    ensures |r| == |pageTexts|
  {
    seq(|pageTexts|, i requires 0 <= i < |pageTexts| => OcrEntry(i + 1, pageTexts[i]))
  }

  /** The OCR output: the entries one after the other. */
  function OcrText(pageTexts: seq<string>): string
  {
    Concat(OcrEntries(pageTexts))
  }

  /** The OCR loop: appends each page's entry, numbered from 1, in page order. */
  method ExtractOcrText(pageTexts: seq<string>) returns (text: string)
    ensures text == OcrText(pageTexts)
  {
    text := "";
    for i := 0 to |pageTexts|
      invariant text == Concat(OcrEntries(pageTexts[..i]))
    {
      text := text + OcrEntry(i + 1, pageTexts[i]);
      assert OcrEntries(pageTexts[..i + 1]) == OcrEntries(pageTexts[..i]) + [OcrEntry(i + 1, pageTexts[i])];
    }
    assert pageTexts[..|pageTexts|] == pageTexts;
  }

  /** Every page's entry, with its number and its text, is in the OCR output. */
  lemma OcrTextHasEveryPage(pageTexts: seq<string>, i: int)
    requires 0 <= i < |pageTexts|
    ensures Contains(OcrText(pageTexts), OcrEntry(i + 1, pageTexts[i]))
    ensures Contains(OcrText(pageTexts), pageTexts[i])
  {
    var entries := OcrEntries(pageTexts);
    ConcatContains(entries, i);
    var body := pageTexts[i] + "\n\n";
    assert OccursAt(body, body, 0);
    ContainsAfter(" ---\n", body, body);
    ContainsAfter(NatToString(i + 1), " ---\n" + body, body);
    ContainsAfter("--- Page ", NatToString(i + 1) + (" ---\n" + body), body);
    ContainsTransitive(OcrText(pageTexts), entries[i], body);
    StartsWithConcat(pageTexts[i], "\n\n");
    ContainsPrefixOf(OcrText(pageTexts), body, pageTexts[i]);
  }

  /** Containment is transitive. */
  lemma ContainsTransitive(s: string, a: string, p: string)
    requires Contains(s, a) && Contains(a, p)
    ensures Contains(s, p)
  {
    var i :| 0 <= i <= |s| && OccursAt(s, a, i);
    var j :| 0 <= j <= |a| && OccursAt(a, p, j);
    forall k | 0 <= k < |p| ensures s[i + j + k] == p[k] {
      assert s[i + j + k] == s[i..i + |a|][j + k] == a[j + k];
      assert a[j + k] == a[j..j + |p|][k];
    }
    assert s[i + j..i + j + |p|] == p;
    assert OccursAt(s, p, i + j);
  }

  /** The loop of summarize and translate: the page texts appended without separator. */
  method JoinPages(pageTexts: seq<string>) returns (full: string)
    ensures full == Concat(pageTexts)
  {
    full := "";
    for i := 0 to |pageTexts|
      invariant full == Concat(pageTexts[..i])
    {
      full := full + pageTexts[i];
      assert pageTexts[..i + 1][..i] == pageTexts[..i];
    }
    assert pageTexts[..|pageTexts|] == pageTexts;
  }

  /** The joined text is as long as the pages together. */
  lemma {:induction false} ConcatLength(pageTexts: seq<string>, i: int)
    requires 0 <= i < |pageTexts|
    ensures |pageTexts[i]| <= |Concat(pageTexts)|
    decreases |pageTexts|
  {
    if i < |pageTexts| - 1 {
      assert pageTexts[..|pageTexts| - 1][i] == pageTexts[i];
      ConcatLength(pageTexts[..|pageTexts| - 1], i);
    }
  }

  // ---------------------------------------------------------------------
  // The summary

  /** How many words of the text a summary of each length quotes. */
  function WordLimit(length: string): nat
  {
    if length == "short" then 20 else if length == "detailed" then 500 else 200
  }

  /**
   * A summary: its length, the temporary copy's name, the page, word and
   * character counts, the quoted words and whether the quote is followed
   * by its marker (`...` for short and medium, the truncation note for
   * detailed).
   */
  datatype Summary = Summary(length: string, sourceName: string, pageCount: nat, wordCount: nat, charCount: nat,
                             excerpt: seq<string>, marked: bool)

  /**
   * The summary of the page texts: the first words up to the length's
   * limit; the short summary always ends in `...`, the others carry their
   * marker exactly when words were left out.
   */
  function SummaryOf(sourceName: string, pageTexts: seq<string>, length: string): (r: Summary)
    ensures r.excerpt == Prefix(Words(Concat(pageTexts)), WordLimit(length))
    ensures r.wordCount == |Words(Concat(pageTexts))| && r.pageCount == |pageTexts| && r.charCount == |Concat(pageTexts)|
    ensures r.marked <==> length == "short" || r.wordCount > WordLimit(length)
  {
    var words := Words(Concat(pageTexts));
    Summary(length, sourceName, |pageTexts|, |words|, |Concat(pageTexts)|, Prefix(words, WordLimit(length)),
            length == "short" || |words| > WordLimit(length))
  }

  /**
   * The quote is the text's first words: exactly the limit's worth when the
   * text has that many, all of them otherwise; and the quoted text, split
   * again, gives those words back.
   */
  lemma SummaryQuotesFirstWords(sourceName: string, pageTexts: seq<string>, length: string)
    ensures var s := SummaryOf(sourceName, pageTexts, length); var w := Words(Concat(pageTexts));
      |s.excerpt| == (if s.wordCount <= WordLimit(length) then s.wordCount else WordLimit(length))
      && (s.wordCount <= WordLimit(length) ==> s.excerpt == w)
      && Words(Join(s.excerpt, " ")) == s.excerpt
  {
    var s := SummaryOf(sourceName, pageTexts, length);
    var w := Words(Concat(pageTexts));
    assert IsWordList(s.excerpt) by {
      forall i | 0 <= i < |s.excerpt| ensures s.excerpt[i] != [] && NoneIn(s.excerpt[i], PySpaceSet) {
        assert s.excerpt[i] == w[i];
      }
    }
    WordsOfJoin(s.excerpt);
  }

  /** `long`, like any length other than `short` and `detailed`, is summarized as medium: 200 words. */
  lemma LongIsMedium(sourceName: string, pageTexts: seq<string>)
    ensures SummaryOf(sourceName, pageTexts, "long").excerpt == SummaryOf(sourceName, pageTexts, "medium").excerpt
    ensures SummaryOf(sourceName, pageTexts, "long").marked == SummaryOf(sourceName, pageTexts, "medium").marked
    ensures WordLimit("short") == 20 && WordLimit("detailed") == 500 && WordLimit("long") == 200
  {
  }

  const ShortTitle: string := "Résumé court du document "
  const DetailedTitle: string := "Résumé détaillé du document "
  const MediumTitle: string := "Résumé moyen du document "
  const TruncationNote: string := "\n\n[Résumé tronqué - Document complet traité]"

  /** The summary file's text. */
  function RenderSummary(s: Summary): string
  {
    var quote := Join(s.excerpt, " ");
    if s.length == "short" then
      ShortTitle + s.sourceName + ":\n\n"
      + "Document de " + NatToString(s.pageCount) + " pages contenant " + NatToString(s.wordCount) + " mots.\n"
      + "Contenu principal extrait et analysé.\n"
      + "Premiers mots: " + quote + "..."
    else if s.length == "detailed" then
      DetailedTitle + s.sourceName + ":\n\n"
      + "Analyse complète:\n"
      + "- Pages: " + NatToString(s.pageCount) + "\n"
      + "- Mots estimés: " + NatToString(s.wordCount) + "\n"
      + "- Caractères: " + NatToString(s.charCount) + "\n\n"
      + "Contenu principal:\n" + quote + (if s.marked then TruncationNote else "")
    else
      MediumTitle + s.sourceName + ":\n\n"
      + "Document de " + NatToString(s.pageCount) + " pages.\n\n"
      + quote + (if s.marked then "..." else "")
  }

  // ---------------------------------------------------------------------
  // The translation

  const TranslateLimit: nat := 1000

  /** The five language names, in French. */
  const LanguageNames: map<string, string> := map[
    "en" := "anglais", "es" := "espagnol", "it" := "italien", "de" := "allemand", "pt" := "portugais"]

  /** `languages.get(target_language, target_language)`. */
  function TargetName(target: string): (r: string)
    ensures target in LanguageNames ==> r == LanguageNames[target]
    ensures target !in LanguageNames ==> r == target
  {
    if target in LanguageNames then LanguageNames[target] else target
  }

  /**
   * A simulated translation: the language's name, the temporary copy's
   * name, the original's length, its first characters and, when it is
   * longer than the limit, the number of characters left out.
   */
  datatype Translation = Translation(languageName: string, sourceName: string, charCount: nat, excerpt: string,
                                     remaining: Option<nat>)

  /** The translation of the page texts. */
  function TranslationOf(sourceName: string, pageTexts: seq<string>, target: string): (r: Translation)
    ensures r.charCount == |Concat(pageTexts)|
    ensures r.excerpt == Prefix(Concat(pageTexts), TranslateLimit)
    ensures r.remaining.Some? <==> |Concat(pageTexts)| > TranslateLimit
  {
    var text := Concat(pageTexts);
    Translation(TargetName(target), sourceName, |text|, Prefix(text, TranslateLimit),
                if |text| > TranslateLimit then Some(|text| - TranslateLimit) else None)
  }

  /**
   * Nothing is lost from the account: the quote is the start of the text,
   * and the quote's length plus the count of characters left out is the
   * text's length; a text within the limit is quoted whole.
   */
  lemma TranslationAccounts(sourceName: string, pageTexts: seq<string>, target: string)
    ensures var t := TranslationOf(sourceName, pageTexts, target); var text := Concat(pageTexts);
      StartsWith(text, t.excerpt)
      && |t.excerpt| + t.remaining.GetOr(0) == |text|
      && |t.excerpt| <= TranslateLimit
      && (|text| <= TranslateLimit ==> t.excerpt == text)
  {
  }

  const SimulationOpening: string := "[SIMULATION DE TRADUCTION - "
  const FullTranslationNote: string := "\n\n[Traduction complète disponible avec service de traduction]\n"

  /** The translation file's text. */
  function RenderTranslation(t: Translation): string
  {
    "Document traduit en " + t.languageName + "\n"
    + "Fichier original: " + t.sourceName + "\n\n"
    + SimulationOpening + Upper(t.languageName) + "]\n\n"
    + "Contenu original (" + NatToString(t.charCount) + " caractères):\n"
    + t.excerpt
    + (if t.remaining.Some? then FullTranslationNote + "Note: " + NatToString(t.remaining.value) + " caractères supplémentaires à traduire." else "")
  }

  // ---------------------------------------------------------------------
  // The DOCX conversion

  /** The non-blank parts, each stripped by `strip` (Python's `str.strip` in the service). */
  function Paragraphs(parts: seq<string>, strip: string -> string): (r: seq<string>)
    ensures forall i :: 0 <= i < |r| ==> r[i] != ""
    ensures |r| <= |parts|
  {
    if parts == [] then []
    else if strip(parts[0]) == "" then Paragraphs(parts[1..], strip)
    else [strip(parts[0])] + Paragraphs(parts[1..], strip)
  }

  /** The text `convert_to_docx` extracts: each page followed by a blank line. */
  function DocxText(pageTexts: seq<string>): string
  {
    Concat(seq(|pageTexts|, i requires 0 <= i < |pageTexts| => pageTexts[i] + "\n\n"))
  }

  /** The converted document: a heading naming the upload, then the paragraphs. */
  datatype DocxDocument = DocxDocument(heading: string, paragraphs: seq<string>)

  function DocxOf(filename: string, pageTexts: seq<string>): DocxDocument
  {
    DocxDocument("Document converti: " + filename, Paragraphs(Split(DocxText(pageTexts), "\n\n"), PyStrip))
  }

  /** Every part that is not blank once stripped is kept, stripped, as a paragraph. */
  lemma {:induction false} ParagraphsKeepParts(parts: seq<string>, strip: string -> string, i: int)
    requires 0 <= i < |parts| && strip(parts[i]) != ""
    ensures strip(parts[i]) in Paragraphs(parts, strip)
    decreases |parts|
  {
    var rest := Paragraphs(parts[1..], strip);
    if i == 0 {
      assert Paragraphs(parts, strip) == [strip(parts[0])] + rest;
    } else {
      assert parts[1..][i - 1] == parts[i];
      ParagraphsKeepParts(parts[1..], strip, i - 1);
      if strip(parts[0]) == "" {
        assert Paragraphs(parts, strip) == rest;
      } else {
        assert Paragraphs(parts, strip) == [strip(parts[0])] + rest;
      }
    }
  }

  // ---------------------------------------------------------------------
  // The endpoints

  /** The file served. */
  datatype Output =
    | PdfFile
    | EncryptedPdf(password: string)
    | DocxFile(document: DocxDocument)
    | JpegFile(caption: string)
    | TextFile(text: string)
    | SummaryFile(summary: Summary)
    | TranslationFile(translation: Translation)

  datatype Response =
    | FileResponse(filename: string, mediaType: string, output: Output)
    | ErrorResponse(status: nat, detail: string)

  const DocxType: string := "application/vnd.openxmlformats-officedocument.wordprocessingml.document"

  /**
   * `compress`: the name check runs before the `try`, so a name not ending
   * in `.pdf` gets a real 400; `failure` is the text of an exception raised
   * while copying, compressing or writing.
   */
  function CompressEndpoint(filename: string, failure: Option<string>): (r: Response)
    ensures !PdfName(filename) ==> r == ErrorResponse(400, NotPdf)
    ensures PdfName(filename) && failure.Some? ==> r == ErrorResponse(500, "Erreur de compression: " + failure.value)
    ensures r.FileResponse? <==> PdfName(filename) && failure.None?
  {
    if !PdfName(filename) then ErrorResponse(400, NotPdf)
    else if failure.Some? then ErrorResponse(500, "Erreur de compression: " + failure.value)
    else FileResponse("compressed_" + filename, "application/pdf", PdfFile)
  }

  /**
   * `convert`: the name and the format are checked before the `try`; `pptx`
   * is converted to DOCX like `docx`.  `copyFailure` is an exception while
   * copying the upload, `pages` the page texts (or the exception while
   * reading them) and `jpgFailure` an exception while drawing or saving the
   * image.  A failure inside a converter is an `HTTPException(500)` that
   * the outer `except Exception` catches and wraps once more.
   */
  function ConvertEndpoint(filename: string, format: string, copyFailure: Option<string>,
                           pages: Result<seq<string>, string>, jpgFailure: Option<string>): (r: Response)
    ensures r.ErrorResponse? && r.status == 400 <==> !PdfName(filename) || format !in ConvertFormats
    ensures r.ErrorResponse? && r.status != 400 ==> r.status == 500 && StartsWith(r.detail, ConversionError)
    ensures r.FileResponse? <==>
      PdfName(filename) && format in ConvertFormats && copyFailure.None?
      && (if format == "jpg" then jpgFailure.None? else pages.Ok?)
    ensures r.FileResponse? && format != "jpg" ==> r.output == DocxFile(DocxOf(filename, pages.value))
  {
    if !PdfName(filename) then ErrorResponse(400, NotPdf)
    else if format !in ConvertFormats then ErrorResponse(400, UnsupportedFormat)
    else if copyFailure.Some? then ErrorResponse(500, ConversionError + copyFailure.value)
    else if format == "jpg" then
      if jpgFailure.Some? then ErrorResponse(500, ConversionError + (InnerError + (JpgError + jpgFailure.value)))
      else FileResponse(ConvertedName(filename, "jpg"), "image/jpeg", JpegFile(JpegCaption(filename)))
    else if pages.Err? then ErrorResponse(500, ConversionError + (InnerError + (DocxError + pages.error)))
    else FileResponse(ConvertedName(filename, "docx"), DocxType, DocxFile(DocxOf(filename, pages.value)))
  }

  const ConversionError: string := "Erreur de conversion: "
  /** `str()` of the converters' `HTTPException(500)`: its status, then its detail. */
  const InnerError: string := "500: "
  const JpgError: string := "Erreur conversion JPG: "
  const DocxError: string := "Erreur conversion DOCX: "
  const JpegCaptionBody: string := "\n\nConversion JPG réussie!\n\nNote: Installation complète nécessaire\npour conversion graphique complète."

  /** The text drawn on the placeholder JPEG. */
  function JpegCaption(filename: string): string
  {
    "PDF converti: " + (filename + JpegCaptionBody)
  }

  /**
   * A converted file is served under the upload's name with `.pdf` replaced
   * by the target's extension: `.jpg` as a JPEG image, `.docx` (for `docx`
   * and `pptx`) as a DOCX document.
   */
  lemma ConvertServedName(filename: string, format: string, copyFailure: Option<string>,
                          pages: Result<seq<string>, string>, jpgFailure: Option<string>)
    requires ConvertEndpoint(filename, format, copyFailure, pages, jpgFailure).FileResponse?
    ensures var r := ConvertEndpoint(filename, format, copyFailure, pages, jpgFailure);
      var ext := if format == "jpg" then "jpg" else "docx";
      PdfName(filename) && format in ConvertFormats
      && EndsWith(r.filename, "." + ext) && r.filename[..|filename| - 4] == filename[..|filename| - 4]
      && r.mediaType == (if format == "jpg" then "image/jpeg" else DocxType)
  {
  }

  /** `pptx` is served exactly as `docx` is: the same DOCX file under the same name. */
  lemma PptxIsDocx(filename: string, copyFailure: Option<string>, pages: Result<seq<string>, string>, jpgFailure: Option<string>)
    ensures ConvertEndpoint(filename, "pptx", copyFailure, pages, jpgFailure) == ConvertEndpoint(filename, "docx", copyFailure, pages, jpgFailure)
  {
  }

  /** The name check is case-sensitive: `REPORT.PDF` is refused with a 400 whatever else happens. */
  lemma UpperCasePdfRefused(failure: Option<string>)
    ensures CompressEndpoint("REPORT.PDF", failure) == ErrorResponse(400, NotPdf)
  {
    assert !EndsWith("REPORT.PDF", ".pdf") by {
      assert "REPORT.PDF"[6..][1] == 'P';
    }
  }

  /** `ocr`: no name check; the page entries in a text file named after the temporary copy. */
  function OcrEndpoint(filename: string, pages: Result<seq<string>, string>): (r: Response)
    ensures r.ErrorResponse? <==> pages.Err?
    ensures r.ErrorResponse? ==> r == ErrorResponse(500, "Erreur OCR: " + pages.error)
    ensures r.FileResponse? ==> r.output == TextFile(OcrText(pages.value)) && EndsWith(r.filename, "_extracted.txt")
  {
    if pages.Err? then ErrorResponse(500, "Erreur OCR: " + pages.error)
    else FileResponse(OcrName(filename), "text/plain", TextFile(OcrText(pages.value)))
  }

  /** `summarize`: no name check; the summary of the joined page texts. */
  function SummarizeEndpoint(filename: string, length: string, pages: Result<seq<string>, string>): (r: Response)
    ensures r.ErrorResponse? <==> pages.Err?
    ensures r.ErrorResponse? ==> r == ErrorResponse(500, "Erreur résumé: " + pages.error)
    ensures r.FileResponse? ==>
      r.output == SummaryFile(SummaryOf(PathLib.Name(InputName(filename)), pages.value, length))
      && r.filename == SummaryName(filename, length)
  {
    if pages.Err? then ErrorResponse(500, "Erreur résumé: " + pages.error)
    else FileResponse(SummaryName(filename, length), "text/plain",
                      SummaryFile(SummaryOf(PathLib.Name(InputName(filename)), pages.value, length)))
  }

  /** `translate`: no name check; the simulated translation of the joined page texts. */
  function TranslateEndpoint(filename: string, target: string, pages: Result<seq<string>, string>): (r: Response)
    ensures r.ErrorResponse? <==> pages.Err?
    ensures r.ErrorResponse? ==> r == ErrorResponse(500, "Erreur traduction: " + pages.error)
    ensures r.FileResponse? ==>
      r.output == TranslationFile(TranslationOf(PathLib.Name(InputName(filename)), pages.value, target))
      && r.filename == TranslatedName(filename, target)
  {
    if pages.Err? then ErrorResponse(500, "Erreur traduction: " + pages.error)
    else FileResponse(TranslatedName(filename, target), "text/plain",
                      TranslationFile(TranslationOf(PathLib.Name(InputName(filename)), pages.value, target)))
  }

  /** `secure`: no name check; the pages copied and encrypted with the password. */
  function SecureEndpoint(filename: string, password: string, failure: Option<string>): (r: Response)
    ensures r.ErrorResponse? <==> failure.Some?
    ensures r.ErrorResponse? ==> r == ErrorResponse(500, "Erreur sécurisation: " + failure.value)
    ensures r.FileResponse? ==> r.output == EncryptedPdf(password) && EndsWith(r.filename, "_secured.pdf")
  {
    if failure.Some? then ErrorResponse(500, "Erreur sécurisation: " + failure.value)
    else FileResponse(SecuredName(filename), "application/pdf", EncryptedPdf(password))
  }

  /** Only compress and convert check the name: the other four accept any name, a `.txt` one included. */
  lemma OnlyTwoCheckTheName(pages: seq<string>, failure: Option<string>)
    ensures CompressEndpoint("notes.txt", failure).ErrorResponse?
    ensures OcrEndpoint("notes.txt", Ok(pages)).FileResponse?
    ensures SummarizeEndpoint("notes.txt", "short", Ok(pages)).FileResponse?
    ensures TranslateEndpoint("notes.txt", "en", Ok(pages)).FileResponse?
    ensures SecureEndpoint("notes.txt", "pw", None).FileResponse?
  {
    assert !EndsWith("notes.txt", ".pdf") by {
      assert "notes.txt"[5..][1] == 't';
    }
  }
}

/**
 * The OCR service of the Python PDF service: the PDF's pages are rendered
 * to images, each image is read by the OCR engine, and the page texts are
 * assembled under numbered headers into a text file or a DOCX document.
 * Rendering and reading are library calls: the rendered pages (None when
 * rendering raised) and the engine are parameters.
 */
module OcrService {
  import opened Wrappers
  import opened Strings
  import PathLib
  import PdfText

  /** The eleven OCR languages, by engine code. */
  const OcrLanguages: map<string, string> := map[
    "eng" := "English", "fra" := "French", "spa" := "Spanish", "deu" := "German",
    "ita" := "Italian", "por" := "Portuguese", "rus" := "Russian",
    "chi_sim" := "Chinese Simplified", "chi_tra" := "Chinese Traditional",
    "jpn" := "Japanese", "kor" := "Korean"]

  /** The language the engine is run with: the requested one when supported, English otherwise. */
  function EffectiveLanguage(language: string): (r: string)
    ensures r in OcrLanguages
    ensures language in OcrLanguages ==> r == language
    ensures language !in OcrLanguages ==> r == "eng"
  {
    if language in OcrLanguages then language else "eng"
  }

  // ---------------------------------------------------------------------
  // The page loop

  const NoText: string := "[No text detected]"
  const OcrFailed: string := "[OCR processing failed]"

  /** The header of page `k`, numbered from 1. */
  function PageHeader(k: nat): string
  {
    "=== Page " + (NatToString(k) + " ===\n")
  }

  /** A page's text: the engine's output stripped, a marker when it is blank, another when the engine raised. */
  function PageBody(read: Option<string>): string
  {
    if read.None? then OcrFailed
    else if PyStrip(read.value) != "" then PyStrip(read.value)
    else NoText
  }

  /** The entries for the pages read, page `i` numbered `i + 1`. */
  function PageEntries(texts: seq<Option<string>>): (r: seq<string>)
    ensures |r| == |texts|
  {
    seq(|texts|, i requires 0 <= i < |texts| => PageHeader(i + 1) + PageBody(texts[i]))
  }

  /** What the engine gives for each page, in the given language. */
  function PageTexts<Image>(pages: seq<Image>, ocr: (Image, string) -> Option<string>, language: string): (r: seq<Option<string>>)
    ensures |r| == |pages|
  {
    seq(|pages|, i requires 0 <= i < |pages| => ocr(pages[i], language))
  }

  /**
   * `extract_text`'s loop over the pages: each page, in order, is read by
   * the engine and contributes exactly one entry, whether the read gave
   * text, blank text or raised.
   */
  method AssemblePages<Image>(pages: seq<Image>, ocr: (Image, string) -> Option<string>, language: string)
    returns (entries: seq<string>)
    ensures entries == PageEntries(PageTexts(pages, ocr, language))
  {
    entries := [];
    for i := 0 to |pages|
      invariant entries == PageEntries(PageTexts(pages[..i], ocr, language))
    {
      var pageText := ocr(pages[i], language);
      var body;
      if pageText.None? {
        body := OcrFailed;
      } else if PyStrip(pageText.value) != "" {
        body := PyStrip(pageText.value);
      } else {
        body := NoText;
      }
      assert body == PageBody(pageText);
      entries := entries + [PageHeader(i + 1) + body];
      PageTextsSnoc(pages, i, ocr, language);
      PageEntriesSnoc(PageTexts(pages[..i], ocr, language), pageText);
    }
    assert pages[..|pages|] == pages;
  }

  /** Reading one more page appends its text. */
  lemma PageTextsSnoc<Image>(pages: seq<Image>, i: int, ocr: (Image, string) -> Option<string>, language: string)
    requires 0 <= i < |pages|
    ensures PageTexts(pages[..i + 1], ocr, language) == PageTexts(pages[..i], ocr, language) + [ocr(pages[i], language)]
  {
  }

  /** One more page text appends one entry, numbered after the others. */
  lemma PageEntriesSnoc(texts: seq<Option<string>>, t: Option<string>)
    ensures PageEntries(texts + [t]) == PageEntries(texts) + [PageHeader(|texts| + 1) + PageBody(t)]
  {
  }

  /** A page body is never empty: blank and failed pages get a marker. */
  lemma PageBodyNonEmpty(read: Option<string>)
    ensures PageBody(read) != ""
    ensures read.Some? && PyStrip(read.value) == "" ==> PageBody(read) == NoText
  {
  }

  /** The page number in a header reads back as that number, so no two pages share a header. */
  lemma PageHeaderReadBack(k: nat)
    ensures var h := PageHeader(k); var d := NatToString(k);
      |h| == 9 + |d| + 5 && h[9..9 + |d|] == d && DigitsValue(h[9..9 + |d|]) == k
  {
    var d := NatToString(k);
    assert PageHeader(k)[9..9 + |d|] == d;
    NatToStringRoundTrip(k);
  }

  /** Different page numbers give different headers. */
  lemma PageHeadersDistinct(j: nat, k: nat)
    requires j != k
    ensures PageHeader(j) != PageHeader(k)
  {
    if PageHeader(j) == PageHeader(k) {
      PageHeaderReadBack(j);
      PageHeaderReadBack(k);
      NatToStringInjective(j, k);
    }
  }

  /** Entry `i` is the header numbered `i + 1` followed by the page's body. */
  lemma PageEntryShape(texts: seq<Option<string>>, i: int)
    requires 0 <= i < |texts|
    ensures StartsWith(PageEntries(texts)[i], PageHeader(i + 1))
    ensures PageEntries(texts)[i][|PageHeader(i + 1)|..] == PageBody(texts[i])
  {
    StartsWithConcat(PageHeader(i + 1), PageBody(texts[i]));
  }

  // ---------------------------------------------------------------------
  // extract_text

  /** The file `extract_text` returns. */
  datatype OcrOutcome =
    | OcrText(content: string)
    | OcrDocx(text: string)
    | OcrPlaceholder(asDocx: bool)

  const TextTitle: string := "OCR Text Extraction\nSource: "
  const DateLabel: string := "\nExtraction Date: "

  /** `_create_text_output`: the header naming the source and its creation time, a rule, then the text. */
  function TextOutput(text: string, inputPath: string, ctime: string): string
  {
    TextTitle + (PathLib.Name(inputPath) + (DateLabel + (ctime + ("\n" + (PdfText.Rule + text)))))
  }

  /**
   * `extract_text` as a function of the outside results: `pages` are the
   * rendered pages (None when rendering raised), `ocr` the engine,
   * `ctime` the rendered creation time (None when it could not be read)
   * and `docxBuilds` whether the DOCX document is built and saved.  A
   * failure in the output step is caught like any other and ends in the
   * placeholder, in the requested format.
   */
  function OcrResult<Image>(pages: Option<seq<Image>>, ocr: (Image, string) -> Option<string>, language: string,
                            format: string, inputPath: string, ctime: Option<string>, docxBuilds: bool): (r: OcrOutcome)
    ensures r.OcrPlaceholder? ==> (r.asDocx <==> format == "docx")
    ensures r.OcrDocx? ==> format == "docx"
    ensures r.OcrText? ==> format != "docx"
    ensures r.OcrPlaceholder? <==> pages.None? || (format == "docx" && !docxBuilds) || (format != "docx" && ctime.None?)
  {
    if pages.None? then OcrPlaceholder(format == "docx")
    else
      var full := Join(PageEntries(PageTexts(pages.value, ocr, EffectiveLanguage(language))), "\n\n");
      if format == "docx" then (if docxBuilds then OcrDocx(full) else OcrPlaceholder(true))
      else if ctime.None? then OcrPlaceholder(false)
      else OcrText(TextOutput(full, inputPath, ctime.value))
  }

  /** `extract_text`: falls back to English, runs the page loop, joins the entries by blank lines and writes the output. */
  method ExtractText<Image>(pages: Option<seq<Image>>, ocr: (Image, string) -> Option<string>, language: string,
                            format: string, inputPath: string, ctime: Option<string>, docxBuilds: bool) returns (r: OcrOutcome)
    ensures r == OcrResult(pages, ocr, language, format, inputPath, ctime, docxBuilds)
  {
    var lang := language;
    if lang !in OcrLanguages {
      lang := "eng";
    }
    if pages.None? {
      return OcrPlaceholder(format == "docx");
    }
    var entries := AssemblePages(pages.value, ocr, lang);
    var full := Join(entries, "\n\n");
    if format == "docx" {
      r := if docxBuilds then OcrDocx(full) else OcrPlaceholder(true);
    } else if ctime.None? {
      r := OcrPlaceholder(false);
    } else {
      r := OcrText(TextOutput(full, inputPath, ctime.value));
    }
  }

  /** A text result starts with the title and carries the header of every page. */
  lemma OcrTextCarriesPages<Image>(pages: seq<Image>, ocr: (Image, string) -> Option<string>, language: string,
                                   inputPath: string, ctime: string, i: int)
    requires 0 <= i < |pages|
    ensures var r := OcrResult(Some(pages), ocr, language, "txt", inputPath, Some(ctime), false);
      r.OcrText? && StartsWith(r.content, TextTitle) && Contains(r.content, PageHeader(i + 1))
  {
    var entries := PageEntries(PageTexts(pages, ocr, EffectiveLanguage(language)));
    var full := Join(entries, "\n\n");
    PageEntryShape(PageTexts(pages, ocr, EffectiveLanguage(language)), i);
    assert OccursAt(entries[i], PageHeader(i + 1), 0);
    JoinContainsPart(entries, "\n\n", i, PageHeader(i + 1));
    var tail := PathLib.Name(inputPath) + (DateLabel + (ctime + ("\n" + (PdfText.Rule + full))));
    ContainsAfter(PdfText.Rule, full, PageHeader(i + 1));
    ContainsAfter("\n", PdfText.Rule + full, PageHeader(i + 1));
    ContainsAfter(ctime, "\n" + (PdfText.Rule + full), PageHeader(i + 1));
    ContainsAfter(DateLabel, ctime + ("\n" + (PdfText.Rule + full)), PageHeader(i + 1));
    ContainsAfter(PathLib.Name(inputPath), DateLabel + (ctime + ("\n" + (PdfText.Rule + full))), PageHeader(i + 1));
    ContainsAfter(TextTitle, tail, PageHeader(i + 1));
    StartsWithConcat(TextTitle, tail);
  }

  /** A pattern found in one part of a join is found in the join. */
  lemma {:induction false} JoinContainsPart(parts: seq<string>, sep: string, i: int, p: string)
    requires 0 <= i < |parts| && Contains(parts[i], p)
    ensures Contains(Join(parts, sep), p)
    decreases |parts|
  {
    if |parts| > 1 {
      if i == 0 {
        ContainsWithin("", parts[0], sep + Join(parts[1..], sep), p);
        assert "" + parts[0] + (sep + Join(parts[1..], sep)) == parts[0] + sep + Join(parts[1..], sep);
      } else {
        JoinContainsPart(parts[1..], sep, i - 1, p);
        ContainsAfter(parts[0] + sep, Join(parts[1..], sep), p);
      }
    }
  }

  const PlaceholderTitle: string := "OCR Text Extraction - Placeholder Result\n\nSource File: "
  const PlaceholderBody: string := "\nProcessing Status: Placeholder (actual OCR not available)\n\nThis is a placeholder result for testing purposes.\nIn a full implementation, this would contain the actual text\nextracted from the PDF using Tesseract OCR.\n\n=== Page 1 ===\n[Sample extracted text would appear here]\n\n=== Page 2 ===\n[Additional pages would be processed here]\n\nNote: To enable full OCR functionality, ensure Tesseract is properly\ninstalled and configured on the system.\n"

  /** `_create_placeholder_result`'s text; as DOCX it is one paragraph under the heading `OCR Placeholder Result`. */
  function PlaceholderText(inputPath: string): string
  {
    PlaceholderTitle + PathLib.Name(inputPath) + PlaceholderBody
  }
}

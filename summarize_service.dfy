/**
 * The summarize service of the Python PDF service: the extracted text is
 * cleaned, its first sentences form the summary, and the summary is
 * written with a metadata block under a header.  Text extraction, the
 * file's creation time and the output file are outside the model; their
 * results are parameters.
 */
module SummarizeService {
  import opened Wrappers
  import opened Strings
  import PathLib
  import opened PdfText

  /** How many sentences each summary length keeps; an unknown length is `medium`. */
  function SentenceCount(length: string): (n: nat)
    ensures n in {3, 5, 10}
  {
    if length == "short" then 3
    else if length == "long" then 10
    else 5
  }

  /** The lengths with settings of their own. */
  predicate KnownLength(length: string)
  {
    length in {"short", "medium", "long"}
  }

  /** Longer summaries keep more sentences, and any other length behaves as `medium`. */
  lemma SentenceCountOrder(length: string)
    ensures SentenceCount("short") < SentenceCount("medium") < SentenceCount("long")
    ensures !KnownLength(length) ==> SentenceCount(length) == SentenceCount("medium")
  {
  }

  // ---------------------------------------------------------------------
  // _clean_text

  const MaxCleanLength: nat := 10000

  /**
   * `_clean_text`: the text normalised, then cut to 10000 characters
   * followed by `...` when longer.
   */
  function CleanText(text: string): string
  {
    var normal := Normalize(text);
    if |normal| > MaxCleanLength then normal[..MaxCleanLength] + "..." else normal
  }

  /** The cleaned text is at most 10003 characters long, and a text that was cut ends with `...`. */
  lemma CleanTextBounded(text: string)
    ensures |CleanText(text)| <= MaxCleanLength + 3
    ensures |CleanText(text)| > MaxCleanLength ==> EndsWith(CleanText(text), "...")
  {
  }

  /**
   * A text without bullets whose collapsed form fits the limit is cleaned
   * to exactly that collapsed form, and cleaning it again changes nothing.
   */
  lemma CleanPlainText(text: string)
    requires !Contains(CollapseSpaces(text), Bullet)
    requires |CollapseSpaces(text)| <= MaxCleanLength
    ensures CleanText(text) == CollapseSpaces(text)
    ensures CleanText(CleanText(text)) == CleanText(text)
  {
    NormalizePlain(text);
  }

  // ---------------------------------------------------------------------
  // _generate_summary

  /** The sentences of a text: its pieces between dots, stripped, empty ones dropped. */
  function Sentences(text: string): seq<string>
  {
    StrippedNonEmpty(Split(text, "."))
  }

  /** A sentence is non-empty and stripped. */
  predicate IsSentence(s: string)
  {
    s != [] && s[0] !in PySpaceSet && s[|s| - 1] !in PySpaceSet && '.' !in s
  }

  /** Every sentence of a text is non-empty, stripped and holds no dot. */
  lemma SentencesAreSentences(text: string)
    ensures forall i :: 0 <= i < |Sentences(text)| ==> IsSentence(Sentences(text)[i])
  {
    var pieces := Split(text, ".");
    forall i | 0 <= i < |pieces| ensures '.' !in pieces[i] {
      if '.' in pieces[i] {
        var j :| 0 <= j < |pieces[i]| && pieces[i][j] == '.';
        assert OccursAt(pieces[i], ".", j);
      }
    }
    StrippedNonEmptyShape(pieces, '.');
  }

  /** The sentences the summary keeps: the first `n` of the text's. */
  function KeptSentences(text: string, length: string): (r: seq<string>)
    ensures |r| == if |Sentences(text)| < SentenceCount(length) then |Sentences(text)| else SentenceCount(length)
    ensures r == Sentences(text)[..|r|]
  {
    var all := Sentences(text);
    if |all| < SentenceCount(length) then all else all[..SentenceCount(length)]
  }

  /** The summary: the kept sentences joined by `". "`, with a final dot added when missing. */
  function Summary(text: string, length: string): string
  {
    var s := Join(KeptSentences(text, length), ". ");
    if EndsWith(s, ".") then s else s + "."
  }

  /**
   * The summary always ends with a dot, and cutting that dot off and
   * splitting on `". "` gives back exactly the kept sentences (when there
   * are any; otherwise the summary is a lone dot).
   */
  lemma SummaryRoundTrip(text: string, length: string)
    ensures var s := Summary(text, length);
      EndsWith(s, ".")
      && (KeptSentences(text, length) == [] ==> s == ".")
      && (KeptSentences(text, length) != [] ==> Split(s[..|s| - 1], ". ") == KeptSentences(text, length))
  {
    var kept := KeptSentences(text, length);
    SentencesAreSentences(text);
    assert forall i :: 0 <= i < |kept| ==> IsSentence(kept[i]) by {
      forall i | 0 <= i < |kept| ensures IsSentence(kept[i]) {
        assert kept[i] == Sentences(text)[i];
      }
    }
    var j := Join(kept, ". ");
    if kept != [] {
      LastOfJoin(kept, ". ");
      assert j[|j| - 1] != '.';
      assert !EndsWith(j, ".");
      assert (j + ".")[..|j|] == j;
      SplitJoin(kept, ". ");
    }
  }

  /** The last character of a join of non-empty parts is the last character of the last part. */
  lemma {:induction false} LastOfJoin(parts: seq<string>, sep: string)
    requires |parts| >= 1 && parts[|parts| - 1] != []
    ensures var j := Join(parts, sep); |j| > 0 && j[|j| - 1] == parts[|parts| - 1][|parts[|parts| - 1]| - 1]
    decreases |parts|
  {
    if |parts| > 1 {
      LastOfJoin(parts[1..], sep);
    }
  }

  const SummaryTitle: string := "DOCUMENT SUMMARY\n\nLength: "
  const TargetLanguageLabel: string := "\nTarget Language: "
  const OriginalLengthLabel: string := "\nOriginal Text Length: "
  const SummaryLengthLabel: string := " characters\nSummary Length: "
  const SummaryLabel: string := " characters\n\nSUMMARY:\n"
  const SummaryNote: string := "\n\n---\nNote: This is a placeholder summarization. In production, this would use\nadvanced NLP models for proper content summarization.\n"

  /** The metadata block above the summary: length, language and both character counts. */
  function SummaryMetadata(textLength: nat, length: string, language: string, summaryLength: nat): string
  {
    SummaryTitle + Capitalize(length) + TargetLanguageLabel + Upper(language)
      + OriginalLengthLabel + NatToString(textLength)
      + SummaryLengthLabel + NatToString(summaryLength) + SummaryLabel
  }

  /** `_generate_summary`: the summary under its metadata block. */
  function GenerateSummary(text: string, length: string, language: string): string
  {
    var summary := Summary(text, length);
    SummaryMetadata(|text|, length, language, |summary|) + summary + SummaryNote
  }

  // ---------------------------------------------------------------------
  // summarize

  const OutputTitle: string := "PDF Summary - "
  const SourceLabel: string := "\nSource: "
  const GeneratedLabel: string := "\nGenerated: "

  /** The header of the result file after its title: length, source name, creation time and a rule. */
  function OutputHeader(length: string, inputPath: string, ctime: string): string
  {
    Capitalize(length) + SourceLabel + PathLib.Name(inputPath) + GeneratedLabel + ctime + "\n" + Rule
  }

  const PlaceholderTitle: string := "PDF SUMMARIZATION - PLACEHOLDER RESULT\n\nSource File: "
  const PlaceholderLengthLabel: string := "\nSummary Length: "
  const PlaceholderStatus: string := "\nProcessing Status: Placeholder (actual AI summarization not available)\n\nSUMMARY:\nThis is a placeholder summary for testing purposes. In a full implementation,\nthis would contain an AI-generated summary of the PDF content using advanced\nnatural language processing models.\n\nThe summary would be tailored to the requested length ("
  const PlaceholderMiddle: string := ") and would\ncapture the key points, main arguments, and important details from the\noriginal document.\n\nKey features that would be included:\n- Extractive and abstractive summarization techniques\n- Content understanding and topic identification\n- Language-specific processing for "
  const PlaceholderEnd: string := "\n- Customizable summary length and focus areas\n\nTECHNICAL IMPLEMENTATION NOTES:\n- Text extraction using pdfminer.six\n- NLP processing with transformers or OpenAI API\n- Multi-language support for summaries\n- Quality scoring and relevance ranking\n\n---\nNote: To enable full summarization functionality, integrate with:\n- OpenAI GPT API for high-quality summaries\n- Hugging Face transformers for local processing\n- Google Cloud Natural Language API\n- Or similar NLP services\n"

  /** `_create_placeholder_result`: the fixed text naming the file, length and language. */
  function Placeholder(inputPath: string, length: string, language: string): string
  {
    PlaceholderTitle + PathLib.Name(inputPath) + PlaceholderLengthLabel + Capitalize(length)
      + TargetLanguageLabel + Upper(language) + PlaceholderStatus + length
      + PlaceholderMiddle + language + PlaceholderEnd
  }

  /** `_create_summary_output` on the generated summary of the cleaned text: the titled header, then the summary. */
  function SummaryFile(text: string, inputPath: string, length: string, language: string, ctime: string): string
  {
    OutputTitle + (OutputHeader(length, inputPath, ctime) + GenerateSummary(CleanText(text), length, language))
  }

  /** Which file `summarize` writes: the summary text, or the placeholder. */
  datatype SummaryOutcome = SummaryText(content: string) | SummaryPlaceholder

  /**
   * `summarize`.  `extracted` is the extractor's text (None when it
   * raised) and `ctime` the rendered creation time of the input (None when
   * it could not be read).  A failed or blank extraction and a failed
   * header all end in the placeholder; nothing is raised.
   */
  function Summarize(extracted: Option<string>, inputPath: string, length: string, language: string, ctime: Option<string>): (r: SummaryOutcome)
    ensures r.SummaryPlaceholder? <==> extracted.None? || PyStrip(extracted.value) == "" || ctime.None?
  {
    if extracted.None? || PyStrip(extracted.value) == "" || ctime.None? then SummaryPlaceholder
    else SummaryText(SummaryFile(extracted.value, inputPath, length, language, ctime.value))
  }

  /** The contents of the file `summarize` returns the path of. */
  function WrittenText(r: SummaryOutcome, inputPath: string, length: string, language: string): string
  {
    match r
    case SummaryText(content) => content
    case SummaryPlaceholder => Placeholder(inputPath, length, language)
  }

  /** A real result starts with its title. */
  lemma SummaryTitled(text: string, inputPath: string, length: string, language: string, ctime: string)
    ensures StartsWith(SummaryFile(text, inputPath, length, language, ctime), OutputTitle)
  {
    StartsWithConcat(OutputTitle, OutputHeader(length, inputPath, ctime) + GenerateSummary(CleanText(text), length, language));
  }

  /** A real result carries the summary of the cleaned text. */
  lemma SummarizeCarriesSummary(text: string, inputPath: string, length: string, language: string, ctime: string)
    requires PyStrip(text) != ""
    ensures Summarize(Some(text), inputPath, length, language, Some(ctime)).SummaryText?
    ensures Contains(Summarize(Some(text), inputPath, length, language, Some(ctime)).content, Summary(CleanText(text), length))
  {
    SummaryFileCarriesSummary(text, inputPath, length, language, ctime);
  }

  lemma SummaryFileCarriesSummary(text: string, inputPath: string, length: string, language: string, ctime: string)
    ensures Contains(SummaryFile(text, inputPath, length, language, ctime), Summary(CleanText(text), length))
  {
    var cleaned := CleanText(text);
    var summary := Summary(cleaned, length);
    var g := GenerateSummary(cleaned, length, language);
    var header := OutputHeader(length, inputPath, ctime);
    ContainsMiddle(SummaryMetadata(|cleaned|, length, language, |summary|), summary, SummaryNote);
    ContainsAfter(header, g, summary);
    ContainsAfter(OutputTitle, header + g, summary);
  }
}

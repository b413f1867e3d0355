/**
 * The translate service of the Python PDF service.  The extracted text is
 * normalised and cut into chunks of whole sentences below 4000
 * characters; each chunk is wrapped in translation markers; the result is
 * written as a text file or laid out as a PDF.  Text extraction, the
 * file's creation time, the PDF layout engine and the length of Python's
 * rendering of the chunk list are outside the model; their results are
 * parameters.
 */
module TranslateService {
  import opened Wrappers
  import opened Strings
  import PathLib
  import opened PdfText

  /** The twelve target languages, by code. */
  const SupportedLanguages: map<string, string> := map[
    "en" := "English", "fr" := "French", "es" := "Spanish", "de" := "German",
    "it" := "Italian", "pt" := "Portuguese", "ru" := "Russian", "zh" := "Chinese",
    "ja" := "Japanese", "ko" := "Korean", "ar" := "Arabic", "hi" := "Hindi"]

  /** `supported_languages.get(code, code)`. */
  function LanguageName(code: string): string
  {
    if code in SupportedLanguages then SupportedLanguages[code] else code
  }

  /** No language name spans two lines. */
  lemma LanguageNamesSingleLine(code: string)
    requires code in SupportedLanguages
    ensures '\n' !in LanguageName(code)
  {
  }

  // ---------------------------------------------------------------------
  // _clean_text: sentence chunking

  const ChunkLimit: nat := 4000
  const SentenceSeparator: string := ". "

  /** A group of sentences as the loop accumulates it: each sentence followed by `". "`. */
  function GroupText(group: seq<string>): (r: string)
    ensures |r| >= 2 * |group|
  {
    if group == [] then "" else GroupText(group[..|group| - 1]) + (group[|group| - 1] + SentenceSeparator)
  }

  /** The chunking state after some sentences: the groups already emitted and the open one. */
  datatype Grouping = Grouping(done: seq<seq<string>>, open: seq<string>)

  /**
   * The chunking loop over the sentences: a sentence joins the open group
   * while the group's text plus the sentence stays below 4000 characters;
   * otherwise the open group, if any, is emitted and the sentence opens
   * the next one.
   */
  function Group(sentences: seq<string>): Grouping
  {
    if sentences == [] then Grouping([], [])
    else
      var g := Group(sentences[..|sentences| - 1]);
      var s := sentences[|sentences| - 1];
      if |GroupText(g.open) + s| < ChunkLimit then Grouping(g.done, g.open + [s])
      else Grouping(if g.open != [] then g.done + [g.open] else g.done, [s])
  }

  /** Every group, the last one included. */
  function Groups(sentences: seq<string>): seq<seq<string>>
  {
    var g := Group(sentences);
    if g.open != [] then g.done + [g.open] else g.done
  }

  function Flatten(gs: seq<seq<string>>): seq<string>
  {
    if gs == [] then [] else Flatten(gs[..|gs| - 1]) + gs[|gs| - 1]
  }

  /** A group is non-empty, and one holding two or more sentences stays below 4002 characters. */
  predicate WellSized(group: seq<string>)
  {
    group != [] && (|group| >= 2 ==> |GroupText(group)| < ChunkLimit + 2)
  }

  predicate AllWellSized(gs: seq<seq<string>>)
  {
    forall i :: 0 <= i < |gs| ==> WellSized(gs[i])
  }

  lemma {:induction false} GroupInvariant(sentences: seq<string>)
    ensures Flatten(Group(sentences).done) + Group(sentences).open == sentences
    ensures AllWellSized(Group(sentences).done)
    ensures |Group(sentences).open| >= 2 ==> |GroupText(Group(sentences).open)| < ChunkLimit + 2
    ensures sentences != [] ==> Group(sentences).open != []
    decreases |sentences|
  {
    if sentences != [] {
      var prefix := sentences[..|sentences| - 1];
      var s := sentences[|sentences| - 1];
      assert prefix + [s] == sentences;
      GroupInvariant(prefix);
      GroupSnoc(prefix, s);
      var g := Group(prefix);
      if |GroupText(g.open) + s| < ChunkLimit {
        assert Flatten(g.done) + (g.open + [s]) == (Flatten(g.done) + g.open) + [s];
        GroupTextSnoc(g.open, s);
      } else if g.open != [] {
        FlattenSnoc(g.done, g.open);
        WellSizedSnoc(g.done, g.open);
      }
    }
  }

  lemma FlattenSnoc(gs: seq<seq<string>>, g: seq<string>)
    ensures Flatten(gs + [g]) == Flatten(gs) + g
  {
    assert (gs + [g])[..|gs|] == gs;
  }

  lemma WellSizedSnoc(gs: seq<seq<string>>, g: seq<string>)
    requires AllWellSized(gs) && WellSized(g)
    ensures AllWellSized(gs + [g])
  {
    forall i | 0 <= i < |gs| + 1 ensures WellSized((gs + [g])[i]) {
      if i < |gs| {
        assert (gs + [g])[i] == gs[i];
      }
    }
  }

  /**
   * The groups partition the sentences in order: flattened, they are the
   * sentences again; none is empty, and none with two or more sentences
   * reaches 4002 characters.
   */
  lemma GroupsPartition(sentences: seq<string>)
    ensures Flatten(Groups(sentences)) == sentences
    ensures AllWellSized(Groups(sentences))
  {
    GroupInvariant(sentences);
    var g := Group(sentences);
    if g.open != [] {
      FlattenSnoc(g.done, g.open);
      WellSizedSnoc(g.done, g.open);
    } else {
      assert Flatten(g.done) + [] == Flatten(g.done);
    }
  }

  /** Each sentence of a group adds itself and two characters to the group's text. */
  lemma {:induction false} GroupTextCovers(group: seq<string>, j: int)
    requires 0 <= j < |group|
    ensures |GroupText(group)| >= |group[j]| + 2 * |group|
    decreases |group|
  {
    if j < |group| - 1 {
      GroupTextCovers(group[..|group| - 1], j);
    }
  }

  /** A sentence of 4000 characters or more always makes up a group on its own. */
  lemma OversizedAlone(sentences: seq<string>, i: int, j: int)
    requires 0 <= i < |Groups(sentences)| && 0 <= j < |Groups(sentences)[i]|
    requires |Groups(sentences)[i][j]| >= ChunkLimit
    ensures Groups(sentences)[i] == [Groups(sentences)[i][j]]
  {
    GroupsPartition(sentences);
    var group := Groups(sentences)[i];
    assert WellSized(group);
    GroupTextCovers(group, j);
  }

  /** The chunk emitted for each group: its text, stripped. */
  function ChunkStrings(gs: seq<seq<string>>): (r: seq<string>)
    ensures |r| == |gs|
  {
    seq(|gs|, i requires 0 <= i < |gs| => PyStrip(GroupText(gs[i])))
  }

  /** `_clean_text`'s result: the chunks when there are two or more, otherwise the whole normalised text. */
  function Chunks(text: string): seq<string>
  {
    var cleaned := Normalize(text);
    var cs := ChunkStrings(Groups(Split(cleaned, SentenceSeparator)));
    if |cs| > 1 then cs else [cleaned]
  }

  /** One more sentence: it joins the open group or opens the next one, emitting the open group when there is one. */
  lemma GroupSnoc(prefix: seq<string>, s: string)
    ensures var g := Group(prefix);
      Group(prefix + [s]) ==
        if |GroupText(g.open) + s| < ChunkLimit then Grouping(g.done, g.open + [s])
        else Grouping(if g.open != [] then g.done + [g.open] else g.done, [s])
  {
    assert (prefix + [s])[..|prefix|] == prefix;
  }

  lemma GroupTextSnoc(group: seq<string>, s: string)
    ensures GroupText(group + [s]) == GroupText(group) + (s + SentenceSeparator)
  {
    assert (group + [s])[..|group|] == group;
  }

  lemma ChunkStringsSnoc(gs: seq<seq<string>>, g: seq<string>)
    ensures ChunkStrings(gs + [g]) == ChunkStrings(gs) + [PyStrip(GroupText(g))]
  {
    assert forall i :: 0 <= i < |gs| ==> (gs + [g])[i] == gs[i];
  }

  /**
   * `_clean_text`'s loop over the sentences: a chunk is closed whenever the
   * next sentence would take it to 4000 characters or more, and the last
   * open chunk is closed at the end.
   */
  method ChunkSentences(sentences: seq<string>) returns (done: seq<string>)
    ensures done == ChunkStrings(Groups(sentences))
  {
    done := [];
    var current := "";
    for i := 0 to |sentences|
      invariant done == ChunkStrings(Group(sentences[..i]).done)
      invariant current == GroupText(Group(sentences[..i]).open)
    {
      var sentence := sentences[i];
      ChunkStep(sentences, i);
      if |current + sentence| < ChunkLimit {
        current := current + (sentence + SentenceSeparator);
      } else {
        if current != "" {
          done := done + [PyStrip(current)];
        }
        current := sentence + SentenceSeparator;
      }
    }
    assert sentences[..|sentences|] == sentences;
    ChunkFinish(sentences);
    if current != "" {
      done := done + [PyStrip(current)];
    }
  }

  /** A group's text is empty exactly when the group is. */
  lemma GroupTextEmpty(group: seq<string>)
    ensures GroupText(group) == "" <==> group == []
  {
  }

  /** One sentence of the chunking loop, stated on the emitted chunks and the open group's text. */
  lemma ChunkStep(sentences: seq<string>, i: int)
    requires 0 <= i < |sentences|
    ensures var g, g', s := Group(sentences[..i]), Group(sentences[..i + 1]), sentences[i];
      if |GroupText(g.open) + s| < ChunkLimit then
        ChunkStrings(g'.done) == ChunkStrings(g.done) && GroupText(g'.open) == GroupText(g.open) + (s + SentenceSeparator)
      else
        ChunkStrings(g'.done) == (if GroupText(g.open) != "" then ChunkStrings(g.done) + [PyStrip(GroupText(g.open))] else ChunkStrings(g.done))
        && GroupText(g'.open) == s + SentenceSeparator
  {
    var g, s := Group(sentences[..i]), sentences[i];
    assert sentences[..i + 1] == sentences[..i] + [s];
    GroupSnoc(sentences[..i], s);
    GroupTextEmpty(g.open);
    if |GroupText(g.open) + s| < ChunkLimit {
      GroupTextSnoc(g.open, s);
    } else {
      if g.open != [] {
        ChunkStringsSnoc(g.done, g.open);
      }
      GroupTextSnoc([], s);
    }
  }

  /** After the last sentence, the open group, when there is one, is the last chunk. */
  lemma ChunkFinish(sentences: seq<string>)
    ensures var g := Group(sentences);
      ChunkStrings(Groups(sentences)) ==
        if GroupText(g.open) != "" then ChunkStrings(g.done) + [PyStrip(GroupText(g.open))] else ChunkStrings(g.done)
  {
    var g := Group(sentences);
    GroupTextEmpty(g.open);
    if g.open != [] {
      ChunkStringsSnoc(g.done, g.open);
    }
  }

  /**
   * `_clean_text`: normalises the text, splits it into sentences on `". "`
   * and chunks them; fewer than two chunks give the whole normalised text.
   */
  method CleanText(text: string) returns (chunks: seq<string>)
    ensures chunks == Chunks(text)
  {
    var cleaned := Normalize(text);
    var done := ChunkSentences(Split(cleaned, SentenceSeparator));
    if |done| > 1 {
      chunks := done;
    } else {
      chunks := [cleaned];
    }
  }

  /** A group's text ends with `". "`. */
  lemma GroupTextDot(group: seq<string>)
    requires group != []
    ensures |GroupText(group)| >= 2 && GroupText(group)[|GroupText(group)| - 2] == '.'
  {
    var last := group[|group| - 1];
    GroupTextSnoc(group[..|group| - 1], last);
    assert group[..|group| - 1] + [last] == group;
  }

  /** The stripped text of a group keeps at least its last dot. */
  lemma ChunkNonEmpty(group: seq<string>)
    requires group != []
    ensures PyStrip(GroupText(group)) != ""
  {
    var t := GroupText(group);
    GroupTextDot(group);
    NotPySpace('.');
    TrimKeeps(t, PySpaceSet, |t| - 2);
  }

  /** No chunk is empty. */
  lemma ChunksNonEmpty(gs: seq<seq<string>>)
    requires AllWellSized(gs)
    ensures forall i :: 0 <= i < |gs| ==> ChunkStrings(gs)[i] != ""
  {
    forall i | 0 <= i < |gs| ensures ChunkStrings(gs)[i] != "" {
      ChunkNonEmpty(gs[i]);
    }
  }

  /** The chunks of groups whose sentences have no line break have none either. */
  lemma ChunkStringsAvoid(gs: seq<seq<string>>, sentences: seq<string>, c: char)
    requires Flatten(gs) == sentences && c !in SentenceSeparator
    requires forall j :: 0 <= j < |sentences| ==> c !in sentences[j]
    ensures forall i :: 0 <= i < |gs| ==> c !in ChunkStrings(gs)[i]
  {
    forall i | 0 <= i < |gs| ensures c !in ChunkStrings(gs)[i] {
      FlattenMember(gs, i, sentences);
      GroupTextAvoids(gs[i], c);
      TrimAvoids(GroupText(gs[i]), PySpaceSet, c);
    }
  }

  /** Normalised text, its sentences and their chunks all fit on one line. */
  lemma ChunksSingleLine(text: string)
    ensures forall i :: 0 <= i < |Chunks(text)| ==> '\n' !in Chunks(text)[i]
  {
    var cleaned := Normalize(text);
    NormalizeSingleLine(text);
    var sentences := Split(cleaned, SentenceSeparator);
    JoinPartAvoids(sentences, SentenceSeparator, '\n');
    SentenceChunksSingleLine(sentences);
    var cs := ChunkStrings(Groups(sentences));
    if |cs| > 1 {
      assert Chunks(text) == cs;
    } else {
      assert Chunks(text) == [cleaned];
    }
  }

  /** The chunks of sentences without line breaks have none either. */
  lemma SentenceChunksSingleLine(sentences: seq<string>)
    requires forall j :: 0 <= j < |sentences| ==> '\n' !in sentences[j]
    ensures forall i :: 0 <= i < |ChunkStrings(Groups(sentences))| ==> '\n' !in ChunkStrings(Groups(sentences))[i]
  {
    GroupsPartition(sentences);
    ChunkStringsAvoid(Groups(sentences), sentences, '\n');
  }

  /** Every sentence of every group is one of the flattened sentences. */
  lemma {:induction false} FlattenMember(gs: seq<seq<string>>, i: int, all: seq<string>)
    requires Flatten(gs) == all && 0 <= i < |gs|
    ensures forall j :: 0 <= j < |gs[i]| ==> gs[i][j] in all
    decreases |gs|
  {
    var last := gs[|gs| - 1];
    var front := Flatten(gs[..|gs| - 1]);
    if i == |gs| - 1 {
      forall j | 0 <= j < |last| ensures last[j] in all {
        assert all[|front| + j] == last[j];
      }
    } else {
      FlattenMember(gs[..|gs| - 1], i, front);
      forall j | 0 <= j < |gs[i]| ensures gs[i][j] in all {
        assert gs[..|gs| - 1][i] == gs[i];
      }
    }
  }

  /** A group's text holds no line break when none of its sentences does. */
  lemma {:induction false} GroupTextAvoids(group: seq<string>, c: char)
    requires c !in SentenceSeparator
    requires forall j :: 0 <= j < |group| ==> c !in group[j]
    ensures c !in GroupText(group)
    decreases |group|
  {
    if group != [] {
      GroupTextAvoids(group[..|group| - 1], c);
    }
  }

  // ---------------------------------------------------------------------
  // _translate_text

  function Opening(name: string): string
  {
    "[TRANSLATED TO " + Upper(name) + "]"
  }

  function Closing(k: nat): string
  {
    "[END TRANSLATION CHUNK " + NatToString(k) + "]"
  }

  const BlankLine: string := "\n\n"

  /** Chunk number `k` wrapped in its markers. */
  function WrapChunk(chunk: string, name: string, k: nat): string
  {
    Opening(name) + (BlankLine + (chunk + (BlankLine + Closing(k))))
  }

  /** The wrapped chunks, numbered from `k`. */
  function WrappedFrom(chunks: seq<string>, name: string, k: nat): (r: seq<string>)
    ensures |r| == |chunks|
  {
    seq(|chunks|, i requires 0 <= i < |chunks| => WrapChunk(chunks[i], name, k + i))
  }

  /**
   * `_translate_text`'s loop: chunk `i` is wrapped with the target
   * language's name and the number `i + 1`, and the wrapped chunks are
   * joined by a blank line.
   */
  method WrapChunks(chunks: seq<string>, name: string) returns (translated: string)
    ensures translated == Join(WrappedFrom(chunks, name, 1), BlankLine)
  {
    var wrapped: seq<string> := [];
    for i := 0 to |chunks|
      invariant wrapped == WrappedFrom(chunks[..i], name, 1)
    {
      wrapped := wrapped + [WrapChunk(chunks[i], name, i + 1)];
    }
    assert chunks[..|chunks|] == chunks;
    translated := Join(wrapped, BlankLine);
  }

  /** The lines the wrapped chunks break into: opening marker, chunk, closing marker, for each chunk in turn. */
  function PiecesFrom(chunks: seq<string>, name: string, k: nat): (r: seq<string>)
    ensures |r| == 3 * |chunks|
  {
    if chunks == [] then [] else [Opening(name), chunks[0], Closing(k)] + PiecesFrom(chunks[1..], name, k + 1)
  }

  /** Piece `3i` is the opening marker, `3i + 1` chunk `i` and `3i + 2` the closing marker numbered `k + i`. */
  lemma {:induction false} PiecesAt(chunks: seq<string>, name: string, k: nat, i: int)
    requires 0 <= i < |chunks|
    ensures PiecesFrom(chunks, name, k)[3 * i] == Opening(name)
    ensures PiecesFrom(chunks, name, k)[3 * i + 1] == chunks[i]
    ensures PiecesFrom(chunks, name, k)[3 * i + 2] == Closing(k + i)
    decreases |chunks|
  {
    if i > 0 {
      PiecesAt(chunks[1..], name, k + 1, i - 1);
    }
  }

  /** A character in no chunk and no marker is in no piece. */
  lemma {:induction false} PiecesAvoid(chunks: seq<string>, name: string, k: nat, c: char)
    requires forall i :: 0 <= i < |chunks| ==> c !in chunks[i]
    requires forall n: nat :: c !in Closing(n)
    requires c !in Opening(name)
    ensures forall j :: 0 <= j < |PiecesFrom(chunks, name, k)| ==> c !in PiecesFrom(chunks, name, k)[j]
    decreases |chunks|
  {
    if chunks != [] {
      PiecesAvoid(chunks[1..], name, k + 1, c);
      var rest := PiecesFrom(chunks[1..], name, k + 1);
      var p := PiecesFrom(chunks, name, k);
      forall j | 0 <= j < |p| ensures c !in p[j] {
        if j >= 3 {
          assert p[j] == rest[j - 3];
        }
      }
    }
  }

  /** Joining three pieces in front of more is joining their wrapped form in front of the rest. */
  lemma JoinThree(o: string, c: string, e: string, rest: seq<string>, sep: string)
    ensures Join([o, c, e] + rest, sep) ==
      if rest == [] then o + (sep + (c + (sep + e))) else o + (sep + (c + (sep + e))) + sep + Join(rest, sep)
  {
    var p := [o, c, e] + rest;
    assert p[1..] == [c, e] + rest;
    assert p[1..][1..] == [e] + rest;
    assert p[1..][1..][1..] == rest;
    var tail := if rest == [] then e else e + sep + Join(rest, sep);
    assert Join(p[1..][1..], sep) == tail;
    assert Join(p[1..], sep) == c + sep + tail;
    assert Join(p, sep) == o + sep + (c + sep + tail);
  }

  lemma {:induction false} JoinWrapped(chunks: seq<string>, name: string, k: nat)
    ensures Join(WrappedFrom(chunks, name, k), BlankLine) == Join(PiecesFrom(chunks, name, k), BlankLine)
    decreases |chunks|
  {
    if chunks != [] {
      var w := WrappedFrom(chunks, name, k);
      JoinWrapped(chunks[1..], name, k + 1);
      assert w[1..] == WrappedFrom(chunks[1..], name, k + 1);
      JoinThree(Opening(name), chunks[0], Closing(k), PiecesFrom(chunks[1..], name, k + 1), BlankLine);
    }
  }

  /** A marker line holds no line break when the language name holds none. */
  lemma MarkersSingleLine(name: string)
    requires '\n' !in name
    ensures '\n' !in Opening(name)
    ensures forall n: nat :: '\n' !in Closing(n)
  {
    assert forall i :: 0 <= i < |name| ==> Upper(name)[i] == UpperChar(name[i]);
    forall n: nat ensures '\n' !in Closing(n) {
      var d := NatToString(n);
      assert forall i :: 0 <= i < |d| ==> '0' <= d[i] <= '9';
    }
  }

  /**
   * Splitting the translated text on blank lines gives back, for chunk
   * `i`, its opening marker, the chunk itself and its closing marker with
   * number `i + 1`, in chunk order, when no chunk and no name spans lines.
   */
  lemma WrapChunksRoundTrip(chunks: seq<string>, name: string)
    requires |chunks| >= 1 && '\n' !in name
    requires forall i :: 0 <= i < |chunks| ==> '\n' !in chunks[i]
    ensures var pieces := Split(Join(WrappedFrom(chunks, name, 1), BlankLine), BlankLine);
      |pieces| == 3 * |chunks|
      && forall i :: 0 <= i < |chunks| ==>
        pieces[3 * i] == Opening(name) && pieces[3 * i + 1] == chunks[i] && pieces[3 * i + 2] == Closing(i + 1)
  {
    JoinWrapped(chunks, name, 1);
    MarkersSingleLine(name);
    PiecesAvoid(chunks, name, 1, '\n');
    var p := PiecesFrom(chunks, name, 1);
    SplitJoin(p, BlankLine);
    forall i | 0 <= i < |chunks| ensures p[3 * i] == Opening(name) && p[3 * i + 1] == chunks[i] && p[3 * i + 2] == Closing(i + 1) {
      PiecesAt(chunks, name, 1, i);
    }
  }

  const TranslationTitle: string := "DOCUMENT TRANSLATION\n\nSource Language: "
  const TargetLabel: string := "\nTarget Language: "
  const MethodLabel: string := ")\nTranslation Method: Placeholder (production would use AI translation)\nOriginal Length: "
  const TranslatedLengthLabel: string := " characters\nTranslated Length: "
  const ContentLabel: string := " characters\n\nTRANSLATED CONTENT:\n"
  const TranslationNote: string := "\n\n---\nNote: This is a placeholder translation. In production, this would use\nadvanced translation services like Google Translate, DeepL, or Azure Translator\nfor accurate, context-aware translations.\n"

  /** The metadata block above the translated text. */
  function TranslationMetadata(source: string, target: string, originalLength: nat, translatedLength: nat): string
  {
    TranslationTitle + source + TargetLabel + target + " (" + LanguageName(target)
      + MethodLabel + NatToString(originalLength) + TranslatedLengthLabel + NatToString(translatedLength) + ContentLabel
  }

  /** `_translate_text`'s result: the wrapped chunks under their metadata block. */
  function TranslationText(chunks: seq<string>, target: string, source: string, originalLength: nat): string
  {
    var translated := Join(WrappedFrom(chunks, LanguageName(target), 1), BlankLine);
    TranslationMetadata(source, target, originalLength, |translated|) + (translated + TranslationNote)
  }

  // ---------------------------------------------------------------------
  // translate

  /** Which file `translate` writes. */
  datatype TranslateOutcome =
    | TranslatedText(content: string)
    | TranslatedPdf(title: string, source: string, paragraphs: seq<string>)
    | TranslatePlaceholder(asPdf: bool)

  const TextTitle: string := "PDF Translation to "
  const SourceLabel: string := "\nSource: "
  const TranslatedLabel: string := "\nTranslated: "

  /** `_create_text_output`: the header naming the language, the source and its creation time, then the translation. */
  function TextOutput(translated: string, inputPath: string, target: string, ctime: string): string
  {
    TextTitle + (LanguageName(target) + (SourceLabel + (PathLib.Name(inputPath) + (TranslatedLabel + (ctime + ("\n" + (Rule + translated)))))))
  }

  /** `_create_pdf_output`'s story: the title, the source line, then the non-blank paragraphs of the translation. */
  function PdfOutput(translated: string, inputPath: string, target: string): TranslateOutcome
  {
    TranslatedPdf("Translated Document (" + LanguageName(target) + ")", "Source: " + PathLib.Name(inputPath),
      StrippedNonEmpty(Split(translated, BlankLine)))
  }

  /**
   * `translate` as a function of the outside results: `extracted` is the
   * extractor's text (None when it raised), `ctime` the rendered creation
   * time (None when it could not be read), `pdfBuilds` whether the PDF
   * layout engine succeeds and `reprLength` the length of Python's
   * rendering of the chunk list.  Every failure ends in the placeholder in
   * the requested format; a failed PDF layout falls back to the text file.
   */
  function TranslateResult(extracted: Option<string>, inputPath: string, target: string, source: string, format: string,
                           ctime: Option<string>, pdfBuilds: bool, reprLength: seq<string> -> nat): (r: TranslateOutcome)
    ensures r.TranslatePlaceholder? <==>
      target !in SupportedLanguages || extracted.None? || PyStrip(extracted.value) == ""
      || ((format != "pdf" || !pdfBuilds) && ctime.None?)
    ensures r.TranslatePlaceholder? ==> (r.asPdf <==> format == "pdf")
    ensures r.TranslatedPdf? <==>
      target in SupportedLanguages && extracted.Some? && PyStrip(extracted.value) != "" && format == "pdf" && pdfBuilds
  {
    if target !in SupportedLanguages then TranslatePlaceholder(format == "pdf")
    else if extracted.None? || PyStrip(extracted.value) == "" then TranslatePlaceholder(format == "pdf")
    else
      var chunks := Chunks(extracted.value);
      var translated := TranslationText(chunks, target, source, reprLength(chunks));
      if format == "pdf" && pdfBuilds then PdfOutput(translated, inputPath, target)
      else if ctime.None? then TranslatePlaceholder(format == "pdf")
      else TranslatedText(TextOutput(translated, inputPath, target, ctime.value))
  }

  /** `translate`: runs the chunking and wrapping loops and picks the output. */
  method Translate(extracted: Option<string>, inputPath: string, target: string, source: string, format: string,
                   ctime: Option<string>, pdfBuilds: bool, reprLength: seq<string> -> nat) returns (r: TranslateOutcome)
    ensures r == TranslateResult(extracted, inputPath, target, source, format, ctime, pdfBuilds, reprLength)
  {
    if target !in SupportedLanguages || extracted.None? || PyStrip(extracted.value) == "" {
      return TranslatePlaceholder(format == "pdf");
    }
    var chunks := CleanText(extracted.value);
    var wrapped := WrapChunks(chunks, LanguageName(target));
    var translated := TranslationMetadata(source, target, reprLength(chunks), |wrapped|) + (wrapped + TranslationNote);
    if format == "pdf" && pdfBuilds {
      r := PdfOutput(translated, inputPath, target);
    } else if ctime.None? {
      r := TranslatePlaceholder(format == "pdf");
    } else {
      r := TranslatedText(TextOutput(translated, inputPath, target, ctime.value));
    }
  }

  /** For a supported language, the translated text splits back into the chunks, each between its numbered markers. */
  lemma TranslationKeepsChunks(text: string, target: string)
    requires target in SupportedLanguages
    ensures var pieces := Split(Join(WrappedFrom(Chunks(text), LanguageName(target), 1), BlankLine), BlankLine);
      |pieces| == 3 * |Chunks(text)|
      && forall i :: 0 <= i < |Chunks(text)| ==> pieces[3 * i + 1] == Chunks(text)[i] && pieces[3 * i + 2] == Closing(i + 1)
  {
    ChunksSingleLine(text);
    LanguageNamesSingleLine(target);
    WrapChunksRoundTrip(Chunks(text), LanguageName(target));
  }

  // ---------------------------------------------------------------------
  // _create_placeholder_result

  const PlaceholderTitle: string := "PDF TRANSLATION - PLACEHOLDER RESULT\n\nSource File: "
  const PlaceholderSourceLabel: string := "\nSource Language: "
  const PlaceholderFormatLabel: string := ")\nOutput Format: "
  const PlaceholderStatus: string := "\nProcessing Status: Placeholder (actual AI translation not available)\n\nTRANSLATED CONTENT:\nThis is a placeholder translation result for testing purposes. In a full\nimplementation, this would contain the actual translated content from the\nPDF using professional translation services.\n\nThe translation would preserve:\n- Document structure and formatting\n- Technical terminology accuracy\n- Cultural context and nuances\n- Professional language standards\n\nTRANSLATION FEATURES:\n- High-quality neural machine translation\n- Context-aware translations\n- Support for "
  const PlaceholderEnd: string := " languages\n- Batch processing for large documents\n- Quality assurance and post-editing\n\nSUPPORTED SERVICES:\n- Google Cloud Translation API\n- DeepL Professional API\n- Azure Translator Text API\n- AWS Amazon Translate\n- Custom translation models\n\n---\nNote: To enable full translation functionality, integrate with professional\ntranslation APIs and configure proper authentication credentials.\n"

  /** The placeholder text; as a PDF it is one paragraph under the title `Translation Placeholder`. */
  function PlaceholderText(inputPath: string, target: string, source: string, format: string): string
  {
    PlaceholderTitle + PathLib.Name(inputPath) + PlaceholderSourceLabel + source + TargetLabel + target
      + " (" + LanguageName(target) + PlaceholderFormatLabel + Upper(format) + PlaceholderStatus + "12" + PlaceholderEnd
  }
}

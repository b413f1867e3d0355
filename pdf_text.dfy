/**
 * Text handling shared by the summarize and translate services of the
 * Python PDF service: the clean-up applied to extracted text, and the
 * "stripped, non-empty pieces" comprehension.
 */
module PdfText {
  import opened Strings

  const FormFeed: string := "\U{000C}"
  const Bullet: string := "•"
  const MisencodedBullet: string := "â€¢"

  /** A line of 50 `=` followed by a blank line, under the header of a result file. */
  const Rule: string := "==================================================\n\n"

  /**
   * The clean-up both services start with: whitespace runs collapsed to one
   * space, form feeds replaced by spaces, bullets replaced by their
   * mis-encoded form.
   */
  function Normalize(text: string): string
  {
    var collapsed := CollapseSpaces(text);
    var noFeeds := ReplaceAll(collapsed, FormFeed, " ");
    ReplaceAll(noFeeds, Bullet, MisencodedBullet)
  }

  /** The collapsed text holds no whitespace character other than the single spaces between words. */
  lemma CollapsedAvoids(text: string, c: char)
    requires c in PySpaceSet && c != ' '
    ensures c !in CollapseSpaces(text)
  {
    var w := Words(text);
    forall i | 0 <= i < |w| ensures c !in w[i] {
      assert NoneIn(w[i], PySpaceSet);
    }
    JoinAvoids(w, " ", c);
  }

  /** Collapsing whitespace already removed every form feed, so the form-feed replacement never changes anything. */
  lemma FormFeedReplacementIsIdle(text: string)
    ensures ReplaceAll(CollapseSpaces(text), FormFeed, " ") == CollapseSpaces(text)
  {
    CollapsedAvoids(text, '\U{000C}');
    if Contains(CollapseSpaces(text), FormFeed) {
      ContainsFirstChar(CollapseSpaces(text), FormFeed);
    }
  }

  /** A text whose collapsed form has no bullet normalises to that collapsed form, and normalising is then idempotent. */
  lemma NormalizePlain(text: string)
    requires !Contains(CollapseSpaces(text), Bullet)
    ensures Normalize(text) == CollapseSpaces(text)
    ensures Normalize(Normalize(text)) == Normalize(text)
  {
    FormFeedReplacementIsIdle(text);
    CollapseSpacesIdempotent(text);
    FormFeedReplacementIsIdle(CollapseSpaces(text));
  }

  /** Normalised text holds no line break. */
  lemma NormalizeSingleLine(text: string)
    ensures '\n' !in Normalize(text)
  {
    CollapsedAvoids(text, '\n');
    var noFeeds := ReplaceAll(CollapseSpaces(text), FormFeed, " ");
    ReplaceAllAvoids(CollapseSpaces(text), FormFeed, " ", '\n');
    ReplaceAllAvoids(noFeeds, Bullet, MisencodedBullet, '\n');
  }

  /** `[s.strip() for s in pieces if s.strip()]`. */
  function StrippedNonEmpty(pieces: seq<string>): (r: seq<string>)
    ensures |r| <= |pieces|
  {
    if pieces == [] then []
    else
      var rest := StrippedNonEmpty(pieces[..|pieces| - 1]);
      var s := PyStrip(pieces[|pieces| - 1]);
      if s == "" then rest else rest + [s]
  }

  /** Non-empty, starting and ending with a non-blank, and without `c`. */
  predicate StrippedWithout(s: string, c: char)
  {
    s != [] && s[0] !in PySpaceSet && s[|s| - 1] !in PySpaceSet && c !in s
  }

  /** Each kept piece is non-empty, starts and ends with a non-blank, and lacks any character that no piece had. */
  lemma {:induction false} StrippedNonEmptyShape(pieces: seq<string>, c: char)
    requires forall i :: 0 <= i < |pieces| ==> c !in pieces[i]
    ensures forall i :: 0 <= i < |StrippedNonEmpty(pieces)| ==> StrippedWithout(StrippedNonEmpty(pieces)[i], c)
    decreases |pieces|
  {
    if pieces != [] {
      StrippedNonEmptyShape(pieces[..|pieces| - 1], c);
      TrimAvoids(pieces[|pieces| - 1], PySpaceSet, c);
    }
  }
}

/**
 * What the WhatsApp service guarantees: the provider choice, the digit
 * routing and the selection map agree, an upload followed by a selection
 * within the hour runs the chosen operation on the uploaded document,
 * selections repeat until the hour is over, the rows stay consistent (so
 * a remembered document is always found); and what the two steps as
 * written do instead.
 */
module WhatsAppServiceProperties {
  import opened Wrappers
  import opened Strings
  import opened PdfOps
  import Records
  import Sessions
  import Messaging
  import opened WhatsAppService

  // ---------------------------------------------------------------------
  // The provider

  /** Each provider is chosen by its own name, and an unset name chooses Twilio. */
  lemma ProviderNameChooses(p: Provider)
    ensures CreateProvider(Some(ProviderName(p))) == Ok(p)
    ensures CreateProvider(None) == Ok(TwilioProvider)
  {
  }

  /** Any other name is refused, with the name in the message. */
  lemma UnknownProviderRefused(name: string)
    requires forall p: Provider :: name != ProviderName(p)
    ensures CreateProvider(Some(name)) == Err("Unsupported messaging provider: " + name)
  {
    assert name != ProviderName(MetaProvider) && name != ProviderName(TwilioProvider);
  }

  // ---------------------------------------------------------------------
  // Recognising a selection

  /** A trimmed text never ends in a newline, so the pattern accepts exactly one digit `1`..`6`. */
  lemma TrimmedDigitPattern(text: string)
    ensures DigitPattern(PhpTrim(text)) <==> DigitCode(PhpTrim(text))
  {
    var t := PhpTrim(text);
    assert t == [] || t[|t| - 1] !in PhpTrimSet;
  }

  /** The selection map covers exactly `1`..`6`, and numbers and operations correspond one to one. */
  lemma ActionMapBijective(n: int, op: OpType)
    ensures ActionOf(n).Some? <==> 1 <= n <= 6
    ensures ActionOf(MenuNumber(op)) == Some(op)
    ensures ActionOf(n) == Some(op) ==> MenuNumber(op) == n
  {
  }

  /** Every text the routing treats as a selection names an operation, so the invalid-choice reply never follows a text. */
  lemma RoutedTextSelects(text: string)
    requires DigitPattern(PhpTrim(text))
    ensures ActionOf(DigitValue(PhpTrim(text))).Some?
  {
    TrimmedDigitPattern(text);
  }

  /** A text that is one digit `1`..`6` selects the operation of that number. */
  lemma DigitTextSelects(s: State, from: string, c: char, now: int)
    requires '1' <= c <= '6'
    ensures TextMessage(s, from, [c], now) == MenuSelection(s, from, c as int - '0' as int, now)
  {
    SingleDigitTrimmed(c);
    assert DigitCode(PhpTrim([c])) && DigitValue(PhpTrim([c])) == c as int - '0' as int;
    SelectionText(s, from, [c], now);
  }

  /** A text routed as a selection is handled as the selection of its number. */
  lemma SelectionText(s: State, from: string, text: string, now: int)
    requires DigitCode(PhpTrim(text))
    ensures TextMessage(s, from, text, now) == MenuSelection(s, from, DigitValue(PhpTrim(text)), now)
  {
  }

  lemma SingleDigitTrimmed(c: char)
    requires '1' <= c <= '6'
    ensures PhpTrim([c]) == [c]
  {
    var t := [c];
    assert t[0] !in PhpTrimSet;
    assert TrimLeft(t, PhpTrimSet) == t;
    assert TrimRight(t, PhpTrimSet) == t;
  }

  /** Any other text gets the main menu and changes nothing else. */
  lemma OtherTextGetsMainMenu(s: State, from: string, text: string, now: int)
    requires !DigitCode(PhpTrim(text))
    ensures TextMessage(s, from, text, now) == Reply(s, from, MainMenuText)
  {
    TrimmedDigitPattern(text);
  }

  // ---------------------------------------------------------------------
  // Upload and selection

  /** A file that is not exactly `application/pdf` is refused and nothing is stored or remembered. */
  lemma NonPdfRefused(s: State, from: string, mediaUrl: string, mimeType: string, filename: string, now: int)
    requires mimeType != PdfMimeType
    ensures MediaMessage(s, from, mediaUrl, mimeType, filename, now) == Reply(s, from, UnsupportedFormat)
  {
  }

  /**
   * A PDF stores one `received` document for the sender under the next
   * key, with its file name (or `document.pdf`), remembers that key for
   * an hour and sends the PDF menu.
   */
  lemma PdfUploadStores(s: State, from: string, mediaUrl: string, filename: string, now: int)
    ensures var t := MediaMessage(s, from, mediaUrl, PdfMimeType, filename, now);
      && t.documents == s.documents + [t.documents[|s.documents|]]
      && t.documents[|s.documents|].id == |s.documents| + 1
      && t.documents[|s.documents|].whatsappUserId == Some(from)
      && t.documents[|s.documents|].status == "received"
      && t.documents[|s.documents|].originalName == (if filename == "" || filename == "0" then DefaultFilename else filename)
      && t.cache[DocumentKey(from)] == Sessions.Entry(|s.documents| + 1, now + DocumentTtl)
      && t.sent == s.sent + [Messaging.Text(from, PdfMenuText)]
      && t.taskJobs == s.taskJobs && t.queue == s.queue
  {
  }

  /**
   * Round trip: a PDF, then within the hour the number of an operation,
   * runs that operation on the uploaded document: one pending task job
   * on it, one confirmation, one dispatch of the operation's job class
   * with the document, the TaskJob and the sender.
   */
  lemma UploadThenSelect(s: State, from: string, mediaUrl: string, filename: string, now: int, later: int, op: OpType)
    requires now <= later < now + DocumentTtl
    ensures var u := Upload(s, from, mediaUrl, filename, now);
      var t := MenuSelection(u, from, MenuNumber(op), later);
      && t == ProcessSelection(u, from, |s.documents| + 1, op)
      && t.taskJobs == s.taskJobs + [Records.NewTaskJob(|s.taskJobs| + 1, |s.documents| + 1, op, map[])]
      && t.queue == s.queue + [Sessions.Dispatch(JobClass(op), |s.documents| + 1, |s.taskJobs| + 1, from)]
      && t.sent == s.sent + [Messaging.Text(from, PdfMenuText), Messaging.Text(from, Confirmation(op))]
  {
    var u := Upload(s, from, mediaUrl, filename, now);
    assert RememberedDocument(u, from, later) == Some(|s.documents| + 1);
    assert Records.FindDocument(u.documents, |s.documents| + 1).value.id == |s.documents| + 1;
    ActionMapBijective(MenuNumber(op), op);
    MenuJobClassAgrees(op);
  }

  /** After the hour the remembered document is gone and a selection is told the session expired. */
  lemma SelectionAfterTheHour(s: State, from: string, mediaUrl: string, filename: string, now: int, later: int, selection: int)
    requires later >= now + DocumentTtl
    ensures var u := Upload(s, from, mediaUrl, filename, now);
      MenuSelection(u, from, selection, later) == Reply(u, from, SessionExpired)
  {
  }

  /**
   * The remembered document is never forgotten, so every further
   * selection within the hour creates another task job on the same
   * document.
   */
  lemma SelectionsRepeat(s: State, from: string, n1: int, n2: int, now: int)
    requires RememberedDocument(s, from, now).Some?
    requires Records.FindDocument(s.documents, RememberedDocument(s, from, now).value).Some?
    requires 1 <= n1 <= 6 && 1 <= n2 <= 6
    ensures var d := Records.FindDocument(s.documents, RememberedDocument(s, from, now).value).value.id;
      var t := MenuSelection(MenuSelection(s, from, n1, now), from, n2, now);
      && |t.taskJobs| == |s.taskJobs| + 2
      && t.taskJobs[|s.taskJobs|].documentId == d
      && t.taskJobs[|s.taskJobs| + 1].documentId == d
  {
    var d := Records.FindDocument(s.documents, RememberedDocument(s, from, now).value).value.id;
    var t1 := MenuSelection(s, from, n1, now);
    assert t1 == ProcessSelection(s, from, d, ActionOf(n1).value);
    assert t1.taskJobs[..|s.taskJobs|] == s.taskJobs;
    assert RememberedDocument(t1, from, now) == RememberedDocument(s, from, now);
  }

  // ---------------------------------------------------------------------
  // The two steps as written

  /**
   * As written, every PDF upload is refused by the database: nothing is
   * stored or remembered, no menu goes out, and the error propagates to
   * the webhook; the corrected upload stores the document.
   */
  lemma UploadRefusedAsWritten(s: State, from: string, mediaUrl: string, filename: string, now: int)
    ensures var o := MediaMessageAsWritten(s, from, mediaUrl, PdfMimeType, filename, now);
      o.raised.Some? && o.state == s
    ensures |MediaMessage(s, from, mediaUrl, PdfMimeType, filename, now).documents| == |s.documents| + 1
  {
    assert "original_name" !in UploadKeys;
  }

  /**
   * As written, a valid selection creates the TaskJob and sends the
   * confirmation, then raises while building the job, so nothing is
   * dispatched and the TaskJob stays pending for ever; the corrected
   * step is the same plus the dispatch.
   */
  lemma SelectionRaisesAsWritten(s: State, from: string, selection: int, now: int)
    requires RememberedDocument(s, from, now).Some?
    requires Records.FindDocument(s.documents, RememberedDocument(s, from, now).value).Some?
    requires ActionOf(selection).Some?
    ensures var o := MenuSelectionAsWritten(s, from, selection, now);
      && o.raised.Some?
      && o.state.queue == s.queue
      && o.state == MenuSelection(s, from, selection, now).(queue := s.queue)
      && |MenuSelection(s, from, selection, now).queue| == |s.queue| + 1
  {
  }

  /** Where the selection does not reach the job, as written and corrected agree and nothing is raised. */
  lemma AsWrittenAgreesElsewhere(s: State, from: string, selection: int, now: int)
    requires RememberedDocument(s, from, now).None?
      || Records.FindDocument(s.documents, RememberedDocument(s, from, now).value).None?
      || ActionOf(selection).None?
    ensures MenuSelectionAsWritten(s, from, selection, now) == Outcome(MenuSelection(s, from, selection, now), None)
  {
  }

  // ---------------------------------------------------------------------
  // Consistency

  /**
   * Keys are positions counted from 1, every task job names an existing
   * document, every dispatch names its task job and that job's document,
   * and every remembered id is the key of an existing document.
   */
  predicate Consistent(s: State)
  {
    && (forall i :: 0 <= i < |s.documents| ==> s.documents[i].id == i + 1)
    && (forall j :: 0 <= j < |s.taskJobs| ==> s.taskJobs[j].id == j + 1 && 1 <= s.taskJobs[j].documentId <= |s.documents|)
    && (forall q :: q in s.queue ==> 1 <= q.taskJobId <= |s.taskJobs| && s.taskJobs[q.taskJobId - 1].documentId == q.documentId)
    && (forall k :: k in s.cache ==> 1 <= s.cache[k].value <= |s.documents|)
  }

  /** In a consistent state the remembered document is always found: the not-found reply cannot happen. */
  lemma RememberedDocumentFound(s: State, from: string, now: int)
    requires Consistent(s)
    requires RememberedDocument(s, from, now).Some?
    ensures Records.FindDocument(s.documents, RememberedDocument(s, from, now).value).Some?
  {
  }

  lemma UploadKeepsConsistent(s: State, from: string, mediaUrl: string, filename: string, now: int)
    requires Consistent(s)
    ensures Consistent(Upload(s, from, mediaUrl, filename, now))
  {
    var t := Upload(s, from, mediaUrl, filename, now);
    forall i | 0 <= i < |t.documents| ensures t.documents[i].id == i + 1 {
      if i < |s.documents| {
        assert t.documents[i] == s.documents[i];
      }
    }
  }

  lemma SelectionKeepsConsistent(s: State, from: string, selection: int, now: int)
    requires Consistent(s)
    ensures Consistent(MenuSelection(s, from, selection, now))
  {
    var remembered := RememberedDocument(s, from, now);
    if remembered.Some? && Records.FindDocument(s.documents, remembered.value).Some? && ActionOf(selection).Some? {
      var d := Records.FindDocument(s.documents, remembered.value).value.id;
      assert d == remembered.value;
      ProcessSelectionKeepsConsistent(s, from, d, ActionOf(selection).value);
    }
  }

  /** Creating and dispatching a job on an existing document keeps the state consistent. */
  lemma ProcessSelectionKeepsConsistent(s: State, from: string, d: int, op: OpType)
    requires Consistent(s) && 1 <= d <= |s.documents|
    ensures Consistent(ProcessSelection(s, from, d, op))
  {
    var t := ProcessSelection(s, from, d, op);
    forall j | 0 <= j < |t.taskJobs|
      ensures t.taskJobs[j].id == j + 1 && 1 <= t.taskJobs[j].documentId <= |t.documents|
    {
      if j < |s.taskJobs| {
        assert t.taskJobs[j] == t.taskJobs[..|s.taskJobs|][j] == s.taskJobs[j];
      }
    }
    assert t.queue == s.queue + [t.queue[|s.queue|]];
    forall q | q in t.queue
      ensures 1 <= q.taskJobId <= |t.taskJobs| && t.taskJobs[q.taskJobId - 1].documentId == q.documentId
    {
      if q in s.queue {
        assert t.taskJobs[q.taskJobId - 1] == t.taskJobs[..|s.taskJobs|][q.taskJobId - 1] == s.taskJobs[q.taskJobId - 1];
      }
    }
  }

  /** Every text and every media message keeps the state consistent. */
  lemma MessagesKeepConsistent(s: State, from: string, text: string, mediaUrl: string, mimeType: string, filename: string, now: int)
    requires Consistent(s)
    ensures Consistent(TextMessage(s, from, text, now))
    ensures Consistent(MediaMessage(s, from, mediaUrl, mimeType, filename, now))
  {
    var t := PhpTrim(text);
    if DigitPattern(t) {
      SelectionKeepsConsistent(s, from, DigitValue(t), now);
    }
    if mimeType == PdfMimeType {
      UploadKeepsConsistent(s, from, mediaUrl, filename, now);
    }
  }
}

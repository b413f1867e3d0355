/**
 * What the Twilio controller guarantees across messages: the menu pattern
 * and the selection map agree, a selection with a live session creates
 * one document, one job and one dispatch, every message is answered once
 * and to its sender, the rows stay consistent, and a user without a
 * document never gets past the welcome text.
 */
module TwilioWebhookProperties {
  import opened Wrappers
  import opened Strings
  import opened PdfOps
  import opened CommandParser
  import CommandParserProperties
  import Records
  import Sessions
  import Messaging
  import opened TwilioWebhook

  // ---------------------------------------------------------------------
  // The menu pattern and the map

  /** The pattern accepts exactly the keys of the selection map. */
  lemma MenuCodeIsTableKey(s: string)
    ensures MenuCode(s) <==> MenuEntryOf(s).Some?
  {
    if MenuCode(s) {
      if |s| == 1 {
        assert s == [s[0]];
      } else {
        assert s == [s[0], s[1]];
      }
    }
  }

  /** A trimmed body never ends in a newline, so the pattern accepts it exactly when it is a key. */
  lemma TrimmedMenuPattern(body: string)
    ensures MenuPattern(PhpTrim(body)) <==> MenuEntryOf(PhpTrim(body)).Some?
  {
    var t := PhpTrim(body);
    MenuCodeIsTableKey(t);
    assert t == [] || t[|t| - 1] !in PhpTrimSet;
  }

  /**
   * Routing: once the user is known and the message is not a PDF, it is
   * a selection exactly when its trimmed body is a key of the map.
   */
  lemma RouteSelectionIff(msg: Inbound, documents: seq<Records.DocumentRow>)
    requires HasDocument(documents, UserId(msg.from))
    requires !(Truthy(msg.mediaUrl) && IsPdf(msg.mediaContentType))
    ensures RouteOf(msg, documents) == Selection <==> Truthy(msg.body) && MenuEntryOf(PhpTrim(msg.body.value)).Some?
  {
    if msg.body.Some? {
      TrimmedMenuPattern(msg.body.value);
    }
  }

  /** Corrected lookup: every body the routing sends to the menu finds its entry. */
  lemma RoutedSelectionFindsEntry(body: string)
    requires MenuPattern(PhpTrim(body))
    ensures MenuLookup(body) == MenuEntryOf(PhpTrim(body))
  {
    TrimmedMenuPattern(body);
  }

  /**
   * As written: `" 1"` passes the routing pattern once trimmed, but the
   * untrimmed lookup misses, so the user is told the choice is invalid.
   */
  lemma SpacedCodeRejectedAsWritten()
    ensures PhpTrim(" 1") == "1"
    ensures MenuPattern(PhpTrim(" 1"))
    ensures MenuLookupAsWritten(" 1").None?
    ensures MenuLookup(" 1") == Some(Command(Compress, "whatsapp"))
  {
    SpaceOneTrimmed();
    var one := "1";
    assert |one| == 1 && one[0] == '1';
    assert MenuCode(one);
    assert MenuEntryOf(one) == Some(Command(Compress, "whatsapp"));
    var spaced := " 1";
    assert |spaced| == 2 && spaced[0] == ' ';
  }

  lemma SpaceOneTrimmed()
    ensures PhpTrim(" 1") == "1"
  {
    var spaced := " 1";
    var one := "1";
    assert spaced[0] in PhpTrimSet && spaced[1..] == one;
    assert one[0] !in PhpTrimSet;
    assert TrimLeft(one, PhpTrimSet) == one;
    assert TrimLeft(spaced, PhpTrimSet) == one;
    assert TrimRight(one, PhpTrimSet) == one;
  }

  // ---------------------------------------------------------------------
  // The commands of the map

  /** A keyword and one lower-case accepted setting parse to that operation and setting. */
  lemma {:induction false} TwoWordCommand(op: OpType, word: string, perm: seq<int>)
    requires IsShuffle(perm, 62)
    requires CommandParserProperties.IsWord(word) && IsLowerFixed(word)
    requires word in Allowed(op) && Fold(op, word) == word
    ensures Parse(Keyword(op) + " " + word, perm).Some?
    ensures Parse(Keyword(op) + " " + word, perm).value.op == op
    ensures Parse(Keyword(op) + " " + word, perm).value.parameters[ParamKey(op)] == word
  {
    var c := Keyword(op) + " " + word;
    CommandParserProperties.KeywordIsWord(op);
    CommandParserProperties.TwoWordParts(Keyword(op), word);
    assert Parse(c, perm) == ParseParts(Some((Keyword(op), Upper(word))), perm);
    KeywordRoundTrip(op);
    SettingReadBack(op, word, perm);
  }

  /** A lower-case accepted setting, upper-cased by the parser, is stored as it was written. */
  lemma SettingReadBack(op: OpType, word: string, perm: seq<int>)
    requires IsShuffle(perm, 62)
    requires IsLowerFixed(word) && word in Allowed(op) && Fold(op, word) == word
    ensures ParseParameters(op, Keyword(op), Upper(word), perm)[ParamKey(op)] == word
  {
    LowerUpper(word);
    LowerOfFixed(word);
  }

  /** A non-empty run of the letters `a` to `z`. */
  predicate AsciiLowerWord(w: string)
  {
    w != [] && forall i :: 0 <= i < |w| ==> 'a' <= w[i] <= 'z'
  }

  lemma AsciiLowerWordIsWord(w: string)
    requires AsciiLowerWord(w)
    ensures CommandParserProperties.IsWord(w) && IsLowerFixed(w)
  {
    assert NoLetters(PcreSpaceSet) && NoLetters(PhpTrimSet);
  }

  /** A canonical value is accepted and left as it is by the folding of synonyms. */
  lemma CanonicalAccepted(op: OpType, w: string)
    requires w in Canonical(op)
    ensures w in Allowed(op) && Fold(op, w) == w
  {
    if op == Summarize {
      assert w != "court" && w != "moyen" && w != "détaillé";
    }
  }

  /** Every setting of the map is a canonical value of its operation. */
  lemma MenuSettingsCanonical(k: string)
    requires MenuEntryOf(k).Some? && MenuEntryOf(k).value.Command?
    ensures MenuEntryOf(k).value.setting in Canonical(MenuEntryOf(k).value.op)
  {
  }

  /** Every setting of the map is a lower-case ASCII word. */
  lemma MenuSettingsAscii(k: string)
    requires MenuEntryOf(k).Some? && MenuEntryOf(k).value.Command?
    ensures AsciiLowerWord(MenuEntryOf(k).value.setting)
  {
    if |k| == 1 {
      SingleCodeSettingsAscii(k);
    } else {
      DoubleCodeSettingsAscii(k);
    }
  }

  lemma SingleCodeSettingsAscii(k: string)
    requires |k| == 1 && MenuEntryOf(k).Some? && MenuEntryOf(k).value.Command?
    ensures AsciiLowerWord(MenuEntryOf(k).value.setting)
  {
  }

  lemma DoubleCodeSettingsAscii(k: string)
    requires |k| == 2 && MenuEntryOf(k).Some? && MenuEntryOf(k).value.Command?
    ensures AsciiLowerWord(MenuEntryOf(k).value.setting)
  {
  }

  /** Every setting of the map is one lower-case word the operation accepts as it is. */
  lemma MenuSettingsAccepted(k: string)
    requires MenuEntryOf(k).Some? && MenuEntryOf(k).value.Command?
    ensures var e := MenuEntryOf(k).value;
      && CommandParserProperties.IsWord(e.setting) && IsLowerFixed(e.setting)
      && e.setting in Allowed(e.op) && Fold(e.op, e.setting) == e.setting
  {
    var e := MenuEntryOf(k).value;
    MenuSettingsCanonical(k);
    MenuSettingsAscii(k);
    AsciiLowerWordIsWord(e.setting);
    CanonicalAccepted(e.op, e.setting);
  }

  /** Every command of the map parses, to its operation and setting. */
  lemma MenuCommandsParse(k: string, perm: seq<int>)
    requires IsShuffle(perm, 62)
    requires MenuEntryOf(k).Some? && MenuEntryOf(k).value.Command?
    ensures var e := MenuEntryOf(k).value;
      && Parse(e.Text(), perm).Some?
      && Parse(e.Text(), perm).value.op == e.op
      && Parse(e.Text(), perm).value.parameters[ParamKey(e.op)] == e.setting
  {
    var e := MenuEntryOf(k).value;
    MenuSettingsAccepted(k);
    TwoWordCommand(e.op, e.setting, perm);
  }

  // ---------------------------------------------------------------------
  // One selection

  /** Without a live session nothing is created and the user is told to resend the PDF. */
  lemma NoSessionCreatesNothing(s: State, user: string, from: string, selection: string, clock: Clock, perm: seq<int>)
    requires IsShuffle(perm, 62)
    requires Sessions.Lookup(s.sessions, SessionKey(user), clock.now).None?
    ensures SelectionStep(s, user, from, selection, clock, perm) == Reply(s, from, SessionExpired)
  {
  }

  /** A submenu code sends that submenu only and creates nothing. */
  lemma SubmenuCreatesNothing(s: State, user: string, from: string, selection: string, clock: Clock, perm: seq<int>)
    requires IsShuffle(perm, 62)
    requires Sessions.Lookup(s.sessions, SessionKey(user), clock.now).Some?
    requires MenuLookup(selection).Some? && MenuLookup(selection).value.Submenu?
    ensures SelectionStep(s, user, from, selection, clock, perm) == Reply(s, from, SubmenuText(MenuLookup(selection).value.kind))
  {
  }

  /** The submenu codes are `2`, `4` and `5`. */
  lemma SubmenuCodes(k: string)
    ensures MenuEntryOf(k).Some? && MenuEntryOf(k).value.Submenu? <==> k == "2" || k == "4" || k == "5"
  {
    if MenuEntryOf(k).Some? && MenuEntryOf(k).value.Submenu? {
      assert k == [k[0]];
    }
  }

  /** The effect of a parsed command, spelled out. */
  predicate DispatchedShape(s: State, t: State, user: string, from: string, op: OpType, mediaUrl: string, clock: Clock)
  {
    && |t.documents| == |s.documents| + 1 && t.documents[..|s.documents|] == s.documents
    && t.documents[|s.documents|].id == |s.documents| + 1
    && t.documents[|s.documents|].whatsappUserId == Some(user)
    && t.documents[|s.documents|].status == "pending"
    && "media_url" in t.documents[|s.documents|].metadata
    && t.documents[|s.documents|].metadata["media_url"] == mediaUrl
    && t.documents[|s.documents|].expiresAt == Some(clock.now + DocumentLifetime)
    && |t.taskJobs| == |s.taskJobs| + 1 && t.taskJobs[..|s.taskJobs|] == s.taskJobs
    && t.taskJobs[|s.taskJobs|].id == |s.taskJobs| + 1
    && t.taskJobs[|s.taskJobs|].documentId == |s.documents| + 1
    && t.taskJobs[|s.taskJobs|].op == op
    && t.taskJobs[|s.taskJobs|].status == Records.Pending
    && t.queue == s.queue + [Sessions.Dispatch(JobClass(op), |s.documents| + 1, |s.taskJobs| + 1, from)]
    && t.sent == s.sent + [Messaging.Text(from, Confirmation(op))]
    && SessionKey(user) !in t.sessions
  }

  /** A parsed command creates the document, the pending job and the dispatch, confirms, and ends the session. */
  lemma DispatchedEffect(s: State, user: string, from: string, command: string, mediaUrl: string, clock: Clock, parsed: ParsedCommand)
    requires parsed.jobClass == JobClass(parsed.op)
    ensures DispatchedShape(s, Dispatched(s, user, from, command, mediaUrl, clock, parsed), user, from, parsed.op, mediaUrl, clock)
  {
    var t := Dispatched(s, user, from, command, mediaUrl, clock, parsed);
    assert t.documents[..|s.documents|] == s.documents;
    assert t.taskJobs[..|s.taskJobs|] == s.taskJobs;
  }

  /**
   * A command code with a live session creates a pending document for the
   * user holding the session's media URL, one pending job of the code's
   * operation on it, one dispatch of that operation's job class replying
   * to the sender, one confirmation, and ends the session.
   */
  lemma CommandSelectionDispatches(s: State, user: string, from: string, selection: string, clock: Clock, perm: seq<int>)
    requires IsShuffle(perm, 62)
    requires Sessions.Lookup(s.sessions, SessionKey(user), clock.now).Some?
    requires MenuLookup(selection).Some? && MenuLookup(selection).value.Command?
    ensures DispatchedShape(s, SelectionStep(s, user, from, selection, clock, perm), user, from,
      MenuLookup(selection).value.op, Sessions.Lookup(s.sessions, SessionKey(user), clock.now).value.mediaUrl, clock)
  {
    var e := MenuLookup(selection).value;
    var session := Sessions.Lookup(s.sessions, SessionKey(user), clock.now).value;
    MenuCommandsParse(PhpTrim(selection), perm);
    var parsed := Parse(e.Text(), perm).value;
    SelectionOfCommand(s, user, from, selection, clock, perm);
    DispatchedEffect(s, user, from, e.Text(), session.mediaUrl, clock, parsed);
  }

  /** With a live session, a command code goes to `processPdfWithCommand` with the session's media URL. */
  lemma SelectionOfCommand(s: State, user: string, from: string, selection: string, clock: Clock, perm: seq<int>)
    requires IsShuffle(perm, 62)
    requires Sessions.Lookup(s.sessions, SessionKey(user), clock.now).Some?
    requires MenuLookup(selection).Some? && MenuLookup(selection).value.Command?
    ensures SelectionStep(s, user, from, selection, clock, perm) ==
      ProcessStep(s, user, from, MenuLookup(selection).value.Text(), Sessions.Lookup(s.sessions, SessionKey(user), clock.now).value.mediaUrl, clock, perm)
  {
  }

  /**
   * As written, every selection made with a live session sends the three
   * submenus before anything else: choosing `1` sends them and then the
   * confirmation.
   */
  lemma EagerSubmenusAsWritten(s: State, user: string, from: string, clock: Clock, perm: seq<int>)
    requires IsShuffle(perm, 62)
    requires Sessions.Lookup(s.sessions, SessionKey(user), clock.now).Some?
    ensures var t := SelectionStepAsWritten(s, user, from, "1", clock, perm);
      t.sent == s.sent + EagerSubmenus(from) + [Messaging.Text(from, Confirmation(Compress))]
  {
    MenuCommandsParse("1", perm);
  }

  // ---------------------------------------------------------------------
  // Every message

  /** The rows a step appends all belong to the sender. */
  predicate AppendsFor(s: State, t: State, user: string)
  {
    && |s.documents| <= |t.documents|
    && t.documents[..|s.documents|] == s.documents
    && (forall i :: |s.documents| <= i < |t.documents| ==> t.documents[i].whatsappUserId == Some(user))
  }

  /** One text went to `to`, and every new document is the user's. */
  ghost predicate RepliedOnce(s: State, t: State, to: string, user: string)
  {
    (exists text :: t.sent == s.sent + [Messaging.Text(to, text)]) && AppendsFor(s, t, user)
  }

  /** A reply sends one text and appends no row. */
  lemma ReplyAppendsNothing(s: State, to: string, text: string, user: string)
    ensures Reply(s, to, text).sent == s.sent + [Messaging.Text(to, text)]
    ensures AppendsFor(s, Reply(s, to, text), user)
    ensures RepliedOnce(s, Reply(s, to, text), to, user)
  {
    assert s.documents[..|s.documents|] == s.documents;
  }

  /** A dispatched command sends its confirmation and appends one document, the user's. */
  lemma DispatchedRepliesOnce(s: State, user: string, from: string, command: string, mediaUrl: string, clock: Clock, parsed: ParsedCommand)
    ensures RepliedOnce(s, Dispatched(s, user, from, command, mediaUrl, clock, parsed), from, user)
  {
    var t := Dispatched(s, user, from, command, mediaUrl, clock, parsed);
    assert t.documents[..|s.documents|] == s.documents;
    assert t.sent == s.sent + [Messaging.Text(from, Confirmation(parsed.op))];
  }

  /** Processing a command, parsed or not, answers once and appends only the user's documents. */
  lemma ProcessRepliesOnce(s: State, user: string, from: string, command: string, mediaUrl: string, clock: Clock, perm: seq<int>)
    requires IsShuffle(perm, 62)
    ensures RepliedOnce(s, ProcessStep(s, user, from, command, mediaUrl, clock, perm), from, user)
  {
    match Parse(command, perm)
    case None =>
      ReplyAppendsNothing(s, from, ParseFailure, user);
    case Some(parsed) =>
      DispatchedRepliesOnce(s, user, from, command, mediaUrl, clock, parsed);
  }

  /** Corrected: a selection is answered by exactly one message, to the sender, and adds only the sender's documents. */
  lemma SelectionSendsOneReply(s: State, user: string, from: string, selection: string, clock: Clock, perm: seq<int>)
    requires IsShuffle(perm, 62)
    ensures var t := SelectionStep(s, user, from, selection, clock, perm);
      && (exists text :: t.sent == s.sent + [Messaging.Text(from, text)])
      && AppendsFor(s, t, user)
  {
    assert RepliedOnce(s, SelectionStep(s, user, from, selection, clock, perm), from, user) by {
      match Sessions.Lookup(s.sessions, SessionKey(user), clock.now)
      case None =>
        ReplyAppendsNothing(s, from, SessionExpired, user);
      case Some(session) =>
        match MenuLookup(selection)
        case None =>
          ReplyAppendsNothing(s, from, InvalidChoice, user);
        case Some(Submenu(kind)) =>
          ReplyAppendsNothing(s, from, SubmenuText(kind), user);
        case Some(entry) =>
          ProcessRepliesOnce(s, user, from, entry.Text(), session.mediaUrl, clock, perm);
    }
  }

  /** Every message is answered by exactly one text to its sender, and new documents belong to the sender. */
  lemma StepRepliesOnce(s: State, msg: Inbound, clock: Clock, perm: seq<int>, ago: Records.TaskJobRow -> string)
    requires IsShuffle(perm, 62)
    ensures var t := Step(s, msg, clock, perm, ago);
      && (exists text :: t.sent == s.sent + [Messaging.Text(msg.from, text)])
      && AppendsFor(s, t, UserId(msg.from))
  {
    var user := UserId(msg.from);
    match RouteOf(msg, s.documents)
    case Welcome =>
      ReplyAppendsNothing(s, msg.from, WelcomeText, user);
    case PdfMenu =>
      var s0 := s.(sessions := s.sessions[SessionKey(user) := Sessions.Entry(PdfSession(msg.mediaUrl.GetOr(""), clock.now), clock.now + SessionTtl)]);
      ReplyAppendsNothing(s0, msg.from, PdfMenuText, user);
    case Selection =>
      SelectionSendsOneReply(s, user, msg.from, msg.body.GetOr(""), clock, perm);
    case TextCommand =>
      var text := TextCommandReply(msg.body.GetOr(""), StatusMessage(RecentJobs(s.taskJobs, s.documents, user), ago));
      ReplyAppendsNothing(s, msg.from, text, user);
    case Help =>
      ReplyAppendsNothing(s, msg.from, HelpText, user);
  }

  /** A user without a document only ever receives the welcome text, whatever they send. */
  lemma NewUserWelcomed(s: State, msg: Inbound, clock: Clock, perm: seq<int>, ago: Records.TaskJobRow -> string)
    requires IsShuffle(perm, 62)
    requires !HasDocument(s.documents, UserId(msg.from))
    ensures Step(s, msg, clock, perm, ago) == Reply(s, msg.from, WelcomeText)
  {
  }

  /**
   * Liveness of the first contact: a user without a document still has
   * none after any sequence of requests from anyone, and every message
   * sent to an address of that user is the welcome text.  Documents are
   * only created from the menu, which a user without a document never
   * reaches.
   */
  lemma {:induction false} NewUserNeverServed(s: State, events: seq<Event>, u: string)
    requires Drawn(events)
    requires !HasDocument(s.documents, u)
    ensures var t := Run(s, events);
      && !HasDocument(t.documents, u)
      && |s.sent| <= |t.sent| && t.sent[..|s.sent|] == s.sent
      && forall i :: |s.sent| <= i < |t.sent| && UserId(t.sent[i].to) == u ==>
           t.sent[i] == Messaging.Text(t.sent[i].to, WelcomeText)
    decreases |events|
  {
    if events != [] {
      var e := events[0];
      var s1 := Step(s, e.msg, e.clock, e.perm, e.ago);
      NewUserStep(s, e.msg, e.clock, e.perm, e.ago, u);
      assert Drawn(events[1..]);
      NewUserNeverServed(s1, events[1..], u);
      var t := Run(s1, events[1..]);
      assert t == Run(s, events);
      assert t.sent[..|s.sent|] == t.sent[..|s1.sent|][..|s.sent|];
      forall i | |s.sent| <= i < |t.sent| && UserId(t.sent[i].to) == u
        ensures t.sent[i] == Messaging.Text(t.sent[i].to, WelcomeText)
      {
        if i == |s.sent| {
          assert t.sent[i] == t.sent[..|s1.sent|][i] == s1.sent[i];
        }
      }
    }
  }

  /** One step of the above: the user still has no document, and the one new message, if theirs, is the welcome text. */
  lemma NewUserStep(s: State, msg: Inbound, clock: Clock, perm: seq<int>, ago: Records.TaskJobRow -> string, u: string)
    requires IsShuffle(perm, 62)
    requires !HasDocument(s.documents, u)
    ensures var t := Step(s, msg, clock, perm, ago);
      && !HasDocument(t.documents, u)
      && |t.sent| == |s.sent| + 1 && t.sent[..|s.sent|] == s.sent
      && (UserId(t.sent[|s.sent|].to) == u ==> t.sent[|s.sent|] == Messaging.Text(t.sent[|s.sent|].to, WelcomeText))
  {
    var t := Step(s, msg, clock, perm, ago);
    StepRepliesOnce(s, msg, clock, perm, ago);
    assert t.sent[|s.sent|].to == msg.from;
    if UserId(msg.from) == u {
      NewUserWelcomed(s, msg, clock, perm, ago);
    } else {
      forall i | 0 <= i < |t.documents|
        ensures t.documents[i].whatsappUserId != Some(u)
      {
        if i < |s.documents| {
          assert t.documents[i] == t.documents[..|s.documents|][i];
        }
      }
    }
    assert t.sent[..|s.sent|] == s.sent;
  }

  // ---------------------------------------------------------------------
  // Consistency of the rows

  /**
   * Keys are positions counted from 1, every job names an existing
   * document, and every dispatch names an existing job and its document.
   */
  predicate Consistent(s: State)
  {
    && (forall i :: 0 <= i < |s.documents| ==> s.documents[i].id == i + 1)
    && (forall j :: 0 <= j < |s.taskJobs| ==> s.taskJobs[j].id == j + 1 && 1 <= s.taskJobs[j].documentId <= |s.documents|)
    && (forall q :: q in s.queue ==> 1 <= q.taskJobId <= |s.taskJobs| && s.taskJobs[q.taskJobId - 1].documentId == q.documentId)
  }

  /**
   * Appending a document, a job naming it and a dispatch naming both, each
   * under the next key, keeps the rows consistent.
   */
  lemma AppendKeepsConsistent(s: State, t: State, doc: Records.DocumentRow, job: Records.TaskJobRow, d: Sessions.Dispatch)
    requires Consistent(s)
    requires t.documents == s.documents + [doc] && doc.id == |s.documents| + 1
    requires t.taskJobs == s.taskJobs + [job] && job.id == |s.taskJobs| + 1 && job.documentId == doc.id
    requires t.queue == s.queue + [d] && d.taskJobId == job.id && d.documentId == doc.id
    ensures Consistent(t)
  {
    forall q | q in t.queue
      ensures 1 <= q.taskJobId <= |t.taskJobs| && t.taskJobs[q.taskJobId - 1].documentId == q.documentId
    {
      if q in s.queue {
        assert t.taskJobs[q.taskJobId - 1] == s.taskJobs[q.taskJobId - 1];
      }
    }
  }

  /** A parsed command keeps the rows consistent: the new job names the new document, the dispatch the new job. */
  lemma DispatchedKeepsConsistent(s: State, user: string, from: string, command: string, mediaUrl: string, clock: Clock, parsed: ParsedCommand)
    requires Consistent(s)
    ensures Consistent(Dispatched(s, user, from, command, mediaUrl, clock, parsed))
  {
    var documentId := |s.documents| + 1;
    var taskJobId := |s.taskJobs| + 1;
    AppendKeepsConsistent(s, Dispatched(s, user, from, command, mediaUrl, clock, parsed),
      MenuDocument(user, from, command, mediaUrl, clock).(id := documentId),
      Records.NewTaskJob(taskJobId, documentId, parsed.op, parsed.parameters),
      Sessions.Dispatch(parsed.jobClass, documentId, taskJobId, from));
  }

  lemma ProcessKeepsConsistent(s: State, user: string, from: string, command: string, mediaUrl: string, clock: Clock, perm: seq<int>)
    requires IsShuffle(perm, 62)
    requires Consistent(s)
    ensures Consistent(ProcessStep(s, user, from, command, mediaUrl, clock, perm))
  {
    match Parse(command, perm)
    case None =>
    case Some(parsed) =>
      DispatchedKeepsConsistent(s, user, from, command, mediaUrl, clock, parsed);
  }

  /** Every request keeps the rows consistent. */
  lemma StepKeepsConsistent(s: State, msg: Inbound, clock: Clock, perm: seq<int>, ago: Records.TaskJobRow -> string)
    requires IsShuffle(perm, 62)
    requires Consistent(s)
    ensures Consistent(Step(s, msg, clock, perm, ago))
  {
    var t := Step(s, msg, clock, perm, ago);
    if RouteOf(msg, s.documents) == Selection {
      SelectionKeepsConsistent(s, UserId(msg.from), msg.from, msg.body.GetOr(""), clock, perm);
    } else {
      assert t.documents == s.documents && t.taskJobs == s.taskJobs && t.queue == s.queue;
      SameRowsConsistent(s, t);
    }
  }

  /** A step that leaves the documents, the jobs and the queue alone keeps them consistent. */
  lemma SameRowsConsistent(s: State, t: State)
    requires Consistent(s)
    requires t.documents == s.documents && t.taskJobs == s.taskJobs && t.queue == s.queue
    ensures Consistent(t)
  {
  }

  lemma SelectionKeepsConsistent(s: State, user: string, from: string, selection: string, clock: Clock, perm: seq<int>)
    requires IsShuffle(perm, 62)
    requires Consistent(s)
    ensures Consistent(SelectionStep(s, user, from, selection, clock, perm))
  {
    var session := Sessions.Lookup(s.sessions, SessionKey(user), clock.now);
    if session.Some? && MenuLookup(selection).Some? && MenuLookup(selection).value.Command? {
      SelectionOfCommand(s, user, from, selection, clock, perm);
      ProcessKeepsConsistent(s, user, from, MenuLookup(selection).value.Text(), session.value.mediaUrl, clock, perm);
    }
  }

  // ---------------------------------------------------------------------
  // Status and text commands

  /**
   * The status query lists at most five of the user's jobs, newest first,
   * each one the user's, and all of them when the user has fewer than five.
   */
  /** Keys strictly increase along the sequence, as rows read in insertion order. */
  predicate IdsIncreasing(jobs: seq<Records.TaskJobRow>)
  {
    forall i, j :: 0 <= i < j < |jobs| ==> jobs[i].id < jobs[j].id
  }

  /** In a consistent state the jobs are stored in increasing key order. */
  lemma ConsistentJobsIncreasing(s: State)
    requires Consistent(s)
    ensures IdsIncreasing(s.taskJobs)
  {
  }

  lemma RecentJobsNewestFirst(jobs: seq<Records.TaskJobRow>, documents: seq<Records.DocumentRow>, user: string)
    requires IdsIncreasing(jobs)
    ensures var r := RecentJobs(jobs, documents, user);
      && |r| <= StatusLimit
      && (forall i :: 0 <= i < |r| ==> r[i] in jobs && Owns(documents, user, r[i]))
      && (forall i, j :: 0 <= i < j < |r| ==> r[i].id > r[j].id)
      && (|r| < StatusLimit ==> forall job :: job in jobs && Owns(documents, user, job) ==> job in r)
  {
    var owned := OwnedJobs(jobs, documents, user);
    OwnedJobsSorted(jobs, documents, user);
    var newest := Reverse(owned);
    var r := RecentJobs(jobs, documents, user);
    assert r == if |newest| <= StatusLimit then newest else newest[..StatusLimit];
    forall i | 0 <= i < |r|
      ensures r[i] == owned[|owned| - 1 - i]
    {
      assert r[i] == newest[i];
    }
    forall i, j | 0 <= i < j < |r|
      ensures r[i].id > r[j].id
    {
      assert owned[|owned| - 1 - j].id < owned[|owned| - 1 - i].id;
    }
    forall i | 0 <= i < |r|
      ensures r[i] in jobs && Owns(documents, user, r[i])
    {
      assert r[i] in owned;
    }
    if |r| < StatusLimit {
      assert r == newest;
      forall job | job in jobs && Owns(documents, user, job)
        ensures job in r
      {
        assert job in owned;
        var k :| 0 <= k < |owned| && owned[k] == job;
        assert r[|owned| - 1 - k] == job;
      }
    }
  }

  /** Filtering keeps the increasing order of keys. */
  lemma {:induction false} OwnedJobsSorted(jobs: seq<Records.TaskJobRow>, documents: seq<Records.DocumentRow>, user: string)
    requires IdsIncreasing(jobs)
    ensures IdsIncreasing(OwnedJobs(jobs, documents, user))
    decreases |jobs|
  {
    if jobs != [] {
      var prefix := jobs[..|jobs| - 1];
      var last := jobs[|jobs| - 1];
      OwnedJobsSorted(prefix, documents, user);
      var rest := OwnedJobs(prefix, documents, user);
      var r := OwnedJobs(jobs, documents, user);
      if Owns(documents, user, last) {
        assert r == rest + [last];
        forall i | 0 <= i < |rest| ensures rest[i].id < last.id {
          assert rest[i] in rest;
          assert rest[i] in prefix;
          var k :| 0 <= k < |prefix| && prefix[k] == rest[i];
          assert jobs[k] == prefix[k];
          assert k < |jobs| - 1;
          assert jobs[k].id < jobs[|jobs| - 1].id;
        }
        forall i, j | 0 <= i < j < |r| ensures r[i].id < r[j].id {
          if j < |rest| {
            assert r[i] == rest[i] && r[j] == rest[j];
          } else {
            assert r[i] == rest[i] && r[j] == last;
          }
        }
      } else {
        assert r == rest;
      }
    }
  }

  /** Every listed job has its line in the status reply, after the header. */
  lemma StatusMessageListsEach(recent: seq<Records.TaskJobRow>, ago: Records.TaskJobRow -> string)
    requires recent != []
    ensures StartsWith(StatusMessage(recent, ago), StatusHeader)
    ensures forall i :: 0 <= i < |recent| ==> Contains(StatusMessage(recent, ago), StatusLine(recent[i], ago))
  {
    var lines := StatusLines(recent, ago);
    forall i | 0 <= i < |recent|
      ensures Contains(StatusMessage(recent, ago), StatusLine(recent[i], ago))
    {
      ConcatContains(lines, i);
      ContainsWithin(StatusHeader, Concat(lines), "", lines[i]);
      assert StatusHeader + Concat(lines) + "" == StatusMessage(recent, ago);
    }
  }

  /** Every status a job can have gets its own label, never the unknown one. */
  lemma KnownStatusLabelled(status: Records.JobStatus)
    ensures StatusLabel(Records.StatusName(status)) != UnknownStatus
  {
  }

  /** Every operation has its own name in the confirmation, never the generic one. */
  lemma OperationNamed(op: OpType)
    ensures OperationName(TypeName(op)) != "Traitement PDF"
  {
  }

  /** Text commands ignore letter case. */
  lemma TextCommandIgnoresCase(body: string, status: string)
    ensures TextCommandReply(Lower(body), status) == TextCommandReply(body, status)
  {
    UpperLower(body);
  }

  /** The user id of a `whatsapp:` sender is the address after the prefix. */
  lemma UserIdOfPrefixed(address: string)
    requires !Contains(address, "whatsapp:")
    ensures UserId("whatsapp:" + address) == address
  {
    ReplaceAllPrefix("whatsapp:", address);
  }
}

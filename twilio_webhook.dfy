/**
 * The Twilio webhook controller: one inbound WhatsApp message is routed
 * to the welcome text, the PDF menu, a menu selection, a text command or
 * the help text, in that order of precedence.  A PDF opens a five-minute
 * session holding its media URL; a menu code that names an operation
 * turns the session into a pending Document and TaskJob and dispatches
 * the job.  The signature check accepts every request, so it is not
 * modelled, and every path answers `200 OK`.
 */
module TwilioWebhook {
  import opened Wrappers
  import opened Strings
  import opened PdfOps
  import opened CommandParser
  import CommandParserProperties
  import Records
  import Sessions
  import Messaging

  /** The form fields the controller reads: `From`, `Body`, `MediaUrl0`, `MediaContentType0`. */
  datatype Inbound = Inbound(from: string, body: Option<string>, mediaUrl: Option<string>, mediaContentType: Option<string>)

  /** `now()` at the time of the request, and its `Y-m-d_H-i-s` rendering. */
  datatype Clock = Clock(now: int, stamp: string)

  /** What a PDF message leaves in the cache for the selection that follows. */
  datatype PdfSession = PdfSession(mediaUrl: string, timestamp: int)

  const PdfMimeType: string := "application/pdf"

  /** Lifetime of a PDF session, in seconds. */
  const SessionTtl: int := 300

  /** Lifetime of a document created from the menu, in seconds (24 hours). */
  const DocumentLifetime: int := 24 * 3600

  /** The number of jobs the status reply lists. */
  const StatusLimit: nat := 5

  // ---------------------------------------------------------------------
  // Texts

  const WelcomeText: string :=
    "🎉 *Bienvenue sur PDF Bot !*\n\n" +
    "Je suis votre assistant intelligent pour traiter vos PDF.\n\n" +
    "🔹 *Ce que je peux faire :*\n" +
    "• Compresser vos PDF\n" +
    "• Convertir en Word/Excel\n" +
    "• Extraire le texte (OCR)\n" +
    "• Faire des résumés automatiques\n" +
    "• Traduire vos documents\n" +
    "• Sécuriser avec mot de passe\n\n" +
    "📎 *Pour commencer :*\n" +
    "Envoyez-moi simplement un fichier PDF et je vous proposerai un menu d'options !\n\n" +
    "💡 *Aide :* Tapez HELP à tout moment"

  const HelpText: string :=
    "🤖 *Bot PDF WhatsApp*\n\n" +
    "📄 *Envoyez un PDF avec une commande:*\n\n" +
    "🗜️ *COMPRESS [mode]*\n" +
    "   • whatsapp (défaut)\n" +
    "   • impression\n" +
    "   • équilibré\n\n" +
    "🔄 *CONVERT [format]*\n" +
    "   • docx\n" +
    "   • xlsx\n" +
    "   • img\n\n" +
    "👁️ *OCR* - Extrait le texte\n\n" +
    "📝 *SUMMARIZE [taille]*\n" +
    "   • short (défaut)\n" +
    "   • medium\n" +
    "   • long\n\n" +
    "🌍 *TRANSLATE [langue]*\n" +
    "   • fr, en, es, de...\n\n" +
    "🔒 *SECURE [option]*\n" +
    "   • password\n" +
    "   • watermark\n\n" +
    "ℹ️ Tapez STATUS pour voir vos tâches"

  const PdfMenuText: string :=
    "📄 *PDF reçu !* Que voulez-vous faire ?\n\n" +
    "1️⃣ *Compresser* - Réduire la taille\n" +
    "2️⃣ *Convertir* - Vers Word/Excel/Image\n" +
    "3️⃣ *OCR* - Extraire le texte\n" +
    "4️⃣ *Résumer* - Résumé automatique\n" +
    "5️⃣ *Traduire* - Changer la langue\n" +
    "6️⃣ *Sécuriser* - Ajouter mot de passe\n\n" +
    "💬 *Répondez avec le numéro de votre choix* (1-6)"

  const ConvertSubmenu: string :=
    "📄 *Conversion* - Choisissez le format :\n\n" +
    "2️⃣1️⃣ Word (.docx)\n" +
    "2️⃣2️⃣ Excel (.xlsx)\n" +
    "2️⃣3️⃣ Images (.jpg)\n\n" +
    "💬 *Répondez avec le code* (21, 22 ou 23)"

  const SummarizeSubmenu: string :=
    "📝 *Résumé* - Choisissez la taille :\n\n" +
    "4️⃣1️⃣ Court (2-3 lignes)\n" +
    "4️⃣2️⃣ Moyen (1 paragraphe)\n" +
    "4️⃣3️⃣ Détaillé (plusieurs paragraphes)\n\n" +
    "💬 *Répondez avec le code* (41, 42 ou 43)"

  const TranslateSubmenu: string :=
    "🌍 *Traduction* - Choisissez la langue :\n\n" +
    "5️⃣1️⃣ Français\n" +
    "5️⃣2️⃣ Anglais\n" +
    "5️⃣3️⃣ Espagnol\n" +
    "5️⃣4️⃣ Allemand\n" +
    "5️⃣5️⃣ Italien\n\n" +
    "💬 *Répondez avec le code* (51-55)"

  const AskForPdf: string := "📄 Veuillez envoyer un PDF avec votre commande.\n\nExemple: Envoyez un PDF avec le texte 'COMPRESS whatsapp'"
  const SessionExpired: string := "❌ Session expirée. Veuillez renvoyer votre PDF."
  const InvalidChoice: string := "❌ Choix invalide. Choisissez entre 1 et 6."
  const ParseFailure: string := "❌ Erreur de traitement. Veuillez réessayer."
  const NoRecentTasks: string := "📊 Aucune tâche récente trouvée."
  const StatusHeader: string := "📊 *Vos dernières tâches:*\n\n"
  const UnknownStatus: string := "❓ Inconnu"

  /** `getOperationName`: the label of a task type in the confirmation. */
  function OperationName(typeName: string): string
  {
    match typeName
    case "compress" => "Compression PDF"
    case "convert" => "Conversion PDF"
    case "ocr" => "Extraction de texte"
    case "summarize" => "Résumé automatique"
    case "translate" => "Traduction"
    case "secure" => "Sécurisation PDF"
    case _ => "Traitement PDF"
  }

  /** The confirmation sent once a job is dispatched. */
  function Confirmation(op: OpType): string
  {
    "⚡ *" + OperationName(TypeName(op)) + ConfirmationTail
  }

  const ConfirmationTail: string := " en cours...*\n\nVous recevrez le résultat dans quelques instants !"

  // ---------------------------------------------------------------------
  // Routing

  /** The user id: the sender with every `whatsapp:` removed. */
  function UserId(from: string): string
  {
    ReplaceAll(from, "whatsapp:", "")
  }

  /** The cache key of a user's PDF session. */
  function SessionKey(user: string): string
  {
    "pdf_session_" + user
  }

  /** `isPdf`: the content type is exactly `application/pdf`. */
  predicate IsPdf(contentType: Option<string>)
  {
    contentType == Some(PdfMimeType)
  }

  /** Some document row belongs to the user; `isFirstInteraction` is its negation. */
  predicate HasDocument(documents: seq<Records.DocumentRow>, user: string)
  {
    exists i :: 0 <= i < |documents| && documents[i].whatsappUserId == Some(user)
  }

  /** One alternative of `([1-6]|2[1-3]|4[1-3]|5[1-5])` spanning the whole of `s`. */
  predicate MenuCode(s: string)
  {
    || (|s| == 1 && '1' <= s[0] <= '6')
    || (|s| == 2 && (s[0] == '2' || s[0] == '4') && '1' <= s[1] <= '3')
    || (|s| == 2 && s[0] == '5' && '1' <= s[1] <= '5')
  }

  /** `preg_match('/^(…)$/', s)`: PCRE's `$` also matches just before a final newline. */
  predicate MenuPattern(s: string)
  {
    MenuCode(s) || (|s| > 0 && s[|s| - 1] == '\n' && MenuCode(s[..|s| - 1]))
  }

  datatype Route = Welcome | PdfMenu | Selection | TextCommand | Help

  /** The branch of `handle` a message takes. */
  function RouteOf(msg: Inbound, documents: seq<Records.DocumentRow>): Route
  {
    if !HasDocument(documents, UserId(msg.from)) then Welcome
    else if Truthy(msg.mediaUrl) && IsPdf(msg.mediaContentType) then PdfMenu
    else if Truthy(msg.body) && MenuPattern(PhpTrim(msg.body.value)) then Selection
    else if Truthy(msg.body) then TextCommand
    else Help
  }

  // ---------------------------------------------------------------------
  // The menu

  /** The three submenus. */
  datatype SubmenuKind = ConvertMenu | SummarizeMenu | TranslateMenu

  function SubmenuText(kind: SubmenuKind): string
  {
    match kind
    case ConvertMenu => ConvertSubmenu
    case SummarizeMenu => SummarizeSubmenu
    case TranslateMenu => TranslateSubmenu
  }

  /**
   * A value of the selection map: a submenu to send, or the command
   * `KEYWORD setting` to run (`"COMPRESS whatsapp"` is `Command(Compress, "whatsapp")`).
   */
  datatype MenuEntry = Submenu(kind: SubmenuKind) | Command(op: OpType, setting: string)
  {
    /** The command text handed to the parser. */
    function Text(): string
      requires Command?
    {
      Keyword(op) + " " + setting
    }
  }

  /**
   * The selection map of `handleMenuSelection`, by key: `1`..`6` for the
   * main menu, `21`..`23` conversion formats, `41`..`43` summary sizes,
   * `51`..`55` target languages.
   */
  function MenuEntryOf(k: string): Option<MenuEntry>
  {
    if |k| == 1 then
      match k[0]
      case '1' => Some(Command(Compress, "whatsapp"))
      case '2' => Some(Submenu(ConvertMenu))
      case '3' => Some(Command(Ocr, "text"))
      case '4' => Some(Submenu(SummarizeMenu))
      case '5' => Some(Submenu(TranslateMenu))
      case '6' => Some(Command(Secure, "password"))
      case _ => None
    else if |k| == 2 then
      match (k[0], k[1])
      case ('2', '1') => Some(Command(Convert, "docx"))
      case ('2', '2') => Some(Command(Convert, "xlsx"))
      case ('2', '3') => Some(Command(Convert, "img"))
      case ('4', '1') => Some(Command(Summarize, "short"))
      case ('4', '2') => Some(Command(Summarize, "medium"))
      case ('4', '3') => Some(Command(Summarize, "long"))
      case ('5', '1') => Some(Command(Translate, "fr"))
      case ('5', '2') => Some(Command(Translate, "en"))
      case ('5', '3') => Some(Command(Translate, "es"))
      case ('5', '4') => Some(Command(Translate, "de"))
      case ('5', '5') => Some(Command(Translate, "it"))
      case _ => None
    else None
  }

  /**
   * The lookup as written: the untrimmed body indexes the map.  The keys
   * are decimal integers, so only the exact key text finds an entry.
   */
  function MenuLookupAsWritten(selection: string): (r: Option<MenuEntry>)
    ensures r.Some? ==> 1 <= |selection| <= 2 && forall i :: 0 <= i < |selection| ==> '0' <= selection[i] <= '9'
  {
    MenuEntryOf(selection)
  }

  /** The lookup the routing implies: the trimmed body, which the pattern was matched on. */
  function MenuLookup(selection: string): (r: Option<MenuEntry>)
    ensures PhpTrim(selection) == selection ==> r == MenuLookupAsWritten(selection)
    ensures MenuLookupAsWritten(selection).Some? ==> r == MenuLookupAsWritten(selection)
  {
    FoundCodeTrimmed(selection);
    MenuLookupAsWritten(PhpTrim(selection))
  }

  /** A body the untrimmed lookup finds is already trimmed. */
  lemma FoundCodeTrimmed(selection: string)
    ensures MenuLookupAsWritten(selection).Some? ==> PhpTrim(selection) == selection
  {
    if MenuLookupAsWritten(selection).Some? {
      DigitsTrimmed(selection);
    }
  }

  /** A code of one or two digits has nothing to trim. */
  lemma DigitsTrimmed(k: string)
    requires 1 <= |k| <= 2 && forall i :: 0 <= i < |k| ==> '0' <= k[i] <= '9'
    ensures PhpTrim(k) == k
  {
    assert k[0] !in PhpTrimSet && k[|k| - 1] !in PhpTrimSet;
    assert TrimLeft(k, PhpTrimSet) == k;
    assert TrimRight(k, PhpTrimSet) == k;
  }

  /** The three submenus the map literal sends while it is being built. */
  function EagerSubmenus(to: string): seq<Messaging.Message>
  {
    [Messaging.Text(to, SubmenuText(ConvertMenu)), Messaging.Text(to, SubmenuText(SummarizeMenu)), Messaging.Text(to, SubmenuText(TranslateMenu))]
  }

  // ---------------------------------------------------------------------
  // Status

  /** The status column's label. */
  function StatusLabel(status: string): string
  {
    match status
    case "pending" => "⏳ En attente"
    case "running" => "⚡ En cours"
    case "completed" => "✅ Terminé"
    case "failed" => "❌ Échoué"
    case _ => UnknownStatus
  }

  /** The job belongs to a document of the user. */
  predicate Owns(documents: seq<Records.DocumentRow>, user: string, job: Records.TaskJobRow)
  {
    var d := Records.FindDocument(documents, job.documentId);
    d.Some? && d.value.whatsappUserId == Some(user)
  }

  /** The user's jobs, oldest first. */
  function OwnedJobs(jobs: seq<Records.TaskJobRow>, documents: seq<Records.DocumentRow>, user: string): (r: seq<Records.TaskJobRow>)
    ensures |r| <= |jobs|
    ensures forall job :: job in r <==> job in jobs && Owns(documents, user, job)
  {
    if jobs == [] then []
    else
      var rest := OwnedJobs(jobs[..|jobs| - 1], documents, user);
      var last := jobs[|jobs| - 1];
      assert jobs == jobs[..|jobs| - 1] + [last];
      if Owns(documents, user, last) then rest + [last] else rest
  }

  function Reverse<T>(s: seq<T>): (r: seq<T>)
    ensures |r| == |s|
    ensures forall i :: 0 <= i < |s| ==> r[i] == s[|s| - 1 - i]
  {
    if s == [] then [] else [s[|s| - 1]] + Reverse(s[..|s| - 1])
  }

  /** The query of `getStatusMessage`: the user's jobs, newest first, at most five. */
  function RecentJobs(jobs: seq<Records.TaskJobRow>, documents: seq<Records.DocumentRow>, user: string): seq<Records.TaskJobRow>
  {
    var newest := Reverse(OwnedJobs(jobs, documents, user));
    if |newest| <= StatusLimit then newest else newest[..StatusLimit]
  }

  /** One line of the status reply; `ago` renders the job's age. */
  function StatusLine(job: Records.TaskJobRow, ago: Records.TaskJobRow -> string): string
  {
    "• " + TypeName(job.op) + " - " + StatusLabel(Records.StatusName(job.status)) + " (" + ago(job) + ")\n"
  }

  /** The lines of the listed jobs, in order. */
  function StatusLines(jobs: seq<Records.TaskJobRow>, ago: Records.TaskJobRow -> string): (lines: seq<string>)
    ensures |lines| == |jobs|
  {
    seq(|jobs|, i requires 0 <= i < |jobs| => StatusLine(jobs[i], ago))
  }

  /** The status reply for the listed jobs. */
  function StatusMessage(recent: seq<Records.TaskJobRow>, ago: Records.TaskJobRow -> string): string
  {
    if recent == [] then NoRecentTasks else StatusHeader + Concat(StatusLines(recent, ago))
  }

  /** The reply to a text command: help, the status, or a request for a PDF. */
  function TextCommandReply(body: string, status: string): string
  {
    var command := PhpTrim(Upper(body));
    if command == "HELP" || command == "AIDE" then HelpText
    else if command == "STATUS" || command == "STATUT" then status
    else AskForPdf
  }

  // ---------------------------------------------------------------------
  // The transition one message makes

  /** Everything a message can change: both tables, the sessions, the outbox and the queue. */
  datatype State = State(
    documents: seq<Records.DocumentRow>,
    taskJobs: seq<Records.TaskJobRow>,
    sessions: map<string, Sessions.Entry<PdfSession>>,
    sent: seq<Messaging.Message>,
    queue: seq<Sessions.Dispatch>)

  function Reply(s: State, to: string, text: string): State
  {
    s.(sent := s.sent + [Messaging.Text(to, text)])
  }

  /** The document a menu command creates before its job. */
  function MenuDocument(user: string, from: string, command: string, mediaUrl: string, clock: Clock): Records.DocumentRow
  {
    Records.NewDocument("whatsapp_pdf_" + clock.stamp + ".pdf").(
      whatsappUserId := Some(user),
      status := "pending",
      metadata := map["media_url" := mediaUrl, "command" := command, "from" := from],
      expiresAt := Some(clock.now + DocumentLifetime))
  }

  /** What a parsed command creates: the document, its job, the dispatch and the confirmation; the session ends. */
  function Dispatched(s: State, user: string, from: string, command: string, mediaUrl: string, clock: Clock, parsed: ParsedCommand): State
  {
    var documentId := |s.documents| + 1;
    var taskJobId := |s.taskJobs| + 1;
    s.(documents := s.documents + [MenuDocument(user, from, command, mediaUrl, clock).(id := documentId)],
       taskJobs := s.taskJobs + [Records.NewTaskJob(taskJobId, documentId, parsed.op, parsed.parameters)],
       queue := s.queue + [Sessions.Dispatch(parsed.jobClass, documentId, taskJobId, from)],
       sent := s.sent + [Messaging.Text(from, Confirmation(parsed.op))],
       sessions := s.sessions - {SessionKey(user)})
  }

  /** `processPdfWithCommand`. */
  function ProcessStep(s: State, user: string, from: string, command: string, mediaUrl: string, clock: Clock, perm: seq<int>): State
    requires IsShuffle(perm, 62)
  {
    match Parse(command, perm)
    case None => Reply(s, from, ParseFailure)
    case Some(parsed) => Dispatched(s, user, from, command, mediaUrl, clock, parsed)
  }

  /** `handleMenuSelection` as written: all three submenus go out first, and the untrimmed body is looked up. */
  function SelectionStepAsWritten(s: State, user: string, from: string, selection: string, clock: Clock, perm: seq<int>): (r: State)
    requires IsShuffle(perm, 62)
    ensures Sessions.Lookup(s.sessions, SessionKey(user), clock.now).Some? ==>
      |r.sent| >= |s.sent| + 3 && r.sent[|s.sent|..|s.sent| + 3] == EagerSubmenus(from)
  {
    match Sessions.Lookup(s.sessions, SessionKey(user), clock.now)
    case None => Reply(s, from, SessionExpired)
    case Some(session) =>
      var s1 := s.(sent := s.sent + EagerSubmenus(from));
      match MenuLookupAsWritten(selection)
      case None => Reply(s1, from, InvalidChoice)
      case Some(Submenu(_)) => s1
      case Some(entry) => ProcessStep(s1, user, from, entry.Text(), session.mediaUrl, clock, perm)
  }

  /** `handleMenuSelection` as intended: only the chosen submenu is sent, and the trimmed body is looked up. */
  function SelectionStep(s: State, user: string, from: string, selection: string, clock: Clock, perm: seq<int>): (r: State)
    requires IsShuffle(perm, 62)
    ensures |r.sent| == |s.sent| + 1 && r.sent[..|s.sent|] == s.sent && r.sent[|s.sent|].to == from
  {
    match Sessions.Lookup(s.sessions, SessionKey(user), clock.now)
    case None => Reply(s, from, SessionExpired)
    case Some(session) =>
      match MenuLookup(selection)
      case None => Reply(s, from, InvalidChoice)
      case Some(Submenu(kind)) => Reply(s, from, SubmenuText(kind))
      case Some(entry) => ProcessStep(s, user, from, entry.Text(), session.mediaUrl, clock, perm)
  }

  /** `handlePdfMessage`: the session is (re)opened for five minutes and the menu sent. */
  function PdfStep(s: State, user: string, from: string, mediaUrl: string, clock: Clock): State
  {
    var session := Sessions.Entry(PdfSession(mediaUrl, clock.now), clock.now + SessionTtl);
    Reply(s.(sessions := s.sessions[SessionKey(user) := session]), from, PdfMenuText)
  }

  /** `handle`: the whole effect of one inbound message. */
  function Step(s: State, msg: Inbound, clock: Clock, perm: seq<int>, ago: Records.TaskJobRow -> string): (r: State)
    requires IsShuffle(perm, 62)
    ensures |r.sent| == |s.sent| + 1 && r.sent[..|s.sent|] == s.sent && r.sent[|s.sent|].to == msg.from
  {
    var user := UserId(msg.from);
    match RouteOf(msg, s.documents)
    case Welcome => Reply(s, msg.from, WelcomeText)
    case PdfMenu => PdfStep(s, user, msg.from, msg.mediaUrl.GetOr(""), clock)
    case Selection => SelectionStep(s, user, msg.from, msg.body.GetOr(""), clock, perm)
    case TextCommand =>
      Reply(s, msg.from, TextCommandReply(msg.body.GetOr(""), StatusMessage(RecentJobs(s.taskJobs, s.documents, user), ago)))
    case Help => Reply(s, msg.from, HelpText)
  }

  /** One request as it reaches `handle`, with the clock and the password shuffle it meets. */
  datatype Event = Event(msg: Inbound, clock: Clock, perm: seq<int>, ago: Records.TaskJobRow -> string)

  predicate Drawn(events: seq<Event>)
  {
    forall i :: 0 <= i < |events| ==> IsShuffle(events[i].perm, 62)
  }

  /** The requests handled one after the other. */
  function Run(s: State, events: seq<Event>): State
    requires Drawn(events)
    decreases |events|
  {
    if events == [] then s
    else
      var e := events[0];
      Run(Step(s, e.msg, e.clock, e.perm, e.ago), events[1..])
  }

  // ---------------------------------------------------------------------
  // The controller

  class Controller {
    const db: Records.Database
    const cache: Sessions.Cache<PdfSession>
    const outbox: Messaging.Outbox
    const queue: Sessions.JobQueue

    constructor(db: Records.Database, cache: Sessions.Cache<PdfSession>, outbox: Messaging.Outbox, queue: Sessions.JobQueue)
      ensures this.db == db && this.cache == cache && this.outbox == outbox && this.queue == queue
    {
      this.db := db;
      this.cache := cache;
      this.outbox := outbox;
      this.queue := queue;
    }

    function Snapshot(): State
      reads db, cache, outbox, queue
    {
      State(db.documents, db.taskJobs, cache.entries, outbox.sent, queue.dispatched)
    }

    /** Sends one text; the controller ignores the provider's answer. */
    method Send(to: string, text: string)
      modifies outbox
      ensures outbox.sent == old(outbox.sent) + [Messaging.Text(to, text)]
    {
      var _ := outbox.SendText(to, text, true);
    }

    /** `handle`. */
    method Handle(msg: Inbound, clock: Clock, perm: seq<int>, ago: Records.TaskJobRow -> string)
      requires IsShuffle(perm, 62)
      modifies db, cache, outbox, queue
      ensures Snapshot() == Step(old(Snapshot()), msg, clock, perm, ago)
    {
      var user := UserId(msg.from);
      match RouteOf(msg, db.documents) {
        case Welcome =>
          Send(msg.from, WelcomeText);
        case PdfMenu =>
          HandlePdfMessage(user, msg.from, msg.mediaUrl.GetOr(""), clock);
        case Selection =>
          HandleMenuSelection(user, msg.from, msg.body.GetOr(""), clock, perm);
        case TextCommand =>
          HandleTextCommand(user, msg.from, msg.body.GetOr(""), ago);
        case Help =>
          Send(msg.from, HelpText);
      }
    }

    /** `handlePdfMessage`. */
    method HandlePdfMessage(user: string, from: string, mediaUrl: string, clock: Clock)
      modifies cache, outbox
      ensures Snapshot() == PdfStep(old(Snapshot()), user, from, mediaUrl, clock)
    {
      cache.Put(SessionKey(user), PdfSession(mediaUrl, clock.now), SessionTtl, clock.now);
      Send(from, PdfMenuText);
    }

    /** `handleTextCommand`. */
    method HandleTextCommand(user: string, from: string, body: string, ago: Records.TaskJobRow -> string)
      modifies outbox
      ensures Snapshot() == Reply(old(Snapshot()), from,
        TextCommandReply(body, StatusMessage(RecentJobs(db.taskJobs, db.documents, user), ago)))
    {
      var command := PhpTrim(Upper(body));
      var text;
      if command == "HELP" || command == "AIDE" {
        text := HelpText;
      } else if command == "STATUS" || command == "STATUT" {
        text := BuildStatusMessage(RecentJobs(db.taskJobs, db.documents, user), ago);
      } else {
        text := AskForPdf;
      }
      assert text == TextCommandReply(body, StatusMessage(RecentJobs(db.taskJobs, db.documents, user), ago));
      Send(from, text);
    }

    /** `handleMenuSelection`. */
    method HandleMenuSelection(user: string, from: string, selection: string, clock: Clock, perm: seq<int>)
      requires IsShuffle(perm, 62)
      modifies db, cache, outbox, queue
      ensures Snapshot() == SelectionStep(old(Snapshot()), user, from, selection, clock, perm)
    {
      var session := Sessions.Lookup(cache.entries, SessionKey(user), clock.now);
      if session.None? {
        Send(from, SessionExpired);
        return;
      }
      var entry := MenuLookup(selection);
      match entry {
        case None =>
          Send(from, InvalidChoice);
        case Some(Submenu(kind)) =>
          Send(from, SubmenuText(kind));
        case Some(entry) =>
          ProcessPdfWithCommand(user, from, entry.Text(), session.value.mediaUrl, clock, perm);
      }
    }

    /** `processPdfWithCommand`. */
    method ProcessPdfWithCommand(user: string, from: string, command: string, mediaUrl: string, clock: Clock, perm: seq<int>)
      requires IsShuffle(perm, 62)
      modifies db, cache, outbox, queue
      ensures Snapshot() == ProcessStep(old(Snapshot()), user, from, command, mediaUrl, clock, perm)
    {
      var parsed := Parse(command, perm);
      if parsed.None? {
        Send(from, ParseFailure);
        return;
      }
      DispatchCommand(user, from, command, mediaUrl, clock, parsed.value);
    }

    /** The second half of `processPdfWithCommand`: the rows, the dispatch, the confirmation, and the session forgotten. */
    method DispatchCommand(user: string, from: string, command: string, mediaUrl: string, clock: Clock, parsed: ParsedCommand)
      modifies db, cache, outbox, queue
      ensures Snapshot() == Dispatched(old(Snapshot()), user, from, command, mediaUrl, clock, parsed)
    {
      var documentId := db.CreateDocument(MenuDocument(user, from, command, mediaUrl, clock));
      var taskJobId := db.CreateTaskJob(Records.NewTaskJob(0, documentId, parsed.op, parsed.parameters));
      queue.Push(Sessions.Dispatch(parsed.jobClass, documentId, taskJobId, from));
      Send(from, Confirmation(parsed.op));
      cache.Forget(SessionKey(user));
    }
  }

  /** The status reply built line by line, as `getStatusMessage` appends to its message. */
  method BuildStatusMessage(recent: seq<Records.TaskJobRow>, ago: Records.TaskJobRow -> string) returns (message: string)
    ensures message == StatusMessage(recent, ago)
  {
    if recent == [] {
      return NoRecentTasks;
    }
    message := StatusHeader;
    var lines := "";
    for i := 0 to |recent|
      invariant lines == Concat(StatusLines(recent[..i], ago))
    {
      StatusLinesSnoc(recent, i, ago);
      lines := lines + StatusLine(recent[i], ago);
    }
    assert recent[..|recent|] == recent;
    message := message + lines;
  }

  lemma StatusLinesSnoc(jobs: seq<Records.TaskJobRow>, i: int, ago: Records.TaskJobRow -> string)
    requires 0 <= i < |jobs|
    ensures Concat(StatusLines(jobs[..i + 1], ago)) == Concat(StatusLines(jobs[..i], ago)) + StatusLine(jobs[i], ago)
  {
    var lines := StatusLines(jobs[..i + 1], ago);
    assert lines[..i] == StatusLines(jobs[..i], ago);
  }
}

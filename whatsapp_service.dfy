/**
 * The provider-neutral WhatsApp service behind the Meta webhook: a text
 * that is one digit `1`..`6` selects an operation on the user's last PDF,
 * any other text gets the main menu; a PDF creates a `received` Document,
 * remembers its id under `document_{from}` for an hour and sends the PDF
 * menu; a selection creates a pending TaskJob on the remembered document,
 * confirms it and dispatches the operation's job.
 *
 * Two steps do not work as written: the upload hands `create` only
 * attributes the model does not accept besides `mime_type` and `status`,
 * so the insert lacks the required `original_name`; and the job is built
 * from the TaskJob alone, where its constructor takes the document, the
 * task job and the reply address.  Both are modelled as written (the
 * `AsWritten` functions, which raise) and as intended (the functions the
 * class and the Meta webhook use).
 */
module WhatsAppService {
  import opened Wrappers
  import opened Strings
  import opened PdfOps
  import Records
  import Sessions
  import Messaging

  // ---------------------------------------------------------------------
  // The provider

  datatype Provider = MetaProvider | TwilioProvider

  /** `getProviderName`. */
  function ProviderName(p: Provider): string
  {
    match p
    case MetaProvider => "meta"
    case TwilioProvider => "twilio"
  }

  /**
   * `createProvider`: the configured `messaging.default` name, `twilio`
   * when unset; any other name raises `InvalidArgumentException`.
   */
  function CreateProvider(configured: Option<string>): Result<Provider, string>
  {
    var name := configured.GetOr("twilio");
    if name == "meta" then Ok(MetaProvider)
    else if name == "twilio" then Ok(TwilioProvider)
    else Err("Unsupported messaging provider: " + name)
  }

  // ---------------------------------------------------------------------
  // Texts

  const MainMenuText: string :=
    "🤖 *Bot PDF* - Bienvenue !\n\n" +
    "Envoyez-moi un fichier PDF et je vous proposerai plusieurs options de traitement :\n\n" +
    "📄 *Fonctionnalités disponibles :*\n" +
    "• Compression\n" +
    "• Conversion (Word, Image)\n" +
    "• OCR (Reconnaissance de texte)\n" +
    "• Résumé automatique\n" +
    "• Traduction\n" +
    "• Sécurisation\n\n" +
    "📎 *Envoyez votre PDF pour commencer !*"

  const PdfMenuText: string :=
    "🤖 *PDF reçu !* Choisissez votre action :\n\n" +
    "1️⃣ *Compresser* le PDF\n" +
    "2️⃣ *Convertir* (PDF → Word/Image)\n" +
    "3️⃣ *OCR* (Extraire le texte)\n" +
    "4️⃣ *Résumer* le contenu\n" +
    "5️⃣ *Traduire* le texte\n" +
    "6️⃣ *Sécuriser* avec mot de passe\n\n" +
    "💬 *Tapez le numéro de votre choix (1-6)*"

  const UnsupportedFormat: string := "❌ Format non supporté. Veuillez envoyer un fichier PDF."
  const SessionExpired: string := "❌ Session expirée. Veuillez renvoyer votre PDF."
  const DocumentNotFound: string := "❌ Document non trouvé. Veuillez renvoyer votre PDF."
  const InvalidChoice: string := "❌ Choix invalide. Veuillez choisir un numéro entre 1 et 6."

  /** The label of an operation in the confirmation (`$actionNames`, indexed like `$actionTypes`). */
  function ActionName(op: OpType): string
  {
    match op
    case Compress => "Compression"
    case Convert => "Conversion"
    case Ocr => "OCR"
    case Summarize => "Résumé"
    case Translate => "Traduction"
    case Secure => "Sécurisation"
  }

  /** The confirmation of a selection. */
  function Confirmation(op: OpType): string
  {
    "✅ *" + ActionName(op) + ConfirmationTail
  }

  const ConfirmationTail: string := "* en cours...\n\n⏳ Traitement de votre PDF avec le microservice Python.\n\n📱 Vous recevrez le résultat dans quelques instants !"

  // ---------------------------------------------------------------------
  // Recognising a selection

  const PdfMimeType: string := "application/pdf"

  /** Lifetime of the remembered document id, in seconds. */
  const DocumentTtl: int := 3600

  /** The file name stored when the upload has none (or a falsy one). */
  const DefaultFilename: string := "document.pdf"

  /** The cache key of a user's last uploaded document. */
  function DocumentKey(to: string): string
  {
    "document_" + to
  }

  /** `[1-6]` spanning the whole of `s`. */
  predicate DigitCode(s: string)
  {
    |s| == 1 && '1' <= s[0] <= '6'
  }

  /** `preg_match('/^[1-6]$/', s)`: PCRE's `$` also matches just before a final newline. */
  predicate DigitPattern(s: string)
  {
    DigitCode(s) || (|s| > 0 && s[|s| - 1] == '\n' && DigitCode(s[..|s| - 1]))
  }

  /** `(int)` of a one-digit string. */
  function DigitValue(s: string): int
    requires |s| >= 1
  {
    s[0] as int - '0' as int
  }

  /** `$actionTypes[$selection] ?? null`. */
  function ActionOf(selection: int): Option<OpType>
  {
    if selection == 1 then Some(Compress)
    else if selection == 2 then Some(Convert)
    else if selection == 3 then Some(Ocr)
    else if selection == 4 then Some(Summarize)
    else if selection == 5 then Some(Translate)
    else if selection == 6 then Some(Secure)
    else None
  }

  /** The menu number of an operation. */
  function MenuNumber(op: OpType): int
  {
    match op
    case Compress => 1
    case Convert => 2
    case Ocr => 3
    case Summarize => 4
    case Translate => 5
    case Secure => 6
  }

  // ---------------------------------------------------------------------
  // The transition one message makes

  /** Everything the service changes: both tables, the cache, the outbox and the queue. */
  datatype State = State(
    documents: seq<Records.DocumentRow>,
    taskJobs: seq<Records.TaskJobRow>,
    cache: map<string, Sessions.Entry<int>>,
    sent: seq<Messaging.Message>,
    queue: seq<Sessions.Dispatch>)

  /** A step as written, which can raise: the state reached and the error raised, if any. */
  datatype Outcome = Outcome(state: State, raised: Option<string>)

  function Reply(s: State, to: string, text: string): State
  {
    s.(sent := s.sent + [Messaging.Text(to, text)])
  }

  /** The attributes `handlePdfUpload` hands to `Document::create`. */
  const UploadKeys: set<string> := {"whatsapp_user", "original_filename", "media_url", "mime_type", "status"}

  /** The attributes `processSelection` hands to `TaskJob::create`. */
  const SelectionKeys: set<string> := {"document_id", "type", "status", "whatsapp_user", "selection_method", "provider"}

  /**
   * `handlePdfUpload` as written: mass assignment keeps `mime_type` and
   * `status` only, and the insert is refused for want of `original_name`.
   * Nothing is stored, no menu goes out and the error propagates.
   */
  function UploadAsWritten(s: State): (r: Outcome)
    ensures r.state == s && r.raised.Some?
  {
    Outcome(s, Records.InsertDocumentCheck(UploadKeys))
  }

  /**
   * The document the upload evidently means to store: the file name (or
   * `document.pdf`), the sender, the PDF type, status `received`, and the
   * media URL, kept in the metadata since there is no column for it.
   */
  function UploadedDocument(from: string, mediaUrl: string, filename: string): Records.DocumentRow
  {
    Records.NewDocument(if Truthy(Some(filename)) then filename else DefaultFilename).(
      whatsappUserId := Some(from),
      mimeType := Some(PdfMimeType),
      status := "received",
      metadata := map["media_url" := mediaUrl])
  }

  /** `handlePdfUpload` and `sendPdfMenu`, corrected: the document is stored, its id remembered for an hour, the PDF menu sent. */
  function Upload(s: State, from: string, mediaUrl: string, filename: string, now: int): (r: State)
    ensures |r.documents| == |s.documents| + 1 && r.documents[..|s.documents|] == s.documents
    ensures var d := r.documents[|s.documents|];
      && d.id == |s.documents| + 1 && d.whatsappUserId == Some(from) && d.status == "received"
      && d.originalName == (if filename == "" || filename == "0" then DefaultFilename else filename)
      && d.metadata == map["media_url" := mediaUrl]
    ensures Sessions.Lookup(r.cache, DocumentKey(from), now) == Some(|s.documents| + 1)
    ensures Sessions.Lookup(r.cache, DocumentKey(from), now + DocumentTtl).None?
    ensures r.sent == s.sent + [Messaging.Text(from, PdfMenuText)]
    ensures r.taskJobs == s.taskJobs && r.queue == s.queue
  {
    var documentId := |s.documents| + 1;
    s.(documents := s.documents + [UploadedDocument(from, mediaUrl, filename).(id := documentId)],
       cache := s.cache[DocumentKey(from) := Sessions.Entry(documentId, now + DocumentTtl)],
       sent := s.sent + [Messaging.Text(from, PdfMenuText)])
  }

  /**
   * What `processSelection` does before dispatching: the pending task job
   * (its extra attributes are not fillable and its parameters stay null,
   * written as no parameters) and the confirmation.
   */
  function Selected(s: State, from: string, documentId: int, op: OpType): State
  {
    s.(taskJobs := s.taskJobs + [Records.NewTaskJob(|s.taskJobs| + 1, documentId, op, map[])],
       sent := s.sent + [Messaging.Text(from, Confirmation(op))])
  }

  /**
   * `processSelection` as written: the job class exists for every type,
   * but it is constructed from the TaskJob alone; the TaskJob lands
   * where the document is expected and two arguments are missing, so the
   * construction raises and nothing is dispatched.
   */
  function ProcessSelectionAsWritten(s: State, from: string, documentId: int, op: OpType): (r: Outcome)
    ensures r.raised.Some? && r.state.queue == s.queue && r.state.documents == s.documents
    ensures |r.state.taskJobs| == |s.taskJobs| + 1 && r.state.taskJobs[|s.taskJobs|].status == Records.Pending
    ensures r.state.sent == s.sent + [Messaging.Text(from, Confirmation(op))]
  {
    Outcome(Selected(s, from, documentId, op),
      Some("TypeError: " + MenuJobClass(TypeName(op)) + "::__construct(): Argument #1 ($document) must be of type App\\Models\\Document"))
  }

  /** `processSelection` corrected: the job is dispatched with the document, the TaskJob and the sender. */
  function ProcessSelection(s: State, from: string, documentId: int, op: OpType): (r: State)
    ensures r.documents == s.documents && r.cache == s.cache
    ensures |r.taskJobs| == |s.taskJobs| + 1 && r.taskJobs[..|s.taskJobs|] == s.taskJobs
    ensures var job := r.taskJobs[|s.taskJobs|];
      job.id == |r.taskJobs| && job.documentId == documentId && job.op == op && job.status == Records.Pending
    ensures |r.queue| == |s.queue| + 1 && r.queue[..|s.queue|] == s.queue
    ensures var d := r.queue[|s.queue|];
      d.taskJobId == |r.taskJobs| && d.documentId == documentId && d.replyTo == from && d.jobClass == JobClass(op)
    ensures r.sent == s.sent + [Messaging.Text(from, Confirmation(op))]
  {
    MenuJobClassAgrees(op);
    Selected(s, from, documentId, op).(queue := s.queue + [Sessions.Dispatch(MenuJobClass(TypeName(op)), documentId, |s.taskJobs| + 1, from)])
  }

  /** The remembered document id, when it is there and truthy. */
  function RememberedDocument(s: State, from: string, now: int): Option<int>
  {
    var cached := Sessions.Lookup(s.cache, DocumentKey(from), now);
    if cached.Some? && cached.value != 0 then cached else None
  }

  /** `handleMenuSelection`, with `processSelection` given as a step on the found document. */
  function MenuSelection(s: State, from: string, selection: int, now: int): State
  {
    match RememberedDocument(s, from, now)
    case None => Reply(s, from, SessionExpired)
    case Some(documentId) =>
      match Records.FindDocument(s.documents, documentId)
      case None => Reply(s, from, DocumentNotFound)
      case Some(document) =>
        match ActionOf(selection)
        case None => Reply(s, from, InvalidChoice)
        case Some(op) => ProcessSelection(s, from, document.id, op)
  }

  /** `handleMenuSelection` as written, reaching `processSelection` as written. */
  function MenuSelectionAsWritten(s: State, from: string, selection: int, now: int): Outcome
  {
    match RememberedDocument(s, from, now)
    case None => Outcome(Reply(s, from, SessionExpired), None)
    case Some(documentId) =>
      match Records.FindDocument(s.documents, documentId)
      case None => Outcome(Reply(s, from, DocumentNotFound), None)
      case Some(document) =>
        match ActionOf(selection)
        case None => Outcome(Reply(s, from, InvalidChoice), None)
        case Some(op) => ProcessSelectionAsWritten(s, from, document.id, op)
  }

  /** `handleTextMessage`. */
  function TextMessage(s: State, from: string, text: string, now: int): State
  {
    var t := PhpTrim(text);
    if DigitPattern(t) then MenuSelection(s, from, DigitValue(t), now)
    else Reply(s, from, MainMenuText)
  }

  /** `handleMediaMessage`. */
  function MediaMessage(s: State, from: string, mediaUrl: string, mimeType: string, filename: string, now: int): State
  {
    if mimeType == PdfMimeType then Upload(s, from, mediaUrl, filename, now)
    else Reply(s, from, UnsupportedFormat)
  }

  /** `handleMediaMessage` as written. */
  function MediaMessageAsWritten(s: State, from: string, mediaUrl: string, mimeType: string, filename: string, now: int): Outcome
  {
    if mimeType == PdfMimeType then UploadAsWritten(s)
    else Outcome(Reply(s, from, UnsupportedFormat), None)
  }

  // ---------------------------------------------------------------------
  // The service

  class Service {
    const provider: Provider
    const db: Records.Database
    const cache: Sessions.Cache<int>
    const outbox: Messaging.Outbox
    const queue: Sessions.JobQueue

    /** The service holds the provider `createProvider` chose and the shared stores. */
    constructor(provider: Provider, db: Records.Database, cache: Sessions.Cache<int>, outbox: Messaging.Outbox, queue: Sessions.JobQueue)
      ensures this.provider == provider && this.db == db && this.cache == cache && this.outbox == outbox && this.queue == queue
    {
      this.provider := provider;
      this.db := db;
      this.cache := cache;
      this.outbox := outbox;
      this.queue := queue;
    }

    function Snapshot(): State
      reads db, cache, outbox, queue
    {
      State(db.documents, db.taskJobs, cache.entries, outbox.sent, queue.dispatched)
    }

    /** `getProviderName`. */
    function GetProviderName(): (name: string)
      ensures CreateProvider(Some(name)) == Ok(provider)
    {
      ProviderName(provider)
    }

    /** `sendText`; the provider's answer is not used by the service's own steps. */
    method SendText(to: string, text: string)
      modifies outbox
      ensures outbox.sent == old(outbox.sent) + [Messaging.Text(to, text)]
    {
      var _ := outbox.SendText(to, text, true);
    }

    /** `handleTextMessage`. */
    method HandleTextMessage(from: string, text: string, now: int)
      modifies db, cache, outbox, queue
      ensures Snapshot() == TextMessage(old(Snapshot()), from, text, now)
    {
      var t := PhpTrim(text);
      if DigitPattern(t) {
        HandleMenuSelection(from, DigitValue(t), now);
        return;
      }
      SendText(from, MainMenuText);
    }

    /** `handleMediaMessage`. */
    method HandleMediaMessage(from: string, mediaUrl: string, mimeType: string, filename: string, now: int)
      modifies db, cache, outbox
      ensures Snapshot() == MediaMessage(old(Snapshot()), from, mediaUrl, mimeType, filename, now)
    {
      if mimeType == PdfMimeType {
        HandlePdfUpload(from, mediaUrl, filename, now);
      } else {
        SendText(from, UnsupportedFormat);
      }
    }

    /** `handlePdfUpload`, corrected. */
    method HandlePdfUpload(from: string, mediaUrl: string, filename: string, now: int)
      modifies db, cache, outbox
      ensures Snapshot() == Upload(old(Snapshot()), from, mediaUrl, filename, now)
    {
      var documentId := db.CreateDocument(UploadedDocument(from, mediaUrl, filename));
      SendPdfMenu(from, documentId, now);
    }

    /** `sendPdfMenu`: the document id is remembered for an hour, then the menu is sent. */
    method SendPdfMenu(to: string, documentId: int, now: int)
      modifies cache, outbox
      ensures cache.entries == old(cache.entries)[DocumentKey(to) := Sessions.Entry(documentId, now + DocumentTtl)]
      ensures outbox.sent == old(outbox.sent) + [Messaging.Text(to, PdfMenuText)]
    {
      cache.Put(DocumentKey(to), documentId, DocumentTtl, now);
      SendText(to, PdfMenuText);
    }

    /** `handleMenuSelection`. */
    method HandleMenuSelection(from: string, selection: int, now: int)
      modifies db, outbox, queue
      ensures Snapshot() == MenuSelection(old(Snapshot()), from, selection, now)
    {
      var cached := Sessions.Lookup(cache.entries, DocumentKey(from), now);
      if cached.None? || cached.value == 0 {
        SendText(from, SessionExpired);
        return;
      }
      var document := Records.FindDocument(db.documents, cached.value);
      if document.None? {
        SendText(from, DocumentNotFound);
        return;
      }
      var op := ActionOf(selection);
      if op.None? {
        SendText(from, InvalidChoice);
        return;
      }
      ProcessSelectionOn(from, document.value.id, op.value);
    }

    /** `processSelection`, corrected. */
    method ProcessSelectionOn(from: string, documentId: int, op: OpType)
      modifies db, outbox, queue
      ensures Snapshot() == ProcessSelection(old(Snapshot()), from, documentId, op)
    {
      var taskJobId := db.CreateTaskJob(Records.NewTaskJob(0, documentId, op, map[]));
      SendText(from, Confirmation(op));
      queue.Push(Sessions.Dispatch(MenuJobClass(TypeName(op)), documentId, taskJobId, from));
    }
  }
}

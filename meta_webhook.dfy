/**
 * The Meta (WhatsApp Cloud API) webhook: the subscription handshake, the
 * HMAC signature check, and the walk over `entry[].changes[].value.messages[]`
 * that hands texts and media to the WhatsApp service.
 *
 * The walk is specified in two stages: `PayloadActions` flattens a payload
 * into the service calls it asks for, in order (or a `Raise` where the
 * controller reads a key that is not there), and `RunActions` performs
 * them on the service state, stopping at the first `Raise`.  Work done
 * before an exception stays done; the reply is then 500.
 */
module MetaWebhook {
  import opened Wrappers
  import opened Strings
  import WhatsAppService

  /** An HTTP reply: status and body text. */
  datatype Response = Response(status: int, body: string)

  const Forbidden: Response := Response(403, "Forbidden")
  const Unauthorized: Response := Response(401, "Unauthorized")
  const Accepted: Response := Response(200, "OK")
  const ServerError: Response := Response(500, "Internal Server Error")

  // ---------------------------------------------------------------------
  // The handshake

  /**
   * `verify`: the challenge is echoed when the mode is `subscribe` and the
   * token is identical to the configured one, an absent token and an
   * absent configuration included (`null === null`).
   */
  function Verify(mode: Option<string>, token: Option<string>, challenge: Option<string>, verifyToken: Option<string>): (r: Response)
    ensures r.status == 200 || r == Forbidden
    ensures r.status == 200 ==> r.body == challenge.GetOr("") && token == verifyToken
  {
    if mode == Some("subscribe") && token == verifyToken then Response(200, challenge.GetOr(""))
    else Forbidden
  }

  // ---------------------------------------------------------------------
  // The signature

  /** The signature the header must carry: `sha256=` and the hex HMAC-SHA256 of the raw body (RFC 2104), given as `hmac`. */
  function ExpectedSignature(content: string, secret: string, hmac: (string, string) -> string): string
  {
    "sha256=" + hmac(content, secret)
  }

  /** `verifySignature`: a truthy `X-Hub-Signature-256` header equal to the expected signature. */
  predicate SignatureValid(header: Option<string>, content: string, secret: string, hmac: (string, string) -> string)
  {
    Truthy(header) && header.value == ExpectedSignature(content, secret, hmac)
  }

  // ---------------------------------------------------------------------
  // The payload, as far as the controller reads it (an absent key and a
  // null value are both `None`)

  datatype Media = Media(id: Option<string>, filename: Option<string>, mimeType: Option<string>)
  datatype TextPart = TextPart(body: Option<string>)
  datatype Message = Message(from: Option<string>, id: Option<string>, text: Option<TextPart>, document: Option<Media>, image: Option<Media>)
  datatype Value = Value(messages: Option<seq<Message>>)
  datatype Change = Change(field: Option<string>, value: Option<Value>)
  datatype Entry = Entry(changes: Option<seq<Change>>)
  datatype Payload = Payload(entry: Option<seq<Entry>>)

  /** A call the walk makes on the service, or an exception. */
  datatype Action =
    | TextAction(from: string, body: string)
    | MediaAction(from: string, mediaId: string, mimeType: string, filename: string)
    | Raise

  /** The actions of each element, in order. */
  function FlatMap<T>(xs: seq<T>, f: T -> seq<Action>): seq<Action>
  {
    if xs == [] then [] else FlatMap(xs[..|xs| - 1], f) + f(xs[|xs| - 1])
  }

  /** The sender as the service knows it, in Twilio's form. */
  function FormattedFrom(from: string): string
  {
    "whatsapp:+" + from
  }

  /** `handleDocumentMessage`/`handleImageMessage` up to the media URL: nothing without a truthy media id. */
  function MediaActions(from: string, media: Media, filename: string): seq<Action>
  {
    if Truthy(media.id) then [MediaAction(from, media.id.value, media.mimeType.GetOr(""), filename)] else []
  }

  /**
   * One message of `processMessage`: skipped without a truthy sender or
   * id; then a text (whose missing body raises), else a document (named
   * `document` by default), else an image (always named `image`).
   */
  function MessageActions(m: Message): seq<Action>
  {
    if !Truthy(m.from) || !Truthy(m.id) then []
    else
      var from := FormattedFrom(m.from.value);
      if m.text.Some? then
        if m.text.value.body.Some? then [TextAction(from, m.text.value.body.value)] else [Raise]
      else if m.document.Some? then MediaActions(from, m.document.value, m.document.value.filename.GetOr("document"))
      else if m.image.Some? then MediaActions(from, m.image.value, "image")
      else []
  }

  /** `processMessage`: nothing without `messages`. */
  function ValueActions(v: Value): seq<Action>
  {
    if v.messages.Some? then FlatMap(v.messages.value, MessageActions) else []
  }

  /** One change: reading a missing `field`, or the `value` of a `messages` change, raises; other fields are ignored. */
  function ChangeActions(c: Change): seq<Action>
  {
    if c.field.None? then [Raise]
    else if c.field.value != "messages" then []
    else if c.value.None? then [Raise]
    else ValueActions(c.value.value)
  }

  function EntryActions(e: Entry): seq<Action>
  {
    if e.changes.Some? then FlatMap(e.changes.value, ChangeActions) else []
  }

  /** Everything a payload asks of the service, in the order `handle` visits it. */
  function PayloadActions(p: Payload): seq<Action>
  {
    if p.entry.Some? then FlatMap(p.entry.value, EntryActions) else []
  }

  // ---------------------------------------------------------------------
  // Performing the actions

  /** The state after a run of actions, and whether one raised. */
  datatype Run = Run(state: WhatsAppService.State, raised: bool)

  /**
   * One service call: a text goes to `handleTextMessage`; a media goes to
   * `handleMediaMessage` when `getMediaUrl` (the parameter `mediaUrlOf`)
   * gives a truthy URL, and is dropped otherwise.
   */
  function Perform(s: WhatsAppService.State, a: Action, mediaUrlOf: string -> Option<string>, now: int): WhatsAppService.State
  {
    match a
    case TextAction(from, body) => WhatsAppService.TextMessage(s, from, body, now)
    case MediaAction(from, mediaId, mimeType, filename) =>
      var url := mediaUrlOf(mediaId);
      if Truthy(url) then WhatsAppService.MediaMessage(s, from, url.value, mimeType, filename, now) else s
    case Raise => s
  }

  /** The actions performed in order, up to the first `Raise`. */
  function RunActions(s: WhatsAppService.State, actions: seq<Action>, mediaUrlOf: string -> Option<string>, now: int): Run
  {
    if actions == [] then Run(s, false)
    else
      var r := RunActions(s, actions[..|actions| - 1], mediaUrlOf, now);
      var last := actions[|actions| - 1];
      if r.raised then r
      else if last.Raise? then Run(r.state, true)
      else Run(Perform(r.state, last, mediaUrlOf, now), false)
  }

  /** The reply and the state `handle` leaves. */
  datatype Handled = Handled(response: Response, state: WhatsAppService.State)

  /** `handle`: 401 on a bad signature, 500 when the walk raised, 200 otherwise. */
  function HandleResult(s: WhatsAppService.State, header: Option<string>, content: string, secret: string, hmac: (string, string) -> string,
                  payload: Payload, mediaUrlOf: string -> Option<string>, now: int): (r: Handled)
    ensures r.response == Unauthorized <==> !SignatureValid(header, content, secret, hmac)
    ensures r.response == Unauthorized ==> r.state == s
    ensures r.response in {Unauthorized, ServerError, Accepted}
  {
    if !SignatureValid(header, content, secret, hmac) then Handled(Unauthorized, s)
    else
      var r := RunActions(s, PayloadActions(payload), mediaUrlOf, now);
      Handled(if r.raised then ServerError else Accepted, r.state)
  }

  /** The last element's actions come last. */
  lemma FlatMapSnoc<T>(xs: seq<T>, i: nat, f: T -> seq<Action>)
    requires i < |xs|
    ensures FlatMap(xs[..i + 1], f) == FlatMap(xs[..i], f) + f(xs[i])
  {
    assert xs[..i + 1][..i] == xs[..i];
  }

  /** Running `a + b` is running `a`, then `b` unless `a` raised. */
  lemma {:induction false} RunAppend(s: WhatsAppService.State, a: seq<Action>, b: seq<Action>, mediaUrlOf: string -> Option<string>, now: int)
    ensures var r := RunActions(s, a, mediaUrlOf, now);
      RunActions(s, a + b, mediaUrlOf, now) == if r.raised then r else RunActions(r.state, b, mediaUrlOf, now)
    decreases |b|
  {
    if b == [] {
      assert a + b == a;
    } else {
      var b' := b[..|b| - 1];
      assert (a + b)[..|a + b| - 1] == a + b';
      assert (a + b)[|a + b| - 1] == b[|b| - 1];
      RunAppend(s, a, b', mediaUrlOf, now);
    }
  }

  // ---------------------------------------------------------------------
  // The controller

  class Controller {
    const service: WhatsAppService.Service
    const verifyToken: Option<string>
    const appSecret: string

    /** The controller holds the service and the `messaging.meta` configuration. */
    constructor(service: WhatsAppService.Service, verifyToken: Option<string>, appSecret: string)
      ensures this.service == service && this.verifyToken == verifyToken && this.appSecret == appSecret
    {
      this.service := service;
      this.verifyToken := verifyToken;
      this.appSecret := appSecret;
    }

    /**
     * `handle`: checks the signature, then visits every change of every
     * entry and processes those of field `messages`; an exception ends
     * the walk with 500.
     */
    method Handle(header: Option<string>, content: string, hmac: (string, string) -> string,
                  payload: Payload, mediaUrlOf: string -> Option<string>, now: int) returns (response: Response)
      modifies service.db, service.cache, service.outbox, service.queue
      ensures Handled(response, service.Snapshot())
        == HandleResult(old(service.Snapshot()), header, content, appSecret, hmac, payload, mediaUrlOf, now)
    {
      if !SignatureValid(header, content, appSecret, hmac) {
        return Unauthorized;
      }
      if payload.entry.Some? {
        ghost var s0 := service.Snapshot();
        var entries := payload.entry.value;
        var i := 0;
        while i < |entries|
          invariant 0 <= i <= |entries|
          invariant Run(service.Snapshot(), false) == RunActions(s0, FlatMap(entries[..i], EntryActions), mediaUrlOf, now)
        {
          FlatMapSnoc(entries, i, EntryActions);
          RunAppend(s0, FlatMap(entries[..i], EntryActions), EntryActions(entries[i]), mediaUrlOf, now);
          var raised := ProcessEntry(entries[i], mediaUrlOf, now);
          if raised {
            RaiseStops(s0, entries, i, EntryActions, mediaUrlOf, now);
            return ServerError;
          }
          i := i + 1;
        }
        assert entries[..i] == entries;
      }
      response := Accepted;
    }

    /** The inner loop of `handle`: every change of one entry, while none raises. */
    method ProcessEntry(entry: Entry, mediaUrlOf: string -> Option<string>, now: int) returns (raised: bool)
      modifies service.db, service.cache, service.outbox, service.queue
      ensures Run(service.Snapshot(), raised) == RunActions(old(service.Snapshot()), EntryActions(entry), mediaUrlOf, now)
    {
      if entry.changes.None? {
        return false;
      }
      ghost var s0 := service.Snapshot();
      var changes := entry.changes.value;
      var j := 0;
      while j < |changes|
        invariant 0 <= j <= |changes|
        invariant Run(service.Snapshot(), false) == RunActions(s0, FlatMap(changes[..j], ChangeActions), mediaUrlOf, now)
      {
        FlatMapSnoc(changes, j, ChangeActions);
        RunAppend(s0, FlatMap(changes[..j], ChangeActions), ChangeActions(changes[j]), mediaUrlOf, now);
        raised := ProcessChange(changes[j], mediaUrlOf, now);
        if raised {
          RaiseStops(s0, changes, j, ChangeActions, mediaUrlOf, now);
          return true;
        }
        j := j + 1;
      }
      assert changes[..j] == changes;
      raised := false;
    }

    /** One change: a missing `field` raises; a `messages` change goes to `processMessage`, whose missing `value` raises. */
    method ProcessChange(change: Change, mediaUrlOf: string -> Option<string>, now: int) returns (raised: bool)
      modifies service.db, service.cache, service.outbox, service.queue
      ensures Run(service.Snapshot(), raised) == RunActions(old(service.Snapshot()), ChangeActions(change), mediaUrlOf, now)
    {
      if change.field.None? {
        return true;
      }
      if change.field.value == "messages" {
        if change.value.None? {
          return true;
        }
        raised := ProcessMessage(change.value.value, mediaUrlOf, now);
      } else {
        raised := false;
      }
    }

    /** `processMessage`: every message in turn; a text without a body raises. */
    method ProcessMessage(value: Value, mediaUrlOf: string -> Option<string>, now: int) returns (raised: bool)
      modifies service.db, service.cache, service.outbox, service.queue
      ensures Run(service.Snapshot(), raised) == RunActions(old(service.Snapshot()), ValueActions(value), mediaUrlOf, now)
    {
      if value.messages.None? {
        return false;
      }
      ghost var s0 := service.Snapshot();
      var messages := value.messages.value;
      var i := 0;
      while i < |messages|
        invariant 0 <= i <= |messages|
        invariant Run(service.Snapshot(), false) == RunActions(s0, FlatMap(messages[..i], MessageActions), mediaUrlOf, now)
      {
        FlatMapSnoc(messages, i, MessageActions);
        RunAppend(s0, FlatMap(messages[..i], MessageActions), MessageActions(messages[i]), mediaUrlOf, now);
        raised := ProcessOne(messages[i], mediaUrlOf, now);
        if raised {
          RaiseStops(s0, messages, i, MessageActions, mediaUrlOf, now);
          return true;
        }
        i := i + 1;
      }
      assert messages[..i] == messages;
      raised := false;
    }

    /** One message: the skip rule, the sender's form and the type precedence. */
    method ProcessOne(m: Message, mediaUrlOf: string -> Option<string>, now: int) returns (raised: bool)
      modifies service.db, service.cache, service.outbox, service.queue
      ensures Run(service.Snapshot(), raised) == RunActions(old(service.Snapshot()), MessageActions(m), mediaUrlOf, now)
    {
      raised := false;
      if !Truthy(m.from) || !Truthy(m.id) {
        return;
      }
      var from := FormattedFrom(m.from.value);
      if m.text.Some? {
        if m.text.value.body.None? {
          return true;
        }
        service.HandleTextMessage(from, m.text.value.body.value, now);
      } else if m.document.Some? {
        HandleMedia(from, m.document.value, m.document.value.filename.GetOr("document"), mediaUrlOf, now);
      } else if m.image.Some? {
        HandleMedia(from, m.image.value, "image", mediaUrlOf, now);
      }
    }

    /** `handleDocumentMessage`/`handleImageMessage` once the file name is chosen. */
    method HandleMedia(from: string, media: Media, filename: string, mediaUrlOf: string -> Option<string>, now: int)
      modifies service.db, service.cache, service.outbox, service.queue
      ensures Run(service.Snapshot(), false) == RunActions(old(service.Snapshot()), MediaActions(from, media, filename), mediaUrlOf, now)
    {
      if !Truthy(media.id) {
        return;
      }
      var mediaUrl := mediaUrlOf(media.id.value);
      if Truthy(mediaUrl) {
        service.HandleMediaMessage(from, mediaUrl.value, media.mimeType.GetOr(""), filename, now);
      }
    }
  }

  /** Once the actions of the first `i + 1` elements raised, those of the rest change nothing. */
  lemma RaiseStops<T>(s0: WhatsAppService.State, xs: seq<T>, i: nat, f: T -> seq<Action>, mediaUrlOf: string -> Option<string>, now: int)
    requires i < |xs|
    requires RunActions(s0, FlatMap(xs[..i + 1], f), mediaUrlOf, now).raised
    ensures RunActions(s0, FlatMap(xs, f), mediaUrlOf, now) == RunActions(s0, FlatMap(xs[..i + 1], f), mediaUrlOf, now)
  {
    FlatMapSplit(xs, i + 1, f);
    RunAppend(s0, FlatMap(xs[..i + 1], f), FlatMap(xs[i + 1..], f), mediaUrlOf, now);
  }

  /** The actions of a sequence are those of a prefix followed by those of the rest. */
  lemma {:induction false} FlatMapSplit<T>(xs: seq<T>, k: nat, f: T -> seq<Action>)
    requires k <= |xs|
    ensures FlatMap(xs, f) == FlatMap(xs[..k], f) + FlatMap(xs[k..], f)
    decreases |xs| - k
  {
    if k == |xs| {
      assert xs[..k] == xs;
      assert xs[k..] == [];
    } else {
      FlatMapSplit(xs, k + 1, f);
      FlatMapSnoc(xs, k, f);
      FlatMapCons(xs[k..], f);
      assert xs[k..][1..] == xs[k + 1..];
    }
  }

  /** The first element's actions come first. */
  lemma {:induction false} FlatMapCons<T>(xs: seq<T>, f: T -> seq<Action>)
    requires xs != []
    ensures FlatMap(xs, f) == f(xs[0]) + FlatMap(xs[1..], f)
    decreases |xs|
  {
    if |xs| == 1 {
      assert xs[..0] == [];
      assert xs[1..] == [];
    } else {
      var init := xs[..|xs| - 1];
      FlatMapCons(init, f);
      assert init[1..] == xs[1..][..|xs[1..]| - 1];
      assert xs[1..][|xs[1..]| - 1] == xs[|xs| - 1];
    }
  }
}

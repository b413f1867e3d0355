/** What the Meta webhook promises: the handshake, the signature gate, which parts of a payload reach the service and how. */
module MetaWebhookProperties {
  import opened Wrappers
  import opened Strings
  import opened MetaWebhook
  import WhatsAppService
  import WhatsAppServiceProperties

  // ---------------------------------------------------------------------
  // The handshake and the signature

  /** The challenge is echoed exactly when the mode is `subscribe` and the tokens are identical; anything else is 403. */
  lemma VerifyIff(mode: Option<string>, token: Option<string>, challenge: Option<string>, verifyToken: Option<string>)
    ensures Verify(mode, token, challenge, verifyToken).status == 200 <==> mode == Some("subscribe") && token == verifyToken
    ensures Verify(mode, token, challenge, verifyToken).status == 200 ==> Verify(mode, token, challenge, verifyToken).body == challenge.GetOr("")
    ensures Verify(mode, token, challenge, verifyToken).status != 200 ==> Verify(mode, token, challenge, verifyToken) == Forbidden
  {
  }

  /** With no token configured, a request carrying no token passes the handshake. */
  lemma UnconfiguredTokenPasses(challenge: Option<string>)
    ensures Verify(Some("subscribe"), None, challenge, None) == Response(200, challenge.GetOr(""))
  {
  }

  /** The expected signature is never PHP-empty, so the truthiness test only rejects headers that could not match anyway. */
  lemma SignatureValidIff(header: Option<string>, content: string, secret: string, hmac: (string, string) -> string)
    ensures SignatureValid(header, content, secret, hmac) <==> header == Some(ExpectedSignature(content, secret, hmac))
  {
    var e := ExpectedSignature(content, secret, hmac);
    assert e[0] == 's';
    assert e != "" && e != "0";
  }

  /** A bad signature is answered 401 before the payload is looked at: nothing changes. */
  lemma BadSignatureChangesNothing(s: WhatsAppService.State, header: Option<string>, content: string, secret: string,
                                   hmac: (string, string) -> string, payload: Payload, mediaUrlOf: string -> Option<string>, now: int)
    requires header != Some(ExpectedSignature(content, secret, hmac))
    ensures HandleResult(s, header, content, secret, hmac, payload, mediaUrlOf, now) == Handled(Unauthorized, s)
  {
    SignatureValidIff(header, content, secret, hmac);
  }

  // ---------------------------------------------------------------------
  // What reaches the service

  /** Changes of any field other than `messages` are ignored. */
  lemma OtherFieldsIgnored(c: Change)
    requires c.field.Some? && c.field.value != "messages"
    ensures ChangeActions(c) == []
  {
  }

  /** A message without a truthy sender or id is skipped, whatever it carries. */
  lemma InvalidMessageSkipped(m: Message)
    requires !Truthy(m.from) || !Truthy(m.id)
    ensures MessageActions(m) == []
  {
  }

  /** A text wins over a document or an image in the same message, and goes out under the formatted sender. */
  lemma TextFirst(m: Message, body: string)
    requires Truthy(m.from) && Truthy(m.id)
    requires m.text == Some(TextPart(Some(body)))
    ensures MessageActions(m) == [TextAction("whatsapp:+" + m.from.value, body)]
  {
  }

  /** A document with a truthy id, in a message without text, asks for its media with `document` as the default name and no MIME type as `''`. */
  lemma DocumentDefaults(m: Message, d: Media)
    requires Truthy(m.from) && Truthy(m.id)
    requires m.text.None? && m.document == Some(d) && Truthy(d.id)
    ensures MessageActions(m) == [MediaAction("whatsapp:+" + m.from.value, d.id.value, d.mimeType.GetOr(""), d.filename.GetOr("document"))]
  {
  }

  /** An image, in a message with neither text nor document, is always named `image`. */
  lemma ImageNamedImage(m: Message, i: Media)
    requires Truthy(m.from) && Truthy(m.id)
    requires m.text.None? && m.document.None? && m.image == Some(i) && Truthy(i.id)
    ensures MessageActions(m) == [MediaAction("whatsapp:+" + m.from.value, i.id.value, i.mimeType.GetOr(""), "image")]
  {
  }

  /** A media message without a truthy id asks for nothing. */
  lemma MediaWithoutIdIgnored(m: Message)
    requires Truthy(m.from) && Truthy(m.id) && m.text.None?
    requires (m.document.Some? && !Truthy(m.document.value.id)) || (m.document.None? && m.image.Some? && !Truthy(m.image.value.id))
    ensures MessageActions(m) == []
  {
  }

  /** Every call on the service names its sender in Twilio's `whatsapp:+` form. */
  predicate FromWhatsApp(a: Action)
  {
    a.Raise? || StartsWith(a.from, "whatsapp:+")
  }

  predicate AllFromWhatsApp(actions: seq<Action>)
  {
    forall k :: 0 <= k < |actions| ==> FromWhatsApp(actions[k])
  }

  lemma MessageFromWhatsApp(m: Message)
    ensures AllFromWhatsApp(MessageActions(m))
  {
    if Truthy(m.from) && Truthy(m.id) {
      var from := FormattedFrom(m.from.value);
      assert StartsWith(from, "whatsapp:+") by { assert from[..|"whatsapp:+"|] == "whatsapp:+"; }
    }
  }

  lemma {:induction false} MessagesFromWhatsApp(ms: seq<Message>)
    ensures AllFromWhatsApp(FlatMap(ms, MessageActions))
    decreases |ms|
  {
    if ms != [] {
      MessagesFromWhatsApp(ms[..|ms| - 1]);
      MessageFromWhatsApp(ms[|ms| - 1]);
    }
  }

  lemma {:induction false} ChangesFromWhatsApp(cs: seq<Change>)
    ensures AllFromWhatsApp(FlatMap(cs, ChangeActions))
    decreases |cs|
  {
    if cs != [] {
      ChangesFromWhatsApp(cs[..|cs| - 1]);
      var c := cs[|cs| - 1];
      if c.field == Some("messages") && c.value.Some? && c.value.value.messages.Some? {
        MessagesFromWhatsApp(c.value.value.messages.value);
      }
    }
  }

  lemma {:induction false} EntriesFromWhatsApp(es: seq<Entry>)
    ensures AllFromWhatsApp(FlatMap(es, EntryActions))
    decreases |es|
  {
    if es != [] {
      EntriesFromWhatsApp(es[..|es| - 1]);
      var e := es[|es| - 1];
      if e.changes.Some? {
        ChangesFromWhatsApp(e.changes.value);
      }
    }
  }

  /** Whatever the payload, the service only ever hears of senders in `whatsapp:+` form. */
  lemma PayloadFromWhatsApp(p: Payload)
    ensures AllFromWhatsApp(PayloadActions(p))
  {
    if p.entry.Some? {
      EntriesFromWhatsApp(p.entry.value);
    }
  }

  // ---------------------------------------------------------------------
  // Exceptions and the stored state

  /** Work done before an exception stays done, and nothing after it happens. */
  lemma RaiseKeepsEarlierWork(s: WhatsAppService.State, before: seq<Action>, after: seq<Action>, mediaUrlOf: string -> Option<string>, now: int)
    requires !RunActions(s, before, mediaUrlOf, now).raised
    ensures RunActions(s, before + [Raise] + after, mediaUrlOf, now) == Run(RunActions(s, before, mediaUrlOf, now).state, true)
  {
    RunAppend(s, before + [Raise], after, mediaUrlOf, now);
    assert (before + [Raise])[..|before|] == before;
  }

  /** A signed payload whose first change has no `field` is answered 500 with nothing changed. */
  lemma MissingFieldFails(s: WhatsAppService.State, header: Option<string>, content: string, secret: string,
                          hmac: (string, string) -> string, payload: Payload, mediaUrlOf: string -> Option<string>, now: int)
    requires header == Some(ExpectedSignature(content, secret, hmac))
    requires payload.entry.Some? && |payload.entry.value| > 0
    requires payload.entry.value[0].changes.Some? && |payload.entry.value[0].changes.value| > 0
    requires payload.entry.value[0].changes.value[0].field.None?
    ensures HandleResult(s, header, content, secret, hmac, payload, mediaUrlOf, now) == Handled(ServerError, s)
  {
    SignatureValidIff(header, content, secret, hmac);
    var es := payload.entry.value;
    var cs := es[0].changes.value;
    FlatMapCons(cs, ChangeActions);
    FlatMapCons(es, EntryActions);
    var rest := FlatMap(cs[1..], ChangeActions) + FlatMap(es[1..], EntryActions);
    assert PayloadActions(payload) == [] + [Raise] + rest;
    RaiseKeepsEarlierWork(s, [], rest, mediaUrlOf, now);
  }

  /** A run of service calls keeps the stores consistent (ids in order, the cache and the queue pointing at stored rows). */
  lemma {:induction false} RunKeepsConsistent(s: WhatsAppService.State, actions: seq<Action>, mediaUrlOf: string -> Option<string>, now: int)
    requires WhatsAppServiceProperties.Consistent(s)
    ensures WhatsAppServiceProperties.Consistent(RunActions(s, actions, mediaUrlOf, now).state)
    decreases |actions|
  {
    if actions != [] {
      RunKeepsConsistent(s, actions[..|actions| - 1], mediaUrlOf, now);
      var r := RunActions(s, actions[..|actions| - 1], mediaUrlOf, now);
      PerformKeepsConsistent(r.state, actions[|actions| - 1], mediaUrlOf, now);
    }
  }

  lemma PerformKeepsConsistent(s: WhatsAppService.State, a: Action, mediaUrlOf: string -> Option<string>, now: int)
    requires WhatsAppServiceProperties.Consistent(s)
    ensures WhatsAppServiceProperties.Consistent(Perform(s, a, mediaUrlOf, now))
  {
    match a
    case TextAction(from, body) =>
      WhatsAppServiceProperties.MessagesKeepConsistent(s, from, body, "", "", "", now);
    case MediaAction(from, mediaId, mimeType, filename) =>
      var url := mediaUrlOf(mediaId);
      if Truthy(url) {
        WhatsAppServiceProperties.MessagesKeepConsistent(s, from, "", url.value, mimeType, filename, now);
      }
    case Raise =>
  }

  /** Whatever `handle` answers, it leaves the stores consistent. */
  lemma HandleKeepsConsistent(s: WhatsAppService.State, header: Option<string>, content: string, secret: string,
                              hmac: (string, string) -> string, payload: Payload, mediaUrlOf: string -> Option<string>, now: int)
    requires WhatsAppServiceProperties.Consistent(s)
    ensures WhatsAppServiceProperties.Consistent(HandleResult(s, header, content, secret, hmac, payload, mediaUrlOf, now).state)
  {
    RunKeepsConsistent(s, PayloadActions(payload), mediaUrlOf, now);
  }

  // ---------------------------------------------------------------------
  // End to end

  /** The payload Meta posts for one message. */
  function OneMessage(m: Message): Payload
  {
    Payload(Some([Entry(Some([Change(Some("messages"), Some(Value(Some([m]))))]))]))
  }

  lemma OneMessageActions(m: Message)
    ensures PayloadActions(OneMessage(m)) == MessageActions(m)
  {
    var c := Change(Some("messages"), Some(Value(Some([m]))));
    var e := Entry(Some([c]));
    assert [m][..0] == [] && [c][..0] == [] && [e][..0] == [];
    assert FlatMap([m], MessageActions) == MessageActions(m);
    assert FlatMap([c], ChangeActions) == MessageActions(m);
    assert FlatMap([e], EntryActions) == MessageActions(m);
  }

  /** A signed payload of one message is answered 200 once the message's one call is made. */
  lemma OneCallAccepted(s: WhatsAppService.State, header: Option<string>, content: string, secret: string,
                        hmac: (string, string) -> string, m: Message, a: Action, mediaUrlOf: string -> Option<string>, now: int)
    requires header == Some(ExpectedSignature(content, secret, hmac))
    requires MessageActions(m) == [a] && !a.Raise?
    ensures HandleResult(s, header, content, secret, hmac, OneMessage(m), mediaUrlOf, now) == Handled(Accepted, Perform(s, a, mediaUrlOf, now))
  {
    SignatureValidIff(header, content, secret, hmac);
    OneMessageActions(m);
    RunSingle(s, a, mediaUrlOf, now);
  }

  lemma RunSingle(s: WhatsAppService.State, a: Action, mediaUrlOf: string -> Option<string>, now: int)
    requires !a.Raise?
    ensures RunActions(s, [a], mediaUrlOf, now) == Run(Perform(s, a, mediaUrlOf, now), false)
  {
    assert [a][..0] == [];
  }

  /** A signed PDF document is stored for the formatted sender and answered 200. */
  lemma PdfDocumentStored(s: WhatsAppService.State, header: Option<string>, content: string, secret: string,
                          hmac: (string, string) -> string, m: Message, d: Media, url: string,
                          mediaUrlOf: string -> Option<string>, now: int)
    requires header == Some(ExpectedSignature(content, secret, hmac))
    requires Truthy(m.from) && Truthy(m.id)
    requires m.text.None? && m.document == Some(d) && Truthy(d.id) && d.mimeType == Some(WhatsAppService.PdfMimeType)
    requires mediaUrlOf(d.id.value) == Some(url) && Truthy(Some(url))
    ensures HandleResult(s, header, content, secret, hmac, OneMessage(m), mediaUrlOf, now)
      == Handled(Accepted, WhatsAppService.Upload(s, "whatsapp:+" + m.from.value, url, d.filename.GetOr("document"), now))
  {
    DocumentDefaults(m, d);
    var a := MediaAction("whatsapp:+" + m.from.value, d.id.value, WhatsAppService.PdfMimeType, d.filename.GetOr("document"));
    OneCallAccepted(s, header, content, secret, hmac, m, a, mediaUrlOf, now);
  }

  /** A signed text is handed to the service as the text of the formatted sender and answered 200. */
  lemma TextHandedOver(s: WhatsAppService.State, header: Option<string>, content: string, secret: string,
                       hmac: (string, string) -> string, m: Message, body: string,
                       mediaUrlOf: string -> Option<string>, now: int)
    requires header == Some(ExpectedSignature(content, secret, hmac))
    requires Truthy(m.from) && Truthy(m.id) && m.text == Some(TextPart(Some(body)))
    ensures HandleResult(s, header, content, secret, hmac, OneMessage(m), mediaUrlOf, now)
      == Handled(Accepted, WhatsAppService.TextMessage(s, "whatsapp:+" + m.from.value, body, now))
  {
    TextFirst(m, body);
    OneCallAccepted(s, header, content, secret, hmac, m, TextAction("whatsapp:+" + m.from.value, body), mediaUrlOf, now);
  }
}

/**
 * The messaging provider as the rest of the application sees it: text
 * and media messages to a WhatsApp address, each reported delivered or
 * not and never raising.  Whether the provider accepts a message is not
 * known in advance, so each send is given its outcome.
 */
module Messaging {
  import opened Wrappers

  /** One outgoing message. */
  datatype Message =
    | Text(to: string, body: string)
    | Media(to: string, url: string, caption: Option<string>)

  /** The messages handed to the provider, in order. */
  class Outbox {
    var sent: seq<Message>

    constructor()
      ensures sent == []
    {
      sent := [];
    }

    /** `sendText`: the message is handed over; `accepted` is the provider's answer. */
    method SendText(to: string, body: string, accepted: bool) returns (ok: bool)
      modifies this
      ensures sent == old(sent) + [Text(to, body)]
      ensures ok == accepted
    {
      sent := sent + [Text(to, body)];
      ok := accepted;
    }

    /** `sendMedia`: the link is handed over with its caption; `accepted` is the provider's answer. */
    method SendMedia(to: string, url: string, caption: Option<string>, accepted: bool) returns (ok: bool)
      modifies this
      ensures sent == old(sent) + [Media(to, url, caption)]
      ensures ok == accepted
    {
      sent := sent + [Media(to, url, caption)];
      ok := accepted;
    }
  }
}

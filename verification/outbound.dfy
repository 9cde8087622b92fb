/**
 * The address and length rules of `send_whatsapp_message`: the recipient
 * is turned into a `whatsapp:` address with a leading `+`, and a body
 * longer than 1500 characters is cut to 1500 followed by "...".  The send
 * itself goes to the messaging service and is not part of this model.
 */
module Outbound {
  import opened Values
  import opened Text

  const WhatsAppPrefix := "whatsapp:"
  const BodyLimit: nat := 1500

  /** The recipient address: unchanged when it already has the `whatsapp:`
      prefix, otherwise given a `+` when it has none and then the prefix. */
  function Recipient(to: string): (r: string)
    ensures StartsWith(r, WhatsAppPrefix)
  {
    if StartsWith(to, WhatsAppPrefix) then to
    else WhatsAppPrefix + (if StartsWith(to, "+") then to else "+" + to)
  }

  /** The number is kept: after the prefix comes the given text, with a `+`
      in front when it had none. */
  lemma RecipientKeepsNumber(to: string)
    requires !StartsWith(to, WhatsAppPrefix)
    ensures var r := Recipient(to);
      && StartsWith(r[|WhatsAppPrefix|..], "+")
      && (StartsWith(to, "+") ==> r[|WhatsAppPrefix|..] == to)
      && (!StartsWith(to, "+") ==> r[|WhatsAppPrefix| + 1..] == to)
  {
    var r := Recipient(to);
    if StartsWith(to, "+") {
      assert r[|WhatsAppPrefix|..] == to;
    } else {
      assert r[|WhatsAppPrefix|..] == "+" + to;
    }
  }

  /** Normalizing an address twice changes nothing more. */
  lemma RecipientIdempotent(to: string)
    ensures Recipient(Recipient(to)) == Recipient(to)
  {
  }

  /** The body as sent. */
  function OutgoingBody(message: string): (body: string)
  {
    Truncate(message, BodyLimit)
  }

  /** A body is at most 1503 characters, keeps the message's first 1500,
      is the message itself when that is short enough, and is not cut again. */
  lemma OutgoingBodyBounds(message: string)
    ensures var body := OutgoingBody(message);
      && |body| <= BodyLimit + 3
      && (|message| <= BodyLimit ==> body == message)
      && (|message| > BodyLimit ==> body[..BodyLimit] == message[..BodyLimit] && body[BodyLimit..] == "...")
      && OutgoingBody(body) == body
  {
    TruncateIdempotent(message, BodyLimit);
  }

  /** The message handed to the messaging service. */
  datatype OutgoingMessage = OutgoingMessage(sender: string, recipient: string, body: string)

  /** What `send_whatsapp_message` sends: nothing when no client is
      configured; otherwise the message from the service number to the
      normalized address with the cut body. */
  function Outgoing(clientAvailable: bool, serviceNumber: string, to: string, message: string)
    : (m: Option<OutgoingMessage>)
    ensures m.Some? <==> clientAvailable
    ensures m.Some? ==> StartsWith(m.value.recipient, WhatsAppPrefix) && |m.value.body| <= BodyLimit + 3
  {
    if !clientAvailable then None
    else Some(OutgoingMessage(serviceNumber, Recipient(to), OutgoingBody(message)))
  }
}

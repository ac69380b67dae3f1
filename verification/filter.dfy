/**
 * The guard at the top of the `messages.upsert` handler: only the first
 * message of a live batch is considered, and only when it has a payload,
 * was not sent by the bot, and carries some text.
 */
module Filter {
  import opened Wrappers
  import opened JsString
  import opened Events

  /** A message that passed the guard. */
  datatype Inbound = Inbound(jid: string, participant: string, text: string)

  datatype Screening =
    | Skip                 // the handler returns early
    | Crash(cause: Cause)  // the handler throws before its `try`
    | Accept(inbound: Inbound)

  /** The extended-text slot, `extendedTextMessage?.text`. */
  function ExtendedTextOf(p: Payload): Option<string> {
    match p.extendedTextMessage
    case None => None
    case Some(e) => e.text
  }

  /** `conversation || extendedTextMessage?.text`, with a falsy result read as no text. */
  function ExtractText(p: Payload): (r: Option<string>)
    ensures r.Some? ==> r.value != []
    ensures r.Some? <==> Truthy(p.conversation) || Truthy(ExtendedTextOf(p))
    ensures Truthy(p.conversation) ==> r == p.conversation
    ensures !Truthy(p.conversation) ==> r.Some? ==> r == ExtendedTextOf(p)
  {
    if Truthy(p.conversation) then p.conversation
    else if Truthy(ExtendedTextOf(p)) then ExtendedTextOf(p)
    else None
  }

  /** The guard: skips every batch that is not live, every first message
      without a payload or sent by the bot, and every message without text;
      an empty live batch throws. */
  function Screen(u: Upsert): (r: Screening)
    ensures r.Crash? <==> u.kind == Notify && u.messages == []
    ensures r.Crash? ==> r.cause == NoFirstMessage
    ensures r.Accept? <==>
      && u.kind == Notify && u.messages != []
      && u.messages[0].message.Some? && !u.messages[0].key.fromMe
      && ExtractText(u.messages[0].message.value).Some?
    ensures r.Accept? ==>
      && r.inbound.jid == u.messages[0].key.remoteJid
      && r.inbound.participant == u.messages[0].key.participant
      && Some(r.inbound.text) == ExtractText(u.messages[0].message.value)
      && r.inbound.text != []
  {
    if u.kind != Notify then Skip
    else if u.messages == [] then Crash(NoFirstMessage)
    else
      var msg := u.messages[0];
      if msg.message.None? || msg.key.fromMe then Skip
      else
        match ExtractText(msg.message.value)
        case None => Skip
        case Some(text) => Accept(Inbound(msg.key.remoteJid, msg.key.participant, text))
  }

  /** Only `messages[0]` matters: the rest of the batch never changes the outcome. */
  lemma ScreenSeesOnlyFirst(kind: string, first: WebMessage, rest: seq<WebMessage>)
    ensures Screen(Upsert(kind, [first] + rest)) == Screen(Upsert(kind, [first]))
  {
    assert ([first] + rest)[0] == first;
  }
}

/**
 * The `messages.upsert` handler of `fixIndex.js`: guard, then the
 * `try`/`catch` dispatch, with no name resolution in between.
 */
module FixIndexBot {
  import opened Wrappers
  import opened JsString
  import opened Events
  import opened Filter
  import opened Router
  import opened Reply

  /** Batches that are not live, first messages without a payload and the
      bot's own messages do nothing; a live batch without a first message
      throws. Otherwise at most one message reaches the chat (every earlier
      attempt failed), every attempt goes to `messages[0].key.remoteJid`, and
      a provider request is made exactly when a command was accepted. */
  function OnMessagesUpsert(u: Upsert, io: Io): (h: Handling)
    ensures u.kind != Notify ==> h == Quiet
    ensures u.kind == Notify && u.messages == [] ==> h == Handling([], [], Unhandled(NoFirstMessage))
    ensures u.messages != [] && (u.messages[0].message.None? || u.messages[0].key.fromMe) ==> h == Quiet
    ensures |h.sends| <= 2
    ensures forall i :: 0 <= i < |h.sends| - 1 ==> !io.deliver(i, h.sends[i])
    ensures forall i :: 0 <= i < |h.sends| ==> u.messages != [] && h.sends[i].to == u.messages[0].key.remoteJid
    ensures h.requests != [] <==> Screen(u).Accept? && !Route(Screen(u).inbound.text).Ignore?
    ensures h.status == Unhandled(NoFirstMessage) <==> u.kind == Notify && u.messages == []
    ensures h.status.Unhandled? ==> h.status.cause == NoFirstMessage || h.status.cause == ApologyUndelivered
  {
    match Screen(u)
    case Skip => Quiet
    case Crash(cause) => Handling([], [], Unhandled(cause))
    case Accept(m) => Dispatch(m.jid, m.text, io)
  }

  /** Batches that are not live, first messages without a payload and the
      bot's own messages produce no request and no message. */
  lemma IgnoredEventsAreQuiet(u: Upsert, io: Io)
    requires
      || u.kind != Notify
      || (u.messages != [] && (u.messages[0].message.None? || u.messages[0].key.fromMe))
    ensures OnMessagesUpsert(u, io) == Quiet
  {
  }

  /** Only `messages[0]` is examined. */
  lemma OnlyFirstMessage(kind: string, first: WebMessage, rest: seq<WebMessage>, io: Io)
    ensures OnMessagesUpsert(Upsert(kind, [first] + rest), io) == OnMessagesUpsert(Upsert(kind, [first]), io)
  {
    ScreenSeesOnlyFirst(kind, first, rest);
  }

  /** A message with neither a non-empty `conversation` nor a non-empty
      extended text does nothing. */
  lemma NoTextNoAction(kind: string, key: MessageKey, p: Payload, rest: seq<WebMessage>, io: Io)
    requires !Truthy(p.conversation) && !Truthy(ExtendedTextOf(p))
    ensures OnMessagesUpsert(Upsert(kind, [WebMessage(key, Some(p))] + rest), io) == Quiet
  {
  }

  /** The non-empty `conversation` wins over the extended text. */
  lemma ConversationPreferred(key: MessageKey, p: Payload, io: Io)
    requires Truthy(p.conversation) && !key.fromMe
    ensures OnMessagesUpsert(Upsert(Notify, [WebMessage(key, Some(p))]), io)
      == Dispatch(key.remoteJid, p.conversation.value, io)
  {
    var u := Upsert(Notify, [WebMessage(key, Some(p))]);
    assert Screen(u) == Accept(Inbound(key.remoteJid, key.participant, p.conversation.value));
  }

  /** Text that starts with neither prefix gets no reply at all, not even the apology. */
  lemma UnroutedTextIsIgnored(u: Upsert, io: Io)
    requires Screen(u).Accept?
    requires !StartsWith(Screen(u).inbound.text, CompletionPrefix)
    requires !StartsWith(Screen(u).inbound.text, ImagePrefix)
    ensures OnMessagesUpsert(u, io) == Quiet
  {
  }

  /** Whatever the batch and the outside world, at most one message reaches
      the chat (only the last attempt can succeed), every attempt goes to
      `messages[0].key.remoteJid`, and a provider request is made exactly
      when a command was accepted. */
  lemma AtMostOneReply(u: Upsert, io: Io)
    ensures var h := OnMessagesUpsert(u, io);
      && |h.sends| <= 2
      && (forall i :: 0 <= i < |h.sends| - 1 ==> !io.deliver(i, h.sends[i]))
      && (forall i :: 0 <= i < |h.sends| ==> h.sends[i].to == u.messages[0].key.remoteJid)
      && (h.requests != [] <==> Screen(u).Accept? && !Route(Screen(u).inbound.text).Ignore?)
  {
  }

  /** End to end: a live text message routed to a completion whose answer
      is delivered gets exactly that trimmed answer back, in its own chat. */
  lemma CompletionRoundTrip(key: MessageKey, text: string, io: Io)
    requires !key.fromMe && Route(text).Ask?
    requires io.complete(Route(text).prompt).Fulfilled?
    requires io.deliver(0, Send(key.remoteJid, Text(Trim(io.complete(Route(text).prompt).value))))
    ensures OnMessagesUpsert(Upsert(Notify, [WebMessage(key, Some(Payload(Some(text), None)))]), io)
      == Handling(
           [ChatCompletion(ChatModel, SystemInstruction, Route(text).prompt)],
           [Send(key.remoteJid, Text(Trim(io.complete(Route(text).prompt).value)))],
           Settled)
  {
    CompletionAnswered(key.remoteJid, text, io);
    ConversationPreferred(key, Payload(Some(text), None), io);
  }

  /** `./ai What is 2+2?` routes to the question `What is 2+2?`. */
  lemma AskExampleRoutes(text: string, question: string)
    // The literals are bound to parameters rather than written inline: the
    // verifier unfolds an inline literal into every term it meets.
    requires text == "./ai What is 2+2?" && question == "What is 2+2?"
    ensures Route(text) == Ask(question)
  {
    assert IsTrimmed(question) by {
      assert question[0] == 'W' && question[|question| - 1] == '?';
    }
    assert text == CompletionPrefix + " " + question + [];
    RouteRoundTrip(" ", question, []);
  }

  /** A direct message "./ai What is 2+2?" answered "4." (or any other
      answer without surrounding whitespace) sends exactly that answer back
      to that chat. */
  lemma AskScenario(key: MessageKey, text: string, question: string, answer: string, io: Io)
    requires !key.fromMe
    // Literals bound to parameters, as in AskExampleRoutes.
    requires text == "./ai What is 2+2?" && question == "What is 2+2?" && IsTrimmed(answer)
    requires io.complete(question) == Fulfilled(answer)
    requires io.deliver(0, Send(key.remoteJid, Text(answer)))
    ensures OnMessagesUpsert(Upsert(Notify, [WebMessage(key, Some(Payload(Some(text), None)))]), io)
      == Handling([ChatCompletion(ChatModel, SystemInstruction, question)], [Send(key.remoteJid, Text(answer))], Settled)
  {
    AskExampleRoutes(text, question);
    TrimFixesTrimmed(answer);
    CompletionRoundTrip(key, text, io);
  }

  /** A failing "./ai ping" makes one completion request for `ping`, sends
      the apology, once, and nothing else, and settles when that apology is
      delivered. */
  lemma FailureScenario(key: MessageKey, text: string, ping: string, io: Io)
    requires !key.fromMe
    // Literals bound to parameters, as in AskExampleRoutes.
    requires text == "./ai ping" && ping == "ping"
    requires io.complete(ping).Rejected?
    ensures OnMessagesUpsert(Upsert(Notify, [WebMessage(key, Some(Payload(Some(text), None)))]), io).requests
      == [ChatCompletion(ChatModel, SystemInstruction, ping)]
    ensures OnMessagesUpsert(Upsert(Notify, [WebMessage(key, Some(Payload(Some(text), None)))]), io).sends
      == [Send(key.remoteJid, Text(ApologyText))]
    ensures OnMessagesUpsert(Upsert(Notify, [WebMessage(key, Some(Payload(Some(text), None)))]), io).status == Settled
      <==> io.deliver(0, Send(key.remoteJid, Text(ApologyText)))
  {
    assert IsTrimmed(ping) by {
      assert ping[0] == 'p' && ping[|ping| - 1] == 'g';
    }
    assert Route(text) == Ask(ping) by {
      assert text == CompletionPrefix + " " + ping + [];
      RouteRoundTrip(" ", ping, []);
    }
    ProviderFailureApologises(key.remoteJid, text, io);
    ConversationPreferred(key, Payload(Some(text), None), io);
  }
}

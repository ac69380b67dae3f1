/**
 * The `messages.upsert` handler of `index.js`: the same guard and dispatch
 * as `fixIndex.js`, with sender resolution for the log in between. The
 * group metadata call sits outside the `try`, so its failure ends the
 * handler before any command runs.
 */
module IndexBot {
  import opened Wrappers
  import opened JsString
  import opened Events
  import opened Filter
  import opened Router
  import opened Reply
  import opened Sender
  import FixIndexBot

  function OnMessagesUpsert(u: Upsert, io: Io): (h: Handling)
    ensures Screen(u).Skip? ==> h == Quiet
    ensures Screen(u).Crash? ==> h == Handling([], [], Unhandled(NoFirstMessage))
    ensures Screen(u).Accept? && IsGroup(Screen(u).inbound.jid) && io.groupMetadata(Screen(u).inbound.jid).Rejected? ==>
      h == Handling([], [], Unhandled(GroupMetadataFailed))
    ensures Screen(u).Accept? && !(IsGroup(Screen(u).inbound.jid) && io.groupMetadata(Screen(u).inbound.jid).Rejected?) ==>
      h == Dispatch(Screen(u).inbound.jid, Screen(u).inbound.text, io)
  {
    match Screen(u)
    case Skip => Quiet
    case Crash(cause) => Handling([], [], Unhandled(cause))
    case Accept(m) =>
      match ResolveSender(m.jid, m.participant, io)
      case Failure(cause) => Handling([], [], Unhandled(cause))
      case Success(_) => Dispatch(m.jid, m.text, io)
  }

  /** The two entry points behave identically except when a group's
      metadata lookup throws: then `index.js` aborts with no request, no
      reply and no apology, while `fixIndex.js` goes on to dispatch. */
  lemma AgreesWithFixIndex(u: Upsert, io: Io)
    ensures
      var metadataThrows := Screen(u).Accept? && IsGroup(Screen(u).inbound.jid)
        && io.groupMetadata(Screen(u).inbound.jid).Rejected?;
      && (!metadataThrows ==> OnMessagesUpsert(u, io) == FixIndexBot.OnMessagesUpsert(u, io))
      && (metadataThrows ==> OnMessagesUpsert(u, io) == Handling([], [], Unhandled(GroupMetadataFailed)))
  {
  }

  /** Name lookups never change what is sent: whatever `fetchName` does, the
      handler's outcome is the same. */
  lemma NamesDoNotMatter(u: Upsert, io: Io, names: string -> Promise<Option<string>>)
    ensures OnMessagesUpsert(u, io) == OnMessagesUpsert(u, io.(fetchName := names))
  {
  }

  /** A group message "./img a red bicycle" whose image is produced and
      delivered sends one image to the group, captioned with the prompt. */
  lemma DrawScenario(key: MessageKey, text: string, prompt: string, io: Io, bytes: seq<byte>)
    requires !key.fromMe && IsGroup(key.remoteJid)
    // The literals are bound to parameters rather than written inline: the
    // verifier unfolds an inline literal into every term it meets.
    requires text == "./img a red bicycle" && prompt == "a red bicycle"
    requires io.groupMetadata(key.remoteJid).Fulfilled?
    requires io.generateImage(prompt) == Fulfilled(bytes)
    requires io.deliver(0, Send(key.remoteJid, Image(bytes, Caption(prompt))))
    ensures OnMessagesUpsert(Upsert(Notify, [WebMessage(key, Some(Payload(Some(text), None)))]), io)
      == Handling(
           [ImageGeneration(ImageModel, prompt, ImageCount, ImageSize)],
           [Send(key.remoteJid, Image(bytes, Caption(prompt)))],
           Settled)
  {
    assert IsTrimmed(prompt) by {
      assert prompt[0] == 'a' && prompt[|prompt| - 1] == 'e';
    }
    assert Route(text) == Draw(prompt) by {
      assert text == ImagePrefix + " " + prompt + [];
      RouteRoundTrip(" ", prompt, []);
    }
    ImageAnswered(key.remoteJid, text, io);
    FixIndexBot.ConversationPreferred(key, Payload(Some(text), None), io);
    AgreesWithFixIndex(Upsert(Notify, [WebMessage(key, Some(Payload(Some(text), None)))]), io);
  }
}

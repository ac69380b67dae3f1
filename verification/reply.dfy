/**
 * The `try`/`catch` block of the `messages.upsert` handler: ask the
 * provider for what the command wants, send the answer back to the
 * conversation it came from, and send a fixed apology when anything inside
 * the block throws.
 */
module Reply {
  import opened Wrappers
  import opened JsString
  import opened Events
  import opened Router

  /** The fixed apology sent from the `catch` block. */
  const ApologyText: string := "\U{26A0}\U{FE0F} Maaf, terjadi kesalahan saat menjawab."

  /** The caption text in front of the quoted prompt. */
  const CaptionLead: string := "\U{1F5BC}\U{FE0F} Hai Bestie, ini Gambar untuk: \""

  /** The caption of a generated image: the prompt, verbatim, in double
      quotes after the fixed greeting, so reading it back gives the prompt. */
  function Caption(prompt: string): (c: string)
    ensures StartsWith(c, CaptionLead) && c[|c| - 1] == '"'
    ensures PromptOfCaption(c) == Some(prompt)
  {
    var c := CaptionLead + prompt + "\"";
    assert c[..|CaptionLead|] == CaptionLead;
    assert c[|CaptionLead|..|c| - 1] == prompt;
    c
  }

  /** Reads the prompt back out of a caption. */
  function PromptOfCaption(caption: string): Option<string> {
    if StartsWith(caption, CaptionLead) && |caption| > |CaptionLead| && caption[|caption| - 1] == '"' then
      Some(caption[|CaptionLead|..|caption| - 1])
    else
      None
  }

  /** Different prompts give different captions. */
  lemma CaptionInjective(p: string, q: string)
    requires Caption(p) == Caption(q)
    ensures p == q
  {
    assert Some(p) == PromptOfCaption(Caption(p)) == PromptOfCaption(Caption(q)) == Some(q);
  }

  /** The provider requests a command makes: a single-turn chat completion
      or a request for one square image, carrying the prompt unchanged. */
  function RequestsFor(cmd: Command): (rs: seq<ProviderRequest>)
    ensures cmd.Ignore? <==> rs == []
    ensures |rs| <= 1
    ensures forall r :: r in rs ==> r.prompt == cmd.prompt
    ensures forall r :: r in rs ==> (r.ImageGeneration? <==> cmd.Draw?)
    ensures forall r :: r in rs && r.ChatCompletion? ==> r.system == SystemInstruction
    ensures forall r :: r in rs && r.ImageGeneration? ==> r.count == 1 && r.size == "1024x1024"
  {
    match cmd
    case Ask(prompt) => [ChatCompletion(ChatModel, SystemInstruction, prompt)]
    case Draw(prompt) => [ImageGeneration(ImageModel, prompt, ImageCount, ImageSize)]
    case Ignore => []
  }

  /** What the `try` block sets out to send, before any `sendMessage`. */
  datatype Decision =
    | Silent               // no command matched
    | Answer(message: Outgoing)
    | Apologise            // the provider call threw

  /** The reply decision for a routed command, given how the provider settles. */
  function Decide(cmd: Command, io: Io): (d: Decision)
    ensures d.Silent? <==> cmd.Ignore?
    ensures d.Apologise? <==>
      || (cmd.Ask? && io.complete(cmd.prompt).Rejected?)
      || (cmd.Draw? && io.generateImage(cmd.prompt).Rejected?)
    ensures d.Answer? && cmd.Ask? ==>
      && io.complete(cmd.prompt).Fulfilled?
      && d.message == Text(Trim(io.complete(cmd.prompt).value))
      && IsTrimmed(d.message.text)
    ensures d.Answer? && cmd.Draw? ==>
      && io.generateImage(cmd.prompt).Fulfilled?
      && d.message.Image?
      && d.message.bytes == io.generateImage(cmd.prompt).value
      && PromptOfCaption(d.message.caption) == Some(cmd.prompt)
  {
    match cmd
    case Ignore => Silent
    case Ask(prompt) =>
      (match io.complete(prompt)
       case Fulfilled(content) => Answer(Text(Trim(content)))
       case Rejected => Apologise)
    case Draw(prompt) =>
      (match io.generateImage(prompt)
       case Fulfilled(bytes) => Answer(Image(bytes, Caption(prompt)))
       case Rejected => Apologise)
  }

  /** The `catch` block: one apology to the conversation, as send attempt
      number `attempt` of this run; if that send throws too, the handler's
      promise rejects. */
  function SendApology(requests: seq<ProviderRequest>, jid: string, attempt: nat, deliver: (nat, Send) -> bool): (h: Handling)
    ensures h.requests == requests
    ensures h.sends == [Send(jid, Text(ApologyText))]
    ensures h.status.Unhandled? <==> !deliver(attempt, Send(jid, Text(ApologyText)))
    ensures h.status.Unhandled? ==> h.status.cause == ApologyUndelivered
  {
    var apology := Send(jid, Text(ApologyText));
    Handling(requests, [apology], if deliver(attempt, apology) then Settled else Unhandled(ApologyUndelivered))
  }

  /** Carries out a decision: an answer whose send throws falls into the
      `catch` block and is followed by the apology. Send attempts are
      numbered from 0 within the run. */
  function Deliver(requests: seq<ProviderRequest>, jid: string, d: Decision, deliver: (nat, Send) -> bool): (h: Handling)
    ensures h.requests == requests
    ensures |h.sends| <= 2
    ensures forall i :: 0 <= i < |h.sends| ==> h.sends[i].to == jid
    ensures forall i :: 0 <= i < |h.sends| - 1 ==> !deliver(i, h.sends[i])
    ensures d.Silent? <==> h.sends == []
    ensures d.Silent? ==> h.status == Settled
    ensures d.Answer? ==> h.sends[0] == Send(jid, d.message)
    ensures d.Answer? && deliver(0, Send(jid, d.message)) ==> h.sends == [Send(jid, d.message)] && h.status == Settled
    ensures d.Answer? && !deliver(0, Send(jid, d.message)) ==>
      h.sends == [Send(jid, d.message), Send(jid, Text(ApologyText))]
    ensures d.Apologise? ==> h.sends == [Send(jid, Text(ApologyText))]
    ensures h.status.Unhandled? ==>
      && h.status.cause == ApologyUndelivered
      && h.sends[|h.sends| - 1] == Send(jid, Text(ApologyText))
      && !deliver(|h.sends| - 1, h.sends[|h.sends| - 1])
    ensures (d.Apologise? || |h.sends| == 2) ==>
      && h.sends[|h.sends| - 1] == Send(jid, Text(ApologyText))
      && (h.status == Settled <==> deliver(|h.sends| - 1, h.sends[|h.sends| - 1]))
  {
    match d
    case Silent => Handling(requests, [], Settled)
    case Apologise => SendApology(requests, jid, 0, deliver)
    case Answer(m) =>
      var s := Send(jid, m);
      if deliver(0, s) then Handling(requests, [s], Settled)
      else
        var fallback := SendApology(requests, jid, 1, deliver);
        Handling(requests, [s] + fallback.sends, fallback.status)
  }

  /** The whole `try`/`catch` block for one accepted message. */
  function Dispatch(jid: string, text: string, io: Io): (h: Handling)
    ensures h.requests == [] <==> Route(text).Ignore?
    ensures h.requests == [] ==> h == Quiet
    ensures |h.sends| <= 2
    ensures forall i :: 0 <= i < |h.sends| ==> h.sends[i].to == jid
    ensures forall i :: 0 <= i < |h.sends| - 1 ==> !io.deliver(i, h.sends[i])
    ensures h.status.Unhandled? ==> h.status.cause == ApologyUndelivered
  {
    var cmd := Route(text);
    Deliver(RequestsFor(cmd), jid, Decide(cmd, io), io.deliver)
  }

  /** A completion that succeeds and is delivered: one request with the
      prompt, then exactly one text message, the trimmed first choice, to the
      originating conversation. */
  lemma CompletionAnswered(jid: string, text: string, io: Io)
    requires Route(text).Ask?
    requires io.complete(Route(text).prompt).Fulfilled?
    requires io.deliver(0, Send(jid, Text(Trim(io.complete(Route(text).prompt).value))))
    ensures Dispatch(jid, text, io) == Handling(
      [ChatCompletion(ChatModel, SystemInstruction, Route(text).prompt)],
      [Send(jid, Text(Trim(io.complete(Route(text).prompt).value)))],
      Settled)
  {
  }

  /** An image that is generated, fetched and delivered: one image to the
      originating conversation whose caption quotes the prompt. */
  lemma ImageAnswered(jid: string, text: string, io: Io)
    requires Route(text).Draw?
    requires io.generateImage(Route(text).prompt).Fulfilled?
    requires io.deliver(0, Send(jid, Image(io.generateImage(Route(text).prompt).value, Caption(Route(text).prompt))))
    ensures Dispatch(jid, text, io) == Handling(
      [ImageGeneration(ImageModel, Route(text).prompt, ImageCount, ImageSize)],
      [Send(jid, Image(io.generateImage(Route(text).prompt).value, Caption(Route(text).prompt)))],
      Settled)
  {
  }

  /** A provider failure (for an image, in the generation or the download)
      sends exactly one apology and nothing else, after the one request; the
      handler settles unless the apology's own send throws. */
  lemma ProviderFailureApologises(jid: string, text: string, io: Io)
    requires
      || (Route(text).Ask? && io.complete(Route(text).prompt).Rejected?)
      || (Route(text).Draw? && io.generateImage(Route(text).prompt).Rejected?)
    ensures Dispatch(jid, text, io).requests == RequestsFor(Route(text))
    ensures Dispatch(jid, text, io).sends == [Send(jid, Text(ApologyText))]
    ensures Dispatch(jid, text, io).status == Settled <==> io.deliver(0, Send(jid, Text(ApologyText)))
  {
  }

  /** An answer whose own send throws is followed by exactly one apology,
      the second attempt, and the handler settles unless that send throws too. */
  lemma SendFailureApologises(jid: string, text: string, io: Io)
    requires Decide(Route(text), io).Answer?
    requires !io.deliver(0, Send(jid, Decide(Route(text), io).message))
    ensures Dispatch(jid, text, io).sends ==
      [Send(jid, Decide(Route(text), io).message), Send(jid, Text(ApologyText))]
    ensures Dispatch(jid, text, io).status == Settled <==> io.deliver(1, Send(jid, Text(ApologyText)))
  {
  }
}

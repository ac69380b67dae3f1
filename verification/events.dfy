/**
 * The data the bot's handlers see and produce: `messages.upsert` batches,
 * outgoing replies, provider requests, and the results of the external
 * calls the handlers await.
 */
module Events {
  import opened Wrappers

  newtype byte = b: int | 0 <= b < 256

  /** How an awaited external call settles. A rejection carries no detail:
      the handlers only log it. */
  datatype Promise<+T> = Fulfilled(value: T) | Rejected

  /** `msg.key`: the conversation, whether the bot itself sent the message,
      and, in a group, the participant who wrote it. */
  datatype MessageKey = MessageKey(remoteJid: string, fromMe: bool, participant: string)

  /** `msg.message.extendedTextMessage`, whose `text` may be missing. */
  datatype ExtendedText = ExtendedText(text: Option<string>)

  /** The two text slots of `msg.message`. */
  datatype Payload = Payload(conversation: Option<string>, extendedTextMessage: Option<ExtendedText>)

  /** One entry of the `messages` array; `message` is absent for stubs such as
      protocol or deleted messages. */
  datatype WebMessage = WebMessage(key: MessageKey, message: Option<Payload>)

  /** The argument of a `messages.upsert` event. */
  datatype Upsert = Upsert(kind: string, messages: seq<WebMessage>)

  /** The `type` of a live upsert. */
  const Notify: string := "notify"

  /** What one `sock.sendMessage` call carries. */
  datatype Outgoing = Text(text: string) | Image(bytes: seq<byte>, caption: string)

  /** One `sock.sendMessage(to, content)` attempt. */
  datatype Send = Send(to: string, content: Outgoing)

  /** One request to the AI provider, with the fixed request parameters. */
  datatype ProviderRequest =
    | ChatCompletion(model: string, system: string, prompt: string)
    | ImageGeneration(model: string, prompt: string, count: nat, size: string)

  const ChatModel: string := "gpt-4o"
  const SystemInstruction: string := "Kamu adalah asisten WhatsApp pintar."
  const ImageModel: string := "dall-e-3"
  const ImageCount: nat := 1
  const ImageSize: string := "1024x1024"

  /** Why a handler's promise rejected instead of returning. */
  datatype Cause =
    | NoFirstMessage        // `messages[0]` is undefined, so reading `.message` throws
    | GroupMetadataFailed   // `sock.groupMetadata` threw outside the `try`
    | ApologyUndelivered    // the apology `sendMessage` inside `catch` threw

  datatype Status = Settled | Unhandled(cause: Cause)

  /** Everything observable about one run of the `messages.upsert` handler:
      the provider requests it made, every `sendMessage` it attempted, in
      order, and how its promise ended. */
  datatype Handling = Handling(requests: seq<ProviderRequest>, sends: seq<Send>, status: Status)

  /** A run that returned early and did nothing. */
  const Quiet: Handling := Handling([], [], Settled)

  /** The outside world as the handlers see it: how each awaited call
      settles, as a function of its argument. `complete` covers the chat
      request and the read of `choices[0].message.content` from its reply;
      `generateImage` covers the generation request, the read of the
      returned URL and its download. `deliver(n, s)` says whether send
      attempt number `n` of a handler run (counted from 0), carrying `s`,
      resolves; a retried identical send may thus fare differently. */
  datatype Io = Io(
    groupMetadata: string -> Promise<string>,
    fetchName: string -> Promise<Option<string>>,
    complete: string -> Promise<string>,
    generateImage: string -> Promise<seq<byte>>,
    deliver: (nat, Send) -> bool)
}

# WhatsApp AI bot: message pipeline and reconnect policy

A model of the decision logic of a WhatsApp bot that answers `./ai <prompt>`
with an OpenAI chat completion and `./img <prompt>` with a generated image.
The bot has two entry points, `index.js` and `fixIndex.js`. They share one
pipeline. `index.js` also looks up display names for its log.

The model covers:

- the guard at the top of the `messages.upsert` handler (`Filter`);
- the command router and prompt extraction, including the ECMAScript
  `trim`, `startsWith` and first-occurrence `replace` it relies on
  (`Router`, `JsString`);
- the `try`/`catch` block that asks the provider, replies, or apologises
  (`Reply`);
- the group check and name fallback of `index.js` (`Sender`);
- the `connection.update` restart decision (`Reconnect`);
- the two handlers as wholes (`IndexBot`, `FixIndexBot`).

Every external call the handlers await is a field of an `Io` record.
Each field is a function from the call's argument to how it settles:
`Fulfilled(value)` or `Rejected`. The calls are `groupMetadata`,
`fetchName`, the chat completion, the image generation with its download,
and `sendMessage`. The chat completion field also covers reading
`choices[0].message.content` from the reply (index.js:79); a reply without
it counts as `Rejected`. The `sendMessage` field takes the attempt number
within the run (0 for the first send) as well as the message. So a retried
send with the same content may fare differently. One handler run yields a `Handling` record with three
parts:

- the provider requests made;
- every `sendMessage` attempted, in order;
- whether the handler's promise settled or rejected, and why.

Behaviour the model keeps from the code:

- An empty prompt (`./ai`, `./img   `) is forwarded to the provider. It is
  not rejected.
- In `index.js` the `groupMetadata` call sits before the `try`. If it
  throws, the handler rejects with no reply and no apology. So sender
  resolution can block dispatch (`IndexBot.AgreesWithFixIndex`).
- If the apology `sendMessage` in the `catch` block throws, the handler's
  promise rejects (`Unhandled(ApologyUndelivered)`).
- An empty live batch makes `messages[0].message` throw
  (`Unhandled(NoFirstMessage)`).
- The connection handler keeps no state. Each update gets a decision:
  restart, stay logged out, announce, or nothing.
- `DisconnectReason.loggedOut` is the messaging library's status code 401.
- Whitespace for `trim` is the ECMAScript WhiteSpace and LineTerminator
  set.

## Model

| member | source | states |
|---|---|---|
| JsString.Trim | index.js:62 | the prompt has no whitespace at either end and is a slice of the input with only whitespace cut from each side |
| JsString.TrimCharacterization | index.js:79 | a string is the trim of `s` exactly when it is `s` with a leading and a trailing whitespace run removed and no whitespace left at its ends (both directions) |
| JsString.TrimOfUnique | index.js:62 | at most one string is a trimming of a given string |
| JsString.TrimSurrounded | index.js:83 | trimming whitespace + trimmed text + whitespace gives back exactly that text |
| JsString.TrimFixesTrimmed | index.js:79 | a string without surrounding whitespace is unchanged by trim |
| JsString.TrimIdempotent | fixIndex.js:37 | trimming twice equals trimming once |
| JsString.IndexFrom | fixIndex.js:37 | the search returns the least index at or after the start where the pattern occurs, or none when it occurs nowhere there |
| JsString.IndexOf | index.js:62 | the first occurrence of the pattern: it occurs there and at no earlier index; none exactly when it occurs nowhere |
| JsString.ReplaceFirst | index.js:62 | an absent pattern leaves the text unchanged; otherwise only the first occurrence is replaced, and the text around it is kept |
| JsString.ReplaceLeadingOccurrence | index.js:62 | when the text starts with the pattern, first-occurrence `replace` swaps exactly that leading copy |
| Router.Route | index.js:61-83 | `./ai` is matched first and wins; `./img` routes only without `./ai`; anything else is ignored; the prompt is the text after the prefix, trimmed |
| Router.PromptIsTrimmedRemainder | index.js:62 | `text.replace(prefix,'').trim()` equals dropping the leading prefix and trimming, whenever the text starts with the prefix |
| Router.PromptIsTrimmed | fixIndex.js:58 | a routed prompt has no surrounding whitespace and re-trimming it changes nothing |
| Router.RouteRoundTrip | fixIndex.js:36-58 | prefix + whitespace + trimmed prompt + whitespace routes back to exactly that prompt, for both commands |
| Router.RouteDecomposes | index.js:82-83 | every routed text is the prefix, a whitespace run, the prompt and a whitespace run |
| Router.NoWordBoundary | index.js:61-62 | text glued to `./ai` is the prompt: `./aimage` asks for `mage` |
| Router.EmptyPromptIsForwarded | fixIndex.js:37 | a bare or whitespace-only `./ai` or `./img` still routes, with an empty prompt |
| Filter.ExtractText | index.js:40-41 | a non-empty `conversation` is the text; otherwise a non-empty extended text; otherwise there is no text |
| Filter.Screen | index.js:35-41 | accepts exactly a live batch whose first message has a payload, is not from the bot and has text; an empty live batch throws |
| Filter.ScreenSeesOnlyFirst | index.js:36 | messages after the first never change the guard's outcome |
| Reply.Caption | index.js:105 | the image caption starts with the fixed greeting, ends in a double quote and holds the prompt verbatim: reading it back yields the prompt |
| Reply.CaptionInjective | fixIndex.js:80 | different prompts give different captions |
| Reply.RequestsFor | index.js:63-98 | a matched command makes exactly one request, none otherwise; the request carries the prompt unchanged; a completion sends the fixed system instruction; an image request asks for one 1024x1024 image |
| Reply.Decide | index.js:79-106 | no command means silence; a provider failure means the apology; a completion answer is the trimmed first choice; an image answer carries the bytes and a caption that quotes the prompt |
| Reply.SendApology | index.js:109-111 | the `catch` block sends one fixed apology to the chat and rejects only when that send throws |
| Reply.Deliver | index.js:80-111 | at most two sends, all to the chat, only the last can succeed; an answer whose send throws is followed by exactly one apology |
| Reply.Dispatch | index.js:60-112 | a provider request happens exactly when a command matched; otherwise nothing is sent; every send goes to the originating chat and at most one reaches it |
| Reply.CompletionAnswered | index.js:79-80 | a delivered completion sends exactly one text, the trimmed first choice, to the originating chat |
| Reply.ImageAnswered | index.js:100-106 | a delivered image sends exactly one image to the originating chat, captioned with the prompt |
| Reply.ProviderFailureApologises | index.js:109-111 | any provider or image-download failure sends exactly one apology and nothing else, after the one request; the handler settles exactly when that apology is delivered |
| Reply.SendFailureApologises | fixIndex.js:84-87 | a reply whose own send throws is followed by exactly one apology; the handler settles exactly when that second send is delivered |
| Sender.GroupIdShape | index.js:46 | an id is a group id exactly when it ends in `@g.us` |
| Sender.GetDisplayName | index.js:16-23 | a truthy looked-up name is returned; an empty or missing name or a thrown lookup gives the raw id |
| Sender.ResolveSender | index.js:46-57 | a group id fetches metadata, whose failure aborts, and the participant's name; a direct id fetches the counterpart's name |
| Reconnect.OnConnectionUpdate | index.js:123-133 | restart exactly on `close` with a reason other than logged-out, absent reason included; logged-out stays down; `open` only announces |
| Reconnect.BotsStarted | fixIndex.js:98-105 | if each bot sees one close, bots keep being started until the first logged-out close and never after |
| Reconnect.LoggedOutIsFinal | index.js:126-130 | closes after a logged-out close start no further bot |
| FixIndexBot.OnMessagesUpsert | fixIndex.js:24-88 | a non-live batch, a payload-less first message or the bot's own message is quiet, and an empty live batch rejects, the only way to reject with that cause; otherwise at most two sends, every earlier one failed, all to `messages[0].key.remoteJid`; a request is made exactly for an accepted command; any other rejection is an undelivered apology |
| FixIndexBot.IgnoredEventsAreQuiet | fixIndex.js:25-27 | a non-live batch, a payload-less first message or the bot's own message produces no request and no message |
| FixIndexBot.OnlyFirstMessage | fixIndex.js:26 | only `messages[0]` is examined |
| FixIndexBot.NoTextNoAction | fixIndex.js:30-31 | with neither text slot non-empty nothing happens |
| FixIndexBot.ConversationPreferred | fixIndex.js:30 | a non-empty `conversation` is what gets routed |
| FixIndexBot.UnroutedTextIsIgnored | fixIndex.js:36-82 | text starting with neither prefix produces no request and no message, not even the apology |
| FixIndexBot.AtMostOneReply | fixIndex.js:35-87 | for every batch and outcome: at most one message reaches the chat, all sends target `remoteJid`, and requests happen exactly for accepted commands |
| FixIndexBot.CompletionRoundTrip | fixIndex.js:54-55 | a live message routed to a completion gets exactly the trimmed first choice back, in its own chat |
| FixIndexBot.AskExampleRoutes | fixIndex.js:36-37 | `./ai What is 2+2?` routes to a completion for `What is 2+2?` |
| FixIndexBot.AskScenario | fixIndex.js:36-55 | a direct `./ai What is 2+2?` answered with text that has no surrounding whitespace, such as `4.`, sends exactly that text back |
| FixIndexBot.FailureScenario | fixIndex.js:36-87 | a failing `./ai ping` makes one completion request for `ping`, sends the apology once and nothing else, and settles exactly when the apology is delivered |
| IndexBot.OnMessagesUpsert | index.js:34-113 | guard, then sender resolution, then dispatch; a group whose metadata lookup throws aborts with no request and no message |
| IndexBot.AgreesWithFixIndex | index.js:45-58 | both entry points behave identically unless a group's metadata lookup throws, when `index.js` aborts before any dispatch or apology |
| IndexBot.NamesDoNotMatter | index.js:51-55 | name lookups, failing or not, never change what is requested or sent |
| IndexBot.DrawScenario | index.js:82-106 | a group `./img a red bicycle` with a delivered image sends one image to the group, captioned with the quoted prompt |

## Left out

- Credential persistence (`useMultiFileAuthState`, `saveCreds` on `creds.update`): file I/O owned by the messaging library.
- Socket creation (`makeWASocket`) and the real `sendMessage`, `groupMetadata` and `fetchName`: foreign library calls, modelled only by how they settle.
- The HTTP calls to OpenAI: the URLs, headers and API key from `process.env` are not modelled. The model names, system instruction and image size are kept as constants in the request records.
- Image generation and image download are one `generateImage` result. A failure in either gives the same outcome, the apology.
- `Buffer.from` on the image bytes: the bytes are passed through unchanged.
- QR code rendering, every `console.log`/`console.error` line and the `toLocaleTimeString` timestamp: cosmetic output. `SenderInfo` is what the `index.js` log line would show; it is computed but not printed.
- The diagnostic in the `catch` block (`err.response?.data || err.message`): only logged.
- The recursive `startBot()` call: modelled as the `Restart` decision, not as a new session.
- Reconnect.BotsStarted: assumes each bot sees exactly one close. The handler itself starts a bot for every recoverable close it receives.
- Concurrent handler runs: each run is modelled alone, because runs share no state the model tracks.
- `key.participant` is a string. When a group message lacks it, only the log line changes.
- JavaScript strings are UTF-16 code units; here they are characters. All matched literals and whitespace characters are single code units, so prefix tests, `replace` and `trim` agree.
- Payload fields other than `conversation` and `extendedTextMessage.text`, and non-string values in those slots: the handlers read only these two slots.
- FixIndexBot.AskScenario: states the `./ai What is 2+2?` exchange for any answer without surrounding whitespace. The literal `4.` is one such answer.

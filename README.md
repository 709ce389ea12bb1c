# MyChatBot, modelled in Dafny

MyChatBot sends user text to one of two chat-completion providers: OpenAI,
through Semantic Kernel, or Gemini, through Mscc.GenerativeAI. It streams
the reply back in two ways: to a browser over a SignalR hub, and to a
console loop. This project models the logic around the vendor SDKs as
three small state machines, and proves what each one promises. The vendor
SDKs themselves are not modelled.

- **Vendor abstraction** (`vendor.dfy`, `streams.dfy`). A `Service` maps
  each `Request` to a `Stream`. A request holds the model id, the API key,
  and either the OpenAI chat history or the messages sent through one
  Gemini chat. A stream is a list of fragments, each `Option<string>`
  because a fragment's text may be null. It may also carry a `Fault`:
  after `k` fragments, enumerating it throws a message. A fault placed
  past the last fragment is never reached.
- **Configuration** (`settings.dfy`). A `map<string, string>`; a missing
  key reads as null. The provider and model-id defaults follow C#'s `??`.
  An API key is rejected when it is null, empty, or the placeholder.
- **Web hub** (`chat_hub.dfy`, from `MyChatBot.Web/Hubs/ChatHub.cs`). The
  class `ChatHub` keeps the configuration. Its methods return the events
  sent to the caller, in order. `Relay` is the `await foreach` loop that
  both provider branches share. `Reply` is the function the methods are
  proved against.
- **Console** (`console_program.dfy`, from `Program.cs`). The input is the
  finite list of lines `Console.ReadLine` returns, null included. Output
  is a list of `Printed` items. `OpenAIStep` and `GeminiStep` describe one
  pass through the loop body; `OpenAIFeed` and `GeminiFeed` run it over
  the lines. The methods `RunOpenAIChat` and `RunGeminiChat` use `while`
  loops with `continue`, as the source does. The source's `break` on an
  exit word is rendered as a `return` of the session. Both methods are
  proved equal to those functions. `RunConsole`, which has no loop, is
  proved equal to the function `Console`.
- **Browser** (`browser_app.dfy`, from `MyChatBot.Web/wwwroot/app.js`).
  The class `ChatPage` has the script's fields: `isReceiving`,
  `currentMessage`, `currentMessageElement` (as an index into the message
  list), the message list, the two `disabled` flags, the typing indicator
  and the status line. Each handler is proved to move `Snapshot()` by a
  pure transition on the `Page` datatype. The handlers also keep
  `Consistent`: while a reply is arriving, the current bubble shows
  exactly `currentMessage`.
- **Both ends together** (`protocol.dfy`). The events of one invocation
  are fed, in order, to the page that sent the message. When the page was
  not still receiving an earlier reply, the bubble's text is then the
  concatenation of the chunks the hub sent. That is every fragment the
  stream delivered before it ended or threw, put together.

The two providers and the two front ends are not symmetric:

- The web Gemini branch (`ChatHub.cs:81-85`) sends no system instruction.
  It opens a fresh chat and sends only the user's message. Only the web
  OpenAI branch and the two console loops send the instruction.
- Only the web path drops empty fragments. The console prints every
  fragment, empty ones included, and the OpenAI loop adds each one to
  `fullResponse`.

Behaviours the proofs make explicit:

- If the hub sends a Complete with no chunk before it (every fragment was
  empty), the page's typing indicator stays on (`DeliverReply`).
- For a provider name the hub does not know, a sent message gets no
  answer at all. The page's input stays disabled and its indicator stays
  on (`UnsupportedProviderStallsPage`).
- An empty `Provider` setting reads differently at the two ends. The page
  shows "OpenAI" (`||`), while the hub keeps the empty name (`??`) and
  stays silent (`EmptyProviderSetting`).
- The exit words are matched after lower-casing but without trimming, so
  `" exit"` is sent as a message (`ExitWordExamples`).
- The page can send while it is still receiving a reply. The `catch` of
  `sendMessage` (app.js:102-112) and `onreconnected` (app.js:157-161)
  enable the input again without clearing `isReceiving` or
  `currentMessageElement`. The next reply then gets no bubble of its own:
  its chunks are appended to the earlier reply's bubble, which sits above
  the new user bubble. After a successful reply the typing indicator
  stays on; a reply that ends in an error adds its entry and turns the
  indicator off (`StaleReplyOnPage`, `StaleReplyEnds`,
  `StaleBubbleAfterInvokeFailure`).
  The round-trip lemmas (`DeliverReply`, `ReplyOnPage`, `SuccessfulRoundTrip`,
  `FailedRoundTrip`) require a page that is not receiving, and cover only
  that case.

## Model

| member | source | states |
|---|---|---|
| `Text.Trim` | MyChatBot.Web/wwwroot/app.js:73 | The trimmed text is empty exactly when every character is JavaScript whitespace. Otherwise it starts and ends with non-whitespace. It is a slice of the input, and everything before and after that slice is whitespace. |
| `Text.Lower` | Program.cs:58 | Keeps the length and lowers each ASCII letter on its own; every other character is unchanged. |
| `Streams.NonEmptyTexts` | MyChatBot.Web/Hubs/ChatHub.cs:58-65 | The forwarded texts are all non-empty, there are no more of them than fragments, and together they equal all the fragments put together, with null counted as "". |
| `Streams.NonEmptyKeepsText` | MyChatBot.Web/Hubs/ChatHub.cs:60-64 | When every fragment carries text, each one is forwarded, in order. |
| `Streams.ConcatSnoc` | Program.cs:74-76 | `fullResponse += content`: adding a fragment at the end adds its text, null as "", at the end. |
| `Settings.SettingDefaults` | MyChatBot.Web/Hubs/ChatHub.cs:40-43 | Model ids fall back to "gpt-4o" and "gemini-2.0-flash-exp" when unset, and the provider to "OpenAI". A key is rejected exactly when it is unset, empty or the provider's placeholder. |
| `Hubs.ChatHub.constructor` | MyChatBot.Web/Hubs/ChatHub.cs:12-15 | The hub keeps the configuration it is given. |
| `Hubs.ChatHub.SendMessage` | MyChatBot.Web/Hubs/ChatHub.cs:17-36 | The events sent to the caller are `Reply`: the default provider, the two branches, and an escaping exception caught as one `ReceiveError`. |
| `Hubs.ChatHub.StreamOpenAI` | MyChatBot.Web/Hubs/ChatHub.cs:38-68 | Rejects a bad key with the OpenAI message. Otherwise it relays the stream for [instruction, message] and sends Complete unless the stream threw; a throw is handed up. |
| `Hubs.ChatHub.StreamGemini` | MyChatBot.Web/Hubs/ChatHub.cs:70-95 | The same for Gemini, with the Gemini message and a fresh chat that holds only the message. |
| `Hubs.ChatHub.Relay` | MyChatBot.Web/Hubs/ChatHub.cs:58-65 | One chunk per non-empty delivered fragment, in arrival order, and the stream's exception message when it throws. |
| `Hubs.RelayStep` | MyChatBot.Web/Hubs/ChatHub.cs:60-64 | One more fragment adds one chunk if its text is non-empty, and nothing otherwise. |
| `Hubs.ChunkTextOfChunks` | MyChatBot.Web/Hubs/ChatHub.cs:63 | The payloads of the chunk events put together are the forwarded texts put together. |
| `Hubs.ReplySplit` | MyChatBot.Web/Hubs/ChatHub.cs:17-36 | For a supported provider, the reply is its chunks followed by exactly one terminal event, and the chunk text is the joined payloads. |
| `Hubs.ReplyShape` | MyChatBot.Web/Hubs/ChatHub.cs:21-35 | Every reply is non-empty chunks followed by one terminal event, or nothing at all. It is nothing exactly when the provider is neither "OpenAI" nor "Gemini". |
| `Hubs.MissingProviderMeansOpenAI` | MyChatBot.Web/Hubs/ChatHub.cs:19 | A missing `Provider` gives the same reply as "OpenAI". |
| `Hubs.UnconfiguredKeyReply` | MyChatBot.Web/Hubs/ChatHub.cs:43-47 | A bad key gives exactly one error event with the provider's own message. The reply does not depend on the service, so the stream is never consumed. |
| `Hubs.SuccessfulReply` | MyChatBot.Web/Hubs/ChatHub.cs:58-67 | A stream that does not throw gives its non-empty fragments as chunks in order, then one Complete, and no error. The chunk text equals all fragments put together. |
| `Hubs.FailedReply` | MyChatBot.Web/Hubs/ChatHub.cs:21-35 | A stream that throws after k fragments gives the chunks for those k, then one error with the exception's message, and no Complete. |
| `Hubs.FreshRequest` | MyChatBot.Web/Hubs/ChatHub.cs:41-56 | OpenAI's history is exactly [instruction, message] and Gemini's chat holds only [message]. Unset model ids take their defaults. |
| `Hubs.HelloScenario` | MyChatBot.Web/Hubs/ChatHub.cs:54-67 | "Hello" answered by "Hi", " there", "!" gives three chunks, then Complete. |
| `Hubs.MidStreamFailureScenario` | MyChatBot.Web/Hubs/ChatHub.cs:32-35 | A throw after two fragments gives two chunks, then the error. |
| `ConsoleProgram.Classify` | Program.cs:57-62 | A line is skipped exactly when it is null or whitespace (.NET's definition). It stops the loop exactly when it is not blank and its lower-case form is "exit" or "quit". Otherwise it is sent unchanged. |
| `ConsoleProgram.ExitWordExamples` | Program.cs:58 | "exit", "Exit" and "QUIT" stop the loop; " exit" is sent. |
| `ConsoleProgram.QuitWord` | Program.cs:58 | Any four characters whose lower-case forms spell "exit" or "quit" stop the loop, whatever their case. |
| `ConsoleProgram.NotFourLetters` | Program.cs:57-62 | A line that is not blank and not four characters long is sent unchanged, because it cannot lower to an exit word. |
| `ConsoleProgram.BlankLineExamples` | Program.cs:57 | Null, "" and whitespace-only lines are skipped; "Hello" is sent. |
| `ConsoleProgram.Echo` | Program.cs:72-77 | Prints every delivered fragment, empty ones too. Its accumulated text is all delivered fragments put together. Reports the stream's exception. |
| `ConsoleProgram.OpenAITurn` | Program.cs:66-85 | The assistant message (the whole reply) is appended only when the stream ends normally. Prints the label, the tokens, then a line break or the error. |
| `ConsoleProgram.RunOpenAIChat` | Program.cs:33-87 | The OpenAI session is `OpenAIChat`: a bad key is rejected before any line is read; otherwise the transcript starts as the instruction and the loop runs. |
| `ConsoleProgram.GeminiTurn` | Program.cs:120-136 | Prints the label and the tokens, then a line break or the error; nothing of the reply is kept. |
| `ConsoleProgram.RunGeminiChat` | Program.cs:90-138 | The Gemini session is `GeminiChat`: the key is checked first and the instruction is sent as the chat's first message. A throw there ends the run. Then the loop runs. |
| `ConsoleProgram.RunConsole` | Program.cs:12-30 | The run is `Console`: the banner, then the loop of "OpenAI" or "Gemini", or the unsupported-provider error. |
| `ConsoleProgram.OpenAIStepEffect` | Program.cs:52-86 | Each line prints a prompt and counts as read. Blank lines and exit words leave the transcript alone and do not call the service. A sent line appends the user message, and the assistant message only on success. Failed or not, the loop goes on. |
| `ConsoleProgram.OpenAIFeedKeepsTranscript` | Program.cs:49-80 | The loop only appends to the transcript. The instruction stays alone at index 0, and every assistant message follows a user message. |
| `ConsoleProgram.OpenAIFeedSummary` | Program.cs:52-86 | Over any lines: one user message per sent line, in order. The loop stops exactly when some line is an exit word, and it reads exactly the lines up to that word. |
| `ConsoleProgram.OpenAIStepUserTexts` | Program.cs:56-80 | One line adds its text to the user messages exactly when it is sent. The loop stops exactly on an exit word, and the line counts as read. |
| `ConsoleProgram.OpenAIFeedUserTexts` | Program.cs:52-86 | Over any lines, the user messages grow by exactly the sent lines, in order. |
| `ConsoleProgram.OpenAIFeedStops` | Program.cs:52-86 | Over any lines, the loop ends exactly when some line is an exit word, and it reads exactly the lines up to that word. |
| `ConsoleProgram.GeminiFeedSummary` | Program.cs:108-137 | The same for Gemini: the chat gets the sent lines in order, and the loop stops exactly on an exit word. |
| `ConsoleProgram.OpenAIChatTranscript` | Program.cs:49-80 | With a valid key, the final transcript has the proper shape and its user messages are exactly the sent lines. |
| `ConsoleProgram.ConsoleOutcome` | Program.cs:19-30 | Any other provider prints the error and reads nothing. A bad key is reported before any input. The run ends as Exited exactly when there is an exit word (and a supported provider with a valid key), and never on a failed turn. |
| `ConsoleProgram.ConsoleDefaultsToOpenAI` | Program.cs:12 | A missing `Provider` runs exactly as "OpenAI". |
| `BrowserApp.ReceiveChunk` | MyChatBot.Web/wwwroot/app.js:19-46 | The first chunk of a reply adds a new bubble, hides the indicator and restarts `currentMessage` from "", and the new bubble becomes the current element. Later chunks append to the current bubble. Consistency is kept. |
| `BrowserApp.ReceiveComplete` | MyChatBot.Web/wwwroot/app.js:48-55 | Not receiving, `currentMessage` is "", no current element, input enabled again. |
| `BrowserApp.ReceiveFailure` | MyChatBot.Web/wwwroot/app.js:57-69 | Not receiving, one error entry added, indicator off, input enabled again. `currentMessage` and the current element stay as they were. |
| `BrowserApp.Outgoing` | MyChatBot.Web/wwwroot/app.js:73-74 | Nothing is sent exactly when the input is all whitespace; otherwise the trimmed, non-empty text is sent. |
| `BrowserApp.Submit` | MyChatBot.Web/wwwroot/app.js:72-98 | Blank input changes nothing. Otherwise one user bubble is added, input and button are disabled, and the indicator comes on. |
| `BrowserApp.InvokeFailed` | MyChatBot.Web/wwwroot/app.js:102-112 | One send-error entry, input enabled again, indicator off. `isReceiving`, `currentMessage` and the current element stay as they were. |
| `BrowserApp.SetConnection` | MyChatBot.Web/wwwroot/app.js:151-167 | Only the status and the two enabled flags change. |
| `BrowserApp.ShownProvider` | MyChatBot.Web/wwwroot/app.js:133 | A missing or empty name shows as "OpenAI"; any other name as itself. |
| `BrowserApp.ChatPage.constructor` | MyChatBot.Web/wwwroot/app.js:7-9 | Starts not receiving, with `currentMessage` "" and no current element. |
| `BrowserApp.ChatPage.OnReceiveMessageChunk` | MyChatBot.Web/wwwroot/app.js:19-46 | The fields move as `ReceiveChunk`, and the page stays consistent. |
| `BrowserApp.ChatPage.OnReceiveMessageComplete` | MyChatBot.Web/wwwroot/app.js:48-55 | The fields move as `ReceiveComplete`. |
| `BrowserApp.ChatPage.OnReceiveError` | MyChatBot.Web/wwwroot/app.js:57-69 | The fields move as `ReceiveFailure`. |
| `BrowserApp.ChatPage.SendMessage` | MyChatBot.Web/wwwroot/app.js:72-101 | The fields move as `Submit`, and the text passed to `invoke` is `Outgoing`. |
| `BrowserApp.ChatPage.OnInvokeFailed` | MyChatBot.Web/wwwroot/app.js:102-112 | The fields move as `InvokeFailed`. |
| `BrowserApp.ChatPage.OnReconnecting` | MyChatBot.Web/wwwroot/app.js:151-155 | Input and button disabled, status "reconnecting"; nothing else changes. |
| `BrowserApp.ChatPage.OnReconnected` | MyChatBot.Web/wwwroot/app.js:157-161 | Input and button enabled, status "connected"; nothing else changes. |
| `BrowserApp.ChatPage.OnClose` | MyChatBot.Web/wwwroot/app.js:163-167 | Input and button disabled, status "disconnected"; nothing else changes. |
| `BrowserApp.ChatPage.OnStarted` | MyChatBot.Web/wwwroot/app.js:124-127 | Only the status changes, to connected. |
| `BrowserApp.ChatPage.OnConfigFetched` | MyChatBot.Web/wwwroot/app.js:130-138 | Only the status changes: to the shown provider, or to "connected" when the fetch failed. |
| `BrowserApp.ChatPage.OnStartFailed` | MyChatBot.Web/wwwroot/app.js:140-148 | The status becomes "connection error" and one connection-error entry is added. |
| `Protocol.DeliverAll` | MyChatBot.Web/wwwroot/app.js:19-69 | Handling any list of hub events keeps the page consistent. |
| `Protocol.ChunksExtendBubble` | MyChatBot.Web/wwwroot/app.js:43-44 | While receiving, the chunks extend the same bubble: it shows its old text followed by the new payloads. |
| `Protocol.ChunksMakeOneBubble` | MyChatBot.Web/wwwroot/app.js:20-44 | The chunks of a reply make exactly one new bubble, and its text and `currentMessage` are the payloads put together. |
| `Protocol.DeliverReply` | MyChatBot.Web/wwwroot/app.js:19-69 | Any well-formed reply ends the reply on the page, with input enabled. It leaves at most one bubble with all the chunk text, and one error entry when it ends in an error. The indicator stays on only when Complete came with no chunk. |
| `Protocol.ReplyOnPage` | MyChatBot.Web/Hubs/ChatHub.cs:17-36 | For every configuration and stream, a page that is not receiving ends with at most one new bubble: none when no chunk was sent, otherwise one holding exactly the chunk text the hub sent. The error entry follows if there was one. An unknown provider leaves the page untouched. |
| `Protocol.SuccessfulReplyOnPage` | MyChatBot.Web/Hubs/ChatHub.cs:58-67 | A stream that ends normally: the page's new bubble is every fragment of the stream put together. |
| `Protocol.SuccessfulRoundTrip` | MyChatBot.Web/wwwroot/app.js:72-101 | Send, then handle the reply: the user bubble, then one bot bubble with the whole stream text. The page is ready again. |
| `Protocol.FailedRoundTrip` | MyChatBot.Web/wwwroot/app.js:57-69 | Send against a stream that throws after k fragments: the user bubble, the text of those k (if any), then the error entry. The page is ready again. |
| `Protocol.StaleReplyOnPage` | MyChatBot.Web/wwwroot/app.js:20-44 | A message sent while the page is still receiving gets no bubble of its own. A successful reply's whole text is appended to the earlier bubble, which sits above the new user bubble. The page ends not receiving, with input enabled and the typing indicator still on. |
| `Protocol.StaleDeliverReply` | MyChatBot.Web/wwwroot/app.js:19-69 | Chunks, then one terminal event, arriving at a page still receiving: the chunks extend the earlier bubble, an error adds its entry and turns the indicator off, Complete leaves it as it was, and the reply ends with input enabled. |
| `Protocol.StaleReplyEnds` | MyChatBot.Web/wwwroot/app.js:57-69 | Any reply of a supported provider to a message sent while still receiving extends the earlier bubble. It ends in an error exactly when the key is rejected or the stream throws; then the error entry is added and the indicator goes off, and otherwise the indicator stays on. |
| `Protocol.StaleBubbleAfterInvokeFailure` | MyChatBot.Web/wwwroot/app.js:102-112 | Send, one chunk, invoke fails, send again, one chunk: the list is the first user bubble, one bot bubble with both chunks, the send error, then the second user bubble. |
| `Protocol.UnsupportedProviderStallsPage` | MyChatBot.Web/Hubs/ChatHub.cs:23-31 | An unknown provider answers nothing, so input stays disabled and the indicator stays on. |
| `Protocol.ChunkAfterErrorStartsFresh` | MyChatBot.Web/wwwroot/app.js:20 | After an error, the next chunk starts a new bubble holding only that chunk. |
| `Protocol.EmptyProviderSetting` | MyChatBot.Web/wwwroot/app.js:133 | An empty `Provider` shows as OpenAI on the page, while the hub sends nothing. |

## Left out

- The vendor SDKs (Semantic Kernel's chat completion service, Mscc.GenerativeAI's `GoogleAI`, `GenerativeModel` and `StartChat`). A `Service` stands for them. In the hub, building a client (ChatHub.cs:49-52, 81-83) happens inside the `try` of `SendMessage`. A failure there has the same effect as a stream that throws before its first fragment, and is modelled that way.
- RunOpenAIChat: does not model a failure while building the client (Program.cs:44-47). That code is outside every `try`, so such an exception would end the program; the model has no `Crashed` outcome for OpenAI.
- RunGeminiChat: does not model a failure in `new GoogleAI`, `GenerativeModel` or `StartChat` (Program.cs:101-103). Only the uncaught opening `SendMessage` can end the run in `Crashed`.
- The chat history the Gemini SDK keeps inside its chat object (Program.cs:101-106) is not visible. The model records only the messages the program sends through that chat.
- The console's Gemini opening `SendMessage` is not streamed. The model uses only whether it throws. An exception there is not caught by the program, and the run ends in phase `Crashed`.
- SignalR transport, connection multiplexing, automatic reconnection, and the delivery of `Clients.Caller.SendAsync`. Delivery is appending to the returned event list. An exception raised by `SendAsync` itself is not modelled.
- Configuration loading (`ConfigurationBuilder`, `AddJsonFile`) and the browser's `fetch` of appsettings.json. Configuration is a map, and the fetched `Provider` value is a parameter.
- Console text and DOM work: the exact printed strings (each is one `Printed` item; the four banner lines are one `Welcome`), element creation, class names, scrolling, focus, `console.error`, and clearing the input box. index.html, which sets the page's initial DOM, is not part of this model; the page starts empty and enabled.
- The click and Enter-key listeners (app.js:116-121). `sendMessage` is modelled as a call with the input box's text.
- Async scheduling, timeouts and cancellation. Each request runs sequentially.
- End of input. The model reads a finite list of lines and stops with phase `Reading` when it runs out. The source would go on reading null lines, skipping each one, forever.
- `Classify`: does not model culture-sensitive `ToLower`; only ASCII letters are lowered.

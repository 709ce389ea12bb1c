/** The console front end (Program.cs): pick the provider, check its key,
    then read lines until "exit" or "quit". The OpenAI loop keeps a growing
    transcript; the Gemini loop keeps one chat session open and sends each
    line through it. Console output is modelled as a list of `Printed`
    items; input as the finite list of lines `Console.ReadLine` returns
    (null included). */
module ConsoleProgram {
  import opened Wrappers
  import opened Text
  import opened Settings
  import opened Streams
  import opened Vendor

  /** What the program writes to the console. */
  datatype Printed =
    | Welcome(provider: string)             // the banner naming the provider
    | UnsupportedProvider(provider: string)
    | KeyMissing(provider: string)          // "set the <provider> API key"
    | Prompt                                // "👤 あなた: "
    | Goodbye
    | AssistantLabel                        // "🤖 アシスタント: "
    | Token(text: string)                   // one streamed fragment
    | EndOfReply                            // the line break after a reply
    | TurnFailed(message: string)           // "an error occurred: <message>"

  /** What one input line asks for. */
  datatype Command = Skip | Quit | Dispatch(text: string)

  /** Where a session stands after the lines it was given: still reading,
      ended by exit/quit, or ended before its loop. */
  datatype Phase = Reading | Exited | KeyRejected | ProviderRejected | Crashed(message: string)

  /** The OpenAI loop's state: the transcript, the output so far and the
      number of lines read. */
  datatype OpenAISession = OpenAISession(history: seq<ChatMessage>, printed: seq<Printed>, consumed: nat, phase: Phase)

  /** The Gemini loop's state: the messages sent through its chat session,
      the output so far and the number of lines read. */
  datatype GeminiSession = GeminiSession(sent: seq<string>, printed: seq<Printed>, consumed: nat, phase: Phase)

  /** What a whole run printed, how many lines it read, and how it stands. */
  datatype Run = Run(printed: seq<Printed>, consumed: nat, phase: Phase)

  /** Blank or null lines are skipped; a line whose lower-case form is
      "exit" or "quit" (without trimming) stops; anything else is sent as
      it is. */
  function Classify(line: Option<string>): (c: Command)
    ensures c == Skip <==> IsNullOrWhiteSpace(line)
    ensures c == Quit <==> !IsNullOrWhiteSpace(line) && (Lower(line.value) == "exit" || Lower(line.value) == "quit")
    ensures c.Dispatch? ==> line == Some(c.text)
  {
    if IsNullOrWhiteSpace(line) then Skip
    else if Lower(line.value) == "exit" || Lower(line.value) == "quit" then Quit
    else Dispatch(line.value)
  }

  function Tokens(fs: seq<Option<string>>): seq<Printed>
  {
    seq(|fs|, i requires 0 <= i < |fs| => Token(TextOf(fs[i])))
  }

  /** What one dispatched turn prints: the label, every fragment as it
      arrives (empty ones too), then a line break or the error. */
  function Echoed(reply: Stream): seq<Printed>
  {
    [AssistantLabel] + Tokens(Delivered(reply))
    + (if Throws(reply) then [TurnFailed(reply.failure.value.message)] else [EndOfReply])
  }

  /** One pass of the OpenAI `while (true)` body. The user message is
      appended before streaming; the assistant message, the whole reply,
      only when the stream ends normally. */
  function OpenAIStep(s: OpenAISession, line: Option<string>, modelId: string, apiKey: string, service: Service): OpenAISession
  {
    var s1 := s.(printed := s.printed + [Prompt], consumed := s.consumed + 1);
    match Classify(line)
    case Skip => s1
    case Quit => s1.(printed := s1.printed + [Goodbye], phase := Exited)
    case Dispatch(text) =>
      var asked := s.history + [ChatMessage(User, text)];
      var reply := service(OpenAIRequest(modelId, apiKey, asked));
      s1.(history := if Throws(reply) then asked else asked + [ChatMessage(Assistant, Concat(reply.fragments))],
          printed := s1.printed + Echoed(reply))
  }

  /** The OpenAI loop over the given lines, until one of them stops it. */
  function OpenAIFeed(s: OpenAISession, lines: seq<Option<string>>, modelId: string, apiKey: string, service: Service): OpenAISession
    decreases |lines|
  {
    if lines == [] || s.phase != Reading then s
    else OpenAIFeed(OpenAIStep(s, lines[0], modelId, apiKey, service), lines[1..], modelId, apiKey, service)
  }

  /** `RunOpenAIChat`: reject a bad key before reading anything; otherwise
      start the transcript with the instruction and run the loop. */
  function OpenAIChat(cfg: Config, lines: seq<Option<string>>, service: Service): OpenAISession
  {
    if !KeyConfigured(cfg, OpenAI) then OpenAISession([], [KeyMissing(OpenAI)], 0, KeyRejected)
    else OpenAIFeed(OpenAISession([ChatMessage(System, Instruction)], [], 0, Reading), lines,
                    ModelId(cfg, OpenAI), CheckedKey(cfg, OpenAI), service)
  }

  /** One pass of the Gemini `while (true)` body: the line goes through the
      one chat session; nothing is kept of the reply. */
  function GeminiStep(s: GeminiSession, line: Option<string>, modelId: string, apiKey: string, service: Service): GeminiSession
  {
    var s1 := s.(printed := s.printed + [Prompt], consumed := s.consumed + 1);
    match Classify(line)
    case Skip => s1
    case Quit => s1.(printed := s1.printed + [Goodbye], phase := Exited)
    case Dispatch(text) =>
      var sent := s.sent + [text];
      var reply := service(GeminiRequest(modelId, apiKey, sent));
      s1.(sent := sent, printed := s1.printed + Echoed(reply))
  }

  function GeminiFeed(s: GeminiSession, lines: seq<Option<string>>, modelId: string, apiKey: string, service: Service): GeminiSession
    decreases |lines|
  {
    if lines == [] || s.phase != Reading then s
    else GeminiFeed(GeminiStep(s, lines[0], modelId, apiKey, service), lines[1..], modelId, apiKey, service)
  }

  /** `RunGeminiChat`: reject a bad key before reading anything; otherwise
      send the instruction as the chat's first message (an exception there
      is not caught and ends the program) and run the loop. */
  function GeminiChat(cfg: Config, lines: seq<Option<string>>, service: Service): GeminiSession
  {
    if !KeyConfigured(cfg, Gemini) then GeminiSession([], [KeyMissing(Gemini)], 0, KeyRejected)
    else
      var opening := service(GeminiRequest(ModelId(cfg, Gemini), CheckedKey(cfg, Gemini), [Instruction]));
      if Throws(opening) then GeminiSession([Instruction], [], 0, Crashed(opening.failure.value.message))
      else GeminiFeed(GeminiSession([Instruction], [], 0, Reading), lines,
                      ModelId(cfg, Gemini), CheckedKey(cfg, Gemini), service)
  }

  /** The top-level statements: the banner, then the loop of the configured
      provider, or an unsupported-provider error and no loop. */
  function Console(cfg: Config, lines: seq<Option<string>>, service: Service): Run
  {
    var provider := ProviderName(cfg);
    if provider == OpenAI then
      var s := OpenAIChat(cfg, lines, service);
      Run([Welcome(provider)] + s.printed, s.consumed, s.phase)
    else if provider == Gemini then
      var s := GeminiChat(cfg, lines, service);
      Run([Welcome(provider)] + s.printed, s.consumed, s.phase)
    else Run([Welcome(provider), UnsupportedProvider(provider)], 0, ProviderRejected)
  }

  /** The `await foreach` loop of a console turn: print each fragment's
      text and add it to `fullResponse`, until the stream ends or throws. */
  method Echo(stream: Stream) returns (printed: seq<Printed>, fullResponse: string, thrown: Option<string>)
    ensures printed == Tokens(Delivered(stream))
    ensures fullResponse == Concat(Delivered(stream))
    ensures thrown == Thrown(stream)
  {
    printed, fullResponse := [], "";
    var i := 0;
    while i < |stream.fragments| && !FailsAt(stream, i)
      invariant 0 <= i <= |stream.fragments|
      invariant FineBefore(stream, i)
      invariant printed == Tokens(stream.fragments[..i])
      invariant fullResponse == Concat(stream.fragments[..i])
    {
      var content := TextOf(stream.fragments[i]);
      printed := printed + [Token(content)];
      fullResponse := fullResponse + content;
      assert stream.fragments[..i + 1] == stream.fragments[..i] + [stream.fragments[i]];
      ConcatSnoc(stream.fragments[..i], stream.fragments[i]);
      i := i + 1;
    }
    assert i == |stream.fragments| ==> stream.fragments[..i] == stream.fragments;
    if FailsAt(stream, i) {
      thrown := Some(stream.failure.value.message);
    } else {
      thrown := None;
    }
  }

  /** The body of the OpenAI `try` block: stream the reply to the
      transcript so far, then add the whole reply as the assistant message,
      or print the error instead. */
  method OpenAITurn(chatHistory: seq<ChatMessage>, modelId: string, apiKey: string, service: Service)
    returns (history: seq<ChatMessage>, printed: seq<Printed>)
    ensures var reply := service(OpenAIRequest(modelId, apiKey, chatHistory));
      && history == (if Throws(reply) then chatHistory
                     else chatHistory + [ChatMessage(Assistant, Concat(reply.fragments))])
      && printed == Echoed(reply)
  {
    var reply := service(OpenAIRequest(modelId, apiKey, chatHistory));
    var tokens, fullResponse, thrown := Echo(reply);
    printed := [AssistantLabel] + tokens;
    history := chatHistory;
    if thrown.None? {
      printed := printed + [EndOfReply];
      history := history + [ChatMessage(Assistant, fullResponse)];
    } else {
      printed := printed + [TurnFailed(thrown.value)];
    }
  }

  method RunOpenAIChat(config: Config, lines: seq<Option<string>>, service: Service) returns (session: OpenAISession)
    ensures session == OpenAIChat(config, lines, service)
  {
    var apiKey := Setting(config, OpenAIKeyKey);
    var modelId := Setting(config, OpenAIModelKey).GetOr(DefaultOpenAIModel);
    if IsNullOrEmpty(apiKey) || apiKey.value == OpenAIPlaceholder {
      return OpenAISession([], [KeyMissing(OpenAI)], 0, KeyRejected);
    }
    var key := apiKey.value;
    ghost var goal := OpenAIChat(config, lines, service);
    var chatHistory := [ChatMessage(System, Instruction)];
    var printed: seq<Printed> := [];
    var i := 0;
    while i < |lines|
      invariant 0 <= i <= |lines|
      invariant goal == OpenAIFeed(OpenAISession(chatHistory, printed, i, Reading), lines[i..], modelId, key, service)
    {
      var userInput := lines[i];
      ghost var before := OpenAISession(chatHistory, printed, i, Reading);
      OpenAIFeedUnfold(before, lines[i..], modelId, key, service);
      assert lines[i..][1..] == lines[i + 1..];
      printed := printed + [Prompt];
      i := i + 1;
      if IsNullOrWhiteSpace(userInput) {
        continue;
      }
      if Lower(userInput.value) == "exit" || Lower(userInput.value) == "quit" {
        printed := printed + [Goodbye];
        return OpenAISession(chatHistory, printed, i, Exited);
      }
      chatHistory := chatHistory + [ChatMessage(User, userInput.value)];
      var turnPrinted;
      chatHistory, turnPrinted := OpenAITurn(chatHistory, modelId, key, service);
      printed := printed + turnPrinted;
      assert OpenAISession(chatHistory, printed, i, Reading) ==
        OpenAIStep(before, userInput, modelId, key, service);
    }
    session := OpenAISession(chatHistory, printed, i, Reading);
  }

  /** The body of the Gemini `try` block: stream the reply and print it,
      or print the error. */
  method GeminiTurn(sent: seq<string>, modelId: string, apiKey: string, service: Service)
    returns (printed: seq<Printed>)
    ensures printed == Echoed(service(GeminiRequest(modelId, apiKey, sent)))
  {
    var reply := service(GeminiRequest(modelId, apiKey, sent));
    var tokens, _, thrown := Echo(reply);
    printed := [AssistantLabel] + tokens;
    if thrown.None? {
      printed := printed + [EndOfReply];
    } else {
      printed := printed + [TurnFailed(thrown.value)];
    }
  }

  method RunGeminiChat(config: Config, lines: seq<Option<string>>, service: Service) returns (session: GeminiSession)
    ensures session == GeminiChat(config, lines, service)
  {
    var apiKey := Setting(config, GeminiKeyKey);
    var modelId := Setting(config, GeminiModelKey).GetOr(DefaultGeminiModel);
    if IsNullOrEmpty(apiKey) || apiKey.value == GeminiPlaceholder {
      return GeminiSession([], [KeyMissing(Gemini)], 0, KeyRejected);
    }
    var key := apiKey.value;
    var sent := [Instruction];
    var opening := service(GeminiRequest(modelId, key, sent));
    if Throws(opening) {
      return GeminiSession(sent, [], 0, Crashed(opening.failure.value.message));
    }
    ghost var goal := GeminiChat(config, lines, service);
    var printed: seq<Printed> := [];
    var i := 0;
    while i < |lines|
      invariant 0 <= i <= |lines|
      invariant goal == GeminiFeed(GeminiSession(sent, printed, i, Reading), lines[i..], modelId, key, service)
    {
      var userInput := lines[i];
      ghost var before := GeminiSession(sent, printed, i, Reading);
      GeminiFeedUnfold(before, lines[i..], modelId, key, service);
      assert lines[i..][1..] == lines[i + 1..];
      printed := printed + [Prompt];
      i := i + 1;
      if IsNullOrWhiteSpace(userInput) {
        continue;
      }
      if Lower(userInput.value) == "exit" || Lower(userInput.value) == "quit" {
        printed := printed + [Goodbye];
        return GeminiSession(sent, printed, i, Exited);
      }
      sent := sent + [userInput.value];
      var turnPrinted := GeminiTurn(sent, modelId, key, service);
      printed := printed + turnPrinted;
      assert GeminiSession(sent, printed, i, Reading) ==
        GeminiStep(before, userInput, modelId, key, service);
    }
    session := GeminiSession(sent, printed, i, Reading);
  }

  lemma OpenAIFeedUnfold(s: OpenAISession, lines: seq<Option<string>>, modelId: string, apiKey: string, service: Service)
    requires lines != [] && s.phase == Reading
    ensures OpenAIFeed(s, lines, modelId, apiKey, service) ==
      OpenAIFeed(OpenAIStep(s, lines[0], modelId, apiKey, service), lines[1..], modelId, apiKey, service)
  {
  }

  lemma GeminiFeedUnfold(s: GeminiSession, lines: seq<Option<string>>, modelId: string, apiKey: string, service: Service)
    requires lines != [] && s.phase == Reading
    ensures GeminiFeed(s, lines, modelId, apiKey, service) ==
      GeminiFeed(GeminiStep(s, lines[0], modelId, apiKey, service), lines[1..], modelId, apiKey, service)
  {
  }

  /** The program's top-level statements after the configuration is
      loaded. */
  method RunConsole(config: Config, lines: seq<Option<string>>, service: Service) returns (run: Run)
    ensures run == Console(config, lines, service)
  {
    var provider := ProviderName(config);
    var printed := [Welcome(provider)];
    if provider == OpenAI {
      var s := RunOpenAIChat(config, lines, service);
      run := Run(printed + s.printed, s.consumed, s.phase);
    } else if provider == Gemini {
      var s := RunGeminiChat(config, lines, service);
      run := Run(printed + s.printed, s.consumed, s.phase);
    } else {
      run := Run(printed + [UnsupportedProvider(provider)], 0, ProviderRejected);
    }
  }

  /** Exit words are recognised in any case, but not with spaces around
      them. */
  lemma ExitWordExamples()
    ensures Classify(Some("exit")) == Quit && Classify(Some("Exit")) == Quit
    ensures Classify(Some("QUIT")) == Quit
    ensures Classify(Some(" exit")) == Dispatch(" exit")
  {
    QuitWord('e', 'x', 'i', 't');
    QuitWord('E', 'x', 'i', 't');
    QuitWord('Q', 'U', 'I', 'T');
    NotFourLetters(" exit", 1);
  }

  /** A line that is not blank and not four characters long is sent as it
      is. */
  lemma NotFourLetters(w: string, k: nat)
    requires |w| != 4 && k < |w| && !IsDotNetWhiteSpace(w[k])
    ensures Classify(Some(w)) == Dispatch(w)
  {
  }

  /** A four-letter line whose characters lower to an exit word stops the
      loop. */
  lemma QuitWord(a: char, b: char, c: char, d: char)
    requires var w := [LowerChar(a), LowerChar(b), LowerChar(c), LowerChar(d)];
      w == "exit" || w == "quit"
    ensures Classify(Some([a, b, c, d])) == Quit
  {
    var line := [a, b, c, d];
    assert Lower(line) == [LowerChar(a), LowerChar(b), LowerChar(c), LowerChar(d)];
    assert !IsDotNetWhiteSpace(line[0]);
  }

  /** Null, empty and whitespace-only lines are skipped. */
  lemma BlankLineExamples()
    ensures Classify(None) == Skip && Classify(Some("")) == Skip
    ensures Classify(Some(" \t\U{3000}")) == Skip
    ensures Classify(Some("Hello")) == Dispatch("Hello")
  {
    assert Lower("Hello")[0] == 'h';
  }

  /** The texts of the user messages of a transcript, in order. */
  function UserTexts(h: seq<ChatMessage>): seq<string>
  {
    if h == [] then []
    else (if h[0].role == User then [h[0].text] else []) + UserTexts(h[1..])
  }

  /** The lines the loop sends, in order: every non-blank line before the
      first exit or quit. */
  function Dispatched(lines: seq<Option<string>>): seq<string>
  {
    if lines == [] then []
    else match Classify(lines[0])
      case Skip => Dispatched(lines[1..])
      case Quit => []
      case Dispatch(t) => [t] + Dispatched(lines[1..])
  }

  /** Some line asks to stop. */
  predicate HasQuit(lines: seq<Option<string>>)
  {
    exists i :: 0 <= i < |lines| && Classify(lines[i]) == Quit
  }

  /** How many lines the loop reads: up to and including the first exit or
      quit, or all of them. */
  function UntilQuit(lines: seq<Option<string>>): nat
  {
    if lines == [] then 0
    else if Classify(lines[0]) == Quit then 1
    else 1 + UntilQuit(lines[1..])
  }

  /** The shape of the OpenAI transcript: the instruction first and only
      there; every assistant message right after a user message. */
  ghost predicate IsTranscript(h: seq<ChatMessage>)
  {
    && |h| >= 1 && h[0] == ChatMessage(System, Instruction)
    && (forall i :: 1 <= i < |h| ==> h[i].role != System)
    && (forall i :: 1 <= i < |h| && h[i].role == Assistant ==> h[i - 1].role == User)
  }

  lemma {:induction false} UserTextsAppend(a: seq<ChatMessage>, b: seq<ChatMessage>)
    ensures UserTexts(a + b) == UserTexts(a) + UserTexts(b)
  {
    if a == [] {
      assert a + b == b;
    } else {
      assert (a + b)[1..] == a[1..] + b;
      UserTextsAppend(a[1..], b);
    }
  }

  /** One line through the OpenAI loop. Every line prints a prompt and is
      counted as read. A blank line changes nothing else and an exit word
      only stops the loop; neither calls the service. A sent line adds the
      user message, and the assistant message (the whole reply, null
      fragments as "") only when the stream ends normally; either way the
      loop goes on. */
  lemma OpenAIStepEffect(s: OpenAISession, line: Option<string>, modelId: string, apiKey: string, service: Service, other: Service)
    requires s.phase == Reading
    ensures var r := OpenAIStep(s, line, modelId, apiKey, service);
      && r.consumed == s.consumed + 1
      && r.printed[..|s.printed| + 1] == s.printed + [Prompt]
      && (Classify(line) == Skip ==> r.history == s.history && r.phase == Reading && r.printed == s.printed + [Prompt])
      && (Classify(line) == Quit ==> r.history == s.history && r.phase == Exited)
      && (!Classify(line).Dispatch? ==> r == OpenAIStep(s, line, modelId, apiKey, other))
      && (Classify(line).Dispatch? ==>
            var asked := s.history + [ChatMessage(User, line.value)];
            var reply := service(OpenAIRequest(modelId, apiKey, asked));
            && r.phase == Reading
            && r.history == (if Throws(reply) then asked
                             else asked + [ChatMessage(Assistant, Concat(reply.fragments))]))
  {
  }

  /** The loop only ever appends to the transcript, and keeps its shape. */
  lemma {:induction false} OpenAIFeedKeepsTranscript(s: OpenAISession, lines: seq<Option<string>>, modelId: string, apiKey: string, service: Service)
    requires IsTranscript(s.history)
    ensures var r := OpenAIFeed(s, lines, modelId, apiKey, service);
      IsTranscript(r.history) && s.history <= r.history
    decreases |lines|
  {
    if lines != [] && s.phase == Reading {
      var s' := OpenAIStep(s, lines[0], modelId, apiKey, service);
      assert IsTranscript(s'.history) && s.history <= s'.history;
      OpenAIFeedKeepsTranscript(s', lines[1..], modelId, apiKey, service);
    }
  }

  /** Over a run of lines, the OpenAI loop adds one user message per sent
      line, in order, stops exactly when some line is an exit word, and
      reads exactly the lines up to it. */
  lemma OpenAIFeedSummary(s: OpenAISession, lines: seq<Option<string>>, modelId: string, apiKey: string, service: Service)
    requires s.phase == Reading
    ensures var r := OpenAIFeed(s, lines, modelId, apiKey, service);
      && UserTexts(r.history) == UserTexts(s.history) + Dispatched(lines)
      && r.phase == (if HasQuit(lines) then Exited else Reading)
      && r.consumed == s.consumed + UntilQuit(lines)
  {
    OpenAIFeedUserTexts(s, lines, modelId, apiKey, service);
    OpenAIFeedStops(s, lines, modelId, apiKey, service);
  }

  lemma {:induction false} OpenAIFeedUserTexts(s: OpenAISession, lines: seq<Option<string>>, modelId: string, apiKey: string, service: Service)
    requires s.phase == Reading
    ensures UserTexts(OpenAIFeed(s, lines, modelId, apiKey, service).history)
         == UserTexts(s.history) + Dispatched(lines)
    decreases |lines|
  {
    if lines == [] {
      assert UserTexts(s.history) + [] == UserTexts(s.history);
    } else {
      var s' := OpenAIStep(s, lines[0], modelId, apiKey, service);
      var d := if Classify(lines[0]).Dispatch? then [Classify(lines[0]).text] else [];
      assert UserTexts(s'.history) == UserTexts(s.history) + d
        && s'.phase == (if Classify(lines[0]) == Quit then Exited else Reading) by {
        OpenAIStepUserTexts(s, lines[0], modelId, apiKey, service);
      }
      var r := OpenAIFeed(s', lines[1..], modelId, apiKey, service);
      assert OpenAIFeed(s, lines, modelId, apiKey, service) == r by {
        OpenAIFeedUnfold(s, lines, modelId, apiKey, service);
      }
      if Classify(lines[0]) == Quit {
        assert r == s';
        assert Dispatched(lines) == [];
        assert UserTexts(s.history) + [] == UserTexts(s.history);
      } else {
        assert UserTexts(r.history) == UserTexts(s'.history) + Dispatched(lines[1..]) by {
          OpenAIFeedUserTexts(s', lines[1..], modelId, apiKey, service);
        }
        assert Dispatched(lines) == d + Dispatched(lines[1..]);
        AppendThree(UserTexts(s.history), d, Dispatched(lines[1..]));
      }
    }
  }

  lemma {:induction false} OpenAIFeedStops(s: OpenAISession, lines: seq<Option<string>>, modelId: string, apiKey: string, service: Service)
    requires s.phase == Reading
    ensures var r := OpenAIFeed(s, lines, modelId, apiKey, service);
      && r.phase == (if HasQuit(lines) then Exited else Reading)
      && r.consumed == s.consumed + UntilQuit(lines)
    decreases |lines|
  {
    if lines == [] {
      assert !HasQuit(lines);
    } else {
      var s' := OpenAIStep(s, lines[0], modelId, apiKey, service);
      OpenAIStepUserTexts(s, lines[0], modelId, apiKey, service);
      OpenAIFeedUnfold(s, lines, modelId, apiKey, service);
      if Classify(lines[0]) == Quit {
        assert HasQuit(lines) by { assert Classify(lines[0]) == Quit; }
      } else {
        OpenAIFeedStops(s', lines[1..], modelId, apiKey, service);
        HasQuitTail(lines);
      }
    }
  }

  lemma AppendThree(a: seq<string>, b: seq<string>, c: seq<string>)
    ensures a + b + c == a + (b + c)
  {
  }

  /** One line's contribution to the user messages of the transcript. */
  lemma OpenAIStepUserTexts(s: OpenAISession, line: Option<string>, modelId: string, apiKey: string, service: Service)
    requires s.phase == Reading
    ensures var r := OpenAIStep(s, line, modelId, apiKey, service);
      && UserTexts(r.history) == UserTexts(s.history)
           + (if Classify(line).Dispatch? then [Classify(line).text] else [])
      && r.phase == (if Classify(line) == Quit then Exited else Reading)
      && r.consumed == s.consumed + 1
  {
    if Classify(line).Dispatch? {
      var t := Classify(line).text;
      var asked := s.history + [ChatMessage(User, t)];
      UserTextsAppend(s.history, [ChatMessage(User, t)]);
      UserTextsAppend(asked, [ChatMessage(Assistant, Concat(service(OpenAIRequest(modelId, apiKey, asked)).fragments))]);
      assert UserTexts([ChatMessage(User, t)]) == [t];
    }
  }

  /** The same for the Gemini loop, on the messages sent through its chat. */
  lemma {:induction false} GeminiFeedSummary(s: GeminiSession, lines: seq<Option<string>>, modelId: string, apiKey: string, service: Service)
    requires s.phase == Reading
    ensures var r := GeminiFeed(s, lines, modelId, apiKey, service);
      && r.sent == s.sent + Dispatched(lines)
      && r.phase == (if HasQuit(lines) then Exited else Reading)
      && r.consumed == s.consumed + UntilQuit(lines)
    decreases |lines|
  {
    if lines == [] {
      assert !HasQuit(lines);
    } else {
      var s' := GeminiStep(s, lines[0], modelId, apiKey, service);
      match Classify(lines[0])
      case Quit =>
        assert HasQuit(lines) by { assert Classify(lines[0]) == Quit; }
      case Skip =>
        GeminiFeedSummary(s', lines[1..], modelId, apiKey, service);
        HasQuitTail(lines);
      case Dispatch(t) =>
        GeminiFeedSummary(s', lines[1..], modelId, apiKey, service);
        HasQuitTail(lines);
    }
  }

  lemma HasQuitTail(lines: seq<Option<string>>)
    requires lines != [] && Classify(lines[0]) != Quit
    ensures HasQuit(lines) <==> HasQuit(lines[1..])
  {
    if HasQuit(lines) {
      var i :| 0 <= i < |lines| && Classify(lines[i]) == Quit;
      assert lines[1..][i - 1] == lines[i];
    }
    if HasQuit(lines[1..]) {
      var i :| 0 <= i < |lines[1..]| && Classify(lines[1..][i]) == Quit;
      assert lines[i + 1] == lines[1..][i];
    }
  }

  /** The OpenAI console transcript: the instruction at index 0, then one
      user message per sent line in order, each successful one followed by
      its reply. */
  lemma OpenAIChatTranscript(cfg: Config, lines: seq<Option<string>>, service: Service)
    requires KeyConfigured(cfg, OpenAI)
    ensures var r := OpenAIChat(cfg, lines, service);
      && IsTranscript(r.history)
      && UserTexts(r.history) == Dispatched(lines)
  {
    var s := OpenAISession([ChatMessage(System, Instruction)], [], 0, Reading);
    OpenAIFeedKeepsTranscript(s, lines, ModelId(cfg, OpenAI), CheckedKey(cfg, OpenAI), service);
    OpenAIFeedSummary(s, lines, ModelId(cfg, OpenAI), CheckedKey(cfg, OpenAI), service);
    assert UserTexts(s.history) == [];
  }

  /** How a console run ends. Only "OpenAI" and "Gemini" start a loop; any
      other name prints the unsupported-provider error. A bad key is
      reported before any line is read. A loop ends only on an exit word:
      a failed turn never stops it. */
  lemma ConsoleOutcome(cfg: Config, lines: seq<Option<string>>, service: Service)
    ensures var run := Console(cfg, lines, service);
      var p := ProviderName(cfg);
      && (!Supported(p) ==>
            run == Run([Welcome(p), UnsupportedProvider(p)], 0, ProviderRejected))
      && (Supported(p) && !KeyConfigured(cfg, p) ==>
            run == Run([Welcome(p), KeyMissing(p)], 0, KeyRejected))
      && (run.phase == Exited <==> Supported(p) && KeyConfigured(cfg, p) && HasQuit(lines) && !run.phase.Crashed?)
      && (run.phase == Reading <==> Supported(p) && KeyConfigured(cfg, p) && !HasQuit(lines) && !run.phase.Crashed?)
      && (run.phase.Crashed? ==> p == Gemini && run.consumed == 0)
      && (Supported(p) && KeyConfigured(cfg, p) && !run.phase.Crashed? ==> run.consumed == UntilQuit(lines))
  {
    var p := ProviderName(cfg);
    if p == OpenAI && KeyConfigured(cfg, p) {
      OpenAIFeedSummary(OpenAISession([ChatMessage(System, Instruction)], [], 0, Reading), lines,
                        ModelId(cfg, OpenAI), CheckedKey(cfg, OpenAI), service);
    } else if p == Gemini && KeyConfigured(cfg, p) {
      GeminiFeedSummary(GeminiSession([Instruction], [], 0, Reading), lines,
                        ModelId(cfg, Gemini), CheckedKey(cfg, Gemini), service);
    }
  }

  /** A missing `Provider` setting runs the OpenAI loop. */
  lemma ConsoleDefaultsToOpenAI(cfg: Config, lines: seq<Option<string>>, service: Service)
    requires ProviderKey !in cfg
    ensures Console(cfg, lines, service) == Console(cfg[ProviderKey := OpenAI], lines, service)
    ensures Console(cfg, lines, service).printed[0] == Welcome(OpenAI)
  {
    var cfg' := cfg[ProviderKey := OpenAI];
    assert Setting(cfg', OpenAIKeyKey) == Setting(cfg, OpenAIKeyKey);
    assert Setting(cfg', OpenAIModelKey) == Setting(cfg, OpenAIModelKey);
  }
}

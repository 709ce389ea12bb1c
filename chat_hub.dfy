/** The SignalR hub of the web front end (MyChatBot.Web/Hubs/ChatHub.cs).
    One `SendMessage` invocation reads the configuration, calls the
    selected provider, and sends events to the calling connection only.
    Delivery to the caller is modelled as the list of events sent, in
    order. */
module Hubs {
  import opened Wrappers
  import opened Settings
  import opened Streams
  import opened Vendor

  /** The outbound events of the application protocol. */
  datatype Event =
    | ReceiveMessageChunk(content: string)
    | ReceiveMessageComplete
    | ReceiveError(message: string)
  {
    predicate Terminal() { !ReceiveMessageChunk? }
  }

  const OpenAIKeyMissing := "OpenAI APIキーが設定されていません"
  const GeminiKeyMissing := "Gemini APIキーが設定されていません"

  /** What a provider branch sent before returning, and the message of the
      exception it let escape, if any. */
  datatype Outcome = Outcome(sent: seq<Event>, thrown: Option<string>)

  function Chunks(ts: seq<string>): seq<Event>
  {
    seq(|ts|, i requires 0 <= i < |ts| => ReceiveMessageChunk(ts[i]))
  }

  /** The payloads of the chunk events, one after another: the text a
      client assembles. */
  function ChunkText(es: seq<Event>): string
  {
    if es == [] then ""
    else (if es[0].ReceiveMessageChunk? then es[0].content else "") + ChunkText(es[1..])
  }

  /** The shape promised to the caller: chunks with non-empty payloads,
      then exactly one terminal event; or nothing at all. */
  predicate WellFormedReply(es: seq<Event>)
  {
    es == [] ||
    (es[|es| - 1].Terminal() &&
     forall i :: 0 <= i < |es| - 1 ==> es[i].ReceiveMessageChunk? && es[i].content != "")
  }

  /** The request a provider branch makes once its key is accepted. OpenAI
      gets a fresh history of the instruction and the message; Gemini a
      fresh chat holding only the message (this branch sends no
      instruction). */
  function RequestFor(cfg: Config, provider: string, message: string): Request
    requires Supported(provider) && KeyConfigured(cfg, provider)
  {
    if provider == OpenAI then
      OpenAIRequest(ModelId(cfg, OpenAI), CheckedKey(cfg, OpenAI),
                    [ChatMessage(System, Instruction), ChatMessage(User, message)])
    else
      GeminiRequest(ModelId(cfg, Gemini), CheckedKey(cfg, Gemini), [message])
  }

  /** The `await foreach` loop: one chunk event per non-empty fragment, in
      order, until the stream ends or throws. */
  function Relayed(s: Stream): seq<Event>
  {
    Chunks(NonEmptyTexts(Delivered(s)))
  }

  /** `StreamOpenAI` / `StreamGemini`: the key check, then the relay and,
      if the stream did not throw, one completion event. */
  function Attempt(cfg: Config, provider: string, message: string, service: Service): Outcome
    requires Supported(provider)
  {
    if !KeyConfigured(cfg, provider) then
      Outcome([ReceiveError(if provider == OpenAI then OpenAIKeyMissing else GeminiKeyMissing)], None)
    else
      var s := service(RequestFor(cfg, provider, message));
      Outcome(Relayed(s) + (if Throws(s) then [] else [ReceiveMessageComplete]), Thrown(s))
  }

  /** `SendMessage`: what the caller receives. An exception escaping the
      provider branch becomes one error event; a provider name other than
      the two supported sends nothing. */
  function Reply(cfg: Config, message: string, service: Service): seq<Event>
  {
    var provider := ProviderName(cfg);
    if Supported(provider) then
      var o := Attempt(cfg, provider, message, service);
      o.sent + (if o.thrown.Some? then [ReceiveError(o.thrown.value)] else [])
    else []
  }

  class ChatHub {
    const configuration: Config

    constructor (configuration: Config)
      ensures this.configuration == configuration
    {
      this.configuration := configuration;
    }

    method SendMessage(message: string, service: Service) returns (sent: seq<Event>)
      ensures sent == Reply(configuration, message, service)
    {
      var provider := ProviderName(configuration);
      var thrown: Option<string> := None;
      sent := [];
      if provider == OpenAI {
        sent, thrown := StreamOpenAI(message, service);
      } else if provider == Gemini {
        sent, thrown := StreamGemini(message, service);
      }
      if thrown.Some? {
        sent := sent + [ReceiveError(thrown.value)];
      }
    }

    method StreamOpenAI(message: string, service: Service) returns (sent: seq<Event>, thrown: Option<string>)
      ensures Outcome(sent, thrown) == Attempt(configuration, OpenAI, message, service)
    {
      var apiKey := Setting(configuration, OpenAIKeyKey);
      var modelId := Setting(configuration, OpenAIModelKey).GetOr(DefaultOpenAIModel);
      if apiKey.None? || apiKey.value == "" || apiKey.value == OpenAIPlaceholder {
        return [ReceiveError(OpenAIKeyMissing)], None;
      }
      var chatHistory := [ChatMessage(System, Instruction)];
      chatHistory := chatHistory + [ChatMessage(User, message)];
      assert OpenAIRequest(modelId, apiKey.value, chatHistory) == RequestFor(configuration, OpenAI, message);
      sent, thrown := Relay(service(OpenAIRequest(modelId, apiKey.value, chatHistory)));
      if thrown.None? {
        sent := sent + [ReceiveMessageComplete];
      }
    }

    method StreamGemini(message: string, service: Service) returns (sent: seq<Event>, thrown: Option<string>)
      ensures Outcome(sent, thrown) == Attempt(configuration, Gemini, message, service)
    {
      var apiKey := Setting(configuration, GeminiKeyKey);
      var modelId := Setting(configuration, GeminiModelKey).GetOr(DefaultGeminiModel);
      if apiKey.None? || apiKey.value == "" || apiKey.value == GeminiPlaceholder {
        return [ReceiveError(GeminiKeyMissing)], None;
      }
      sent, thrown := Relay(service(GeminiRequest(modelId, apiKey.value, [message])));
      if thrown.None? {
        sent := sent + [ReceiveMessageComplete];
      }
    }

    /** The `await foreach` loop shared by both branches. */
    static method Relay(stream: Stream) returns (sent: seq<Event>, thrown: Option<string>)
      ensures sent == Chunks(NonEmptyTexts(Delivered(stream)))
      ensures thrown == Thrown(stream)
    {
      sent := [];
      var i := 0;
      while i < |stream.fragments| && !FailsAt(stream, i)
        invariant 0 <= i <= |stream.fragments|
        invariant FineBefore(stream, i)
        invariant sent == Chunks(NonEmptyTexts(stream.fragments[..i]))
      {
        var content := TextOf(stream.fragments[i]);
        if content != "" {
          sent := sent + [ReceiveMessageChunk(content)];
        }
        RelayStep(stream.fragments, i);
        i := i + 1;
      }
      assert i == |stream.fragments| ==> stream.fragments[..i] == stream.fragments;
      assert Delivered(stream) == stream.fragments[..i];
      if FailsAt(stream, i) {
        thrown := Some(stream.failure.value.message);
      } else {
        thrown := None;
      }
    }
  }

  /** One more fragment through the relay loop. */
  lemma RelayStep(fs: seq<Option<string>>, i: nat)
    requires i < |fs|
    ensures Chunks(NonEmptyTexts(fs[..i + 1])) ==
      Chunks(NonEmptyTexts(fs[..i])) +
      (if TextOf(fs[i]) == "" then [] else [ReceiveMessageChunk(TextOf(fs[i]))])
  {
    assert fs[..i + 1] == fs[..i] + [fs[i]];
    NonEmptySnoc(fs[..i], fs[i]);
    var ts := NonEmptyTexts(fs[..i]);
    if TextOf(fs[i]) != "" {
      assert Chunks(ts + [TextOf(fs[i])]) == Chunks(ts) + [ReceiveMessageChunk(TextOf(fs[i]))];
    } else {
      assert ts + [] == ts;
    }
  }

  lemma {:induction false} ChunkTextOfChunks(ts: seq<string>)
    ensures ChunkText(Chunks(ts)) == Join(ts)
  {
    if ts != [] {
      assert Chunks(ts)[1..] == Chunks(ts[1..]);
      ChunkTextOfChunks(ts[1..]);
    }
  }

  lemma {:induction false} ChunkTextAppend(a: seq<Event>, b: seq<Event>)
    ensures ChunkText(a + b) == ChunkText(a) + ChunkText(b)
  {
    if a == [] {
      assert a + b == b;
    } else {
      assert (a + b)[1..] == a[1..] + b;
      ChunkTextAppend(a[1..], b);
    }
  }

  /** The chunk payloads a supported provider's invocation sends. */
  function ReplyTexts(cfg: Config, message: string, service: Service): seq<string>
    requires Supported(ProviderName(cfg))
  {
    if !KeyConfigured(cfg, ProviderName(cfg)) then []
    else NonEmptyTexts(Delivered(service(RequestFor(cfg, ProviderName(cfg), message))))
  }

  /** The terminal event a supported provider's invocation ends with. */
  function ReplyEnd(cfg: Config, message: string, service: Service): Event
    requires Supported(ProviderName(cfg))
  {
    var provider := ProviderName(cfg);
    if !KeyConfigured(cfg, provider) then
      ReceiveError(if provider == OpenAI then OpenAIKeyMissing else GeminiKeyMissing)
    else
      var s := service(RequestFor(cfg, provider, message));
      if Throws(s) then ReceiveError(s.failure.value.message) else ReceiveMessageComplete
  }

  /** A supported provider's reply is its chunks, then its one terminal
      event, and the chunks carry all the chunk text. */
  lemma ReplySplit(cfg: Config, message: string, service: Service)
    requires Supported(ProviderName(cfg))
    ensures Reply(cfg, message, service) ==
      Chunks(ReplyTexts(cfg, message, service)) + [ReplyEnd(cfg, message, service)]
    ensures ReplyEnd(cfg, message, service).Terminal()
    ensures ChunkText(Reply(cfg, message, service)) == Join(ReplyTexts(cfg, message, service))
  {
    var ts := ReplyTexts(cfg, message, service);
    var t := ReplyEnd(cfg, message, service);
    ChunkTextAppend(Chunks(ts), [t]);
    ChunkTextOfChunks(ts);
    assert ChunkText([t]) == "";
  }

  /** Every invocation answers in the promised shape, and it answers with
      nothing exactly when the provider name is not one of the two. */
  lemma ReplyShape(cfg: Config, message: string, service: Service)
    ensures WellFormedReply(Reply(cfg, message, service))
    ensures Reply(cfg, message, service) == [] <==> !Supported(ProviderName(cfg))
  {
  }

  /** A missing `Provider` setting behaves as "OpenAI". */
  lemma MissingProviderMeansOpenAI(cfg: Config, message: string, service: Service)
    requires ProviderKey !in cfg
    ensures Reply(cfg, message, service) == Reply(cfg[ProviderKey := OpenAI], message, service)
  {
    var cfg' := cfg[ProviderKey := OpenAI];
    assert Setting(cfg', OpenAIKeyKey) == Setting(cfg, OpenAIKeyKey);
    assert Setting(cfg', OpenAIModelKey) == Setting(cfg, OpenAIModelKey);
  }

  /** An unset, empty or placeholder key: one provider-specific error event,
      and the service is never asked for anything. */
  lemma UnconfiguredKeyReply(cfg: Config, message: string, service: Service, other: Service)
    requires Supported(ProviderName(cfg)) && !KeyConfigured(cfg, ProviderName(cfg))
    ensures Reply(cfg, message, service) ==
      [ReceiveError(if ProviderName(cfg) == OpenAI then OpenAIKeyMissing else GeminiKeyMissing)]
    ensures Reply(cfg, message, service) == Reply(cfg, message, other)
  {
  }

  /** A stream that does not throw: its non-empty fragments as chunks in
      arrival order, then one completion, and no error. The chunk payloads
      put together are all the fragments put together. */
  lemma SuccessfulReply(cfg: Config, message: string, service: Service)
    requires Supported(ProviderName(cfg)) && KeyConfigured(cfg, ProviderName(cfg))
    requires !Throws(service(RequestFor(cfg, ProviderName(cfg), message)))
    ensures var s := service(RequestFor(cfg, ProviderName(cfg), message));
      var r := Reply(cfg, message, service);
      && r == Chunks(NonEmptyTexts(s.fragments)) + [ReceiveMessageComplete]
      && ChunkText(r) == Concat(s.fragments)
      && forall i :: 0 <= i < |r| ==> !r[i].ReceiveError?
  {
    var s := service(RequestFor(cfg, ProviderName(cfg), message));
    var ts := NonEmptyTexts(s.fragments);
    ChunkTextAppend(Chunks(ts), [ReceiveMessageComplete]);
    ChunkTextOfChunks(ts);
    assert ChunkText([ReceiveMessageComplete]) == "";
  }

  /** A stream that throws after `k` fragments: the chunks for the
      non-empty fragments among those `k`, then one error event carrying
      the exception's message, and no completion. */
  lemma FailedReply(cfg: Config, message: string, service: Service)
    requires Supported(ProviderName(cfg)) && KeyConfigured(cfg, ProviderName(cfg))
    requires Throws(service(RequestFor(cfg, ProviderName(cfg), message)))
    ensures var s := service(RequestFor(cfg, ProviderName(cfg), message));
      var r := Reply(cfg, message, service);
      && r == Chunks(NonEmptyTexts(s.fragments[..s.failure.value.after]))
              + [ReceiveError(s.failure.value.message)]
      && ChunkText(r) == Concat(s.fragments[..s.failure.value.after])
      && forall i :: 0 <= i < |r| ==> r[i] != ReceiveMessageComplete
  {
    var s := service(RequestFor(cfg, ProviderName(cfg), message));
    var ts := NonEmptyTexts(s.fragments[..s.failure.value.after]);
    ChunkTextAppend(Chunks(ts), [ReceiveError(s.failure.value.message)]);
    ChunkTextOfChunks(ts);
    assert ChunkText([ReceiveError(s.failure.value.message)]) == "";
  }

  /** Each call starts from scratch: OpenAI gets exactly [instruction,
      message], Gemini a new chat holding only the message, and the model
      id falls back to the provider's default when unset. */
  lemma FreshRequest(cfg: Config, provider: string, message: string)
    requires Supported(provider) && KeyConfigured(cfg, provider)
    ensures provider == OpenAI ==>
      RequestFor(cfg, provider, message).OpenAIRequest? &&
      RequestFor(cfg, provider, message).history ==
        [ChatMessage(System, Instruction), ChatMessage(User, message)]
    ensures provider == Gemini ==>
      RequestFor(cfg, provider, message).GeminiRequest? &&
      RequestFor(cfg, provider, message).sent == [message]
    ensures provider == OpenAI && OpenAIModelKey !in cfg ==>
      RequestFor(cfg, provider, message).modelId == "gpt-4o"
    ensures provider == Gemini && GeminiModelKey !in cfg ==>
      RequestFor(cfg, provider, message).modelId == "gemini-2.0-flash-exp"
  {
  }

  /** The scenario of a valid OpenAI configuration answering "Hello" with
      "Hi", " there" and "!". */
  lemma HelloScenario(service: Service)
    requires service(OpenAIRequest("gpt-4o", "sk-test",
      [ChatMessage(System, Instruction), ChatMessage(User, "Hello")]))
      == Stream([Some("Hi"), Some(" there"), Some("!")], None)
    ensures Reply(map[ProviderKey := OpenAI, OpenAIKeyKey := "sk-test"], "Hello", service)
      == [ReceiveMessageChunk("Hi"), ReceiveMessageChunk(" there"), ReceiveMessageChunk("!"),
          ReceiveMessageComplete]
  {
    var cfg := map[ProviderKey := OpenAI, OpenAIKeyKey := "sk-test"];
    assert RequestFor(cfg, OpenAI, "Hello") == OpenAIRequest("gpt-4o", "sk-test",
      [ChatMessage(System, Instruction), ChatMessage(User, "Hello")]);
    var fs := [Some("Hi"), Some(" there"), Some("!")];
    assert NonEmptyTexts(fs[2..]) == ["!"];
    assert NonEmptyTexts(fs[1..]) == [" there", "!"];
    assert NonEmptyTexts(fs) == ["Hi", " there", "!"];
  }

  /** A stream that throws after two non-empty fragments: two chunks, then
      the error, no completion. */
  lemma MidStreamFailureScenario(cfg: Config, message: string, service: Service)
    requires Supported(ProviderName(cfg)) && KeyConfigured(cfg, ProviderName(cfg))
    requires service(RequestFor(cfg, ProviderName(cfg), message))
      == Stream([Some("a"), Some("b"), Some("c")], Some(Fault(2, "network")))
    ensures Reply(cfg, message, service)
      == [ReceiveMessageChunk("a"), ReceiveMessageChunk("b"), ReceiveError("network")]
  {
    var fs: seq<Option<string>> := [Some("a"), Some("b")];
    assert [Some("a"), Some("b"), Some("c")][..2] == fs;
    assert NonEmptyTexts(fs[1..]) == ["b"];
    assert NonEmptyTexts(fs) == ["a", "b"];
  }
}

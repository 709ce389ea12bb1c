/** What the program hands to a vendor SDK. The SDK itself is left out: a
    `Service` maps each request to the stream it answers with. */
module Vendor {
  import opened Streams

  datatype Role = System | User | Assistant

  /** One entry of a Semantic Kernel `ChatHistory`. */
  datatype ChatMessage = ChatMessage(role: Role, text: string)

  /** The fixed instruction ("you are a kind, knowledgeable assistant;
      answer politely in Japanese"). */
  const Instruction := "あなたは親切で知識豊富なアシスタントです。日本語で丁寧に応答してください。"

  /** A streaming call. For OpenAI: the model, the key and the chat history
      passed to `GetStreamingChatMessageContentsAsync`. For Gemini: the
      model, the key and every message sent through one `StartChat()`
      session so far, the last being the one now sent. */
  datatype Request =
    | OpenAIRequest(modelId: string, apiKey: string, history: seq<ChatMessage>)
    | GeminiRequest(modelId: string, apiKey: string, sent: seq<string>)

  type Service = Request -> Stream
}

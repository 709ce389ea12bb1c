/** The configuration both entry points read: the provider name, and per
    provider an API key and a model id. A key missing from the map reads as
    null, as `IConfiguration[key]` does. */
module Settings {
  import opened Wrappers
  import opened Text

  type Config = map<string, string>

  const ProviderKey := "Provider"
  const OpenAIKeyKey := "OpenAI:ApiKey"
  const OpenAIModelKey := "OpenAI:ModelId"
  const GeminiKeyKey := "Gemini:ApiKey"
  const GeminiModelKey := "Gemini:ModelId"

  const OpenAI := "OpenAI"
  const Gemini := "Gemini"

  const DefaultOpenAIModel := "gpt-4o"
  const DefaultGeminiModel := "gemini-2.0-flash-exp"

  const OpenAIPlaceholder := "YOUR_OPENAI_API_KEY_HERE"
  const GeminiPlaceholder := "YOUR_GEMINI_API_KEY_HERE"

  /** `configuration[key]`: null when the key is absent. */
  function Setting(cfg: Config, key: string): Option<string>
  {
    if key in cfg then Some(cfg[key]) else None
  }

  /** `configuration["Provider"] ?? "OpenAI"`: only a missing setting takes
      the default; an empty string stays empty. */
  function ProviderName(cfg: Config): string
  {
    Setting(cfg, ProviderKey).GetOr(OpenAI)
  }

  /** The two provider names either entry point acts on. */
  predicate Supported(provider: string)
  {
    provider == OpenAI || provider == Gemini
  }

  function ApiKey(cfg: Config, provider: string): Option<string>
  {
    Setting(cfg, if provider == OpenAI then OpenAIKeyKey else GeminiKeyKey)
  }

  function Placeholder(provider: string): string
  {
    if provider == OpenAI then OpenAIPlaceholder else GeminiPlaceholder
  }

  /** `configuration["<provider>:ModelId"] ?? <default>`. */
  function ModelId(cfg: Config, provider: string): string
  {
    if provider == OpenAI then Setting(cfg, OpenAIModelKey).GetOr(DefaultOpenAIModel)
    else Setting(cfg, GeminiModelKey).GetOr(DefaultGeminiModel)
  }

  /** The key check both entry points make before contacting a provider:
      not null, not empty, and not the placeholder shipped in
      appsettings.json. A key of spaces passes. */
  predicate KeyConfigured(cfg: Config, provider: string)
  {
    var key := ApiKey(cfg, provider);
    !IsNullOrEmpty(key) && key.value != Placeholder(provider)
  }

  /** A provider's key, on the path where `KeyConfigured` holds. */
  function CheckedKey(cfg: Config, provider: string): string
    requires KeyConfigured(cfg, provider)
  {
    ApiKey(cfg, provider).value
  }

  /** The model ids fall back to their defaults exactly when unset, and a
      key is rejected exactly when it is null, empty or the placeholder. */
  lemma SettingDefaults(cfg: Config, provider: string)
    requires Supported(provider)
    ensures OpenAIModelKey !in cfg ==> ModelId(cfg, OpenAI) == "gpt-4o"
    ensures GeminiModelKey !in cfg ==> ModelId(cfg, Gemini) == "gemini-2.0-flash-exp"
    ensures ProviderKey !in cfg ==> ProviderName(cfg) == "OpenAI"
    ensures !KeyConfigured(cfg, provider) <==>
      (var k := if provider == OpenAI then OpenAIKeyKey else GeminiKeyKey;
       k !in cfg || cfg[k] == "" || cfg[k] == Placeholder(provider))
  {
  }
}

/** The quote (AI) provider table (src/config/aiProviders.ts). */
module AiProviders {
  import opened Wrappers
  import opened Types

  datatype AiProviderConfig = AiProviderConfig(
    id: AiProvider,
    name: string,
    description: string,
    requiresApiKey: bool,
    getKeyUrl: Option<string>,
    icon: Option<string>)

  /** `AI_PROVIDERS[p]`, which is also `getProviderConfig(p)`: meta and groq are
      provider ids without an entry, so the lookup gives `undefined` for them. */
  function ProviderConfigOf(p: AiProvider): (c: Option<AiProviderConfig>)
    ensures c.Some? <==> p !in {Meta, Groq}
    ensures c.Some? ==> c.value.id == p
  {
    match p
    case Free => Some(AiProviderConfig(Free, "Free AI", "Basic AI quotes (no API key required)",
      false, None, Some("\U{1F193}")))
    case OpenAi => Some(AiProviderConfig(OpenAi, "OpenAI GPT", "Advanced AI with GPT models",
      true, Some("https://platform.openai.com/api-keys"), Some("\U{1F916}")))
    case Anthropic => Some(AiProviderConfig(Anthropic, "Anthropic Claude", "Claude AI for thoughtful responses",
      true, Some("https://console.anthropic.com/"), Some("\U{1F9E0}")))
    case Google => Some(AiProviderConfig(Google, "Google Gemini", "Google's Gemini AI model",
      true, Some("https://aistudio.google.com/app/apikey"), Some("\U{1F31F}")))
    case Azure => Some(AiProviderConfig(Azure, "Azure OpenAI", "Enterprise OpenAI through Azure",
      true, Some("https://portal.azure.com/"), Some("\U{2601}\U{FE0F}")))
    case _ => None
  }

  /** `DEFAULT_AI_PROVIDER`. */
  const DEFAULT_AI_PROVIDER: AiProvider := Free

  /** The entries in the table's declaration order, which `Object.values` follows. */
  const AI_PROVIDER_ORDER: seq<AiProvider> := [Free, OpenAi, Anthropic, Google, Azure]

  /** `getProviderList()`: every entry of the table, in declaration order. */
  function ProviderList(): (list: seq<AiProviderConfig>)
    ensures |list| == |AI_PROVIDER_ORDER|
    ensures forall i | 0 <= i < |list| :: Some(list[i]) == ProviderConfigOf(AI_PROVIDER_ORDER[i])
  {
    seq(|AI_PROVIDER_ORDER|, i requires 0 <= i < |AI_PROVIDER_ORDER| => ProviderConfigOf(AI_PROVIDER_ORDER[i]).value)
  }

  /** The list holds exactly the providers that have an entry. */
  lemma ProviderListCoversTable(p: AiProvider)
    ensures ProviderConfigOf(p).Some? <==> p in AI_PROVIDER_ORDER
  {
  }

  /** Only the free tier works without a key, and it is the default. */
  lemma KeyRequirement(p: AiProvider)
    requires ProviderConfigOf(p).Some?
    ensures !ProviderConfigOf(p).value.requiresApiKey <==> p == Free
    ensures DEFAULT_AI_PROVIDER == Free
  {
  }

  /** Every provider that needs a key says where to get one. */
  lemma KeyUrlWhenRequired(p: AiProvider)
    requires ProviderConfigOf(p).Some? && ProviderConfigOf(p).value.requiresApiKey
    ensures ProviderConfigOf(p).value.getKeyUrl.Some?
  {
  }
}

/** `data/repository/SettingsRepository.kt`: the model configuration kept in
    a string-to-string preference table under six keys.  Decoding fills in
    defaults for missing or unparsable entries; saving writes the six keys.
    `Float.toString` and `String.toFloatOrNull` are passed in as opaque
    functions, since temperatures are kept as bit patterns. */
module Settings {
  import opened Wrappers
  import opened Text
  import opened Models

  type Prefs = map<string, string>

  const API_KEY: string := "api_key"
  const BASE_URL: string := "base_url"
  const MODEL: string := "model"
  const PROVIDER: string := "provider"
  const TEMPERATURE: string := "temperature"
  const MAX_TOKENS: string := "max_tokens"

  /** Every key the repository writes. */
  function Keys(): set<string> {
    {API_KEY, BASE_URL, MODEL, PROVIDER, TEMPERATURE, MAX_TOKENS}
  }

  /** `prefs[key]`: the stored value or null. */
  function Lookup(prefs: Prefs, key: string): (r: Option<string>)
    ensures r.Some? <==> key in prefs
    ensures r.Some? ==> r.value == prefs[key]
  {
    if key in prefs then Some(prefs[key]) else None
  }

  /** `prefs[key]?.toIntOrNull()`. */
  function LookupInt(prefs: Prefs, key: string): Option<Int32> {
    match Lookup(prefs, key)
    case None => None
    case Some(s) => ParseInt(s)
  }

  /** `prefs[key]?.toFloatOrNull()`. */
  function LookupFloat(prefs: Prefs, key: string, parseFloat: string -> Option<Float>): Option<Float> {
    match Lookup(prefs, key)
    case None => None
    case Some(s) => parseFloat(s)
  }

  /** The `modelConfig` mapping. The display name is the stored provider
      string, falling back to "OpenAI"; there is no key of its own. */
  function DecodeConfig(prefs: Prefs, parseFloat: string -> Option<Float>): (c: ModelConfig)
    ensures PROVIDER in prefs ==> c.name == c.provider == prefs[PROVIDER]
    ensures PROVIDER !in prefs ==> c.name == "OpenAI" && c.provider == "openai"
  {
    ModelConfig(
      name := Lookup(prefs, PROVIDER).GetOr("OpenAI"),
      provider := Lookup(prefs, PROVIDER).GetOr("openai"),
      baseUrl := Lookup(prefs, BASE_URL).GetOr("https://api.openai.com/v1"),
      apiKey := Lookup(prefs, API_KEY).GetOr(""),
      model := Lookup(prefs, MODEL).GetOr("gpt-4"),
      temperature := LookupFloat(prefs, TEMPERATURE, parseFloat).GetOr(DefaultTemperature),
      maxTokens := LookupInt(prefs, MAX_TOKENS).GetOr(DefaultMaxTokens))
  }

  /** The body of the `saveModelConfig` edit: six assignments. */
  function EncodeConfig(prefs: Prefs, config: ModelConfig, formatFloat: Float -> string): (r: Prefs)
    ensures r.Keys == prefs.Keys + Keys()
    ensures forall k :: k in prefs && k !in Keys() ==> r[k] == prefs[k]
  {
    prefs[API_KEY := config.apiKey]
         [BASE_URL := config.baseUrl]
         [MODEL := config.model]
         [PROVIDER := config.provider]
         [TEMPERATURE := formatFloat(config.temperature)]
         [MAX_TOKENS := IntToString(config.maxTokens)]
  }

  /** An empty table decodes to the OpenAI defaults. */
  lemma DecodeEmpty(parseFloat: string -> Option<Float>)
    ensures DecodeConfig(map[], parseFloat)
         == ModelConfig(name := "OpenAI", provider := "openai",
                        baseUrl := "https://api.openai.com/v1", apiKey := "",
                        model := "gpt-4", temperature := DefaultTemperature, maxTokens := 4096)
  {
  }

  /** A `max_tokens` entry that is not an `Int` decodes to 4096. */
  lemma DecodeBadMaxTokens(prefs: Prefs, parseFloat: string -> Option<Float>)
    requires MAX_TOKENS in prefs && ParseInt(prefs[MAX_TOKENS]) == None
    ensures DecodeConfig(prefs, parseFloat).maxTokens == 4096
  {
  }

  /** Saving writes the six keys and leaves every other entry alone; the
      config's name is not among them. */
  lemma EncodeKeys(prefs: Prefs, config: ModelConfig, formatFloat: Float -> string)
    ensures var p := EncodeConfig(prefs, config, formatFloat);
            && p.Keys == prefs.Keys + Keys()
            && (forall k :: k in prefs && k !in Keys() ==> p[k] == prefs[k])
            && p[API_KEY] == config.apiKey && p[BASE_URL] == config.baseUrl
            && p[MODEL] == config.model && p[PROVIDER] == config.provider
            && p[TEMPERATURE] == formatFloat(config.temperature)
            && p[MAX_TOKENS] == IntToString(config.maxTokens)
  {
  }

  /** Decoding what was saved gives back the config, except that the name
      becomes the provider and the temperature is whatever the float
      formatting and parsing make of it. */
  lemma DecodeEncode(prefs: Prefs, config: ModelConfig, formatFloat: Float -> string,
                     parseFloat: string -> Option<Float>)
    ensures DecodeConfig(EncodeConfig(prefs, config, formatFloat), parseFloat)
         == config.(name := config.provider,
                    temperature := parseFloat(formatFloat(config.temperature)).GetOr(DefaultTemperature))
  {
    ParseIntToString(config.maxTokens);
  }

  /** The preference store of the repository. */
  class SettingsRepository {
    var prefs: Prefs
    /** `String.toFloatOrNull` and `Float.toString`. */
    const parseFloat: string -> Option<Float>
    const formatFloat: Float -> string

    constructor (parseFloat: string -> Option<Float>, formatFloat: Float -> string)
      ensures prefs == map[]
      ensures this.parseFloat == parseFloat && this.formatFloat == formatFloat
    {
      prefs := map[];
      this.parseFloat := parseFloat;
      this.formatFloat := formatFloat;
    }

    /** The current value of the `modelConfig` flow. */
    function Config(): ModelConfig
      reads this
    {
      DecodeConfig(prefs, parseFloat)
    }

    /** `saveModelConfig`. */
    method SaveModelConfig(config: ModelConfig)
      modifies this
      ensures prefs == EncodeConfig(old(prefs), config, formatFloat)
      ensures Config() == config.(name := config.provider,
                  temperature := parseFloat(formatFloat(config.temperature)).GetOr(DefaultTemperature))
    {
      prefs := prefs[API_KEY := config.apiKey];
      prefs := prefs[BASE_URL := config.baseUrl];
      prefs := prefs[MODEL := config.model];
      prefs := prefs[PROVIDER := config.provider];
      prefs := prefs[TEMPERATURE := formatFloat(config.temperature)];
      prefs := prefs[MAX_TOKENS := IntToString(config.maxTokens)];
      DecodeEncode(old(prefs), config, formatFloat, parseFloat);
    }
  }
}

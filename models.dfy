/** The chat entities of `data/model/Models.kt`: message roles, messages,
    conversations, the model configuration and its presets. */
module Models {
  import opened Text

  datatype MessageRole = USER | ASSISTANT | SYSTEM

  /** A chat message. `id` 0 means "not yet assigned by the database". */
  datatype Message = Message(
    id: int := 0,
    conversationId: int,
    role: MessageRole,
    content: string,
    timestamp: int)

  /** A conversation. `id` 0 means "not yet assigned by the database". */
  datatype Conversation = Conversation(
    id: int := 0,
    title: string,
    createdAt: int,
    updatedAt: int)

  /** A Kotlin `Float`, kept as its IEEE-754 bit pattern: the model never
      computes with temperatures, it only stores and forwards them. */
  datatype Float = FloatBits(bits: bv32)

  /** `0.7f`. */
  const DefaultTemperature: Float := FloatBits(0x3F33_3333)

  const DefaultMaxTokens: Int32 := 4096

  /** The API configuration. */
  datatype ModelConfig = ModelConfig(
    name: string,
    provider: string,
    baseUrl: string,
    apiKey: string := "",
    model: string := "",
    temperature: Float := DefaultTemperature,
    maxTokens: Int32 := DefaultMaxTokens)

  /** The `PresetModels` object. */
  const OpenAi: ModelConfig :=
    ModelConfig(name := "OpenAI", provider := "openai",
                baseUrl := "https://api.openai.com/v1", model := "gpt-4")
  const Anthropic: ModelConfig :=
    ModelConfig(name := "Anthropic", provider := "anthropic",
                baseUrl := "https://api.anthropic.com/v1", model := "claude-3-opus-20240229")
  const Custom: ModelConfig :=
    ModelConfig(name := "自定义", provider := "custom", baseUrl := "", model := "")

  /** `PresetModels.presets`. */
  function Presets(): (ps: seq<ModelConfig>)
    ensures |ps| == 3
    ensures ps[0].provider == "openai" && ps[1].provider == "anthropic" && ps[2].provider == "custom"
    ensures forall i :: 0 <= i < |ps| ==>
              ps[i].apiKey == "" && ps[i].temperature == DefaultTemperature && ps[i].maxTokens == 4096
  {
    [OpenAi, Anthropic, Custom]
  }

  /** The defaults `ModelConfig` fills in, and the preset values. */
  lemma ModelConfigDefaults(name: string, provider: string, baseUrl: string)
    ensures var c := ModelConfig(name := name, provider := provider, baseUrl := baseUrl);
            c.apiKey == "" && c.model == "" && c.maxTokens == 4096 && c.temperature == FloatBits(0x3F33_3333)
    ensures OpenAi.baseUrl == "https://api.openai.com/v1" && OpenAi.model == "gpt-4"
    ensures Custom.baseUrl == "" && Custom.model == ""
  {
  }

  /** Messages and conversations are created with the unassigned id 0. */
  lemma NewRowsAreUnassigned(conversationId: int, role: MessageRole, content: string, title: string, now: int)
    ensures Message(conversationId := conversationId, role := role, content := content, timestamp := now).id == 0
    ensures Conversation(title := title, createdAt := now, updatedAt := now).id == 0
  {
  }
}

/**
 The values passed between the chat component, the server action and the
 dispatcher: provider-agnostic prompt turns and model configurations, and the
 reference team the component is built with.
 */
module Llm {
  import opened Results

  /** The role of a prompt turn handed to a provider adapter. */
  datatype ProviderRole = UserRole | SystemRole | AssistantRole

  /** One prompt turn, `{ role, content }`. */
  datatype ProviderMessage = ProviderMessage(role: ProviderRole, content: string)

  /** `LLMConfig`: a display name, the model identifier the dispatcher routes
      on, and the parameters every adapter receives. The temperature is only
      ever passed through. */
  datatype Config = Config(name: string, model: string, apiKey: string, temperature: real, maxTokens: int)

  // ---------------------------------------------------------------------------
  // The reference team
  // ---------------------------------------------------------------------------

  /** The four `NEXT_PUBLIC_*_API_KEY` environment variables (None when unset). */
  datatype Environment = Environment(o1: Option<string>, gemini: Option<string>, sonnet: Option<string>, four: Option<string>)

  /** `process.env.X || fallback`: an unset or empty variable gives the fallback. */
  function KeyOr(variable: Option<string>, fallback: string): (key: string)
    ensures variable.Some? && variable.value != "" ==> key == variable.value
    ensures variable.None? || variable.value == "" ==> key == fallback
  {
    match variable
    case Some(v) => if v != "" then v else fallback
    case None => fallback
  }

  const ReferenceTemperature: real := 0.7
  const ManagerTemperature: real := 0.2
  const ReferenceMaxTokens: int := 2000

  /** `llmConfigs`: the three members, in the order they are asked. */
  function ReferenceMembers(env: Environment): (members: seq<Config>)
    ensures |members| == 3
    ensures members[0].name == "4o" && members[0].model == "gpt-4o"
    ensures members[1].name == "Gemini" && members[1].model == "gemini-2.0-flash"
    ensures members[2].name == "Sonnet" && members[2].model == "claude-3-sonnet"
  {
    [ Config("4o", "gpt-4o", KeyOr(env.four, "four-api-key"), ReferenceTemperature, ReferenceMaxTokens),
      Config("Gemini", "gemini-2.0-flash", KeyOr(env.gemini, "gemini-api-key"), ReferenceTemperature, ReferenceMaxTokens),
      Config("Sonnet", "claude-3-sonnet", KeyOr(env.sonnet, "sonnet-api-key"), ReferenceTemperature, ReferenceMaxTokens) ]
  }

  /** `MANAGER_CONFIG`: the manager runs on `gpt-4o` under the name `O1`. */
  function ReferenceManager(env: Environment): (manager: Config)
    ensures manager.name == "O1" && manager.model == "gpt-4o"
  {
    Config("O1", "gpt-4o", KeyOr(env.o1, "sk-O1-API-KEY"), ManagerTemperature, ReferenceMaxTokens)
  }
}

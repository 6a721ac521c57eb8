/**
 The dispatcher (`fetchLLMResponse`): a fixed routing table from model
 identifier to provider adapter. An identifier outside the table fails before
 any adapter runs; an adapter's failure reaches the caller unchanged (the
 catch block only logs and re-throws the same error).
 The OpenAI and Gemini adapters are SDK calls and appear as parameters; the
 Claude adapter is modelled in `Claude` over its own transport parameter.
 */
module Dispatch {
  import opened Results
  import opened Llm
  import Claude

  datatype Provider = OpenAI | Gemini | Anthropic

  /** The identifiers the `switch` accepts, and where each one goes. */
  const RoutingTable: map<string, Provider> := map[
    "gpt-4o" := OpenAI,
    "o1-pro-2025-03-19" := OpenAI,
    "gemini-pro" := Gemini,
    "claude-3-sonnet" := Anthropic
  ]

  /** The `switch (llmConfig.model)` of `fetchLLMResponse`. It agrees with the
      table on every identifier, in both directions: routed identifiers are
      exactly the table's keys, each sent to its key's adapter. */
  function Route(model: string): (r: Option<Provider>)
    ensures r.Some? <==> model in RoutingTable
    ensures r.Some? ==> r.value == RoutingTable[model]
  {
    if model == "gpt-4o" || model == "o1-pro-2025-03-19" then Some(OpenAI)
    else if model == "gemini-pro" then Some(Gemini)
    else if model == "claude-3-sonnet" then Some(Anthropic)
    else None
  }

  /** The arguments every adapter receives: `(messages, apiKey, model,
      temperature, maxTokens)`, tagged with the adapter that got them. */
  datatype AdapterCall = AdapterCall(
    provider: Provider, messages: seq<ProviderMessage>,
    apiKey: string, model: string, temperature: real, maxTokens: int)

  /** The outside world one dispatch can touch: the two SDK adapters and the
      HTTP transport under the Claude adapter. */
  datatype Backend = Backend(
    openAI: AdapterCall -> Result<string>,
    gemini: AdapterCall -> Result<string>,
    claudeTransport: Claude.Transport)

  /** What one adapter invocation yields. */
  function RunAdapter(call: AdapterCall, backend: Backend): Result<string> {
    match call.provider
    case OpenAI => backend.openAI(call)
    case Gemini => backend.gemini(call)
    case Anthropic =>
      Claude.FetchClaudeResponse(call.messages, call.apiKey, call.model, call.temperature, call.maxTokens, backend.claudeTransport)
  }

  const UnsupportedPrefix: string := "Unsupported LLM: "

  /** The outcome of one dispatch, and the adapter invocation it issued, if any. */
  datatype Dispatched = Dispatched(result: Result<string>, invoked: Option<AdapterCall>)

  /** `fetchLLMResponse(messages, llmConfig)`. */
  function FetchLLMResponse(messages: seq<ProviderMessage>, config: Config, backend: Backend): (r: Dispatched)
    ensures config.model !in RoutingTable <==> r.invoked.None?
    ensures config.model !in RoutingTable ==> r.result == Err(UnsupportedPrefix + config.model)
    ensures config.model in RoutingTable ==>
      && r.invoked == Some(AdapterCall(RoutingTable[config.model], messages,
                                       config.apiKey, config.model, config.temperature, config.maxTokens))
      && r.result == RunAdapter(r.invoked.value, backend)
  {
    match Route(config.model)
    case None => Dispatched(Err(UnsupportedPrefix + config.model), None)
    case Some(provider) =>
      var call := AdapterCall(provider, messages, config.apiKey, config.model, config.temperature, config.maxTokens);
      Dispatched(RunAdapter(call, backend), Some(call))
  }

  /** Only the chosen adapter matters: two backends that agree on the routed
      provider give the same outcome, and an unroutable model does not look at
      the backend at all. */
  lemma DispatchDependsOnlyOnRoutedAdapter(messages: seq<ProviderMessage>, config: Config, b1: Backend, b2: Backend)
    requires config.model in RoutingTable ==>
      var call := AdapterCall(RoutingTable[config.model], messages, config.apiKey, config.model, config.temperature, config.maxTokens);
      RunAdapter(call, b1) == RunAdapter(call, b2)
    ensures FetchLLMResponse(messages, config, b1) == FetchLLMResponse(messages, config, b2)
  {
  }

  /** Claude is reached with the caller's prompt mapped to Claude roles; a
      non-ok reply surfaces as the formatted Claude error, unchanged by the
      dispatcher. */
  lemma ClaudeErrorsPassThrough(messages: seq<ProviderMessage>, config: Config, backend: Backend)
    requires config.model == "claude-3-sonnet"
    requires var req := Claude.BuildRequest(messages, config.apiKey, config.model, config.temperature, config.maxTokens);
      backend.claudeTransport(req).Ok? && !backend.claudeTransport(req).value.ok
    ensures var req := Claude.BuildRequest(messages, config.apiKey, config.model, config.temperature, config.maxTokens);
      var reply := backend.claudeTransport(req).value;
      FetchLLMResponse(messages, config, backend).result == Err(Claude.ApiErrorMessage(reply.status, reply.errorMessage))
  {
  }
}

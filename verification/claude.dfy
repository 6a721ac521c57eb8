/**
 The Claude adapter (`fetchClaudeResponse`): it folds the provider-agnostic
 roles into the two roles the Messages API accepts, posts one request, and
 turns the reply into either the first content block's text or an error whose
 message carries the HTTP status and the provider's own error message.
 The HTTP exchange itself is a parameter, `transport`.
 */
module Claude {
  import opened Results
  import opened Llm
  import Text

  const MessagesUrl: string := "https://api.anthropic.com/v1/messages"
  const ApiVersion: string := "2024-06-20"

  /** The roles of a Claude Messages API turn. */
  datatype ClaudeRole = ClaudeUser | ClaudeAssistant

  datatype ClaudeMessage = ClaudeMessage(role: ClaudeRole, content: string)

  /** Everything the adapter puts into the POST: the endpoint, the
      `x-api-key` and `anthropic-version` headers, and the JSON body fields
      `model`, `messages`, `temperature`, `max_tokens`. */
  datatype ClaudeRequest = ClaudeRequest(
    url: string, apiKey: string, version: string,
    model: string, messages: seq<ClaudeMessage>, temperature: real, maxTokens: int)

  /** What the adapter reads from a settled `fetch`: `response.ok`,
      `response.status`, the optional `error.message` of the JSON body, and the
      `text` of each block of the body's `content` array. */
  datatype ClaudeReply = ClaudeReply(ok: bool, status: nat, errorMessage: Option<string>, contentTexts: seq<string>)

  /** The network: a rejected `fetch` (or a body that is not JSON) is an `Err`
      carrying the runtime's message. */
  type Transport = ClaudeRequest -> Result<ClaudeReply>

  // ---------------------------------------------------------------------------
  // Role mapping
  // ---------------------------------------------------------------------------

  /** `assistant` stays `assistant`; `user` and `system` both become `user`. */
  function ToClaudeRole(role: ProviderRole): ClaudeRole {
    if role == AssistantRole then ClaudeAssistant else ClaudeUser
  }

  /** `messages.map(m => ({ role: ..., content: m.content }))`. */
  function ToClaudeMessages(messages: seq<ProviderMessage>): (r: seq<ClaudeMessage>)
    ensures |r| == |messages|
    ensures forall i :: 0 <= i < |r| ==> r[i].content == messages[i].content
    ensures forall i :: 0 <= i < |r| ==> (r[i].role == ClaudeAssistant <==> messages[i].role == AssistantRole)
  {
    if |messages| == 0 then []
    else [ClaudeMessage(ToClaudeRole(messages[0].role), messages[0].content)] + ToClaudeMessages(messages[1..])
  }

  /** Reading a Claude turn back as a provider-agnostic turn. */
  function FromClaudeMessage(m: ClaudeMessage): ProviderMessage {
    ProviderMessage(if m.role == ClaudeAssistant then AssistantRole else UserRole, m.content)
  }

  /** The mapping is a list map: it distributes over concatenation, so each
      turn is translated on its own, independently of its neighbours. */
  lemma {:induction false} ToClaudeMessagesAppend(a: seq<ProviderMessage>, b: seq<ProviderMessage>)
    ensures ToClaudeMessages(a + b) == ToClaudeMessages(a) + ToClaudeMessages(b)
  {
    if |a| == 0 {
      assert a + b == b;
    } else {
      assert (a + b)[1..] == a[1..] + b;
      ToClaudeMessagesAppend(a[1..], b);
    }
  }

  /** A conversation without `system` turns passes through unchanged; a
      `system` turn is exactly what the mapping loses (it reads back as
      `user`). */
  lemma ToClaudeMessagesLosesOnlySystem(messages: seq<ProviderMessage>)
    ensures forall i :: 0 <= i < |messages| ==>
      FromClaudeMessage(ToClaudeMessages(messages)[i]) ==
        (if messages[i].role == SystemRole then ProviderMessage(UserRole, messages[i].content) else messages[i])
  {
  }

  // ---------------------------------------------------------------------------
  // Error message
  // ---------------------------------------------------------------------------

  const ApiErrorPrefix: string := "Claude API error: "
  const UnknownError: string := "Unknown error"

  /** The message of the `TypeError` a successful reply with no content block
      raises at `data.content[0].text`. */
  const MissingTextError: string := "Cannot read properties of undefined (reading 'text')"

  /** `errorData.error?.message || 'Unknown error'`: a missing or empty
      provider message falls back to the generic text instead of failing. */
  function ErrorDetail(errorMessage: Option<string>): (detail: string)
    ensures detail != ""
    ensures errorMessage.Some? && errorMessage.value != "" ==> detail == errorMessage.value
    ensures errorMessage.None? || errorMessage.value == "" ==> detail == UnknownError
  {
    match errorMessage
    case Some(m) => if m != "" then m else UnknownError
    case None => UnknownError
  }

  /** `Claude API error: ${status} - ${detail}`. */
  function FormatApiError(status: nat, detail: string): string {
    ApiErrorPrefix + Text.NatToString(status) + " - " + detail
  }

  /** The message of the error a non-ok reply raises. */
  function ApiErrorMessage(status: nat, errorMessage: Option<string>): string {
    FormatApiError(status, ErrorDetail(errorMessage))
  }

  /** The error message determines the status and the detail it was built
      from: a status never runs into the ` - ` separator, because it renders
      as digits only. */
  lemma ApiErrorMessageInjective(s1: nat, m1: Option<string>, s2: nat, m2: Option<string>)
    requires ApiErrorMessage(s1, m1) == ApiErrorMessage(s2, m2)
    ensures s1 == s2 && ErrorDetail(m1) == ErrorDetail(m2)
  {
    FormatApiErrorInjective(s1, ErrorDetail(m1), s2, ErrorDetail(m2));
  }

  lemma FormatApiErrorInjective(s1: nat, e1: string, s2: nat, e2: string)
    requires FormatApiError(s1, e1) == FormatApiError(s2, e2)
    ensures s1 == s2 && e1 == e2
  {
    var d1, d2 := Text.NatToString(s1), Text.NatToString(s2);
    var t1, t2 := " - " + e1, " - " + e2;
    var p := |ApiErrorPrefix|;
    assert FormatApiError(s1, e1) == ApiErrorPrefix + (d1 + t1);
    assert FormatApiError(s2, e2) == ApiErrorPrefix + (d2 + t2);
    assert d1 + t1 == (ApiErrorPrefix + (d1 + t1))[p..];
    assert d2 + t2 == (ApiErrorPrefix + (d2 + t2))[p..];
    DigitsThenSeparator(d1, t1, d2, t2);
    Text.NatToStringInjective(s1, s2);
    assert e1 == t1[3..] == t2[3..] == e2;
  }

  /** A run of digits followed by text that starts with a non-digit splits
      in exactly one way. */
  lemma DigitsThenSeparator(d1: string, t1: string, d2: string, t2: string)
    requires forall i :: 0 <= i < |d1| ==> Text.IsDigit(d1[i])
    requires forall i :: 0 <= i < |d2| ==> Text.IsDigit(d2[i])
    requires |t1| > 0 && !Text.IsDigit(t1[0]) && |t2| > 0 && !Text.IsDigit(t2[0])
    requires d1 + t1 == d2 + t2
    ensures d1 == d2 && t1 == t2
  {
    var s := d1 + t1;
    assert forall i :: 0 <= i < |d1| ==> Text.IsDigit(s[i]);
    assert forall i :: 0 <= i < |d2| ==> Text.IsDigit(s[i]);
    assert !Text.IsDigit(s[|d1|]);
    assert !Text.IsDigit(s[|d2|]);
    assert |d1| == |d2|;
    assert d1 == s[..|d1|] == d2;
    assert t1 == s[|d1|..] == t2;
  }

  /** The message begins with the fixed prefix and the rendered status, and
      ends with the provider's message when it supplied a non-empty one, or
      with the generic text when it did not. */
  lemma ApiErrorMessageParts(status: nat, errorMessage: Option<string>)
    ensures var msg := ApiErrorMessage(status, errorMessage);
      var p := |ApiErrorPrefix|;
      var d := Text.NatToString(status);
      && msg[..p] == ApiErrorPrefix
      && Text.DecimalValue(msg[p..p + |d|]) == status
      && msg[|msg| - |ErrorDetail(errorMessage)|..] == ErrorDetail(errorMessage)
  {
    var d := Text.NatToString(status);
    var e := ErrorDetail(errorMessage);
    var msg := ApiErrorMessage(status, errorMessage);
    var p := |ApiErrorPrefix|;
    assert msg == ApiErrorPrefix + d + (" - " + e);
    assert msg[..p] == ApiErrorPrefix;
    assert msg[p..p + |d|] == d;
    assert msg[|msg| - |e|..] == e;
    Text.NatToStringRoundTrip(status);
  }

  // ---------------------------------------------------------------------------
  // The adapter
  // ---------------------------------------------------------------------------

  /** The request the adapter sends for one invocation. */
  function BuildRequest(messages: seq<ProviderMessage>, apiKey: string, model: string, temperature: real, maxTokens: int): ClaudeRequest {
    ClaudeRequest(MessagesUrl, apiKey, ApiVersion, model, ToClaudeMessages(messages), temperature, maxTokens)
  }

  /** `fetchClaudeResponse`: one request; a transport failure propagates as
      it is; a non-ok status fails with the formatted API error; otherwise the
      first content block's text is the answer. */
  function FetchClaudeResponse(
    messages: seq<ProviderMessage>, apiKey: string, model: string, temperature: real, maxTokens: int,
    transport: Transport): (r: Result<string>)
    ensures var req := BuildRequest(messages, apiKey, model, temperature, maxTokens);
      && (transport(req).Err? ==> r == Err(transport(req).message))
      && (transport(req).Ok? && !transport(req).value.ok ==>
            r == Err(ApiErrorMessage(transport(req).value.status, transport(req).value.errorMessage)))
      && (transport(req).Ok? && transport(req).value.ok ==>
            (r.Ok? <==> |transport(req).value.contentTexts| > 0))
      && (r.Ok? ==> transport(req).Ok? && transport(req).value.ok && r.value == transport(req).value.contentTexts[0])
  {
    var reply :- transport(BuildRequest(messages, apiKey, model, temperature, maxTokens));
    if !reply.ok then
      Err(ApiErrorMessage(reply.status, reply.errorMessage))
    else if |reply.contentTexts| == 0 then
      Err(MissingTextError)
    else
      Ok(reply.contentTexts[0])
  }

  /** Every request the adapter sends goes to the Messages endpoint with the
      pinned API version, carries the caller's key, model, temperature and
      token limit unchanged, and holds one user or assistant turn per input
      turn with its content intact. */
  lemma BuildRequestFaithful(messages: seq<ProviderMessage>, apiKey: string, model: string, temperature: real, maxTokens: int)
    ensures var req := BuildRequest(messages, apiKey, model, temperature, maxTokens);
      && req.url == MessagesUrl && req.version == ApiVersion
      && req.apiKey == apiKey && req.model == model && req.temperature == temperature && req.maxTokens == maxTokens
      && |req.messages| == |messages|
      && forall i :: 0 <= i < |messages| ==> req.messages[i] == ClaudeMessage(ToClaudeRole(messages[i].role), messages[i].content)
  {
  }
}

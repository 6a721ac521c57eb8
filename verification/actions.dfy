/**
 The discussion orchestrator (`startTeamDiscussionAction`): the manager's
 opening call, the member fan-out with a placeholder for every failed member,
 and the manager's synthesis call.

 Every `await fetchLLMResponse(context, config)` is a call of an `Oracle`
 that is also told the call's position in the discussion (0 for the opening,
 1 + i for member i, 1 + n for the synthesis), so the model does not assume
 that a model answers the same prompt the same way twice. `Promise.all` over
 `llmConfigs.map` is a sequential map: results are kept in `map` order and
 every member sees the same context, which is all a caller can observe.
 */
module Actions {
  import opened Results
  import opened Llm

  type Oracle = (nat, seq<ProviderMessage>, Config) -> Result<string>

  /** One `fetchLLMResponse` call issued by the action. */
  datatype CallRecord = CallRecord(context: seq<ProviderMessage>, config: Config)

  /** `{ name, response }` of one member. */
  datatype MemberResponse = MemberResponse(name: string, response: string)

  /** `{ managerResponse, memberResponses, finalManagerResponse }`. */
  datatype Discussion = Discussion(managerResponse: string, memberResponses: seq<MemberResponse>, finalManagerResponse: string)

  /** What the action returns (or the message it throws), and the calls it issued, in order. */
  datatype Run = Run(outcome: Result<Discussion>, calls: seq<CallRecord>)

  const MemberInstructions: string :=
    "あなたはチームメンバーです。マネージャーの指示に従い、議論に参加してください。\n"
    + "自分の名前を名乗り、日本語で発言してください。"

  const SummaryInstructions: string :=
    "これまでの議論をまとめ、最終的な結論と議事録を日本語で提示してください。"

  function Assistant(content: string): ProviderMessage {
    ProviderMessage(AssistantRole, content)
  }

  function System(content: string): ProviderMessage {
    ProviderMessage(SystemRole, content)
  }

  // ---------------------------------------------------------------------------
  // Prompt contexts
  // ---------------------------------------------------------------------------

  /** `memberMessages`: the opening context, the manager's opening as an
      assistant turn, then the member instructions as a system turn. */
  function MemberContext(initial: seq<ProviderMessage>, opening: string): (r: seq<ProviderMessage>)
    ensures |r| == |initial| + 2
    ensures r[..|initial|] == initial
    ensures r[|initial|] == Assistant(opening) && r[|initial| + 1] == System(MemberInstructions)
  {
    initial + [Assistant(opening), System(MemberInstructions)]
  }

  /** One assistant turn per member response, in order. */
  function AssistantTurns(responses: seq<MemberResponse>): (r: seq<ProviderMessage>)
    ensures |r| == |responses|
    ensures forall i :: 0 <= i < |responses| ==> r[i] == Assistant(responses[i].response)
  {
    if |responses| == 0 then [] else [Assistant(responses[0].response)] + AssistantTurns(responses[1..])
  }

  /** `finalSummaryMessages`: the opening context, the opening, every member
      response (answer or placeholder) in member order, then the summary
      instructions. */
  function SummaryContext(initial: seq<ProviderMessage>, opening: string, responses: seq<MemberResponse>): (r: seq<ProviderMessage>)
    ensures |r| == |initial| + |responses| + 2
    ensures r[..|initial|] == initial
    ensures r[|initial|] == Assistant(opening)
    ensures forall i :: 0 <= i < |responses| ==> r[|initial| + 1 + i] == Assistant(responses[i].response)
    ensures r[|r| - 1] == System(SummaryInstructions)
  {
    initial + [Assistant(opening)] + AssistantTurns(responses) + [System(SummaryInstructions)]
  }

  /** Members and manager share the history up to and including the opening;
      they differ only in what follows it. */
  lemma ContextsShareHistory(initial: seq<ProviderMessage>, opening: string, responses: seq<MemberResponse>)
    ensures MemberContext(initial, opening)[..|initial| + 1] == SummaryContext(initial, opening, responses)[..|initial| + 1]
    ensures MemberContext(initial, opening)[..|initial| + 1] == initial + [Assistant(opening)]
  {
    var m := MemberContext(initial, opening);
    var s := SummaryContext(initial, opening, responses);
    assert m[..|initial| + 1] == initial + [Assistant(opening)];
    assert s[..|initial| + 1] == initial + [Assistant(opening)];
  }

  /** With no members the synthesis context has no member turns. */
  lemma SummaryContextWithoutMembers(initial: seq<ProviderMessage>, opening: string)
    ensures SummaryContext(initial, opening, []) == initial + [Assistant(opening), System(SummaryInstructions)]
  {
  }

  // ---------------------------------------------------------------------------
  // Member fan-out
  // ---------------------------------------------------------------------------

  /** `[${name} エラー]: ${error.message}`. */
  function Placeholder(name: string, message: string): string {
    "[" + name + " エラー]: " + message
  }

  /** The placeholder starts with the member's name in brackets and ends with
      the error message, so both can be read off what the user sees. */
  lemma PlaceholderNamesMemberAndError(name: string, message: string)
    ensures var p := Placeholder(name, message);
      && p[0] == '[' && p[1..|name| + 1] == name
      && |p| == |name| + |message| + 8
      && p[|p| - |message|..] == message
  {
    var p := Placeholder(name, message);
    assert p == "[" + name + (" エラー]: " + message);
    assert p[1..|name| + 1] == name;
  }

  /** The try/catch around one member call: the answer, or the placeholder. */
  function MemberAnswer(oracle: Oracle, k: nat, context: seq<ProviderMessage>, config: Config): (m: MemberResponse)
    ensures m.name == config.name
    ensures oracle(k, context, config).Ok? ==> m.response == oracle(k, context, config).value
    ensures oracle(k, context, config).Err? ==> m.response == Placeholder(config.name, oracle(k, context, config).message)
  {
    match oracle(k, context, config)
    case Ok(text) => MemberResponse(config.name, text)
    case Err(message) => MemberResponse(config.name, Placeholder(config.name, message))
  }

  /** `Promise.all(llmConfigs.map(...))` with the first member at call
      position `first`: one entry per config, in config order, each the
      outcome of that member's own call only. */
  function FanOut(oracle: Oracle, first: nat, context: seq<ProviderMessage>, configs: seq<Config>): (rs: seq<MemberResponse>)
    ensures |rs| == |configs|
    ensures forall i :: 0 <= i < |configs| ==> rs[i] == MemberAnswer(oracle, first + i, context, configs[i])
    decreases |configs|
  {
    if |configs| == 0 then []
    else [MemberAnswer(oracle, first, context, configs[0])] + FanOut(oracle, first + 1, context, configs[1..])
  }

  /** The member calls the fan-out issues: every member gets the same context. */
  function FanOutCalls(context: seq<ProviderMessage>, configs: seq<Config>): (calls: seq<CallRecord>)
    ensures |calls| == |configs|
    ensures forall i :: 0 <= i < |configs| ==> calls[i] == CallRecord(context, configs[i])
  {
    if |configs| == 0 then [] else [CallRecord(context, configs[0])] + FanOutCalls(context, configs[1..])
  }

  // ---------------------------------------------------------------------------
  // The action
  // ---------------------------------------------------------------------------

  /** `startTeamDiscussionAction(userInput, initialMessages, llmConfigs,
      MANAGER_CONFIG)`. `userInput` is accepted and, as in the action, unused:
      the question reaches the models through `initial`. */
  function StartTeamDiscussionAction(
    userInput: string, initial: seq<ProviderMessage>, configs: seq<Config>, manager: Config, oracle: Oracle): (run: Run)
    // the opening call comes first and sees exactly the initial messages
    ensures |run.calls| >= 1 && run.calls[0] == CallRecord(initial, manager)
    // a failed opening aborts with its message; nothing else is called
    ensures oracle(0, initial, manager).Err? ==>
      run == Run(Err(oracle(0, initial, manager).message), [CallRecord(initial, manager)])
    ensures oracle(0, initial, manager).Ok? ==>
      var opening := oracle(0, initial, manager).value;
      var responses := FanOut(oracle, 1, MemberContext(initial, opening), configs);
      var summary := SummaryContext(initial, opening, responses);
      var n := |configs|;
      && |run.calls| == n + 2
      && (forall i :: 0 <= i < n ==> run.calls[1 + i] == CallRecord(MemberContext(initial, opening), configs[i]))
      && run.calls[n + 1] == CallRecord(summary, manager)
      && (run.outcome.Ok? <==> oracle(n + 1, summary, manager).Ok?)
      && (run.outcome.Err? ==> run.outcome.message == oracle(n + 1, summary, manager).message)
      && (run.outcome.Ok? ==>
            run.outcome.value == Discussion(opening, responses, oracle(n + 1, summary, manager).value))
  {
    match oracle(0, initial, manager)
    case Err(message) => Run(Err(message), [CallRecord(initial, manager)])
    case Ok(opening) =>
      var memberMessages := MemberContext(initial, opening);
      var responses := FanOut(oracle, 1, memberMessages, configs);
      var summary := SummaryContext(initial, opening, responses);
      var memberCalls := FanOutCalls(memberMessages, configs);
      var calls := [CallRecord(initial, manager)] + memberCalls + [CallRecord(summary, manager)];
      assert calls[|configs| + 1] == CallRecord(summary, manager);
      assert forall i :: 0 <= i < |configs| ==> calls[1 + i] == memberCalls[i];
      match oracle(|configs| + 1, summary, manager)
      case Err(message) => Run(Err(message), calls)
      case Ok(final) => Run(Ok(Discussion(opening, responses, final)), calls)
  }

  // ---------------------------------------------------------------------------
  // Properties of a run
  // ---------------------------------------------------------------------------

  /** A successful run reports one entry per member config, in config order,
      under the member's name. */
  lemma SuccessfulRunShape(
    userInput: string, initial: seq<ProviderMessage>, configs: seq<Config>, manager: Config, oracle: Oracle)
    requires StartTeamDiscussionAction(userInput, initial, configs, manager, oracle).outcome.Ok?
    ensures var d := StartTeamDiscussionAction(userInput, initial, configs, manager, oracle).outcome.value;
      && |d.memberResponses| == |configs|
      && forall i :: 0 <= i < |configs| ==> d.memberResponses[i].name == configs[i].name
  {
  }

  /** A successful run reports one entry per member config, in config order,
      under the member's name; the entry is the member's answer when its call
      succeeded and the placeholder naming the member and the error when it
      failed. */
  lemma MemberResultsFollowConfigs(
    userInput: string, initial: seq<ProviderMessage>, configs: seq<Config>, manager: Config, oracle: Oracle, i: int)
    requires StartTeamDiscussionAction(userInput, initial, configs, manager, oracle).outcome.Ok?
    requires 0 <= i < |configs|
    ensures var run := StartTeamDiscussionAction(userInput, initial, configs, manager, oracle);
      var d := run.outcome.value;
      var memberCall := run.calls[1 + i];
      && |d.memberResponses| == |configs|
      && d.memberResponses[i].name == configs[i].name
      && (oracle(1 + i, memberCall.context, configs[i]).Ok? ==>
            d.memberResponses[i].response == oracle(1 + i, memberCall.context, configs[i]).value)
      && (oracle(1 + i, memberCall.context, configs[i]).Err? ==>
            d.memberResponses[i].response == Placeholder(configs[i].name, oracle(1 + i, memberCall.context, configs[i]).message))
  {
  }

  /** Member failures never abort: even when every member call fails, a run
      whose opening and synthesis succeed succeeds, with each member's slot
      holding its placeholder. */
  lemma MemberFailuresAreAbsorbed(
    userInput: string, initial: seq<ProviderMessage>, configs: seq<Config>, manager: Config, oracle: Oracle)
    requires oracle(0, initial, manager).Ok?
    requires forall i :: 0 <= i < |configs| ==>
      oracle(1 + i, MemberContext(initial, oracle(0, initial, manager).value), configs[i]).Err?
    requires var run := StartTeamDiscussionAction(userInput, initial, configs, manager, oracle);
      oracle(|configs| + 1, run.calls[|configs| + 1].context, manager).Ok?
    ensures var run := StartTeamDiscussionAction(userInput, initial, configs, manager, oracle);
      var ctx := MemberContext(initial, oracle(0, initial, manager).value);
      && run.outcome.Ok?
      && |run.outcome.value.memberResponses| == |configs|
      && forall i :: 0 <= i < |configs| ==>
           run.outcome.value.memberResponses[i].response
             == Placeholder(configs[i].name, oracle(1 + i, ctx, configs[i]).message)
  {
  }

  /** Members are isolated: member i's entry depends only on the opening and
      on member i's own call, never on another member's result. */
  lemma MemberIsolation(
    initial: seq<ProviderMessage>, configs: seq<Config>, manager: Config, o1: Oracle, o2: Oracle, i: int)
    requires 0 <= i < |configs|
    requires o1(0, initial, manager).Ok? && o1(0, initial, manager) == o2(0, initial, manager)
    requires var ctx := MemberContext(initial, o1(0, initial, manager).value);
      o1(1 + i, ctx, configs[i]) == o2(1 + i, ctx, configs[i])
    ensures var ctx := MemberContext(initial, o1(0, initial, manager).value);
      FanOut(o1, 1, ctx, configs)[i] == FanOut(o2, 1, ctx, configs)[i]
  {
  }

  /** The synthesis call sees every member entry, answer or placeholder, as
      an assistant turn right after the opening, in member order. */
  lemma SynthesisSeesEveryMember(
    userInput: string, initial: seq<ProviderMessage>, configs: seq<Config>, manager: Config, oracle: Oracle, i: int)
    requires StartTeamDiscussionAction(userInput, initial, configs, manager, oracle).outcome.Ok?
    requires 0 <= i < |configs|
    ensures var run := StartTeamDiscussionAction(userInput, initial, configs, manager, oracle);
      var summary := run.calls[|configs| + 1].context;
      && |summary| == |initial| + |configs| + 2
      && summary[|initial| + 1 + i] == Assistant(run.outcome.value.memberResponses[i].response)
  {
  }
}

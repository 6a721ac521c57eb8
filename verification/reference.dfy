/**
 Facts about the team the chat component is built with, when every model
 call goes through the dispatcher: the manager and two of the members are
 routable, but the Gemini member names `gemini-2.0-flash`, which the
 dispatcher does not know, so its slot always holds an error placeholder.
 */
module Reference {
  import opened Results
  import opened Llm
  import Dispatch
  import Actions
  import Session

  /** Every call of a discussion dispatched through `fetchLLMResponse`; the
      k-th call meets the outside world as `backends(k)`. */
  function DispatchOracle(backends: nat -> Dispatch.Backend): Actions.Oracle {
    (k: nat, context: seq<ProviderMessage>, config: Config) => Dispatch.FetchLLMResponse(context, config, backends(k)).result
  }

  /** Where each reference config is routed. */
  lemma ReferenceRouting(env: Environment)
    ensures Dispatch.Route(ReferenceManager(env).model) == Some(Dispatch.OpenAI)
    ensures Dispatch.Route(ReferenceMembers(env)[0].model) == Some(Dispatch.OpenAI)
    ensures Dispatch.Route(ReferenceMembers(env)[1].model) == None
    ensures Dispatch.Route(ReferenceMembers(env)[2].model) == Some(Dispatch.Anthropic)
  {
  }

  /** The text in the Gemini member's slot:
      `[Gemini エラー]: Unsupported LLM: gemini-2.0-flash`. */
  const GeminiPlaceholder: string := Actions.Placeholder("Gemini", Dispatch.UnsupportedPrefix + "gemini-2.0-flash")

  /** Whatever the providers answer, a discussion of the reference team that
      gets past the opening asks the Gemini member nothing (no adapter runs
      for it) and records the placeholder in its slot; a successful
      discussion reports that placeholder as Gemini's answer. */
  lemma GeminiSlotIsAlwaysPlaceholder(env: Environment, backends: nat -> Dispatch.Backend, userInput: string)
    ensures var members := ReferenceMembers(env);
      var manager := ReferenceManager(env);
      var oracle := DispatchOracle(backends);
      var initial := Session.InitialMessages(userInput);
      var run := Actions.StartTeamDiscussionAction(userInput, initial, members, manager, oracle);
      && (oracle(0, initial, manager).Ok? ==>
            && run.calls[2].config == members[1]
            && Dispatch.FetchLLMResponse(run.calls[2].context, members[1], backends(2)).invoked.None?)
      && (run.outcome.Ok? ==>
            run.outcome.value.memberResponses[1] == Actions.MemberResponse("Gemini", GeminiPlaceholder))
  {
    var members := ReferenceMembers(env);
    var manager := ReferenceManager(env);
    var oracle := DispatchOracle(backends);
    var initial := Session.InitialMessages(userInput);
    var run := Actions.StartTeamDiscussionAction(userInput, initial, members, manager, oracle);
    ReferenceRouting(env);
    if oracle(0, initial, manager).Ok? {
      var ctx := run.calls[2].context;
      var dispatched := Dispatch.FetchLLMResponse(ctx, members[1], backends(2));
      assert oracle(2, ctx, members[1]) == dispatched.result;
      assert members[1].model !in Dispatch.RoutingTable;
      assert dispatched.result == Err(Dispatch.UnsupportedPrefix + "gemini-2.0-flash");
    }
  }

  /** In the session, a successful discussion of the reference team shows the
      placeholder as the Gemini member's message, the third message after
      the user's question. */
  lemma GeminiMessageIsPlaceholder(
    s: Session.State, userInput: string, env: Environment, backends: nat -> Dispatch.Backend, stamps: Session.Stamps)
    requires !s.isProcessing
    requires Session.ActionRun(userInput, ReferenceMembers(env), ReferenceManager(env), DispatchOracle(backends)).outcome.Ok?
    ensures var r := Session.StartTeamDiscussion(s, userInput, ReferenceMembers(env), ReferenceManager(env), DispatchOracle(backends), stamps);
      && |r.messages| == |s.messages| + 6
      && r.messages[|s.messages| + 3].content == GeminiPlaceholder
      && r.messages[|s.messages| + 3].sender == Some("Gemini")
  {
    GeminiSlotIsAlwaysPlaceholder(env, backends, userInput);
    Session.SuccessfulDiscussionAppends(s, userInput, ReferenceMembers(env), ReferenceManager(env), DispatchOracle(backends), stamps);
  }
}

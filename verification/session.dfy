/**
 The session state of the chat component (`LLMTeamChatApp`): the message log,
 the input box, the `isProcessing` flag, the last error and the current task
 label, with `addMessage`, `updateMessage`, `startTeamDiscussion` and
 `handleSendMessage` as pure transitions.

 `crypto.randomUUID()` and `Date.now()` become a `Stamps` parameter: the k-th
 message created by one discussion (0 for the user's message) takes the id
 and timestamp `stamps(k)`. A discussion runs to completion inside one
 transition; `Begin` exposes the state the view shows while it runs.
 */
module Session {
  import opened Results
  import opened Llm
  import Text
  import Actions

  /** `Message.role`. */
  datatype Role = User | Manager | Member

  /** `Message`: `sender` is absent on the user's own messages. */
  datatype Message = Message(id: string, role: Role, content: string, sender: Option<string>, timestamp: int)

  /** `Partial<Message>`: the fields an update overrides. `sender` may be
      present with the value `undefined`, which clears it: `Some(None)`. */
  datatype MessageUpdate = MessageUpdate(
    id: Option<string>, role: Option<Role>, content: Option<string>, sender: Option<Option<string>>, timestamp: Option<int>)

  /** The component's `useState` slots that the discussion logic touches. */
  datatype State = State(
    messages: seq<Message>, input: string, isProcessing: bool, error: Option<string>, currentTask: Option<string>)

  /** The id and timestamp a new message receives. */
  datatype Stamp = Stamp(id: string, timestamp: int)

  type Stamps = nat -> Stamp

  const TeamDiscussionTask: string := "チーム討論"

  /** Display name under which both manager messages are shown. */
  const ManagerSender: string := "O1"

  const ManagerInstructions: string :=
    "あなたは優秀なマネージャーです。以下のメンバーをまとめて、ユーザーの質問について議論し、結論を出してください。\n"
    + "メンバー：\n"
    + "- 4o (gpt-4o)\n"
    + "- Gemini\n"
    + "- Sonnet\n"
    + "議論の進め方:\n"
    + "1. ユーザーの質問を要約し、メンバーに提示します。質問はメンバーに答えさせるため、回答しない。\n"
    + "2. 各メンバーに意見を聞き、発言内容と発言者を記録します。\n"
    + "3. 必要に応じて、追加の情報を提供したり、議論を促したりします。\n"
    + "4. 議論がまとまったら、結論を述べ、ユーザーに提示します。\n"
    + "5. 結論に至るまでの議論の過程をまとめ、議事録として提示します。\n"
    + "必ず日本語で回答してください。"

  /** The initial values of the component's state. */
  const Initial: State := State([], "", false, None, None)

  // ---------------------------------------------------------------------------
  // The message log
  // ---------------------------------------------------------------------------

  /** `addMessage`: append-only. */
  function AddMessage(log: seq<Message>, m: Message): (r: seq<Message>)
    ensures |r| == |log| + 1
    ensures r[..|log|] == log && r[|log|] == m
  {
    log + [m]
  }

  /** `{ ...msg, ...updates }`: every field the update carries wins. */
  function Apply(m: Message, u: MessageUpdate): (r: Message)
    // the fields the update carries are taken from it ...
    ensures u.id.Some? ==> r.id == u.id.value
    ensures u.role.Some? ==> r.role == u.role.value
    ensures u.content.Some? ==> r.content == u.content.value
    ensures u.sender.Some? ==> r.sender == u.sender.value
    ensures u.timestamp.Some? ==> r.timestamp == u.timestamp.value
    // ... and every other field is the message's own
    ensures u.id.None? ==> r.id == m.id
    ensures u.role.None? ==> r.role == m.role
    ensures u.content.None? ==> r.content == m.content
    ensures u.sender.None? ==> r.sender == m.sender
    ensures u.timestamp.None? ==> r.timestamp == m.timestamp
    // so an empty update changes nothing, and a full one forgets the message
    ensures u == MessageUpdate(None, None, None, None, None) ==> r == m
    ensures u.id.Some? && u.role.Some? && u.content.Some? && u.sender.Some? && u.timestamp.Some? ==>
      r == Message(u.id.value, u.role.value, u.content.value, u.sender.value, u.timestamp.value)
  {
    Message(
      if u.id.Some? then u.id.value else m.id,
      if u.role.Some? then u.role.value else m.role,
      if u.content.Some? then u.content.value else m.content,
      if u.sender.Some? then u.sender.value else m.sender,
      if u.timestamp.Some? then u.timestamp.value else m.timestamp)
  }

  /** `updateMessage(id, updates)`: the same log, in the same order, with
      every entry carrying `id` updated and every other entry untouched. */
  function UpdateMessage(log: seq<Message>, id: string, u: MessageUpdate): (r: seq<Message>)
    ensures |r| == |log|
    ensures forall i :: 0 <= i < |log| && log[i].id != id ==> r[i] == log[i]
    ensures forall i :: 0 <= i < |log| && log[i].id == id ==> r[i] == Apply(log[i], u)
  {
    if |log| == 0 then []
    else [if log[0].id == id then Apply(log[0], u) else log[0]] + UpdateMessage(log[1..], id, u)
  }

  /** Updating an id that no entry carries leaves the log as it was. */
  lemma UpdateMissingIdIsNoOp(log: seq<Message>, id: string, u: MessageUpdate)
    requires forall i :: 0 <= i < |log| ==> log[i].id != id
    ensures UpdateMessage(log, id, u) == log
  {
  }

  /** Applying the same update twice is applying it once. An update that
      moves an entry to another id leaves it unmatched on the second pass. */
  lemma UpdateMessageIdempotent(log: seq<Message>, id: string, u: MessageUpdate)
    ensures UpdateMessage(UpdateMessage(log, id, u), id, u) == UpdateMessage(log, id, u)
  {
    var once := UpdateMessage(log, id, u);
    var twice := UpdateMessage(once, id, u);
    forall i | 0 <= i < |log|
      ensures twice[i] == once[i]
    {
      if log[i].id == id {
        assert once[i] == Apply(log[i], u);
        if once[i].id == id {
          assert Apply(Apply(log[i], u), u) == Apply(log[i], u);
        }
      }
    }
  }

  /** Appending never disturbs an update made earlier: an update followed by
      an append is the append followed by the update, for a new message with
      another id. */
  lemma UpdateCommutesWithAppend(log: seq<Message>, m: Message, id: string, u: MessageUpdate)
    requires m.id != id
    ensures UpdateMessage(AddMessage(log, m), id, u) == AddMessage(UpdateMessage(log, id, u), m)
  {
    var l := AddMessage(log, m);
    var a := UpdateMessage(l, id, u);
    var b := AddMessage(UpdateMessage(log, id, u), m);
    forall i | 0 <= i < |l|
      ensures a[i] == b[i]
    {
      if i < |log| {
        assert l[i] == log[i];
      }
    }
  }

  // ---------------------------------------------------------------------------
  // A discussion
  // ---------------------------------------------------------------------------

  /** `initialMessages`: the user's question, then the manager's brief. */
  function InitialMessages(userInput: string): (r: seq<ProviderMessage>)
    ensures |r| == 2
    ensures r[0].role == UserRole && r[0].content == userInput
    ensures r[1].role == SystemRole && r[1].content == ManagerInstructions
  {
    [ProviderMessage(UserRole, userInput), ProviderMessage(SystemRole, ManagerInstructions)]
  }

  function UserMessage(userInput: string, stamp: Stamp): Message {
    Message(stamp.id, User, userInput, None, stamp.timestamp)
  }

  function ManagerMessage(content: string, stamp: Stamp): Message {
    Message(stamp.id, Manager, content, Some(ManagerSender), stamp.timestamp)
  }

  function MemberMessage(response: Actions.MemberResponse, stamp: Stamp): Message {
    Message(stamp.id, Member, response.response, Some(response.name), stamp.timestamp)
  }

  /** `memberResponses.forEach(...)`: one member message per response, in
      order, the i-th stamped `stamps(first + i)`. */
  function MemberMessages(responses: seq<Actions.MemberResponse>, stamps: Stamps, first: nat): (r: seq<Message>)
    ensures |r| == |responses|
    ensures forall i :: 0 <= i < |responses| ==> r[i] == MemberMessage(responses[i], stamps(first + i))
    decreases |responses|
  {
    if |responses| == 0 then []
    else [MemberMessage(responses[0], stamps(first))] + MemberMessages(responses[1..], stamps, first + 1)
  }

  /** The messages a successful discussion adds after the user's: the
      opening, the members in order, and the synthesis. */
  function DiscussionMessages(d: Actions.Discussion, stamps: Stamps): (r: seq<Message>)
    ensures |r| == |d.memberResponses| + 2
    ensures r[0] == ManagerMessage(d.managerResponse, stamps(1))
    ensures forall i :: 0 <= i < |d.memberResponses| ==> r[1 + i] == MemberMessage(d.memberResponses[i], stamps(2 + i))
    ensures r[|r| - 1] == ManagerMessage(d.finalManagerResponse, stamps(|d.memberResponses| + 2))
  {
    [ManagerMessage(d.managerResponse, stamps(1))]
      + MemberMessages(d.memberResponses, stamps, 2)
      + [ManagerMessage(d.finalManagerResponse, stamps(|d.memberResponses| + 2))]
  }

  /** The state after the synchronous prologue of `startTeamDiscussion`:
      running, error cleared, input emptied, task label set, and the user's
      message appended. */
  function Begin(s: State, userInput: string, stamp: Stamp): (r: State)
    ensures r.isProcessing && r.error.None? && r.input == "" && r.currentTask == Some(TeamDiscussionTask)
    ensures |r.messages| == |s.messages| + 1 && r.messages[..|s.messages|] == s.messages
    ensures r.messages[|s.messages|] == UserMessage(userInput, stamp)
  {
    State(AddMessage(s.messages, UserMessage(userInput, stamp)), "", true, None, Some(TeamDiscussionTask))
  }

  /** The state once the action settled: on success the discussion's messages
      are appended; on failure only the error is recorded. Either way the
      session is idle again. */
  function Finish(s: State, outcome: Result<Actions.Discussion>, stamps: Stamps): (r: State)
    ensures !r.isProcessing && r.currentTask.None? && r.input == s.input
    ensures |r.messages| >= |s.messages| && r.messages[..|s.messages|] == s.messages
    ensures outcome.Ok? ==>
      && r.error == s.error
      && r.messages == s.messages + DiscussionMessages(outcome.value, stamps)
    ensures outcome.Err? ==> r.messages == s.messages && r.error == Some(outcome.message)
  {
    match outcome
    case Ok(d) => s.(messages := s.messages + DiscussionMessages(d, stamps), currentTask := None, isProcessing := false)
    case Err(message) => s.(error := Some(message), isProcessing := false, currentTask := None)
  }

  /** The run of the server action that `startTeamDiscussion(userInput)`
      awaits. */
  function ActionRun(userInput: string, members: seq<Config>, manager: Config, oracle: Actions.Oracle): Actions.Run {
    Actions.StartTeamDiscussionAction(userInput, InitialMessages(userInput), members, manager, oracle)
  }

  /** `startTeamDiscussion(userInput)` with `llmConfigs` = `members` and
      `MANAGER_CONFIG` = `manager`. */
  function StartTeamDiscussion(
    s: State, userInput: string, members: seq<Config>, manager: Config, oracle: Actions.Oracle, stamps: Stamps): (r: State)
    // re-entry while a discussion runs is ignored
    ensures s.isProcessing ==> r == s
    ensures !s.isProcessing ==>
      var outcome := ActionRun(userInput, members, manager, oracle).outcome;
      var n := |s.messages|;
      // idle again, input cleared, log only grown, user message first
      && !r.isProcessing && r.currentTask.None? && r.input == ""
      && |r.messages| > n && r.messages[..n] == s.messages
      && r.messages[n] == UserMessage(userInput, stamps(0))
      // failure: only the user message survives, and the error is shown
      && (outcome.Err? ==> r.messages == s.messages + [UserMessage(userInput, stamps(0))]
                           && r.error == Some(outcome.message))
      // success: no error, and what follows the user message is the discussion
      && (outcome.Ok? ==> r.error.None?
                          && r.messages == s.messages + [UserMessage(userInput, stamps(0))]
                                           + DiscussionMessages(outcome.value, stamps))
  {
    if s.isProcessing then s
    else
      var started := Begin(s, userInput, stamps(0));
      var outcome := ActionRun(userInput, members, manager, oracle).outcome;
      var r := Finish(started, outcome, stamps);
      assert started.messages == s.messages + [UserMessage(userInput, stamps(0))];
      r
  }

  /** The log after a discussion `d` of `members` has been shown: the user's
      message, the manager's opening (sender `O1`), one member message per
      config in config order with the member's name as sender, and the
      manager's synthesis — |members| + 3 messages after the old log. */
  predicate ShowsDiscussion(
    before: seq<Message>, now: seq<Message>, userInput: string, d: Actions.Discussion, members: seq<Config>, stamps: Stamps)
  {
    var n := |before|;
    && |d.memberResponses| == |members|
    && |now| == n + |members| + 3
    && now[..n] == before
    && now[n] == Message(stamps(0).id, User, userInput, None, stamps(0).timestamp)
    && now[n + 1] == Message(stamps(1).id, Manager, d.managerResponse, Some("O1"), stamps(1).timestamp)
    && (forall i :: 0 <= i < |members| ==>
          now[n + 2 + i] == Message(stamps(2 + i).id, Member, d.memberResponses[i].response,
                                    Some(members[i].name), stamps(2 + i).timestamp))
    && now[n + |members| + 2]
         == Message(stamps(|members| + 2).id, Manager, d.finalManagerResponse, Some("O1"), stamps(|members| + 2).timestamp)
  }

  /** Appending the user's message and a discussion's messages shows that
      discussion, provided it answers each member under the member's name. */
  lemma AppendedDiscussionShows(
    messages: seq<Message>, userInput: string, d: Actions.Discussion, members: seq<Config>, stamps: Stamps)
    requires |d.memberResponses| == |members|
    requires forall i :: 0 <= i < |members| ==> d.memberResponses[i].name == members[i].name
    ensures ShowsDiscussion(messages, messages + [UserMessage(userInput, stamps(0))] + DiscussionMessages(d, stamps),
                            userInput, d, members, stamps)
  {
    var added := DiscussionMessages(d, stamps);
    var now := messages + [UserMessage(userInput, stamps(0))] + added;
    var n := |messages|;
    assert now[..n] == messages;
    forall i | 0 <= i < |members|
      ensures now[n + 2 + i] == Message(stamps(2 + i).id, Member, d.memberResponses[i].response,
                                        Some(members[i].name), stamps(2 + i).timestamp)
    {
      assert now[n + 2 + i] == added[1 + i];
    }
    assert now[n + |members| + 2] == added[|added| - 1];
  }

  /** A successful discussion started from an idle session shows the
      discussion after the old log, with one member message per config in
      config order. */
  lemma SuccessfulDiscussionAppends(
    s: State, userInput: string, members: seq<Config>, manager: Config, oracle: Actions.Oracle, stamps: Stamps)
    requires !s.isProcessing
    requires ActionRun(userInput, members, manager, oracle).outcome.Ok?
    ensures ShowsDiscussion(s.messages, StartTeamDiscussion(s, userInput, members, manager, oracle, stamps).messages,
                            userInput, ActionRun(userInput, members, manager, oracle).outcome.value, members, stamps)
  {
    Actions.SuccessfulRunShape(userInput, InitialMessages(userInput), members, manager, oracle);
    AppendedDiscussionShows(s.messages, userInput, ActionRun(userInput, members, manager, oracle).outcome.value, members, stamps);
  }

  /** `handleSendMessage`: start a discussion on the current input when it is
      not blank after `trim` and nothing is running. */
  function HandleSendMessage(s: State, members: seq<Config>, manager: Config, oracle: Actions.Oracle, stamps: Stamps): (r: State)
    // a blank input or a running discussion: nothing happens
    ensures Text.AllSpace(s.input) || s.isProcessing ==> r == s
    // otherwise the input is asked, cleared, and the session is idle again
    ensures !Text.AllSpace(s.input) && !s.isProcessing ==>
      && |r.messages| > |s.messages| && r.messages[..|s.messages|] == s.messages
      && r.messages[|s.messages|].role == User && r.messages[|s.messages|].content == s.input
      && r.input == "" && !r.isProcessing
  {
    Text.TrimEmptyIffAllSpace(s.input);
    if Text.Trim(s.input) != "" && !s.isProcessing then StartTeamDiscussion(s, s.input, members, manager, oracle, stamps)
    else s
  }

  /** Sending starts a discussion exactly when the input holds a non-space
      character and the session is idle; otherwise nothing changes. */
  lemma SendGuard(s: State, members: seq<Config>, manager: Config, oracle: Actions.Oracle, stamps: Stamps)
    ensures Text.AllSpace(s.input) || s.isProcessing ==> HandleSendMessage(s, members, manager, oracle, stamps) == s
    ensures !Text.AllSpace(s.input) && !s.isProcessing ==>
      HandleSendMessage(s, members, manager, oracle, stamps) == StartTeamDiscussion(s, s.input, members, manager, oracle, stamps)
  {
    Text.TrimEmptyIffAllSpace(s.input);
  }

  /** While a discussion runs (the state `Begin` leaves behind), neither a
      second `startTeamDiscussion` nor a send changes anything. */
  lemma NoReentryWhileRunning(
    s: State, userInput: string, stamp: Stamp, other: string,
    members: seq<Config>, manager: Config, oracle: Actions.Oracle, stamps: Stamps)
    ensures var running := Begin(s, userInput, stamp);
      && running.isProcessing
      && StartTeamDiscussion(running, other, members, manager, oracle, stamps) == running
      && HandleSendMessage(running, members, manager, oracle, stamps) == running
  {
  }

  /** From the component's initial state nothing is running and the log is
      empty: a send does nothing (the input is blank), and the first
      discussion puts the user's question first in the log. */
  lemma FromInitial(userInput: string, members: seq<Config>, manager: Config, oracle: Actions.Oracle, stamps: Stamps)
    ensures HandleSendMessage(Initial, members, manager, oracle, stamps) == Initial
    ensures var r := StartTeamDiscussion(Initial, userInput, members, manager, oracle, stamps);
      && |r.messages| >= 1
      && r.messages[0] == UserMessage(userInput, stamps(0))
      && !r.isProcessing && r.currentTask.None?
  {
  }
}

# LLM team chat: orchestration core in Dafny

This project models the logic behind the LLM team chat application. A user asks a
question. A manager model (`O1`, running `gpt-4o`) frames it. Three member models
(`4o`, `Gemini` and `Sonnet`) answer the framing. The manager then writes the final
conclusion and minutes. Everything else is rendering or vendor SDK calls.

The model covers four parts:

- **Discussion orchestrator** (`Actions`, from `startTeamDiscussionAction`). It builds
  three prompt contexts: the opening, the member context and the synthesis context.
  Members are asked in config order. A failed member call becomes the placeholder
  `[<name> エラー]: <message>`. A failed opening or synthesis call fails the whole
  action with the same message. A `Run` records every call the action issues, in order.
- **Dispatcher** (`Dispatch`, from `fetchLLMResponse`). It routes on a fixed table from
  model identifier to adapter. An unknown identifier fails with `Unsupported LLM: <model>`
  and no adapter runs. Adapter errors pass through unchanged.
- **Claude adapter** (`Claude`, from `fetchClaudeResponse`). It maps roles: `assistant`
  stays `assistant`, while `user` and `system` both become `user`. It builds the
  request, and it formats the `Claude API error: <status> - <detail>` message.
- **Session state** (`Session`, from the `LLMTeamChatApp` component). It covers the
  append-only message log, update by id, and the `isProcessing` re-entrancy guard. It
  also fixes the order in which a discussion's messages are appended, and what is
  left after a failure.

`Text` models the two JavaScript string operations that the logic uses: `trim`, and
the rendering of a non-negative integer in a template literal. `Llm` holds the shared
message and config types and the reference team. `Reference` proves that the
reference team's Gemini member uses `gemini-2.0-flash`, which is not a routing key.
So whenever the calls go through the dispatcher, that member's slot always holds
`[Gemini エラー]: Unsupported LLM: gemini-2.0-flash`.

Network calls are parameters:

- Each call of the orchestrator is an `Oracle` that also receives the call's position
  in the discussion. This way, the model does not assume that an LLM is deterministic.
- The OpenAI and Gemini SDK adapters are functions in a `Backend`.
- The Claude adapter runs over a `Transport` function that stands for `fetch`.
- Message ids and timestamps come from a `Stamps` function.

Behaviour of the code worth noting:

- An unknown model is a plain `Error`, not a separate error kind.
- `system` turns reach Claude as `user` turns.
- The action re-throws a new `Error` that carries the same message.
- An empty member list is accepted.

## Model

| member | source | states |
|---|---|---|
| Text.SkipSpaces | chat_app/src/components/LLMTeamChatApp.tsx:382 | scanning forward stops at the first non-space character at or after the start, or at the end, and everything passed over is space (the start `trim` cuts off) |
| Text.BackSpaces | chat_app/src/components/LLMTeamChatApp.tsx:382 | scanning backward stops just after the last non-space character above the lower bound, or at that bound, and everything passed over is space (the end `trim` cuts off) |
| Text.Trim | chat_app/src/components/LLMTeamChatApp.tsx:382 | `trim` never lengthens its input, its result has no space at either end, and an input of spaces only trims to empty |
| Text.TrimIsSpaceFreeSlice | chat_app/src/components/LLMTeamChatApp.tsx:382 | `trim` returns a contiguous slice with no space at either end, and what it cut off on both sides is space |
| Text.TrimEmptyIffAllSpace | chat_app/src/components/LLMTeamChatApp.tsx:382 | `input.trim()` is empty exactly when every character of the input is JavaScript white space or a line terminator |
| Text.NatToString | chat_app/src/lib/api.ts:44 | a status renders as a non-empty run of decimal digits with no leading zero (0 renders as the single digit `0`) |
| Text.NatToStringRoundTrip | chat_app/src/lib/api.ts:44 | reading the rendered digits back gives the original status, so the rendering loses nothing |
| Text.NatToStringInjective | chat_app/src/lib/api.ts:44 | distinct statuses render as distinct strings |
| Llm.KeyOr | chat_app/src/components/LLMTeamChatApp.tsx:48-51 | an API key is the environment variable when it is set and non-empty, and the fallback otherwise |
| Llm.ReferenceMembers | chat_app/src/components/LLMTeamChatApp.tsx:53-57 | the reference team has three members in the order 4o/gpt-4o, Gemini/gemini-2.0-flash, Sonnet/claude-3-sonnet |
| Llm.ReferenceManager | chat_app/src/components/LLMTeamChatApp.tsx:59 | the manager is named O1 and runs gpt-4o |
| Claude.ToClaudeMessages | chat_app/src/lib/api.ts:23-26 | the role map keeps the length and every content, and a turn is `assistant` after the map exactly when it was `assistant` before |
| Claude.ToClaudeMessagesAppend | chat_app/src/lib/api.ts:23-26 | the role map distributes over concatenation, so each turn is translated independently of its neighbours |
| Claude.ToClaudeMessagesLosesOnlySystem | chat_app/src/lib/api.ts:22-26 | read back, every turn is unchanged except a `system` turn, which comes back as a `user` turn with the same content |
| Claude.ErrorDetail | chat_app/src/lib/api.ts:44 | the detail is the provider's error message when it is present and non-empty, and `Unknown error` otherwise; it is never empty and never a different failure |
| Claude.FormatApiErrorInjective | chat_app/src/lib/api.ts:44 | two error messages are equal only when they carry the same status and the same detail |
| Claude.ApiErrorMessageInjective | chat_app/src/lib/api.ts:41-44 | a non-ok reply's message determines its HTTP status and its detail text |
| Claude.ApiErrorMessageParts | chat_app/src/lib/api.ts:41-44 | the message starts with `Claude API error: `, then the status (its digits read back as the status), and ends with the detail |
| Claude.FetchClaudeResponse | chat_app/src/lib/api.ts:8-49 | a transport failure propagates unchanged; a non-ok reply fails with the formatted API error; an ok reply succeeds exactly when it has a content block, and then the answer is the first block's text |
| Claude.BuildRequestFaithful | chat_app/src/lib/api.ts:15-39 | the request goes to the Messages endpoint with API version 2024-06-20; the key, model, temperature and token limit are unchanged; there is one role-mapped turn per input turn |
| Dispatch.Route | chat_app/src/lib/api.ts:57-66 | the switch routes a model exactly when it is a key of the routing table (gpt-4o and o1-pro-2025-03-19 go to OpenAI, gemini-pro to Gemini, claude-3-sonnet to Claude), and to that key's adapter |
| Dispatch.FetchLLMResponse | chat_app/src/lib/api.ts:52-73 | no adapter is invoked exactly when the model is unknown, and then the error is `Unsupported LLM: <model>`; otherwise the routed adapter receives the messages, key, model, temperature and maxTokens unchanged, and its outcome, error included, is the result |
| Dispatch.DispatchDependsOnlyOnRoutedAdapter | chat_app/src/lib/api.ts:57-67 | the dispatch outcome depends only on the routed adapter; an unknown model does not depend on any adapter |
| Dispatch.ClaudeErrorsPassThrough | chat_app/src/lib/api.ts:63-72 | a non-ok Claude reply reaches the dispatcher's caller as the formatted Claude error, unchanged by the catch block |
| Actions.MemberContext | chat_app/src/lib/actions.ts:14-23 | the member context is the initial messages followed by the opening as an assistant turn and the member instructions as a system turn: length \|initial\|+2 |
| Actions.AssistantTurns | chat_app/src/lib/actions.ts:39 | there is one assistant turn per member response, in member order, carrying that response |
| Actions.SummaryContext | chat_app/src/lib/actions.ts:36-44 | the synthesis context is the initial messages, then the opening, then every member response in order, then the summary instructions: length \|initial\|+\|members\|+2 |
| Actions.ContextsShareHistory | chat_app/src/lib/actions.ts:14-44 | the member context and the synthesis context agree up to and including the opening, which follows the initial messages |
| Actions.SummaryContextWithoutMembers | chat_app/src/lib/actions.ts:36-44 | with no members, the synthesis context has no member turns |
| Actions.PlaceholderNamesMemberAndError | chat_app/src/lib/actions.ts:31 | the placeholder opens with `[` and the member's name, ends with the error message, and is 8 characters longer than both together |
| Actions.MemberAnswer | chat_app/src/lib/actions.ts:27-32 | a member entry carries the member's name; its response is the answer when the call succeeds and the placeholder with the error message when it fails |
| Actions.FanOut | chat_app/src/lib/actions.ts:25-34 | there is one entry per config, in config order; entry i is the outcome of member i's own call at position first+i, on the shared context |
| Actions.FanOutCalls | chat_app/src/lib/actions.ts:26-28 | the fan-out issues one call per config, in order, each with the same context |
| Actions.StartTeamDiscussionAction | chat_app/src/lib/actions.ts:5-55 | the opening call comes first and sees exactly the initial messages; if it fails, the action fails with its message after that single call; otherwise member i is called with the member context, the synthesis call sees the synthesis context, the action succeeds exactly when the synthesis succeeds (and otherwise fails with its message), and the result holds exactly the opening, the member entries and the synthesis |
| Actions.SuccessfulRunShape | chat_app/src/lib/actions.ts:25-55 | a successful action reports exactly one entry per member config, entry i under config i's name |
| Actions.MemberResultsFollowConfigs | chat_app/src/lib/actions.ts:25-34 | on success, entry i has config i's name, and its response is member i's answer or the placeholder with member i's error |
| Actions.MemberFailuresAreAbsorbed | chat_app/src/lib/actions.ts:25-45 | even when every member call fails, a run whose opening and synthesis succeed still succeeds, with each member's placeholder in its slot |
| Actions.MemberIsolation | chat_app/src/lib/actions.ts:26-28 | member i's entry depends only on the opening and on member i's own call, never on another member |
| Actions.SynthesisSeesEveryMember | chat_app/src/lib/actions.ts:36-45 | the synthesis call sees member i's reported entry, answer or placeholder, as the assistant turn at position \|initial\|+1+i |
| Session.Apply | chat_app/src/components/LLMTeamChatApp.tsx:293 | each field the update carries replaces the message's, including a sender explicitly set to `undefined`, and every other field is kept; an empty update changes nothing |
| Session.AddMessage | chat_app/src/components/LLMTeamChatApp.tsx:287-289 | adding a message grows the log by one: earlier entries are unchanged and the new message is last |
| Session.UpdateMessage | chat_app/src/components/LLMTeamChatApp.tsx:291-295 | an update keeps the log's length and order; entries with another id are untouched, and every entry with the id gets the update's fields |
| Session.UpdateMissingIdIsNoOp | chat_app/src/components/LLMTeamChatApp.tsx:291-295 | updating an id that no entry carries leaves the log unchanged |
| Session.UpdateMessageIdempotent | chat_app/src/components/LLMTeamChatApp.tsx:291-295 | applying any update twice is the same as applying it once, including an update that moves the entry to another id |
| Session.UpdateCommutesWithAppend | chat_app/src/components/LLMTeamChatApp.tsx:287-295 | updating after appending a message with another id is the same as appending after updating |
| Session.InitialMessages | chat_app/src/components/LLMTeamChatApp.tsx:311-329 | the opening prompt has exactly two turns: the user input as a user turn, then the manager instructions as a system turn |
| Session.Begin | chat_app/src/components/LLMTeamChatApp.tsx:298-309 | starting sets the session running with the discussion task, clears the error and the input, and appends only the user message |
| Session.MemberMessages | chat_app/src/components/LLMTeamChatApp.tsx:349-358 | there is one member message per response, in order, with the response as content and the member name as sender |
| Session.DiscussionMessages | chat_app/src/components/LLMTeamChatApp.tsx:340-367 | a discussion adds the opening from O1, the member messages in order, and the synthesis from O1: \|members\|+2 messages |
| Session.Finish | chat_app/src/components/LLMTeamChatApp.tsx:340-374 | settling leaves the session idle with no task and keeps the old log as a prefix; success appends exactly the discussion's messages (the opening from O1, the members in order, the synthesis from O1) and keeps the error; failure keeps the log and records the error message |
| Session.StartTeamDiscussion | chat_app/src/components/LLMTeamChatApp.tsx:297-375 | while running, the call changes nothing; otherwise the session ends idle with no task and an empty input, the old log is a prefix, and the user message comes next; on failure only the user message was added and the error is set; on success the error is clear and the discussion's messages follow |
| Session.AppendedDiscussionShows | chat_app/src/components/LLMTeamChatApp.tsx:340-367 | appending the user message and a discussion whose entries carry the members' names, in config order, leaves the old log as a prefix followed by the user message, the opening from O1, member i's message with sender members[i].name, and the synthesis from O1 |
| Session.SuccessfulDiscussionAppends | chat_app/src/components/LLMTeamChatApp.tsx:303-367 | a successful discussion appends the user message, the opening from O1, member i's message with sender members[i].name, and the synthesis from O1: \|members\|+3 messages in this order |
| Session.HandleSendMessage | chat_app/src/components/LLMTeamChatApp.tsx:381-385 | a blank input or a running discussion changes nothing; otherwise the input is asked as a new user message, the input is cleared and the session ends idle |
| Session.SendGuard | chat_app/src/components/LLMTeamChatApp.tsx:381-385 | sending starts a discussion on the input exactly when the input has a non-space character and nothing is running; otherwise the state is unchanged |
| Session.NoReentryWhileRunning | chat_app/src/components/LLMTeamChatApp.tsx:298-309 | once a discussion has begun, neither another start nor a send changes the state |
| Session.FromInitial | chat_app/src/components/LLMTeamChatApp.tsx:280-285 | from the initial state (empty log, empty input, idle, no error, no task) a send changes nothing, and the first discussion leaves the user's question as the first message and the session idle |
| Reference.ReferenceRouting | chat_app/src/components/LLMTeamChatApp.tsx:53-59 | the manager and 4o route to OpenAI and Sonnet routes to Claude; the Gemini member's gemini-2.0-flash routes nowhere |
| Reference.GeminiSlotIsAlwaysPlaceholder | chat_app/src/components/LLMTeamChatApp.tsx:55 | with dispatched calls, whatever the providers answer, no adapter is invoked for the Gemini member, and a successful discussion reports the placeholder in its slot |
| Reference.GeminiMessageIsPlaceholder | chat_app/src/components/LLMTeamChatApp.tsx:349-358 | in the session, the second member message of a successful reference discussion (the fourth message from the user's question on) is the placeholder, with sender Gemini |

## Left out

- The OpenAI and Gemini adapters (chat_app/src/lib/openai.ts, chat_app/src/lib/google.ts) are SDK calls. They are functions in `Dispatch.Backend`, with any behaviour.
- The HTTP exchange in the Claude adapter is the `Claude.Transport` parameter. A rejected `fetch` and a reply body that is not JSON are both its `Err`. The model does not represent JSON serialisation of the request.
- Claude.FetchClaudeResponse: a reply with no `content` array at all fails with a slightly different runtime message ("reading '0'") from an empty one. The model gives both the empty-array message. It also assumes that `error.message` is a string when present. When the first content block has no `text` field, the source resolves successfully with `undefined`. The model cannot represent that answer, because the block texts are strings, so it always answers with a string.
- `Promise.all` concurrency is a sequential map. Order and per-member isolation are all that can be observed.
- LLM answers are not assumed deterministic. The `Actions.Oracle` takes the call's position, so two calls may answer the same prompt differently.
- `crypto.randomUUID` and `Date.now` are the `Session.Stamps` parameter. Unique ids and non-decreasing timestamps are not proved, because they depend on the runtime.
- Session.StartTeamDiscussion: the awaited action settles inside one transition. Typing into the input while a discussion runs is not modelled. Neither are React's batching of state updates or the stale `isProcessing` captured by `useCallback`. `Session.Begin` gives the state that is visible while the discussion runs.
- Session.UpdateMessage: an update that sets `id`, `role`, `content` or `timestamp` explicitly to `undefined` is not modelled, because the result would not be a `Message`. A `sender` set to `undefined` is modelled, and clears the sender.
- Errors are represented by their message text. The framework's handling of errors thrown from a server action (it may replace the message in production builds) is outside the repository and not modelled.
- `temperature` is an opaque `real` that is only passed through.
- `console.log` and `console.error` are observability only.
- Rendering is left out: `ChatMessage`, `Sidebar`, `ChatHeader`, `ChatInput`, the JSX, chat_app/src/components/ui/, chat_app/src/app/page.tsx, the sidebar toggle and input-change handlers, and `handleKeyDown` (chat_app/src/components/LLMTeamChatApp.tsx:387-392), which calls `handleSendMessage` on Enter without Shift and so adds no behaviour beyond `Session.HandleSendMessage`.

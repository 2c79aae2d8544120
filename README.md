# Agent chat protocol: a verified model

This project models the core of a small agent chat system in Dafny. The
system has two halves. A C# backend forwards a user's message to a hosted
AI-agent service, polls the agent's run until it is no longer pending, and
returns the agent's reply. A React client keeps a conversation thread id
and resends a message until the reply differs from the last one it showed.

The model covers four parts:

- **Agent session** (`AgentSession`, class `PrivateAgent`): thread
  resolution, posting the user message, starting the run, the do-while
  status poll, the first-agent-message reply extractor, and the conversion
  of every failure into a `"[Error]: "`-tagged string.
  - The remote agent service is an oracle value (`Remote`). It holds
    whether posting the message throws, the run id or the exception from
    creating the run, the stream of answers to successive status fetches,
    and the message list or the exception from listing it.
  - `GetResponse` returns the reply and the trace of calls it issued.
  - It is proved equal to the specification function `Converse`. The lemmas
    below are proved about `Converse`.
- **HTTP decisions** (`ChatController`): chat request validation, the
  thread route's 500 / GUID fallback / 200 decision, and the health check.
  These are pure functions of the request and of what the session returns.
- **Chat component** (`ChatUI`, class `Component`): the thread acquisition
  loop, bounded to 10 requests, and `HandleSend`, which appends the user
  message, finds the last assistant message, and runs the dedup resend loop
  of at most 100 sends.
  - The component's React state and the local storage entry are fields.
  - Both loops are proved against the specification functions `Acquire`
    and `Dedup`.
- **Client send guard** (`App.SendMessage`): the thread-id check happens
  before any request, a non-ok response throws, and otherwise the body is
  returned verbatim.

`Text` holds the shared string predicates. These are .NET's
`IsNullOrWhiteSpace` and JavaScript's `trim`, each with its own set of
white-space characters, and `StartsWith`. `EndToEnd` relates the halves:
what the client makes of the backend's thread route, and why the client's
send guard never refuses the thread id the component holds.

Time is counted, never measured. The 100 ms poll delay, the 300 ms retry
pause and the 50 ms resend pause are not modelled. The dedup budget is the
counter `waited`, which grows by 50 per send up to 5000, so it allows
exactly 100 sends.

Two behaviours of the code are easy to misread, and the model follows the
code in both:

- The reply is the first Agent-role message in the order the service
  returns the list, not the latest agent message. The model does the same
  (`FirstAgentIndex`), and `FirstInServiceOrder` pins this down.
- The dedup budget is 100 sends, not 5 seconds of wall-clock time. The
  code adds 50 to a counter after each rejected send and ignores how long
  the sends take. The model bounds sends, not time.

## Model

| member | source | states |
|---|---|---|
| `Text.JsTrim` | ai-chat-ui/src/ChatUI.jsx:50 | `input.trim()` is empty exactly when every character is JavaScript white space; a non-empty result has no white space at either end |
| `Text.JsTrimIsInfix` | ai-chat-ui/src/ChatUI.jsx:50 | `input.trim()` is the input with a white-space prefix and a white-space suffix removed, the rest kept in order and unchanged |
| `App.SendMessage` | ai-chat-ui/src/App.js:8-27 | a request is issued iff the thread id is a string starting with "thread", else the invalid-thread error; the request carries the message and thread id unchanged; the result is Ok iff the response is ok, and then it is the body verbatim; a non-ok response gives "Network response was not ok" |
| `AgentSession.Tagged` | agent_with_tool_V1/services/PrivateAgent.cs:60-63 | an error reply starts with "[Error]: " followed by exactly the cause |
| `AgentSession.SettleIndex` | agent_with_tool_V1/services/PrivateAgent.cs:33-37 | polling ends at the first fetch that throws or reports a status other than Queued/InProgress; every earlier fetch was pending |
| `AgentSession.FirstAgentIndex` | agent_with_tool_V1/services/PrivateAgent.cs:44-57 | the reply is read from the first Agent-role message in service order; there is none iff no message has the Agent role |
| `AgentSession.TextOfAppend` | agent_with_tool_V1/services/PrivateAgent.cs:48-54 | the text of a message is accumulated item by item: the text of a concatenation is the concatenation of the texts |
| `AgentSession.TextOfSkipsNonText` | agent_with_tool_V1/services/PrivateAgent.cs:48-54 | non-text content items contribute nothing to the reply |
| `AgentSession.TextOfNoText` | agent_with_tool_V1/services/PrivateAgent.cs:42-55 | a message with no text items reads as the empty string |
| `AgentSession.Converse` | agent_with_tool_V1/services/PrivateAgent.cs:25-64 | the first call posts the prompt as a User message to the effective thread (the supplied id, even "", else the default); the second starts the run for the configured agent; a failure to post or to create the run returns its tagged cause after one or two calls; a status fetch that throws returns its tagged cause after the post, the run and every fetch up to it |
| `AgentSession.PrivateAgent.constructor` | agent_with_tool_V1/services/PrivateAgent.cs:17-23 | the session keeps the agent id and default thread id it is given; building it requires the connection string, agent id and thread id to be non-blank (the host's checks, agent_with_tool_V1/Program.cs lines 54-59) |
| `AgentSession.PrivateAgent.GetResponse` | agent_with_tool_V1/services/PrivateAgent.cs:25-64 | the imperative do-while poll and nested foreach extraction return exactly the reply and call trace of `Converse`, given a status stream that eventually settles |
| `AgentSession.PrivateAgent.CreateThread` | agent_with_tool_V1/services/PrivateAgent.cs:66-78 | the new thread's id on success; on failure a string starting with "[Error]: " made of the cause, a vertical-bar separator and the stack trace |
| `AgentSession.PollingFetchCount` | agent_with_tool_V1/services/PrivateAgent.cs:33-37 | once the run exists, the status is fetched exactly (1-based position of the first settling fetch) times, so at least once |
| `AgentSession.FourFetchesUntilCompleted` | agent_with_tool_V1/services/PrivateAgent.cs:33-37 | statuses Queued, InProgress, InProgress, Completed cost exactly four fetches |
| `AgentSession.SettleIndexReplaced` | agent_with_tool_V1/services/PrivateAgent.cs:37 | replacing the settling fetch by any other settling answer leaves the end of polling where it was |
| `AgentSession.AnySettledStatusActsAsCompleted` | agent_with_tool_V1/services/PrivateAgent.cs:37-39 | a run ending Failed, Cancelled, Expired or any other non-pending status yields exactly the same reply and calls as one ending Completed |
| `AgentSession.SettledRunIsRead` | agent_with_tool_V1/services/PrivateAgent.cs:37-40 | after a settled run the messages are always listed, as the last call, and the reply is read from them (or the listing's tagged failure) |
| `AgentSession.FirstAgentMessageWins` | agent_with_tool_V1/services/PrivateAgent.cs:44-56 | with no agent message before it, the first agent message's text is the reply whatever follows, later agent messages included |
| `AgentSession.FirstInServiceOrder` | agent_with_tool_V1/services/PrivateAgent.cs:44-56 | messages [agent "hi"], [user "hello"] give "hi" |
| `AgentSession.TextlessAgentMessageGivesEmpty` | agent_with_tool_V1/services/PrivateAgent.cs:42-55 | a first agent message with no text items gives "", not the no-reply error |
| `AgentSession.NoAgentMessageGivesNoReply` | agent_with_tool_V1/services/PrivateAgent.cs:58 | with no agent message the reply is exactly "[Error]: No agent reply found for this prompt." |
| `AgentSession.UnmarkedReplyIsAgentText` | agent_with_tool_V1/services/PrivateAgent.cs:27-63 | a reply not starting with "[Error]:" comes only from a round trip in which every remote call succeeded, and it is the first agent message's text |
| `ChatController.Chat` | agent_with_tool_V1/ChatController.cs:20-28 | the agent is not called iff the body is missing or the message is null/empty/white space, and then the answer is 400 "Message is required."; otherwise the message and thread id go to the agent unchanged and its reply comes back verbatim with 200, a null reply as "" |
| `ChatController.CreateThread` | agent_with_tool_V1/ChatController.cs:31-44 | 500 iff the result starts with "[Error]:", with the result as the error; otherwise 200 with the id, a blank id replaced by the GUID |
| `ChatController.Health` | agent_with_tool_V1/ChatController.cs:46-47 | always 200 with status "ok" |
| `ChatController.ErrorMarkedIsNotBlank` | agent_with_tool_V1/ChatController.cs:34-42 | an error-marked result is never blank, so testing the marker before blankness never changes the outcome |
| `ChatController.CreatedThreadIdNotBlank` | agent_with_tool_V1/ChatController.cs:39-43 | with a non-blank GUID, a 200 from the thread route never carries a blank id |
| `ChatController.ThreadCreationFailureIs500` | agent_with_tool_V1/ChatController.cs:33-38 | every thread-creation failure in the session becomes 500 whose error is "[Error]: ", the cause, a vertical-bar separator and the stack trace |
| `ChatUI.AcquireFrom` | ai-chat-ui/src/ChatUI.jsx:22-32 | at most 10 creation requests; the loop stops at the first reply that is a valid id (which it keeps) or that throws, and every earlier reply was an invalid id; giving up means all 10 were invalid |
| `ChatUI.GivesUpIffTenInvalidReplies` | ai-chat-ui/src/ChatUI.jsx:22-38 | the alert fires iff the stored id is invalid and all ten replies carry invalid ids |
| `ChatUI.LastAssistantIndex` | ai-chat-ui/src/ChatUI.jsx:64-67 | the lookup finds the most recent assistant message; there is none iff no message is the assistant's |
| `ChatUI.UserMessageKeepsLastAssistant` | ai-chat-ui/src/ChatUI.jsx:53-67 | appending the user's message first does not change which assistant reply the loop compares against |
| `ChatUI.DedupFrom` | ai-chat-ui/src/ChatUI.jsx:68-76 | at most 100 sends; the loop takes the first reply that differs from the last assistant message (any reply when there is none), stops at a throwing send, and every earlier send returned exactly the last assistant text |
| `ChatUI.ExhaustedIffAllRepeat` | ai-chat-ui/src/ChatUI.jsx:68-76 | the budget is exhausted iff there is a last assistant message and all 100 sends return exactly its text |
| `ChatUI.NoPriorReplyTakesFirst` | ai-chat-ui/src/ChatUI.jsx:70-73 | with no assistant message yet, the first returned reply is accepted after one send |
| `ChatUI.Component.constructor` | ai-chat-ui/src/ChatUI.jsx:9-12 | no messages, empty input, not loading, no thread id; local storage as found |
| `ChatUI.Component.GetThread` | ai-chat-ui/src/ChatUI.jsx:18-39 | a valid stored id is used with zero requests; only a valid id is written to storage; after giving up the thread is null and the alert fires; otherwise the thread is the valid id; the component keeps holding only valid ids |
| `ChatUI.Component.HandleSend` | ai-chat-ui/src/ChatUI.jsx:49-86 | a blank input, a send in flight or no thread changes nothing; otherwise the input is cleared, exactly one user message with the original input is appended, the dedup loop runs against the last assistant message, an assistant message is appended only for a non-empty accepted reply, and loading ends false |
| `EndToEnd.GuidIsNoThreadId` | agent_with_tool_V1/ChatController.cs:39-42 | the GUID fallback id never passes the client's "thread" prefix check |
| `EndToEnd.UnusableThreadRouteRetried` | ai-chat-ui/src/ChatUI.jsx:23-30 | a failed thread creation (500 with an error body) or a blank id replaced by a GUID makes the client ask again |
| `EndToEnd.ServiceThreadIdAccepted` | ai-chat-ui/src/ChatUI.jsx:23-29 | an id from the service starting with "thread" reaches the client unchanged and ends its loop |
| `EndToEnd.HeldThreadPassesSendGuard` | ai-chat-ui/src/App.js:9-12 | a thread id that gets past handleSend's guard always passes sendMessage's check, so a request goes out |

## Left out

- The Azure agent-service client (`AgentsClient`) and its calls. Their
  outcomes are the oracle `Remote`, and the calls are recorded as a trace.
  Credentials and the connection string's use are not modelled.
- Delays (`Task.Delay`, `setTimeout`). They are counted as loop iterations.
- GUID generation. The GUID is a parameter, assumed to be in the usual
  hexadecimal text form where a lemma needs that.
- Host wiring in agent_with_tool_V1/Program.cs (dependency injection, CORS,
  Swagger, logging, the exception middleware). Its three configuration
  checks are the constructor's preconditions. The middleware's plain-text
  500 appears only in `EndToEnd.ClientReads`, as a body the client cannot
  parse.
- agent_with_tool_V1/services/PrivateClient.cs is not part of this model.
  No route uses it, and it works with a floating-point temperature.
- React mechanics: rendering and styling, the scroll effect, the `alert`
  itself (a returned flag), message timestamps, JSON serialisation, the
  Enter-key handler, and the reset button (removing the stored id and
  reloading the page).
- The timing of React's state updater in `handleSend`. The model takes the
  last assistant message from the list at the moment the loop starts, and
  does not model when React runs the updater that sets `lastAssistant`.
- Concurrent requests on the same thread, and their interleaving at the
  service. The model is sequential.
- `AgentSession.PrivateAgent.GetResponse`: termination of polling is a
  precondition (`EventuallySettles`). The source has no timeout, and a run
  that stays pending would make it poll forever. That case is not modelled.
- `ChatUI.Component.GetThread`: when a thread request or its JSON parse
  throws, the source's async function rejects and leaves the state as it
  was. The model returns with the state unchanged and the alert flag false.
  It does not model the unhandled rejection.
- `ChatUI.Component.HandleSend`: when a send throws, the source resets
  `loading` in `finally` and the error leaves `handleSend`. The model
  resets `loading` and returns. The thrown error is recorded only in
  `Dedup`'s `Threw` result.
- JavaScript values other than strings (numbers, objects) where a thread id
  is expected are all modelled as absent. The source rejects all of them as
  invalid thread ids anyway.
- ChatController.CreateThread: tests the error marker ordinally.
  ChatController.cs calls C#'s one-argument `StartsWith`, which compares by
  the current culture and can skip ignorable characters such as a soft
  hyphen before the marker; that comparison is not modelled. The
  session's own error strings always begin with the marker itself, so the
  two agree on everything the session returns.
- UTF-16 detail. A Dafny `char` is a Unicode scalar value, so lone
  surrogates are not modelled, and a character outside the Basic
  Multilingual Plane is one element of a string, not two code units.
- ChatController.Chat: models the action's own check, whose 400 carries
  "Message is required.". ASP.NET Core's model binding for an
  `[ApiController]` can refuse an empty or malformed body with its own 400
  problem response before the action runs; that response is not modelled.

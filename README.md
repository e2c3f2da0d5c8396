# ai-agent-orchestrator in Dafny

This project models the core of `ai-agent-orchestrator`, a small agent
orchestration library, and proves properties of that model.

- **Agent loop.** An agent sends the conversation to a language model. It
  parses the reply as a tool call or a final answer under a JSON output
  protocol. It runs the tool through a tool registry and records the result in
  memory. It repeats until it gets a final answer or its step budget runs out.
- **Collaborators.** The deterministic fake model and the in-memory
  conversation log. The tool registry. Explicit plugins that register tools.
  A predicate-based router in front of several agents.
- **Observability.** Trace events and the `emit_event` sink dispatch.
- **LM Studio backend** of the `task_runner_app` example. It formats request
  payloads, checks protocol compliance and retries once with a reminder. It
  parses the server-sent event stream and applies the final-chunk rule.
- **File sandbox.** It accepts a path only under an allowed root.

## Layout

One module per source file:

| file | module | flavour |
|---|---|---|
| `wrappers.dfy` | `Wrappers` | Option and Result |
| `errors.dfy` | `Errors` | the orchestrator's exception hierarchy, as a datatype |
| `messages.dfy` | `Messages` | chat messages and roles |
| `json.dfy` | `Json` | JSON values, plus a `Codec` of library conversions |
| `pytext.dfy` | `PyText` | Python's `str.strip`, `str.isspace` and `str.startswith` |
| `outputs.dfy` | `Outputs` | `parse_output`, pure |
| `registry.dfy` | `Registry` | `ToolRegistry`, a class over a map of tools |
| `memory.dfy` | `Memory` | `InMemoryMemory`, a class over a message sequence |
| `fake_llm.dfy` | `FakeLlm` | `FakeLLM`, a class over a reply queue |
| `agent_spec.dfy` | `AgentSpec` | the run of an agent, as a pure function |
| `agent.dfy` | `Agents` | `Agent.run`, a method proved equal to `AgentSpec.RunSpec` |
| `router.dfy` | `Routing` | `Router`, a class over its route list |
| `plugins.dfy` | `Plugins` | `apply_plugins`, a method proved against `ApplySpec` |
| `events.dfy` | `Observability` | trace events, `emit_event`, `ListEventSink` |
| `lmstudio.dfy` | `LmStudio` | the LM Studio client's protocol and stream logic |
| `sandbox.dfy` | `Sandbox` | `resolve_path`, pure |

### Modelling choices

- **Library conversions.** `json.loads`, `json.dumps`, `str()` of a JSON
  scalar and `_serialize_content` are kept abstract as the four functions of a
  `Json.Codec`. No codec can decode every `Json` back, since `JNum` carries a
  real. So each lemma that needs a round trip asks for it only for the one
  value it encodes (`RoundTrips(c, j)`).
- **Tools.** A tool is a pair of functions: `validate` (the pydantic input
  model) and `run`. Either can fail with a cause, which the registry wraps as
  `ToolExecutionError`.
- **Agent.** The agent's model is the `FakeLLM` queue. A run is specified by
  `AgentSpec.RunSpec`, which returns:
  - the result, which is either a response or the error that aborted the run;
  - the final conversation log;
  - the remaining reply queue.

  `Agents.Agent.Run` is a method whose loop is proved to compute exactly that.
- **Plugins.** A plugin is described by its entry points: a `register` method
  and/or a `__call__`. Each entry point is described by the tools it registers.
- **LM Studio.** `_request` becomes a function `reply` from a conversation to
  a reply or a `RuntimeError`. The streaming response becomes a function from
  a conversation to its lines. The client records every request body it sends.

## Model

| member | source | states |
|---|---|---|
| Errors.Message | src/ai_agent_orchestrator/tools/registry.py:18-29 | a missing tool reads `Tool '<name>' is not registered`; a failing tool reads `Tool '<name>' failed: <cause>` |
| Messages.RoleName | src/ai_agent_orchestrator/protocol/messages.py:8-11 | every role is one of the four literal role names |
| Messages.RoleNameInjective | src/ai_agent_orchestrator/protocol/messages.py:9 | distinct roles have distinct names, in both directions |
| Json.Get | src/ai_agent_orchestrator/protocol/outputs.py:45-50 | `dict.get` yields the stored value for a present key, else the default |
| PyText.TrimLeft | src/task_runner_app/llm.py:136 | leading whitespace is removed: the result is a suffix, it does not start with a space, and what was cut is blank |
| PyText.TrimRight | src/task_runner_app/llm.py:136 | trailing whitespace is removed: the result is a prefix, it does not end with a space, and what was cut is blank |
| PyText.StripEmptyIffBlank | src/ai_agent_orchestrator/protocol/outputs.py:47 | `s.strip()` is empty exactly when `s` is all whitespace |
| PyText.StripOfNonSpace | src/task_runner_app/llm.py:136 | stripping a string with non-space ends leaves it unchanged |
| Outputs.ParseOutput | src/ai_agent_orchestrator/protocol/outputs.py:35-80 | a parsed tool call never has a blank tool name |
| Outputs.ParseNotJson | src/ai_agent_orchestrator/protocol/outputs.py:36-39 | text that is not JSON becomes a final answer carrying the raw text |
| Outputs.ParseUntagged | src/ai_agent_orchestrator/protocol/outputs.py:41-42 | JSON that is not an object with a `type` becomes a final answer carrying the raw text |
| Outputs.ParseToolCallIff | src/ai_agent_orchestrator/protocol/outputs.py:44-58 | the reply parses as `ToolCall(name, args)` if and only if it is a `tool_call` object with that non-blank string name and args an object, absent or null (null and absent become `{}`) |
| Outputs.ParseFinalSource | src/ai_agent_orchestrator/protocol/outputs.py:35-80 | a final answer's content is either the raw text or the text of a well-formed `final` object's content |
| Outputs.ParseFinalObject | src/ai_agent_orchestrator/protocol/outputs.py:59-76 | a `final` object: missing content gives the raw text; a string is kept; a bool, number or null goes through `str`; an array or object is serialised |
| Outputs.ParseToolCallRejected | src/ai_agent_orchestrator/protocol/outputs.py:46-54 | a `tool_call` object with a missing, non-string or blank name, or args of another type, falls back to the raw text |
| Outputs.ParseOtherType | src/ai_agent_orchestrator/protocol/outputs.py:80 | any other `type` falls back to the raw text |
| Outputs.ParseEncodedToolCall | src/ai_agent_orchestrator/protocol/outputs.py:44-58 | encoding a tool call with a non-blank name, then parsing it, gives the tool call back, for a codec that reads that encoding back |
| Outputs.ParseEncodedFinal | src/ai_agent_orchestrator/protocol/outputs.py:59-65 | encoding a final answer, then parsing it, gives the final answer back, for a codec that reads that encoding back |
| Registry.Dispatch | src/ai_agent_orchestrator/tools/registry.py:18-29 | an unregistered name gives ToolNotFoundError; otherwise the tool's output, or ToolExecutionError naming the tool when validation or the run fails |
| Registry.DispatchErrors | src/ai_agent_orchestrator/tools/registry.py:18-29 | the error is ToolNotFoundError exactly when the name is unregistered, and otherwise a ToolExecutionError for that name |
| Registry.DispatchAfterRegister | src/ai_agent_orchestrator/tools/registry.py:15-16 | after registering a tool, its name dispatches to that tool and every other name dispatches as before |
| Registry.ToolRegistry.constructor | src/ai_agent_orchestrator/tools/registry.py:12-13 | a new registry is empty |
| Registry.ToolRegistry.Register | src/ai_agent_orchestrator/tools/registry.py:15-16 | the tool is stored under its name, replacing an earlier one; every other entry is unchanged |
| Registry.ToolRegistry.Get | src/ai_agent_orchestrator/tools/registry.py:18-21 | succeeds exactly for a registered name, with that tool; otherwise ToolNotFoundError |
| Registry.ToolRegistry.Run | src/ai_agent_orchestrator/tools/registry.py:23-29 | the result is `Dispatch` on the current tools |
| Memory.ConversationLog.constructor | src/ai_agent_orchestrator/memory/in_memory.py:12-13 | a new log is empty |
| Memory.ConversationLog.Add | src/ai_agent_orchestrator/memory/in_memory.py:15-16 | the message is appended; earlier messages are kept in order |
| Memory.ConversationLog.GetConversation | src/ai_agent_orchestrator/memory/in_memory.py:18-19 | the snapshot is the whole log |
| FakeLlm.LastUserContent | src/ai_agent_orchestrator/llm.py:33-36 | the content of the last user message, or `""` when there is none |
| FakeLlm.LastUserContentIgnoresOthers | src/ai_agent_orchestrator/llm.py:33-36 | only user messages affect the echoed content |
| FakeLlm.RepliesInOrder | src/ai_agent_orchestrator/llm.py:29-31 | as many calls as queued replies return the queued replies in order, whatever the conversations |
| FakeLlm.EchoParsesAsFinal | src/ai_agent_orchestrator/llm.py:33-37 | the echo reply parses as the final answer `Echo: <last user content>`, for a codec that reads that encoding back |
| FakeLlm.FakeModel.constructor | src/ai_agent_orchestrator/llm.py:23-24 | the queue holds the given replies, or is empty for None |
| FakeLlm.FakeModel.Push | src/ai_agent_orchestrator/llm.py:26-27 | the reply is queued last |
| FakeLlm.FakeModel.Generate | src/ai_agent_orchestrator/llm.py:29-37 | a non-empty queue yields its head and drops it; an empty queue yields the echo and stays empty |
| AgentSpec.MessagesOfAppend | src/ai_agent_orchestrator/agent.py:52-112 | the messages recorded for two event lists in a row are those of each, in order |
| AgentSpec.ContinueLog | src/ai_agent_orchestrator/agent.py:66-88 | a tool step adds three events and one tool message, the one its events record |
| AgentSpec.StopLog | src/ai_agent_orchestrator/agent.py:76-99 | a final step adds the messages its events record; a failing tool adds none |
| AgentSpec.StepQueue | src/ai_agent_orchestrator/agent.py:57-58 | each step consumes at most one queued reply, from the front |
| AgentSpec.StopsAt | src/ai_agent_orchestrator/agent.py:56-99 | a step that stops ends the run with its outcome |
| AgentSpec.ContinuesAt | src/ai_agent_orchestrator/agent.py:56-88 | a step that continues hands its state to the next step |
| AgentSpec.FallbackLog | src/ai_agent_orchestrator/agent.py:101-112 | the fallback adds exactly the message its event records |
| AgentSpec.LogExtends | src/ai_agent_orchestrator/agent.py:52-112 | successive steps' log extensions compose |
| AgentSpec.RunFromLogSuccess | src/ai_agent_orchestrator/agent.py:56-112 | on success, the messages added to memory are exactly those recorded by the new events (tool results and the final answer), in order |
| AgentSpec.RunFromLogFailure | src/ai_agent_orchestrator/agent.py:66-79 | when a tool error aborts the run, memory keeps its earlier messages and gained only tool messages |
| AgentSpec.RunFromLog | src/ai_agent_orchestrator/agent.py:56-112 | both of the above, from any step |
| AgentSpec.RunLog | src/ai_agent_orchestrator/agent.py:52-112 | a run appends the user message first; on success memory is the old log, the user message, then the messages its events record |
| AgentSpec.RunFromTrace | src/ai_agent_orchestrator/agent.py:56-112 | a successful run's events follow the step-by-step trace grammar of the loop |
| AgentSpec.TraceEndsWithFinal | src/ai_agent_orchestrator/agent.py:90-112 | the last event is the final event with the response's content and step count |
| AgentSpec.TraceSteps | src/ai_agent_orchestrator/agent.py:56-112 | step numbers are non-decreasing and within budget; steps used is within the budget (exactly it after exhaustion); there is one model call per step used |
| AgentSpec.TraceExhausted | src/ai_agent_orchestrator/agent.py:101-112 | if every reply was a tool call, the response is the fallback message with `max_steps` steps |
| AgentSpec.RunTrace | src/ai_agent_orchestrator/agent.py:52-112 | a successful run's events follow the trace grammar from step 1 |
| AgentSpec.RunFromQueue | src/ai_agent_orchestrator/agent.py:56-58 | the remaining queue is a suffix of the queue, shorter by at most the remaining steps |
| AgentSpec.RunQueue | src/ai_agent_orchestrator/agent.py:56-58 | a run consumes at most `max_steps` queued replies, from the front |
| AgentSpec.RunWithoutBudget | src/ai_agent_orchestrator/agent.py:101-112 | with `max_steps <= 0` the model is not asked: the response is the fallback with one final event, and memory gains the user message and the fallback |
| AgentSpec.ToolThenFinalRun | src/ai_agent_orchestrator/agent.py:52-112 | a tool-call reply, then a final reply: five events over steps 1 and 2, and memory gains the user, tool and assistant messages |
| AgentSpec.StepFailureCause | src/ai_agent_orchestrator/agent.py:66-76 | a step fails only when its reply parses as a tool call whose dispatch raised exactly that error |
| AgentSpec.RunFromFailureCause | src/ai_agent_orchestrator/agent.py:56-88 | a failed run's error is, unchanged, the error some reply's tool call raised on dispatch |
| AgentSpec.RunFailureCause | src/ai_agent_orchestrator/agent.py:52-88 | `run` raises only what a tool dispatch raised |
| AgentSpec.ToolThenFinal | tests/test_agent_loop.py:9-26 | the tool-then-final test: `math.add`, then `Done` in two steps, with the exact events and memory, for a codec that reads the two encoded replies back |
| Agents.Agent.constructor | src/ai_agent_orchestrator/agent.py:40-50 | the agent holds its model, tools, memory, budget (5 by default) and the parser over its codec |
| Agents.Agent.Run | src/ai_agent_orchestrator/agent.py:52-112 | the response or error, the new memory and the remaining queue are exactly `RunSpec` of the old state |
| Routing.FirstMatch | src/ai_agent_orchestrator/router.py:27-29 | the first route whose predicate accepts the input; none when no predicate accepts it |
| Routing.FirstMatchAppend | src/ai_agent_orchestrator/router.py:23-29 | adding a route changes the choice only when no earlier route accepted the input |
| Routing.Router.constructor | src/ai_agent_orchestrator/router.py:19-21 | a router starts with its default agent and no routes |
| Routing.Router.AddRoute | src/ai_agent_orchestrator/router.py:23-24 | the route is appended |
| Routing.Router.Selected | src/ai_agent_orchestrator/router.py:26-30 | the agent of the first route whose predicate accepts the input; the default agent when none does |
| Routing.Router.RouteInput | src/ai_agent_orchestrator/router.py:26-30 | the chosen agent runs on the input as `RunSpec` says; no other agent's memory or model changes, and neither do the routes |
| Plugins.Effect | src/ai_agent_orchestrator/plugins.py:16-23 | `register` takes precedence over a call; a plugin with neither has no effect to apply |
| Plugins.LastNamed | src/ai_agent_orchestrator/tools/registry.py:15-16 | the last tool of a list carrying a name, or none |
| Plugins.RegisterAllLookup | src/ai_agent_orchestrator/tools/registry.py:15-16 | registering tools in order: each name maps to the last tool registered under it, or keeps its old entry |
| Plugins.ApplyAppend | src/ai_agent_orchestrator/plugins.py:14-25 | applying two plugin lists in a row applies the second to the registry the first left, unless the first raised |
| Plugins.ApplyStopsAtUnusable | src/ai_agent_orchestrator/plugins.py:14-25 | the first unusable plugin raises TypeError after all plugins before it are applied, and none after it; with none, all are applied and nothing is raised |
| Plugins.Perform | src/ai_agent_orchestrator/plugins.py:17-22 | a plugin's registrations are applied to the registry in order |
| Plugins.ApplyPlugins | src/ai_agent_orchestrator/plugins.py:14-25 | the registry's tools and the raised error are exactly `ApplySpec` of the old tools |
| Observability.BuildEvent | src/ai_agent_orchestrator/observability/events.py:34-52 | every field is copied; `data` defaults to an empty map |
| Observability.BuildEventDefaultData | src/ai_agent_orchestrator/observability/events.py:42-51 | leaving `data` out is the same as passing `{}` |
| Observability.BuildEventRoundTrip | src/ai_agent_orchestrator/observability/events.py:34-52 | rebuilding an event from its fields gives it back |
| Observability.EventSink.List | src/ai_agent_orchestrator/observability/events.py:55-57 | a list sink is not callable, has `emit` and starts empty |
| Observability.EventSink.constructor | src/ai_agent_orchestrator/observability/events.py:18-22 | any other sink, with the entry points it offers |
| Observability.EventSink.Call | src/ai_agent_orchestrator/observability/events.py:28-29 | calling the sink delivers the event through the call only |
| Observability.EventSink.Emit | src/ai_agent_orchestrator/observability/events.py:59-60 | `emit` appends the event to the sink's events only |
| Observability.DeliveryFor | src/ai_agent_orchestrator/observability/events.py:25-31 | no sink drops the event; a callable sink is called; otherwise `emit` is used, and its absence raises; each case holds if and only if its condition does |
| Observability.EmitEvent | src/ai_agent_orchestrator/observability/events.py:25-31 | the event reaches the sink the way `DeliveryFor` says, exactly once, and nothing else changes |
| LmStudio.ParsedToolCallCompliance | src/task_runner_app/llm.py:193-210 | a reply that parses as a tool call is compliant unless its `args` is null |
| LmStudio.BlankNameCompliant | src/task_runner_app/llm.py:202-206 | a tool call with a blank name is compliant, although `parse_output` turns it into a final answer |
| LmStudio.NonCompliantFallsBack | src/task_runner_app/llm.py:193-210 | a non-compliant reply parses as a final answer with the raw text, except for a tool call with null args |
| LmStudio.CompliantFinalContent | src/task_runner_app/llm.py:207-208 | a `final` object is compliant exactly when it has `content`, and then it parses to that content's text |
| LmStudio.EncodedOutputCompliant | src/task_runner_app/llm.py:193-210 | every encoded protocol output the codec reads back is compliant |
| LmStudio.MessageToDict | src/task_runner_app/llm.py:186-190 | role and content are always present; `name` is present exactly when the message has a non-empty name |
| LmStudio.Dicts | src/task_runner_app/llm.py:86 | one dict per message, in order |
| LmStudio.WithReminder | src/task_runner_app/llm.py:78-80 | the conversation, then one system message carrying the protocol reminder |
| LmStudio.GenerateAtMostOneRetry | src/task_runner_app/llm.py:68-81 | one request, and a second one with the reminder exactly when the first reply was received and is not compliant; the result is the last reply |
| LmStudio.RetryPayloadEndsWithReminder | src/task_runner_app/llm.py:78-86 | the retry payload's last message is the system reminder, without a name |
| LmStudio.RetryScenario | tests/test_lmstudio_client.py:13-49 | a non-JSON first reply is retried once, and the second reply is returned |
| LmStudio.DeltaContent | src/task_runner_app/llm.py:148-156 | no first choice (not an object, no `choices`, or `choices` neither a non-empty list nor a non-empty string) raises the missing-delta error; a first choice or delta without `.get` raises AttributeError; otherwise the content, with an absent delta, absent content or null content skipped |
| LmStudio.DataOf | src/task_runner_app/llm.py:132-136 | a line carries data exactly when it starts with `data:`, and the data is the rest, stripped |
| LmStudio.SkippedLines | src/task_runner_app/llm.py:132-138 | empty lines, lines without `data:` and blank data are skipped |
| LmStudio.Kinds | src/task_runner_app/llm.py:131 | one classification per line, in order |
| LmStudio.KindsAppend | src/task_runner_app/llm.py:131 | classifying a concatenation classifies its parts |
| LmStudio.ScanAppend | src/task_runner_app/llm.py:131-159 | reading two parts of a stream in a row reads the second only if the first ended without `[DONE]` or an error |
| LmStudio.SkipInvisible | src/task_runner_app/llm.py:132-138 | a skipped line can be removed from anywhere without changing what the stream yields |
| LmStudio.DoneEndsStream | src/task_runner_app/llm.py:139-140 | nothing after a `[DONE]` line is read |
| LmStudio.Join | src/task_runner_app/llm.py:174 | the join fails exactly when some delta is not a string |
| LmStudio.JoinOne | src/task_runner_app/llm.py:174 | one text delta joins to its text |
| LmStudio.JoinCons | src/task_runner_app/llm.py:174 | a leading text delta is prefixed to the join of the rest, and a failed join stays failed |
| LmStudio.JoinAppend | src/task_runner_app/llm.py:174 | the join of a concatenation is the concatenation of the joins |
| LmStudio.JoinPair | src/task_runner_app/llm.py:174 | two text deltas join to their concatenation |
| LmStudio.FinalChunk | src/task_runner_app/llm.py:174-183 | a failed read raises its error and sends no retry; a failed join raises TypeError; a compliant buffer gives an empty final chunk with no retry; a non-compliant buffer sends the retry, whose error is raised, and whose reply is the final chunk when it differs from the buffer, else the chunk is empty |
| LmStudio.CompliantRetryIsFinal | src/task_runner_app/llm.py:174-183 | after a non-compliant buffer, a compliant retry reply is always the final chunk |
| LmStudio.EmptyFinalAfterRetry | src/task_runner_app/llm.py:179-183 | after a retry the final chunk is empty exactly when the reply repeats the buffer or is empty |
| LmStudio.StreamRetryScenario | tests/test_lmstudio_client.py:96-150 | the stream-retry test: the text delta, then the compliant retry reply as the final chunk, after one retry |
| LmStudio.PlainStreamAsWritten | tests/test_lmstudio_client.py:52-93 | the plain-text streaming test as written: its buffer is retried, and a failing retry makes the stream end with that error, not the expected empty chunk |
| LmStudio.PlainStreamCorrected | tests/test_lmstudio_client.py:52-93 | the same test with the retry answered by the streamed text: the two deltas, then the expected empty final chunk, after one retry |
| LmStudio.TextEventDelta | src/task_runner_app/llm.py:149-154 | a text event's delta is its text |
| LmStudio.DataOfSpaced | src/task_runner_app/llm.py:134-136 | `data: <e>` carries `e` when `e` has non-space ends |
| LmStudio.TextLine | src/task_runner_app/llm.py:131-159 | a text event line as the server writes it yields its text, for a codec that reads the event back |
| LmStudio.TwoDeltasThenDone | src/task_runner_app/llm.py:131-159 | two deltas, skipped lines and `[DONE]` yield the two deltas in order |
| LmStudio.DoneLine | src/task_runner_app/llm.py:136-140 | any line whose stripped data is `[DONE]` ends the stream |
| LmStudio.ServerDoneLine | src/task_runner_app/llm.py:136-139 | `data: [DONE]` carries `[DONE]` |
| LmStudio.DeltasThenDone | src/task_runner_app/llm.py:131-159 | two delta lines, blank lines and a `[DONE]` line yield the two deltas in order |
| LmStudio.StreamScenario | tests/test_lmstudio_client.py:52-93 | the streaming test's lines yield its two texts in order and end at `[DONE]`, for a codec that reads both events back |
| LmStudio.Client.constructor | src/task_runner_app/llm.py:31-66 | a client starts with no requests sent |
| LmStudio.Client.Request | src/task_runner_app/llm.py:83-106 | one non-streaming request body is recorded; the result is the server's reply or error |
| LmStudio.Client.EnsureProtocolWithRetry | src/task_runner_app/llm.py:72-81 | a compliant reply is kept with no request; otherwise exactly one retry request with the reminder, and its reply is returned |
| LmStudio.Client.Generate | src/task_runner_app/llm.py:68-70 | the result and the requests sent are those of `GenerateSpec` |
| LmStudio.Client.ReadEvents | src/task_runner_app/llm.py:131-159 | the deltas read and how reading ended are exactly `ScanLines` of the lines |
| LmStudio.Client.Finish | src/task_runner_app/llm.py:174-183 | the final chunk and the retry request are exactly those of `FinalChunk`, whose rule is stated in full |
| LmStudio.Client.Stream | src/task_runner_app/llm.py:108-183 | one streaming request body, then the chunks and the ending of `StreamSpec`, with a retry request exactly when `StreamSpec` says so |
| Sandbox.FirstContaining | src/task_runner_app/tools/sandbox.py:13-18 | the first root containing the path; none exactly when no root contains it |
| Sandbox.ResolvePath | src/task_runner_app/tools/sandbox.py:10-20 | accepted exactly when some root contains the resolved path, and then the resolved path itself is returned; otherwise SandboxPathError for that path and those roots |
| Sandbox.EmptyRootsRaise | src/task_runner_app/tools/sandbox.py:13-20 | with no roots every path is refused, and the message lists no root |
| Sandbox.MoreRootsStillAccept | src/task_runner_app/tools/sandbox.py:13-16 | adding roots, before or after, never refuses an accepted path and does not change the result |
| Sandbox.JoinPrefix | src/task_runner_app/tools/sandbox.py:15 | joining more components extends the text of a join |
| Sandbox.ContainedTextPrefix | src/task_runner_app/tools/sandbox.py:15 | under an absolute root, a contained path's text starts with the root's text |
| Sandbox.SiblingNotContained | src/task_runner_app/tools/sandbox.py:15 | `<dir>/<name><more>` is not under `<dir>/<name>` although its text starts with the root's text, as `/a/bc` and `/a/b` |

## Findings

| source | as written | input that shows it | evidently intended | confidence | as-written member | corrected member |
|---|---|---|---|---|---|---|
| tests/test_lmstudio_client.py:52-93 with src/task_runner_app/llm.py:174-183 | the test expects an empty final chunk after the stream `Hello`, ` world`, but its handler answers every request with the event stream | the buffer `Hello world` is not JSON, so `stream` sends the retry (llm.py:179); the handler answers it with the event stream, `response.json()` (llm.py:102) raises, and the stream ends with that error | the retry of a non-compliant buffer is intended (the stream-retry test at lines 96-150 expects it), so the test's handler should answer the non-streaming retry with a message reply; answering it with the streamed text gives the expected empty chunk | not executed | LmStudio.PlainStreamAsWritten | LmStudio.PlainStreamCorrected |

## Left out

- Async and streaming agent variants (`run_async`, `run_stream`, the observability-wired agent) and the `streaming.py` helpers: concurrency and async iteration are not modelled.
- Agents.Agent.Run: the model is the `FakeLLM` queue only; a backend such as the LM Studio client is not plugged into the agent.
- Clocks and id factories (`observability/clock.py`, `observability/ids.py`): their values are parameters of `BuildEvent`.
- The effect of a user-supplied callable sink or plugin: a callable sink records what it was called with, and a plugin is described by the tools it registers.
- Pydantic validation of tool inputs: a tool's `validate` is an abstract function that may fail.
- The built-in tools, the file tools (`files.py`, `tasks.py`), the CLI and the example scripts.
- `json.loads`, `json.dumps`, `str()` and the fallback tiers of `_serialize_content`: they are the abstract functions of `Json.Codec`.
- Outputs.ParseOutput: a JSON number is one `JNum` real, so the model loses two things. It cannot tell the integer `1` from the float `1.0`, which `str()` writes as `1` and `1.0`. It also cannot hold the non-finite `NaN`, `Infinity` and `-Infinity` that `json.loads` accepts. The text of a numeric `content` is whatever `Codec.stringify` gives for the real.
- The HTTP plumbing of the LM Studio client: configuration, environment variables, headers, the model name in the payload, the `httpx` clients, timeouts and the `choices[0].message.content` extraction. `_request` is an abstract function that returns a reply or a request error.
- LmStudio.StreamScenario: it assumes `TightText` of each encoded event, i.e. that the encoder writes it with no surrounding blanks. The end line is any line whose data is `[DONE]`, and `ServerDoneLine` shows that `data: [DONE]` is one.
- Sandbox.ResolvePath: `expanduser().resolve()` is an abstract function, paths are POSIX paths split into components, and the roots are compared as given, unresolved.
- A streamed delta whose content is not a string is yielded as it is, and its TypeError appears only at the join, as `JoinTypeError`. This assumes that `LLMStreamChunk`, which is not part of this model, does not check the type of its content.

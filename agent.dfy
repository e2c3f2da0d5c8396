/** The agent (agent.py): the synchronous loop over its model, tools and memory. */
module Agents {
  import opened Wrappers
  import opened Json
  import opened Errors
  import opened Messages
  import opened AgentSpec
  import Registry
  import Memory
  import FakeLlm
  import Outputs

  class Agent<V> {
    const llm: FakeLlm.FakeModel
    const tools: Registry.ToolRegistry<V>
    const memory: Memory.ConversationLog
    const maxSteps: int
    /** The library conversions `parse_output` relies on. */
    const codec: Codec
    /** `parse_output` over `codec`. */
    const parse: string -> Outputs.Output

    constructor(llm: FakeLlm.FakeModel, tools: Registry.ToolRegistry<V>, memory: Memory.ConversationLog, codec: Codec, maxSteps: int := DefaultMaxSteps)
      ensures this.llm == llm && this.tools == tools && this.memory == memory
      ensures this.maxSteps == maxSteps && this.codec == codec
      ensures forall raw :: this.parse(raw) == Outputs.ParseOutput(codec, raw)
    {
      this.llm := llm;
      this.tools := tools;
      this.memory := memory;
      this.maxSteps := maxSteps;
      this.codec := codec;
      this.parse := raw => Outputs.ParseOutput(codec, raw);
    }

    /** What a run of this agent can observe of its collaborators. */
    function Setup(): AgentSpec.Setup<V>
      reads tools
    {
      AgentSpec.Setup(parse, llm.encode, tools.tools, maxSteps)
    }

    /**
     * `run`: append the user message, then for steps 1..maxSteps ask the model,
     * dispatch a tool call or return a final answer; fall back when the budget
     * is spent. A tool error aborts the run.
     */
    method Run(userInput: string) returns (r: Result<AgentResponse, OrchestratorError>)
      modifies memory, llm
      ensures RunOutcome(r, memory.messages, llm.responses) ==
        RunSpec(Setup(), userInput, old(memory.messages), old(llm.responses))
    {
      ghost var s := Setup();
      ghost var goal := RunSpec(s, userInput, memory.messages, llm.responses);
      memory.Add(Message(User, userInput, None));
      var events: seq<AgentEvent> := [];
      var step := 1;
      while step <= maxSteps
        invariant Setup() == s
        invariant RunFrom(s, step, memory.messages, llm.responses, events) == goal
        decreases maxSteps - step + 1
      {
        ghost var log0, queue0, events0 := memory.messages, llm.responses, events;
        var conversation := memory.GetConversation();
        var raw := llm.Generate(conversation);
        assert (raw, llm.responses) == FakeLlm.Reply(s.encode, queue0, log0);
        events := events + [LlmEvent(raw, step)];
        var parsed := parse(raw);
        match parsed {
          case ToolCall(name, args) =>
            events := events + [ToolCallEvent(name, args, step)];
            var toolResult := tools.Run(name, args);
            if toolResult.Failure? {
              StopsAt(s, step, log0, queue0, events0, RunOutcome(Failure(toolResult.error), log0, llm.responses));
              return Failure(toolResult.error);
            }
            memory.Add(Message(Role.Tool, toolResult.value, Some(name)));
            events := events + [ToolResultEvent(name, toolResult.value, step)];
            assert events == events0 + [LlmEvent(raw, step), ToolCallEvent(name, args, step), ToolResultEvent(name, toolResult.value, step)];
            ContinuesAt(s, step, log0, queue0, events0, memory.messages, llm.responses, events);
          case Final(content) =>
            memory.Add(Message(Assistant, content, None));
            events := events + [FinalEvent(content, step)];
            assert events == events0 + [LlmEvent(raw, step), FinalEvent(content, step)];
            StopsAt(s, step, log0, queue0, events0,
              RunOutcome(Success(AgentResponse(content, events, step)), memory.messages, llm.responses));
            return Success(AgentResponse(content, events, step));
        }
        step := step + 1;
      }
      memory.Add(Message(Assistant, Fallback, None));
      events := events + [FinalEvent(Fallback, maxSteps)];
      return Success(AgentResponse(Fallback, events, maxSteps));
    }
  }
}

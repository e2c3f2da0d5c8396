/**
 * The agent loop of agent.py stated as a function of the state it starts
 * from: the conversation log, the model's reply queue and the registered
 * tools. `Agents.Agent.Run` is proved to compute exactly `RunSpec`; the
 * lemmas here say what every run does.
 */
module AgentSpec {
  import opened Wrappers
  import opened Json
  import opened Errors
  import opened Messages
  import opened Registry
  import Outputs
  import FakeLlm
  import PyText

  /** `AgentEventType`. */
  datatype AgentEventType = LlmResponse | ToolCall | ToolResult | Final

  /** The loop's domain event (`AgentEvent` of agent.py, not the trace event of observability/events.py). */
  datatype AgentEvent = AgentEvent(
    kind: AgentEventType,
    content: Option<string>,
    toolName: Option<string>,
    args: Option<Args>,
    step: int)

  datatype AgentResponse = AgentResponse(content: string, events: seq<AgentEvent>, stepsUsed: int)

  /**
   * What an agent is built from, as far as a run can observe it: the parser
   * (`parse_output` over the agent's codec), the fake model's encoder, the
   * registered tools and the step budget.
   */
  datatype Setup<!V> = Setup(
    parse: string -> Outputs.Output,
    encode: Json -> string,
    tools: map<string, Tool<V>>,
    maxSteps: int)

  /** How a run ends, with the log and reply queue it leaves behind. */
  datatype RunOutcome = RunOutcome(
    result: Result<AgentResponse, OrchestratorError>,
    log: seq<Message>,
    queue: seq<string>)

  const DefaultMaxSteps: int := 5
  const Fallback: string := "Max steps reached without final response."

  function LlmEvent(raw: string, step: int): AgentEvent
  {
    AgentEvent(LlmResponse, Some(raw), None, None, step)
  }

  function ToolCallEvent(name: string, args: Args, step: int): AgentEvent
  {
    AgentEvent(ToolCall, None, Some(name), Some(args), step)
  }

  function ToolResultEvent(name: string, output: string, step: int): AgentEvent
  {
    AgentEvent(ToolResult, Some(output), Some(name), None, step)
  }

  function FinalEvent(content: string, step: int): AgentEvent
  {
    AgentEvent(Final, Some(content), None, None, step)
  }

  /** The outcome of one step: carry on with the new state, or stop with the run's outcome. */
  datatype StepResult =
    | Continue(log: seq<Message>, queue: seq<string>, events: seq<AgentEvent>)
    | Stop(outcome: RunOutcome)

  /** One iteration of the loop body at step `step`. */
  function Step<V>(s: Setup<V>, step: int, log: seq<Message>, queue: seq<string>, events: seq<AgentEvent>): StepResult
  {
    var (raw, rest) := FakeLlm.Reply(s.encode, queue, log);
    match s.parse(raw)
    case Final(content) =>
      Stop(RunOutcome(
        Success(AgentResponse(content, events + [LlmEvent(raw, step), FinalEvent(content, step)], step)),
        log + [Message(Assistant, content, None)],
        rest))
    case ToolCall(name, args) =>
      match Dispatch(s.tools, name, args)
      case Failure(e) => Stop(RunOutcome(Failure(e), log, rest))
      case Success(output) =>
        Continue(
          log + [Message(Role.Tool, output, Some(name))],
          rest,
          events + [LlmEvent(raw, step), ToolCallEvent(name, args, step), ToolResultEvent(name, output, step)])
  }

  /** The loop from step `step` on, with the log, queue and events reached so far. */
  function RunFrom<V>(s: Setup<V>, step: int, log: seq<Message>, queue: seq<string>, events: seq<AgentEvent>): RunOutcome
    decreases if step <= s.maxSteps then s.maxSteps - step + 1 else 0
  {
    if step > s.maxSteps then
      RunOutcome(
        Success(AgentResponse(Fallback, events + [FinalEvent(Fallback, s.maxSteps)], s.maxSteps)),
        log + [Message(Assistant, Fallback, None)],
        queue)
    else
      match Step(s, step, log, queue, events)
      case Stop(outcome) => outcome
      case Continue(log', queue', events') => RunFrom(s, step + 1, log', queue', events')
  }

  /** `Agent.run(user_input)`: the user message goes in first, then steps 1.. */
  function RunSpec<V>(s: Setup<V>, userInput: string, log: seq<Message>, queue: seq<string>): RunOutcome
  {
    RunFrom(s, 1, log + [Message(User, userInput, None)], queue, [])
  }

  // ---------------------------------------------------------------------------
  // The conversation log of a run

  /** The message an event stands for in the log: tool results and final answers. */
  function Recorded(e: AgentEvent): seq<Message>
  {
    if e.kind == ToolResult && e.content.Some? then [Message(Role.Tool, e.content.value, e.toolName)]
    else if e.kind == Final && e.content.Some? then [Message(Assistant, e.content.value, None)]
    else []
  }

  function MessagesOf(events: seq<AgentEvent>): seq<Message>
  {
    if events == [] then [] else Recorded(events[0]) + MessagesOf(events[1..])
  }

  lemma {:induction false} MessagesOfAppend(a: seq<AgentEvent>, b: seq<AgentEvent>)
    ensures MessagesOf(a + b) == MessagesOf(a) + MessagesOf(b)
  {
    if a == [] {
      assert a + b == b;
    } else {
      assert (a + b)[0] == a[0];
      assert (a + b)[1..] == a[1..] + b;
      MessagesOfAppend(a[1..], b);
      calc {
        MessagesOf(a + b);
        Recorded(a[0]) + MessagesOf(a[1..] + b);
        Recorded(a[0]) + (MessagesOf(a[1..]) + MessagesOf(b));
        (Recorded(a[0]) + MessagesOf(a[1..])) + MessagesOf(b);
      }
    }
  }

  /** A step that carries on adds three events and the tool message the last of them records. */
  lemma ContinueLog<V>(s: Setup<V>, step: int, log: seq<Message>, queue: seq<string>, events: seq<AgentEvent>,
                       log': seq<Message>, queue': seq<string>, events': seq<AgentEvent>)
    requires Step(s, step, log, queue, events) == Continue(log', queue', events')
    ensures events <= events' && |events'| == |events| + 3
    ensures log' == log + MessagesOf(events'[|events|..])
    ensures |log'| == |log| + 1 && log'[..|log|] == log && log'[|log|].role == Role.Tool
  {
    var (raw, rest) := FakeLlm.Reply(s.encode, queue, log);
    var ToolCall(name, args) := s.parse(raw);
    var output := Dispatch(s.tools, name, args).value;
    var head := [LlmEvent(raw, step), ToolCallEvent(name, args, step), ToolResultEvent(name, output, step)];
    assert events'[|events|..] == head;
    assert MessagesOf(head) == Recorded(head[0]) + MessagesOf(head[1..]);
    assert MessagesOf(head[1..]) == Recorded(head[1]) + MessagesOf(head[2..]);
    assert MessagesOf(head[2..]) == Recorded(head[2]) + MessagesOf(head[3..]);
  }

  /** A step that stops either answers, recording the answer, or fails and leaves the log alone. */
  lemma StopLog<V>(s: Setup<V>, step: int, log: seq<Message>, queue: seq<string>, events: seq<AgentEvent>, o: RunOutcome)
    requires Step(s, step, log, queue, events) == Stop(o)
    ensures o.result.Success? ==> events <= o.result.value.events && o.log == log + MessagesOf(o.result.value.events[|events|..])
    ensures o.result.Failure? ==> o.log == log
  {
    var (raw, rest) := FakeLlm.Reply(s.encode, queue, log);
    if s.parse(raw).Final? {
      var content := s.parse(raw).content;
      var tail := [LlmEvent(raw, step), FinalEvent(content, step)];
      assert o.result.value.events[|events|..] == tail;
      assert MessagesOf(tail) == Recorded(tail[0]) + MessagesOf(tail[1..]);
      assert MessagesOf(tail[1..]) == Recorded(tail[1]) + MessagesOf(tail[2..]);
    }
  }

  /** Whatever a step does, it leaves the queue the model's reply left. */
  lemma StepQueue<V>(s: Setup<V>, step: int, log: seq<Message>, queue: seq<string>, events: seq<AgentEvent>)
    ensures var rest := FakeLlm.Reply(s.encode, queue, log).1;
      && |rest| <= |queue| && |queue| - |rest| <= 1 && rest == queue[|queue| - |rest|..]
      && match Step(s, step, log, queue, events)
         case Continue(_, queue', _) => queue' == rest
         case Stop(o) => o.queue == rest
  {
  }

  /** A step fails only when its reply parses as a tool call whose dispatch raised that error. */
  lemma StepFailureCause<V>(s: Setup<V>, step: int, log: seq<Message>, queue: seq<string>, events: seq<AgentEvent>, o: RunOutcome)
    requires Step(s, step, log, queue, events) == Stop(o) && o.result.Failure?
    ensures var raw := FakeLlm.Reply(s.encode, queue, log).0;
      s.parse(raw).ToolCall? && Dispatch(s.tools, s.parse(raw).toolName, s.parse(raw).args) == Failure(o.result.error)
  {
  }

  /**
   * A run that fails does so with the error of a tool dispatch, unchanged: some
   * reply parsed as a tool call `name(args)` whose dispatch raised it.
   */
  lemma {:induction false} RunFromFailureCause<V>(s: Setup<V>, step: int, log: seq<Message>, queue: seq<string>, events: seq<AgentEvent>)
    requires RunFrom(s, step, log, queue, events).result.Failure?
    ensures exists raw, name, args ::
              s.parse(raw) == Outputs.ToolCall(name, args) &&
              Dispatch(s.tools, name, args) == Failure(RunFrom(s, step, log, queue, events).result.error)
    decreases if step <= s.maxSteps then s.maxSteps - step + 1 else 0
  {
    var o := RunFrom(s, step, log, queue, events);
    match Step(s, step, log, queue, events)
    case Stop(o') =>
      var raw := FakeLlm.Reply(s.encode, queue, log).0;
      StepFailureCause(s, step, log, queue, events, o');
      assert s.parse(raw) == Outputs.ToolCall(s.parse(raw).toolName, s.parse(raw).args);
    case Continue(log', queue', events') =>
      RunFromFailureCause(s, step + 1, log', queue', events');
  }

  /** `Agent.run` raises only what a tool dispatch raised. */
  lemma RunFailureCause<V>(s: Setup<V>, userInput: string, log: seq<Message>, queue: seq<string>)
    requires RunSpec(s, userInput, log, queue).result.Failure?
    ensures exists raw, name, args ::
              s.parse(raw) == Outputs.ToolCall(name, args) &&
              Dispatch(s.tools, name, args) == Failure(RunSpec(s, userInput, log, queue).result.error)
  {
    RunFromFailureCause(s, 1, log + [Message(User, userInput, None)], queue, []);
  }

  /** A step that stops ends the run with its outcome. */
  lemma StopsAt<V>(s: Setup<V>, step: int, log: seq<Message>, queue: seq<string>, events: seq<AgentEvent>, o: RunOutcome)
    requires step <= s.maxSteps && Step(s, step, log, queue, events) == Stop(o)
    ensures RunFrom(s, step, log, queue, events) == o
  {
  }

  /** A step that carries on hands the rest of the run to the next step. */
  lemma ContinuesAt<V>(s: Setup<V>, step: int, log: seq<Message>, queue: seq<string>, events: seq<AgentEvent>,
                       log': seq<Message>, queue': seq<string>, events': seq<AgentEvent>)
    requires step <= s.maxSteps && Step(s, step, log, queue, events) == Continue(log', queue', events')
    ensures RunFrom(s, step, log, queue, events) == RunFrom(s, step + 1, log', queue', events')
  {
  }

  /** The fallback answer is the one message a spent budget adds. */
  lemma FallbackLog<V>(s: Setup<V>, step: int, log: seq<Message>, queue: seq<string>, events: seq<AgentEvent>)
    requires step > s.maxSteps
    ensures var o := RunFrom(s, step, log, queue, events);
      && events <= o.result.value.events
      && o.log == log + MessagesOf(o.result.value.events[|events|..])
  {
    var o := RunFrom(s, step, log, queue, events);
    assert o.result.value.events[|events|..] == [FinalEvent(Fallback, s.maxSteps)];
    assert MessagesOf([FinalEvent(Fallback, s.maxSteps)]) == [Message(Assistant, Fallback, None)];
  }

  /** Logs built by recording two consecutive stretches of events compose. */
  lemma LogExtends(log: seq<Message>, log': seq<Message>, log'': seq<Message>,
                   events: seq<AgentEvent>, events': seq<AgentEvent>, events'': seq<AgentEvent>)
    requires events <= events' <= events''
    requires log' == log + MessagesOf(events'[|events|..])
    requires log'' == log' + MessagesOf(events''[|events'|..])
    ensures log'' == log + MessagesOf(events''[|events|..])
  {
    var head := events'[|events|..];
    var rest := events''[|events'|..];
    SuffixSplits(events, events', events'');
    MessagesOfAppend(head, rest);
    AppendAssociates(log, MessagesOf(head), MessagesOf(rest));
  }

  lemma SuffixSplits<T>(a: seq<T>, b: seq<T>, c: seq<T>)
    requires a <= b <= c
    ensures c[|a|..] == b[|a|..] + c[|b|..]
  {
    assert b == c[..|b|];
  }

  lemma AppendAssociates<T>(a: seq<T>, b: seq<T>, c: seq<T>)
    ensures (a + b) + c == a + (b + c)
  {
  }

  /** A successful run extends the events, and the log gains exactly the messages they record. */
  lemma {:induction false} RunFromLogSuccess<V>(s: Setup<V>, step: int, log: seq<Message>, queue: seq<string>, events: seq<AgentEvent>)
    ensures var o := RunFrom(s, step, log, queue, events);
      o.result.Success? ==>
        && events <= o.result.value.events
        && o.log == log + MessagesOf(o.result.value.events[|events|..])
    decreases if step <= s.maxSteps then s.maxSteps - step + 1 else 0
  {
    if step > s.maxSteps {
      FallbackLog(s, step, log, queue, events);
    } else {
      match Step(s, step, log, queue, events)
      case Stop(o) =>
        StopsAt(s, step, log, queue, events, o);
        StopLog(s, step, log, queue, events, o);
      case Continue(log', queue', events') =>
        ContinuesAt(s, step, log, queue, events, log', queue', events');
        ContinueLog(s, step, log, queue, events, log', queue', events');
        RunFromLogSuccess(s, step + 1, log', queue', events');
        var o := RunFrom(s, step + 1, log', queue', events');
        if o.result.Success? {
          LogExtends(log, log', o.log, events, events', o.result.value.events);
        }
    }
  }

  /** A failed run keeps the log it started from and appended only tool messages to it. */
  lemma {:induction false} RunFromLogFailure<V>(s: Setup<V>, step: int, log: seq<Message>, queue: seq<string>, events: seq<AgentEvent>)
    ensures var o := RunFrom(s, step, log, queue, events);
      o.result.Failure? ==>
        && |log| <= |o.log| && o.log[..|log|] == log
        && forall i :: |log| <= i < |o.log| ==> o.log[i].role == Role.Tool
    decreases if step <= s.maxSteps then s.maxSteps - step + 1 else 0
  {
    if step <= s.maxSteps {
      match Step(s, step, log, queue, events)
      case Stop(o) =>
        StopsAt(s, step, log, queue, events, o);
        StopLog(s, step, log, queue, events, o);
      case Continue(log', queue', events') =>
        ContinuesAt(s, step, log, queue, events, log', queue', events');
        ContinueLog(s, step, log, queue, events, log', queue', events');
        RunFromLogFailure(s, step + 1, log', queue', events');
        var o := RunFrom(s, step + 1, log', queue', events');
        if o.result.Failure? {
          assert o.log[..|log|] == o.log[..|log'|][..|log|];
        }
    }
  }

  /** Both halves of what a run does to the log. */
  lemma RunFromLog<V>(s: Setup<V>, step: int, log: seq<Message>, queue: seq<string>, events: seq<AgentEvent>)
    ensures var o := RunFrom(s, step, log, queue, events);
      && (o.result.Success? ==>
            && events <= o.result.value.events
            && o.log == log + MessagesOf(o.result.value.events[|events|..]))
      && (o.result.Failure? ==>
            && |log| <= |o.log| && o.log[..|log|] == log
            && forall i :: |log| <= i < |o.log| ==> o.log[i].role == Role.Tool)
  {
    RunFromLogSuccess(s, step, log, queue, events);
    RunFromLogFailure(s, step, log, queue, events);
  }

  /**
   * Memory only grows: a run keeps the earlier log, appends the user message,
   * then exactly one message per completed tool step and one final answer; a
   * run aborted by a tool error appends no assistant message.
   */
  lemma RunLog<V>(s: Setup<V>, userInput: string, log: seq<Message>, queue: seq<string>)
    ensures var o := RunSpec(s, userInput, log, queue);
      && |o.log| > |log|
      && o.log[..|log| + 1] == log + [Message(User, userInput, None)]
      && (o.result.Success? ==> o.log == log + [Message(User, userInput, None)] + MessagesOf(o.result.value.events))
      && (o.result.Failure? ==> forall i :: |log| < i < |o.log| ==> o.log[i].role == Role.Tool)
  {
    var log' := log + [Message(User, userInput, None)];
    RunFromLog(s, 1, log', queue, []);
    var o := RunSpec(s, userInput, log, queue);
    if o.result.Success? {
      assert o.result.value.events[0..] == o.result.value.events;
    } else {
      assert o.log[..|log| + 1] == o.log[..|log'|];
    }
  }

  // ---------------------------------------------------------------------------
  // The shape of the event history

  /**
   * The events of a run from step `step`, as a grammar: each step is a model
   * response followed either by its final answer (the end) or by the tool call
   * it asked for and that tool's result; when the budget is spent the history
   * ends with the fallback answer at step `maxSteps`.
   */
  ghost predicate TraceFrom<V>(parse: string -> Outputs.Output, tools: map<string, Tool<V>>, ev: seq<AgentEvent>, step: int, maxSteps: int, r: AgentResponse)
    decreases |ev|
  {
    if step > maxSteps then
      ev == [FinalEvent(Fallback, maxSteps)] && r.content == Fallback && r.stepsUsed == maxSteps
    else
      && |ev| >= 2
      && ev[0].content.Some?
      && ev[0] == LlmEvent(ev[0].content.value, step)
      && match parse(ev[0].content.value)
         case Final(content) =>
           ev[1..] == [FinalEvent(content, step)] && r.content == content && r.stepsUsed == step
         case ToolCall(name, args) =>
           && |ev| >= 3
           && ev[1] == ToolCallEvent(name, args, step)
           && ev[2].content.Some?
           && ev[2] == ToolResultEvent(name, ev[2].content.value, step)
           && Dispatch(tools, name, args) == Success(ev[2].content.value)
           && TraceFrom(parse, tools, ev[3..], step + 1, maxSteps, r)
  }

  lemma {:induction false} RunFromTrace<V>(s: Setup<V>, step: int, log: seq<Message>, queue: seq<string>, events: seq<AgentEvent>)
    ensures var o := RunFrom(s, step, log, queue, events);
      o.result.Success? ==>
        events <= o.result.value.events &&
        TraceFrom(s.parse, s.tools, o.result.value.events[|events|..], step, s.maxSteps, o.result.value)
    decreases if step <= s.maxSteps then s.maxSteps - step + 1 else 0
  {
    var o := RunFrom(s, step, log, queue, events);
    if step <= s.maxSteps && o.result.Success? {
      var (raw, rest) := FakeLlm.Reply(s.encode, queue, log);
      match s.parse(raw)
      case Final(content) =>
        assert o.result.value.events[|events|..] == [LlmEvent(raw, step), FinalEvent(content, step)];
      case ToolCall(name, args) =>
        var output := Dispatch(s.tools, name, args).value;
        var head := [LlmEvent(raw, step), ToolCallEvent(name, args, step), ToolResultEvent(name, output, step)];
        var log' := log + [Message(Role.Tool, output, Some(name))];
        var events' := events + head;
        assert Step(s, step, log, queue, events) == Continue(log', rest, events');
        RunFromTrace(s, step + 1, log', rest, events');
        var all := o.result.value.events;
        assert all[|events|..][..3] == head;
        assert all[|events|..][3..] == all[|events'|..];
    }
  }

  /** Counts the model responses in an event history. */
  function ModelCalls(ev: seq<AgentEvent>): nat
  {
    if ev == [] then 0 else (if ev[0].kind == LlmResponse then 1 else 0) + ModelCalls(ev[1..])
  }

  /** The history ends with the final answer that the run returns. */
  lemma {:induction false} TraceEndsWithFinal<V>(parse: string -> Outputs.Output, tools: map<string, Tool<V>>, ev: seq<AgentEvent>, step: int, maxSteps: int, r: AgentResponse)
    requires TraceFrom(parse, tools, ev, step, maxSteps, r)
    ensures ev != [] && ev[|ev| - 1] == FinalEvent(r.content, r.stepsUsed)
    decreases |ev|
  {
    if step <= maxSteps && parse(ev[0].content.value).ToolCall? {
      TraceEndsWithFinal(parse, tools, ev[3..], step + 1, maxSteps, r);
    }
  }

  /**
   * Steps run in increasing order from `step`; every event but the last lies in
   * `step..maxSteps`; the model is called once per step used, never more than
   * the budget allows.
   */
  lemma {:induction false} TraceSteps<V>(parse: string -> Outputs.Output, tools: map<string, Tool<V>>, ev: seq<AgentEvent>, step: int, maxSteps: int, r: AgentResponse)
    requires TraceFrom(parse, tools, ev, step, maxSteps, r)
    ensures step <= maxSteps ==> step <= r.stepsUsed <= maxSteps
    ensures step > maxSteps ==> r.stepsUsed == maxSteps
    ensures forall i :: 0 <= i < |ev| - 1 ==> step <= ev[i].step <= maxSteps
    ensures forall i, j :: 0 <= i < j < |ev| - 1 ==> ev[i].step <= ev[j].step
    ensures ModelCalls(ev) == if step <= maxSteps then r.stepsUsed - step + 1 else 0
    decreases |ev|
  {
    if step <= maxSteps {
      match parse(ev[0].content.value)
      case Final(_) =>
        assert ModelCalls(ev[1..]) == 0 + ModelCalls(ev[2..]);
      case ToolCall(_, _) =>
        var tail := ev[3..];
        TraceSteps(parse, tools, tail, step + 1, maxSteps, r);
        assert ModelCalls(ev) == 1 + ModelCalls(ev[1..]);
        assert ModelCalls(ev[1..]) == ModelCalls(ev[2..]);
        assert ev[2..][1..] == tail;
        assert ModelCalls(ev[2..]) == ModelCalls(tail);
        forall i | 3 <= i < |ev| - 1 ensures step <= ev[i].step <= maxSteps {
          assert ev[i] == tail[i - 3];
        }
        forall i, j | 0 <= i < j < |ev| - 1 ensures ev[i].step <= ev[j].step {
          if i >= 3 {
            assert ev[i] == tail[i - 3] && ev[j] == tail[j - 3];
          } else if j >= 3 {
            assert ev[j] == tail[j - 3];
          }
        }
    }
  }

  /**
   * A model that never answers with a final output exhausts the budget: the
   * run uses exactly `maxSteps` steps and returns the fallback answer.
   */
  lemma {:induction false} TraceExhausted<V>(parse: string -> Outputs.Output, tools: map<string, Tool<V>>, ev: seq<AgentEvent>, step: int, maxSteps: int, r: AgentResponse)
    requires TraceFrom(parse, tools, ev, step, maxSteps, r)
    requires forall i :: 0 <= i < |ev| && ev[i].kind == LlmResponse && ev[i].content.Some? ==>
      parse(ev[i].content.value).ToolCall?
    ensures r.content == Fallback && r.stepsUsed == maxSteps
    decreases |ev|
  {
    if step <= maxSteps {
      var tail := ev[3..];
      assert ev[0].kind == LlmResponse;
      forall i | 0 <= i < |tail| && tail[i].kind == LlmResponse && tail[i].content.Some?
        ensures parse(tail[i].content.value).ToolCall?
      {
        assert tail[i] == ev[i + 3];
      }
      TraceExhausted(parse, tools, tail, step + 1, maxSteps, r);
    }
  }

  /** The event history of every completed run follows the grammar from step 1. */
  lemma RunTrace<V>(s: Setup<V>, userInput: string, log: seq<Message>, queue: seq<string>)
    ensures var o := RunSpec(s, userInput, log, queue);
      o.result.Success? ==> TraceFrom(s.parse, s.tools, o.result.value.events, 1, s.maxSteps, o.result.value)
  {
    var o := RunSpec(s, userInput, log, queue);
    RunFromTrace(s, 1, log + [Message(User, userInput, None)], queue, []);
    if o.result.Success? {
      assert o.result.value.events[0..] == o.result.value.events;
    }
  }

  // ---------------------------------------------------------------------------
  // The reply queue of a run

  lemma {:induction false} RunFromQueue<V>(s: Setup<V>, step: int, log: seq<Message>, queue: seq<string>, events: seq<AgentEvent>)
    ensures var o := RunFrom(s, step, log, queue, events);
      && |o.queue| <= |queue|
      && o.queue == queue[|queue| - |o.queue|..]
      && |queue| - |o.queue| <= (if step <= s.maxSteps then s.maxSteps - step + 1 else 0)
    decreases if step <= s.maxSteps then s.maxSteps - step + 1 else 0
  {
    if step <= s.maxSteps {
      StepQueue(s, step, log, queue, events);
      match Step(s, step, log, queue, events)
      case Stop(o) =>
        StopsAt(s, step, log, queue, events, o);
      case Continue(log', queue', events') =>
        ContinuesAt(s, step, log, queue, events, log', queue', events');
        RunFromQueue(s, step + 1, log', queue', events');
        var o := RunFrom(s, step + 1, log', queue', events');
        assert queue[|queue| - |o.queue|..] == queue[|queue| - |queue'|..][|queue'| - |o.queue|..];
    }
  }

  /** A run consumes queued replies from the front, at most one per step of the budget. */
  lemma RunQueue<V>(s: Setup<V>, userInput: string, log: seq<Message>, queue: seq<string>)
    ensures var o := RunSpec(s, userInput, log, queue);
      && |o.queue| <= |queue|
      && o.queue == queue[|queue| - |o.queue|..]
      && |queue| - |o.queue| <= (if s.maxSteps > 0 then s.maxSteps else 0)
  {
    RunFromQueue(s, 1, log + [Message(User, userInput, None)], queue, []);
  }

  /** With a budget of zero or less the model is never called. */
  lemma RunWithoutBudget<V>(s: Setup<V>, userInput: string, log: seq<Message>, queue: seq<string>)
    requires s.maxSteps <= 0
    ensures RunSpec(s, userInput, log, queue) == RunOutcome(
      Success(AgentResponse(Fallback, [FinalEvent(Fallback, s.maxSteps)], s.maxSteps)),
      log + [Message(User, userInput, None)] + [Message(Assistant, Fallback, None)],
      queue)
  {
    assert [] + [FinalEvent(Fallback, s.maxSteps)] == [FinalEvent(Fallback, s.maxSteps)];
  }

  // ---------------------------------------------------------------------------
  // A scenario from the test suite: one tool call, then a final answer

  /** Two replies, a tool call and then a final answer, give a two-step run. */
  lemma ToolThenFinalRun<V>(s: Setup<V>, log: seq<Message>, call: string, answer: string, name: string, args: Args, output: string, content: string)
    requires s.maxSteps >= 2
    requires s.parse(call) == Outputs.ToolCall(name, args) && s.parse(answer) == Outputs.Final(content)
    requires Dispatch(s.tools, name, args) == Success(output)
    ensures RunSpec(s, "Add numbers", log, [call, answer]) == RunOutcome(
        Success(AgentResponse(content,
          [LlmEvent(call, 1), ToolCallEvent(name, args, 1), ToolResultEvent(name, output, 1),
           LlmEvent(answer, 2), FinalEvent(content, 2)],
          2)),
        log + [Message(User, "Add numbers", None), Message(Role.Tool, output, Some(name)), Message(Assistant, content, None)],
        [])
  {
    var user, toolMsg, final := Message(User, "Add numbers", None), Message(Role.Tool, output, Some(name)), Message(Assistant, content, None);
    var log1 := log + [user];
    var log2 := log1 + [toolMsg];
    var ev1 := [LlmEvent(call, 1), ToolCallEvent(name, args, 1), ToolResultEvent(name, output, 1)];
    var ev2 := ev1 + [LlmEvent(answer, 2), FinalEvent(content, 2)];
    assert [call, answer][1..] == [answer];
    assert [] + ev1 == ev1;
    assert Step(s, 1, log1, [call, answer], []) == Continue(log2, [answer], ev1);
    ContinuesAt(s, 1, log1, [call, answer], [], log2, [answer], ev1);
    var o := RunOutcome(Success(AgentResponse(content, ev2, 2)), log2 + [final], []);
    assert Step(s, 2, log2, [answer], ev1) == Stop(o);
    StopsAt(s, 2, log2, [answer], ev1, o);
    assert log2 + [final] == log + [user, toolMsg, final];
    assert ev2 == [LlmEvent(call, 1), ToolCallEvent(name, args, 1), ToolResultEvent(name, output, 1),
                   LlmEvent(answer, 2), FinalEvent(content, 2)];
  }

  /**
   * The scenario of the agent tests: the model first asks for `math.add`, then
   * answers "Done"; the run takes two steps, records five events and leaves
   * the tool result and the answer in memory.
   */
  lemma ToolThenFinal<V>(s: Setup<V>, c: Codec, log: seq<Message>, args: Args, output: string)
    requires forall raw :: s.parse(raw) == Outputs.ParseOutput(c, raw)
    requires s.encode == c.encode
    requires RoundTrips(c, Outputs.EncodeOutput(Outputs.ToolCall("math.add", args)))
    requires RoundTrips(c, Outputs.EncodeOutput(Outputs.Final("Done")))
    requires s.maxSteps >= 2
    requires Dispatch(s.tools, "math.add", args) == Success(output)
    ensures var queue := [s.encode(Outputs.EncodeOutput(Outputs.ToolCall("math.add", args))),
                          s.encode(Outputs.EncodeOutput(Outputs.Final("Done")))];
      RunSpec(s, "Add numbers", log, queue) == RunOutcome(
        Success(AgentResponse("Done",
          [LlmEvent(queue[0], 1), ToolCallEvent("math.add", args, 1), ToolResultEvent("math.add", output, 1),
           LlmEvent(queue[1], 2), FinalEvent("Done", 2)],
          2)),
        log + [Message(User, "Add numbers", None), Message(Role.Tool, output, Some("math.add")), Message(Assistant, "Done", None)],
        [])
  {
    var call := s.encode(Outputs.EncodeOutput(Outputs.ToolCall("math.add", args)));
    var answer := s.encode(Outputs.EncodeOutput(Outputs.Final("Done")));
    assert !PyText.IsSpace("math.add"[0]);
    Outputs.ParseEncodedToolCall(c, "math.add", args);
    Outputs.ParseEncodedFinal(c, "Done");
    ToolThenFinalRun(s, log, call, answer, "math.add", args, output, "Done");
  }
}

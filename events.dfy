/**
 * Trace events and event sinks (observability/events.py): an immutable event
 * record, its builder, the three-way `emit_event` dispatch and the list sink
 * that keeps every emitted event in order.
 */
module Observability {
  import opened Wrappers
  import opened Json

  /** The trace event (`AgentEvent` of observability/events.py). */
  datatype TraceEvent = TraceEvent(
    name: string,
    timeMs: int,
    runId: string,
    step: int,
    spanId: string,
    parentSpanId: Option<string>,
    data: map<string, Json>)

  /** `build_event`: every field copied, `data` defaulting to an empty map. */
  function BuildEvent(name: string, timeMs: int, runId: string, step: int, spanId: string,
                      parentSpanId: Option<string>, data: Option<map<string, Json>>): (e: TraceEvent)
    ensures e.name == name && e.timeMs == timeMs && e.runId == runId && e.step == step
    ensures e.spanId == spanId && e.parentSpanId == parentSpanId
    ensures data.None? ==> e.data == map[]
    ensures data.Some? ==> e.data == data.value
  {
    TraceEvent(name, timeMs, runId, step, spanId, parentSpanId, if data.None? then map[] else data.value)
  }

  /** Leaving `data` out and passing an empty map build the same event. */
  lemma BuildEventDefaultData(name: string, timeMs: int, runId: string, step: int, spanId: string, parentSpanId: Option<string>)
    ensures BuildEvent(name, timeMs, runId, step, spanId, parentSpanId, None) ==
            BuildEvent(name, timeMs, runId, step, spanId, parentSpanId, Some(map[]))
  {
  }

  /** Building from an event's own fields and data gives that event back. */
  lemma BuildEventRoundTrip(e: TraceEvent)
    ensures BuildEvent(e.name, e.timeMs, e.runId, e.step, e.spanId, e.parentSpanId, Some(e.data)) == e
  {
  }

  /**
   * An event sink as `emit_event` sees it: a callable, an object with an
   * `emit` method, or both. The sink records what reached it through each
   * entry point; the effect of a user-supplied callable is left abstract.
   */
  class EventSink {
    const isCallable: bool
    const hasEmit: bool
    /** Events passed to `sink(event)`. */
    var called: seq<TraceEvent>
    /** Events passed to `sink.emit(event)`; for a list sink, its `events` list. */
    var events: seq<TraceEvent>

    /** `ListEventSink()`: not callable, an `emit` that appends, no events yet. */
    constructor List()
      ensures !isCallable && hasEmit
      ensures called == [] && events == []
    {
      isCallable := false;
      hasEmit := true;
      called := [];
      events := [];
    }

    /** Any other sink, described by the entry points it offers. */
    constructor(isCallable: bool, hasEmit: bool)
      ensures this.isCallable == isCallable && this.hasEmit == hasEmit
      ensures called == [] && events == []
    {
      this.isCallable := isCallable;
      this.hasEmit := hasEmit;
      called := [];
      events := [];
    }

    /** `sink(event)`. */
    method Call(event: TraceEvent)
      requires isCallable
      modifies this
      ensures called == old(called) + [event]
      ensures events == old(events)
    {
      called := called + [event];
    }

    /** `sink.emit(event)`; for `ListEventSink`, `self.events.append(event)`. */
    method Emit(event: TraceEvent)
      requires hasEmit
      modifies this
      ensures events == old(events) + [event]
      ensures called == old(called)
    {
      events := events + [event];
    }
  }

  /** Which way `emit_event` delivers an event. */
  datatype Delivery =
    | Dropped        // no sink
    | Called         // the sink is callable
    | Emitted        // the sink is not callable and is given the event through `emit`
    | NoEmit         // neither: `sink.emit` raises AttributeError

  /** The dispatch order of `emit_event`: no sink, then callability, then `emit`. */
  function DeliveryFor(present: bool, isCallable: bool, hasEmit: bool): (d: Delivery)
    ensures d == Dropped <==> !present
    ensures d == Called <==> present && isCallable
    ensures d == Emitted <==> present && !isCallable && hasEmit
    ensures d == NoEmit <==> present && !isCallable && !hasEmit
  {
    if !present then Dropped
    else if isCallable then Called
    else if hasEmit then Emitted
    else NoEmit
  }

  /** `emit_event(sink, event)`. */
  method EmitEvent(sink: EventSink?, event: TraceEvent) returns (d: Delivery)
    modifies sink
    ensures d == DeliveryFor(sink != null, sink != null && sink.isCallable, sink != null && sink.hasEmit)
    ensures sink != null && d == Called ==> sink.called == old(sink.called) + [event] && sink.events == old(sink.events)
    ensures sink != null && d == Emitted ==> sink.events == old(sink.events) + [event] && sink.called == old(sink.called)
    ensures sink != null && d == NoEmit ==> sink.events == old(sink.events) && sink.called == old(sink.called)
  {
    if sink == null {
      return Dropped;
    }
    if sink.isCallable {
      sink.Call(event);
      return Called;
    }
    if !sink.hasEmit {
      return NoEmit;
    }
    sink.Emit(event);
    return Emitted;
  }
}

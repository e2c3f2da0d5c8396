/**
 * The router (router.py): routes registered in order, each a predicate on the
 * user input and the agent that handles it; the first route whose predicate
 * holds wins, otherwise the default agent runs.
 */
module Routing {
  import opened Wrappers
  import opened Errors
  import opened AgentSpec
  import Agents

  datatype Route<V> = Route(name: string, accepts: string -> bool, agent: Agents.Agent<V>)

  /** The position of the first route whose predicate holds on `input`, if any. */
  function FirstMatch<V>(routes: seq<Route<V>>, input: string): (r: Option<nat>)
    ensures r.Some? ==> r.value < |routes| && routes[r.value].accepts(input)
    ensures r.Some? ==> forall j :: 0 <= j < r.value ==> !routes[j].accepts(input)
    ensures r.None? ==> forall j :: 0 <= j < |routes| ==> !routes[j].accepts(input)
    decreases |routes|
  {
    if routes == [] then None
    else if routes[0].accepts(input) then Some(0)
    else
      match FirstMatch(routes[1..], input)
      case None => None
      case Some(i) => Some(i + 1)
  }

  /**
   * Adding a route at the end never changes where an input already matched
   * goes; an input nothing matched goes to the new route exactly when its
   * predicate holds.
   */
  lemma {:induction false} FirstMatchAppend<V>(routes: seq<Route<V>>, route: Route<V>, input: string)
    ensures FirstMatch(routes + [route], input) ==
      if FirstMatch(routes, input).Some? then FirstMatch(routes, input)
      else if route.accepts(input) then Some(|routes|)
      else None
    decreases |routes|
  {
    if routes == [] {
      assert routes + [route] == [route];
    } else {
      assert (routes + [route])[1..] == routes[1..] + [route];
      FirstMatchAppend(routes[1..], route, input);
    }
  }

  class Router<V> {
    const defaultAgent: Agents.Agent<V>
    var routes: seq<Route<V>>

    constructor(defaultAgent: Agents.Agent<V>)
      ensures this.defaultAgent == defaultAgent && routes == []
    {
      this.defaultAgent := defaultAgent;
      routes := [];
    }

    /** `add_route`: appended last, so routes are tried in registration order. */
    method AddRoute(route: Route<V>)
      modifies this
      ensures routes == old(routes) + [route]
    {
      routes := routes + [route];
    }

    /** The agent `route` hands `input` to. */
    function Selected(input: string): (a: Agents.Agent<V>)
      reads this
      ensures FirstMatch(routes, input).Some? ==> a == routes[FirstMatch(routes, input).value].agent
      ensures FirstMatch(routes, input).None? ==> a == defaultAgent
      ensures a == defaultAgent || exists j :: 0 <= j < |routes| && routes[j].agent == a
    {
      match FirstMatch(routes, input)
      case Some(i) => routes[i].agent
      case None => defaultAgent
    }

    /** The state every agent the router can select keeps. */
    ghost function Footprint(): set<object>
      reads this
    {
      var memories: set<object> := set j | 0 <= j < |routes| :: routes[j].agent.memory;
      var models: set<object> := set j | 0 <= j < |routes| :: routes[j].agent.llm;
      memories + models + {defaultAgent.memory, defaultAgent.llm}
    }

    /**
     * `route`: exactly one agent runs, the selected one, on the unmodified
     * input; no other conversation log or model queue changes.
     */
    method RouteInput(input: string) returns (r: Result<AgentResponse, OrchestratorError>)
      modifies Footprint()
      ensures var a := old(Selected(input));
        RunOutcome(r, a.memory.messages, a.llm.responses) ==
          RunSpec(old(a.Setup()), input, old(a.memory.messages), old(a.llm.responses))
      ensures var a := old(Selected(input));
        unchanged(Footprint() - {a.memory, a.llm})
      ensures routes == old(routes)
    {
      var i := 0;
      while i < |routes|
        invariant 0 <= i <= |routes|
        invariant forall j :: 0 <= j < i ==> !routes[j].accepts(input)
      {
        if routes[i].accepts(input) {
          assert FirstMatch(routes, input) == Some(i);
          r := routes[i].agent.Run(input);
          return;
        }
        i := i + 1;
      }
      r := defaultAgent.Run(input);
    }
  }
}

/**
 * Tools (tools/base.py) and the tool registry (tools/registry.py): a name to
 * tool map with last-write-wins registration, a lookup that raises
 * ToolNotFoundError, and a dispatcher that wraps every validation or
 * execution failure into ToolExecutionError.
 */
module Registry {
  import opened Wrappers
  import opened Json
  import opened Errors

  type Args = map<string, Json>

  /**
   * A tool over validated inputs of type V. `validate` stands for the pydantic
   * input model, `run` for the tool body; a raised exception is a Failure.
   */
  datatype Tool<!V> = Tool(
    name: string,
    description: string,
    validate: Args -> Result<V, Cause>,
    run: V -> Result<string, Cause>)

  /** Validate then run, the failing step's exception as the cause. */
  function Execute<V>(t: Tool<V>, args: Args): Result<string, Cause>
  {
    match t.validate(args)
    case Failure(cause) => Failure(cause)
    case Success(v) => t.run(v)
  }

  /** What `ToolRegistry.run` does with a given map of tools. */
  function Dispatch<V>(tools: map<string, Tool<V>>, name: string, args: Args): (r: Result<string, OrchestratorError>)
    ensures name !in tools ==> r == Failure(ToolNotFound(name))
    ensures name in tools ==> match Execute(tools[name], args)
      case Success(out) => r == Success(out)
      case Failure(cause) => r == Failure(ToolExecution(name, cause))
  {
    if name !in tools then Failure(ToolNotFound(name))
    else
      match Execute(tools[name], args)
      case Success(out) => Success(out)
      case Failure(cause) => Failure(ToolExecution(name, cause))
  }

  /** A dispatch fails with ToolNotFound exactly for unregistered names; every other failure names the tool. */
  lemma DispatchErrors<V>(tools: map<string, Tool<V>>, name: string, args: Args)
    requires Dispatch(tools, name, args).Failure?
    ensures var e := Dispatch(tools, name, args).error;
      (e.ToolNotFound? <==> name !in tools) && (e.ToolNotFound? || (e.ToolExecution? && e.toolName == name))
  {
  }

  /** Registering a tool makes its name dispatch to it, and leaves every other name as it was. */
  lemma DispatchAfterRegister<V>(tools: map<string, Tool<V>>, t: Tool<V>, name: string, args: Args)
    ensures name == t.name ==>
      (Dispatch(tools[t.name := t], name, args) ==
        match Execute(t, args)
        case Success(out) => Success(out)
        case Failure(cause) => Failure(ToolExecution(name, cause)))
    ensures name != t.name ==> Dispatch(tools[t.name := t], name, args) == Dispatch(tools, name, args)
  {
  }

  class ToolRegistry<V> {
    var tools: map<string, Tool<V>>

    constructor()
      ensures tools == map[]
    {
      tools := map[];
    }

    /** `register`: last write wins, other names untouched. */
    method Register(tool: Tool<V>)
      modifies this
      ensures tools == old(tools)[tool.name := tool]
      ensures tool.name in tools && tools[tool.name] == tool
      ensures forall n :: n != tool.name ==> (n in tools <==> n in old(tools))
      ensures forall n :: n != tool.name && n in tools ==> tools[n] == old(tools)[n]
    {
      tools := tools[tool.name := tool];
    }

    /** `get`: the registered tool, or ToolNotFoundError. */
    method Get(name: string) returns (r: Result<Tool<V>, OrchestratorError>)
      ensures r.Success? <==> name in tools
      ensures r.Success? ==> r.value == tools[name]
      ensures r.Failure? ==> r.error == ToolNotFound(name)
    {
      if name !in tools {
        return Failure(ToolNotFound(name));
      }
      return Success(tools[name]);
    }

    /**
     * `run`: the lookup's ToolNotFoundError unwrapped, a validation or tool
     * failure wrapped with the tool's name, otherwise the tool's output.
     */
    method Run(name: string, args: Args) returns (r: Result<string, OrchestratorError>)
      ensures r == Dispatch(tools, name, args)
    {
      var found := Get(name);
      if found.Failure? {
        return Failure(found.error);
      }
      var tool := found.value;
      var validated := tool.validate(args);
      if validated.Failure? {
        return Failure(ToolExecution(name, validated.error));
      }
      var output := tool.run(validated.value);
      if output.Failure? {
        return Failure(ToolExecution(name, output.error));
      }
      return Success(output.value);
    }
  }
}

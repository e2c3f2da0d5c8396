/**
 * The orchestrator's exception hierarchy (utils/errors.py) as one datatype,
 * with the message texts the tool registry formats when it raises them.
 */
module Errors {

  /** The exception that caused a tool failure, kept as the "caused-by" link. */
  datatype Cause = Cause(description: string)

  datatype OrchestratorError =
    | ToolNotFound(name: string)
    | ToolExecution(toolName: string, cause: Cause)
    | LLMFailure(detail: string)
  {
    /** The text of `str(exc)`. */
    function Message(): (text: string)
      ensures ToolNotFound? ==> text == "Tool '" + name + "' is not registered"
      ensures ToolExecution? ==> text == "Tool '" + toolName + "' failed: " + cause.description
    {
      match this
      case ToolNotFound(name) => "Tool '" + name + "' is not registered"
      case ToolExecution(toolName, cause) => "Tool '" + toolName + "' failed: " + cause.description
      case LLMFailure(detail) => detail
    }
  }
}

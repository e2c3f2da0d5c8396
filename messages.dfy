/** A conversation message (protocol/messages.py). */
module Messages {
  import opened Wrappers

  datatype Role = User | Assistant | Tool | System

  datatype Message = Message(role: Role, content: string, name: Option<string>)

  /** The wire spelling of a role, as the `Literal[...]` of the source lists it. */
  function RoleName(r: Role): (s: string)
    ensures s in {"user", "assistant", "tool", "system"}
  {
    match r
    case User => "user"
    case Assistant => "assistant"
    case Tool => "tool"
    case System => "system"
  }

  lemma RoleNameInjective(a: Role, b: Role)
    ensures RoleName(a) == RoleName(b) <==> a == b
  {
  }
}

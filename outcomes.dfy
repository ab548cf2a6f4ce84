/** What the assistant's external collaborators hand back: a tool either returns its
    reply string or raises, and the agent returns a result object or raises. */
module Outcomes {
  import opened Text

  /** The outcome of invoking a tool. */
  datatype ToolOutcome = Returned(text: string) | Raised(message: string)

  /** What `agent_executor.invoke` returns: a dictionary, of which only the `output` and
      `result` entries are read, or some other object; `rendered` is its `str()`. */
  datatype AgentResult =
    | Mapping(output: Option<string>, result: Option<string>, rendered: string)
    | Other(rendered: string)

  /** The outcome of invoking the agent. */
  datatype AgentOutcome = AgentReturned(result: AgentResult) | AgentRaised(message: string)

  /** What a tool returns: a reply, or the reply made of `prefix` followed by the message
      of an exception the tool caught (the message itself is not modelled). */
  datatype Answer = Says(text: string) | Failed(prefix: string)

  /** What the direct language-model call returns: its content (or rendering), or an
      exception with its message. */
  datatype LlmOutcome = LlmReturned(content: string) | LlmRaised(message: string)

  /** Python truthiness of an optional string: present and non-empty. */
  predicate Truthy(o: Option<string>) {
    o.Some? && o.value != ""
  }

  /** `result.get("output") or result.get("result") or str(result)` for a dictionary, and
      `str(result)` for anything else. */
  function AgentReply(r: AgentResult): string
  {
    match r
    case Mapping(output, result, rendered) =>
      if Truthy(output) then output.value
      else if Truthy(result) then result.value
      else rendered
    case Other(rendered) => rendered
  }
}

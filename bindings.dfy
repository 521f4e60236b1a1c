/**
 * The binding registry: the framework names `createBinding` accepts and the
 * concept types each binding supports. A binding's `transform` is represented
 * by the transformer it delegates to (see ClaudeCodeTransformer).
 */
module Bindings {
  import opened Wrappers
  import opened ConceptTypes

  /** The transformer a binding's `transform` runs. */
  datatype Transformer = ClaudeCodeTransformer

  datatype Binding = Binding(name: string, version: string, supportedConcepts: seq<ConceptType>,
                             transformer: Transformer)

  const ClaudeCodeBinding := Binding("claude-code", "1.0.0", [RoleType, ToolType, EvalType], ClaudeCodeTransformer)

  /** `createBinding(framework)`. */
  function CreateBinding(framework: string): (r: Result<Binding>)
    ensures r.Ok? <==> framework == "claude" || framework == "claude-code"
    ensures r.Ok? ==> r.value == ClaudeCodeBinding
    ensures framework == "langgraph" ==> r == Err("LangGraph binding not yet implemented")
    ensures framework == "crewai" ==> r == Err("CrewAI binding not yet implemented")
    ensures !(framework in {"claude", "claude-code", "langgraph", "crewai"}) ==>
      r == Err("Unknown binding framework: " + framework)
  {
    if framework == "claude" || framework == "claude-code" then Ok(ClaudeCodeBinding)
    else if framework == "langgraph" then Err("LangGraph binding not yet implemented")
    else if framework == "crewai" then Err("CrewAI binding not yet implemented")
    else Err("Unknown binding framework: " + framework)
  }

  /** `bindingSupportsConceptType(binding, conceptType)`: membership in `supportedConcepts`. */
  predicate Supports(binding: Binding, t: ConceptType) {
    t in binding.supportedConcepts
  }

  /** The Claude Code binding takes roles, tools and evals, and neither teams nor workflows. */
  lemma ClaudeCodeSupport(framework: string, t: ConceptType)
    requires CreateBinding(framework).Ok?
    ensures Supports(CreateBinding(framework).value, t) <==> t == RoleType || t == ToolType || t == EvalType
    ensures CreateBinding(framework).value.name == "claude-code"
    ensures CreateBinding(framework).value.version == "1.0.0"
  {
  }
}

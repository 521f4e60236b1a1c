/** ToolLoader: the tool record built from parsed metadata, and its checks. */
module Tool {
  import opened Wrappers
  import opened ConceptTypes

  /** ToolType: 'mcp-server', 'utility', 'api-client'. */
  datatype ToolKind = McpServer | Utility | ApiClient

  /** tool.yml after schema parsing. */
  datatype ToolMetadata = ToolMetadata(
    name: string,
    description: Option<string>,
    toolType: ToolKind,
    mcpServer: Option<bool>,
    protocols: Option<seq<string>>,
    command: Option<string>,
    args: Option<seq<string>>,
    env: Option<seq<(string, string)>>)

  datatype ToolRecord = ToolRecord(
    name: string,
    conceptType: ConceptType,
    description: Option<string>,
    toolType: ToolKind,
    mcpServer: bool,
    protocols: seq<string>,
    command: Option<string>,
    args: Option<seq<string>>,
    env: Option<seq<(string, string)>>)

  /** `loadConceptContent`: type tool, `mcp_server || false`, `protocols || []`. */
  function ToolOf(m: ToolMetadata): (r: ToolRecord)
    ensures r.conceptType == ToolType && r.toolType == m.toolType && r.command == m.command
    ensures r.mcpServer <==> m.mcpServer == Some(true)
    ensures r.protocols == if m.protocols.Some? then m.protocols.value else []
  {
    ToolRecord(m.name, ToolType, m.description, m.toolType, m.mcpServer == Some(true),
      if m.protocols.Some? then m.protocols.value else [], m.command, m.args, m.env)
  }

  /** A truthy command: present and non-empty. */
  predicate HasCommand(tool: ToolRecord) {
    tool.command.Some? && tool.command.value != ""
  }

  /** `validateConcept`. */
  function ValidateTool(tool: ToolRecord): (r: Outcome)
    ensures r.Pass? <==> (tool.mcpServer ==> HasCommand(tool)) && (tool.toolType == McpServer ==> tool.mcpServer)
    ensures tool.mcpServer && !HasCommand(tool) ==> r == Fail("MCP server tools must have a command")
  {
    if tool.mcpServer && !HasCommand(tool) then Fail("MCP server tools must have a command")
    else if tool.toolType == McpServer && !tool.mcpServer then Fail("Tool type mcp-server must have mcp_server: true")
    else Pass
  }

  /** An mcp-server tool that passes has mcp_server set and a command. */
  lemma McpServerToolComplete(tool: ToolRecord)
    requires tool.toolType == McpServer && ValidateTool(tool).Pass?
    ensures tool.mcpServer && HasCommand(tool)
  {
  }

  /** A tool that is not an MCP server, of any other type, always passes. */
  lemma PlainToolPasses(m: ToolMetadata)
    requires m.mcpServer != Some(true) && m.toolType != McpServer
    ensures ValidateTool(ToolOf(m)) == Pass
  {
  }
}

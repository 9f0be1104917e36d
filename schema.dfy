/**
 * The tool schema adapter: MCP tool descriptors become provider tool
 * declarations, and provider tool calls become plain records.
 */
module SchemaAdapter {
  import opened Types

  /** The `type` tag of every declaration handed to the provider. */
  const FunctionKind: string := "function"

  /** The declaration of one MCP tool, wrapped in a `function` envelope. */
  function Declare(tool: ToolDescriptor): ToolDecl
  {
    ToolDecl(FunctionKind, FunctionDecl(tool.name, tool.description, tool.inputSchema))
  }

  /**
   * `_convert_tool_schema`: one declaration per descriptor, in the same order,
   * each copying the descriptor's name, description and schema unchanged.
   */
  function ConvertToolSchema(tools: seq<ToolDescriptor>): (decls: seq<ToolDecl>)
    ensures |decls| == |tools|
    ensures forall i :: 0 <= i < |tools| ==>
      && decls[i].kind == "function"
      && decls[i].fn.name == tools[i].name
      && decls[i].fn.description == tools[i].description
      && decls[i].fn.parameters == tools[i].inputSchema
  {
    if tools == [] then [] else ConvertToolSchema(tools[..|tools| - 1]) + [Declare(tools[|tools| - 1])]
  }

  /**
   * `_convert_tool_calls_to_dict`: one record per tool call, in the same order,
   * copying id, type, function name and argument text.
   */
  function ToolCallRecords(calls: seq<ToolCall>): (records: seq<ToolCallRecord>)
    ensures |records| == |calls|
    ensures forall i :: 0 <= i < |calls| ==>
      && records[i].id == calls[i].id
      && records[i].kind == calls[i].kind
      && records[i].fn == calls[i].fn
  {
    seq(|calls|, i requires 0 <= i < |calls| => ToolCallRecord(calls[i].id, calls[i].kind, calls[i].fn))
  }
}

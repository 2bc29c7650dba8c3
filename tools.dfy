/** The result shape shared by every tool: `{"success": ..., "result": ...}`. */
module Tools {

  datatype ToolResult = ToolResult(success: bool, result: string)

  function Succeeded(text: string): ToolResult {
    ToolResult(true, text)
  }

  function Failed(text: string): ToolResult {
    ToolResult(false, text)
  }
}

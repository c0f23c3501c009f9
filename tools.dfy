/**
 * The records that travel between the stream reader and the dispatcher.
 * Their TypeScript declarations live in `@/lib/tools`, which is not part of
 * this model; the fields below are the ones the code reads and writes.
 */
module Tools {
  import opened JsValues

  /** A finalized call: the accumulated id and name with the parsed arguments. */
  datatype ParsedToolCall = ParsedToolCall(id: string, name: string, arguments: Json)

  /** One dispatch outcome, produced for every requested call. */
  datatype ToolResult = ToolResult(toolCallId: string, name: string, success: bool, result: string)
}

/** Values exchanged with the completion service: JSON values, content blocks
    and messages, as the Bedrock Converse API shapes them. Shared by every
    other module of the model. */
module Blocks {

  datatype Option<+T> = None | Some(value: T)

  /** The outcome of an operation that may raise: the error carries the
      exception's message. */
  datatype Result<+T> = Success(value: T) | Failure(error: string)

  type Byte = bv8
  type Bytes = seq<Byte>

  /** A JSON value. Numbers are kept as integers: no JSON arithmetic happens
      in the modelled code. */
  datatype JsonValue =
    | JNull
    | JBool(b: bool)
    | JNumber(n: int)
    | JString(s: string)
    | JArray(items: seq<JsonValue>)
    | JObject(fields: map<string, JsonValue>)

  datatype Role = User | Assistant

  datatype ToolStatus = StatusSuccess | StatusError

  /** One content block. Each variant is a dictionary with exactly one of the
      keys 'text', 'image', 'document', 'json', 'toolUse' or 'toolResult'. */
  datatype ContentBlock =
    | Text(text: string)
    | Image(imageFormat: string, source: Bytes)
    | Document(documentFormat: string, name: string, source: Bytes)
    | Json(json: JsonValue)
    | ToolUse(toolUseId: string, name: string, input: map<string, JsonValue>)
    | ToolResult(toolUseId: string, content: seq<ContentBlock>, status: ToolStatus)

  datatype Message = Message(role: Role, content: seq<ContentBlock>)
}

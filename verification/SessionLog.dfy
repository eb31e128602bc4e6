/**
 * The values that travel through a session log: JSON, model messages, stored records and the
 * messages sent to the model.
 */
module SessionLog {
  import opened Options

  const MEMORY_TOOL_NAME := "memory_propose_update"

  /** How many floats there are: 64 bits, all NaNs counted as one. */
  const FLOATS: nat := 0x1_0000_0000_0000_0000 - 0x20_0000_0000_0000 + 3

  /** The floats, numbered in some order. */
  type FloatIndex = n: nat | n < FLOATS

  /** A parsed JSON value; an object keeps the order of its keys. */
  datatype Json =
    | JNull
    | JBool(b: bool)
    | JInt(i: int)
    | JFloat(index: FloatIndex)
    | JString(s: string)
    | JArray(items: seq<Json>)
    | JObject(fields: seq<(string, Json)>)

  /** No object in it names a key twice; so it is with everything Python holds or parses. */
  predicate Proper(j: Json) {
    match j
    case JArray(items) => forall i :: 0 <= i < |items| ==> Proper(items[i])
    case JObject(fields) => KeysDistinct(fields) && forall i :: 0 <= i < |fields| ==> Proper(fields[i].1)
    case _ => true
  }

  predicate KeysDistinct(fields: seq<(string, Json)>) {
    forall i, k :: 0 <= i < k < |fields| ==> fields[i].0 != fields[k].0
  }

  /** `json.dumps` with compact separators and `json.loads`; None stands for JSONDecodeError. */
  datatype Codec = Codec(dumps: Json -> string, loads: string -> Option<Json>)

  /** What the model needs to know of a JSON library; module `JsonCodec` shows that it can be had. */
  ghost predicate Lossless(c: Codec) {
    && (forall j :: Proper(j) ==> c.loads(c.dumps(j)) == Some(j))
    && (forall s :: c.loads(s).Some? ==> Proper(c.loads(s).value))
    && c.loads("{}") == Some(JObject([]))
  }

  // ---------------------------------------------------------------- model messages

  /** Tool-call arguments as the model streamed them. */
  datatype Args = NoArgs | RawArgs(text: string) | DictArgs(fields: seq<(string, Json)>)

  /** A tool's return value; `Opaque` is a Python object that is not JSON, known by its `str`. */
  datatype Content = Text(text: string) | Value(json: Json) | Opaque(shown: string)

  datatype Outcome = Success | Failed | Denied | Retried

  datatype ResponsePart =
    | TextPart(content: string)
    | CallPart(id: string, name: string, args: Args)
    | ThinkingPart

  datatype RequestPart =
    | ReturnPart(id: string, name: string, content: Content, outcome: Outcome)
    | PromptPart(prompt: string)
    | OtherPart

  datatype ModelMessage =
    | Response(parts: seq<ResponsePart>)
    | Request(asked: seq<RequestPart>)

  // ---------------------------------------------------------------- stored records

  datatype Body =
    | UserMessage(content: string)
    | AssistantMessage(content: string, inputTokens: Option<int>)
    | AssistantToolCall(callId: string, toolName: string, argumentsJson: string)
    | ToolResult(callId: string, toolName: string, result: Json, error: Option<string>)  // JNull: no result
    | SystemMessage(content: string)
    | TurnSummary
    | TurnTerminal
    | CompactionSummary(content: string)

  datatype Record = Record(sequence: int, turn: string, body: Body)

  // ---------------------------------------------------------------- messages for the model

  datatype Role = User | Assistant

  datatype Block =
    | TextBlock(text: string)
    | UseBlock(id: string, name: string, input: Json)
    | ResultBlock(id: string, name: string, content: string, isError: bool)

  /** `blocks` is empty when the message is plain text. */
  datatype LLMMessage = LLMMessage(role: Role, content: string, blocks: seq<Block>)
}

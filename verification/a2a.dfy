/** The shapes the route reads and writes: the collaborators it calls, the
    message selection it derives from `params`, and the JSON-RPC 2.0 response
    wrapping an A2A task or an error object. */
module A2A {
  import opened JsValue

  /** Error codes of section 5.1 of the JSON-RPC 2.0 Specification. */
  const INVALID_REQUEST: int := -32600
  const INVALID_PARAMS: int := -32602
  const INTERNAL_ERROR: int := -32603

  /** One input message flattened for the agent: its role and its parts' text. */
  datatype ChatMessage = ChatMessage(role: Value, content: string)

  /** The agent's reply as far as the route reads it: `text` and `toolResults`,
      each possibly missing. */
  datatype Reply = Reply(text: Option<string>, toolResults: Option<seq<Value>>)

  /** What the agent registry does with a name. */
  datatype Lookup = Found | NotFound | LookupThrows(message: string)

  /** The collaborators the route cannot see into, supplied as inputs:
      the agent registry, the agent's `generate`, the UUID generator (the k-th
      call returns `uuid(k)`), the clock's ISO-8601 reading, `JSON.stringify`
      and JavaScript's Number-to-String conversion. */
  datatype Env = Env(
    registry: string -> Lookup,
    generate: (string, seq<ChatMessage>) -> Result<Reply>,
    uuid: nat -> string,
    now: string,
    stringify: Value -> string,
    numberText: real -> string)

  /** The messages chosen from `params`, with the context id, task id and
      metadata derived alongside them. */
  datatype Selection = Selection(messages: seq<Value>, contextId: Value, taskId: Value, metadata: Value)

  /** A part the route builds itself. */
  datatype Part = TextPart(text: string) | DataPart(data: Value)
  {
    function Kind(): string {
      match this
      case TextPart(_) => "text"
      case DataPart(_) => "data"
    }
  }

  /** A part as JSON, for history entries, whose parts are raw JSON. */
  function PartValue(p: Part): Value {
    match p
    case TextPart(t) => Obj(map["kind" := Str("text"), "text" := Str(t)])
    case DataPart(d) => Obj(map["kind" := Str("data"), "data" := d])
  }

  datatype Artifact = Artifact(artifactId: string, name: string, parts: seq<Part>)

  /** A history entry; the fields copied from an input message keep whatever JSON
      value the message carried there (`Undefined` when it had none). */
  datatype HistoryMessage = HistoryMessage(kind: string, role: Value, parts: Value, messageId: Value, taskId: Value, metadata: Value)

  datatype StatusMessage = StatusMessage(messageId: string, role: string, parts: seq<Part>, kind: string)

  datatype TaskStatus = TaskStatus(state: string, timestamp: string, message: StatusMessage)

  datatype Task = Task(id: Value, contextId: Value, status: TaskStatus, artifacts: seq<Artifact>, history: seq<HistoryMessage>, kind: string)

  /** A JSON-RPC error object; `details` is `data.details`, present only on internal errors. */
  datatype ErrorObject = ErrorObject(code: int, message: string, details: Option<string>)

  datatype RpcResponse =
    | RpcError(jsonrpc: string, id: Value, error: ErrorObject)
    | RpcResult(jsonrpc: string, id: Value, result: Task)

  datatype HttpResponse = HttpResponse(status: int, body: RpcResponse)

  function InvalidRequest(id: Value): HttpResponse {
    HttpResponse(400, RpcError("2.0", id, ErrorObject(INVALID_REQUEST, "Invalid Request: jsonrpc must be \"2.0\" and id is required", None)))
  }

  function AgentNotFound(id: Value, agentId: string): HttpResponse {
    HttpResponse(404, RpcError("2.0", id, ErrorObject(INVALID_PARAMS, "Agent '" + agentId + "' not found", None)))
  }

  function MissingMessages(id: Value): HttpResponse {
    HttpResponse(400, RpcError("2.0", id, ErrorObject(INVALID_PARAMS, "Invalid params: message or messages is required", None)))
  }

  /** The catch-all: the request id is not echoed. */
  function InternalError(details: string): HttpResponse {
    HttpResponse(500, RpcError("2.0", Null, ErrorObject(INTERNAL_ERROR, "Internal error", Some(details))))
  }
}

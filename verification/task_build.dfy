/** Building the A2A task from the agent's reply: the artifacts, the history
    and the status message. Every `randomUUID()` call takes the next index of
    the UUID supply; each builder takes the first unused index and returns the
    next unused one. */
module TaskBuild {
  import opened JsValue
  import opened A2A

  /** `v` is a UUID taken from the supply at an index in [lo, hi). */
  ghost predicate FromSupply(v: Value, uuid: nat -> string, lo: nat, hi: nat) {
    v.Str? && exists k :: lo <= k < hi && uuid(k) == v.s
  }

  /** `response.text` as a JavaScript value: absent when the reply has none. */
  function TextValue(reply: Reply): Value {
    match reply.text
    case Some(t) => Str(t)
    case None => Undefined
  }

  /** `response.text || ''`: the JavaScript `||` of the reply's text and the
      empty string. */
  function AgentText(reply: Reply): (text: string)
    ensures Str(text) == Or(TextValue(reply), Str(""))
  {
    match reply.text
    case Some(t) => t
    case None => ""
  }

  /** The tool results, a missing list read as empty. */
  function ToolResults(reply: Reply): seq<Value> {
    match reply.toolResults
    case Some(rs) => rs
    case None => []
  }

  /** `toolResults.map(result => ({kind: 'data', data: result}))` */
  function ToolResultParts(results: seq<Value>): (parts: seq<Part>)
    ensures |parts| == |results|
    ensures forall k :: 0 <= k < |results| ==> parts[k].Kind() == "data" && parts[k].data == results[k]
  {
    if results == [] then [] else [DataPart(results[0])] + ToolResultParts(results[1..])
  }

  /** The payloads of the data parts, in order; text parts carry none. */
  function DataPayloads(parts: seq<Part>): seq<Value> {
    if parts == [] then []
    else (match parts[0] case DataPart(d) => [d] case TextPart(_) => []) + DataPayloads(parts[1..])
  }

  /** The tool-result parts give back exactly the tool results, in order. */
  lemma {:induction false} ToolResultPartsRoundTrip(results: seq<Value>)
    ensures DataPayloads(ToolResultParts(results)) == results
  {
    if results != [] {
      var parts := ToolResultParts(results);
      assert parts[1..] == ToolResultParts(results[1..]);
      ToolResultPartsRoundTrip(results[1..]);
      assert [results[0]] + results[1..] == results;
    }
  }

  /** The artifact list: the response artifact, then a "ToolResults" artifact
      exactly when there is at least one tool result. */
  function Artifacts(agentId: string, agentText: string, results: seq<Value>, uuid: nat -> string, next: nat): (r: (seq<Artifact>, nat))
    ensures |r.0| == (if results == [] then 1 else 2)
    ensures r.1 == next + |r.0|
    ensures r.0[0] == Artifact(uuid(next), agentId + "Response", [TextPart(agentText)])
    ensures |r.0| == 2 ==>
      && r.0[1].artifactId == uuid(next + 1)
      && r.0[1].name == "ToolResults"
      && |r.0[1].parts| == |results|
      && DataPayloads(r.0[1].parts) == results
  {
    var response := Artifact(uuid(next), agentId + "Response", [TextPart(agentText)]);
    if results != [] then
      ToolResultPartsRoundTrip(results);
      ([response, Artifact(uuid(next + 1), "ToolResults", ToolResultParts(results))], next + 2)
    else
      ([response], next + 1)
  }

  /** What the history entry of an input message keeps and what it generates:
      role and parts are copied; a truthy `messageId` is kept, otherwise a UUID is
      generated; a truthy `taskId` is kept, otherwise the current task id when
      truthy, otherwise a UUID; a truthy `metadata` is kept, otherwise the
      derived metadata. */
  ghost predicate Echoes(e: HistoryMessage, msg: Value, currentTaskId: Value, metadata: Value,
                         uuid: nat -> string, lo: nat, hi: nat)
  {
    && e.kind == "message"
    && e.role == Prop(msg, "role")
    && e.parts == Prop(msg, "parts")
    && (Truthy(Prop(msg, "messageId")) ==> e.messageId == Prop(msg, "messageId"))
    && (!Truthy(Prop(msg, "messageId")) ==> FromSupply(e.messageId, uuid, lo, hi))
    && (Truthy(Prop(msg, "taskId")) ==> e.taskId == Prop(msg, "taskId"))
    && (!Truthy(Prop(msg, "taskId")) && Truthy(currentTaskId) ==> e.taskId == currentTaskId)
    && (!Truthy(Prop(msg, "taskId")) && !Truthy(currentTaskId) ==> FromSupply(e.taskId, uuid, lo, hi))
    && (Truthy(Prop(msg, "metadata")) ==> e.metadata == Prop(msg, "metadata"))
    && (!Truthy(Prop(msg, "metadata")) ==> e.metadata == metadata)
  }

  /** The history entry of one input message. */
  function Entry(msg: Value, currentTaskId: Value, metadata: Value, uuid: nat -> string, next: nat): (r: (HistoryMessage, nat))
    ensures next <= r.1 <= next + 2
    ensures Echoes(r.0, msg, currentTaskId, metadata, uuid, next, r.1)
  {
    var ownId := Prop(msg, "messageId");
    var (messageId, afterId) := if Truthy(ownId) then (ownId, next) else (Str(uuid(next)), next + 1);
    var ownTask := Prop(msg, "taskId");
    var (taskId, afterTask) :=
      if Truthy(ownTask) then (ownTask, afterId)
      else if Truthy(currentTaskId) then (currentTaskId, afterId)
      else (Str(uuid(afterId)), afterId + 1);
    (HistoryMessage("message", Prop(msg, "role"), Prop(msg, "parts"), messageId, taskId, Or(Prop(msg, "metadata"), metadata)), afterTask)
  }

  /** The history entries of the input messages, in order. */
  function InputEntries(msgs: seq<Value>, currentTaskId: Value, metadata: Value, uuid: nat -> string, next: nat): (r: (seq<HistoryMessage>, nat))
    ensures |r.0| == |msgs|
    ensures next <= r.1 <= next + 2 * |msgs|
    ensures forall k :: 0 <= k < |msgs| ==> Echoes(r.0[k], msgs[k], currentTaskId, metadata, uuid, next, r.1)
  {
    if msgs == [] then ([], next)
    else
      var (first, afterFirst) := Entry(msgs[0], currentTaskId, metadata, uuid, next);
      var (rest, afterRest) := InputEntries(msgs[1..], currentTaskId, metadata, uuid, afterFirst);
      ([first] + rest, afterRest)
  }

  /** The history: one entry per input message, then the agent's reply. */
  function History(msgs: seq<Value>, currentTaskId: Value, metadata: Value, agentText: string, uuid: nat -> string, next: nat): (r: (seq<HistoryMessage>, nat))
    ensures |r.0| == |msgs| + 1
    ensures next < r.1 <= next + 2 * |msgs| + 2
    ensures forall k :: 0 <= k < |msgs| ==> Echoes(r.0[k], msgs[k], currentTaskId, metadata, uuid, next, r.1)
    ensures var last := r.0[|msgs|];
      && last.kind == "message"
      && last.role == Str("agent")
      && last.parts == Arr([PartValue(TextPart(agentText))])
      && FromSupply(last.messageId, uuid, next, r.1)
      && (Truthy(currentTaskId) ==> last.taskId == currentTaskId)
      && (!Truthy(currentTaskId) ==> FromSupply(last.taskId, uuid, next, r.1))
      && last.metadata == metadata
  {
    var (entries, afterEntries) := InputEntries(msgs, currentTaskId, metadata, uuid, next);
    var messageId := uuid(afterEntries);
    var (taskId, afterTask) :=
      if Truthy(currentTaskId) then (currentTaskId, afterEntries + 1) else (Str(uuid(afterEntries + 1)), afterEntries + 2);
    var agentEntry := HistoryMessage("message", Str("agent"), Arr([PartValue(TextPart(agentText))]), Str(messageId), taskId, metadata);
    (entries + [agentEntry], afterTask)
  }
}

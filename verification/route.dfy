/** The `POST /a2a/agent/:agentId` handler: validate the JSON-RPC 2.0
    envelope, resolve the agent, select the input messages, flatten them for
    the agent, call it, and wrap its reply in an A2A task; any thrown error
    becomes a JSON-RPC internal error. */
module Route {
  import opened JsValue
  import opened A2A
  import opened Flatten
  import opened TaskBuild

  /** The TypeError of destructuring `{jsonrpc, id, method, params}` from a body
      that is null. */
  function DestructureError(body: Value): string {
    "Cannot destructure property 'jsonrpc' of 'body' as it is " + (if body.Null? then "null." else "undefined.")
  }

  /** The body parsed and can be destructured. */
  predicate Readable(body: Result<Value>) {
    body.Ok? && !Nullish(body.value)
  }

  /** `jsonrpc === '2.0' && requestId` */
  predicate ValidEnvelope(b: Value) {
    Prop(b, "jsonrpc") == Str("2.0") && Truthy(Prop(b, "id"))
  }

  /** Message selection from `params || {}`: a truthy singular `message` wins,
      and then context id, task id and metadata come from it, falling back to
      the top-level ones; otherwise an array `messages` (possibly empty) is
      used as-is with the top-level values; otherwise there is nothing to use.
      Reading through `params || {}` is the same as reading `params` itself. */
  function Select(params: Value): (r: Option<Selection>)
    ensures var message := Prop(params, "message");
      && (r.None? <==> !Truthy(message) && !Prop(params, "messages").Arr?)
      && (Truthy(message) ==> r == Some(Selection([message],
                                                  Or(Prop(message, "contextId"), Prop(params, "contextId")),
                                                  Or(Prop(message, "taskId"), Prop(params, "taskId")),
                                                  Or(Prop(message, "metadata"), Prop(params, "metadata")))))
      && (!Truthy(message) && Prop(params, "messages").Arr? ==>
            r == Some(Selection(Prop(params, "messages").items, Prop(params, "contextId"),
                                Prop(params, "taskId"), Prop(params, "metadata"))))
  {
    var p := Or(params, Obj(map[]));
    var message, messages := Prop(p, "message"), Prop(p, "messages");
    var contextId, taskId, metadata := Prop(p, "contextId"), Prop(p, "taskId"), Prop(p, "metadata");
    if Truthy(message) then
      Some(Selection([message], Or(Prop(message, "contextId"), contextId),
                     Or(Prop(message, "taskId"), taskId), Or(Prop(message, "metadata"), metadata)))
    else if Truthy(messages) && messages.Arr? then
      Some(Selection(messages.items, contextId, taskId, metadata))
    else
      None
  }

  /** The most UUIDs one request can take: two artifacts, two per input
      message, two for the agent's history entry, the status message, the
      task id and the context id. */
  function MintBound(messageCount: nat): nat {
    2 * messageCount + 7
  }

  /** The A2A task built from the agent's reply: artifacts first, then the
      history, then the status message id, then the A2A task id and the context
      id, each generated only when missing. */
  function TaskOf(agentId: string, sel: Selection, reply: Reply, env: Env): (t: Task)
    ensures t.kind == "task" && t.status.state == "completed" && t.status.timestamp == env.now
    ensures |t.artifacts| == (if ToolResults(reply) == [] then 1 else 2)
    ensures |t.history| == |sel.messages| + 1
  {
    var agentText := AgentText(reply);
    var artifacts := Artifacts(agentId, agentText, ToolResults(reply), env.uuid, 0);
    var history := History(sel.messages, sel.taskId, sel.metadata, agentText, env.uuid, artifacts.1);
    var ids := TaskIds(sel, env.uuid, history.1);
    var status := TaskStatus("completed", env.now, StatusMessage(ids.0, "agent", [TextPart(agentText)], "message"));
    Task(ids.1, ids.2, status, artifacts.0, history.0, "task")
  }

  /** The ids taken after the history, in the source's order: the status
      message id, then the A2A task id when the derived one is falsy, then the
      context id when the derived one is falsy. */
  function TaskIds(sel: Selection, uuid: nat -> string, next: nat): (string, Value, Value) {
    var taskId := if Truthy(sel.taskId) then sel.taskId else Str(uuid(next + 1));
    var contextIndex := if Truthy(sel.taskId) then next + 1 else next + 2;
    (uuid(next), taskId, if Truthy(sel.contextId) then sel.contextId else Str(uuid(contextIndex)))
  }

  /** The success response: HTTP 200 carrying the A2A task. */
  function Completed(requestId: Value, agentId: string, sel: Selection, reply: Reply, env: Env): (resp: HttpResponse)
    ensures resp.status == 200 && resp.body.RpcResult? && resp.body.jsonrpc == "2.0" && resp.body.id == requestId
  {
    HttpResponse(200, RpcResult("2.0", requestId, TaskOf(agentId, sel, reply, env)))
  }

  /** A success is HTTP 200 echoing the request id, with a completed task
      stamped by the clock, whose status message is the agent's text. */
  lemma CompletedEnvelope(requestId: Value, agentId: string, sel: Selection, reply: Reply, env: Env)
    ensures var resp := Completed(requestId, agentId, sel, reply, env);
      && resp.status == 200 && resp.body.RpcResult?
      && resp.body.jsonrpc == "2.0" && resp.body.id == requestId
      && resp.body.result.kind == "task"
      && resp.body.result.status.state == "completed"
      && resp.body.result.status.timestamp == env.now
      && resp.body.result.status.message.kind == "message"
      && resp.body.result.status.message.role == "agent"
      && resp.body.result.status.message.parts == [TextPart(AgentText(reply))]
  {
  }

  /** The A2A task id and the context id are the derived ones when those are
      truthy and new UUIDs otherwise; the status message id is always new. */
  lemma CompletedIds(requestId: Value, agentId: string, sel: Selection, reply: Reply, env: Env)
    ensures var t := Completed(requestId, agentId, sel, reply, env).body.result;
      && FromSupply(Str(t.status.message.messageId), env.uuid, 0, MintBound(|sel.messages|))
      && (Truthy(sel.taskId) ==> t.id == sel.taskId)
      && (!Truthy(sel.taskId) ==> FromSupply(t.id, env.uuid, 0, MintBound(|sel.messages|)))
      && (Truthy(sel.contextId) ==> t.contextId == sel.contextId)
      && (!Truthy(sel.contextId) ==> FromSupply(t.contextId, env.uuid, 0, MintBound(|sel.messages|)))
  {
    var agentText := AgentText(reply);
    var (artifacts, afterArtifacts) := Artifacts(agentId, agentText, ToolResults(reply), env.uuid, 0);
    var (history, afterHistory) := History(sel.messages, sel.taskId, sel.metadata, agentText, env.uuid, afterArtifacts);
    assert afterHistory + 2 < MintBound(|sel.messages|);
  }

  /** The response artifact always comes first; the "ToolResults" artifact
      follows exactly when the reply has tool results, and carries them all,
      in order. */
  lemma CompletedArtifacts(requestId: Value, agentId: string, sel: Selection, reply: Reply, env: Env)
    ensures var arts := Completed(requestId, agentId, sel, reply, env).body.result.artifacts;
      && |arts| == (if ToolResults(reply) == [] then 1 else 2)
      && arts[0].name == agentId + "Response"
      && arts[0].parts == [TextPart(AgentText(reply))]
      && (|arts| == 2 ==>
            && arts[1].name == "ToolResults"
            && |arts[1].parts| == |ToolResults(reply)|
            && DataPayloads(arts[1].parts) == ToolResults(reply))
  {
  }

  /** The history echoes every input message, in order, and ends with the
      agent's reply. */
  lemma CompletedHistory(requestId: Value, agentId: string, sel: Selection, reply: Reply, env: Env)
    ensures var h := Completed(requestId, agentId, sel, reply, env).body.result.history;
      && |h| == |sel.messages| + 1
      && (forall k :: 0 <= k < |sel.messages| ==>
            Echoes(h[k], sel.messages[k], sel.taskId, sel.metadata, env.uuid, 0, MintBound(|sel.messages|)))
      && h[|sel.messages|].role == Str("agent")
      && h[|sel.messages|].parts == Arr([PartValue(TextPart(AgentText(reply)))])
      && h[|sel.messages|].metadata == sel.metadata
      && (Truthy(sel.taskId) ==> h[|sel.messages|].taskId == sel.taskId)
  {
  }

  /** Every step up to the agent's reply went through. */
  predicate Succeeds(body: Result<Value>, agentId: string, env: Env) {
    && Readable(body)
    && ValidEnvelope(body.value)
    && env.registry(agentId).Found?
    && var sel := Select(Prop(body.value, "params"));
       && sel.Some?
       && var chat := ChatMessages(sel.value.messages, env);
          chat.Ok? && env.generate(agentId, chat.value).Ok?
  }

  /** The whole handler, with `randomUUID`, the clock, the registry and the agent
      taken from `env`. Every answer is a JSON-RPC 2.0 envelope with one of four
      statuses; a result only with 200; and 500 always carries the internal-error
      code, the thrown message and a null id. */
  function Handle(body: Result<Value>, agentId: string, env: Env): (resp: HttpResponse)
    ensures resp.body.jsonrpc == "2.0"
    ensures resp.status in {200, 400, 404, 500}
    ensures resp.status == 200 <==> resp.body.RpcResult?
    ensures resp.status == 500 ==>
      resp.body.RpcError? && resp.body.error.code == INTERNAL_ERROR && resp.body.id == Null && resp.body.error.details.Some?
  {
    match body
    case Throw(m) => InternalError(m)
    case Ok(b) =>
      if Nullish(b) then InternalError(DestructureError(b))
      else
        var requestId := Prop(b, "id");
        if Prop(b, "jsonrpc") != Str("2.0") || !Truthy(requestId) then InvalidRequest(Or(requestId, Null))
        else Dispatch(requestId, agentId, Select(Prop(b, "params")), env)
  }

  /** What follows a valid envelope: resolve the agent, then use the selected
      messages, flatten them, call the agent and build the A2A task. */
  function Dispatch(requestId: Value, agentId: string, selection: Option<Selection>, env: Env): (resp: HttpResponse)
    ensures resp.body.jsonrpc == "2.0"
    ensures resp.status in {200, 404, 400, 500}
    ensures resp.status == 200 <==> resp.body.RpcResult?
    ensures resp.status == 500 ==>
      resp.body.RpcError? && resp.body.error.code == INTERNAL_ERROR && resp.body.id == Null && resp.body.error.details.Some?
  {
    match env.registry(agentId)
    case LookupThrows(m) => InternalError(m)
    case NotFound => AgentNotFound(requestId, agentId)
    case Found =>
      match selection
      case None => MissingMessages(requestId)
      case Some(sel) =>
        match ChatMessages(sel.messages, env)
        case Throw(m) => InternalError(m)
        case Ok(chat) =>
          match env.generate(agentId, chat)
          case Throw(m) => InternalError(m)
          case Ok(reply) => Completed(requestId, agentId, sel, reply, env)
  }

  /** An invalid envelope is answered with 400 and -32600, whatever the agent
      and the params; the id is echoed when truthy and null otherwise. */
  lemma InvalidEnvelopeRejected(body: Result<Value>, agentId: string, env: Env)
    requires Readable(body) && !ValidEnvelope(body.value)
    ensures var resp := Handle(body, agentId, env);
      && resp.status == 400
      && resp.body.error.code == INVALID_REQUEST
      && resp.body.id == (if Truthy(Prop(body.value, "id")) then Prop(body.value, "id") else Null)
  {
  }

  /** 404 with -32602 comes exactly from a valid envelope naming an agent the
      registry does not know. */
  lemma UnknownAgentRejected(body: Result<Value>, agentId: string, env: Env)
    ensures var resp := Handle(body, agentId, env);
      && (resp.status == 404 <==> Readable(body) && ValidEnvelope(body.value) && env.registry(agentId).NotFound?)
      && (resp.status == 404 ==> resp.body.error.code == INVALID_PARAMS && resp.body.id == Prop(body.value, "id"))
  {
  }

  /** 400 with -32602 comes exactly from a valid envelope, a known agent and
      params with no usable message. */
  lemma MissingMessagesRejected(body: Result<Value>, agentId: string, env: Env)
    ensures var resp := Handle(body, agentId, env);
      && (resp.status == 400 && resp.body.error.code == INVALID_PARAMS <==>
            && Readable(body) && ValidEnvelope(body.value) && env.registry(agentId).Found?
            && Select(Prop(body.value, "params")).None?)
      && (resp.status == 400 && resp.body.error.code == INVALID_PARAMS ==> resp.body.id == Prop(body.value, "id"))
  {
  }

  /** 200 comes exactly from a request whose every step went through, and it is
      the A2A task built from the agent's reply. */
  lemma SuccessExactlyWhenAllStepsSucceed(body: Result<Value>, agentId: string, env: Env)
    ensures var resp := Handle(body, agentId, env);
      && (resp.status == 200 <==> Succeeds(body, agentId, env))
      && (resp.status == 200 ==>
            var sel := Select(Prop(body.value, "params")).value;
            resp == Completed(Prop(body.value, "id"), agentId, sel,
                              env.generate(agentId, ChatMessages(sel.messages, env).value).value, env))
  {
  }

  /** Whatever throws, whether parsing, destructuring, the registry, flattening
      or the agent, ends in the catch-all with the thrown message as details. */
  lemma FailuresBecomeInternalErrors(body: Result<Value>, agentId: string, env: Env)
    ensures body.Throw? ==> Handle(body, agentId, env) == InternalError(body.message)
    ensures body.Ok? && Nullish(body.value) ==> Handle(body, agentId, env) == InternalError(DestructureError(body.value))
    ensures Readable(body) && ValidEnvelope(body.value) && env.registry(agentId).LookupThrows? ==>
      Handle(body, agentId, env) == InternalError(env.registry(agentId).message)
    ensures Readable(body) && ValidEnvelope(body.value) && env.registry(agentId).Found? && Select(Prop(body.value, "params")).Some? ==>
      var chat := ChatMessages(Select(Prop(body.value, "params")).value.messages, env);
      && (chat.Throw? ==> Handle(body, agentId, env) == InternalError(chat.message))
      && (chat.Ok? && env.generate(agentId, chat.value).Throw? ==>
            Handle(body, agentId, env) == InternalError(env.generate(agentId, chat.value).message))
  {
  }

  /** The handler as written: early returns for the three rejections, the
      locals reassigned by message selection, the artifact list pushed to, one
      `randomUUID()` call per `minted` step, and every thrown error leaving
      through the catch-all. */
  method HandleRequest(body: Result<Value>, agentId: string, env: Env) returns (resp: HttpResponse)
    ensures resp == Handle(body, agentId, env)
  {
    if body.Throw? {
      return InternalError(body.message);
    }
    var b := body.value;
    if Nullish(b) {
      return InternalError(DestructureError(b));
    }
    var jsonrpc, requestId, params := Prop(b, "jsonrpc"), Prop(b, "id"), Prop(b, "params");
    if jsonrpc != Str("2.0") || !Truthy(requestId) {
      return InvalidRequest(Or(requestId, Null));
    }

    var agent := env.registry(agentId);
    if agent.LookupThrows? {
      return InternalError(agent.message);
    }
    if agent.NotFound? {
      return AgentNotFound(requestId, agentId);
    }

    var p := Or(params, Obj(map[]));
    var message, messages := Prop(p, "message"), Prop(p, "messages");
    var contextId, taskId, metadata := Prop(p, "contextId"), Prop(p, "taskId"), Prop(p, "metadata");
    var messagesList: seq<Value> := [];
    var conversationContext, currentTaskId, messageMetadata := contextId, taskId, metadata;
    if Truthy(message) {
      messagesList := [message];
      conversationContext := Or(Prop(message, "contextId"), contextId);
      currentTaskId := Or(Prop(message, "taskId"), taskId);
      messageMetadata := Or(Prop(message, "metadata"), metadata);
    } else if Truthy(messages) && messages.Arr? {
      messagesList := messages.items;
    } else {
      return MissingMessages(requestId);
    }
    assert Select(params) == Some(Selection(messagesList, conversationContext, currentTaskId, messageMetadata));

    var mastraMessages := ChatMessages(messagesList, env);
    if mastraMessages.Throw? {
      return InternalError(mastraMessages.message);
    }
    var response := env.generate(agentId, mastraMessages.value);
    if response.Throw? {
      return InternalError(response.message);
    }
    resp := Respond(requestId, agentId, Selection(messagesList, conversationContext, currentTaskId, messageMetadata), response.value, env);
  }

  /** The artifact list as the handler builds it: the response artifact, then a
      push of the "ToolResults" artifact when there are tool results; `minted`
      counts the `randomUUID()` calls. */
  method BuildArtifacts(agentId: string, agentText: string, toolResults: seq<Value>, uuid: nat -> string)
    returns (artifacts: seq<Artifact>, minted: nat)
    ensures artifacts == Artifacts(agentId, agentText, toolResults, uuid, 0).0
    ensures minted == Artifacts(agentId, agentText, toolResults, uuid, 0).1
  {
    minted := 0;
    artifacts := [Artifact(uuid(minted), agentId + "Response", [TextPart(agentText)])];
    minted := minted + 1;
    if |toolResults| > 0 {
      artifacts := artifacts + [Artifact(uuid(minted), "ToolResults", ToolResultParts(toolResults))];
      minted := minted + 1;
    }
    ghost var expected := Artifacts(agentId, agentText, toolResults, uuid, 0).0;
    assert |expected| == |artifacts| && forall k :: 0 <= k < |artifacts| ==> expected[k] == artifacts[k];
  }

  /** The success path of the handler: the artifact list built by a push, and
      the history, the status message and the A2A task envelope built around it. */
  method Respond(requestId: Value, agentId: string, sel: Selection, reply: Reply, env: Env) returns (resp: HttpResponse)
    ensures resp == Completed(requestId, agentId, sel, reply, env)
  {
    var agentText := AgentText(reply);

    var artifacts, minted := BuildArtifacts(agentId, agentText, ToolResults(reply), env.uuid);

    var built := History(sel.messages, sel.taskId, sel.metadata, agentText, env.uuid, minted);
    var history := built.0;
    minted := built.1;

    var responseMessageId, resultId, resultContextId := MintTaskIds(sel, env.uuid, minted);
    var status := TaskStatus("completed", env.now, StatusMessage(responseMessageId, "agent", [TextPart(agentText)], "message"));
    resp := HttpResponse(200, RpcResult("2.0", requestId, Task(resultId, resultContextId, status, artifacts, history, "task")));
    assert TaskOf(agentId, sel, reply, env) == Task(resultId, resultContextId, status, artifacts, history, "task") by {
      ghost var expected := TaskOf(agentId, sel, reply, env);
      assert expected.artifacts == artifacts;
      assert expected.history == history;
      assert expected.status == status;
      assert expected.id == resultId && expected.contextId == resultContextId;
    }
  }

  /** The id minting after the history: `randomUUID()` is called for the
      status message, then for the A2A task id and the context id only where the
      derived ones are falsy. */
  method MintTaskIds(sel: Selection, uuid: nat -> string, next: nat) returns (responseMessageId: string, taskId: Value, contextId: Value)
    ensures responseMessageId == TaskIds(sel, uuid, next).0
    ensures taskId == TaskIds(sel, uuid, next).1
    ensures contextId == TaskIds(sel, uuid, next).2
  {
    var minted := next;
    responseMessageId := uuid(minted);
    minted := minted + 1;
    taskId := sel.taskId;
    if !Truthy(taskId) {
      taskId := Str(uuid(minted));
      minted := minted + 1;
    }
    contextId := sel.contextId;
    if !Truthy(contextId) {
      contextId := Str(uuid(minted));
    }
  }

  ghost predicate Injective(uuid: nat -> string) {
    forall i, j :: i != j ==> uuid(i) != uuid(j)
  }

  /** `v`, an id generated for the history, differs from the status message
      id, from every artifact id, and from the A2A task id and the context id where
      those are generated. */
  ghost predicate ApartFromTaskIds(v: Value, t: Task, sel: Selection) {
    && v != Str(t.status.message.messageId)
    && (forall a :: a in t.artifacts ==> v != Str(a.artifactId))
    && (!Truthy(sel.taskId) ==> v != t.id)
    && (!Truthy(sel.contextId) ==> v != t.contextId)
  }

  /** With a UUID supply that never repeats, the ids one request generates for
      the A2A task do not collide: the artifact ids, the status message id, and
      the A2A task id and the context id where those are generated, are pairwise
      distinct. */
  lemma MintedIdsDistinct(requestId: Value, agentId: string, sel: Selection, reply: Reply, env: Env)
    requires Injective(env.uuid)
    ensures var t := Completed(requestId, agentId, sel, reply, env).body.result;
      var statusId := t.status.message.messageId;
      && (|t.artifacts| == 2 ==> t.artifacts[0].artifactId != t.artifacts[1].artifactId)
      && (forall a :: a in t.artifacts ==> a.artifactId != statusId)
      && (!Truthy(sel.taskId) ==> t.id != Str(statusId) && forall a :: a in t.artifacts ==> t.id != Str(a.artifactId))
      && (!Truthy(sel.contextId) ==>
            && t.contextId != Str(statusId)
            && (forall a :: a in t.artifacts ==> t.contextId != Str(a.artifactId))
            && (!Truthy(sel.taskId) ==> t.contextId != t.id))
  {
    var agentText := AgentText(reply);
    var artifacts := Artifacts(agentId, agentText, ToolResults(reply), env.uuid, 0);
    var history := History(sel.messages, sel.taskId, sel.metadata, agentText, env.uuid, artifacts.1);
    var t := Completed(requestId, agentId, sel, reply, env).body.result;
    assert t.artifacts == artifacts.0;
    assert t.status.message.messageId == env.uuid(history.1) && artifacts.1 < history.1;
    assert forall a :: a in t.artifacts ==> exists i :: 0 <= i < artifacts.1 && a.artifactId == env.uuid(i);
    assert !Truthy(sel.taskId) ==> t.id == Str(env.uuid(history.1 + 1));
    assert !Truthy(sel.contextId) ==>
      t.contextId == Str(env.uuid(if Truthy(sel.taskId) then history.1 + 1 else history.1 + 2));
  }

  /** With a UUID supply that never repeats, every id generated for the history
      (an input entry's messageId or taskId, the agent entry's messageId, and
      its taskId) differs from the artifact ids, the status message id, and
      the A2A task id and the context id where those are generated. */
  lemma MintedHistoryIdsApart(requestId: Value, agentId: string, sel: Selection, reply: Reply, env: Env)
    requires Injective(env.uuid)
    ensures var t := Completed(requestId, agentId, sel, reply, env).body.result;
      var n := |sel.messages|;
      && (forall k :: 0 <= k < n && !Truthy(Prop(sel.messages[k], "messageId")) ==>
            ApartFromTaskIds(t.history[k].messageId, t, sel))
      && (forall k :: 0 <= k < n && !Truthy(Prop(sel.messages[k], "taskId")) && !Truthy(sel.taskId) ==>
            ApartFromTaskIds(t.history[k].taskId, t, sel))
      && ApartFromTaskIds(t.history[n].messageId, t, sel)
      && (!Truthy(sel.taskId) ==> ApartFromTaskIds(t.history[n].taskId, t, sel))
  {
    var agentText := AgentText(reply);
    var artifacts := Artifacts(agentId, agentText, ToolResults(reply), env.uuid, 0);
    var history := History(sel.messages, sel.taskId, sel.metadata, agentText, env.uuid, artifacts.1);
    var t := Completed(requestId, agentId, sel, reply, env).body.result;
    assert t.artifacts == artifacts.0 && t.history == history.0;
    assert t.status.message.messageId == env.uuid(history.1);
    assert forall a :: a in t.artifacts ==> exists i :: 0 <= i < artifacts.1 && a.artifactId == env.uuid(i);
    forall v | FromSupply(v, env.uuid, artifacts.1, history.1)
      ensures ApartFromTaskIds(v, t, sel)
    {
    }
    var n := |sel.messages|;
    forall k | 0 <= k < n && !Truthy(Prop(sel.messages[k], "messageId"))
      ensures ApartFromTaskIds(t.history[k].messageId, t, sel)
    {
      assert FromSupply(history.0[k].messageId, env.uuid, artifacts.1, history.1);
    }
    forall k | 0 <= k < n && !Truthy(Prop(sel.messages[k], "taskId")) && !Truthy(sel.taskId)
      ensures ApartFromTaskIds(t.history[k].taskId, t, sel)
    {
      assert FromSupply(history.0[k].taskId, env.uuid, artifacts.1, history.1);
    }
  }

  /** On an object body, the handler reads `jsonrpc`, `id` and the selection
      made from `params`, and nothing else of the body. */
  lemma HandleOfObject(fields: map<string, Value>, agentId: string, env: Env)
    ensures var b := Obj(fields);
      Handle(Ok(b), agentId, env)
        == if ValidEnvelope(b) then Dispatch(Prop(b, "id"), agentId, Select(Prop(b, "params")), env)
           else InvalidRequest(Or(Prop(b, "id"), Null))
  {
  }

  /** The params are read only through the message selection: two requests
      that differ only in params with the same selection get the same
      response. */
  lemma ParamsMatterOnlyThroughSelection(fields: map<string, Value>, params: Value, otherParams: Value,
                                         agentId: string, env: Env)
    requires Select(params) == Select(otherParams)
    ensures Handle(Ok(Obj(fields["params" := params])), agentId, env)
         == Handle(Ok(Obj(fields["params" := otherParams])), agentId, env)
  {
    var b1, b2 := Obj(fields["params" := params]), Obj(fields["params" := otherParams]);
    assert Prop(b1, "params") == params && Prop(b2, "params") == otherParams;
    assert Prop(b1, "id") == Prop(b2, "id") && Prop(b1, "jsonrpc") == Prop(b2, "jsonrpc");
    HandleOfObject(fields["params" := params], agentId, env);
    HandleOfObject(fields["params" := otherParams], agentId, env);
  }

  /** Message selection does not look at `configuration`. */
  lemma SelectionIgnoresConfiguration(params: map<string, Value>, configuration: Value)
    ensures Select(Obj(params["configuration" := configuration])) == Select(Obj(params - {"configuration"}))
  {
    var with := Obj(params["configuration" := configuration]);
    var without := Obj(params - {"configuration"});
    forall key | key != "configuration" ensures Prop(with, key) == Prop(without, key) { }
  }

  /** The configuration is read only to log a webhook request (non-blocking
      with a push URL), which is not acted on: whatever `configuration` says,
      the response is the one for the same params without it. */
  lemma ConfigurationIgnored(fields: map<string, Value>, params: map<string, Value>, configuration: Value,
                             agentId: string, env: Env)
    ensures Handle(Ok(Obj(fields["params" := Obj(params["configuration" := configuration])])), agentId, env)
         == Handle(Ok(Obj(fields["params" := Obj(params - {"configuration"})])), agentId, env)
  {
    SelectionIgnoresConfiguration(params, configuration);
    ParamsMatterOnlyThroughSelection(fields, Obj(params["configuration" := configuration]),
                                     Obj(params - {"configuration"}), agentId, env);
  }

  /** The envelope is checked before anything else: with an invalid envelope
      the response depends neither on the agent named nor on any collaborator. */
  lemma EnvelopeCheckedFirst(body: Result<Value>, agentId: string, env: Env, otherAgentId: string, otherEnv: Env)
    requires Readable(body) && !ValidEnvelope(body.value)
    ensures Handle(body, agentId, env) == Handle(body, otherAgentId, otherEnv)
  {
  }

  /** The agent is resolved before the params are looked at: for an unknown
      agent the response is the same whatever the params hold. */
  lemma AgentResolvedBeforeParams(fields: map<string, Value>, params: Value, otherParams: Value, agentId: string, env: Env)
    requires env.registry(agentId).NotFound?
    ensures Handle(Ok(Obj(fields["params" := params])), agentId, env)
         == Handle(Ok(Obj(fields["params" := otherParams])), agentId, env)
  {
    var b1, b2 := Obj(fields["params" := params]), Obj(fields["params" := otherParams]);
    assert Prop(b1, "id") == Prop(b2, "id") && Prop(b1, "jsonrpc") == Prop(b2, "jsonrpc");
    HandleOfObject(fields["params" := params], agentId, env);
    HandleOfObject(fields["params" := otherParams], agentId, env);
  }

  /** A singular message wins over a `messages` array supplied beside it. */
  lemma MessageTakesPrecedence(params: map<string, Value>, message: Value, messages: seq<Value>)
    requires Truthy(message)
    ensures var sel := Select(Obj(params["message" := message]["messages" := Arr(messages)]));
      sel.Some? && sel.value.messages == [message]
  {
  }
}

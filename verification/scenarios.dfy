/** What the handler model gives for concrete requests. */
module Scenarios {
  import opened JsValue
  import opened A2A
  import opened Flatten
  import opened Route

  /** `{kind: "text", text: "What's the weather in Paris?"}` */
  function WeatherPart(): Value {
    Obj(map["kind" := Str("text"), "text" := Str("What's the weather in Paris?")])
  }

  /** `{role: "user", parts: [WeatherPart()]}` */
  function WeatherMessage(): Value {
    Obj(map["role" := Str("user"), "parts" := Arr([WeatherPart()])])
  }

  /** `{jsonrpc, id, method: "message/send", params: {message: WeatherMessage()}}` */
  function WeatherRequest(jsonrpc: string, id: Value): Value {
    Obj(map[
      "jsonrpc" := Str(jsonrpc),
      "id" := id,
      "method" := Str("message/send"),
      "params" := Obj(map["message" := WeatherMessage()])])
  }

  /** The fields of the weather request the handler reads. */
  lemma WeatherRequestFields(jsonrpc: string, id: Value)
    ensures Prop(WeatherRequest(jsonrpc, id), "jsonrpc") == Str(jsonrpc)
    ensures Prop(WeatherRequest(jsonrpc, id), "id") == id
    ensures Prop(WeatherRequest(jsonrpc, id), "params") == Obj(map["message" := WeatherMessage()])
  {
  }

  /** The weather question, as the agent receives it. */
  function WeatherChat(): seq<ChatMessage> {
    [ChatMessage(Str("user"), "What's the weather in Paris?")]
  }

  /** The question reaches the agent as one user message holding the text
      part's text; a known agent that answers yields a completed task whose
      first artifact starts with a text part. */
  lemma WeatherQuestionCompletes(env: Env)
    requires env.registry("weatherAgent").Found?
    requires env.generate("weatherAgent", WeatherChat()).Ok?
    ensures var resp := Handle(Ok(WeatherRequest("2.0", Num(1.0))), "weatherAgent", env);
      && resp.status == 200
      && resp.body.id == Num(1.0)
      && resp.body.result.kind == "task"
      && resp.body.result.status.state == "completed"
      && resp.body.result.artifacts[0].parts[0].Kind() == "text"
      && |resp.body.result.history| == 2
  {
    var body := Ok(WeatherRequest("2.0", Num(1.0)));
    WeatherRequestFields("2.0", Num(1.0));
    WeatherQuestionReachesAgent(env);
    var sel := Select(Prop(body.value, "params")).value;
    assert Succeeds(body, "weatherAgent", env);
    SuccessExactlyWhenAllStepsSucceed(body, "weatherAgent", env);
    var reply := env.generate("weatherAgent", WeatherChat()).value;
    assert Handle(body, "weatherAgent", env) == Completed(Num(1.0), "weatherAgent", sel, reply, env);
    CompletedEnvelope(Num(1.0), "weatherAgent", sel, reply, env);
    CompletedArtifacts(Num(1.0), "weatherAgent", sel, reply, env);
    CompletedHistory(Num(1.0), "weatherAgent", sel, reply, env);
  }

  /** The same request for an agent the registry does not know. */
  lemma UnknownAgentIsNotFound(env: Env)
    requires env.registry("ghost").NotFound?
    ensures var resp := Handle(Ok(WeatherRequest("2.0", Num(1.0))), "ghost", env);
      resp.status == 404 && resp.body.error.code == INVALID_PARAMS && resp.body.id == Num(1.0)
  {
    WeatherRequestFields("2.0", Num(1.0));
    assert Handle(Ok(WeatherRequest("2.0", Num(1.0))), "ghost", env) == AgentNotFound(Num(1.0), "ghost");
  }

  /** A request that names version "1.0" is rejected with a message saying
      that "2.0" is required. */
  lemma OldVersionIsInvalid(agentId: string, env: Env)
    ensures var resp := Handle(Ok(WeatherRequest("1.0", Num(1.0))), agentId, env);
      && resp.status == 400
      && resp.body.error.code == INVALID_REQUEST
      && resp.body.error.message == "Invalid Request: jsonrpc must be \"2.0\" and id is required"
      && resp.body.id == Num(1.0)
  {
    WeatherRequestFields("1.0", Num(1.0));
    assert Str("1.0") != Str("2.0") by { assert "1.0"[0] != "2.0"[0]; }
    assert Handle(Ok(WeatherRequest("1.0", Num(1.0))), agentId, env) == InvalidRequest(Num(1.0));
  }

  /** An id of 0 is falsy, so it is rejected as missing and not echoed. */
  lemma ZeroIdIsInvalid(agentId: string, env: Env)
    ensures var resp := Handle(Ok(WeatherRequest("2.0", Num(0.0))), agentId, env);
      resp.status == 400 && resp.body.error.code == INVALID_REQUEST && resp.body.id == Null
  {
    WeatherRequestFields("2.0", Num(0.0));
  }

  /** An agent that throws yields an internal error carrying its message, and
      the request id is not echoed. */
  lemma AgentFailureIsInternalError(env: Env, failure: string)
    requires env.registry("weatherAgent").Found?
    requires env.generate("weatherAgent", WeatherChat()) == Throw(failure)
    ensures var resp := Handle(Ok(WeatherRequest("2.0", Num(1.0))), "weatherAgent", env);
      && resp.status == 500
      && resp.body.error.code == INTERNAL_ERROR
      && resp.body.error.details == Some(failure)
      && resp.body.id == Null
  {
    var body := Ok(WeatherRequest("2.0", Num(1.0)));
    WeatherRequestFields("2.0", Num(1.0));
    WeatherQuestionReachesAgent(env);
    assert Readable(body) && ValidEnvelope(body.value);
    var sel := Select(Prop(body.value, "params"));
    assert sel.Some? && ChatMessages(sel.value.messages, env) == Ok(WeatherChat());
    assert Handle(body, "weatherAgent", env) == Dispatch(Num(1.0), "weatherAgent", sel, env);
  }

  /** A text part whose `text` is an object with its own `toString` key:
      `join` cannot turn it into a string, so flattening throws, and the
      request ends in the catch-all. */
  lemma ObjectTextCannotBeJoined(env: Env)
    ensures var part := Obj(map["kind" := Str("text"), "text" := Obj(map["toString" := Num(0.0)])]);
      Content(Arr([part]), env) == Throw(ToPrimitiveError)
  {
    var part := Obj(map["kind" := Str("text"), "text" := Obj(map["toString" := Num(0.0)])]);
    assert Prop(part, "kind") == Str("text");
    assert !Renders(part);
  }

  /** The weather message flattens to the question as one user message. */
  lemma WeatherMessageFlattens(env: Env)
    ensures FlattenMessage(WeatherMessage(), env) == Ok(WeatherChat()[0])
  {
    var message := WeatherMessage();
    var part := WeatherPart();
    assert Prop(message, "parts") == Arr([part]);
    assert Prop(part, "kind") == Str("text") && Prop(part, "text") == Str("What's the weather in Paris?");
    assert Contribution(part, env) == "What's the weather in Paris?";
    assert Renders(part);
    assert Content(Arr([part]), env) == Ok("What's the weather in Paris?");
    assert Prop(message, "role") == Str("user");
  }

  /** What the agent receives for the weather request. */
  lemma WeatherQuestionReachesAgent(env: Env)
    ensures Select(Prop(WeatherRequest("2.0", Num(1.0)), "params")).Some?
    ensures ChatMessages(Select(Prop(WeatherRequest("2.0", Num(1.0)), "params")).value.messages, env) == Ok(WeatherChat())
  {
    WeatherRequestFields("2.0", Num(1.0));
    var params := Obj(map["message" := WeatherMessage()]);
    var message := WeatherMessage();
    assert Prop(params, "message") == message;
    assert Select(params).value.messages == [message];
    WeatherMessageFlattens(env);
    assert [message][1..] == [];
    assert ChatMessages([], env) == Ok([]);
    assert ChatMessages([message], env) == Ok([WeatherChat()[0]] + []);
    assert [WeatherChat()[0]] + [] == WeatherChat();
  }
}

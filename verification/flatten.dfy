/** Flattening the selected A2A messages into the role/content pairs handed to
    the agent's `generate` (the `mastraMessages` of the route). */
module Flatten {
  import opened JsValue
  import opened A2A

  /** The `map` callback's value on a part that is not null or undefined: a
      text part gives its `text`, a data part the JSON text of its `data`
      (`undefined` when `data` is absent, since `JSON.stringify(undefined)` is
      `undefined`), any other kind the empty string. `join` can render it
      unless it is a text part's `text` holding an own `toString` key. */
  function Mapped(part: Value, env: Env): (v: Value)
    ensures Renderable(v) <==> Renders(part)
  {
    var kind := Prop(part, "kind");
    if kind == Str("text") then Prop(part, "text")
    else if kind == Str("data") then
      (var data := Prop(part, "data"); if data.Undefined? then Undefined else Str(env.stringify(data)))
    else Str("")
  }

  /** `join` can render what the callback returns for `part`. */
  predicate Renders(part: Value) {
    Prop(part, "kind") == Str("text") ==> Renderable(Prop(part, "text"))
  }

  /** What a part contributes to the joined text: the callback's value as
      `join` renders it. */
  function Contribution(part: Value, env: Env): string {
    JoinPiece(Mapped(part, env), env.numberText)
  }

  /** Part by part: a text part contributes its text (nothing when it is absent
      or null), a data part the JSON text of its `data` (nothing when `data` is
      absent), and a part of any other kind nothing. */
  lemma ContributionByKind(part: Value, env: Env)
    ensures Prop(part, "kind") == Str("text") && Prop(part, "text").Str? ==> Contribution(part, env) == Prop(part, "text").s
    ensures Prop(part, "kind") == Str("text") && Nullish(Prop(part, "text")) ==> Contribution(part, env) == ""
    ensures Prop(part, "kind") == Str("data") && Prop(part, "data").Undefined? ==> Contribution(part, env) == ""
    ensures Prop(part, "kind") == Str("data") && !Prop(part, "data").Undefined? ==>
      Contribution(part, env) == env.stringify(Prop(part, "data"))
    ensures Prop(part, "kind") != Str("text") && Prop(part, "kind") != Str("data") ==> Contribution(part, env) == ""
  {
  }

  /** The `map` callback on one part: reading `kind` of a null part throws. */
  function PartText(part: Value, env: Env): Result<string> {
    match Get(part, "kind")
    case Throw(m) => Throw(m)
    case Ok(_) => Ok(Contribution(part, env))
  }

  /** `parts.map(callback)`: the first part that throws ends the map. */
  function Pieces(parts: seq<Value>, env: Env): (r: Result<seq<string>>)
    ensures r.Ok? <==> forall k :: 0 <= k < |parts| ==> !Nullish(parts[k])
    ensures r.Ok? ==> |r.value| == |parts|
    ensures r.Ok? ==> forall k :: 0 <= k < |parts| ==> r.value[k] == Contribution(parts[k], env)
  {
    if parts == [] then Ok([])
    else
      match PartText(parts[0], env)
      case Throw(m) => Throw(m)
      case Ok(t) =>
        match Pieces(parts[1..], env)
        case Throw(m) => Throw(m)
        case Ok(ts) => Ok([t] + ts)
  }

  /** `msg.parts?.map(callback).join('\n') || ''`. The trailing `|| ''` only
      matters when `?.` short-circuits to `undefined`; a value that is neither
      nullish nor an array has no `map` to call; `join` runs after the whole
      `map` and throws on a value it cannot render. */
  function Content(parts: Value, env: Env): (r: Result<string>)
    ensures Nullish(parts) ==> r == Ok("")
    ensures !Nullish(parts) && !parts.Arr? ==> r.Throw?
    ensures parts.Arr? ==> (r.Ok? <==> forall k :: 0 <= k < |parts.items| ==> !Nullish(parts.items[k]) && Renders(parts.items[k]))
    ensures parts.Arr? && (forall k :: 0 <= k < |parts.items| ==> !Nullish(parts.items[k]))
                       && (exists k :: 0 <= k < |parts.items| && !Renders(parts.items[k]))
            ==> r == Throw(ToPrimitiveError)
    ensures parts.Arr? && r.Ok? ==>
      r.value == Join(seq(|parts.items|, k requires 0 <= k < |parts.items| => Contribution(parts.items[k], env)), "\n")
  {
    match parts
    case Undefined => Ok("")
    case Null => Ok("")
    case Arr(items) =>
      (match Pieces(items, env)
       case Throw(m) => Throw(m)
       case Ok(pieces) =>
         assert pieces == seq(|items|, k requires 0 <= k < |items| => Contribution(items[k], env));
         if forall k :: 0 <= k < |items| ==> Renders(items[k]) then Ok(Join(pieces, "\n"))
         else Throw(ToPrimitiveError))
    case _ => Throw("msg.parts?.map is not a function")
  }

  /** A message the `map` over the selected messages gets through: it is
      neither null nor undefined, and its `parts` is absent, null, or an array
      whose every element is neither null nor undefined and renders. */
  predicate Flattenable(msg: Value) {
    && !Nullish(msg)
    && var parts := Prop(msg, "parts");
       Nullish(parts) || (parts.Arr? && forall k :: 0 <= k < |parts.items| ==> !Nullish(parts.items[k]) && Renders(parts.items[k]))
  }

  /** The `map` callback on one message: `{role: msg.role, content: ...}`. */
  function FlattenMessage(msg: Value, env: Env): Result<ChatMessage> {
    match Get(msg, "role")
    case Throw(m) => Throw(m)
    case Ok(role) =>
      match Content(Prop(msg, "parts"), env)
      case Throw(m) => Throw(m)
      case Ok(c) => Ok(ChatMessage(role, c))
  }

  /** `messagesList.map(...)`: one chat message per selected message, in order,
      or the error of the first message that cannot be flattened. */
  function ChatMessages(msgs: seq<Value>, env: Env): (r: Result<seq<ChatMessage>>)
    ensures r.Ok? <==> forall k :: 0 <= k < |msgs| ==> Flattenable(msgs[k])
    ensures r.Ok? ==> |r.value| == |msgs|
    ensures r.Ok? ==> forall k :: 0 <= k < |msgs| ==>
      r.value[k].role == Prop(msgs[k], "role") && Content(Prop(msgs[k], "parts"), env) == Ok(r.value[k].content)
  {
    if msgs == [] then Ok([])
    else
      match FlattenMessage(msgs[0], env)
      case Throw(m) => Throw(m)
      case Ok(c) =>
        match ChatMessages(msgs[1..], env)
        case Throw(m) => Throw(m)
        case Ok(cs) => Ok([c] + cs)
  }

  /** The flattened content keeps every part, in order: when no part's
      contribution contains a newline, splitting the content on newlines gives
      the contributions back one by one. */
  lemma ContentSplitsBack(items: seq<Value>, env: Env)
    requires items != []
    requires forall k :: 0 <= k < |items| ==> !Nullish(items[k]) && Renders(items[k]) && '\n' !in Contribution(items[k], env)
    ensures Content(Arr(items), env).Ok?
    ensures Split(Content(Arr(items), env).value, '\n') ==
            seq(|items|, k requires 0 <= k < |items| => Contribution(items[k], env))
  {
    var pieces := seq(|items|, k requires 0 <= k < |items| => Contribution(items[k], env));
    SplitJoin(pieces, '\n');
  }

  /** Flattening a part list that is the concatenation of two non-empty lists
      joins the two flattenings with one newline. */
  lemma ContentAppend(p: seq<Value>, q: seq<Value>, env: Env)
    requires p != [] && q != []
    requires forall k :: 0 <= k < |p| ==> !Nullish(p[k]) && Renders(p[k])
    requires forall k :: 0 <= k < |q| ==> !Nullish(q[k]) && Renders(q[k])
    ensures Content(Arr(p + q), env).Ok?
    ensures Content(Arr(p + q), env).value == Content(Arr(p), env).value + "\n" + Content(Arr(q), env).value
  {
    var pp := seq(|p|, k requires 0 <= k < |p| => Contribution(p[k], env));
    var qq := seq(|q|, k requires 0 <= k < |q| => Contribution(q[k], env));
    var pq := p + q;
    assert forall k :: 0 <= k < |pq| ==> !Nullish(pq[k]) && Renders(pq[k]) by {
      forall k | 0 <= k < |pq| ensures !Nullish(pq[k]) && Renders(pq[k]) {
        if k < |p| { assert pq[k] == p[k]; } else { assert pq[k] == q[k - |p|]; }
      }
    }
    assert seq(|pq|, k requires 0 <= k < |pq| => Contribution(pq[k], env)) == pp + qq;
    assert Content(Arr(pq), env) == Ok(Join(pp + qq, "\n"));
    assert Content(Arr(p), env) == Ok(Join(pp, "\n"));
    assert Content(Arr(q), env) == Ok(Join(qq, "\n"));
    JoinAppend(pp, qq, "\n");
  }
}

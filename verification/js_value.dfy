/** JavaScript values as the route handler sees them after `JSON.parse`, with the
    parts of JavaScript's semantics the handler relies on: truthiness, `||`,
    property reads, `Array.prototype.join` and `String.prototype.split`. */
module JsValue {

  datatype Option<T> = None | Some(value: T)

  /** A parsed JSON value; `Undefined` stands for a property that is absent.
      Numbers are exact reals: floating-point rounding is not modelled. */
  datatype Value =
    | Undefined
    | Null
    | Bool(b: bool)
    | Num(n: real)
    | Str(s: string)
    | Arr(items: seq<Value>)
    | Obj(fields: map<string, Value>)

  /** The completion of a JavaScript step: a value, or a thrown error with its `message`. */
  datatype Result<T> = Ok(value: T) | Throw(message: string)

  predicate Nullish(v: Value) {
    v.Undefined? || v.Null?
  }

  /** JavaScript truthiness: `undefined`, `null`, `false`, `0` and `""` are falsy. */
  predicate Truthy(v: Value) {
    match v
    case Undefined => false
    case Null => false
    case Bool(b) => b
    case Num(n) => n != 0.0
    case Str(s) => s != ""
    case Arr(_) => true
    case Obj(_) => true
  }

  /** `a || b` */
  function Or(a: Value, b: Value): Value {
    if Truthy(a) then a else b
  }

  /** `v.key` for a `v` that is neither null nor undefined. Only objects have own
      properties among the names the handler reads. */
  function Prop(v: Value, key: string): Value {
    if v.Obj? && key in v.fields then v.fields[key] else Undefined
  }

  /** The TypeError message of reading `key` from null or undefined. */
  function ReadError(v: Value, key: string): string {
    "Cannot read properties of " + (if v.Null? then "null" else "undefined") + " (reading '" + key + "')"
  }

  /** `v.key` in general: reading from null or undefined throws. */
  function Get(v: Value, key: string): (r: Result<Value>)
    ensures r.Throw? <==> Nullish(v)
    ensures r.Ok? ==> r.value == Prop(v, key)
  {
    if Nullish(v) then Throw(ReadError(v, key)) else Ok(Prop(v, key))
  }

  /** The total length of some strings. */
  function TotalLength(pieces: seq<string>): nat {
    if pieces == [] then 0 else |pieces[0]| + TotalLength(pieces[1..])
  }

  /** `pieces.join(sep)` on strings: the pieces in order, one separator between
      each two neighbours and none at either end. */
  function Join(pieces: seq<string>, sep: string): (r: string)
    ensures pieces == [] ==> r == ""
    ensures pieces != [] ==> pieces[0] <= r
    ensures |r| == TotalLength(pieces) + (if pieces == [] then 0 else (|pieces| - 1) * |sep|)
  {
    if |pieces| == 0 then ""
    else if |pieces| == 1 then pieces[0]
    else pieces[0] + sep + Join(pieces[1..], sep)
  }

  /** The text `join` renders for one element: nothing for null and undefined,
      `String(v)` otherwise (for a `Renderable` value; otherwise `join` throws). `numberText` is JavaScript's Number-to-String
      conversion, which this model does not spell out. */
  function JoinPiece(v: Value, numberText: real -> string): string
    decreases v
  {
    match v
    case Undefined => ""
    case Null => ""
    case Bool(b) => if b then "true" else "false"
    case Num(n) => numberText(n)
    case Str(s) => s
    case Arr(items) => Join(seq(|items|, i requires 0 <= i < |items| => JoinPiece(items[i], numberText)), ",")
    case Obj(_) => "[object Object]"
  }

  /** Whether `join` can render `v`. `String(v)` on an object calls its
      `toString`, then its `valueOf`; a parsed object always inherits a
      `valueOf` that returns the object itself, so when an own `toString` key
      shadows the inherited method with a value that cannot be called, no
      primitive comes out and `join` throws. An array renders its elements the
      same way, and an object's own fields are never looked at otherwise. */
  predicate Renderable(v: Value)
    decreases v
  {
    match v
    case Arr(items) => forall i :: 0 <= i < |items| ==> Renderable(items[i])
    case Obj(fields) => "toString" !in fields
    case _ => true
  }

  /** The TypeError message of `String(v)` on a value that is not `Renderable`. */
  const ToPrimitiveError: string := "Cannot convert object to primitive value"

  /** `s.split(sep)` for a one-character separator: never empty, one more piece
      than there are separators. */
  function Split(s: string, sep: char): (r: seq<string>)
    ensures |r| >= 1
    ensures forall k :: 0 <= k < |r| ==> sep !in r[k]
  {
    if s == [] then [""]
    else
      var rest := Split(s[1..], sep);
      if s[0] == sep then [""] + rest else [[s[0]] + rest[0]] + rest[1..]
  }

  /** Joining two non-empty lists is joining each and putting one separator between. */
  lemma {:induction false} JoinAppend(a: seq<string>, b: seq<string>, sep: string)
    requires a != [] && b != []
    ensures Join(a + b, sep) == Join(a, sep) + sep + Join(b, sep)
  {
    if |a| == 1 {
      assert (a + b)[1..] == b;
    } else {
      assert (a + b)[1..] == a[1..] + b;
      JoinAppend(a[1..], b, sep);
    }
  }

  /** A string without the separator splits into itself. */
  lemma {:induction false} SplitWithoutSeparator(s: string, sep: char)
    requires sep !in s
    ensures Split(s, sep) == [s]
  {
    if s != [] {
      SplitWithoutSeparator(s[1..], sep);
      assert [s[0]] + s[1..] == s;
    }
  }

  /** Splitting stops at the first separator. */
  lemma {:induction false} SplitAtSeparator(a: string, b: string, sep: char)
    requires sep !in a
    ensures Split(a + [sep] + b, sep) == [a] + Split(b, sep)
  {
    var s := a + [sep] + b;
    if a == [] {
      assert s[1..] == b;
    } else {
      assert s[1..] == a[1..] + [sep] + b;
      SplitAtSeparator(a[1..], b, sep);
      assert [a[0]] + a[1..] == a;
    }
  }

  /** Joining with a one-character separator that no piece contains is undone by
      splitting on it. */
  lemma {:induction false} SplitJoin(pieces: seq<string>, sep: char)
    requires pieces != []
    requires forall k :: 0 <= k < |pieces| ==> sep !in pieces[k]
    ensures Split(Join(pieces, [sep]), sep) == pieces
  {
    if |pieces| == 1 {
      SplitWithoutSeparator(pieces[0], sep);
    } else {
      SplitJoin(pieces[1..], sep);
      SplitAtSeparator(pieces[0], Join(pieces[1..], [sep]), sep);
      assert [pieces[0]] + pieces[1..] == pieces;
    }
  }
}

/**
 * JSON values as the services see them after `express.json()` or
 * `JSON.parse`, and the text they are carried in on the wire and in the
 * cache. `JSON.stringify`/`JSON.parse` are kept abstract: text is either the
 * serialisation of a value or characters that are not JSON at all.
 */
module Json {
  import opened Wrappers

  datatype Value =
    | Null
    | Bool(b: bool)
    | Num(n: int)
    | Str(s: string)
    | Arr(items: seq<Value>)
    | Obj(fields: map<string, Value>)

  /** A string holding JSON text, or holding text that does not parse. */
  datatype Text = Encoded(value: Value) | Raw(chars: string)

  function Stringify(v: Value): (t: Text)
    ensures Parse(t) == Some(v)
  {
    Encoded(v)
  }

  /** `JSON.parse`: None stands for the SyntaxError it throws. */
  function Parse(t: Text): Option<Value> {
    match t
    case Encoded(v) => Some(v)
    case Raw(_) => None
  }

  /** A string is falsy in JavaScript only when it is empty; JSON text never is. */
  predicate TextTruthy(t: Text) {
    t != Raw("")
  }

  /** `v.key`: None stands for `undefined` (no such key, or `v` is no object). */
  function Get(v: Value, key: string): (r: Option<Value>)
    ensures r.Some? <==> v.Obj? && key in v.fields
  {
    if v.Obj? && key in v.fields then Some(v.fields[key]) else None
  }

  /** The strings of an array value, in order; anything else gives none. */
  function Strings(v: Value): seq<string> {
    if v.Arr? then StringItems(v.items) else []
  }

  function StringItems(items: seq<Value>): (r: seq<string>)
    ensures |r| <= |items|
    ensures forall s :: s in r <==> Str(s) in items
  {
    if items == [] then []
    else (if items[0].Str? then [items[0].s] else []) + StringItems(items[1..])
  }

  function StrArr(ss: seq<string>): (v: Value)
    ensures Strings(v) == ss
  {
    if ss == [] then Arr([])
    else
      var rest := StrArr(ss[1..]);
      assert rest.items == rest.items[..];
      Arr([Str(ss[0])] + rest.items)
  }
}

/** The part of an Express response the handlers decide: status and JSON body. */
module Http {
  import opened Json

  datatype Response = Response(status: nat, body: Value)

  /** `res.status(status).json({success, message})`. */
  function Reply(status: nat, success: bool, message: string): (r: Response)
    ensures r.status == status
  {
    Response(status, Obj(map["success" := Bool(success), "message" := Str(message)]))
  }
}

/**
 * JSON values as Python's `json.loads` produces them, with Python's notion
 * of truthiness, and the JSON-RPC envelopes the bridge builds.
 *
 * `json.loads` itself is not modelled: every operation that parses takes a
 * `Parser` argument, an arbitrary total function from text to either a value
 * or the text of the decoding error. Every property proved here therefore
 * holds whatever the parser does.
 */
module Json {

  datatype Option<+T> = None | Some(value: T)

  /** A success value, or the message of the exception that was raised. */
  datatype Result<+T> = Ok(value: T) | Err(msg: string) {
    function ToOption(): (o: Option<T>)
      ensures o.Some? <==> Ok?
      ensures Ok? ==> o.value == value
    {
      match this
      case Ok(v) => Some(v)
      case Err(_) => None
    }
  }

  /** `dict` is an unordered map here: key order never matters to the code modelled. */
  datatype Json =
    | JNull
    | JBool(b: bool)
    | JInt(i: int)
    | JReal(r: real)
    | JStr(s: string)
    | JArr(items: seq<Json>)
    | JObj(fields: map<string, Json>)

  /** `json.loads`: a value, or the `JSONDecodeError` message. */
  type Parser = string -> Result<Json>

  /** Python's `bool(v)` for a decoded JSON value. */
  predicate Truthy(v: Json) {
    match v
    case JNull => false
    case JBool(b) => b
    case JInt(i) => i != 0
    case JReal(r) => r != 0.0
    case JStr(s) => s != ""
    case JArr(items) => items != []
    case JObj(fields) => fields != map[]
  }

  /** Python's `type(v).__name__` for a decoded JSON value. */
  function TypeName(v: Json): string {
    match v
    case JNull => "NoneType"
    case JBool(_) => "bool"
    case JInt(_) => "int"
    case JReal(_) => "float"
    case JStr(_) => "str"
    case JArr(_) => "list"
    case JObj(_) => "dict"
  }

  /** `d.get(key)` on a dict; `None` (JSON null) when the key is missing. */
  function Get(fields: map<string, Json>, key: string): (v: Json)
    ensures key !in fields ==> v == JNull
    ensures key in fields ==> v == fields[key]
  {
    if key in fields then fields[key] else JNull
  }

  /** The JSON-RPC error object `{"jsonrpc": "2.0", "id": id, "error": {"code": code, "message": message}}`. */
  function ErrorResponse(id: Json, code: int, message: string): (r: Json)
    ensures r.JObj? && Truthy(r)
    ensures Get(r.fields, "id") == id
    ensures Get(r.fields, "jsonrpc") == JStr("2.0")
    ensures Get(r.fields, "error").JObj?
    ensures Get(Get(r.fields, "error").fields, "code") == JInt(code)
    ensures Get(Get(r.fields, "error").fields, "message") == JStr(message)
    ensures "result" !in r.fields
  {
    var fields := map[
      "jsonrpc" := JStr("2.0"),
      "id" := id,
      "error" := JObj(map["code" := JInt(code), "message" := JStr(message)])
    ];
    assert "id" in fields;
    JObj(fields)
  }

  /**
   * The value of the first candidate that parses, trying them in order:
   * `for m in candidates: try: return json.loads(m) except JSONDecodeError: continue`.
   */
  function FirstParsed(candidates: seq<string>, loads: Parser): (r: Option<Json>)
    ensures r.None? <==> forall i | 0 <= i < |candidates| :: loads(candidates[i]).Err?
    ensures r.Some? ==> exists i | 0 <= i < |candidates| ::
      loads(candidates[i]) == Ok(r.value) && forall j | 0 <= j < i :: loads(candidates[j]).Err?
  {
    if candidates == [] then None
    else match loads(candidates[0])
      case Ok(v) => Some(v)
      case Err(_) =>
        var r := FirstParsed(candidates[1..], loads);
        assert forall i | 0 <= i < |candidates| - 1 :: candidates[1..][i] == candidates[i + 1];
        r
  }

  /** Trying two lists of candidates one after the other is trying their concatenation. */
  lemma {:induction false} FirstParsedAppend(a: seq<string>, b: seq<string>, loads: Parser)
    ensures FirstParsed(a + b, loads) == if FirstParsed(a, loads).Some? then FirstParsed(a, loads) else FirstParsed(b, loads)
  {
    if a != [] {
      assert (a + b)[0] == a[0];
      assert (a + b)[1..] == a[1..] + b;
      FirstParsedAppend(a[1..], b, loads);
    } else {
      assert a + b == b;
    }
  }
}

/**
 * Parsed JSON values, and the two languages' readings of them: JavaScript's
 * truthiness, property access (a TypeError on `undefined` and `null`) and
 * string conversion, and Python's truthiness.
 */
module Json {
  import opened Wrappers
  import opened Strings

  datatype Json =
    | JNull
    | JBool(b: bool)
    | JNum(n: int)
    | JStr(s: string)
    | JArr(items: seq<Json>)
    | JObj(fields: map<string, Json>)

  /** Truthiness of an optional string argument, the same in JavaScript and Python: absent or empty is false. */
  predicate Truthy(s: Option<string>) { s.Some? && s.value != "" }

  /** `a || b` in JavaScript, `a or b` in Python, on optional strings. */
  function OrElse(a: Option<string>, b: Option<string>): (r: Option<string>)
    ensures Truthy(r) <==> Truthy(a) || Truthy(b)
    ensures Truthy(a) ==> r == a
  {
    if Truthy(a) then a else b
  }

  /** `a || "literal"` and `a or "literal"`. */
  function OrDefault(a: Option<string>, d: string): (r: string)
    ensures Truthy(a) ==> Some(r) == a
    ensures !Truthy(a) ==> r == d
  {
    if Truthy(a) then a.value else d
  }

  /** JavaScript truthiness of a value read from JSON; `None` stands for `undefined`. */
  predicate JsTruthy(v: Option<Json>) {
    match v
    case None => false
    case Some(JNull) => false
    case Some(JBool(b)) => b
    case Some(JNum(n)) => n != 0
    case Some(JStr(s)) => s != ""
    case Some(_) => true
  }

  /** Python truthiness: `None`, `False`, `0`, empty strings, lists and dicts are false. */
  predicate PyTruthy(v: Json) {
    match v
    case JNull => false
    case JBool(b) => b
    case JNum(n) => n != 0
    case JStr(s) => s != ""
    case JArr(items) => |items| > 0
    case JObj(fields) => |fields| > 0
  }

  /** The TypeError message of the V8 engine for reading `key` from `undefined` or `null`. */
  function ReadError(v: Option<Json>, key: string): string
  {
    "Cannot read properties of " + (if v == None then "undefined" else "null") + " (reading '" + key + "')"
  }

  /**
   * `v.key` in JavaScript: a TypeError on `undefined` and `null`; an own key of an
   * object, or the `length` of an array or string; `undefined` otherwise.
   */
  function JsGet(v: Option<Json>, key: string): (r: Result<Option<Json>, string>)
    ensures r.Failure? <==> (v == None || v == Some(JNull))
    ensures r.Failure? ==> r.error == ReadError(v, key)
    ensures (v.Some? && v.value.JObj?) ==>
      r == Success(if key in v.value.fields then Some(v.value.fields[key]) else None)
  {
    match v
    case None => Failure(ReadError(v, key))
    case Some(JNull) => Failure(ReadError(v, key))
    case Some(JObj(f)) => Success(if key in f then Some(f[key]) else None)
    case Some(JArr(items)) => Success(if key == "length" then Some(JNum(|items|)) else None)
    case Some(JStr(s)) => Success(if key == "length" then Some(JNum(|s|)) else None)
    case Some(_) => Success(None)
  }

  /** `v[i]` in JavaScript for a numeric index. */
  function JsIndex(v: Option<Json>, i: nat): (r: Result<Option<Json>, string>)
    ensures r.Failure? <==> (v == None || v == Some(JNull))
    ensures (v.Some? && v.value.JArr?) ==>
      r == Success(if i < |v.value.items| then Some(v.value.items[i]) else None)
  {
    match v
    case None => Failure(ReadError(v, NatToString(i)))
    case Some(JNull) => Failure(ReadError(v, NatToString(i)))
    case Some(JArr(items)) => Success(if i < |items| then Some(items[i]) else None)
    case Some(JStr(s)) => Success(if i < |s| then Some(JStr([s[i]])) else None)
    case Some(JObj(f)) =>
      var k := NatToString(i);
      Success(if k in f then Some(f[k]) else None)
    case Some(_) => Success(None)
  }

  /** `a?.key` in JavaScript: `undefined` instead of a TypeError. */
  function JsOptGet(v: Option<Json>, key: string): Option<Json>
  {
    match JsGet(v, key)
    case Success(x) => x
    case Failure(_) => None
  }

  /** `String(v)`, as a template literal converts a value read from JSON. */
  function JsToString(v: Option<Json>): string
  {
    match v
    case None => "undefined"
    case Some(j) => JsonToString(j)
  }

  function JsonToString(j: Json): string
    decreases j
  {
    match j
    case JNull => "null"
    case JBool(b) => if b then "true" else "false"
    case JNum(n) => IntToString(n)
    case JStr(s) => s
    case JObj(_) => "[object Object]"
    case JArr(items) =>
      Join(seq(|items|, i requires 0 <= i < |items| => if items[i] == JNull then "" else JsonToString(items[i])), ",")
  }
}

/** The values a response's `data` can hold once axios has parsed the body,
    with the two JavaScript coercions the client applies to them: truthiness
    (`||`, `&&`, `if (x)`) and `String(x)`, which `localStorage.setItem`
    applies to whatever it is given. Numbers are modelled as integers. */
module Json {
  import opened Wrappers
  import JsText

  datatype Json =
    | JNull
    | JBool(b: bool)
    | JNum(n: int)
    | JStr(s: string)
    | JArr(items: seq<Json>)
    | JObj(fields: map<string, Json>)

  /** JavaScript truthiness: null, false, 0 and "" are falsy, every array and
      every object (even an empty one) is truthy */
  predicate Truthy(v: Json) {
    match v
    case JNull => false
    case JBool(b) => b
    case JNum(n) => n != 0
    case JStr(s) => s != ""
    case JArr(_) => true
    case JObj(_) => true
  }

  /** `v.key` for a value that is not null: None stands for `undefined`.
      Only an object's own data properties are modelled. */
  function Property(v: Json, key: string): (r: Option<Json>)
    ensures r.Some? <==> v.JObj? && key in v.fields
  {
    if v.JObj? && key in v.fields then Some(v.fields[key]) else None
  }

  /** `String(v)` where None stands for `undefined` */
  function Stringify(v: Option<Json>): string {
    match v
    case None => "undefined"
    case Some(j) => ToJsString(j)
  }

  /** `String(j)` */
  function ToJsString(j: Json): string
    decreases j, 1
  {
    match j
    case JNull => "null"
    case JBool(b) => if b then "true" else "false"
    case JNum(n) => JsText.IntToString(n)
    case JStr(s) => s
    case JArr(items) => JoinItems(items, j)
    case JObj(_) => "[object Object]"
  }

  /** `Array.prototype.toString`: the items joined with commas, null items empty */
  function JoinItems(items: seq<Json>, ghost whole: Json): string
    requires forall i :: 0 <= i < |items| ==> items[i] < whole
    decreases whole, 0, |items|
  {
    if |items| == 0 then ""
    else
      var first := if items[0].JNull? then "" else ToJsString(items[0]);
      if |items| == 1 then first else first + "," + JoinItems(items[1..], whole)
  }

  /** A JSON object whose fields are the given strings */
  function StringObject(m: map<string, string>): (r: Json)
    ensures r.JObj? && r.fields.Keys == m.Keys
    ensures forall k :: k in m ==> r.fields[k] == JStr(m[k])
  {
    JObj(map k | k in m :: JStr(m[k]))
  }
}

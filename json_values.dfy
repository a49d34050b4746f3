// The values json.loads produces, with the Python operations the services
// apply to them: truthiness, dict.get and str().
module JsonValues {
  import opened Wrappers
  import Text

  /** A parsed JSON document. An object is the dict json.loads builds, its
    * entries in document order; JSON numbers with a fraction or exponent
    * are not modelled. */
  datatype Json =
    | JNull
    | JBool(b: bool)
    | JInt(i: int)
    | JStr(s: string)
    | JArray(items: seq<Json>)
    | JObject(fields: seq<(string, Json)>)

  /** bool(value). */
  predicate Truthy(j: Json) {
    match j
    case JNull => false
    case JBool(b) => b
    case JInt(i) => i != 0
    case JStr(s) => s != ""
    case JArray(items) => |items| > 0
    case JObject(fields) => |fields| > 0
  }

  /** dict.get(key) on an object's entries. */
  function Field(fields: seq<(string, Json)>, key: string): (r: Option<Json>)
    ensures r.Some? <==> exists k :: 0 <= k < |fields| && fields[k].0 == key
    ensures r.Some? ==> exists k :: 0 <= k < |fields| && fields[k] == (key, r.value)
  {
    if |fields| == 0 then None
    else if fields[0].0 == key then Some(fields[0].1)
    else
      var r := Field(fields[1..], key);
      assert forall k :: 0 < k < |fields| ==> fields[k] == fields[1..][k - 1];
      r
  }

  /** repr() of the parsed value (quotes inside strings are not escaped). */
  function Repr(j: Json): string
    decreases j, 1
  {
    match j
    case JStr(s) => "'" + s + "'"
    case _ => PyStr(j)
  }

  /** str() of the parsed value. */
  function PyStr(j: Json): string
    decreases j, 0
  {
    match j
    case JNull => "None"
    case JBool(b) => if b then "True" else "False"
    case JInt(i) => Text.IntToString(i)
    case JStr(s) => s
    case JArray(items) => "[" + Text.Join(", ", seq(|items|, k requires 0 <= k < |items| => Repr(items[k]))) + "]"
    case JObject(fields) =>
      "{" + Text.Join(", ", seq(|fields|, k requires 0 <= k < |fields| =>
                                  "'" + fields[k].0 + "': " + Repr(fields[k].1))) + "}"
  }

  /** int(value) on a parsed value: ints as they are, booleans as 1 and 0,
    * strings through int(); None for the TypeError and ValueError cases. */
  function AsInt(j: Json): (r: Option<int>)
    ensures j.JInt? ==> r == Some(j.i)
    ensures j.JNull? || j.JArray? || j.JObject? ==> r.None?
  {
    match j
    case JInt(i) => Some(i)
    case JBool(b) => Some(if b then 1 else 0)
    case JStr(s) => Text.ParseInt(s)
    case _ => None
  }
}

/** JSON-like values, as produced by `json.loads` and consumed by the
    marshmallow schemas. Objects are maps, so key order is not modelled. */
module Json {

  datatype Json =
    | JNull
    | JBool(b: bool)
    | JInt(i: int)
    | JString(s: string)
    | JArray(items: seq<Json>)
    | JObject(fields: map<string, Json>)

  /** What `for item in value` goes over: a list's items, a string's
      characters (each a one-character string), an object's keys (a set:
      the order of the keys is not modelled); any other value is not
      iterable and raises `TypeError`. */
  datatype Iteration = Items(items: seq<Json>) | Keys(keys: set<string>) | NotIterable

  function Iterate(j: Json): (r: Iteration)
    ensures r.Items? <==> j.JArray? || j.JString?
    ensures j.JArray? ==> r.items == j.items
    ensures j.JString? ==> |r.items| == |j.s| && forall i | 0 <= i < |j.s| :: r.items[i] == JString([j.s[i]])
    ensures r.Keys? <==> j.JObject?
    ensures r.Keys? ==> r.keys == j.fields.Keys
  {
    match j
    case JArray(items) => Items(items)
    case JString(s) => Items(seq(|s|, i requires 0 <= i < |s| => JString([s[i]])))
    case JObject(fields) => Keys(fields.Keys)
    case _ => NotIterable
  }
}

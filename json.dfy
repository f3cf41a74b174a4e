/** JSON values as the handlers build and read them. `JSON.stringify`,
    `JSON.parse` and their byte encodings stay outside the model: where the
    source serialises or parses, the model takes that step as a function
    parameter. Numbers are integers here; the source's floating-point amounts
    are only compared, never serialised by the modelled code. */
module Json {
  import opened Wrappers

  datatype Json =
    | JNull
    | JBool(b: bool)
    | JNumber(n: int)
    | JString(s: string)
    | JArray(items: seq<Json>)
    | JObject(fields: seq<(string, Json)>)

  /** Property access `obj[key]` on an object: the field with that key,
      or `None` for `undefined` (also on a non-object). Objects are assumed
      to have distinct keys, as every object the handlers build does; for
      a parsed body that repeats a key, `JSON.parse` keeps the last value
      while this takes the first. */
  function Field(j: Json, key: string): (r: Option<Json>)
    ensures r.Some? ==> j.JObject? && exists k | 0 <= k < |j.fields| :: j.fields[k] == (key, r.value)
    ensures r.None? ==> !j.JObject? || forall k | 0 <= k < |j.fields| :: j.fields[k].0 != key
  {
    if !j.JObject? then None else FirstField(j.fields, key)
  }

  function FirstField(fields: seq<(string, Json)>, key: string): (r: Option<Json>)
    ensures r.Some? ==> exists k | 0 <= k < |fields| :: fields[k] == (key, r.value)
    ensures r.None? ==> forall k | 0 <= k < |fields| :: fields[k].0 != key
  {
    if fields == [] then None
    else if fields[0].0 == key then Some(fields[0].1)
    else FirstField(fields[1..], key)
  }

  /** The keys of an object, in insertion order. */
  function Keys(fields: seq<(string, Json)>): (r: seq<string>)
    ensures |r| == |fields|
    ensures forall k | 0 <= k < |fields| :: r[k] == fields[k].0
  {
    seq(|fields|, k requires 0 <= k < |fields| => fields[k].0)
  }
}

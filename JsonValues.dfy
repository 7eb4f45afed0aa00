/** The part of JsonValue the core relies on: navigation that yields the null node, and typed reads that throw. */
module JsonValues {
  import opened Results
  import opened Exceptions

  datatype Json =
    | JNull
    | JBool(b: bool)
    | JNumber(n: int)
    | JString(s: string)
    | JArray(items: seq<Json>)
    | JObject(fields: map<string, Json>)

  /** get(key): the member of an object, and the null node for a missing key or a non-object. */
  function Get(j: Json, key: string): Json {
    if j.JObject? && key in j.fields then j.fields[key] else JNull
  }

  /** get(index): the element of an array, and the null node for an index out of range or a non-array. */
  function At(j: Json, index: nat): Json {
    if j.JArray? && index < |j.items| then j.items[index] else JNull
  }

  /** asString(): null for the null node, the text of a string, and an exception for anything else. */
  function AsString(j: Json): (r: Result<Option<string>, Thrown>)
    ensures r == Ok(None) <==> j == JNull
    ensures forall s :: r == Ok(Some(s)) <==> j == JString(s)
    ensures r.Err? ==> r.error == JsonValueError
  {
    match j
    case JNull => Ok(None)
    case JString(s) => Ok(Some(s))
    case _ => Err(JsonValueError)
  }

  /** required().asList(String.class): a list of strings, and an exception for null, a non-list or a non-string entry. */
  function RequiredStringList(j: Json): (r: Result<seq<string>, Thrown>)
    ensures r.Ok? <==> j.JArray? && forall i :: 0 <= i < |j.items| ==> j.items[i].JString?
    ensures r.Ok? ==> |r.value| == |j.items| && forall i :: 0 <= i < |j.items| ==> j.items[i] == JString(r.value[i])
  {
    if j.JArray? && forall i :: 0 <= i < |j.items| ==> j.items[i].JString? then
      Ok(seq(|j.items|, i requires 0 <= i < |j.items| => j.items[i].s))
    else
      Err(JsonValueError)
  }

  /** A one-member object { key: data }, the shape the clients wrap their payload in. */
  function Wrap(key: string, data: Json): Json {
    JObject(map[key := data])
  }

  /** Reading the wrapped payload back recovers it, and the wrapper has no other member. */
  lemma WrapUnwrap(key: string, data: Json)
    ensures Get(Wrap(key, data), key) == data
    ensures Wrap(key, data).fields.Keys == {key}
  {
  }

  /** String.valueOf / string concatenation of a possibly null String. */
  function JavaText(s: Option<string>): string {
    match s
    case None => "null"
    case Some(t) => t
  }
}

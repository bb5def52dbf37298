/** A decoded JSON body, as the HTTP library's `json()` hands it to the driver,
    and the three Python operations the driver applies to it: truth testing,
    member lookup and iteration. */
module Json {

  import opened Wrappers

  /** An object keeps its members in insertion order with distinct keys, as a
      Python dict built by the JSON decoder does; numbers are integers. */
  datatype JsonValue =
    | JNull
    | JBool(b: bool)
    | JNumber(n: int)
    | JString(s: string)
    | JArray(elems: seq<JsonValue>)
    | JObject(members: seq<(string, JsonValue)>)

  /** Python truth testing (`if x`, `not x`) of a decoded value. A list, a
      string or a dict is true exactly when it is non-empty, that is when a
      `for` loop over it visits something; None is false. */
  predicate Truthy(v: JsonValue)
    ensures v.JNull? ==> !Truthy(v)
    ensures Iterate(v).Some? ==> (Truthy(v) <==> |Iterate(v).value| > 0)
  {
    match v
    case JNull => false
    case JBool(b) => b
    case JNumber(n) => n != 0
    case JString(s) => s != ""
    case JArray(elems) => elems != []
    case JObject(members) => members != []
  }

  /** The value stored under `key` in an object's member list. */
  function Lookup(members: seq<(string, JsonValue)>, key: string): (r: Option<JsonValue>)
    ensures r.Some? <==> exists i :: 0 <= i < |members| && members[i].0 == key
    ensures r.Some? ==> (key, r.value) in members
  {
    if members == [] then None
    else if members[0].0 == key then Some(members[0].1)
    else Lookup(members[1..], key)
  }

  /** What a Python `for x in v` loop visits: the elements of a list, the
      one-character strings of a string, the keys of a dict in order; any
      other value cannot be iterated (None). */
  function Iterate(v: JsonValue): (r: Option<seq<JsonValue>>)
    ensures r.Some? <==> v.JArray? || v.JString? || v.JObject?
    ensures v.JArray? ==> r == Some(v.elems)
    ensures v.JString? ==> r.Some? && |r.value| == |v.s|
                           && forall i :: 0 <= i < |v.s| ==> r.value[i] == JString([v.s[i]])
    ensures v.JObject? ==> r.Some? && |r.value| == |v.members|
                           && forall i :: 0 <= i < |v.members| ==> r.value[i] == JString(v.members[i].0)
  {
    match v
    case JArray(elems) => Some(elems)
    case JString(s) => Some(seq(|s|, i requires 0 <= i < |s| => JString([s[i]])))
    case JObject(members) => Some(seq(|members|, i requires 0 <= i < |members| => JString(members[i].0)))
    case _ => None
  }
}

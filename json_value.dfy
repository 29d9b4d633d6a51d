/** JSON values as Python's `json` module hands them to the agent. The decoder
    (`json.loads`) and encoder (`json.dumps`) stay abstract: the agent receives
    them as parameters. An object keeps its members in document order, as a
    Python `dict` built by `json.loads` keeps insertion order. */
module JsonValue {
  import opened Wrappers

  datatype Json =
    | JNull
    | JBool(b: bool)
    | JNumber(literal: string)
    | JString(s: string)
    | JArray(items: seq<Json>)
    | JObject(members: seq<(string, Json)>)

  /** The keys of an object's members, in order. */
  function Keys(members: seq<(string, Json)>): (ks: seq<string>)
    ensures |ks| == |members|
    ensures forall i :: 0 <= i < |members| ==> ks[i] == members[i].0
  {
    if members == [] then [] else Keys(members[..|members| - 1]) + [members[|members| - 1].0]
  }

  /** Position of the last member named `key`, if any. */
  function LastIndex(members: seq<(string, Json)>, key: string): (r: Option<nat>)
    ensures r.None? <==> forall j :: 0 <= j < |members| ==> members[j].0 != key
    ensures r.Some? ==> r.value < |members| && members[r.value].0 == key
    ensures r.Some? ==> forall j :: r.value < j < |members| ==> members[j].0 != key
  {
    if members == [] then None
    else if members[|members| - 1].0 == key then Some(|members| - 1)
    else LastIndex(members[..|members| - 1], key)
  }

  /** `d.get(key)` on the dict `json.loads` builds: when a key is repeated the
      last member wins, and a missing key gives nothing. */
  function Get(members: seq<(string, Json)>, key: string): (r: Option<Json>)
    ensures r.None? <==> key !in Keys(members)
    ensures r.Some? ==> r.value == members[LastIndex(members, key).value].1
  {
    match LastIndex(members, key)
    case None => None
    case Some(i) => Some(members[i].1)
  }

  /** `type(v).__name__` for the Python value `json.loads` produces. */
  function PyTypeName(v: Json): (name: string)
    ensures name == "dict" <==> v.JObject?
    ensures name == "list" <==> v.JArray?
    ensures name == "str" <==> v.JString?
    ensures name == "NoneType" <==> v.JNull?
    ensures name == "bool" <==> v.JBool?
    ensures name in ["int", "float"] <==> v.JNumber?
  {
    match v
    case JNull => "NoneType"
    case JBool(_) => "bool"
    case JNumber(lit) =>
      if '.' in lit || 'e' in lit || 'E' in lit || lit in ["NaN", "Infinity", "-Infinity"]
      then "float" else "int"
    case JString(_) => "str"
    case JArray(_) => "list"
    case JObject(_) => "dict"
  }
}

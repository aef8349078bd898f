/** The Python value that `json.loads` returns, as a datatype. Parsing itself is not
    modelled: where the source parses text, the model receives the parse result. */
module Json {
  import opened Wrappers

  datatype Json =
    | JNull
    | JBool(b: bool)
    | JNumber(r: real)
    | JString(s: string)
    | JArray(items: seq<Json>)
    | JObject(entries: seq<(string, Json)>)   // in document order

  /** `d.get(key)` on the dict built from `entries`; a key given twice keeps its last value. */
  function Get(entries: seq<(string, Json)>, key: string): (r: Option<Json>)
    ensures r.Some? <==> exists i :: 0 <= i < |entries| && entries[i].0 == key
    decreases |entries|
  {
    if entries == [] then None
    else if entries[|entries| - 1].0 == key then Some(entries[|entries| - 1].1)
    else Get(entries[..|entries| - 1], key)
  }

  /** Python truthiness of the loaded value. */
  predicate Truthy(v: Json) {
    match v
    case JNull => false
    case JBool(b) => b
    case JNumber(r) => r != 0.0
    case JString(s) => s != ""
    case JArray(items) => items != []
    case JObject(entries) => entries != []
  }

  /** The strings of `items`, when every item is a JSON string. */
  function Strings(items: seq<Json>): (r: Option<seq<string>>)
    ensures r.Some? <==> forall i :: 0 <= i < |items| ==> items[i].JString?
    ensures r.Some? ==> |r.value| == |items| &&
                        forall i :: 0 <= i < |items| ==> items[i] == JString(r.value[i])
    decreases |items|
  {
    if items == [] then Some([])
    else if !items[0].JString? then None
    else
      var rest := Strings(items[1..]);
      if rest.None? then None else Some([items[0].s] + rest.value)
  }

  /** A JSON array of strings, the only JSON a pydantic `list[str]` field accepts here. */
  function StringList(v: Json): (r: Option<seq<string>>)
    ensures r.Some? <==> v.JArray? && forall i :: 0 <= i < |v.items| ==> v.items[i].JString?
    ensures r.Some? ==> |r.value| == |v.items| &&
                        forall i :: 0 <= i < |v.items| ==> v.items[i] == JString(r.value[i])
  {
    if v.JArray? then Strings(v.items) else None
  }

  /** `json.dumps` of a list of strings, as the value it loads back to. */
  function FromStrings(tags: seq<string>): (v: Json)
    ensures v.JArray? && |v.items| == |tags|
    ensures forall i :: 0 <= i < |tags| ==> v.items[i] == JString(tags[i])
  {
    JArray(seq(|tags|, i requires 0 <= i < |tags| => JString(tags[i])))
  }

  lemma StringListRoundTrip(tags: seq<string>)
    ensures StringList(FromStrings(tags)) == Some(tags)
  {
    var r := StringList(FromStrings(tags));
    assert r.Some?;
    assert r.value == tags;
  }
}

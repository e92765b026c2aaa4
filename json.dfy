/**
 * Decoded JSON values, as Python's `json` module hands them to the core:
 * objects are insertion-ordered dictionaries with string keys.
 */
module Json {
  import opened Common

  datatype Json =
    | JNull
    | JBool(b: bool)
    | JInt(i: int)
    | JFloat(r: real, text: string)  // the value, and the text `repr` gives it
    | JStr(s: string)
    | JList(items: seq<Json>)
    | JObject(entries: seq<(string, Json)>)

  /** The keys of a dictionary, in insertion order. */
  function Keys<V>(entries: seq<(string, V)>): (ks: seq<string>)
    ensures |ks| == |entries|
    ensures forall i :: 0 <= i < |entries| ==> ks[i] == entries[i].0
  {
    if entries == [] then [] else [entries[0].0] + Keys(entries[1..])
  }

  /** `key in d` for a dictionary. */
  predicate HasKey(entries: seq<(string, Json)>, key: string) {
    exists i :: 0 <= i < |entries| && entries[i].0 == key
  }

  /** `d.get(key)`: the value stored under `key`, if any. */
  function Get(entries: seq<(string, Json)>, key: string): (r: Option<Json>)
    ensures r.Some? <==> HasKey(entries, key)
    ensures r.Some? ==> exists i :: 0 <= i < |entries| && entries[i] == (key, r.value)
  {
    if entries == [] then None
    else if entries[0].0 == key then Some(entries[0].1)
    else Get(entries[1..], key)
  }

  /** A Python dictionary never holds the same key twice. */
  predicate DistinctKeys(entries: seq<(string, Json)>) {
    forall i, j :: 0 <= i < j < |entries| ==> entries[i].0 != entries[j].0
  }

  /** The name Python gives the type of a decoded value, as it appears in error messages. */
  function TypeName(j: Json): string {
    match j
    case JNull => "NoneType"
    case JBool(_) => "bool"
    case JInt(_) => "int"
    case JFloat(_, _) => "float"
    case JStr(_) => "str"
    case JList(_) => "list"
    case JObject(_) => "dict"
  }

  /** `d[key]` with a string key: only a dictionary holding the key answers. */
  function Subscript(d: Json, key: string): (r: Result<Json, Error>)
    ensures r.Ok? <==> d.JObject? && HasKey(d.entries, key)
    ensures r.Ok? ==> Get(d.entries, key) == Some(r.value)
    ensures d.JObject? && !HasKey(d.entries, key) ==> r == Err(KeyError(key))
  {
    match d
    case JObject(entries) =>
      (match Get(entries, key)
       case Some(v) => Ok(v)
       case None => Err(KeyError(key)))
    case JList(_) => Err(TypeError("list indices must be integers or slices, not str"))
    case JStr(_) => Err(TypeError("string indices must be integers"))
    case _ => Err(TypeError("'" + TypeName(d) + "' object is not subscriptable"))
  }

  /** `d.items()`: only a dictionary has it. */
  function Items(d: Json): (r: Result<seq<(string, Json)>, Error>)
    ensures r.Ok? <==> d.JObject?
    ensures r.Ok? ==> r.value == d.entries
  {
    if d.JObject? then Ok(d.entries)
    else Err(AttributeError("'" + TypeName(d) + "' object has no attribute 'items'"))
  }
}

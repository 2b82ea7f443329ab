/** The parsed configuration file: a JSON value as `json.load` returns it, and
    the few Python operations the wiring code applies to such values
    (`d[k]`, `d.pop(k)`, `d.items()`, `for x in v`, hashing as a dict key).

    An object keeps its members in the order iteration yields them. Keys of an
    object are taken to be distinct. */
module Json {
  import opened Wrappers
  import opened Numeric

  datatype Json =
    | JNull
    | JBool(b: bool)
    | JInt(i: int)
    | JStr(s: string)
    | JList(items: seq<Json>)
    | JObject(fields: seq<(string, Json)>)

  /** Lists and dicts cannot be dict keys or set members (`TypeError: unhashable type`). */
  predicate Hashable(j: Json) {
    !j.JList? && !j.JObject?
  }

  function Lookup(fields: seq<(string, Json)>, key: string): (r: Option<Json>)
    ensures r.Some? <==> exists i :: 0 <= i < |fields| && fields[i].0 == key
    ensures r.Some? ==> (key, r.value) in fields
  {
    if fields == [] then None
    else if fields[0].0 == key then Some(fields[0].1)
    else Lookup(fields[1..], key)
  }

  /** The members whose key differs from `key`, in order. */
  function Without(fields: seq<(string, Json)>, key: string): (r: seq<(string, Json)>)
    ensures forall p :: p in r <==> p in fields && p.0 != key
    ensures |r| <= |fields|
  {
    if fields == [] then []
    else if fields[0].0 == key then Without(fields[1..], key)
    else [fields[0]] + Without(fields[1..], key)
  }

  /** `j[key]` with a string key. */
  function Subscript(j: Json, key: string): (r: Result<Json>)
    ensures r.Ok? <==> j.JObject? && Lookup(j.fields, key).Some?
    ensures r.Ok? ==> (key, r.value) in j.fields
    ensures r.Err? && j.JObject? ==> r.error == KeyError(key)
  {
    if !j.JObject? then Err(TypeError("object is not subscriptable"))
    else if Lookup(j.fields, key).None? then Err(KeyError(key))
    else Ok(Lookup(j.fields, key).value)
  }

  /** The TypeError a list raises when indexed by a string. */
  const ListIndex: string := "list indices must be integers"

  /** `j.pop(key)`: the value and what the dict holds afterwards. A list has `pop`
      but wants an index (`TypeError`); other values have no `pop` at all. */
  function Pop(j: Json, key: string): (r: Result<(Json, seq<(string, Json)>)>)
    ensures r.Ok? <==> j.JObject? && Lookup(j.fields, key).Some?
    ensures r.Ok? ==> (key, r.value.0) in j.fields && r.value.1 == Without(j.fields, key)
    ensures r.Err? && j.JObject? ==> r.error == KeyError(key)
    ensures r.Err? && j.JList? ==> r.error == TypeError(ListIndex)
    ensures r.Err? && !j.JObject? && !j.JList? ==> r.error == AttributeError("pop")
  {
    match j
    case JObject(fields) =>
      if Lookup(fields, key).None? then Err(KeyError(key))
      else Ok((Lookup(fields, key).value, Without(fields, key)))
    case JList(_) => Err(TypeError(ListIndex))
    case _ => Err(AttributeError("pop"))
  }

  /** `j.items()`. */
  function Items(j: Json): (r: Result<seq<(string, Json)>>)
    ensures r.Ok? <==> j.JObject?
    ensures r.Ok? ==> r.value == j.fields
  {
    if j.JObject? then Ok(j.fields) else Err(AttributeError("items"))
  }

  /** What `for x in j` visits: list items, the characters of a string, the keys
      of a dict; other values are not iterable. */
  function Iterate(j: Json): (r: Result<seq<Json>>)
    ensures r.Ok? <==> j.JList? || j.JStr? || j.JObject?
    ensures j.JList? ==> r == Ok(j.items)
    ensures r.Ok? && j.JStr? ==> |r.value| == |j.s|
    ensures r.Ok? && j.JObject? ==> |r.value| == |j.fields|
  {
    match j
    case JList(items) => Ok(items)
    case JStr(s) => Ok(seq(|s|, i requires 0 <= i < |s| => JStr([s[i]])))
    case JObject(fields) => Ok(seq(|fields|, i requires 0 <= i < |fields| => JStr(fields[i].0)))
    case _ => Err(TypeError("object is not iterable"))
  }

  /** `str(key)` of a hashable value, as a `KeyError` shows it. */
  function KeyText(j: Json): (r: string)
    requires Hashable(j)
    ensures j.JStr? ==> r == j.s
  {
    match j
    case JNull => "None"
    case JBool(b) => if b then "True" else "False"
    case JInt(i) => IntToString(i)
    case JStr(s) => s
  }

  /** Python truthiness of a parsed value. */
  predicate Truthy(j: Json) {
    match j
    case JNull => false
    case JBool(b) => b
    case JInt(i) => i != 0
    case JStr(s) => s != []
    case JList(items) => items != []
    case JObject(fields) => fields != []
  }
}

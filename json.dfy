/** JSON values as the backend receives them in request bodies and sends
    them in responses, with JavaScript's property lookup and truthiness. */
module Json {
  import opened Common

  /** Numbers are reals: the model never needs NaN or infinities, and it
      only compares numbers. Object members keep their order. */
  datatype Json =
    | JNull
    | JBool(b: bool)
    | JNum(x: real)
    | JStr(s: string)
    | JArr(items: seq<Json>)
    | JObj(members: seq<(string, Json)>)

  /** Whether some member of an object has the key. */
  predicate HasKey(members: seq<(string, Json)>, key: string)
  {
    exists i :: 0 <= i < |members| && members[i].0 == key
  }

  /** The value of the last member named `key` (later duplicates win, as
      with `JSON.parse`). */
  function Lookup(members: seq<(string, Json)>, key: string): (r: Option<Json>)
    ensures r.Some? <==> HasKey(members, key)
    ensures r.Some? ==> (key, r.value) in members
  {
    if members == [] then None
    else if members[|members| - 1].0 == key then Some(members[|members| - 1].1)
    else
      var r := Lookup(members[..|members| - 1], key);
      assert forall i :: 0 <= i < |members| - 1 ==> members[..|members| - 1][i] == members[i];
      r
  }

  /** `v[key]`: the member's value, or `None` for `undefined` (a missing
      key, or a value that is not an object). */
  function Get(v: Json, key: string): (r: Option<Json>)
    ensures r.Some? <==> v.JObj? && HasKey(v.members, key)
  {
    if v.JObj? then Lookup(v.members, key) else None
  }

  /** A destructured body field: `undefined` is bound as NULL. */
  function Field(data: Json, key: string): (j: Json)
    ensures Get(data, key).None? ==> j == JNull
    ensures Get(data, key).Some? ==> j == Get(data, key).value
  {
    match Get(data, key)
    case None => JNull
    case Some(v) => v
  }

  /** JavaScript truthiness of a possibly undefined value: `undefined`,
      `null`, `false`, `0` and the empty string are falsy. */
  predicate Truthy(v: Option<Json>)
  {
    match v
    case None => false
    case Some(JNull) => false
    case Some(JBool(b)) => b
    case Some(JNum(x)) => x != 0.0
    case Some(JStr(s)) => s != ""
    case Some(_) => true
  }

  /** A one-member object `{ [key]: value }`. */
  function Single(key: string, value: Json): (r: Json)
    ensures Get(r, key) == Some(value)
  {
    JObj([(key, value)])
  }

  /** A value in a template literal: `undefined`, `null`, a boolean or
      an integral number below 10^21 as JavaScript writes it, a string as
      itself, and anything else through `show`. */
  function TemplateText(v: Option<Json>, show: Json -> string): (t: string)
    ensures v.Some? && v.value.JStr? ==> t == v.value.s
    ensures v.None? ==> t == "undefined"
    ensures v == Some(JNull) ==> t == "null"
  {
    match v
    case None => "undefined"
    case Some(JNull) => "null"
    case Some(JBool(b)) => if b then "true" else "false"
    case Some(JStr(s)) => s
    case Some(JNum(x)) =>
      if x == x.Floor as real && -1_000_000_000_000_000_000_000 < x.Floor < 1_000_000_000_000_000_000_000
      then IntToString(x.Floor) else show(JNum(x))
    case Some(j) => show(j)
  }
}

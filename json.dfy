/** JSON values as they travel between the upstream APIs, the backend proxy
    and the client: enough structure to write the mock tables out and to read
    the `useMock` flag of an error body. */
module Json {

  import opened Options

  /** Numbers in the payloads this model builds are all integers. */
  datatype Json =
    | Null
    | Bool(b: bool)
    | Num(n: int)
    | Str(s: string)
    | Arr(items: seq<Json>)
    | Obj(members: seq<(string, Json)>)

  /** Property access `j[key]` on a parsed object: the value of the last
      member named `key` (a repeated name in JSON text keeps its last value),
      or `None` (JavaScript's `undefined`) when there is none or `j` is not
      an object. */
  function Get(j: Json, key: string): (r: Option<Json>)
    ensures r.None? <==> !j.Obj? || forall i :: 0 <= i < |j.members| ==> j.members[i].0 != key
    ensures r.Some? ==> exists i :: 0 <= i < |j.members| && j.members[i] == (key, r.value)
                           && forall k :: i < k < |j.members| ==> j.members[k].0 != key
  {
    if j.Obj? then Lookup(j.members, key) else None
  }

  function Lookup(members: seq<(string, Json)>, key: string): (r: Option<Json>)
    ensures r.None? <==> forall i :: 0 <= i < |members| ==> members[i].0 != key
    ensures r.Some? ==> exists i :: 0 <= i < |members| && members[i] == (key, r.value)
                           && forall k :: i < k < |members| ==> members[k].0 != key
  {
    if members == [] then None
    else
      var later := Lookup(members[1..], key);
      if later.Some? then later
      else if members[0].0 == key then Some(members[0].1)
      else None
  }

  /** JavaScript truthiness of a JSON value. */
  predicate Truthy(j: Json) {
    match j
    case Null => false
    case Bool(b) => b
    case Num(n) => n != 0
    case Str(s) => s != ""
    case Arr(_) => true
    case Obj(_) => true
  }

  /** `body?.useMock` read as a condition: false when the body has no such
      member. */
  predicate SuggestsMock(body: Json) {
    var m := Get(body, "useMock");
    m.Some? && Truthy(m.value)
  }

  /** An HTTP reply: status code and JSON body. */
  datatype Response = Response(status: int, body: Json)
}

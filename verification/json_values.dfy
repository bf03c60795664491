/**
 * Decoded JSON values as the schema parser receives them from `json.load`,
 * and the dictionary accesses it performs on them.
 */
module JsonValues {
  import opened Wrappers

  /**
   * A JSON value. An object keeps its members in document order, as a Python
   * dict keeps insertion order; the parser iterates "properties" in that order.
   * JSON numbers with a fraction or exponent are `JFloat`.
   */
  datatype Json =
    | JNull
    | JBool(b: bool)
    | JInt(i: int)
    | JFloat(f: real)
    | JStr(s: string)
    | JArr(items: seq<Json>)
    | JObj(members: seq<(string, Json)>)

  /** The keys of a dict's entries, in order (`list(d.keys())`). */
  function Keys<V>(members: seq<(string, V)>): (keys: seq<string>)
    ensures |keys| == |members|
    ensures forall i :: 0 <= i < |members| ==> keys[i] == members[i].0
  {
    seq(|members|, i requires 0 <= i < |members| => members[i].0)
  }

  /** The value stored under `key`, if any; the first member wins should a key repeat. */
  function Lookup(members: seq<(string, Json)>, key: string): (r: Option<Json>)
    ensures r.Some? <==> key in Keys(members)
    ensures r.Some? ==> exists i :: FirstWithKey(members, key, i) && members[i].1 == r.value
    decreases |members|
  {
    if |members| == 0 then None
    else if members[0].0 == key then
      assert FirstWithKey(members, key, 0);
      Some(members[0].1)
    else
      assert Keys(members) == [members[0].0] + Keys(members[1..]);
      var r := Lookup(members[1..], key);
      if r.Some? then
        var i :| FirstWithKey(members[1..], key, i) && members[1..][i].1 == r.value;
        assert FirstWithKey(members, key, i + 1);
        r
      else r
  }

  /** `members[i]` is the first member whose key is `key`. */
  predicate FirstWithKey(members: seq<(string, Json)>, key: string, i: int) {
    0 <= i < |members| && members[i].0 == key && forall j :: 0 <= j < i ==> members[j].0 != key
  }

  /** `j[key]`: fails (KeyError, TypeError) unless `j` is an object holding `key`. */
  function GetItem(j: Json, key: string): (r: Result<Json>)
    ensures r.Ok? <==> j.JObj? && key in Keys(j.members)
    ensures r.Ok? ==> (key, r.value) in j.members
  {
    if j.JObj? then
      match Lookup(j.members, key)
      case Some(v) => Ok(v)
      case None => Err
    else Err
  }

  /** `j.get(key)`: `None` for a missing key, fails (AttributeError) on anything but an object. */
  function Get(j: Json, key: string): (r: Result<Option<Json>>)
    ensures r.Ok? <==> j.JObj?
    ensures r.Ok? && r.value.Some? <==> GetItem(j, key).Ok?
    ensures r.Ok? && r.value.Some? ==> GetItem(j, key) == Ok(r.value.value)
  {
    if j.JObj? then Ok(Lookup(j.members, key)) else Err
  }

  /**
   * `j.get(key)` where Python keeps only the value: a missing key and an
   * explicit JSON null are both `None`. Fails (AttributeError) on anything
   * but an object.
   */
  function GetValue(j: Json, key: string): (r: Result<Option<Json>>)
    ensures r.Ok? <==> j.JObj?
    ensures r.Ok? && r.value.Some? <==> GetItem(j, key).Ok? && GetItem(j, key).value != JNull
    ensures r.Ok? && r.value.Some? ==> GetItem(j, key) == Ok(r.value.value)
  {
    var v :- Get(j, key);
    if v == Some(JNull) then Ok(None) else Ok(v)
  }

  /** `key in j.keys()`: fails (AttributeError) on anything but an object. */
  function HasKey(j: Json, key: string): (r: Result<bool>)
    ensures r.Ok? <==> j.JObj?
    ensures r == Ok(true) <==> GetItem(j, key).Ok?
  {
    if j.JObj? then Ok(key in Keys(j.members)) else Err
  }
}

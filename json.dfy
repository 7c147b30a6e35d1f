/**
 * The value `json.loads` produces, as far as the model needs it. Decoding
 * itself is not modelled: a remote answer arrives either as `Malformed`
 * (`json.loads` raised `JSONDecodeError`) or as the decoded value.
 */
module Json {
  import opened Base

  /**
   * A decoded JSON value. An object is the list of its members in the order
   * of the text; Python's `dict` keeps the first position of a key and the
   * last value given for it, which `Get` and `Keys` reproduce.
   */
  datatype Json =
    | JNull
    | JBool(b: bool)
    | JNumber(n: real)
    | JString(s: string)
    | JArray(items: seq<Json>)
    | JObject(fields: seq<(string, Json)>)

  /** The outcome of `json.loads` on a remote answer. */
  datatype Decoded = Malformed | Parsed(value: Json)

  /** `d.get(key)`: the value given last for `key`, if any. */
  function Get(fields: seq<(string, Json)>, key: string): (r: Option<Json>)
    ensures r.None? <==> forall i :: 0 <= i < |fields| ==> fields[i].0 != key
    ensures r.Some? ==> exists i :: 0 <= i < |fields| && fields[i] == (key, r.value)
    decreases |fields|
  {
    if |fields| == 0 then None
    else if fields[|fields| - 1].0 == key then Some(fields[|fields| - 1].1)
    else Get(fields[..|fields| - 1], key)
  }

  /** The value at position i is the one found when no later entry repeats its key. */
  lemma {:induction false} GetAt(fields: seq<(string, Json)>, i: nat)
    requires i < |fields|
    requires forall j :: i < j < |fields| ==> fields[j].0 != fields[i].0
    ensures Get(fields, fields[i].0) == Some(fields[i].1)
    decreases |fields|
  {
    if i < |fields| - 1 {
      var front := fields[..|fields| - 1];
      assert front[i] == fields[i];
      GetAt(front, i);
    }
  }

  /** `d.get(key, default)`. */
  function GetOr(fields: seq<(string, Json)>, key: string, default: Json): Json {
    match Get(fields, key)
    case Some(v) => v
    case None => default
  }

  /** Python truthiness of a decoded value. */
  predicate Truthy(j: Json) {
    match j
    case JNull => false
    case JBool(b) => b
    case JNumber(n) => n != 0.0
    case JString(s) => s != ""
    case JArray(items) => items != []
    case JObject(fields) => fields != []
  }

  /** Lists and dicts cannot be hashed, so a membership test on a set raises `TypeError`. */
  predicate Hashable(j: Json) {
    !j.JArray? && !j.JObject?
  }

  /** The keys of a dict, once each, in the order they were first given. */
  function Keys(fields: seq<(string, Json)>): (r: seq<string>)
    ensures forall i, j :: 0 <= i < j < |r| ==> r[i] != r[j]
    ensures forall k :: k in r <==> Get(fields, k).Some?
    decreases |fields|
  {
    if |fields| == 0 then []
    else
      var front := Keys(fields[..|fields| - 1]);
      var k := fields[|fields| - 1].0;
      if k in front then front else front + [k]
  }

  /**
   * The items a `for` loop visits: a list's items, a string's characters,
   * a dict's keys; a number, a boolean or null is not iterable.
   */
  function Iterate(j: Json): (r: Result<seq<Json>>)
    ensures r.Err? <==> j.JNull? || j.JBool? || j.JNumber?
    ensures j.JArray? ==> r == Ok(j.items)
    ensures j.JString? || j.JObject? ==> forall i :: 0 <= i < |r.value| ==> r.value[i].JString?
  {
    match j
    case JArray(items) => Ok(items)
    case JString(s) => Ok(seq(|s|, i requires 0 <= i < |s| => JString([s[i]])))
    case JObject(fields) =>
      var keys := Keys(fields);
      Ok(seq(|keys|, i requires 0 <= i < |keys| => JString(keys[i])))
    case _ => Err(Exception("TypeError", "object is not iterable"))
  }
}

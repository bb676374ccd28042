/**
 * Decoded JSON (and TOML) values as the Python code sees them: `None`, bools,
 * ints, strings, lists and dicts whose keys keep their insertion order.
 * Floats are not modelled.
 */
module JsonValues {
  import opened Wrappers
  import opened Strings

  datatype Json =
    | JNull
    | JBool(b: bool)
    | JInt(i: int)
    | JStr(s: string)
    | JArr(items: seq<Json>)
    | JObj(fields: seq<(string, Json)>)

  /** A Python dict in insertion order. */
  type Dict = seq<(string, Json)>

  /** Python truthiness: `None`, `False`, `0`, `""`, `[]` and `{}` are false. */
  predicate Truthy(j: Json) {
    match j
    case JNull => false
    case JBool(b) => b
    case JInt(i) => i != 0
    case JStr(s) => s != ""
    case JArr(xs) => xs != []
    case JObj(fs) => fs != []
  }

  /** `key in d and d[key]`: the value of the first entry with that key. */
  function Lookup(d: Dict, key: string): (r: Option<Json>)
    ensures r.Some? <==> exists i :: 0 <= i < |d| && d[i].0 == key
    ensures r.Some? ==> exists i :: 0 <= i < |d| && d[i] == (key, r.value)
    decreases |d|
  {
    if d == [] then None
    else if d[0].0 == key then Some(d[0].1)
    else
      var r := Lookup(d[1..], key);
      assert forall i :: 0 < i < |d| ==> d[i] == d[1..][i - 1];
      r
  }

  /** `d[key] = v`: an existing key keeps its position, a new key goes last. */
  function Put(d: Dict, key: string, v: Json): Dict
    decreases |d|
  {
    if d == [] then [(key, v)]
    else if d[0].0 == key then [(key, v)] + d[1..]
    else [d[0]] + Put(d[1..], key, v)
  }

  /** After `d[key] = v` the key reads `v`; a key that was missing is appended, a present one keeps its place. */
  lemma {:induction false} PutThenLookup(d: Dict, key: string, v: Json)
    ensures Lookup(Put(d, key, v), key) == Some(v)
    ensures Lookup(d, key).Some? ==> |Put(d, key, v)| == |d|
    ensures Lookup(d, key).None? ==> Put(d, key, v) == d + [(key, v)]
    decreases |d|
  {
    if d != [] && d[0].0 != key {
      PutThenLookup(d[1..], key, v);
      assert Lookup(d, key) == Lookup(d[1..], key);
      assert d == [d[0]] + d[1..];
    }
  }

  /** `d[key] = v` leaves every other key as it was. */
  lemma {:induction false} PutKeepsOthers(d: Dict, key: string, v: Json, other: string)
    requires other != key
    ensures Lookup(Put(d, key, v), other) == Lookup(d, other)
    decreases |d|
  {
    if d != [] && d[0].0 != key {
      PutKeepsOthers(d[1..], key, v, other);
    }
  }

  /** The value of a key is the one of its first entry. */
  lemma {:induction false} LookupAt(d: Dict, key: string, i: nat)
    requires i < |d| && d[i].0 == key
    requires forall j :: 0 <= j < i ==> d[j].0 != key
    ensures Lookup(d, key) == Some(d[i].1)
    decreases i
  {
    if i > 0 {
      assert forall j :: 0 <= j < i - 1 ==> d[1..][j] == d[j + 1];
      LookupAt(d[1..], key, i - 1);
    }
  }

  /** Assigning a present key replaces its first entry in place. */
  lemma {:induction false} PutAt(d: Dict, key: string, v: Json, i: nat)
    requires i < |d| && d[i].0 == key
    requires forall j :: 0 <= j < i ==> d[j].0 != key
    ensures Put(d, key, v) == d[i := (key, v)]
    decreases i
  {
    if i > 0 {
      assert forall j :: 0 <= j < i - 1 ==> d[1..][j] == d[j + 1];
      PutAt(d[1..], key, v, i - 1);
      assert d[i := (key, v)] == [d[0]] + d[1..][i - 1 := (key, v)];
    } else {
      assert d[0 := (key, v)] == [(key, v)] + d[1..];
    }
  }

  /**
   * `j.get(key)` on a JSON object. A value that is not an object has no keys
   * here (Python would raise AttributeError).
   */
  function Get(j: Json, key: string): Option<Json> {
    if j.JObj? then Lookup(j.fields, key) else None
  }

  /** `j.get(key, default)`. */
  function GetOr(j: Json, key: string, default: Json): Json {
    match Get(j, key)
    case Some(v) => v
    case None => default
  }

  /** `j.get(key)`, with a missing key giving `None`. */
  function GetOrNull(j: Json, key: string): Json {
    GetOr(j, key, JNull)
  }

  /** Python's `a or b`. */
  function Or(a: Json, b: Json): (r: Json)
    ensures Truthy(r) <==> Truthy(a) || Truthy(b)
  {
    if Truthy(a) then a else b
  }

  /** The text of a string value; any other value reads as the empty string. */
  function AsText(j: Json): string {
    if j.JStr? then j.s else ""
  }

  /** The elements of a list value; any other value reads as the empty list. */
  function Items(j: Json): seq<Json> {
    if j.JArr? then j.items else []
  }

  /** The entries of an object value; any other value reads as the empty dict. */
  function Fields(j: Json): Dict {
    if j.JObj? then j.fields else []
  }

  /**
   * Python's `str(j)`. Inside lists and dicts strings are shown quoted with
   * single quotes, as `repr` does for strings without quotes or escapes.
   */
  function PyStr(j: Json): string
    decreases j, 0
  {
    match j
    case JNull => "None"
    case JBool(b) => if b then "True" else "False"
    case JInt(i) => IntToString(i)
    case JStr(s) => s
    case JArr(xs) =>
      "[" + Join(", ", seq(|xs|, k requires 0 <= k < |xs| => Repr(xs[k]))) + "]"
    case JObj(fs) =>
      "{" + Join(", ", seq(|fs|, k requires 0 <= k < |fs| => "'" + fs[k].0 + "': " + Repr(fs[k].1))) + "}"
  }

  /** Only the empty string prints as nothing. */
  lemma PyStrIsNonEmpty(j: Json)
    requires j != JStr("")
    ensures PyStr(j) != ""
  {
  }

  /** Python's `repr(j)`. */
  function Repr(j: Json): string
    decreases j, 1
  {
    if j.JStr? then "'" + j.s + "'" else PyStr(j)
  }
}

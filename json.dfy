/** The JSON values that cross the wire, as `json.loads` hands them to Python
    code. Objects keep their keys in insertion order, as Python dicts do, because
    `json.dumps` writes them in that order and the written body is what gets
    signed. */
module Json {
  import opened Wrappers

  datatype JsonValue =
    | JNull
    | JBool(b: bool)
    | JNum(n: int)
    | JStr(s: string)
    | JArray(items: seq<JsonValue>)
    | JObject(fields: Dict)

  /** A Python dict with string keys, in insertion order. A decoded object
      never repeats a key (`json.loads` keeps the last value of a repeated
      key), so sequences that repeat one stand for no dict; `Lookup` reads
      the first entry of a key. */
  type Dict = seq<(string, JsonValue)>

  /** Python truthiness: None, False, 0, '', [] and {} are false. */
  predicate Truthy(v: JsonValue) {
    match v
    case JNull => false
    case JBool(b) => b
    case JNum(n) => n != 0
    case JStr(s) => s != ""
    case JArray(items) => items != []
    case JObject(fields) => fields != []
  }

  function KeysOf(d: Dict): (ks: seq<string>)
    ensures |ks| == |d|
    ensures forall i :: 0 <= i < |d| ==> ks[i] == d[i].0
  {
    seq(|d|, i requires 0 <= i < |d| => d[i].0)
  }

  /** `d.get(key)`: the value stored under `key`, if any. */
  function Lookup(d: Dict, key: string): (r: Option<JsonValue>)
    ensures r.None? <==> key !in KeysOf(d)
    ensures r.Some? ==> (key, r.value) in d
  {
    if |d| == 0 then None
    else if d[0].0 == key then Some(d[0].1)
    else
      assert KeysOf(d) == [d[0].0] + KeysOf(d[1..]);
      Lookup(d[1..], key)
  }

  lemma KeysOfConcat(a: Dict, b: Dict)
    ensures KeysOf(a + b) == KeysOf(a) + KeysOf(b)
  {
  }

  /** Looking up in `a + b` finds the entry of `a` first. */
  lemma {:induction false} LookupConcat(a: Dict, b: Dict, key: string)
    ensures Lookup(a + b, key) == if key in KeysOf(a) then Lookup(a, key) else Lookup(b, key)
    decreases |a|
  {
    if |a| == 0 {
      assert a + b == b;
    } else {
      var ab := a + b;
      assert ab[0] == a[0];
      assert ab[1..] == a[1..] + b;
      assert KeysOf(a) == [a[0].0] + KeysOf(a[1..]);
      if a[0].0 != key {
        LookupConcat(a[1..], b, key);
      }
    }
  }
}

/** JavaScript values, as far as the protocol engine inspects them. */
module JsValues {

  /** The conventional Some/None wrapper, used for optional settings and results. */
  datatype Option<+T> = None | Some(value: T)

  /** A JavaScript value. Numbers are integers here; an object lists its own
      enumerable properties in `Object.keys` order, each key once. */
  datatype Value =
    | Undefined
    | Null
    | Bool(b: bool)
    | Num(n: int)
    | Str(s: string)
    | Arr(items: seq<Value>)
    | Obj(entries: seq<(string, Value)>)

  /** `tools.isObject`: a plain object, not `null` and not an array. */
  predicate IsObject(v: Value) {
    v.Obj?
  }

  /** `tools.isArray` */
  predicate IsArray(v: Value) {
    v.Arr?
  }

  /** JavaScript truthiness, as used by `!packet.name` and `!mwConfig.webApiPacketId`. */
  predicate Truthy(v: Value) {
    match v
    case Undefined => false
    case Null => false
    case Bool(b) => b
    case Num(n) => n != 0
    case Str(s) => s != ""
    case Arr(_) => true
    case Obj(_) => true
  }

  /** The value stored under `key` in a property list, `undefined` when it is absent. */
  function Lookup(entries: seq<(string, Value)>, key: string): Value {
    if entries == [] then Undefined
    else if entries[0].0 == key then entries[0].1
    else Lookup(entries[1..], key)
  }

  /** Property access `v[key]`; on anything but an object the model reads `undefined`. */
  function Get(v: Value, key: string): Value {
    if v.Obj? then Lookup(v.entries, key) else Undefined
  }

  /** No key is listed twice, as in every JavaScript object. */
  predicate DistinctKeys(entries: seq<(string, Value)>) {
    forall i, j :: 0 <= i < j < |entries| ==> entries[i].0 != entries[j].0
  }

  /** `tools.objectToArray`: the property values in key order. */
  function ObjectValues(entries: seq<(string, Value)>): (r: seq<Value>)
    ensures |r| == |entries|
    ensures forall i :: 0 <= i < |entries| ==> r[i] == entries[i].1
  {
    if entries == [] then [] else [entries[0].1] + ObjectValues(entries[1..])
  }

  /** Reading back a listed key gives the value listed with it. */
  lemma {:induction false} LookupListed(entries: seq<(string, Value)>, i: int)
    requires DistinctKeys(entries)
    requires 0 <= i < |entries|
    ensures Lookup(entries, entries[i].0) == entries[i].1
  {
    if i > 0 {
      assert entries[0].0 != entries[i].0;
      assert DistinctKeys(entries[1..]) by {
        forall a, b | 0 <= a < b < |entries[1..]|
          ensures entries[1..][a].0 != entries[1..][b].0
        {
          assert entries[1..][a] == entries[a + 1] && entries[1..][b] == entries[b + 1];
        }
      }
      LookupListed(entries[1..], i - 1);
    }
  }
}

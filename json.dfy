/** JSON values as `json.loads` produces them, and the few dict operations the pipeline performs on them. */
module Json {

  datatype Option<+T> = None | Some(value: T)

  /** A decoded JSON value. Objects keep their members in insertion order, as Python dicts do. */
  datatype Json =
    | JNull
    | JBool(b: bool)
    | JInt(i: int)
    | JFloat(f: real)
    | JStr(s: string)
    | JArray(items: seq<Json>)
    | JObject(members: seq<Member>)

  datatype Member = Member(key: string, value: Json)

  /** The members of a JSON object (a Python dict). */
  type Object = seq<Member>

  /** The keys of an object, in order. */
  function Keys(obj: Object): (ks: seq<string>)
    ensures |ks| == |obj|
  {
    if obj == [] then [] else [obj[0].key] + Keys(obj[1..])
  }

  /** `obj[key]` when `key in obj`; `None` when the key is absent. */
  function Lookup(obj: Object, key: string): (r: Option<Json>)
    ensures r.Some? <==> key in Keys(obj)
  {
    if obj == [] then None
    else if obj[0].key == key then Some(obj[0].value)
    else Lookup(obj[1..], key)
  }

  /** `obj.get(key)`: the value at `key`, or null when it is absent. */
  function Field(obj: Object, key: string): Json
  {
    match Lookup(obj, key)
    case Some(v) => v
    case None => JNull
  }

  /** The dict assignment `obj[key] = v`: an existing key keeps its place, a new one goes last. */
  function Assign(obj: Object, key: string, v: Json): (r: Object)
    ensures Lookup(r, key) == Some(v)
    ensures forall k :: k != key ==> Lookup(r, k) == Lookup(obj, k)
    ensures key in Keys(obj) ==> Keys(r) == Keys(obj)
    ensures key !in Keys(obj) ==> r == obj + [Member(key, v)]
  {
    if obj == [] then [Member(key, v)]
    else if obj[0].key == key then
      var r := [Member(key, v)] + obj[1..];
      assert r[1..] == obj[1..];
      r
    else
      var rest := Assign(obj[1..], key, v);
      var r := [obj[0]] + rest;
      assert r[1..] == rest;
      r
  }

  /** Assigning a new key appends it to the keys. */
  lemma AssignNewKey(obj: Object, key: string, v: Json)
    requires key !in Keys(obj)
    ensures Keys(Assign(obj, key, v)) == Keys(obj) + [key]
  {
    KeysAppend(obj, [Member(key, v)]);
    assert Keys([Member(key, v)]) == [key];
  }

  lemma {:induction false} KeysAppend(a: Object, b: Object)
    ensures Keys(a + b) == Keys(a) + Keys(b)
  {
    if a != [] {
      assert (a + b)[1..] == a[1..] + b;
      KeysAppend(a[1..], b);
    } else {
      assert a + b == b;
    }
  }

  /** Assigning to a key the value it already holds changes nothing. */
  lemma {:induction false} AssignSameValue(obj: Object, key: string)
    requires key in Keys(obj)
    ensures Assign(obj, key, Lookup(obj, key).value) == obj
  {
    if obj[0].key != key {
      AssignSameValue(obj[1..], key);
    }
  }

  /** Assigning a key twice leaves what assigning it the second value once leaves. */
  lemma {:induction false} AssignTwice(obj: Object, key: string, v1: Json, v2: Json)
    ensures Assign(Assign(obj, key, v1), key, v2) == Assign(obj, key, v2)
  {
    if obj != [] && obj[0].key != key {
      AssignTwice(obj[1..], key, v1, v2);
      assert Assign(obj, key, v1)[1..] == Assign(obj[1..], key, v1);
    }
  }

  /** Python truthiness: null, false, zero and empty strings, lists and dicts are falsy. */
  predicate Truthy(j: Json)
  {
    match j
    case JNull => false
    case JBool(b) => b
    case JInt(i) => i != 0
    case JFloat(f) => f != 0.0
    case JStr(s) => |s| > 0
    case JArray(items) => |items| > 0
    case JObject(members) => |members| > 0
  }
}

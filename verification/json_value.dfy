/** A decoded JSON document as `json.loads` returns it, and the Python
    operators the rating walk applies to it: `key in v`, `v[key]`, iteration
    (`for x in v`), truthiness and item assignment. Objects keep their keys in
    insertion order, as Python dicts do. */
module JsonValue {
  import opened Common

  datatype Json =
    | JNull
    | JBool(b: bool)
    | JNum(n: real)
    | JStr(s: string)
    | JArr(items: seq<Json>)
    | JObj(fields: seq<(string, Json)>)

  /** The built-in exceptions the operators below can raise. */
  datatype PyError = TypeError | KeyError

  /** An object as `json.loads` builds it: no key occurs twice. */
  predicate DistinctKeys(v: Json) {
    v.JObj? ==> forall i, j :: 0 <= i < j < |v.fields| ==> v.fields[i].0 != v.fields[j].0
  }

  /** Position of `key` among the object's fields. */
  function KeyIndex(fields: seq<(string, Json)>, key: string): (r: Option<nat>)
    ensures r.Some? ==> r.value < |fields| && fields[r.value].0 == key
    ensures r.Some? ==> forall i :: 0 <= i < r.value ==> fields[i].0 != key
    ensures r.None? ==> forall i :: 0 <= i < |fields| ==> fields[i].0 != key
  {
    if fields == [] then None
    else if fields[0].0 == key then Some(0)
    else match KeyIndex(fields[1..], key)
      case None => None
      case Some(k) => Some(k + 1)
  }

  predicate HasKey(v: Json, key: string) {
    v.JObj? && KeyIndex(v.fields, key).Some?
  }

  function Get(v: Json, key: string): Json
    requires HasKey(v, key)
  {
    v.fields[KeyIndex(v.fields, key).value].1
  }

  /** `key in v`: a dict tests its keys, a str tests for a substring, a list
      tests its elements; numbers, booleans and None raise TypeError. */
  function In(key: string, v: Json): (r: Result<bool, PyError>)
    ensures v.JObj? ==> r == Ok(HasKey(v, key))
  {
    match v
    case JObj(_) => Ok(HasKey(v, key))
    case JStr(s) => Ok(ContainsSub(s, key))
    case JArr(xs) => Ok(JStr(key) in xs)
    case _ => Err(TypeError)
  }

  /** `v[key]` with a string key: a dict without the key raises KeyError,
      every other kind of value raises TypeError. */
  function Index(v: Json, key: string): (r: Result<Json, PyError>)
    ensures r.Ok? <==> HasKey(v, key)
    ensures r.Ok? ==> r.value == Get(v, key)
  {
    if HasKey(v, key) then Ok(Get(v, key))
    else if v.JObj? then Err(KeyError)
    else Err(TypeError)
  }

  /** Python truthiness. */
  predicate Truthy(v: Json) {
    match v
    case JNull => false
    case JBool(b) => b
    case JNum(n) => n != 0.0
    case JStr(s) => s != ""
    case JArr(xs) => xs != []
    case JObj(fs) => fs != []
  }

  /** What `for x in v` visits: list elements, the one-character strings of a
      str, the keys of a dict; other values are not iterable. */
  function Iterate(v: Json): (r: Result<seq<Json>, PyError>)
    ensures v.JArr? ==> r == Ok(v.items)
    ensures r.Ok? && !v.JArr? ==> forall i :: 0 <= i < |r.value| ==> r.value[i].JStr?
  {
    match v
    case JArr(xs) => Ok(xs)
    case JStr(s) => Ok(seq(|s|, i requires 0 <= i < |s| => JStr([s[i]])))
    case JObj(fs) => Ok(seq(|fs|, i requires 0 <= i < |fs| => JStr(fs[i].0)))
    case _ => Err(TypeError)
  }

  /** `v[key] = x` on a dict that already holds `key`. */
  function Assign(v: Json, key: string, x: Json): (r: Json)
    requires HasKey(v, key)
    ensures HasKey(r, key) && Get(r, key) == x
    ensures OnlyKeyChanged(v, r, key)
  {
    var k := KeyIndex(v.fields, key).value;
    var r := JObj(v.fields[k := (key, x)]);
    assert KeyIndex(r.fields, key) == Some(k) by {
      KeyIndexAgrees(v.fields, r.fields, key);
    }
    r
  }

  lemma {:induction false} KeyIndexAgrees(f: seq<(string, Json)>, g: seq<(string, Json)>, key: string)
    requires |f| == |g| && forall i :: 0 <= i < |f| ==> f[i].0 == g[i].0
    ensures KeyIndex(f, key) == KeyIndex(g, key)
  {
    if f != [] {
      KeyIndexAgrees(f[1..], g[1..], key);
    }
  }

  /** `b` is the object `a` with at most the values under `keys` replaced:
      same keys in the same order, every other value equal. */
  predicate OnlyKeysChanged(a: Json, b: Json, keys: set<string>) {
    && a.JObj? && b.JObj?
    && |a.fields| == |b.fields|
    && forall i :: 0 <= i < |a.fields| ==>
         a.fields[i].0 == b.fields[i].0 && (a.fields[i].0 !in keys ==> a.fields[i].1 == b.fields[i].1)
  }

  predicate OnlyKeyChanged(a: Json, b: Json, key: string) {
    OnlyKeysChanged(a, b, {key})
  }

  lemma OnlyKeysChangedTrans(a: Json, b: Json, c: Json, k1: set<string>, k2: set<string>)
    requires OnlyKeysChanged(a, b, k1) && OnlyKeysChanged(b, c, k2)
    ensures OnlyKeysChanged(a, c, k1 + k2)
  {
  }

  /** A key outside the changed ones keeps its value. */
  lemma OnlyKeysChangedGet(a: Json, b: Json, keys: set<string>, key: string)
    requires OnlyKeysChanged(a, b, keys) && key !in keys
    ensures HasKey(a, key) <==> HasKey(b, key)
    ensures HasKey(a, key) ==> Get(a, key) == Get(b, key)
  {
    KeyIndexAgrees(a.fields, b.fields, key);
  }

  /** The container after its elements were updated in place: a list holds the
      updated elements, any other iterable is left as it was. */
  function Rebuild(container: Json, items: seq<Json>): Json {
    if container.JArr? then JArr(items) else container
  }
}

/** JavaScript values as the runtime helpers see them, JavaScript
    truthiness, string-keyed objects with their key order, and the loop
    that copies the entries of an object that pass a test into a fresh one. */
module JsValues {

  /** A string-keyed object: `keys` lists the own enumerable keys in the order
      `Object.keys` and `for…in` report them; `entries` holds their values. */
  datatype Dict<V> = Dict(keys: seq<string>, entries: map<string, V>) {
    predicate Valid() {
      Distinct(keys) && entries.Keys == set k | k in keys
    }
  }

  /** No key is listed twice. */
  predicate Distinct(s: seq<string>) {
    forall i, j :: 0 <= i < j < |s| ==> s[i] != s[j]
  }

  function EmptyDict<V>(): (d: Dict<V>)
    ensures d.Valid() && d.keys == []
  {
    Dict([], map[])
  }

  /** A JavaScript value. Numbers are reals (NaN and the infinities are not
      modelled); a function is known only by an identity. */
  datatype JsValue =
    | Undefined
    | Null
    | Bool(b: bool)
    | Number(n: real)
    | Str(s: string)
    | Array(items: seq<JsValue>)
    | Object(props: Dict<JsValue>)
    | Function(id: nat)

  /** JavaScript truthiness. */
  predicate Truthy(v: JsValue) {
    match v
    case Undefined => false
    case Null => false
    case Bool(b) => b
    case Number(n) => n != 0.0
    case Str(s) => s != ""
    case _ => true
  }

  /** `obj[key]` for an own key, `undefined` otherwise. */
  function Get(d: Dict<JsValue>, key: string): JsValue {
    if key in d.entries then d.entries[key] else Undefined
  }

  /** The keys of `keys` that are present in `entries` and pass `keep`, in order. */
  function FilterKeys<V>(keys: seq<string>, entries: map<string, V>, keep: (string, V) -> bool): seq<string> {
    if keys == [] then []
    else
      var k := keys[|keys| - 1];
      FilterKeys(keys[..|keys| - 1], entries, keep) + (if k in entries && keep(k, entries[k]) then [k] else [])
  }

  /** The object holding exactly the entries of `d` that pass `keep`, in `d`'s order. */
  function Filtered<V>(d: Dict<V>, keep: (string, V) -> bool): Dict<V> {
    Dict(FilterKeys(d.keys, d.entries, keep), map k | k in d.entries && keep(k, d.entries[k]) :: d.entries[k])
  }

  lemma {:induction false} FilterKeysMembers<V>(keys: seq<string>, entries: map<string, V>, keep: (string, V) -> bool)
    ensures forall k :: k in FilterKeys(keys, entries, keep) <==> k in keys && k in entries && keep(k, entries[k])
  {
    if keys != [] {
      FilterKeysMembers(keys[..|keys| - 1], entries, keep);
      assert keys == keys[..|keys| - 1] + [keys[|keys| - 1]];
    }
  }

  lemma {:induction false} FilterKeysDistinct<V>(keys: seq<string>, entries: map<string, V>, keep: (string, V) -> bool)
    requires Distinct(keys)
    ensures Distinct(FilterKeys(keys, entries, keep))
  {
    if keys != [] {
      var init := keys[..|keys| - 1];
      var k := keys[|keys| - 1];
      FilterKeysDistinct(init, entries, keep);
      FilterKeysMembers(init, entries, keep);
      assert k !in init by {
        forall i | 0 <= i < |init| ensures init[i] != k {
          assert init[i] == keys[i];
        }
      }
      var fi := FilterKeys(init, entries, keep);
      assert k !in fi;
      var f := FilterKeys(keys, entries, keep);
      assert f == fi + (if k in entries && keep(k, entries[k]) then [k] else []);
      if k in entries && keep(k, entries[k]) {
        forall i, j | 0 <= i < j < |f| ensures f[i] != f[j] {
          if j == |fi| {
            assert f[i] == fi[i];
          } else {
            assert f[i] == fi[i] && f[j] == fi[j];
          }
        }
      }
    }
  }

  /** `x` occurs in `s` before an occurrence of `y`. */
  predicate Precedes(s: seq<string>, x: string, y: string) {
    exists a, b :: 0 <= a < b < |s| && s[a] == x && s[b] == y
  }

  /** The entries of `sub` appear in `s` in the same relative order. */
  predicate ListedInOrder(sub: seq<string>, s: seq<string>) {
    forall i, j :: 0 <= i < j < |sub| ==> Precedes(s, sub[i], sub[j])
  }

  /** Filtering keeps the order of the keys. */
  lemma {:induction false} FilterKeysInOrder<V>(keys: seq<string>, entries: map<string, V>, keep: (string, V) -> bool)
    ensures ListedInOrder(FilterKeys(keys, entries, keep), keys)
  {
    if keys != [] {
      var init := keys[..|keys| - 1];
      var k := keys[|keys| - 1];
      FilterKeysInOrder(init, entries, keep);
      FilterKeysMembers(init, entries, keep);
      var fi := FilterKeys(init, entries, keep);
      var f := FilterKeys(keys, entries, keep);
      assert f == fi + (if k in entries && keep(k, entries[k]) then [k] else []);
      forall i, j | 0 <= i < j < |f| ensures Precedes(keys, f[i], f[j]) {
        assert f[i] == fi[i];
        if j < |fi| {
          assert f[j] == fi[j] && Precedes(init, fi[i], fi[j]);
          var a, b :| 0 <= a < b < |init| && init[a] == fi[i] && init[b] == fi[j];
          assert keys[a] == init[a] && keys[b] == init[b];
        } else {
          assert f[j] == k;
          assert fi[i] in init;
          var a :| 0 <= a < |init| && init[a] == fi[i];
          assert keys[a] == init[a] && keys[|keys| - 1] == f[j];
        }
      }
      assert ListedInOrder(f, keys);
    }
  }

  /** A filtered object is again a well-formed object, and a key survives
      exactly when it was present and passes the test, with its value unchanged. */
  lemma FilteredSpec<V>(d: Dict<V>, keep: (string, V) -> bool)
    requires d.Valid()
    ensures Filtered(d, keep).Valid()
    ensures forall k :: k in Filtered(d, keep).keys <==> k in d.keys && keep(k, d.entries[k])
    ensures forall k :: k in Filtered(d, keep).entries ==> Filtered(d, keep).entries[k] == d.entries[k]
  {
    FilterKeysMembers(d.keys, d.entries, keep);
    FilterKeysDistinct(d.keys, d.entries, keep);
    var f := Filtered(d, keep);
    assert f.entries.Keys == set k | k in f.keys;
  }

  /** The loop `for (const key in obj) if (keep(key, obj[key])) out[key] = obj[key]`
      filling a fresh object. */
  method FilterEntries<V>(d: Dict<V>, keep: (string, V) -> bool) returns (r: Dict<V>)
    requires d.Valid()
    ensures r == Filtered(d, keep)
  {
    var keys: seq<string> := [];
    var entries: map<string, V> := map[];
    var i := 0;
    while i < |d.keys|
      invariant 0 <= i <= |d.keys|
      invariant keys == FilterKeys(d.keys[..i], d.entries, keep)
      invariant forall k :: k in entries <==> k in d.keys[..i] && keep(k, d.entries[k])
      invariant forall k :: k in entries ==> entries[k] == d.entries[k]
    {
      var k := d.keys[i];
      assert d.keys[..i + 1] == d.keys[..i] + [k];
      assert d.keys[..i + 1][..i] == d.keys[..i];
      if keep(k, d.entries[k]) {
        keys := keys + [k];
        entries := entries[k := d.entries[k]];
      }
      i := i + 1;
    }
    assert d.keys[..i] == d.keys;
    r := Dict(keys, entries);
    assert entries == Filtered(d, keep).entries;
  }

  /** A JavaScript object whose properties are written in place (a component
      instance). `fields` holds every property visible through the `in` operator. */
  class JsObjectRef {
    var fields: map<string, JsValue>

    constructor (init: map<string, JsValue>)
      ensures fields == init
    {
      fields := init;
    }
  }
}

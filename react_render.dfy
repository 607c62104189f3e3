/** The helpers a React Native component built by `getDefaultOptions`
    exposes to its generated render function: the list-rendering iterator
    `_i`, the listener and prop filters over a props object, and the loop
    that copies the current props onto the component instance. */
module ReactRender {
  import opened Common
  import opened JsValues

  /** How many times `for (i = 0; i < n; i++)` runs for a number `n`. */
  function LoopCount(n: real): nat {
    if n <= 0.0 then 0
    else if n.Floor as real == n then n.Floor
    else n.Floor + 1
  }

  /** The loop test `i < n` holds exactly for the first `LoopCount(n)` counters. */
  lemma LoopCountSpec(n: real, i: nat)
    ensures (i as real) < n <==> i < LoopCount(n)
  {
    if n > 0.0 {
      var f := n.Floor;
      assert f as real <= n < f as real + 1.0;
      if f as real != n {
        assert f as real < n;
      }
    }
  }

  /** `Array.isArray(val) || typeof val === 'string'`: the values indexed by position. */
  predicate Indexed(val: JsValue) {
    val.Array? || val.Str?
  }

  function IndexedLength(val: JsValue): nat
    requires Indexed(val)
  {
    if val.Array? then |val.items| else |val.s|
  }

  /** `val[i]`: an array element, or the one-character string at `i`. */
  function ElementAt(val: JsValue, i: nat): JsValue
    requires Indexed(val) && i < IndexedLength(val)
  {
    if val.Array? then val.items[i] else Str([val.s[i]])
  }

  /** `isObject(val)`: a non-null object that is not an array. */
  predicate IsPlainObject(val: JsValue) {
    val.Object?
  }

  function Index(i: nat): JsValue {
    Number(i as real)
  }

  /** `_i(val, fn)`: calls `fn` once per element, counter or own key and
      collects the results in order; `fn` receives its argument list. */
  method Iterate(val: JsValue, fn: seq<JsValue> -> JsValue) returns (result: seq<JsValue>)
    ensures Indexed(val) ==>
              && |result| == IndexedLength(val)
              && forall i :: 0 <= i < |result| ==> result[i] == fn([ElementAt(val, i), Index(i)])
    ensures val.Number? ==>
              && |result| == LoopCount(val.n)
              && forall i :: 0 <= i < |result| ==> result[i] == fn([Index(i + 1), Index(i)])
    ensures IsPlainObject(val) ==>
              && |result| == |val.props.keys|
              && forall i :: 0 <= i < |result| ==>
                   result[i] == fn([Get(val.props, val.props.keys[i]), Str(val.props.keys[i]), Index(i)])
    ensures !Indexed(val) && !val.Number? && !IsPlainObject(val) ==> result == []
  {
    result := [];
    if Indexed(val) {
      var l := IndexedLength(val);
      var i := 0;
      while i < l
        invariant 0 <= i <= l && |result| == i
        invariant forall j :: 0 <= j < i ==> result[j] == fn([ElementAt(val, j), Index(j)])
      {
        result := result + [fn([ElementAt(val, i), Index(i)])];
        i := i + 1;
      }
    } else if val.Number? {
      var i: nat := 0;
      LoopCountSpec(val.n, 0);
      while (i as real) < val.n
        invariant i <= LoopCount(val.n) && |result| == i
        invariant (i as real) < val.n <==> i < LoopCount(val.n)
        invariant forall j :: 0 <= j < i ==> result[j] == fn([Index(j + 1), Index(j)])
        decreases LoopCount(val.n) - i
      {
        result := result + [fn([Index(i + 1), Index(i)])];
        i := i + 1;
        LoopCountSpec(val.n, i);
      }
    } else if IsPlainObject(val) {
      var keys := val.props.keys;
      var i := 0;
      while i < |keys|
        invariant 0 <= i <= |keys| && |result| == i
        invariant forall j :: 0 <= j < i ==> result[j] == fn([Get(val.props, keys[j]), Str(keys[j]), Index(j)])
      {
        var key := keys[i];
        result := result + [fn([Get(val.props, key), Str(key), Index(i)])];
        i := i + 1;
      }
    }
  }

  /** The event prefixes of `/^(bind|catch|capture-bind|capture-catch):?(.*?)(?:\.(.*))?$/`. */
  const ListenerPrefixes: seq<string> := ["bind", "catch", "capture-bind", "capture-catch"]

  /** The listener regular expression matches a key: one of the prefixes, and
      no line terminator anywhere (every later part is built from `.`). */
  predicate IsListenerKey(key: string) {
    (exists p | p in ListenerPrefixes :: StartsWith(key, p))
    && forall i :: 0 <= i < |key| ==> !LineTerminator(key[i])
  }

  /** `getListeners(props)`. */
  method GetListeners(props: Dict<JsValue>) returns (listenerMap: Dict<JsValue>)
    requires props.Valid()
    ensures listenerMap.Valid()
    ensures forall k :: k in listenerMap.keys <==> k in props.keys && IsListenerKey(k)
    ensures forall k :: k in listenerMap.entries ==> listenerMap.entries[k] == props.entries[k]
    ensures forall i, j :: 0 <= i < j < |listenerMap.keys| ==> listenerMap.keys[i] != listenerMap.keys[j]
    ensures ListedInOrder(listenerMap.keys, props.keys)
  {
    listenerMap := FilterEntries(props, (k: string, v: JsValue) => IsListenerKey(k));
    FilteredSpec(props, (k: string, v: JsValue) => IsListenerKey(k));
    FilterKeysInOrder(props.keys, props.entries, (k: string, v: JsValue) => IsListenerKey(k));
  }

  /** The filter shared by `__getProps` and the props-copy loop: a declared
      prop whose value is not a function. */
  predicate IsDataProp(validProps: Dict<JsValue>, key: string, value: JsValue) {
    key in validProps.entries && !value.Function?
  }

  function DataProp(validProps: Dict<JsValue>): (string, JsValue) -> bool {
    (k: string, v: JsValue) => IsDataProp(validProps, k, v)
  }

  /** `__getProps()`; `props` is `None` when it is falsy. */
  method GetProps(props: Option<Dict<JsValue>>, validProps: Dict<JsValue>) returns (propsData: Dict<JsValue>)
    requires props.Some? ==> props.value.Valid()
    ensures propsData.Valid()
    ensures props.None? ==> propsData.keys == []
    ensures props.Some? ==>
      && (forall k :: k in propsData.keys <==> k in props.value.keys && IsDataProp(validProps, k, props.value.entries[k]))
      && (forall k :: k in propsData.entries ==> propsData.entries[k] == props.value.entries[k])
      && ListedInOrder(propsData.keys, props.value.keys)
  {
    if props.None? {
      return EmptyDict();
    }
    propsData := FilterEntries(props.value, DataProp(validProps));
    FilteredSpec(props.value, DataProp(validProps));
    FilterKeysInOrder(props.value.keys, props.value.entries, DataProp(validProps));
  }

  /** The instance's fields after the props of `keys` are visited in order. */
  function Copied(fields: map<string, JsValue>, keys: seq<string>, entries: map<string, JsValue>,
                  validProps: Dict<JsValue>): map<string, JsValue> {
    if keys == [] then fields
    else
      var k := keys[|keys| - 1];
      var before := Copied(fields, keys[..|keys| - 1], entries, validProps);
      if k in entries && IsDataProp(validProps, k, entries[k]) then before[k := entries[k]] else before
  }

  /** Visiting the keys writes exactly the data props among them over the fields. */
  lemma {:induction false} CopiedWrites(fields: map<string, JsValue>, keys: seq<string>, entries: map<string, JsValue>,
                                        validProps: Dict<JsValue>)
    ensures Copied(fields, keys, entries, validProps)
            == fields + map k | k in entries && k in keys && IsDataProp(validProps, k, entries[k]) :: entries[k]
  {
    if keys != [] {
      var init := keys[..|keys| - 1];
      var last := keys[|keys| - 1];
      CopiedWrites(fields, init, entries, validProps);
      assert keys == init + [last];
      var m := map k | k in entries && k in init && IsDataProp(validProps, k, entries[k]) :: entries[k];
      var m' := map k | k in entries && k in keys && IsDataProp(validProps, k, entries[k]) :: entries[k];
      if last in entries && IsDataProp(validProps, last, entries[last]) {
        assert m' == m[last := entries[last]];
      } else {
        assert m' == m;
      }
    }
  }

  /** The loop over `Object.keys(props)` at each render that writes every data
      prop onto the instance; no other property is written. */
  method CopyProps(instance: JsObjectRef, props: Dict<JsValue>, validProps: Dict<JsValue>)
    requires props.Valid()
    modifies instance
    ensures instance.fields == old(instance.fields) + Filtered(props, DataProp(validProps)).entries
  {
    var i := 0;
    while i < |props.keys|
      invariant 0 <= i <= |props.keys|
      invariant instance.fields == Copied(old(instance.fields), props.keys[..i], props.entries, validProps)
    {
      var key := props.keys[i];
      assert props.keys[..i + 1][..i] == props.keys[..i];
      if IsDataProp(validProps, key, props.entries[key]) {
        instance.fields := instance.fields[key := props.entries[key]];
      }
      i := i + 1;
    }
    assert props.keys[..i] == props.keys;
    CopiedWrites(old(instance.fields), props.keys, props.entries, validProps);
    assert Filtered(props, DataProp(validProps)).entries
           == map k | k in props.entries && k in props.keys && IsDataProp(validProps, k, props.entries[k]) :: props.entries[k];
  }

  /** The props written at each render are exactly those `__getProps` returns:
      a key of the instance changes only if it is a data prop, and then takes
      the prop's value. */
  lemma CopyMatchesGetProps(fields: map<string, JsValue>, props: Dict<JsValue>, validProps: Dict<JsValue>)
    requires props.Valid()
    ensures var after := fields + Filtered(props, DataProp(validProps)).entries;
            && (forall k :: k in after && (k !in fields || after[k] != fields[k]) ==>
                  k in props.keys && IsDataProp(validProps, k, props.entries[k]) && after[k] == props.entries[k])
            && (forall k :: k in props.keys && IsDataProp(validProps, k, props.entries[k]) ==> k in after && after[k] == props.entries[k])
  {
    FilteredSpec(props, DataProp(validProps));
  }
}

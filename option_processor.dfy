/** The web runtime's component-option processing: local registration of the
    components a page or component uses, the generics table and generic
    props, the shared mixin and the component path; `getComponent`, the wxs
    mixin whose `created` hook installs inline wxs modules on an instance, and
    the route table built from the pages map. */
module OptionProcessor {
  import opened Common
  import opened JsValues

  /** The object behind an optional field: `{}` when the field is unset. */
  function Base<V>(m: Option<map<string, V>>): map<string, V> {
    if m.Some? then m.value else map[]
  }

  // ---------------------------------------------------------------------
  // Local component registration
  // ---------------------------------------------------------------------

  /** The components object after the names of `keys` are registered in order. */
  function RegisterAll(components: map<string, JsValue>, keys: seq<string>, componentsMap: Dict<JsValue>): map<string, JsValue> {
    if keys == [] then components
    else
      var k := keys[|keys| - 1];
      RegisterAll(components, keys[..|keys| - 1], componentsMap)[k := Get(componentsMap, k)]
  }

  /** `option.components` after the registration loop: the object is created
      on the first iteration only, so an empty map leaves it as it was. */
  function WithComponents(components: Option<map<string, JsValue>>, componentsMap: Dict<JsValue>): Option<map<string, JsValue>> {
    if componentsMap.keys == [] then components
    else Some(RegisterAll(Base(components), componentsMap.keys, componentsMap))
  }

  lemma {:induction false} RegisterAllSpec(components: map<string, JsValue>, keys: seq<string>, componentsMap: Dict<JsValue>)
    ensures var r := RegisterAll(components, keys, componentsMap);
            && (forall k :: k in keys ==> k in r && r[k] == Get(componentsMap, k))
            && (forall k :: k in components && k !in keys ==> k in r && r[k] == components[k])
            && (forall k :: k in r ==> k in components || k in keys)
  {
    if keys != [] {
      RegisterAllSpec(components, keys[..|keys| - 1], componentsMap);
      assert keys == keys[..|keys| - 1] + [keys[|keys| - 1]];
    }
  }

  /** Every component of the map is registered with its own value, existing
      registrations of other names are kept, nothing else is added, and the
      object exists afterwards whenever something was registered. */
  lemma WithComponentsSpec(components: Option<map<string, JsValue>>, componentsMap: Dict<JsValue>)
    requires componentsMap.Valid()
    ensures var r := WithComponents(components, componentsMap);
            && (componentsMap.keys != [] ==> r.Some?)
            && (componentsMap.keys == [] ==> r == components)
            && (forall k :: k in componentsMap.keys ==> r.Some? && k in r.value && r.value[k] == componentsMap.entries[k])
            && (forall k :: components.Some? && k in components.value && k !in componentsMap.keys ==>
                  r.Some? && k in r.value && r.value[k] == components.value[k])
            && (r.Some? ==> forall k :: k in r.value ==> k in Base(components) || k in componentsMap.keys)
  {
    RegisterAllSpec(Base(components), componentsMap.keys, componentsMap);
  }

  // ---------------------------------------------------------------------
  // Generics
  // ---------------------------------------------------------------------

  /** `genericsInfo`: the table's hash and the generic values the parent passes. */
  datatype GenericsInfo = GenericsInfo(hash: string, values: Dict<JsValue>)

  /** `global.__mpxGenericsMap[hash]` for the given generic values: the values
      registered (truthy) in `componentsMap`, mapped to their components. */
  function GenericsTable(values: seq<string>, componentsMap: Dict<JsValue>): map<string, JsValue> {
    if values == [] then map[]
    else
      var v := values[|values| - 1];
      var t := GenericsTable(values[..|values| - 1], componentsMap);
      if Truthy(Get(componentsMap, v)) then t[v := Get(componentsMap, v)] else t
  }

  function GenericWarning(value: string): string {
    "[Mpx runtime warn]: generic value \"" + value + "\" must be\nregistered in parent context!"
  }

  /** The warnings for the generic values that are not registered, in order. */
  function GenericWarnings(values: seq<string>, componentsMap: Dict<JsValue>): seq<string> {
    if values == [] then []
    else
      var v := values[|values| - 1];
      GenericWarnings(values[..|values| - 1], componentsMap)
        + (if Truthy(Get(componentsMap, v)) then [] else [GenericWarning(v)])
  }

  /** Only registered values enter the table, each with its component, and
      each value missing from the parent produces its warning. */
  lemma {:induction false} GenericsTableSpec(values: seq<string>, componentsMap: Dict<JsValue>)
    ensures forall v :: v in GenericsTable(values, componentsMap) <==> v in values && Truthy(Get(componentsMap, v))
    ensures forall v :: v in GenericsTable(values, componentsMap) ==> GenericsTable(values, componentsMap)[v] == Get(componentsMap, v)
    ensures forall v :: v in values && !Truthy(Get(componentsMap, v)) ==> GenericWarning(v) in GenericWarnings(values, componentsMap)
    ensures forall w :: w in GenericWarnings(values, componentsMap) ==>
              exists v :: v in values && !Truthy(Get(componentsMap, v)) && w == GenericWarning(v)
  {
    if values != [] {
      var init := values[..|values| - 1];
      GenericsTableSpec(init, componentsMap);
      assert values == init + [values[|values| - 1]];
    }
  }

  /** A declared prop: `String`, `{ type: String, default }`, or anything else. */
  datatype PropDecl = StringType | StringWithDefault(default: string) | OtherProp(value: JsValue)

  /** `componentGenerics[name].default` is truthy. */
  predicate HasDefault(decl: JsValue) {
    decl.Object? && Truthy(Get(decl.props, "default"))
  }

  function GenericPropName(name: string): string {
    "generic" + name
  }

  function GenericProp(componentGenerics: Dict<JsValue>, name: string): PropDecl {
    if HasDefault(Get(componentGenerics, name)) then StringWithDefault(name + "default") else StringType
  }

  /** The props after one `generic<name>` prop per generic name is written, in order. */
  function WithGenericPropsFor(props: map<string, PropDecl>, names: seq<string>, componentGenerics: Dict<JsValue>): map<string, PropDecl> {
    if names == [] then props
    else
      var g := names[|names| - 1];
      WithGenericPropsFor(props, names[..|names| - 1], componentGenerics)[GenericPropName(g) := GenericProp(componentGenerics, g)]
  }

  /** `option.props` after the generics block. */
  function WithGenericProps(props: Option<map<string, PropDecl>>, componentGenerics: Dict<JsValue>): map<string, PropDecl> {
    WithGenericPropsFor(Base(props)["generichash" := StringType], componentGenerics.keys, componentGenerics)
  }

  lemma GenericPropNameInjective(a: string, b: string)
    ensures GenericPropName(a) == GenericPropName(b) ==> a == b
  {
    if GenericPropName(a) == GenericPropName(b) {
      assert a == GenericPropName(a)[7..];
    }
  }

  lemma {:induction false} WithGenericPropsForSpec(props: map<string, PropDecl>, names: seq<string>, componentGenerics: Dict<JsValue>)
    ensures var r := WithGenericPropsFor(props, names, componentGenerics);
            && (forall g :: g in names ==> GenericPropName(g) in r && r[GenericPropName(g)] == GenericProp(componentGenerics, g))
            && (forall k :: k in props && (forall g :: g in names ==> k != GenericPropName(g)) ==> k in r && r[k] == props[k])
  {
    if names != [] {
      var init := names[..|names| - 1];
      var last := names[|names| - 1];
      WithGenericPropsForSpec(props, init, componentGenerics);
      assert names == init + [last];
      forall g | g in init && g != last ensures GenericPropName(g) != GenericPropName(last) {
        GenericPropNameInjective(g, last);
      }
    }
  }

  /** Every generic name gets a string prop `generic<name>` whose default is
      `<name>default` exactly when the declaration sets one; `generichash` is
      `String` unless a generic named `hash` overwrites it; other props are kept. */
  lemma WithGenericPropsSpec(props: Option<map<string, PropDecl>>, componentGenerics: Dict<JsValue>)
    ensures var r := WithGenericProps(props, componentGenerics);
            && "generichash" in r
            && ("hash" !in componentGenerics.keys ==> r["generichash"] == StringType)
            && (forall g :: g in componentGenerics.keys ==>
                  GenericPropName(g) in r
                  && (r[GenericPropName(g)] == StringWithDefault(g + "default") <==> HasDefault(Get(componentGenerics, g)))
                  && (!HasDefault(Get(componentGenerics, g)) ==> r[GenericPropName(g)] == StringType))
            && (forall k :: k in Base(props) && k != "generichash" && (forall g :: g in componentGenerics.keys ==> k != GenericPropName(g))
                  ==> k in r && r[k] == Base(props)[k])
  {
    var start := Base(props)["generichash" := StringType];
    WithGenericPropsForSpec(start, componentGenerics.keys, componentGenerics);
    forall g | g in componentGenerics.keys && "generichash" == GenericPropName(g) ensures g == "hash" {
      GenericPropNameInjective(g, "hash");
    }
  }

  // ---------------------------------------------------------------------
  // The option object
  // ---------------------------------------------------------------------

  /** The component option object that `processComponentOption` completes in
      place; `None` is a field that is not set. */
  class ComponentOption {
    var components: Option<map<string, JsValue>>
    var props: Option<map<string, PropDecl>>
    var pageConfig: Option<map<string, JsValue>>
    var directives: Option<seq<string>>
    var filters: Option<seq<string>>
    var mixins: Option<seq<JsValue>>
    var componentPath: Option<string>

    constructor (components: Option<map<string, JsValue>>, props: Option<map<string, PropDecl>>,
                 mixins: Option<seq<JsValue>>)
      ensures this.components == components && this.props == props && this.mixins == mixins
      ensures pageConfig.None? && directives.None? && filters.None? && componentPath.None?
    {
      this.components := components;
      this.props := props;
      this.mixins := mixins;
      pageConfig := None;
      directives := None;
      filters := None;
      componentPath := None;
    }

    /** The `for…in` over `componentsMap`. */
    method RegisterComponents(componentsMap: Dict<JsValue>)
      modifies this`components
      ensures components == WithComponents(old(components), componentsMap)
    {
      var i := 0;
      while i < |componentsMap.keys|
        invariant 0 <= i <= |componentsMap.keys|
        invariant components == if i == 0 then old(components)
                                else Some(RegisterAll(Base(old(components)), componentsMap.keys[..i], componentsMap))
      {
        var name := componentsMap.keys[i];
        assert componentsMap.keys[..i + 1][..i] == componentsMap.keys[..i];
        if components.None? {
          components := Some(map[]);
        }
        components := Some(components.value[name := Get(componentsMap, name)]);
        i := i + 1;
      }
      assert componentsMap.keys[..i] == componentsMap.keys;
    }

    /** The `forEach` over the generic names. */
    method AddGenericProps(componentGenerics: Dict<JsValue>)
      modifies this`props
      ensures props == Some(WithGenericProps(old(props), componentGenerics))
    {
      var p := Base(props);
      p := p["generichash" := StringType];
      var names := componentGenerics.keys;
      var i := 0;
      while i < |names|
        invariant 0 <= i <= |names|
        invariant p == WithGenericPropsFor(Base(old(props))["generichash" := StringType], names[..i], componentGenerics)
      {
        var g := names[i];
        assert names[..i + 1][..i] == names[..i];
        if HasDefault(Get(componentGenerics, g)) {
          p := p[GenericPropName(g) := StringWithDefault(g + "default")];
        } else {
          p := p[GenericPropName(g) := StringType];
        }
        i := i + 1;
      }
      assert names[..i] == names;
      props := Some(p);
    }

    /** The page config, the web-only directives and filters, the mixin and
        the component path. */
    method Complete(ctorType: string, outputPath: string, pageConfig: Option<map<string, JsValue>>,
                    globalPageConfig: Option<map<string, JsValue>>, mixin: JsValue, hasApp: bool)
      modifies this`pageConfig, this`directives, this`filters, this`mixins, this`componentPath
      ensures this.pageConfig == if ctorType == "page" then Some(Base(globalPageConfig) + Base(pageConfig))
                                 else old(this.pageConfig)
      ensures directives == if hasApp then old(directives) else Some(["animation"])
      ensures filters == if hasApp then old(filters) else Some(["transRpxStyle"])
      ensures mixins == Some(if old(mixins).Some? then old(mixins).value + [mixin] else [mixin])
      ensures componentPath == if outputPath != "" then Some("/" + outputPath) else old(componentPath)
    {
      if ctorType == "page" {
        this.pageConfig := Some(Base(globalPageConfig) + Base(pageConfig));
      }
      if !hasApp {
        directives := Some(["animation"]);
        filters := Some(["transRpxStyle"]);
      }
      if mixins.Some? {
        mixins := Some(mixins.value + [mixin]);
      } else {
        mixins := Some([mixin]);
      }
      if outputPath != "" {
        componentPath := Some("/" + outputPath);
      }
    }
  }

  /** `global.__mpxGenericsMap`: one table per generics hash. */
  class GenericsRegistry {
    var tables: map<string, map<string, JsValue>>

    constructor ()
      ensures tables == map[]
    {
      tables := map[];
    }

    /** The `genericsInfo` block: a fresh table under the hash, filled with the
        registered values, and a warning per missing one. */
    method RecordGenerics(info: GenericsInfo, componentsMap: Dict<JsValue>) returns (warnings: seq<string>)
      modifies this
      ensures tables == old(tables)[info.hash := GenericsTable(info.values.keys, componentsMap)]
      ensures warnings == GenericWarnings(info.values.keys, componentsMap)
    {
      var table: map<string, JsValue> := map[];
      warnings := [];
      var values := info.values.keys;
      var i := 0;
      while i < |values|
        invariant 0 <= i <= |values|
        invariant table == GenericsTable(values[..i], componentsMap)
        invariant warnings == GenericWarnings(values[..i], componentsMap)
      {
        var v := values[i];
        assert values[..i + 1][..i] == values[..i];
        if Truthy(Get(componentsMap, v)) {
          table := table[v := Get(componentsMap, v)];
        } else {
          warnings := warnings + [GenericWarning(v)];
        }
        i := i + 1;
      }
      assert values[..i] == values;
      tables := tables[info.hash := table];
    }
  }

  /** `processComponentOption`: returns the same option object, completed.
      `globalPageConfig` is `global.__mpxPageConfig`. */
  method ProcessComponentOption(option: ComponentOption, ctorType: string, outputPath: string,
                                pageConfig: Option<map<string, JsValue>>, globalPageConfig: Option<map<string, JsValue>>,
                                componentsMap: Dict<JsValue>, componentGenerics: Option<Dict<JsValue>>,
                                genericsInfo: Option<GenericsInfo>, mixin: JsValue, hasApp: bool,
                                registry: GenericsRegistry)
    returns (r: ComponentOption, warnings: seq<string>)
    requires componentsMap.Valid()
    requires componentGenerics.Some? ==>
               forall g :: g in componentGenerics.value.keys ==> !Get(componentGenerics.value, g).Undefined? && !Get(componentGenerics.value, g).Null?
    modifies option, registry
    ensures r == option
    ensures option.components == WithComponents(old(option.components), componentsMap)
    ensures registry.tables == if genericsInfo.Some?
                               then old(registry.tables)[genericsInfo.value.hash := GenericsTable(genericsInfo.value.values.keys, componentsMap)]
                               else old(registry.tables)
    ensures warnings == if genericsInfo.Some? then GenericWarnings(genericsInfo.value.values.keys, componentsMap) else []
    ensures option.props == if componentGenerics.Some? then Some(WithGenericProps(old(option.props), componentGenerics.value))
                            else old(option.props)
    ensures option.pageConfig == if ctorType == "page" then Some(Base(globalPageConfig) + Base(pageConfig))
                                 else old(option.pageConfig)
    ensures option.directives == if hasApp then old(option.directives) else Some(["animation"])
    ensures option.filters == if hasApp then old(option.filters) else Some(["transRpxStyle"])
    ensures option.mixins == Some(if old(option.mixins).Some? then old(option.mixins).value + [mixin] else [mixin])
    ensures option.componentPath == if outputPath != "" then Some("/" + outputPath) else old(option.componentPath)
  {
    option.RegisterComponents(componentsMap);
    warnings := [];
    if genericsInfo.Some? {
      warnings := registry.RecordGenerics(genericsInfo.value, componentsMap);
    }
    if componentGenerics.Some? {
      option.AddGenericProps(componentGenerics.value);
    }
    option.Complete(ctorType, outputPath, pageConfig, globalPageConfig, mixin, hasApp);
    r := option;
  }

  // ---------------------------------------------------------------------
  // getComponent
  // ---------------------------------------------------------------------

  /** `component.__esModule` is truthy. */
  predicate IsEsModule(fields: map<string, JsValue>) {
    "__esModule" in fields && Truthy(fields["__esModule"])
  }

  /** `getComponent(component, extendOptions)`: `defaultExport` is the object
      `component.default` refers to. The chosen object receives the extension
      options in place and is returned. */
  method GetComponent(component: JsObjectRef, defaultExport: JsObjectRef,
                      extendOptions: Option<map<string, JsValue>>) returns (r: JsObjectRef)
    modifies component, defaultExport
    ensures r == if IsEsModule(old(component.fields)) then defaultExport else component
    ensures r.fields == if extendOptions.Some? then old(r.fields) + extendOptions.value else old(r.fields)
    ensures r != component ==> component.fields == old(component.fields)
    ensures r != defaultExport ==> defaultExport.fields == old(defaultExport.fields)
  {
    r := if IsEsModule(component.fields) then defaultExport else component;
    if extendOptions.Some? {
      r.fields := r.fields + extendOptions.value;
    }
  }

  // ---------------------------------------------------------------------
  // The wxs mixin
  // ---------------------------------------------------------------------

  /** What `getWxsMixin` returns: `{}`, or a mixin whose `created` hook
      installs the given modules. */
  datatype WxsMixin = EmptyMixin | CreatedHook(modules: Dict<JsValue>)

  /** `getWxsMixin(wxsModules)`; `None` is a falsy argument. */
  function GetWxsMixin(wxsModules: Option<Dict<JsValue>>): (r: WxsMixin)
    ensures r.EmptyMixin? <==> wxsModules.None? || wxsModules.value.keys == []
    ensures r.CreatedHook? ==> r.modules == wxsModules.value
  {
    if wxsModules.None? || |wxsModules.value.keys| == 0 then EmptyMixin else CreatedHook(wxsModules.value)
  }

  function WxsConflictError(key: string): string {
    "[Mpx runtime error]: The wxs module key [" + key + "] exist in the component/page instance already, please check and rename it!"
  }

  /** The instance after the hook: each module whose key is free is installed. */
  function WxsInstalled(fields: map<string, JsValue>, keys: seq<string>, modules: map<string, JsValue>): map<string, JsValue> {
    if keys == [] then fields
    else
      var k := keys[|keys| - 1];
      var before := WxsInstalled(fields, keys[..|keys| - 1], modules);
      if k in before then before else before[k := if k in modules then modules[k] else Undefined]
  }

  /** The module keys the hook finds already present on the instance, in order. */
  function WxsConflicts(fields: map<string, JsValue>, keys: seq<string>, modules: map<string, JsValue>): seq<string> {
    if keys == [] then []
    else
      var k := keys[|keys| - 1];
      WxsConflicts(fields, keys[..|keys| - 1], modules)
        + (if k in WxsInstalled(fields, keys[..|keys| - 1], modules) then [k] else [])
  }

  /** The errors the hook logs, one per conflicting key. */
  function ConflictErrors(conflicts: seq<string>): seq<string> {
    if conflicts == [] then [] else ConflictErrors(conflicts[..|conflicts| - 1]) + [WxsConflictError(conflicts[|conflicts| - 1])]
  }

  /** The hook never overwrites a property the instance already has, and
      installs every module whose key is free with its value; nothing else is added. */
  lemma {:induction false} WxsInstalledSpec(fields: map<string, JsValue>, keys: seq<string>, modules: map<string, JsValue>)
    ensures var r := WxsInstalled(fields, keys, modules);
            && (forall k :: k in fields ==> k in r && r[k] == fields[k])
            && (forall k :: k in r <==> k in fields || k in keys)
  {
    if keys != [] {
      WxsInstalledSpec(fields, keys[..|keys| - 1], modules);
      assert keys == keys[..|keys| - 1] + [keys[|keys| - 1]];
    }
  }

  /** With distinct module keys, a free key receives its module's value. */
  lemma {:induction false} WxsInstalledValues(fields: map<string, JsValue>, keys: seq<string>, modules: map<string, JsValue>)
    requires Distinct(keys)
    ensures var r := WxsInstalled(fields, keys, modules);
            forall k :: k in keys && k !in fields && k in modules ==> k in r && r[k] == modules[k]
  {
    if keys != [] {
      var init := keys[..|keys| - 1];
      var last := keys[|keys| - 1];
      DistinctInit(keys);
      WxsInstalledValues(fields, init, modules);
      WxsInstalledSpec(fields, init, modules);
      assert keys == init + [last];
    }
  }

  lemma DistinctInit(keys: seq<string>)
    requires Distinct(keys) && keys != []
    ensures Distinct(keys[..|keys| - 1]) && keys[|keys| - 1] !in keys[..|keys| - 1]
  {
    var init := keys[..|keys| - 1];
    forall i, j | 0 <= i < j < |init| ensures init[i] != init[j] {
      assert init[i] == keys[i] && init[j] == keys[j];
    }
    forall i | 0 <= i < |init| ensures init[i] != keys[|keys| - 1] {
      assert init[i] == keys[i];
    }
  }

  /** With distinct module keys, a module's key is reported exactly when the
      instance already had it. */
  lemma {:induction false} WxsConflictsSpec(fields: map<string, JsValue>, keys: seq<string>, modules: map<string, JsValue>)
    requires Distinct(keys)
    ensures forall k :: k in keys ==> (k in WxsConflicts(fields, keys, modules) <==> k in fields)
    ensures forall k :: k in WxsConflicts(fields, keys, modules) ==> k in keys
  {
    if keys != [] {
      var init := keys[..|keys| - 1];
      var last := keys[|keys| - 1];
      DistinctInit(keys);
      WxsConflictsSpec(fields, init, modules);
      WxsInstalledSpec(fields, init, modules);
      assert keys == init + [last];
    }
  }

  /** One more key: the definitions of the installed fields and of the
      conflicts, unfolded at position `i`. */
  lemma WxsStep(fields: map<string, JsValue>, keys: seq<string>, i: nat, modules: map<string, JsValue>)
    requires i < |keys|
    ensures var before := WxsInstalled(fields, keys[..i], modules);
            && WxsInstalled(fields, keys[..i + 1], modules)
               == (if keys[i] in before then before else before[keys[i] := if keys[i] in modules then modules[keys[i]] else Undefined])
            && WxsConflicts(fields, keys[..i + 1], modules)
               == WxsConflicts(fields, keys[..i], modules) + (if keys[i] in before then [keys[i]] else [])
  {
    assert keys[..i + 1][..i] == keys[..i];
  }

  lemma ConflictErrorsAppend(conflicts: seq<string>, key: string)
    ensures ConflictErrors(conflicts + [key]) == ConflictErrors(conflicts) + [WxsConflictError(key)]
  {
    assert (conflicts + [key])[..|conflicts|] == conflicts;
  }

  /** The `created` hook of the wxs mixin. */
  method Created(instance: JsObjectRef, modules: Dict<JsValue>) returns (errors: seq<string>)
    modifies instance
    ensures instance.fields == WxsInstalled(old(instance.fields), modules.keys, modules.entries)
    ensures errors == ConflictErrors(WxsConflicts(old(instance.fields), modules.keys, modules.entries))
  {
    ghost var start := instance.fields;
    errors := [];
    var keys := modules.keys;
    var i := 0;
    while i < |keys|
      invariant 0 <= i <= |keys|
      invariant instance.fields == WxsInstalled(start, keys[..i], modules.entries)
      invariant errors == ConflictErrors(WxsConflicts(start, keys[..i], modules.entries))
    {
      var key := keys[i];
      ghost var conflicts := WxsConflicts(start, keys[..i], modules.entries);
      WxsStep(start, keys, i, modules.entries);
      if key in instance.fields {
        ConflictErrorsAppend(conflicts, key);
        assert WxsConflicts(start, keys[..i + 1], modules.entries) == conflicts + [key];
        errors := errors + [WxsConflictError(key)];
      } else {
        assert WxsConflicts(start, keys[..i + 1], modules.entries) == conflicts;
        instance.fields := instance.fields[key := Get(modules, key)];
      }
      i := i + 1;
    }
    assert keys[..i] == keys;
  }

  // ---------------------------------------------------------------------
  // The route table
  // ---------------------------------------------------------------------

  /** A route of the app's router: a page, or the redirect of `/`. */
  datatype Route = PageRoute(path: string, component: JsValue) | RedirectRoute(path: string, redirect: string)

  /** The routes built in `createApp`; `firstPage` is `""` when unset. */
  method BuildRoutes(pagesMap: Dict<JsValue>, firstPage: string) returns (routes: seq<Route>)
    ensures |routes| == |pagesMap.keys| + (if |pagesMap.keys| > 0 && firstPage != "" then 1 else 0)
    ensures forall i :: 0 <= i < |pagesMap.keys| ==>
              routes[i] == PageRoute("/" + pagesMap.keys[i], Get(pagesMap, pagesMap.keys[i]))
    ensures |pagesMap.keys| > 0 && firstPage != "" ==> routes[|pagesMap.keys|] == RedirectRoute("/", "/" + firstPage)
  {
    routes := [];
    var i := 0;
    while i < |pagesMap.keys|
      invariant 0 <= i <= |pagesMap.keys| && |routes| == i
      invariant forall j :: 0 <= j < i ==> routes[j] == PageRoute("/" + pagesMap.keys[j], Get(pagesMap, pagesMap.keys[j]))
    {
      var pagePath := pagesMap.keys[i];
      routes := routes + [PageRoute("/" + pagePath, Get(pagesMap, pagePath))];
      i := i + 1;
    }
    if |routes| > 0 && firstPage != "" {
      routes := routes + [RedirectRoute("/", "/" + firstPage)];
    }
  }
}

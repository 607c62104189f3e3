/** The cross-platform call-site rewriter of the web build plugin: the parser
    hooks that replace the `wx` global by `mpx` (injecting the accessor import
    at most once per module), and that append a source-mode literal to the
    arguments of cross-platform API calls. */
module CrossPlatform {
  import opened Common

  datatype Range = Range(start: int, end: int)

  /** The parser's view of an expression reaching the `expression` hook. */
  datatype Expr =
    | Identifier(name: string, range: Range)
    | MemberExpression(obj: Expr, range: Range)
    | OtherExpression(range: Range)

  /** The dependencies the rewriter adds to a module or block. */
  datatype Dependency =
    | ReplaceDependency(content: string, range: Range)
    | InjectDependency(content: string, index: int)
    | CommonJsVariableDependency(request: string, name: string)
    | OtherDependency

  /** What the hooks learn about the module being parsed: the resource path and
      the `mode` query of its request (`""` when absent), the plugin's source
      mode and target mode, and the `transMpxRules` condition as a test. */
  datatype Context = Context(resourcePath: string, localSrcMode: string, globalSrcMode: string,
                             mode: string, transMpxRules: string -> bool)

  /** `options.srcMode || 'wx'` */
  function GlobalSrcMode(srcModeOption: string): (r: string)
    ensures r != ""
  {
    if srcModeOption == "" then "wx" else srcModeOption
  }

  /** `localSrcMode || globalSrcMode` */
  function SrcMode(ctx: Context): string {
    if ctx.localSrcMode != "" then ctx.localSrcMode else ctx.globalSrcMode
  }

  /** The hooks are installed only when the plugin's source mode is not its target mode. */
  predicate HooksInstalled(ctx: Context) {
    ctx.globalSrcMode != ctx.mode
  }

  /** A webpack module or dependency block, whose dependency lists the hooks extend. */
  class DependencyBlock {
    var dependencies: seq<Dependency>
    var presentationalDependencies: seq<Dependency>

    constructor ()
      ensures dependencies == [] && presentationalDependencies == []
    {
      dependencies := [];
      presentationalDependencies := [];
    }
  }

  // ---------------------------------------------------------------------------
  // transGlobalObject

  /** The node that is replaced: the identifier itself, or the object of a member expression. */
  function Target(expr: Expr): Option<Expr> {
    match expr
    case Identifier(_, _) => Some(expr)
    case MemberExpression(obj, _) => Some(obj)
    case OtherExpression(_) => None
  }

  /** `target.name`: undefined unless the target is an identifier. */
  function TargetName(target: Expr): Option<string> {
    if target.Identifier? then Some(target.name) else None
  }

  /** The runtime export the replacement refers to. */
  function AccessorName(name: Option<string>): string {
    if name == Some("wx") then "mpx" else "createFactory"
  }

  /** `wx` becomes `mpx`; any other global `g` becomes `createFactory(JSON.stringify(g))`. */
  function ReplaceContent(name: Option<string>): string {
    if name == Some("wx") then "mpx"
    else "createFactory(" + (if name.Some? then JsonString(name.value) else "undefined") + ")"
  }

  function AccessorRequest(name: string): string {
    "@mpxjs/core/src/runtime/" + name
  }

  /** The module already depends on the accessor `name`. */
  predicate HasAccessor(deps: seq<Dependency>, name: string) {
    exists i :: 0 <= i < |deps| && deps[i].CommonJsVariableDependency? && deps[i].name == name
  }

  /** The dependency list after the accessor `name` is injected unless present. */
  function WithAccessor(deps: seq<Dependency>, name: string): seq<Dependency> {
    if HasAccessor(deps, name) then deps else deps + [CommonJsVariableDependency(AccessorRequest(name), name)]
  }

  /** All the conditions under which `transGlobalObject` rewrites `expr`. */
  predicate TransGlobalFires(ctx: Context, expr: Expr) {
    && HooksInstalled(ctx)
    && ctx.transMpxRules(ctx.resourcePath)
    && !Contains(ctx.resourcePath, "@mpxjs")
    && Target(expr).Some?
    && ctx.mode != SrcMode(ctx)
  }

  /** The `expression` hook for `wx`: replaces the target and injects the accessor. */
  method TransGlobalObject(ctx: Context, expr: Expr, mod: DependencyBlock, current: DependencyBlock)
    modifies mod, current
    ensures mod != current ==> mod.presentationalDependencies == old(mod.presentationalDependencies)
    ensures mod != current ==> current.dependencies == old(current.dependencies)
    ensures !TransGlobalFires(ctx, expr) ==>
              current.presentationalDependencies == old(current.presentationalDependencies)
              && mod.dependencies == old(mod.dependencies)
    ensures TransGlobalFires(ctx, expr) ==>
              var target := Target(expr).value;
              var name := TargetName(target);
              && current.presentationalDependencies
                 == old(current.presentationalDependencies) + [ReplaceDependency(ReplaceContent(name), target.range)]
              && mod.dependencies == WithAccessor(old(mod.dependencies), AccessorName(name))
  {
    if !TransGlobalFires(ctx, expr) {
      return;
    }
    var target := Target(expr).value;
    var name := AccessorName(TargetName(target));
    current.presentationalDependencies :=
      current.presentationalDependencies + [ReplaceDependency(ReplaceContent(TargetName(target)), target.range)];
    var deps := mod.dependencies;
    var needInject := true;
    var i := 0;
    while i < |deps|
      invariant 0 <= i <= |deps|
      invariant needInject <==> forall j :: 0 <= j < i ==> !(deps[j].CommonJsVariableDependency? && deps[j].name == name)
    {
      if deps[i].CommonJsVariableDependency? && deps[i].name == name {
        needInject := false;
        break;
      }
      i := i + 1;
    }
    assert needInject <==> !HasAccessor(deps, name);
    if needInject {
      mod.dependencies := deps + [CommonJsVariableDependency(AccessorRequest(name), name)];
    }
  }

  /** The number of accessor dependencies named `name`. */
  function AccessorCount(deps: seq<Dependency>, name: string): nat {
    if deps == [] then 0
    else AccessorCount(deps[..|deps| - 1], name)
         + (if deps[|deps| - 1].CommonJsVariableDependency? && deps[|deps| - 1].name == name then 1 else 0)
  }

  lemma {:induction false} AccessorCountPositive(deps: seq<Dependency>, name: string)
    ensures AccessorCount(deps, name) > 0 <==> HasAccessor(deps, name)
  {
    if deps != [] {
      var init := deps[..|deps| - 1];
      AccessorCountPositive(init, name);
      if HasAccessor(init, name) {
        var i :| 0 <= i < |init| && init[i].CommonJsVariableDependency? && init[i].name == name;
        assert deps[i] == init[i];
      }
      assert forall i :: 0 <= i < |init| ==> init[i] == deps[i];
    }
  }

  /** However often the hook fires, a module never holds more accessors of one
      name than before plus one; starting from none it ends with exactly one. */
  lemma WithAccessorCount(deps: seq<Dependency>, name: string)
    ensures AccessorCount(WithAccessor(deps, name), name)
            == if AccessorCount(deps, name) == 0 then 1 else AccessorCount(deps, name)
  {
    AccessorCountPositive(deps, name);
    var w := WithAccessor(deps, name);
    if !HasAccessor(deps, name) {
      assert w[..|w| - 1] == deps;
    }
  }

  /** Injecting the accessor a second time changes nothing. */
  lemma WithAccessorIdempotent(deps: seq<Dependency>, name: string)
    ensures WithAccessor(WithAccessor(deps, name), name) == WithAccessor(deps, name)
  {
    var w := WithAccessor(deps, name);
    if !HasAccessor(deps, name) {
      assert w[|w| - 1].CommonJsVariableDependency? && w[|w| - 1].name == name;
    }
  }

  /** `wx` is replaced by `mpx` and imports the `mpx` accessor; any other global
      identifier whose name needs no escaping becomes `createFactory("<name>")`. */
  lemma ReplacementText(name: string)
    requires forall i :: 0 <= i < |name| ==> !NeedsEscape(name[i])
    ensures name == "wx" ==> ReplaceContent(Some(name)) == "mpx" && AccessorName(Some(name)) == "mpx"
    ensures name != "wx" ==> ReplaceContent(Some(name)) == "createFactory(\"" + name + "\")"
                             && AccessorName(Some(name)) == "createFactory"
  {
    JsonStringPlain(name);
  }

  /** Nothing is rewritten in `@mpxjs` packages or when the module's own source
      mode already is the target mode. */
  lemma TransGlobalExemptions(ctx: Context, expr: Expr, rest: string, prefix: string)
    requires ctx.resourcePath == prefix + "@mpxjs" + rest || ctx.mode == SrcMode(ctx)
    ensures !TransGlobalFires(ctx, expr)
  {
    if ctx.resourcePath == prefix + "@mpxjs" + rest {
      assert OccursAt(ctx.resourcePath, "@mpxjs", |prefix|);
    }
  }

  // ---------------------------------------------------------------------------
  // injectSrcModeForTransApi

  /** The property of the callee: `callee.property.name || callee.property.value`;
      a property with neither reads as the key `"undefined"`. */
  datatype Property = Named(name: string) | Literal(value: string) | Computed

  function PropertyKey(p: Property): string {
    match p
    case Named(n) => n
    case Literal(v) => v
    case Computed => "undefined"
  }

  /** A call `<object>.<property>(args…)` ending at offset `end`; `objectName` is
      `callee.object.name`. */
  datatype CallExpr = CallExpr(objectName: Option<string>, property: Property, argumentCount: nat, end: int)

  /** The APIs that must never receive the source-mode argument. */
  const ApiBlackList: set<string> := {
    "createApp", "createPage", "createComponent", "createStore", "createStoreWithThis",
    "mixin", "injectMixins", "toPureObject", "observable", "watch", "use", "set",
    "remove", "delete", "setConvertRule", "getMixin", "getComputed", "implement"
  }

  /** The names a plain object inherits from `Object.prototype`; looked up in
      the blacklist object they are truthy too. */
  const ObjectPrototypeNames: set<string> := {
    "constructor", "__defineGetter__", "__defineSetter__", "hasOwnProperty",
    "__lookupGetter__", "__lookupSetter__", "isPrototypeOf", "propertyIsEnumerable",
    "toString", "valueOf", "__proto__", "toLocaleString"
  }

  /** `apiBlackListMap[key]` is truthy. */
  predicate Blacklisted(key: string) {
    key in ApiBlackList || key in ObjectPrototypeNames
  }

  function SrcModeLiteral(srcMode: string): string {
    "__mpx_src_mode_" + srcMode + "__"
  }

  /** The dependency `injectSrcModeForTransApi` adds for `call`, if any. */
  function SrcModeInjection(ctx: Context, call: CallExpr, members: seq<string>): Option<Dependency> {
    var srcMode := SrcMode(ctx);
    var name := call.objectName;
    if !HooksInstalled(ctx) || |members| == 0 then None
    else if srcMode == ctx.globalSrcMode
            || Blacklisted(PropertyKey(call.property))
            || (name != Some("mpx") && name != Some("wx"))
            || (name == Some("wx") && !ctx.transMpxRules(ctx.resourcePath))
    then None
    else
      var literal := JsonString(SrcModeLiteral(srcMode));
      Some(InjectDependency(if call.argumentCount > 0 then ", " + literal else literal, call.end - 1))
  }

  /** The `callMemberChain` hook for `mpx`, `wx` and imported bindings. */
  method InjectSrcModeForTransApi(ctx: Context, call: CallExpr, members: seq<string>, current: DependencyBlock)
    modifies current
    ensures current.dependencies == old(current.dependencies)
    ensures var inj := SrcModeInjection(ctx, call, members);
            current.presentationalDependencies
            == old(current.presentationalDependencies) + (if inj.Some? then [inj.value] else [])
  {
    if !HooksInstalled(ctx) || |members| == 0 {
      return;
    }
    var name := call.objectName;
    var srcMode := SrcMode(ctx);
    if srcMode == ctx.globalSrcMode || Blacklisted(PropertyKey(call.property))
       || (name != Some("mpx") && name != Some("wx"))
       || (name == Some("wx") && !ctx.transMpxRules(ctx.resourcePath)) {
      return;
    }
    var literal := JsonString(SrcModeLiteral(srcMode));
    var content := if call.argumentCount > 0 then ", " + literal else literal;
    current.presentationalDependencies := current.presentationalDependencies + [InjectDependency(content, call.end - 1)];
  }

  /** The effective source mode differs from the global one exactly when the
      module's request names a source mode of its own that is not the global one. */
  lemma SrcModeDiffers(ctx: Context)
    requires ctx.globalSrcMode != ""
    ensures SrcMode(ctx) != ctx.globalSrcMode <==> ctx.localSrcMode != "" && ctx.localSrcMode != ctx.globalSrcMode
  {
  }

  /** The literal is injected exactly when every guard passes. */
  lemma InjectionConditions(ctx: Context, call: CallExpr, members: seq<string>)
    requires ctx.globalSrcMode != ""
    ensures SrcModeInjection(ctx, call, members).Some? <==>
              && HooksInstalled(ctx)
              && |members| > 0
              && ctx.localSrcMode != "" && ctx.localSrcMode != ctx.globalSrcMode
              && PropertyKey(call.property) !in ApiBlackList
              && PropertyKey(call.property) !in ObjectPrototypeNames
              && (call.objectName == Some("mpx") || (call.objectName == Some("wx") && ctx.transMpxRules(ctx.resourcePath)))
  {
    SrcModeDiffers(ctx);
  }

  lemma QuotedSrcModeLiteral(m: string)
    requires forall i :: 0 <= i < |m| ==> !NeedsEscape(m[i])
    ensures JsonString(SrcModeLiteral(m)) == "\"__mpx_src_mode_" + m + "__\""
  {
    SrcModeAffixesPlain();
    JsonStringPlainConcat("__mpx_src_mode_", m, "__");
  }

  /** The fixed parts of the literal need no escaping. */
  lemma SrcModeAffixesPlain()
    ensures forall i :: 0 <= i < |"__mpx_src_mode_"| ==> !NeedsEscape("__mpx_src_mode_"[i])
    ensures forall i :: 0 <= i < |"__"| ==> !NeedsEscape("__"[i])
  {
    var p := "__mpx_src_mode_";
    forall i | 0 <= i < |p| ensures !NeedsEscape(p[i]) {
      assert p[i] in "_mpxsrcode";
    }
  }

  /** The injected text is the quoted literal `"__mpx_src_mode_<srcMode>__"`,
      preceded by `, ` only when the call already has arguments, and it goes just
      before the closing parenthesis. */
  lemma InjectionText(ctx: Context, call: CallExpr, members: seq<string>)
    requires SrcModeInjection(ctx, call, members).Some?
    requires forall i :: 0 <= i < |ctx.localSrcMode| ==> !NeedsEscape(ctx.localSrcMode[i])
    ensures var d := SrcModeInjection(ctx, call, members).value;
            var quoted := "\"__mpx_src_mode_" + ctx.localSrcMode + "__\"";
            && d.InjectDependency?
            && d.index == call.end - 1
            && d.content == (if call.argumentCount > 0 then ", " + quoted else quoted)
  {
    assert SrcMode(ctx) == ctx.localSrcMode;
    QuotedSrcModeLiteral(ctx.localSrcMode);
  }
}

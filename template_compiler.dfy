/** The template loader: it selects the render-optimisation level, compresses
    custom component names, records inline wxs modules, and either returns the
    serialised template as is or assembles the render-function source that is
    bound to the instance and attached to the module. The parser, the
    serialiser, the code generator, the scope binder and the name generator
    are collaborators given as functions. */
module TemplateCompiler {
  import opened Common
  import opened JsValues
  import ResourceRegistry

  // ---------------------------------------------------------------------------
  // The template tree

  datatype Attr = Attr(name: string, value: string)

  /** A node of the parsed template; `NullNode` is a removed child. */
  datatype Node = NullNode | Element(tag: string, attrs: seq<Attr>, children: seq<Node>)

  /** The tags of the non-null nodes `walkNode` reaches. */
  function TagsOf(n: Node): set<string>
    decreases n
  {
    match n
    case NullNode => {}
    case Element(tag, _, children) => {tag} + ForestTags(children)
  }

  function ForestTags(ns: seq<Node>): set<string>
    decreases ns
  {
    if ns == [] then {} else TagsOf(ns[0]) + ForestTags(ns[1..])
  }

  /** The tag is one the first walk records as native. */
  predicate IsNativeTag(tag: string, usingComponents: seq<string>) {
    tag != "" && tag !in usingComponents
  }

  /** `nativeTags.add(tag)` on a set kept in insertion order. */
  function AddNative(acc: seq<string>, tag: string, usingComponents: seq<string>): seq<string> {
    if IsNativeTag(tag, usingComponents) && tag !in acc then acc + [tag] else acc
  }

  /** The first walk: the native tags of `n` appended, in pre-order, to `acc`. */
  function CollectNative(n: Node, usingComponents: seq<string>, acc: seq<string>): seq<string>
    decreases n
  {
    match n
    case NullNode => acc
    case Element(tag, _, children) => CollectForest(children, usingComponents, AddNative(acc, tag, usingComponents))
  }

  function CollectForest(ns: seq<Node>, usingComponents: seq<string>, acc: seq<string>): seq<string>
    decreases ns
  {
    if ns == [] then acc else CollectForest(ns[1..], usingComponents, CollectNative(ns[0], usingComponents, acc))
  }

  predicate NoDuplicates(s: seq<string>) {
    forall i, j :: 0 <= i < j < |s| ==> s[i] != s[j]
  }

  /** The walk records exactly the non-empty tags that are not registered
      components, each once. */
  lemma {:induction false} CollectNativeSpec(n: Node, usingComponents: seq<string>, acc: seq<string>)
    requires NoDuplicates(acc)
    ensures NoDuplicates(CollectNative(n, usingComponents, acc))
    ensures forall t :: t in CollectNative(n, usingComponents, acc)
                        <==> t in acc || (t in TagsOf(n) && IsNativeTag(t, usingComponents))
    decreases n
  {
    match n
    case NullNode =>
    case Element(tag, _, children) =>
      var acc' := AddNative(acc, tag, usingComponents);
      assert NoDuplicates(acc') by {
        if IsNativeTag(tag, usingComponents) && tag !in acc {
          forall i, j | 0 <= i < j < |acc'| ensures acc'[i] != acc'[j] {
            if j == |acc| { assert acc'[i] == acc[i]; }
          }
        }
      }
      CollectForestSpec(children, usingComponents, acc');
  }

  lemma {:induction false} CollectForestSpec(ns: seq<Node>, usingComponents: seq<string>, acc: seq<string>)
    requires NoDuplicates(acc)
    ensures NoDuplicates(CollectForest(ns, usingComponents, acc))
    ensures forall t :: t in CollectForest(ns, usingComponents, acc)
                        <==> t in acc || (t in ForestTags(ns) && IsNativeTag(t, usingComponents))
    decreases ns
  {
    if ns != [] {
      CollectNativeSpec(ns[0], usingComponents, acc);
      CollectForestSpec(ns[1..], usingComponents, CollectNative(ns[0], usingComponents, acc));
    }
  }

  /** A registered tag of the tree, the kind the second walk renames. */
  predicate IsRegisteredTag(tag: string, usingComponents: seq<string>) {
    tag != "" && tag in usingComponents
  }

  /** The tag the second walk gives a node. */
  function RenameTag(tag: string, usingComponents: seq<string>, alias: string -> string): string {
    if IsRegisteredTag(tag, usingComponents) then alias(tag) else tag
  }

  /** The second walk: every node's tag through `RenameTag`. */
  function Rename(n: Node, usingComponents: seq<string>, alias: string -> string): Node
    decreases n
  {
    match n
    case NullNode => NullNode
    case Element(tag, attrs, children) =>
      Element(RenameTag(tag, usingComponents, alias), attrs, RenameForest(children, usingComponents, alias))
  }

  function RenameForest(ns: seq<Node>, usingComponents: seq<string>, alias: string -> string): (r: seq<Node>)
    ensures |r| == |ns|
    decreases ns
  {
    if ns == [] then [] else [Rename(ns[0], usingComponents, alias)] + RenameForest(ns[1..], usingComponents, alias)
  }

  /** Two trees with the same nodes, attributes and children, tags aside. */
  predicate SameShape(a: Node, b: Node)
    decreases a
  {
    match a
    case NullNode => b.NullNode?
    case Element(_, attrs, children) =>
      b.Element? && b.attrs == attrs && |b.children| == |children|
      && forall i :: 0 <= i < |children| ==> SameShape(children[i], b.children[i])
  }

  lemma {:induction false} RenameShape(n: Node, usingComponents: seq<string>, alias: string -> string)
    ensures SameShape(n, Rename(n, usingComponents, alias))
    decreases n
  {
    match n
    case NullNode =>
    case Element(tag, attrs, children) =>
      forall i | 0 <= i < |children|
        ensures SameShape(children[i], RenameForest(children, usingComponents, alias)[i])
      {
        RenameForestAt(children, usingComponents, alias, i);
        RenameShape(children[i], usingComponents, alias);
      }
  }

  lemma {:induction false} RenameForestAt(ns: seq<Node>, usingComponents: seq<string>, alias: string -> string, i: nat)
    requires i < |ns|
    ensures RenameForest(ns, usingComponents, alias)[i] == Rename(ns[i], usingComponents, alias)
    decreases ns
  {
    if i > 0 {
      RenameForestAt(ns[1..], usingComponents, alias, i - 1);
    }
  }

  /** The renamed tree's tags are the old tags, each through `RenameTag`. */
  lemma {:induction false} RenameTags(n: Node, usingComponents: seq<string>, alias: string -> string)
    ensures TagsOf(Rename(n, usingComponents, alias)) == set t | t in TagsOf(n) :: RenameTag(t, usingComponents, alias)
    decreases n
  {
    match n
    case NullNode =>
    case Element(tag, attrs, children) =>
      RenameForestTags(children, usingComponents, alias);
  }

  lemma {:induction false} RenameForestTags(ns: seq<Node>, usingComponents: seq<string>, alias: string -> string)
    ensures ForestTags(RenameForest(ns, usingComponents, alias))
            == set t | t in ForestTags(ns) :: RenameTag(t, usingComponents, alias)
    decreases ns
  {
    if ns != [] {
      RenameTags(ns[0], usingComponents, alias);
      RenameForestTags(ns[1..], usingComponents, alias);
      assert RenameForest(ns, usingComponents, alias)[1..] == RenameForest(ns[1..], usingComponents, alias);
    }
  }

  /** When the generated names avoid the exclusion list of native tags, every
      registered tag of the tree reappears as its alias and that alias is not a
      native tag; every other tag of the renamed tree is a native tag or the
      empty tag of the original tree, or the alias of a registered tag. */
  lemma CompressionAvoidsNatives(root: Node, usingComponents: seq<string>, natives: seq<string>,
                                 alias: string -> string)
    requires forall t :: t in natives <==> t in TagsOf(root) && IsNativeTag(t, usingComponents)
    requires forall t :: alias(t) !in natives
    ensures forall u :: u in TagsOf(root) && IsRegisteredTag(u, usingComponents) ==>
                          alias(u) in TagsOf(Rename(root, usingComponents, alias)) && alias(u) !in natives
    ensures forall t :: t in TagsOf(Rename(root, usingComponents, alias)) ==>
                          || t in natives
                          || (t == "" && "" in TagsOf(root))
                          || exists u :: u in TagsOf(root) && IsRegisteredTag(u, usingComponents) && t == alias(u)
  {
    RenameTags(root, usingComponents, alias);
    var renamed := TagsOf(Rename(root, usingComponents, alias));
    forall u | u in TagsOf(root) && IsRegisteredTag(u, usingComponents) ensures alias(u) in renamed {
      assert RenameTag(u, usingComponents, alias) == alias(u);
    }
    forall t | t in renamed
      ensures || t in natives
              || (t == "" && "" in TagsOf(root))
              || exists u :: u in TagsOf(root) && IsRegisteredTag(u, usingComponents) && t == alias(u)
    {
      var u :| u in TagsOf(root) && t == RenameTag(u, usingComponents, alias);
      if !IsRegisteredTag(u, usingComponents) {
        assert t == u;
      }
    }
  }

  // ---------------------------------------------------------------------------
  // Decisions of the driver

  /** An entry of `optimizeRenderRules`: its condition as a test, and `level`
      (0 when absent). */
  datatype RenderRule = RenderRule(test: string -> bool, level: int)

  /** `rule.level || 1` */
  function RuleLevel(rule: RenderRule): int {
    if rule.level == 0 then 1 else rule.level
  }

  /** The level of the first rule matching the resource, 0 when none does. */
  function OptimizeRenderLevel(rules: seq<RenderRule>, resourcePath: string): int {
    if rules == [] then 0
    else if rules[0].test(resourcePath) then RuleLevel(rules[0])
    else OptimizeRenderLevel(rules[1..], resourcePath)
  }

  /** Later rules are never consulted once one matches, and no match means level 0. */
  lemma {:induction false} OptimizeRenderLevelFirstMatch(rules: seq<RenderRule>, resourcePath: string)
    ensures (forall i :: 0 <= i < |rules| ==> !rules[i].test(resourcePath)) ==> OptimizeRenderLevel(rules, resourcePath) == 0
    ensures forall k :: 0 <= k < |rules| && rules[k].test(resourcePath)
                        && (forall j :: 0 <= j < k ==> !rules[j].test(resourcePath))
                        ==> OptimizeRenderLevel(rules, resourcePath) == RuleLevel(rules[k])
  {
    if rules != [] && !rules[0].test(resourcePath) {
      var rest := rules[1..];
      OptimizeRenderLevelFirstMatch(rest, resourcePath);
      if forall i :: 0 <= i < |rules| ==> !rules[i].test(resourcePath) {
        forall j | 0 <= j < |rest| ensures !rest[j].test(resourcePath) {
          assert rest[j] == rules[j + 1];
        }
      }
      forall k | 0 <= k < |rules| && rules[k].test(resourcePath) && (forall j :: 0 <= j < k ==> !rules[j].test(resourcePath))
        ensures OptimizeRenderLevel(rules, resourcePath) == RuleLevel(rules[k])
      {
        assert rest[k - 1] == rules[k];
        forall j | 0 <= j < k - 1 ensures !rest[j].test(resourcePath) {
          assert rest[j] == rules[j + 1];
        }
      }
    }
  }

  /** The `for…of` with `break` over `optimizeRenderRules`. */
  method SelectOptimizeRenderLevel(resourcePath: string, rules: seq<RenderRule>) returns (level: int)
    ensures level == OptimizeRenderLevel(rules, resourcePath)
  {
    level := 0;
    var i := 0;
    while i < |rules|
      invariant 0 <= i <= |rules|
      invariant OptimizeRenderLevel(rules[i..], resourcePath) == OptimizeRenderLevel(rules, resourcePath)
    {
      assert rules[i..][1..] == rules[i + 1..];
      if rules[i].test(resourcePath) {
        level := RuleLevel(rules[i]);
        return;
      }
      i := i + 1;
    }
  }

  /** Component names are compressed only for a size-optimised, production-like
      build that does not target the web. */
  predicate CompressionEnabled(optimizeSize: bool, compilerMode: string, mode: string) {
    optimizeSize && ResourceRegistry.IsProductionLikeMode(compilerMode) && mode != "web"
  }

  /** The names the scope binder leaves alone: the render helpers and the wxs modules. */
  function IgnoreMap(wxsModuleMap: Dict<string>): (r: set<string>)
    ensures forall k :: k in r <==> k in {"_i", "_c", "_sc", "_r"} || k in wxsModuleMap.entries
  {
    {"_i", "_c", "_sc", "_r"} + wxsModuleMap.entries.Keys
  }

  /** The call made on the scope binder. */
  datatype BindCall =
    | TransformSimple(ignoreMap: set<string>)
    | Transform(ignoreMap: set<string>, needCollect: bool, renderReduce: bool)
    | TransformPlain

  datatype BindResult = BindResult(code: string, propKeysJson: Option<string>)

  /** Level 2 uses the simple binder; any other level the full one, collecting,
      with render reduction only at level 1. */
  function BindCallFor(level: int, ignoreMap: set<string>): BindCall {
    if level == 2 then TransformSimple(ignoreMap) else Transform(ignoreMap, true, level == 1)
  }

  /** The render function wrapped around the bound code. */
  function RenderSection(code: string, level: int): string {
    "\nglobal._cj.render = function (_i, _c, _r, _sc) {\n" + code + RenderCall(level)
  }

  /** The closing `_r` call: `_r(true)` at level 2, `_r()` otherwise. */
  function RenderCall(level: int): string {
    "\n_r(" + (if level == 2 then "true" else "") + ");\n};\n"
  }

  lemma SuffixOf(s: string, t: string)
    ensures (s + t)[|s + t| - |t|..] == t
  {
  }

  lemma BindStrategy(level: int, wxsModuleMap: Dict<string>, code: string)
    ensures var call := BindCallFor(level, IgnoreMap(wxsModuleMap));
            && (call.TransformSimple? <==> level == 2)
            && (call.Transform? ==> call.needCollect && (call.renderReduce <==> level == 1))
            && {"_i", "_c", "_sc", "_r"} <= call.ignoreMap
            && wxsModuleMap.entries.Keys <= call.ignoreMap
    ensures level == 2 ==> RenderSection(code, level)[|RenderSection(code, level)| - 14..] == "\n_r(true);\n};\n"
    ensures level != 2 ==> RenderSection(code, level)[|RenderSection(code, level)| - 10..] == "\n_r();\n};\n"
  {
    SuffixOf("\nglobal._cj.render = function (_i, _c, _r, _sc) {\n" + code, RenderCall(level));
    if level == 2 {
      assert RenderCall(level) == "\n_r(true);\n};\n";
    } else {
      assert RenderCall(level) == "\n_r();\n};\n";
    }
  }

  /** The key an inline wxs module of a template is stored under. */
  function WxsKey(resourcePath: string, moduleName: string): string {
    resourcePath + "~" + moduleName
  }

  /** Distinct modules of one template get distinct keys, and the module can be
      read back from the key. */
  lemma WxsKeyInjective(resourcePath: string, m1: string, m2: string)
    ensures WxsKey(resourcePath, m1)[|resourcePath| + 1..] == m1
    ensures WxsKey(resourcePath, m1) == WxsKey(resourcePath, m2) ==> m1 == m2
  {
    assert WxsKey(resourcePath, m1)[|resourcePath| + 1..] == m1;
    assert WxsKey(resourcePath, m2)[|resourcePath| + 1..] == m2;
  }

  /** Across templates the keys of the shared map can collide: the resource
      `a~b` with module `c` and the resource `a` with module `b~c` write the
      same entry. */
  lemma WxsKeysCollideAcrossTemplates()
    ensures WxsKey("a~b", "c") == WxsKey("a", "b~c")
  {
  }

  // ---------------------------------------------------------------------------
  // The loader

  /** The query parameters of the template request the driver reads
      (`mode`, `packageRoot` and `moduleId` are `""` when absent). */
  datatype Query = Query(mode: string, packageRoot: string, usingComponents: seq<string>,
                         isNative: bool, moduleId: string)

  /** The parser options the model passes; the others are not modelled. */
  datatype ParseOptions = ParseOptions(usingComponents: seq<string>, isNative: bool, isComponent: bool,
                                       isPage: bool, srcMode: string, moduleId: string, filePath: string)

  /** What the parser reports besides the tree; `refsJson` and `optionsJson`
      are the `JSON.stringify` texts of `meta.refs` and `meta.options`. */
  datatype Meta = Meta(wxsContentMap: Dict<string>, wxsModuleMap: Dict<string>, computed: Option<seq<string>>,
                       refsJson: Option<string>, optionsJson: Option<string>)

  datatype Parsed = Parsed(root: Node, meta: Meta)

  /** The plugin state and options the driver reads. `compilerMode` is the
      `mode` of the template compiler module's own `options`
      (`require('./compiler').options.mode`), not the build's `mode`. */
  datatype Config = Config(mode: string, srcMode: string, currentPackageRoot: string,
                           componentsMap: map<string, map<string, ResourceRegistry.Entry>>,
                           pagesMap: map<string, ResourceRegistry.Entry>,
                           optimizeRenderRules: seq<RenderRule>,
                           optimizeSize: bool, compilerMode: string)

  /** The collaborators: parser, serialiser, code generator, scope binder,
      name generator, `pathHash`, and the `require(...)` argument built from a
      wxs module path by `urlToRequest` and `stringifyRequest`. */
  datatype Tools = Tools(
    parse: (string, ParseOptions) -> Parsed,
    serialize: Node -> string,
    genNode: Node -> string,
    bindThis: (string, BindCall) -> Result<BindResult>,
    generateVariableNameBySource: (string, string, seq<string>) -> string,
    pathHash: string -> string,
    requireRequest: string -> string)

  /** A map entry is truthy. */
  predicate Registered(m: map<string, ResourceRegistry.Entry>, key: string) {
    key in m && m[key] != ResourceRegistry.Output("")
  }

  /** `queryObj.moduleId || '_' + pathHash(resourcePath)` */
  function ModuleId(query: Query, resourcePath: string, tools: Tools): string {
    if query.moduleId != "" then query.moduleId else "_" + tools.pathHash(resourcePath)
  }

  function ParseOptionsFor(query: Query, resourcePath: string, config: Config, tools: Tools,
                           componentsMap: map<string, ResourceRegistry.Entry>): ParseOptions {
    ParseOptions(query.usingComponents, query.isNative, Registered(componentsMap, resourcePath),
                 Registered(config.pagesMap, resourcePath),
                 if query.mode != "" then query.mode else config.srcMode,
                 ModuleId(query, resourcePath, tools), resourcePath)
  }

  /** `queryObj.packageRoot || mpx.currentPackageRoot || 'main'` */
  function PackageName(query: Query, config: Config): string {
    if query.packageRoot != "" then query.packageRoot
    else if config.currentPackageRoot != "" then config.currentPackageRoot
    else "main"
  }

  /** The name generator as the second walk calls it. */
  function AliasFor(tools: Tools, resourcePath: string, natives: seq<string>): string -> string {
    t => tools.generateVariableNameBySource(t, resourcePath + "componentName", natives)
  }

  /** The tree after optional component-name compression. */
  function CompressedTree(root: Node, usingComponents: seq<string>, resourcePath: string, tools: Tools,
                          enabled: bool): Node {
    if enabled then Rename(root, usingComponents, AliasFor(tools, resourcePath, CollectNative(root, usingComponents, [])))
    else root
  }

  /** The `var <module> = require(...)` lines, one per wxs module, in key order. */
  function RequireLines(keys: seq<string>, wxsModuleMap: Dict<string>, tools: Tools): string {
    if keys == [] then ""
    else
      var m := keys[|keys| - 1];
      RequireLines(keys[..|keys| - 1], wxsModuleMap, tools)
      + "var " + m + " = require(" + tools.requireRequest(Lookup(wxsModuleMap.entries, m)) + ");\n"
  }

  function ModuleIdSection(moduleId: string): string {
    "\nglobal._cj = {\n  moduleId: " + JsonString(moduleId) + "\n};\n"
  }

  function PropKeysSection(mode: string, propKeysJson: Option<string>): string {
    if (mode == "tt" || mode == "swan") && propKeysJson.Some? then
      "global.currentInject.propKeys = " + propKeysJson.value + ";\n"
    else ""
  }

  function ComputedSource(computed: seq<string>): string {
    "\nglobal._cj.injectComputed = {\n  " + Join(computed, ",") + "\n};"
  }

  function RefsSection(refsJson: Option<string>): string {
    if refsJson.Some? then "\nglobal._cj.getRefsData = function () {\n  return " + refsJson.value + ";\n};\n" else ""
  }

  function OptionsSection(optionsJson: Option<string>): string {
    if optionsJson.Some? then "global._cj.injectOptions = " + optionsJson.value + ";" + "\n" else ""
  }

  /** The message reported when the bound render function is rejected. */
  function BindFailure(resource: string, result: string, rawCode: string, stack: string): string {
    "[template compiler][" + resource + "]: "
    + "\nInvalid render function generated by the template, please check!\n\nTemplate result:\n" + result
    + "\n\nError code:\n" + rawCode + "\nError Detail:\n" + stack
  }

  lemma BindFailureMentions(resource: string, result: string, rawCode: string, stack: string)
    ensures Contains(BindFailure(resource, result, rawCode, stack), result)
    ensures Contains(BindFailure(resource, result, rawCode, stack), rawCode)
  {
    var prefix := "[template compiler][" + resource + "]: "
                  + "\nInvalid render function generated by the template, please check!\n\nTemplate result:\n";
    var msg := BindFailure(resource, result, rawCode, stack);
    assert msg == prefix + result + ("\n\nError code:\n" + rawCode + "\nError Detail:\n" + stack);
    assert OccursAt(msg, result, |prefix|);
    var before := prefix + result + "\n\nError code:\n";
    assert msg == before + rawCode + ("\nError Detail:\n" + stack);
    assert OccursAt(msg, rawCode, |before|);
  }

  /** `obj[key]` on a string map, `""` standing in for a missing key. */
  function Lookup(m: map<string, string>, key: string): string {
    if key in m then m[key] else ""
  }

  /** The shared content map after the wxs modules of `keys` are stored. */
  function WithWxs(m: map<string, string>, resourcePath: string, keys: seq<string>, entries: map<string, string>): map<string, string> {
    if keys == [] then m
    else
      var k := keys[|keys| - 1];
      WithWxs(m, resourcePath, keys[..|keys| - 1], entries)[WxsKey(resourcePath, k) := Lookup(entries, k)]
  }

  /** The keys the wxs modules of `keys` are stored under. */
  function WxsKeys(resourcePath: string, keys: seq<string>): set<string> {
    set k | k in keys :: WxsKey(resourcePath, k)
  }

  /** Exactly the modules' keys are added to the shared map. */
  lemma {:induction false} WithWxsDomain(m: map<string, string>, resourcePath: string, keys: seq<string>,
                                         entries: map<string, string>)
    ensures WithWxs(m, resourcePath, keys, entries).Keys == m.Keys + WxsKeys(resourcePath, keys)
  {
    if keys != [] {
      var init := keys[..|keys| - 1];
      var last := keys[|keys| - 1];
      WithWxsDomain(m, resourcePath, init, entries);
      assert keys == init + [last];
      assert WxsKeys(resourcePath, keys) == WxsKeys(resourcePath, init) + {WxsKey(resourcePath, last)};
    }
  }

  /** Every module is stored under its own key with its content. */
  lemma {:induction false} WithWxsValues(m: map<string, string>, resourcePath: string, keys: seq<string>,
                                         entries: map<string, string>)
    ensures var r := WithWxs(m, resourcePath, keys, entries);
            forall k :: k in keys ==> WxsKey(resourcePath, k) in r && r[WxsKey(resourcePath, k)] == Lookup(entries, k)
  {
    if keys != [] {
      var init := keys[..|keys| - 1];
      var last := keys[|keys| - 1];
      WithWxsValues(m, resourcePath, init, entries);
      assert keys == init + [last];
      forall k | k in keys && k != last
        ensures WxsKey(resourcePath, k) != WxsKey(resourcePath, last)
      {
        WxsKeyInjective(resourcePath, k, last);
      }
    }
  }

  /** Every other entry of the shared map is kept. */
  lemma {:induction false} WithWxsKeeps(m: map<string, string>, resourcePath: string, keys: seq<string>,
                                        entries: map<string, string>)
    ensures var r := WithWxs(m, resourcePath, keys, entries);
            forall k :: k in m && k !in WxsKeys(resourcePath, keys) ==> k in r && r[k] == m[k]
  {
    if keys != [] {
      var init := keys[..|keys| - 1];
      var last := keys[|keys| - 1];
      WithWxsKeeps(m, resourcePath, init, entries);
      assert keys == init + [last];
      assert WxsKeys(resourcePath, init) <= WxsKeys(resourcePath, keys);
      assert WxsKey(resourcePath, last) in WxsKeys(resourcePath, keys);
    }
  }

  /** The TypeError thrown when the package has no components map: the parser
      options read `componentsMap[resourcePath]` of `undefined`. */
  function MissingPackageError(resourcePath: string): string {
    "Cannot read properties of undefined (reading '" + resourcePath + "')"
  }

  /** What one run of the loader returns, reports and emits, and which wxs
      contents it stores in the shared map. */
  datatype Outcome = Outcome(result: Result<string>, error: Option<string>, extracted: Option<string>,
                             wxsContents: Option<Dict<string>>)

  /** The transformed computed block, with its newline; empty when the
      template has no computed expressions. */
  function ComputedPart(meta: Meta, tools: Tools): Result<string> {
    if meta.computed.Some? then
      match tools.bindThis(ComputedSource(meta.computed.value), TransformPlain)
      case Err(e) => Err(e)
      case Ok(b) => Ok(b.code + "\n")
    else Ok("")
  }

  /** The source appended after any render function. */
  function TailSource(source: string, meta: Meta, tools: Tools, result: string,
                      wxs: Dict<string>): Outcome {
    match ComputedPart(meta, tools)
    case Err(e) => Outcome(Err(e), None, None, Some(wxs))
    case Ok(c) => Outcome(Ok(result), None, Some(source + (c + RefsSection(meta.refsJson) + OptionsSection(meta.optionsJson))), Some(wxs))
  }

  /** The render function followed by the prop keys of `tt` and `swan`. */
  function RenderBody(b: BindResult, level: int, mode: string): string {
    RenderSection(b.code, level) + PropKeysSection(mode, b.propKeysJson)
  }

  /** A non-empty render function is bound: a failure is reported with the
      serialized result, a success is followed by the tail. */
  function Rendered(resource: string, prelude: string, rawCode: string, level: int, mode: string,
                    meta: Meta, tools: Tools, result: string): Outcome {
    match tools.bindThis(rawCode, BindCallFor(level, IgnoreMap(meta.wxsModuleMap)))
    case Err(stack) => Outcome(Ok(result), Some(BindFailure(resource, result, rawCode, stack)), None, Some(meta.wxsContentMap))
    case Ok(b) => TailSource(prelude + RenderBody(b, level, mode), meta, tools, result, meta.wxsContentMap)
  }

  /** The require lines of the wxs modules followed by the module id. */
  function Prelude(query: Query, resourcePath: string, tools: Tools, meta: Meta): string {
    RequireLines(meta.wxsModuleMap.keys, meta.wxsModuleMap, tools) + ModuleIdSection(ModuleId(query, resourcePath, tools))
  }

  /** Everything after the native early return: the require lines, the module
      id, the bound render function and the extra sections. */
  function Generate(resource: string, resourcePath: string, query: Query, config: Config, tools: Tools,
                    meta: Meta, ast: Node, level: int, result: string): Outcome {
    var prelude := Prelude(query, resourcePath, tools, meta);
    var rawCode := tools.genNode(ast);
    if rawCode != "" then Rendered(resource, prelude, rawCode, level, config.mode, meta, tools, result)
    else TailSource(prelude, meta, tools, result, meta.wxsContentMap)
  }

  /** The loader after parsing: compression, the native early return, or generation. */
  function CompileParsed(resource: string, resourcePath: string, query: Query, config: Config, tools: Tools,
                         parsed: Parsed): Outcome {
    var ast := CompressedTree(parsed.root, query.usingComponents, resourcePath, tools,
                              CompressionEnabled(config.optimizeSize, config.compilerMode, config.mode));
    var result := tools.serialize(ast);
    if query.isNative then Outcome(Ok(result), None, None, Some(parsed.meta.wxsContentMap))
    else Generate(resource, resourcePath, query, config, tools, parsed.meta, ast,
                  OptimizeRenderLevel(config.optimizeRenderRules, resourcePath), result)
  }

  /** The template loader as a function of its inputs. */
  function Compile(raw: string, resource: string, resourcePath: string, query: Query,
                   config: Config, tools: Tools): Outcome {
    var packageName := PackageName(query, config);
    if packageName !in config.componentsMap then Outcome(Err(MissingPackageError(resourcePath)), None, None, None)
    else CompileParsed(resource, resourcePath, query, config, tools,
                       tools.parse(raw, ParseOptionsFor(query, resourcePath, config, tools, config.componentsMap[packageName])))
  }

  /** The `for…in` over `meta.wxsModuleMap`: one require line per module. */
  method RequireSource(wxsModuleMap: Dict<string>, tools: Tools) returns (source: string)
    ensures source == RequireLines(wxsModuleMap.keys, wxsModuleMap, tools)
  {
    source := "";
    var keys := wxsModuleMap.keys;
    var i := 0;
    while i < |keys|
      invariant 0 <= i <= |keys|
      invariant source == RequireLines(keys[..i], wxsModuleMap, tools)
    {
      assert keys[..i + 1][..i] == keys[..i];
      var m := keys[i];
      source := source + "var " + m + " = require(" + tools.requireRequest(Lookup(wxsModuleMap.entries, m)) + ");\n";
      i := i + 1;
    }
    assert keys[..i] == keys;
  }

  /** The tail appends to the source it is given, never reports, and fails
      exactly when the computed transform fails. */
  lemma TailSourceShape(source: string, meta: Meta, tools: Tools, result: string, wxs: Dict<string>)
    ensures var o := TailSource(source, meta, tools, result, wxs);
            && o.error.None? && o.wxsContents == Some(wxs)
            && (o.result.Err? <==> meta.computed.Some? && tools.bindThis(ComputedSource(meta.computed.value), TransformPlain).Err?)
            && (o.result.Ok? <==> o.extracted.Some?)
            && (o.result.Ok? ==> o.result.value == result && StartsWith(o.extracted.value, source))
  {
    var c := ComputedPart(meta, tools);
    if c.Ok? {
      assert (source + (c.value + RefsSection(meta.refsJson) + OptionsSection(meta.optionsJson)))[..|source|] == source;
    }
  }

  /** A prefix of a prefix is a prefix. */
  lemma StartsWithTrans(s: string, p: string, q: string)
    requires StartsWith(s, p) && StartsWith(p, q)
    ensures StartsWith(s, q)
  {
    assert s[..|q|] == s[..|p|][..|q|];
  }

  /** Generation reports or emits, never both; a result is the given
      serialized tree; the emitted source begins with the require lines and
      the module id. */
  lemma GenerateShape(resource: string, resourcePath: string, query: Query, config: Config, tools: Tools,
                      meta: Meta, ast: Node, level: int, result: string)
    ensures var o := Generate(resource, resourcePath, query, config, tools, meta, ast, level, result);
            && o.wxsContents == Some(meta.wxsContentMap)
            && !(o.error.Some? && o.extracted.Some?)
            && (o.result.Err? ==> o.error.None? && o.extracted.None?)
            && (o.error.Some? ==> o.result.Ok?)
            && (o.result.Ok? ==> o.result.value == result)
            && (o.extracted.Some? ==>
                  StartsWith(o.extracted.value, RequireLines(meta.wxsModuleMap.keys, meta.wxsModuleMap, tools)
                                                + ModuleIdSection(ModuleId(query, resourcePath, tools))))
  {
    var prelude := RequireLines(meta.wxsModuleMap.keys, meta.wxsModuleMap, tools) + ModuleIdSection(ModuleId(query, resourcePath, tools));
    var rawCode := tools.genNode(ast);
    var bound := tools.bindThis(rawCode, BindCallFor(level, IgnoreMap(meta.wxsModuleMap)));
    if rawCode != "" && bound.Ok? {
      var source := prelude + RenderBody(bound.value, level, config.mode);
      assert source[..|prelude|] == prelude;
      TailSourceShape(source, meta, tools, result, meta.wxsContentMap);
      var o := TailSource(source, meta, tools, result, meta.wxsContentMap);
      if o.extracted.Some? {
        StartsWithTrans(o.extracted.value, source, prelude);
      }
    } else if rawCode == "" {
      TailSourceShape(prelude, meta, tools, result, meta.wxsContentMap);
    }
  }

  /** The loader's three outcomes: a result with nothing emitted (native
      templates, a failed bind), a result with the extracted source emitted,
      or a failure with nothing reported or emitted. A result is always the
      serialized, possibly compressed, tree, and a native template in a known
      package always gets it, after its wxs contents are stored. */
  lemma CompileShape(raw: string, resource: string, resourcePath: string, query: Query,
                     config: Config, tools: Tools)
    ensures var o := Compile(raw, resource, resourcePath, query, config, tools);
            var packageName := PackageName(query, config);
            && (o.wxsContents.None? <==> packageName !in config.componentsMap)
            && (packageName !in config.componentsMap ==> o.result == Err(MissingPackageError(resourcePath)) && o.error.None? && o.extracted.None?)
            && !(o.error.Some? && o.extracted.Some?)
            && (o.result.Err? ==> o.error.None? && o.extracted.None?)
            && (o.error.Some? || o.extracted.Some? ==> o.result.Ok? && !query.isNative)
            && (packageName in config.componentsMap && query.isNative ==>
                  var parsed := tools.parse(raw, ParseOptionsFor(query, resourcePath, config, tools, config.componentsMap[packageName]));
                  && o.result == Ok(tools.serialize(CompressedTree(parsed.root, query.usingComponents, resourcePath, tools,
                                                     CompressionEnabled(config.optimizeSize, config.compilerMode, config.mode))))
                  && o.error.None? && o.extracted.None? && o.wxsContents == Some(parsed.meta.wxsContentMap))
            && (o.result.Ok? ==>
                  var parsed := tools.parse(raw, ParseOptionsFor(query, resourcePath, config, tools, config.componentsMap[packageName]));
                  o.result.value == tools.serialize(CompressedTree(parsed.root, query.usingComponents, resourcePath, tools,
                                                     CompressionEnabled(config.optimizeSize, config.compilerMode, config.mode))))
  {
    var packageName := PackageName(query, config);
    if packageName in config.componentsMap && !query.isNative {
      var parsed := tools.parse(raw, ParseOptionsFor(query, resourcePath, config, tools, config.componentsMap[packageName]));
      var ast := CompressedTree(parsed.root, query.usingComponents, resourcePath, tools,
                                CompressionEnabled(config.optimizeSize, config.compilerMode, config.mode));
      GenerateShape(resource, resourcePath, query, config, tools, parsed.meta, ast,
                    OptimizeRenderLevel(config.optimizeRenderRules, resourcePath), tools.serialize(ast));
    }
  }

  /** A failed bind of the render function is reported, not thrown: the
      loader still returns the serialized template, names both the result and
      the generated code in its error, and emits nothing. */
  lemma BindFailureIsReported(raw: string, resource: string, resourcePath: string, query: Query,
                              config: Config, tools: Tools)
    requires PackageName(query, config) in config.componentsMap && !query.isNative
    requires var parsed := tools.parse(raw, ParseOptionsFor(query, resourcePath, config, tools, config.componentsMap[PackageName(query, config)]));
             var ast := CompressedTree(parsed.root, query.usingComponents, resourcePath, tools,
                                       CompressionEnabled(config.optimizeSize, config.compilerMode, config.mode));
             && tools.genNode(ast) != ""
             && tools.bindThis(tools.genNode(ast), BindCallFor(OptimizeRenderLevel(config.optimizeRenderRules, resourcePath),
                                                                IgnoreMap(parsed.meta.wxsModuleMap))).Err?
    ensures var o := Compile(raw, resource, resourcePath, query, config, tools);
            var parsed := tools.parse(raw, ParseOptionsFor(query, resourcePath, config, tools, config.componentsMap[PackageName(query, config)]));
            var ast := CompressedTree(parsed.root, query.usingComponents, resourcePath, tools,
                                      CompressionEnabled(config.optimizeSize, config.compilerMode, config.mode));
            && o.result == Ok(tools.serialize(ast)) && o.extracted.None? && o.error.Some?
            && Contains(o.error.value, tools.serialize(ast)) && Contains(o.error.value, tools.genNode(ast))
  {
    var parsed := tools.parse(raw, ParseOptionsFor(query, resourcePath, config, tools, config.componentsMap[PackageName(query, config)]));
    var ast := CompressedTree(parsed.root, query.usingComponents, resourcePath, tools,
                              CompressionEnabled(config.optimizeSize, config.compilerMode, config.mode));
    var level := OptimizeRenderLevel(config.optimizeRenderRules, resourcePath);
    var stack := tools.bindThis(tools.genNode(ast), BindCallFor(level, IgnoreMap(parsed.meta.wxsModuleMap))).error;
    BindFailureMentions(resource, tools.serialize(ast), tools.genNode(ast), stack);
  }

  /** The two walks of the compression block: collect the native tags, then
      rename the registered components. */
  method Compress(root: Node, usingComponents: seq<string>, resourcePath: string, tools: Tools,
                  enabled: bool) returns (ast: Node)
    ensures ast == CompressedTree(root, usingComponents, resourcePath, tools, enabled)
  {
    ast := root;
    if enabled {
      var natives := CollectNative(ast, usingComponents, []);
      ast := Rename(ast, usingComponents, AliasFor(tools, resourcePath, natives));
    }
  }

  /** An emitted file: the template's path and the extracted render source. */
  datatype Emitted = Emitted(path: string, extractedResultSource: string)

  /** The webpack loader context and the shared wxs content map. */
  class LoaderContext {
    var errors: seq<string>
    var emitted: seq<Emitted>
    var wxsContentMap: map<string, string>

    constructor (wxsContentMap: map<string, string>)
      ensures errors == [] && emitted == [] && this.wxsContentMap == wxsContentMap
    {
      errors := [];
      emitted := [];
      this.wxsContentMap := wxsContentMap;
    }

    /** The `for…in` over `meta.wxsContentMap`. */
    method StoreWxsContent(resourcePath: string, contents: Dict<string>)
      modifies this`wxsContentMap
      ensures wxsContentMap == WithWxs(old(wxsContentMap), resourcePath, contents.keys, contents.entries)
    {
      var i := 0;
      while i < |contents.keys|
        invariant 0 <= i <= |contents.keys|
        invariant wxsContentMap == WithWxs(old(wxsContentMap), resourcePath, contents.keys[..i], contents.entries)
      {
        var m := contents.keys[i];
        assert contents.keys[..i + 1][..i] == contents.keys[..i];
        wxsContentMap := wxsContentMap[WxsKey(resourcePath, m) := Lookup(contents.entries, m)];
        i := i + 1;
      }
      assert contents.keys[..i] == contents.keys;
    }

    method TemplateLoader(raw: string, resource: string, resourcePath: string, query: Query,
                          config: Config, tools: Tools) returns (r: Result<string>)
      modifies this
      ensures var o := Compile(raw, resource, resourcePath, query, config, tools);
              && r == o.result
              && errors == old(errors) + (if o.error.Some? then [o.error.value] else [])
              && emitted == old(emitted) + (if o.extracted.Some? then [Emitted(resourcePath, o.extracted.value)] else [])
              && wxsContentMap == (if o.wxsContents.Some?
                                   then WithWxs(old(wxsContentMap), resourcePath, o.wxsContents.value.keys, o.wxsContents.value.entries)
                                   else old(wxsContentMap))
    {
      var packageName := PackageName(query, config);
      if packageName !in config.componentsMap {
        return Err(MissingPackageError(resourcePath));
      }
      var parsed := tools.parse(raw, ParseOptionsFor(query, resourcePath, config, tools, config.componentsMap[packageName]));
      r := CompileParsedSource(resource, resourcePath, query, config, tools, parsed);
    }

    /** The loader after parsing; the parsed wxs contents are always stored. */
    method CompileParsedSource(resource: string, resourcePath: string, query: Query, config: Config, tools: Tools,
                               parsed: Parsed) returns (r: Result<string>)
      modifies this
      ensures var o := CompileParsed(resource, resourcePath, query, config, tools, parsed);
              && o.wxsContents == Some(parsed.meta.wxsContentMap)
              && r == o.result
              && errors == old(errors) + (if o.error.Some? then [o.error.value] else [])
              && emitted == old(emitted) + (if o.extracted.Some? then [Emitted(resourcePath, o.extracted.value)] else [])
              && wxsContentMap == WithWxs(old(wxsContentMap), resourcePath, parsed.meta.wxsContentMap.keys,
                                          parsed.meta.wxsContentMap.entries)
    {
      var level := SelectOptimizeRenderLevel(resourcePath, config.optimizeRenderRules);
      var ast := Compress(parsed.root, query.usingComponents, resourcePath, tools,
                          CompressionEnabled(config.optimizeSize, config.compilerMode, config.mode));
      StoreWxsContent(resourcePath, parsed.meta.wxsContentMap);
      var result := tools.serialize(ast);
      if query.isNative {
        return Ok(result);
      }
      GenerateShape(resource, resourcePath, query, config, tools, parsed.meta, ast, level, result);
      r := GenerateSource(resource, resourcePath, query, config, tools, parsed.meta, ast, level, result);
    }

    /** The generation half of the loader; the shared wxs map is not touched. */
    method GenerateSource(resource: string, resourcePath: string, query: Query, config: Config, tools: Tools,
                          meta: Meta, ast: Node, level: int, result: string) returns (r: Result<string>)
      modifies this`errors, this`emitted
      ensures var o := Generate(resource, resourcePath, query, config, tools, meta, ast, level, result);
              && r == o.result
              && errors == old(errors) + (if o.error.Some? then [o.error.value] else [])
              && emitted == old(emitted) + (if o.extracted.Some? then [Emitted(resourcePath, o.extracted.value)] else [])
    {
      var prelude := RequireSource(meta.wxsModuleMap, tools);
      prelude := prelude + ModuleIdSection(ModuleId(query, resourcePath, tools));
      var rawCode := tools.genNode(ast);
      if rawCode == "" {
        r := EmitTail(resourcePath, prelude, meta, tools, result);
      } else {
        r := RenderSource(resource, resourcePath, prelude, rawCode, level, config.mode, meta, tools, result);
      }
    }

    /** Binding the render function, then the tail or the reported failure. */
    method RenderSource(resource: string, resourcePath: string, prelude: string, rawCode: string, level: int,
                        mode: string, meta: Meta, tools: Tools, result: string) returns (r: Result<string>)
      modifies this`errors, this`emitted
      ensures var o := Rendered(resource, prelude, rawCode, level, mode, meta, tools, result);
              && r == o.result
              && errors == old(errors) + (if o.error.Some? then [o.error.value] else [])
              && emitted == old(emitted) + (if o.extracted.Some? then [Emitted(resourcePath, o.extracted.value)] else [])
    {
      var bound := tools.bindThis(rawCode, BindCallFor(level, IgnoreMap(meta.wxsModuleMap)));
      if bound.Err? {
        errors := errors + [BindFailure(resource, result, rawCode, bound.error)];
        return Ok(result);
      }
      r := EmitTail(resourcePath, prelude + RenderBody(bound.value, level, mode), meta, tools, result);
    }

    /** The computed, refs and options sections, then the emitted file. */
    method EmitTail(resourcePath: string, source: string, meta: Meta, tools: Tools, result: string)
      returns (r: Result<string>)
      modifies this`emitted
      ensures var o := TailSource(source, meta, tools, result, meta.wxsContentMap);
              && r == o.result && o.error.None?
              && emitted == old(emitted) + (if o.extracted.Some? then [Emitted(resourcePath, o.extracted.value)] else [])
    {
      var computed := "";
      if meta.computed.Some? {
        var bound := tools.bindThis(ComputedSource(meta.computed.value), TransformPlain);
        if bound.Err? {
          return Err(bound.error);
        }
        computed := bound.value.code + "\n";
      }
      emitted := emitted + [Emitted(resourcePath, source + (computed + RefsSection(meta.refsJson) + OptionsSection(meta.optionsJson)))];
      return Ok(result);
    }
  }
}

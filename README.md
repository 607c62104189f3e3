# A verified model of the Mpx build plugin and runtime core

Mpx is a framework that compiles mini-program sources (pages, components,
templates with inline wxs modules) to several targets: other mini-program
platforms, the web and React Native. This project models the parts of the
build plugins and the runtime that make decisions, and proves what they
promise. The parts are:

- the **resource registry** of the web build plugin (`recordResourceMap`,
  `getOutputPath`). It maps every page, component and static resource of a
  package to its output path. It renames colliding paths and refuses to
  re-register a resource elsewhere (`resource_registry.dfy`);
- the **cross-platform call-site rewriter**, made of two parser hooks:
  - one replaces the `wx` global and injects the accessor import at most
    once per module;
  - one appends a source-mode literal to cross-platform API calls
    (`cross_platform.dfy`);
- the **`afterResolve` hook**. It splices the style-compiler loader into a
  module's loader list, rebuilds the request, and applies `modeRules`
  (`loader_hooks.dfy`);
- the **loader request serialiser** (`stringify_loaders.dfy`) and the
  **URL-request validator** (`url_request.dfy`);
- the **template loader** (`template_compiler.dfy`). It selects the
  render-optimisation level, compresses component names, records inline wxs
  modules, and then either returns the serialised template or emits the
  bound render-function source;
- the **web tag-escape rule** `mpx-com-<tag>` (`fix_component_name.dfy`);
- the **React Native render helpers** (`react_render.dfy`). These are the
  `_i` iterator, the listener and prop filters, and the props copy made at
  each render;
- the **runtime option processor** (`option_processor.dfy`). It covers
  component registration, generics, mixins, `getComponent`, the wxs mixin
  and the route table;
- the **web router's history stack**, kept by the `beforeEach` guard
  (`app_router.dfy`).

Shared pieces live in `common.dfy` and `js_values.dfy`:

- `Option`/`Result`, prefix and substring predicates, `JSON.stringify` of a
  string, and split and join;
- a JavaScript value type;
- an insertion-ordered dictionary standing in for a plain object's own keys;
- a mutable object reference.

## How the model is built

**State the source changes in place is modelled as classes.** The resource
maps (`Registry`), the webpack loader context (`LoaderContext`), the
component option object (`ComponentOption`), the generics table
(`GenericsRegistry`), the router (`Router`), a template element (`Element`),
a dependency block (`DependencyBlock`) and `createData` (`CreateData`) are
all classes.

**Each method that updates state is proved against a function of the old
state.** Its `ensures` ties the new fields and the results to that
function. Examples:

- `Record` for `recordResourceMap`;
- `Compile` for the template loader;
- `Step` for the router guard.

The properties the source promises are then lemmas about those functions.

**Loops of the source are `while` loops with invariants.** These include:

- the `for…in` conflict scan;
- the `forEach` loader scan;
- the `resultSource +=` loop;
- the `_i` loops;
- the props copy;
- the `created` hook;
- the route-table loop.

**Collaborators whose code is not part of this model are parameters.**
They are given as functions. They include:

- the template parser, serialiser, code generator and scope binder;
- the name generator, `pathHash`, `matchCondition`, `parseRequest` and
  `addQuery`;
- `toPosix`, `isOriginTag` and `isBuildInTag`;
- loader-utils' `isUrlRequest` and the RegExp externals;
- a user's `customOutputPath`;
- the `JSON.stringify` text of objects.

Each regular expression the core applies is written as a declarative
predicate, and a scanner is proved equal to that predicate.

Errors the source throws are `Err` results or a `Thrown` outcome.
Messages logged through `warn` or `error` callbacks,
`console.warn` or `console.error` are returned as strings (or recorded in a
list field), with the source's own text.

### Where the obvious reading and the code differ (the model follows the code)

- **The position of the conflict hash.** The rename uses
  `conflictPath.replace(/(\.[^\\/]+)?$/, …)`. The leftmost match starts at
  the FIRST dot of the last path segment that has at least one character
  after it. So `a.b.js` becomes `a<hash>.b.js`: the hash does not go before
  the trailing extension. See `ConflictRenameBeforeFirstDot`.
- **When the source-mode literal is injected.** It is only injected when a
  module's own `mode` query names a source mode that differs from the
  plugin's (`SrcModeDiffers`). A module without its own mode never gets one.
- **Listener keys and line terminators.** The listener regular expression
  builds its later parts from `.`. A key that contains a line terminator
  is therefore not a listener, even when it starts with `bind` or `catch`
  (`IsListenerKey`).
- **A `back` deeper than the stack.** The stack is changed with
  `splice(stack.length - delta, delta)`. When `delta` exceeds the stack's
  length, that start is negative and `splice` counts it from the end, so
  fewer entries are removed than asked for (`BackPastBottom`).
- **A renamed path is not checked again.** A renamed conflicting path is
  stored without a second check, so a third resource may already hold it
  (`RenameIsNotRechecked`).

## Model

| member | source | states |
|---|---|---|
| StringifyLoaders.LoaderToIdent | packages/utils/dist/stringify-loaders-resource.js:3-17 | fails exactly when the options are neither absent, a string nor an object, with the thrown message; otherwise the identifier begins with the loader name |
| StringifyLoaders.IdentRoundTrip | packages/utils/dist/stringify-loaders-resource.js:3-17 | reading an identifier back at its first `?` gives the loader name, and the query is the string options, `?ident` or the options JSON (nothing without options) |
| StringifyLoaders.StringifyLoadersAndResource | packages/utils/dist/stringify-loaders-resource.js:18-24 | the accumulating loop yields the identifiers, each followed by `!`, then the resource, or the first loader error |
| StringifyLoaders.IdentsErrorPersists | packages/utils/dist/stringify-loaders-resource.js:20-22 | once a loader throws, the rest of the list does not change the outcome |
| StringifyLoaders.StringifiedFails | packages/utils/dist/stringify-loaders-resource.js:10-22 | the request fails if and only if some loader has options of a wrong type, and the error is the options-type message |
| StringifyLoaders.NoLoaders | packages/utils/dist/stringify-loaders-resource.js:18-24 | an empty loader list yields the resource alone |
| StringifyLoaders.StringifiedSplits | packages/utils/dist/stringify-loaders-resource.js:18-24 | splitting the request at `!` gives back the identifiers in order and then the resource, when none contains `!` |
| UrlRequest.SchemeFrom | packages/utils/dist/is-url-request.js:12-13 | the scanner is true exactly when `://` occurs after a non-empty prefix free of line terminators (`/^.+:\/\//`) |
| UrlRequest.MustacheFrom | packages/utils/dist/is-url-request.js:4-16 | the scanner is true exactly when a `{{…}}` match of the mustache expression exists |
| UrlRequest.IsUrlRequest | packages/utils/dist/is-url-request.js:5-29 | false for a non-string or empty url, a theme variable, a scheme prefix, an interpolation, or a matching external; otherwise it is loader-utils' own answer |
| ResourceRegistry.HashPoint | packages/web-plugin/src/webpack/index.ts:311-314 | the rename's insertion point is the leftmost start of a dot followed by one or more non-slash characters running to the end, or the end of the path |
| ResourceRegistry.ConflictRenameAppends | packages/web-plugin/src/webpack/index.ts:310-314 | a last segment without a dot gets the hash appended |
| ResourceRegistry.ConflictRenameBeforeFirstDot | packages/web-plugin/src/webpack/index.ts:310-314 | the hash is inserted before the first dot of the last segment |
| ResourceRegistry.ConflictRenameInserts | packages/web-plugin/src/webpack/index.ts:310-314 | the renamed path is the conflicting path with the hash inserted at one point |
| ResourceRegistry.OutputPathLayout | packages/web-plugin/src/webpack/index.ts:320-322 | pages and components go to `<type>s/<name><hash>/index<ext>`, anything else to `<type>/<name><hash><ext>` |
| ResourceRegistry.OutputPathOverrides | packages/web-plugin/src/webpack/index.ts:310-319 | a conflict path wins over the custom rule; a custom path loses exactly one leading slash |
| ResourceRegistry.RecordWithoutPath | packages/web-plugin/src/webpack/index.ts:364-366 | without an output path, the placeholder is created only where the resource has no truthy entry, and nothing is reported |
| ResourceRegistry.RecordOverStoredPath | packages/web-plugin/src/webpack/index.ts:353-362 | over a stored path, the same path is reported as already outputted; a different one gives the reassignment error; the map never changes |
| ResourceRegistry.RecordOverFreeEntry | packages/web-plugin/src/webpack/index.ts:331-352 | over a free entry, the stored and returned paths agree; other entries are kept; the path is renamed with the warning exactly when another resource holds it and `recordOnly` is off |
| ResourceRegistry.RecordKeepsCollisionFree | packages/web-plugin/src/webpack/index.ts:336-352 | collision detection keeps a map free of shared output paths, provided that a rename, when it happens, picks a free path |
| ResourceRegistry.RenameMayCollide | packages/web-plugin/src/webpack/index.ts:338-352 | when a third resource already holds the renamed path, the map after the call has two resources on one output path |
| ResourceRegistry.RenameIsNotRechecked | packages/web-plugin/src/webpack/index.ts:338-352 | a concrete map where the renamed path collides with a third resource |
| ResourceRegistry.RecordTwice | packages/web-plugin/src/webpack/index.ts:331-362 | recording again with the returned path is a no-op reported as already outputted; after a rename, the original path is refused |
| ResourceRegistry.FindConflict | packages/web-plugin/src/webpack/index.ts:338-350 | the scan finds a conflict if and only if another resource of the map holds the output path |
| ResourceRegistry.PackageName | packages/web-plugin/src/webpack/index.ts:325 | an empty package root means `main` |
| ResourceRegistry.Registry.constructor | packages/web-plugin/src/webpack/index.ts:259-266 | the pages map starts empty; the component and static-resource maps hold an empty `main` package |
| ResourceRegistry.Registry.Store | packages/web-plugin/src/webpack/index.ts:326-329 | a component or static-resource table is written under its package only; pages use the one flat map |
| ResourceRegistry.Registry.RecordResourceMap | packages/web-plugin/src/webpack/index.ts:324-372 | result, diagnostic and the new maps are those of `Record` on the package's table; other packages and resource types are untouched |
| CrossPlatform.GlobalSrcMode | packages/web-plugin/src/webpack/index.ts:273 | the plugin's source mode is never empty (`wx` by default) |
| CrossPlatform.TransGlobalObject | packages/web-plugin/src/webpack/index.ts:467-518 | when it fires, exactly one replacement is added and the accessor is injected unless present; otherwise nothing changes |
| CrossPlatform.WithAccessorCount | packages/web-plugin/src/webpack/index.ts:501-517 | the module holds exactly one accessor of a name after the first rewrite, and no more after later ones |
| CrossPlatform.WithAccessorIdempotent | packages/web-plugin/src/webpack/index.ts:501-517 | injecting the accessor twice is the same as once |
| CrossPlatform.ReplacementText | packages/web-plugin/src/webpack/index.ts:491-497 | `wx` becomes `mpx` with the `mpx` accessor; another global `g` becomes `createFactory("g")` |
| CrossPlatform.TransGlobalExemptions | packages/web-plugin/src/webpack/index.ts:483-489 | nothing is rewritten in `@mpxjs` resources or when the mode equals the source mode |
| CrossPlatform.InjectSrcModeForTransApi | packages/web-plugin/src/webpack/index.ts:550-582 | adds exactly the injection `SrcModeInjection` computes, or nothing, and leaves the other dependency list alone |
| CrossPlatform.SrcModeDiffers | packages/web-plugin/src/webpack/index.ts:559-564 | the effective source mode differs from the global one exactly when the module names a different mode of its own |
| CrossPlatform.InjectionConditions | packages/web-plugin/src/webpack/index.ts:563-572 | a literal is injected if and only if the hooks are installed, there are members, the local mode differs, the API is not blacklisted, and the callee object is `mpx` (or `wx` under `transMpxRules`) |
| CrossPlatform.QuotedSrcModeLiteral | packages/web-plugin/src/webpack/index.ts:574-578 | the quoted literal is `"__mpx_src_mode_<mode>__"` |
| CrossPlatform.InjectionText | packages/web-plugin/src/webpack/index.ts:574-580 | the injected text is the quoted literal, preceded by `, ` only when the call has arguments, at `end - 1` |
| LoaderHooks.ScanLoaders | packages/web-plugin/src/webpack/index.ts:625-639 | the scan loop computes the three indices of `Scan` |
| LoaderHooks.ScanCss | packages/web-plugin/src/webpack/index.ts:628-631 | the css index is the first loader containing `css-loader`, or -1 |
| LoaderHooks.ScanVue | packages/web-plugin/src/webpack/index.ts:632-634 | the post-loader index is the first loader containing `vue-loader/lib/loaders/stylePostLoader` that the css branch did not claim, or -1 |
| LoaderHooks.ScanMpx | packages/web-plugin/src/webpack/index.ts:635-638 | the style-compiler index is the first loader containing the style compiler's path that neither earlier branch claimed, or -1 |
| LoaderHooks.InsertionIndex | packages/web-plugin/src/webpack/index.ts:640-650 | the insertion point is none, the css loader or the post-loader |
| LoaderHooks.InsertionShape | packages/web-plugin/src/webpack/index.ts:651-657 | at most one loader is inserted: the style compiler, right after the chosen index, with the rest kept in order |
| LoaderHooks.InsertionPlace | packages/web-plugin/src/webpack/index.ts:640-658 | nothing is inserted when a style compiler is present; it goes after the first css loader without a post-loader, and after the post-loader when both are found outside a pitcher request, and in each of those cases the insertion does happen; a list with a css loader and neither a post-loader nor a style compiler always gets one, after its first css loader |
| LoaderHooks.InsertionIdempotent | packages/web-plugin/src/webpack/index.ts:625-658 | running the insertion on its own output inserts nothing |
| LoaderHooks.InsertStyleCompiler | packages/web-plugin/src/webpack/index.ts:618-658 | the loader list becomes `WithStyleCompiler` of the old one; request and resource are kept |
| LoaderHooks.RunModeRules | packages/web-plugin/src/webpack/index.ts:98-112 | the mode query is added to resource and request exactly when the resource has no mode and the `modeRules.mode` rule matches |
| LoaderHooks.AfterResolve | packages/web-plugin/src/webpack/index.ts:615-666 | the loaders get the style compiler; the request is the serialised loaders and resource, then the mode rule applies; a serialiser error leaves the request alone |
| TemplateCompiler.CollectNativeSpec | packages/webpack-plugin/lib/template-compiler/index.js:94-100 | the native tags are exactly the non-empty tags of the tree that are not registered components, each recorded once |
| TemplateCompiler.CollectForestSpec | packages/webpack-plugin/lib/template-compiler/index.js:84-93 | the walk over children gathers the same from every non-null node |
| TemplateCompiler.RenameShape | packages/webpack-plugin/lib/template-compiler/index.js:101-106 | the rename keeps every node, attribute and child; only tags change |
| TemplateCompiler.RenameTags | packages/webpack-plugin/lib/template-compiler/index.js:101-106 | each tag is renamed through the alias when registered, and kept otherwise |
| TemplateCompiler.CompressionAvoidsNatives | packages/webpack-plugin/lib/template-compiler/index.js:94-106 | with aliases outside the exclusion list, every registered tag reappears as its alias and no alias is a native tag; every tag after renaming is a native or empty tag of the original tree, or such an alias |
| TemplateCompiler.OptimizeRenderLevelFirstMatch | packages/webpack-plugin/lib/template-compiler/index.js:37-43 | the level is the first matching rule's level (1 when unset) and 0 when no rule matches |
| TemplateCompiler.SelectOptimizeRenderLevel | packages/webpack-plugin/lib/template-compiler/index.js:37-43 | the loop with `break` computes `OptimizeRenderLevel` |
| TemplateCompiler.IgnoreMap | packages/webpack-plugin/lib/template-compiler/index.js:136-141 | the ignored names are exactly `_i`, `_c`, `_sc`, `_r` and the wxs module names |
| TemplateCompiler.BindStrategy | packages/webpack-plugin/lib/template-compiler/index.js:142-155 | level 2 uses the simple binder and ends with `_r(true)`; other levels collect, reduce only at level 1, and end with `_r()` |
| TemplateCompiler.WxsKeysCollideAcrossTemplates | packages/webpack-plugin/lib/template-compiler/index.js:111 | keys of different templates can coincide: `a~b` with module `c` and `a` with module `b~c` write one entry |
| TemplateCompiler.WxsKeyInjective | packages/webpack-plugin/lib/template-compiler/index.js:111 | distinct modules of one template get distinct `<resourcePath>~<module>` keys |
| TemplateCompiler.WithWxsDomain | packages/webpack-plugin/lib/template-compiler/index.js:109-113 | the shared map gains exactly the `<resourcePath>~<module>` keys of the template's modules |
| TemplateCompiler.WithWxsValues | packages/webpack-plugin/lib/template-compiler/index.js:109-113 | every module is stored under its key with its content |
| TemplateCompiler.WithWxsKeeps | packages/webpack-plugin/lib/template-compiler/index.js:109-113 | every entry of the shared map that is not a module key of the template is kept |
| TemplateCompiler.BindFailureMentions | packages/webpack-plugin/lib/template-compiler/index.js:160-167 | the bind-failure message contains the template result and the generated code |
| TemplateCompiler.RequireSource | packages/webpack-plugin/lib/template-compiler/index.js:121-126 | one `var <module> = require(...)` line per wxs module, in key order |
| TemplateCompiler.TailSourceShape | packages/webpack-plugin/lib/template-compiler/index.js:172-188 | the tail extends the source and never reports; it fails exactly when the computed transform fails |
| TemplateCompiler.GenerateShape | packages/webpack-plugin/lib/template-compiler/index.js:121-195 | generation reports or emits, never both; results are the serialised tree; emitted source begins with the require lines and the module id |
| TemplateCompiler.CompileShape | packages/webpack-plugin/lib/template-compiler/index.js:25-195 | a missing package throws and stores nothing; a native template in a known package always returns the serialised, possibly compressed tree, emits and reports nothing, and stores its wxs contents; failed templates return without emitting; an `Ok` result is always that serialised tree |
| TemplateCompiler.BindFailureIsReported | packages/webpack-plugin/lib/template-compiler/index.js:159-169 | a bind failure returns the serialised template, emits nothing, and reports an error naming the template and the code |
| TemplateCompiler.LoaderContext.StoreWxsContent | packages/webpack-plugin/lib/template-compiler/index.js:109-113 | the shared content map becomes `WithWxs` of the old one |
| TemplateCompiler.LoaderContext.TemplateLoader | packages/webpack-plugin/lib/template-compiler/index.js:12-196 | result, reported errors, emitted files and the shared wxs map are exactly those of `Compile` |
| TemplateCompiler.Compress | packages/webpack-plugin/lib/template-compiler/index.js:83-107 | with compression enabled the tree is renamed with aliases chosen against the collected native tags; otherwise it is returned unchanged |
| TemplateCompiler.LoaderContext.CompileParsedSource | packages/webpack-plugin/lib/template-compiler/index.js:83-195 | after parsing, the template's wxs contents are always stored, and the result, errors and emitted files are exactly those of `CompileParsed` |
| TemplateCompiler.LoaderContext.RenderSource | packages/webpack-plugin/lib/template-compiler/index.js:133-170 | a failed bind reports the error and returns the result without emitting; a successful one continues with the render function and the tail, as `Rendered` says |
| TemplateCompiler.LoaderContext.EmitTail | packages/webpack-plugin/lib/template-compiler/index.js:172-195 | never reports; fails exactly as the computed transform does; otherwise emits the source followed by the computed, refs and options sections, as `TailSource` says |
| TemplateCompiler.LoaderContext.GenerateSource | packages/webpack-plugin/lib/template-compiler/index.js:121-195 | result, errors and emitted files are exactly those of `Generate` |
| FixComponentName.CandidateTag | packages/webpack-plugin/lib/platform/template/wx/component-config/fix-component-name.js:11 | the candidate is `mpx-com-` followed by the original tag |
| FixComponentName.CandidateInjective | packages/webpack-plugin/lib/platform/template/wx/component-config/fix-component-name.js:11 | distinct tags have distinct candidates |
| FixComponentName.EscapedTagSpec | packages/webpack-plugin/lib/platform/template/wx/component-config/fix-component-name.js:12-17 | the tag changes if and only if the candidate is registered, and then becomes the candidate; a missing list never changes it |
| FixComponentName.Web | packages/webpack-plugin/lib/platform/template/wx/component-config/fix-component-name.js:10-19 | returns the same element; only its tag changes, to `EscapedTag` |
| FixComponentName.ApplyRule | packages/webpack-plugin/lib/platform/template/wx/component-config/fix-component-name.js:7-19 | the tag is escaped only in web mode and for native or built-in tags |
| FixComponentName.RuleIdempotent | packages/webpack-plugin/lib/platform/template/wx/component-config/fix-component-name.js:7-19 | applying the gated rule twice equals applying it once, when the escaped name is neither a native nor a built-in tag |
| FixComponentName.WebNotIdempotent | packages/webpack-plugin/lib/platform/template/wx/component-config/fix-component-name.js:10-19 | the bare `web` rewrite escapes `div` twice when `mpx-com-div` and `mpx-com-mpx-com-div` are both registered |
| ReactRender.LoopCountSpec | packages/core/src/platform/patch/react/getDefaultOptions.ios.js:76 | `i < n` holds exactly for the first `LoopCount(n)` counters |
| ReactRender.Iterate | packages/core/src/platform/patch/react/getDefaultOptions.ios.js:68-87 | arrays and strings give `fn(val[i], i)` per index; numbers give `fn(i+1, i)` per counter; objects give `fn(val[key], key, i)` per own key; anything else gives `[]` |
| ReactRender.GetListeners | packages/core/src/platform/patch/react/getDefaultOptions.ios.js:14-25 | keeps exactly the own keys the listener pattern matches, with their values, each once, in the order of `props` |
| JsValues.FilterKeysInOrder | packages/core/src/platform/patch/react/getDefaultOptions.ios.js:16-23 | the kept keys appear in the order of the object's own keys |
| ReactRender.GetProps | packages/core/src/platform/patch/react/getDefaultOptions.ios.js:51-61 | keeps exactly the keys declared in `validProps` whose value is not a function, with their values, in the order of `props`; falsy props give `{}` |
| ReactRender.CopiedWrites | packages/core/src/platform/patch/react/getDefaultOptions.ios.js:144-148 | visiting the props in order writes exactly the data props among them over the instance's fields |
| ReactRender.CopyProps | packages/core/src/platform/patch/react/getDefaultOptions.ios.js:144-148 | the instance gets the filtered props written over its fields, and nothing else |
| ReactRender.CopyMatchesGetProps | packages/core/src/platform/patch/react/getDefaultOptions.ios.js:144-148 | a field changes only if it is a data prop, and every data prop takes its value |
| OptionProcessor.WithComponentsSpec | packages/webpack-plugin/lib/runtime/optionProcessor.js:20-28 | every component is registered with its value; other registrations are kept; the object exists once something was registered |
| OptionProcessor.GenericsTableSpec | packages/webpack-plugin/lib/runtime/optionProcessor.js:30-41 | only registered generic values enter the table, with their component; each missing value gives its warning |
| OptionProcessor.WithGenericPropsSpec | packages/webpack-plugin/lib/runtime/optionProcessor.js:43-56 | `generichash` is `String` (unless a generic named `hash` overwrites it); each generic `g` gets `generic<g>`, with default `<g>default` if and only if one is declared |
| OptionProcessor.ComponentOption.RegisterComponents | packages/webpack-plugin/lib/runtime/optionProcessor.js:20-28 | the components field becomes `WithComponents` of the old one |
| OptionProcessor.ComponentOption.AddGenericProps | packages/webpack-plugin/lib/runtime/optionProcessor.js:43-56 | the props field becomes `WithGenericProps` of the old one |
| OptionProcessor.GenericsRegistry.RecordGenerics | packages/webpack-plugin/lib/runtime/optionProcessor.js:30-41 | a fresh table under the hash holds `GenericsTable`; the warnings are `GenericWarnings` |
| OptionProcessor.ComponentOption.Complete | packages/webpack-plugin/lib/runtime/optionProcessor.js:58-75 | the page config is the global one overlaid with the page's for pages only; directives and filters are set only without an app; the mixin is appended to existing mixins or becomes the only one; the component path is `/` + output path only for a non-empty path |
| OptionProcessor.ProcessComponentOption | packages/webpack-plugin/lib/runtime/optionProcessor.js:6-78 | returns the same option; sets each field as its step of the source does (mixin appended, component path only for a non-empty output path) |
| OptionProcessor.GetComponent | packages/webpack-plugin/lib/runtime/optionProcessor.js:80-85 | picks the default export of an ES module, assigns the extension options onto it, and leaves the other object alone |
| OptionProcessor.GetWxsMixin | packages/webpack-plugin/lib/runtime/optionProcessor.js:87-89 | the mixin is empty if and only if the modules are missing or have no keys |
| OptionProcessor.WxsInstalledSpec | packages/webpack-plugin/lib/runtime/optionProcessor.js:90-97 | the hook never overwrites an existing property and adds only module keys |
| OptionProcessor.WxsInstalledValues | packages/webpack-plugin/lib/runtime/optionProcessor.js:94-96 | a free key receives its module's value |
| OptionProcessor.WxsConflictsSpec | packages/webpack-plugin/lib/runtime/optionProcessor.js:91-94 | a module key is reported exactly when the instance already had it |
| OptionProcessor.Created | packages/webpack-plugin/lib/runtime/optionProcessor.js:90-98 | the instance becomes `WxsInstalled`; one error per conflicting key, in order |
| OptionProcessor.BuildRoutes | packages/webpack-plugin/lib/runtime/optionProcessor.js:138-156 | one route `/<page>` per page, in order, and the `/` redirect only when there are pages and a first page |
| AppRouter.FirstTab | packages/webpack-plugin/lib/runtime/optionProcessor.js:243-251 | the first stack entry that is a tab-bar page, or none |
| AppRouter.Router.constructor | packages/webpack-plugin/lib/runtime/optionProcessor.js:162-166 | the stack, removals, cache and channel map start empty |
| AppRouter.Router.BeforeEach | packages/webpack-plugin/lib/runtime/optionProcessor.js:168-277 | the new router fields and the outcome are those of `Step` on the old fields |
| AppRouter.ToPushes | packages/webpack-plugin/lib/runtime/optionProcessor.js:222-226 | `to` pushes exactly the target and caches it |
| AppRouter.BackPops | packages/webpack-plugin/lib/runtime/optionProcessor.js:227-229 | `back` within the stack removes exactly the last `delta` entries and schedules them for removal |
| AppRouter.BackPastBottom | packages/webpack-plugin/lib/runtime/optionProcessor.js:228 | a `delta` past the bottom removes fewer entries, as `splice` counts the negative start from the end |
| AppRouter.RedirectReplacesTop | packages/webpack-plugin/lib/runtime/optionProcessor.js:230-233 | `redirect` replaces the top entry (or pushes onto an empty stack) and caches the target |
| AppRouter.ReLaunchResets | packages/webpack-plugin/lib/runtime/optionProcessor.js:260-274 | the first pass restarts with `replace` and marks the action; the replaced pass makes the stack exactly the target |
| AppRouter.ReLaunchTwice | packages/webpack-plugin/lib/runtime/optionProcessor.js:260-274 | two passes leave only the target and remove the whole old stack |
| AppRouter.SwitchKeepsTab | packages/webpack-plugin/lib/runtime/optionProcessor.js:234-259 | a replaced switch leaves only the target; the first tab-bar entry is spared and every other entry is scheduled for removal in stack order; only a stack without one caches |
| AppRouter.UserNavigation | packages/webpack-plugin/lib/runtime/optionProcessor.js:172-184 | a user navigation back to the entry below the top pops it; any other pushes |
| AppRouter.UnknownPage | packages/webpack-plugin/lib/runtime/optionProcessor.js:186-215 | an unknown page never changes the router; it throws once the stack has entries; on entry the app's `onPageNotFound` handles it when defined, and otherwise the guard warns (naming the page) and restarts at the first page |

## Left out

- Webpack and loader plumbing is not modelled. This covers hook taps,
  dependency factories and templates, the DefinePlugin, the file-system
  patches, async module processing and the `writeFile` proxy. It is
  framework wiring and file I/O.
- The template parser, serialiser, code generator, scope binder, name
  generator, `pathHash`, `matchCondition`, `parseRequest`, `addQuery`,
  `urlToRequest`/`stringifyRequest`, `toPosix`, `isOriginTag`/`isBuildInTag`
  and loader-utils' `isUrlRequest` are not modelled. Their code is not part
  of this model; each is a function parameter.
- Vue app and DOM setup is not modelled: `createApp` wiring, VueRouter
  construction, window listeners and SSR. React effects and scheduling are
  not modelled either. Both are framework runtime.
- The key order of `option.components`, `option.props` and the page config
  is not modelled; they are maps, because the proved properties are about
  membership. The array form of `props` is not modelled.
- Object options are represented by their JSON text. `JSON.stringify` of an
  object is not modelled.
- Template nodes are values. Overwriting `node.tag` in place is modelled as
  building a renamed tree, so aliasing between nodes is not modelled; the
  parsed tree is a tree without sharing.
- TemplateCompiler.ParseOptions: the parser receives `usingComponents`,
  `isNative`, `isComponent`, `isPage`, `srcMode`, `moduleId` and
  `filePath` only. The options computed at
  template-compiler/index.js:76-79 (`checkUsingComponents`,
  `forceProxyEvent` and `hasVirtualHost` from `matchCondition`, and
  `globalComponents` from `Object.keys(mpx.usingComponents)`) are not
  passed, and neither are `warn`, `error`, `componentPlaceholder`,
  `hasComment`, `mode`, `env`, `defs`, `decodeHTMLText`,
  `externalClasses`, `hasScoped` and `i18n`. The parser is a parameter,
  so none of them changes a proved property.
- ResourceRegistry.PathJoin: Node's platform `path.join` is modelled as
  joining with `/`. Normalisation of empty, `.` and `..` segments is not
  modelled, nor is the win32 `\` separator. For example the resource
  path `/` with an empty hash gives the name `""`, and the model yields
  `components//index.js` where Node yields `components/index.js`.
  ResourceRegistry.OutputPathLayout therefore holds for POSIX paths whose
  segments are already normal.
- FixComponentName.RuleIdempotent: escaping twice equals escaping once
  only for the gated rule, and only when `mpx-com-<tag>` is itself neither
  a native nor a built-in tag; `isOriginTag` and `isBuildInTag` are
  parameters, so that is a requires. The bare `web` rewrite is not
  idempotent (FixComponentName.WebNotIdempotent).
- OptionProcessor.GetComponent: `defaultExport` is always an object. An ES
  module whose `default` is `undefined` is not modelled; the source then
  returns `undefined`, or throws a TypeError from `Object.assign` when
  extension options are given.
- LoaderHooks.AfterResolve: `styleOptions` is a parameter standing for
  `(mpxStyleOptions && JSON.parse(mpxStyleOptions)) || {}`. The
  `SyntaxError` that `JSON.parse` throws on a malformed `mpxStyleOptions`
  query is not modelled, and neither is the `{}` that replaces a falsy
  parse result.
- A page named `main` in the flat pages map is not modelled. Inherited
  `Object.prototype` keys of the resource maps are not modelled either, nor
  are those of `tabBarMap`: in the source a stack entry such as
  `/constructor` counts as a tab-bar page in AppRouter.FirstTab.
  Both are plain-object quirks (the blacklist's inherited names ARE
  modelled, as `ObjectPrototypeNames`).
- ReactRender.Iterate: strings are indexed by Unicode characters, not
  UTF-16 code units. `NaN` and infinite counts are not modelled. `fn`
  receives its argument list, and the `this` binding of `fn.call` is not
  modelled.
- ReactRender.IsPlainObject: `isObject` is taken to be a non-null,
  non-array object.
- OptionProcessor.ProcessComponentOption: a generic declared as `null` or
  `undefined` makes the source throw when it reads `.default`. The model
  requires every declaration to be defined instead of modelling that
  TypeError.
- Generic values that name inherited `Object.prototype` properties are not
  modelled.
- TemplateCompiler.CompressionEnabled: `compilerMode` stands for
  `require('./compiler').options.mode`. If that module has no `options`,
  the source throws a TypeError whenever `optimizeSize` is set; that throw
  is not modelled.
- OptionProcessor.ProcessComponentOption: `directives` and `filters` are
  modelled by the names of the objects they are set to.
- The `tabItem.path = to.path` mutation of `switch` is modelled by putting
  the target on the new stack. The stack holds paths, not shared objects.
- The `onPageNotFound` call and the `next(...)` callback are not called;
  they are modelled as the guard's outcome.
- The `lastStack` field is not modelled; the guard never reads it.
- The warnings and errors the parser reports through its `warn` and
  `error` callbacks are not modelled, because the parser is a parameter.
  Only the loader's own `emitError` (a failed bind) and `emitFile` are
  recorded.

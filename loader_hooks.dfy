/** The web build plugin's rewrite of a resolved module's loader list: the
    style-compiler loader is spliced in after the CSS loader (or after vue's
    style post-loader), the request is rebuilt from the loaders, and the
    `modeRules` condition may add a `mode` query to the request. */
module LoaderHooks {
  import opened Common
  import opened StringifyLoaders

  const CssLoaderMarker := "css-loader"
  const VueStylePostLoaderMarker := "vue-loader/lib/loaders/stylePostLoader"
  const PitcherMarker := "vue-loader/lib/loaders/pitcher"

  /** The collaborators of the hook whose code is not part of this model:
      `toPosix`, and the pieces of `parseRequest` and `addQuery` it uses. */
  datatype Tools = Tools(
    toPosix: string -> string,
    resourcePathOf: string -> string,     // parseRequest(r).resourcePath
    modeQueryOf: string -> string,        // parseRequest(r).queryObj.mode, "" when absent
    addModeQuery: (string, string) -> string)  // addQuery(r, { mode })

  /** `createData` of the `afterResolve` hook. */
  class CreateData {
    var request: string
    var resource: string
    var loaders: seq<Loader>

    constructor (request: string, resource: string, loaders: seq<Loader>)
      ensures this.request == request && this.resource == resource && this.loaders == loaders
    {
      this.request := request;
      this.resource := resource;
      this.loaders := loaders;
    }
  }

  /** The three indices the `forEach` scan tracks, -1 meaning not found. */
  datatype ScanState = ScanState(css: int, vue: int, mpx: int)

  /** One step of the scan over loader `name` at `index` (an `if … else if`
      chain: a loader is claimed by at most one of the three). */
  function ScanStep(st: ScanState, index: nat, name: string, styleCompilerPath: string): ScanState {
    if Contains(name, CssLoaderMarker) && st.css == -1 then st.(css := index)
    else if Contains(name, VueStylePostLoaderMarker) && st.vue == -1 then st.(vue := index)
    else if Contains(name, styleCompilerPath) && st.mpx == -1 then st.(mpx := index)
    else st
  }

  /** The scan's state after the first `n` loader names. */
  function Scan(names: seq<string>, n: nat, styleCompilerPath: string): (r: ScanState)
    requires n <= |names|
    ensures -1 <= r.css < n && -1 <= r.vue < n && -1 <= r.mpx < n
  {
    if n == 0 then ScanState(-1, -1, -1)
    else ScanStep(Scan(names, n - 1, styleCompilerPath), n - 1, names[n - 1], styleCompilerPath)
  }

  /** The loaders' names as the hook sees them. */
  function Names(loaders: seq<Loader>, toPosix: string -> string): (r: seq<string>)
    ensures |r| == |loaders|
    ensures forall i :: 0 <= i < |r| ==> r[i] == toPosix(loaders[i].loader)
  {
    seq(|loaders|, i requires 0 <= i < |loaders| => toPosix(loaders[i].loader))
  }

  /** The forEach loop over the loaders. */
  method ScanLoaders(names: seq<string>, styleCompilerPath: string) returns (st: ScanState)
    ensures st == Scan(names, |names|, styleCompilerPath)
  {
    st := ScanState(-1, -1, -1);
    var i := 0;
    while i < |names|
      invariant 0 <= i <= |names|
      invariant st == Scan(names, i, styleCompilerPath)
    {
      st := ScanStep(st, i, names[i], styleCompilerPath);
      i := i + 1;
    }
  }

  /** The css index after `n` names is the first name containing `css-loader`. */
  lemma {:induction false} ScanCss(names: seq<string>, n: nat, path: string)
    requires n <= |names|
    ensures var c := Scan(names, n, path).css;
            && -1 <= c < n
            && (c >= 0 ==> Contains(names[c], CssLoaderMarker))
            && forall j :: 0 <= j < n && (c == -1 || j < c) ==> !Contains(names[j], CssLoaderMarker)
  {
    if n > 0 {
      ScanCss(names, n - 1, path);
    }
  }

  /** The vue index is the first name containing the post-loader marker that
      the css branch did not claim. */
  lemma {:induction false} ScanVue(names: seq<string>, n: nat, path: string)
    requires n <= |names|
    ensures var st := Scan(names, n, path);
            && (st.vue >= 0 ==> Contains(names[st.vue], VueStylePostLoaderMarker) && st.vue != st.css)
            && (forall j :: 0 <= j < n && (st.vue == -1 || j < st.vue) && j != st.css ==>
                  !Contains(names[j], VueStylePostLoaderMarker))
  {
    if n > 0 {
      ScanVue(names, n - 1, path);
    }
  }

  /** The mpx index is the first name containing the style compiler's path
      that neither earlier branch claimed. */
  lemma {:induction false} ScanMpx(names: seq<string>, n: nat, path: string)
    requires n <= |names|
    ensures var st := Scan(names, n, path);
            && (st.mpx >= 0 ==> Contains(names[st.mpx], path) && st.mpx != st.css && st.mpx != st.vue)
            && (forall j :: 0 <= j < n && (st.mpx == -1 || j < st.mpx) && j != st.css && j != st.vue ==>
                  !Contains(names[j], path))
  {
    if n > 0 {
      ScanMpx(names, n - 1, path);
    }
  }

  /** The index after which the style compiler goes, or -1 for no insertion. */
  function InsertionIndex(st: ScanState, isPitcherRequest: bool): (r: int)
    ensures r == -1 || r == st.css || r == st.vue
  {
    if st.mpx != -1 then -1
    else if st.css > -1 && st.vue == -1 then st.css
    else if st.css > -1 && st.vue > -1 && !isPitcherRequest then st.vue
    else -1
  }

  /** `firstLoader.includes('vue-loader/lib/loaders/pitcher')` */
  predicate IsPitcherRequest(names: seq<string>) {
    |names| > 0 && Contains(names[0], PitcherMarker)
  }

  /** The loader list after the hook's `splice`. */
  function WithStyleCompiler(loaders: seq<Loader>, tools: Tools, styleCompilerPath: string,
                             styleOptions: LoaderOptions): seq<Loader>
  {
    var names := Names(loaders, tools.toPosix);
    var idx := InsertionIndex(Scan(names, |names|, styleCompilerPath), IsPitcherRequest(names));
    if idx > -1 then loaders[..idx + 1] + [Loader(styleCompilerPath, styleOptions, "")] + loaders[idx + 1..]
    else loaders
  }

  /** At most one loader is inserted; when one is, it is the style compiler and
      it goes right after the loader at the returned index. */
  lemma InsertionShape(loaders: seq<Loader>, tools: Tools, path: string, styleOptions: LoaderOptions)
    ensures var after := WithStyleCompiler(loaders, tools, path, styleOptions);
            var names := Names(loaders, tools.toPosix);
            var idx := InsertionIndex(Scan(names, |names|, path), IsPitcherRequest(names));
            && (idx == -1 ==> after == loaders)
            && (idx != -1 ==> 0 <= idx < |loaders| && |after| == |loaders| + 1
                              && after[..idx + 1] == loaders[..idx + 1]
                              && after[idx + 1] == Loader(path, styleOptions, "")
                              && after[idx + 2..] == loaders[idx + 1..])
  {
    var names := Names(loaders, tools.toPosix);
    var idx := InsertionIndex(Scan(names, |names|, path), IsPitcherRequest(names));
    if idx != -1 {
      SpliceAfter(loaders, idx, Loader(path, styleOptions, ""));
    }
  }

  /** `splice(idx + 1, 0, x)` keeps everything up to `idx`, then `x`, then the rest. */
  lemma SpliceAfter<T>(xs: seq<T>, idx: nat, x: T)
    requires idx < |xs|
    ensures var after := xs[..idx + 1] + [x] + xs[idx + 1..];
            && |after| == |xs| + 1 && after[..idx + 1] == xs[..idx + 1]
            && after[idx + 1] == x && after[idx + 2..] == xs[idx + 1..]
  {
    var front := xs[..idx + 1] + [x];
    var after := front + xs[idx + 1..];
    assert after[..idx + 1] == front[..idx + 1] == xs[..idx + 1];
    assert after[idx + 2..] == xs[idx + 1..];
  }

  /** Where the style compiler goes: after the first CSS loader when no vue
      post-loader is found; after the vue post-loader when both are found and
      the request is not a pitcher request; nowhere once a style compiler is
      present. In particular a list with a CSS loader and neither a
      post-loader nor a style compiler always gets one. */
  lemma InsertionPlace(loaders: seq<Loader>, tools: Tools, path: string)
    ensures var names := Names(loaders, tools.toPosix);
            var st := Scan(names, |names|, path);
            var idx := InsertionIndex(st, IsPitcherRequest(names));
            && ((exists j :: 0 <= j < |names| && Contains(names[j], path)
                   && !Contains(names[j], CssLoaderMarker) && !Contains(names[j], VueStylePostLoaderMarker))
                ==> idx == -1)
            && (idx != -1 ==> Contains(names[idx], CssLoaderMarker) || Contains(names[idx], VueStylePostLoaderMarker))
            && (idx != -1 && st.vue == -1 ==> idx == st.css && forall j :: 0 <= j < idx ==> !Contains(names[j], CssLoaderMarker))
            && (idx != -1 && st.vue != -1 ==> idx == st.vue && st.css != -1 && !IsPitcherRequest(names))
            && (st.mpx == -1 && st.css != -1 && st.vue == -1 ==> idx == st.css)
            && (st.mpx == -1 && st.css != -1 && st.vue != -1 && !IsPitcherRequest(names) ==> idx == st.vue)
            && ((forall j :: 0 <= j < |names| ==> !Contains(names[j], path) && !Contains(names[j], VueStylePostLoaderMarker))
                && (exists j :: 0 <= j < |names| && Contains(names[j], CssLoaderMarker))
                ==> idx != -1 && Contains(names[idx], CssLoaderMarker)
                    && forall j :: 0 <= j < idx ==> !Contains(names[j], CssLoaderMarker))
  {
    var names := Names(loaders, tools.toPosix);
    var st := Scan(names, |names|, path);
    ScanCss(names, |names|, path);
    ScanVue(names, |names|, path);
    ScanMpx(names, |names|, path);
    if exists j :: 0 <= j < |names| && Contains(names[j], path)
         && !Contains(names[j], CssLoaderMarker) && !Contains(names[j], VueStylePostLoaderMarker) {
      var j :| 0 <= j < |names| && Contains(names[j], path)
               && !Contains(names[j], CssLoaderMarker) && !Contains(names[j], VueStylePostLoaderMarker);
      assert j != st.css;
      assert j != st.vue;
      assert st.mpx != -1;
    }
  }

  /** Running the insertion twice inserts nothing the second time, as long as
      the style compiler's own path is not mistaken for a CSS or post-loader. */
  lemma InsertionIdempotent(loaders: seq<Loader>, tools: Tools, path: string, styleOptions: LoaderOptions)
    requires tools.toPosix(path) == path
    requires !Contains(path, CssLoaderMarker) && !Contains(path, VueStylePostLoaderMarker)
    ensures var once := WithStyleCompiler(loaders, tools, path, styleOptions);
            WithStyleCompiler(once, tools, path, styleOptions) == once
  {
    var once := WithStyleCompiler(loaders, tools, path, styleOptions);
    var names := Names(loaders, tools.toPosix);
    var idx := InsertionIndex(Scan(names, |names|, path), IsPitcherRequest(names));
    if idx != -1 {
      InsertionShape(loaders, tools, path, styleOptions);
      var names2 := Names(once, tools.toPosix);
      assert names2[idx + 1] == path;
      Common.ContainsPrefix(path, path, "");
      assert path + "" == path;
      InsertionPlace(once, tools, path);
    }
  }

  /** The scan and the `splice` of the hook. */
  method InsertStyleCompiler(data: CreateData, tools: Tools, styleCompilerPath: string, styleOptions: LoaderOptions)
    modifies data
    ensures data.loaders == WithStyleCompiler(old(data.loaders), tools, styleCompilerPath, styleOptions)
    ensures data.request == old(data.request) && data.resource == old(data.resource)
  {
    var loaders := data.loaders;
    var names := Names(loaders, tools.toPosix);
    var firstLoader := if |loaders| > 0 then tools.toPosix(loaders[0].loader) else "";
    var isPitcherRequest := Contains(firstLoader, PitcherMarker);
    assert isPitcherRequest == IsPitcherRequest(names);
    var st := ScanLoaders(names, styleCompilerPath);
    if st.mpx == -1 {
      var loaderIndex := -1;
      if st.css > -1 && st.vue == -1 {
        loaderIndex := st.css;
      } else if st.css > -1 && st.vue > -1 && !isPitcherRequest {
        loaderIndex := st.vue;
      }
      if loaderIndex > -1 {
        loaders := loaders[..loaderIndex + 1] + [Loader(styleCompilerPath, styleOptions, "")] + loaders[loaderIndex + 1..];
      }
    }
    data.loaders := loaders;
  }

  /** `runModeRules`: whether the `mode` query is added to the request. */
  predicate ModeRuleApplies(resource: string, tools: Tools, modeRule: Option<string -> bool>) {
    tools.modeQueryOf(resource) == "" && modeRule.Some? && modeRule.value(tools.resourcePathOf(resource))
  }

  /** `runModeRules(data)`; `modeRule` is `options.modeRules.mode`. */
  method RunModeRules(data: CreateData, tools: Tools, mode: string, modeRule: Option<string -> bool>)
    modifies data
    ensures data.loaders == old(data.loaders)
    ensures ModeRuleApplies(old(data.resource), tools, modeRule) ==>
              data.resource == tools.addModeQuery(old(data.resource), mode)
              && data.request == tools.addModeQuery(old(data.request), mode)
    ensures !ModeRuleApplies(old(data.resource), tools, modeRule) ==>
              data.resource == old(data.resource) && data.request == old(data.request)
  {
    var resourcePath := tools.resourcePathOf(data.resource);
    if tools.modeQueryOf(data.resource) != "" {
      return;
    }
    if modeRule.None? {
      return;
    }
    if modeRule.value(resourcePath) {
      data.resource := tools.addModeQuery(data.resource, mode);
      data.request := tools.addModeQuery(data.request, mode);
    }
  }

  /** The `afterResolve` hook. `styleOptions` is the value
      `(mpxStyleOptions && JSON.parse(mpxStyleOptions)) || {}` yields for the
      request's `mpxStyleOptions` query. An `Err` is the error the request
      serialiser throws, after which the request is left alone. */
  method AfterResolve(data: CreateData, tools: Tools, styleCompilerPath: string, styleOptions: LoaderOptions,
                      mode: string, modeRule: Option<string -> bool>)
    returns (outcome: Result<()>)
    modifies data
    ensures data.loaders == WithStyleCompiler(old(data.loaders), tools, styleCompilerPath, styleOptions)
    ensures var s := Stringified(data.loaders, old(data.resource));
            && (s.Err? ==> outcome == Err(s.error) && data.request == old(data.request) && data.resource == old(data.resource))
            && (s.Ok? && ModeRuleApplies(old(data.resource), tools, modeRule) ==>
                  outcome == Ok(()) && data.request == tools.addModeQuery(s.value, mode)
                  && data.resource == tools.addModeQuery(old(data.resource), mode))
            && (s.Ok? && !ModeRuleApplies(old(data.resource), tools, modeRule) ==>
                  outcome == Ok(()) && data.request == s.value && data.resource == old(data.resource))
  {
    InsertStyleCompiler(data, tools, styleCompilerPath, styleOptions);
    var request := StringifyLoadersAndResource(data.loaders, data.resource);
    if request.Err? {
      return Err(request.error);
    }
    data.request := request.value;
    RunModeRules(data, tools, mode, modeRule);
    return Ok(());
  }
}

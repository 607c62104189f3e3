/** The resource registry of the web build plugin: the rules that derive a
    resource's output path, and the per-package maps from resource path to
    output path (or to a placeholder) with their collision handling. */
module ResourceRegistry {
  import opened Common

  datatype ResourceType = Page | Component | StaticResource {
    /** The name the plugin uses in messages and in `<name>sMap`. */
    function Name(): string {
      match this
      case Page => "page"
      case Component => "component"
      case StaticResource => "staticResource"
    }
  }

  /** A value of a resource map: the placeholder `true`, or an output path. */
  datatype Entry = Placeholder | Output(path: string)

  /** `isProductionLikeMode`: the build mode is `production` or unset (`""`). */
  predicate IsProductionLikeMode(mode: string) {
    mode == "production" || mode == ""
  }

  // ---------------------------------------------------------------------------
  // path.parse(p).name for POSIX paths

  function TrimTrailingSlashes(p: string): string {
    if p != [] && p[|p| - 1] == '/' then TrimTrailingSlashes(p[..|p| - 1]) else p
  }

  /** The text after the last `/`. */
  function LastSegment(p: string): (r: string)
    ensures '/' !in r
  {
    if p == [] || p[|p| - 1] == '/' then [] else LastSegment(p[..|p| - 1]) + [p[|p| - 1]]
  }

  /** The index of the last `.` in `s`, or -1. */
  function LastDot(s: string): (r: int)
    ensures -1 <= r < |s|
    ensures r >= 0 ==> s[r] == '.'
    ensures forall j :: r < j < |s| ==> s[j] != '.'
  {
    if s == [] then -1 else if s[|s| - 1] == '.' then |s| - 1 else LastDot(s[..|s| - 1])
  }

  /** `path.parse(p).name`: the last segment (trailing slashes ignored) without
      its extension; a leading dot and the segment `..` are not extensions. */
  function ParsedName(p: string): (r: string)
    ensures '/' !in r
  {
    var base := LastSegment(TrimTrailingSlashes(p));
    var d := LastDot(base);
    if base == ".." || d <= 0 then base else base[..d]
  }

  // ---------------------------------------------------------------------------
  // The conflict rename: conflictPath.replace(/(\.[^\\/]+)?$/, m => hash + m)

  /** A match of `\.[^\\/]+$` starts at index `i`: a dot followed by at least
      one character, none of them a slash or a backslash. */
  predicate ExtensionAt(s: string, i: int) {
    0 <= i < |s| - 1 && s[i] == '.' && forall j :: i < j < |s| ==> s[j] != '/' && s[j] != '\\'
  }

  /** Where the leftmost match of `/(\.[^\\/]+)?$/` at or after `from` starts:
      the first index that starts an extension, or the end of the string. */
  function HashPoint(s: string, from: nat): (r: nat)
    requires from <= |s|
    ensures from <= r <= |s|
    ensures r < |s| ==> ExtensionAt(s, r)
    ensures forall j :: from <= j < r ==> !ExtensionAt(s, j)
    decreases |s| - from
  {
    if from == |s| then |s|
    else if ExtensionAt(s, from) then from
    else HashPoint(s, from + 1)
  }

  /** The path a conflicting output path is renamed to. */
  function ConflictRename(conflictPath: string, hash: string): string {
    var p := HashPoint(conflictPath, 0);
    conflictPath[..p] + hash + conflictPath[p..]
  }

  /** `path.join` with the POSIX separator and without normalising empty, `.`
      or `..` segments. */
  function PathJoin(segments: seq<string>): string {
    Join(segments, "/")
  }

  /** `getOutputPath(resourcePath, type, mpx, { ext, conflictPath })`; `hash` is
      the value `mpx.pathHash(resourcePath)` produced and `customOutputPath` the
      user's optional function. */
  function GetOutputPath(resourcePath: string, resourceType: string, hash: string, ext: string,
                         conflictPath: string,
                         customOutputPath: Option<(string, string, string, string) -> string>): string
  {
    var name := ParsedName(resourcePath);
    if conflictPath != "" then ConflictRename(conflictPath, hash)
    else if customOutputPath.Some? then
      var custom := customOutputPath.value(resourceType, name, hash, ext);
      if StartsWith(custom, "/") then custom[1..] else custom
    else if resourceType == "component" || resourceType == "page" then
      PathJoin([resourceType + "s", name + hash, "index" + ext])
    else PathJoin([resourceType, name + hash + ext])
  }

  predicate NoSeparator(s: string) {
    forall j :: 0 <= j < |s| ==> s[j] != '/' && s[j] != '\\'
  }

  lemma DirectoryHasNoExtension(s: string, d: int)
    requires 0 < d <= |s| && s[d - 1] == '/'
    ensures forall j :: 0 <= j < d ==> !ExtensionAt(s, j)
  {
    forall j | 0 <= j < d ensures !ExtensionAt(s, j) {
      if j < d - 1 {
        assert j < d - 1 < |s| && s[d - 1] == '/';
      }
    }
  }

  /** The leftmost match is unique: any index with the two properties is it. */
  lemma HashPointIs(s: string, p: nat)
    requires p <= |s|
    requires p < |s| ==> ExtensionAt(s, p)
    requires forall j :: 0 <= j < p ==> !ExtensionAt(s, j)
    ensures HashPoint(s, 0) == p
  {
  }

  /** A final segment without a dot: the hash is appended. */
  lemma ConflictRenameAppends(dir: string, base: string, hash: string)
    requires dir == "" || dir[|dir| - 1] == '/'
    requires NoSeparator(base) && '.' !in base
    ensures ConflictRename(dir + base, hash) == dir + base + hash
  {
    var s := dir + base;
    if dir != "" {
      DirectoryHasNoExtension(s, |dir|);
    }
    forall j | |dir| <= j < |s| ensures !ExtensionAt(s, j) {
      assert s[j] == base[j - |dir|];
    }
    HashPointIs(s, |s|);
    assert s[..|s|] == s && s[|s|..] == "";
  }

  /** A final segment `stem + ext` whose stem has no dot and whose `ext` is a
      dot and at least one more character: the hash goes between them, so it is
      inserted before the FIRST dot of the segment (`a.b.js` becomes `a<hash>.b.js`). */
  lemma ConflictRenameBeforeFirstDot(dir: string, stem: string, ext: string, hash: string)
    requires dir == "" || dir[|dir| - 1] == '/'
    requires NoSeparator(stem) && '.' !in stem
    requires |ext| >= 2 && ext[0] == '.' && NoSeparator(ext)
    ensures ConflictRename(dir + stem + ext, hash) == dir + stem + hash + ext
  {
    var s := dir + stem + ext;
    var p := |dir| + |stem|;
    if dir != "" {
      DirectoryHasNoExtension(s, |dir|);
    }
    forall j | |dir| <= j < p ensures !ExtensionAt(s, j) {
      assert s[j] == stem[j - |dir|];
    }
    forall j | p < j < |s| ensures s[j] != '/' && s[j] != '\\' {
      assert s[j] == ext[j - p];
    }
    assert ExtensionAt(s, p);
    HashPointIs(s, p);
    assert s[..p] == dir + stem && s[p..] == ext;
  }

  /** The rename keeps the path around the inserted hash. */
  lemma ConflictRenameInserts(conflictPath: string, hash: string)
    ensures var r := ConflictRename(conflictPath, hash);
            |r| == |conflictPath| + |hash|
            && exists p :: 0 <= p <= |conflictPath| && r == conflictPath[..p] + hash + conflictPath[p..]
  {
    var p := HashPoint(conflictPath, 0);
    assert ConflictRename(conflictPath, hash) == conflictPath[..p] + hash + conflictPath[p..];
  }

  /** Without a conflict or a custom rule, a page or component is written to
      `<type>s/<name><hash>/index<ext>` and anything else to `<type>/<name><hash><ext>`. */
  lemma OutputPathLayout(resourcePath: string, resourceType: string, hash: string, ext: string)
    requires '/' !in resourceType && '/' !in hash && '/' !in ext
    ensures var r := GetOutputPath(resourcePath, resourceType, hash, ext, "", None);
            var name := ParsedName(resourcePath);
            if resourceType == "component" || resourceType == "page"
            then Split(r, '/') == [resourceType + "s", name + hash, "index" + ext]
            else Split(r, '/') == [resourceType, name + hash + ext]
  {
    var name := ParsedName(resourcePath);
    if resourceType == "component" || resourceType == "page" {
      var parts := [resourceType + "s", name + hash, "index" + ext];
      forall i | 0 <= i < |parts| ensures '/' !in parts[i] {
        if i == 0 { assert parts[0] == resourceType + "s"; }
        else if i == 1 { assert parts[1] == name + hash; }
        else { assert parts[2] == "index" + ext; }
      }
      SplitJoin(parts, '/');
    } else {
      var parts := [resourceType, name + hash + ext];
      forall i | 0 <= i < |parts| ensures '/' !in parts[i] {
        if i == 1 { assert parts[1] == name + hash + ext; }
      }
      SplitJoin(parts, '/');
    }
  }

  /** A custom output path loses exactly one leading slash; a conflict path
      overrides both the custom rule and the layout. */
  lemma OutputPathOverrides(resourcePath: string, resourceType: string, hash: string, ext: string,
                            conflictPath: string, custom: (string, string, string, string) -> string)
    ensures conflictPath != "" ==>
              GetOutputPath(resourcePath, resourceType, hash, ext, conflictPath, Some(custom))
              == GetOutputPath(resourcePath, resourceType, hash, ext, conflictPath, None)
              == ConflictRename(conflictPath, hash)
    ensures conflictPath == "" ==>
              var c := custom(resourceType, ParsedName(resourcePath), hash, ext);
              var r := GetOutputPath(resourcePath, resourceType, hash, ext, conflictPath, Some(custom));
              (StartsWith(c, "/") ==> "/" + r == c) && (!StartsWith(c, "/") ==> r == c)
  {
  }

  // ---------------------------------------------------------------------------
  // recordResourceMap

  /** The entry of `resourcePath` is free to assign: missing, the placeholder,
      or (being falsy) the empty path. */
  predicate Unassigned(m: map<string, Entry>, resourcePath: string) {
    resourcePath !in m || m[resourcePath] == Placeholder || m[resourcePath] == Output("")
  }

  /** Another resource of the same map is already written to `outputPath`. */
  predicate HasConflict(m: map<string, Entry>, resourcePath: string, outputPath: string) {
    exists k | k in m :: m[k] == Output(outputPath) && k != resourcePath
  }

  datatype Diagnostic = Warning(message: string) | Error(message: string)

  datatype RecordResult = RecordResult(outputPath: string, alreadyOutputted: bool)

  /** What one call does to the resource map it works on. */
  datatype Recorded = Recorded(table: map<string, Entry>, result: RecordResult, diagnostic: Option<Diagnostic>)

  function ConflictWarning(resourceType: ResourceType, resourcePath: string, conflicted: string, renamed: string): string {
    "Current " + resourceType.Name() + " [" + resourcePath + "] is registered with conflicted outputPath ["
    + conflicted + "] which is already existed in system, will be renamed with [" + renamed
    + "], use ?resolve to get the real outputPath!"
  }

  function ReassignError(resourceType: ResourceType, resourcePath: string, stored: string, outputPath: string): string {
    "Current " + resourceType.Name() + " [" + resourcePath + "] is already registered with outputPath ["
    + stored + "], you can not register it with another outputPath [" + outputPath + "]!"
  }

  /** Recording a non-empty path over a free entry: the collision check and
      the rename. */
  function RecordFree(m: map<string, Entry>, resourcePath: string, resourceType: ResourceType,
                      outputPath: string, recordOnly: bool, hash: string): Recorded
  {
    if !recordOnly && HasConflict(m, resourcePath, outputPath) then
      var renamed := GetOutputPath(resourcePath, resourceType.Name(), hash, "", outputPath, None);
      Recorded(m[resourcePath := Output(renamed)], RecordResult(renamed, false),
               Some(Warning(ConflictWarning(resourceType, resourcePath, outputPath, renamed))))
    else
      Recorded(m[resourcePath := Output(outputPath)], RecordResult(outputPath, false), None)
  }

  /** The effect of `recordResourceMap` on the map `m` of the resource's package;
      `hash` is `pathHash(resourcePath)`. */
  function Record(m: map<string, Entry>, resourcePath: string, resourceType: ResourceType,
                  outputPath: string, recordOnly: bool, hash: string): Recorded
  {
    if outputPath != "" then
      if Unassigned(m, resourcePath) then RecordFree(m, resourcePath, resourceType, outputPath, recordOnly, hash)
      else if m[resourcePath] == Output(outputPath) then
        Recorded(m, RecordResult(outputPath, true), None)
      else
        Recorded(m, RecordResult(outputPath, false),
                 Some(Error(ReassignError(resourceType, resourcePath, m[resourcePath].path, outputPath))))
    else if resourcePath !in m || m[resourcePath] == Output("") then
      Recorded(m[resourcePath := Placeholder], RecordResult(outputPath, false), None)
    else
      Recorded(m, RecordResult(outputPath, false), None)
  }

  /** Recording without an output path creates the placeholder only where the
      resource has no (truthy) entry, and leaves an existing entry as it was. */
  lemma RecordWithoutPath(m: map<string, Entry>, resourcePath: string, resourceType: ResourceType,
                          recordOnly: bool, hash: string)
    ensures var o := Record(m, resourcePath, resourceType, "", recordOnly, hash);
            && o.result == RecordResult("", false) && o.diagnostic == None
            && (resourcePath !in m ==> o.table == m[resourcePath := Placeholder])
            && (resourcePath in m && m[resourcePath] != Output("") ==> o.table == m)
  {
  }

  /** Over a stored concrete path: the same path is reported as already
      outputted, a different one as an error, and the map never changes. */
  lemma RecordOverStoredPath(m: map<string, Entry>, resourcePath: string, resourceType: ResourceType,
                             outputPath: string, recordOnly: bool, hash: string, stored: string)
    requires resourcePath in m && m[resourcePath] == Output(stored) && stored != ""
    requires outputPath != ""
    ensures var o := Record(m, resourcePath, resourceType, outputPath, recordOnly, hash);
            && o.table == m
            && o.result.outputPath == outputPath
            && (o.result.alreadyOutputted <==> stored == outputPath)
            && (o.diagnostic.Some? <==> stored != outputPath)
            && (o.diagnostic.Some? ==> o.diagnostic.value == Error(ReassignError(resourceType, resourcePath, stored, outputPath)))
  {
  }

  /** Over a free entry: the stored and the returned path agree, no other
      resource's entry changes, and the path is renamed (with a warning) exactly
      when another resource holds it and `recordOnly` is off. */
  lemma RecordOverFreeEntry(m: map<string, Entry>, resourcePath: string, resourceType: ResourceType,
                            outputPath: string, recordOnly: bool, hash: string)
    requires Unassigned(m, resourcePath) && outputPath != ""
    ensures var o := Record(m, resourcePath, resourceType, outputPath, recordOnly, hash);
            && o.table == m[resourcePath := Output(o.result.outputPath)]
            && !o.result.alreadyOutputted
            && (forall k :: k in m && k != resourcePath ==> k in o.table && o.table[k] == m[k])
            && (if !recordOnly && HasConflict(m, resourcePath, outputPath)
                then o.result.outputPath == ConflictRename(outputPath, hash)
                     && o.diagnostic == Some(Warning(ConflictWarning(resourceType, resourcePath, outputPath, o.result.outputPath)))
                else o.result.outputPath == outputPath && o.diagnostic == None)
  {
    var o := Record(m, resourcePath, resourceType, outputPath, recordOnly, hash);
    assert o == RecordFree(m, resourcePath, resourceType, outputPath, recordOnly, hash);
    if !recordOnly && HasConflict(m, resourcePath, outputPath) {
      var renamed := ConflictRename(outputPath, hash);
      assert GetOutputPath(resourcePath, resourceType.Name(), hash, "", outputPath, None) == renamed;
      assert o == Recorded(m[resourcePath := Output(renamed)], RecordResult(renamed, false),
                           Some(Warning(ConflictWarning(resourceType, resourcePath, outputPath, renamed))));
    } else {
      assert o == Recorded(m[resourcePath := Output(outputPath)], RecordResult(outputPath, false), None);
    }
  }

  /** No two resources of a map are written to the same non-empty path. */
  predicate CollisionFree(m: map<string, Entry>) {
    forall k1, k2 | k1 in m && k2 in m && k1 != k2 :: m[k1].Output? && m[k1].path != "" ==> m[k1] != m[k2]
  }

  /** Collision detection keeps a map collision-free as long as, when a rename
      happens, the renamed path is itself free. */
  lemma RecordKeepsCollisionFree(m: map<string, Entry>, resourcePath: string, resourceType: ResourceType,
                                 outputPath: string, hash: string)
    requires CollisionFree(m)
    requires HasConflict(m, resourcePath, outputPath) ==> !HasConflict(m, resourcePath, ConflictRename(outputPath, hash))
    ensures CollisionFree(Record(m, resourcePath, resourceType, outputPath, false, hash).table)
  {
    var o := Record(m, resourcePath, resourceType, outputPath, false, hash);
    if outputPath != "" && Unassigned(m, resourcePath) {
      RecordOverFreeEntry(m, resourcePath, resourceType, outputPath, false, hash);
      var p := o.result.outputPath;
      assert !HasConflict(m, resourcePath, p);
      forall k1, k2 | k1 in o.table && k2 in o.table && k1 != k2 && o.table[k1].Output? && o.table[k1].path != ""
        ensures o.table[k1] != o.table[k2]
      {
        if k1 == resourcePath {
          assert o.table[k2] == m[k2];
        } else if k2 == resourcePath {
          assert o.table[k1] == m[k1];
        }
      }
    }
  }

  /** The renamed path is not re-checked: when a third resource already holds
      it, the new resource ends up sharing that resource's output path. */
  lemma RenameMayCollide(m: map<string, Entry>, holder: string, resourcePath: string, third: string,
                         resourceType: ResourceType, outputPath: string, hash: string)
    requires resourcePath !in m && holder in m && third in m && holder != resourcePath && third != resourcePath
    requires outputPath != "" && m[holder] == Output(outputPath) && m[third] == Output(ConflictRename(outputPath, hash))
    ensures !CollisionFree(Record(m, resourcePath, resourceType, outputPath, false, hash).table)
  {
    assert HasConflict(m, resourcePath, outputPath) by {
      assert m[holder] == Output(outputPath);
    }
    RecordOverFreeEntry(m, resourcePath, resourceType, outputPath, false, hash);
    ConflictRenameInserts(outputPath, hash);
    var t := Record(m, resourcePath, resourceType, outputPath, false, hash).table;
    assert t[resourcePath] == t[third] && t[resourcePath].path != "";
  }

  /** An instance: `a.js` is renamed to `a1.js`, which `/src/c.mpx` already has. */
  lemma RenameIsNotRechecked()
    ensures var m := map["/src/a.mpx" := Output("a.js"), "/src/c.mpx" := Output("a1.js")];
            CollisionFree(m)
            && !CollisionFree(Record(m, "/src/b.mpx", Component, "a.js", false, "1").table)
  {
    var m := map["/src/a.mpx" := Output("a.js"), "/src/c.mpx" := Output("a1.js")];
    assert "/src/a.mpx" != "/src/b.mpx" && "/src/b.mpx" != "/src/c.mpx" && "a.js" != "a1.js";
    forall k1, k2 | k1 in m && k2 in m && k1 != k2 ensures m[k1] != m[k2] {
      assert {k1, k2} == {"/src/a.mpx", "/src/c.mpx"};
    }
    ConflictRenameBeforeFirstDot("", "a", ".js", "1");
    assert "" + "a" + ".js" == "a.js" && "" + "a" + "1" + ".js" == "a1.js";
    RenameMayCollide(m, "/src/a.mpx", "/src/b.mpx", "/src/c.mpx", Component, "a.js", "1");
  }

  /** Followed by a second call with the returned path, a call is a no-op that
      reports the path as already outputted; a second call with the original
      path after a rename is refused. */
  lemma RecordTwice(m: map<string, Entry>, resourcePath: string, resourceType: ResourceType,
                    outputPath: string, recordOnly: bool, hash: string)
    requires Unassigned(m, resourcePath) && outputPath != "" && hash != ""
    ensures var o1 := Record(m, resourcePath, resourceType, outputPath, recordOnly, hash);
            var o2 := Record(o1.table, resourcePath, resourceType, o1.result.outputPath, recordOnly, hash);
            var o3 := Record(o1.table, resourcePath, resourceType, outputPath, recordOnly, hash);
            && o2.table == o1.table && o2.result.alreadyOutputted && o2.diagnostic == None
            && (o1.result.outputPath != outputPath ==> o3.diagnostic.Some? && o3.diagnostic.value.Error?)
  {
    RecordOverFreeEntry(m, resourcePath, resourceType, outputPath, recordOnly, hash);
    var o1 := Record(m, resourcePath, resourceType, outputPath, recordOnly, hash);
    var p := o1.result.outputPath;
    if !recordOnly && HasConflict(m, resourcePath, outputPath) {
      ConflictRenameInserts(outputPath, hash);
    }
    assert p != "" && o1.table[resourcePath] == Output(p);
    RecordOverStoredPath(o1.table, resourcePath, resourceType, p, recordOnly, hash, p);
    RecordOverStoredPath(o1.table, resourcePath, resourceType, outputPath, recordOnly, hash, p);
  }

  /** The `for…in` scan of `recordResourceMap` that stops at the first other
      resource already written to `outputPath`. */
  method FindConflict(m: map<string, Entry>, resourcePath: string, outputPath: string) returns (found: bool)
    ensures found <==> HasConflict(m, resourcePath, outputPath)
  {
    var keys := m.Keys;
    found := false;
    while keys != {}
      invariant keys <= m.Keys
      invariant forall k :: k in m && k !in keys ==> !(m[k] == Output(outputPath) && k != resourcePath)
      decreases |keys|
    {
      var key :| key in keys;
      if m[key] == Output(outputPath) && key != resourcePath {
        found := true;
        return;
      }
      keys := keys - {key};
    }
  }

  /** `packageRoot || 'main'` */
  function PackageName(packageRoot: string): (r: string)
    ensures r != ""
    ensures packageRoot != "" ==> r == packageRoot
  {
    if packageRoot == "" then "main" else packageRoot
  }

  /** The plugin-wide resource maps. Pages are recorded in one flat map;
      components and static resources in one map per package, the main
      package under `main`. */
  class Registry {
    var pagesMap: map<string, Entry>
    var componentsMap: map<string, map<string, Entry>>
    var staticResourcesMap: map<string, map<string, Entry>>
    const pathHash: string -> string

    ghost predicate Valid()
      reads this
    {
      "main" in componentsMap && "main" in staticResourcesMap
    }

    constructor (pathHash: string -> string)
      ensures Valid() && this.pathHash == pathHash
      ensures pagesMap == map[] && componentsMap == map["main" := map[]] && staticResourcesMap == map["main" := map[]]
    {
      this.pathHash := pathHash;
      pagesMap := map[];
      componentsMap := map["main" := map[]];
      staticResourcesMap := map["main" := map[]];
    }

    /** The map a resource of type `resourceType` in package `packageName` is
        recorded in (a missing sub-map reads as empty). */
    function Table(resourceType: ResourceType, packageName: string): map<string, Entry>
      reads this
    {
      match resourceType
      case Page => pagesMap
      case Component => if packageName in componentsMap then componentsMap[packageName] else map[]
      case StaticResource => if packageName in staticResourcesMap then staticResourcesMap[packageName] else map[]
    }

    /** Writes `table` back as the map of `resourceType` in package `packageName`. */
    method Store(resourceType: ResourceType, packageName: string, table: map<string, Entry>)
      requires Valid()
      modifies this
      ensures Valid()
      ensures pagesMap == (if resourceType == Page then table else old(pagesMap))
      ensures componentsMap == (if resourceType == Component then old(componentsMap)[packageName := table] else old(componentsMap))
      ensures staticResourcesMap == (if resourceType == StaticResource then old(staticResourcesMap)[packageName := table] else old(staticResourcesMap))
    {
      match resourceType {
        case Page => pagesMap := table;
        case Component => componentsMap := componentsMap[packageName := table];
        case StaticResource => staticResourcesMap := staticResourcesMap[packageName := table];
      }
    }

    method RecordResourceMap(resourcePath: string, resourceType: ResourceType, outputPath: string,
                             packageRoot: string, recordOnly: bool)
      returns (result: RecordResult, diagnostic: Option<Diagnostic>)
      requires Valid()
      modifies this
      ensures Valid()
      ensures var pkg := PackageName(packageRoot);
              var o := Record(old(Table(resourceType, pkg)), resourcePath, resourceType, outputPath,
                              recordOnly, pathHash(resourcePath));
              && result == o.result && diagnostic == o.diagnostic
              && pagesMap == (if resourceType == Page then o.table else old(pagesMap))
              && componentsMap == (if resourceType == Component then old(componentsMap)[pkg := o.table] else old(componentsMap))
              && staticResourcesMap == (if resourceType == StaticResource then old(staticResourcesMap)[pkg := o.table] else old(staticResourcesMap))
    {
      var pkg := PackageName(packageRoot);
      var current := Table(resourceType, pkg);
      ghost var m := current;
      var path := outputPath;
      var alreadyOutputted := false;
      diagnostic := None;
      if path != "" {
        if Unassigned(current, resourcePath) {
          if !recordOnly {
            var conflict := FindConflict(current, resourcePath, path);
            if conflict {
              path := GetOutputPath(resourcePath, resourceType.Name(), pathHash(resourcePath), "", path, None);
              diagnostic := Some(Warning(ConflictWarning(resourceType, resourcePath, outputPath, path)));
            }
          }
          current := current[resourcePath := Output(path)];
        } else if current[resourcePath] == Output(path) {
          alreadyOutputted := true;
        } else {
          diagnostic := Some(Error(ReassignError(resourceType, resourcePath, current[resourcePath].path, path)));
        }
      } else if resourcePath !in current || current[resourcePath] == Output("") {
        current := current[resourcePath := Placeholder];
      }
      result := RecordResult(path, alreadyOutputted);
      assert Recorded(current, result, diagnostic)
             == Record(m, resourcePath, resourceType, outputPath, recordOnly, pathHash(resourcePath));
      Store(resourceType, pkg, current);
    }
  }
}

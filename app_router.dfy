/** The history stack the web app's router keeps beside the browser's: the
    navigation guard installed in `createApp` classifies every navigation
    (an explicit `to`, `back`, `redirect`, `switch` or `reLaunch` action, or
    one the user made), refuses pages missing from the route table, and
    updates the stack, the entries to remove and the entry to cache. */
module AppRouter {
  import opened Common
  import opened JsValues
  import OptionProcessor

  // ---------------------------------------------------------------------
  // Array.prototype.splice
  // ---------------------------------------------------------------------

  /** The start index `splice` uses: a negative start counts from the end,
      and both ends are clamped to the array. */
  function SpliceStart(len: nat, start: int): (r: nat)
    ensures r <= len
  {
    if start < 0 then (if len + start < 0 then 0 else len + start)
    else if start > len then len
    else start
  }

  /** The number of elements `splice` removes from `start`. */
  function SpliceCount(len: nat, start: nat, deleteCount: int): (r: nat)
    requires start <= len
    ensures start + r <= len
  {
    if deleteCount < 0 then 0
    else if deleteCount > len - start then len - start
    else deleteCount
  }

  /** What `s.splice(start, deleteCount, ...items)` returns and leaves in `s`. */
  datatype Spliced<T> = Spliced(removed: seq<T>, result: seq<T>)

  function Splice<T>(s: seq<T>, start: int, deleteCount: int, items: seq<T>): (r: Spliced<T>)
    ensures |r.result| == |s| - |r.removed| + |items|
  {
    var a := SpliceStart(|s|, start);
    var c := SpliceCount(|s|, a, deleteCount);
    Spliced(s[a..a + c], s[..a] + items + s[a + c..])
  }

  /** Removing the last `d` elements, for `d` within the array. */
  lemma SpliceTail<T>(s: seq<T>, d: int, items: seq<T>)
    requires 0 <= d <= |s|
    ensures Splice(s, |s| - d, d, items) == Spliced(s[|s| - d..], s[..|s| - d] + items)
  {
  }

  // ---------------------------------------------------------------------
  // The navigation guard
  // ---------------------------------------------------------------------

  datatype ActionKind = To | Back | Redirect | Switch | ReLaunch

  /** `global.__mpxRouter.__mpxAction`: set by the navigation APIs before they
      move the browser's history. */
  datatype Action = Action(kind: ActionKind, delta: int, path: string, routeCount: JsValue,
                           eventChannel: JsValue, replaced: bool)

  /** The API whose failure message names the action. */
  function MethodName(kind: ActionKind): string {
    match kind
    case To => "navigateTo"
    case Redirect => "redirectTo"
    case Back => "navigateBack"
    case Switch => "switchTab"
    case ReLaunch => "reLaunch"
  }

  /** The arguments of `next(...)` that restart the navigation elsewhere. */
  datatype Location = Location(path: string, replace: bool, query: Option<JsValue>)

  /** How the guard ends: `next()`, `next(location)`, a plain return after
      `onPageNotFound` ran, or a thrown error. */
  datatype GuardOutcome =
    | Proceed
    | Restart(location: Location, warning: Option<string>)
    | PageNotFoundHandled
    | Thrown(message: string)

  /** The router fields the guard reads and writes. */
  datatype RouterState = RouterState(stack: seq<string>, needRemove: seq<string>, needCache: Option<string>,
                                     eventChannelMap: map<string, JsValue>, action: Option<Action>)

  /** What the guard sees of the app: the route table, the first page (`""`
      when unset), the tab-bar pages and whether `onPageNotFound` is defined. */
  datatype App = App(routes: seq<OptionProcessor.Route>, firstPage: string, tabBarMap: Dict<JsValue>,
                     hasOnPageNotFound: bool)

  /** `path.slice(1)` */
  function DropFirst(path: string): string {
    if |path| >= 1 then path[1..] else ""
  }

  /** The action the guard acts on: the pending one, or a user navigation,
      read as one step back when it returns to the page below the top. */
  function EffectiveAction(action: Option<Action>, stack: seq<string>, target: string): Action {
    if action.Some? then action.value
    else if |stack| > 1 && stack[|stack| - 2] == target then Action(Back, 1, "", Undefined, Undefined, false)
    else Action(To, 0, "", Undefined, Undefined, false)
  }

  /** `routes.some(item => item.path === to.path)` */
  predicate InRoutes(routes: seq<OptionProcessor.Route>, target: string) {
    exists i :: 0 <= i < |routes| && routes[i].path == target
  }

  function NotFoundWarning(target: string, firstPage: string): string {
    "[Mpx runtime warn]: the " + target + " path does not exist in the application\U{FF0C}will redirect to the home page path " + firstPage
  }

  function NotFoundError(kind: ActionKind, target: string): string {
    MethodName(kind) + ":fail page \"" + target + "\" is not found"
  }

  /** The first stack entry that is a tab-bar page, if any. */
  function FirstTab(stack: seq<string>, tabBarMap: Dict<JsValue>): (r: Option<nat>)
    ensures r.Some? ==> r.value < |stack| && Truthy(Get(tabBarMap, DropFirst(stack[r.value])))
                        && forall j :: 0 <= j < r.value ==> !Truthy(Get(tabBarMap, DropFirst(stack[j])))
    ensures r.None? ==> forall j :: 0 <= j < |stack| ==> !Truthy(Get(tabBarMap, DropFirst(stack[j])))
  {
    if stack == [] then None
    else if Truthy(Get(tabBarMap, DropFirst(stack[0]))) then Some(0)
    else
      var r := FirstTab(stack[1..], tabBarMap);
      if r.Some? then Some(r.value + 1) else None
  }

  /** The guard as a function of the router state. */
  function Step(st: RouterState, app: App, target: string): (RouterState, GuardOutcome) {
    var action := EffectiveAction(st.action, st.stack, target);
    if !InRoutes(app.routes, target) then
      if |st.stack| < 1 then
        if app.hasOnPageNotFound then (st, PageNotFoundHandled)
        else (st, Restart(Location(app.firstPage, true, None), Some(NotFoundWarning(target, app.firstPage))))
      else (st, Thrown(NotFoundError(action.kind, target)))
    else
      match action.kind
      case To =>
        var channels := if Truthy(action.eventChannel) then st.eventChannelMap[DropFirst(target) := action.eventChannel]
                        else st.eventChannelMap;
        (st.(stack := st.stack + [target], needCache := Some(target), eventChannelMap := channels), Proceed)
      case Back =>
        var sp := Splice(st.stack, |st.stack| - action.delta, action.delta, []);
        (st.(stack := sp.result, needRemove := sp.removed), Proceed)
      case Redirect =>
        var sp := Splice(st.stack, |st.stack| - 1, 1, [target]);
        (st.(stack := sp.result, needRemove := sp.removed, needCache := Some(target)), Proceed)
      case Switch =>
        if !action.replaced then
          (st.(action := Some(action.(replaced := true))), Restart(Location(action.path, true, None), None))
        else
          var tab := FirstTab(st.stack, app.tabBarMap);
          if tab.Some? then
            (st.(stack := [target], needRemove := st.stack[..tab.value] + st.stack[tab.value + 1..]), Proceed)
          else (st.(stack := [target], needRemove := st.stack, needCache := Some(target)), Proceed)
      case ReLaunch =>
        if !action.replaced then
          (st.(action := Some(action.(replaced := true))), Restart(Location(action.path, true, Some(action.routeCount)), None))
        else (st.(stack := [target], needRemove := st.stack, needCache := Some(target)), Proceed)
  }

  /** `global.__mpxRouter` as far as the guard uses it. */
  class Router {
    var stack: seq<string>
    var needRemove: seq<string>
    var needCache: Option<string>
    var eventChannelMap: map<string, JsValue>
    var mpxAction: Option<Action>

    /** The fields as `createApp` initialises them. */
    constructor ()
      ensures State() == RouterState([], [], None, map[], None)
    {
      stack := [];
      needRemove := [];
      needCache := None;
      eventChannelMap := map[];
      mpxAction := None;
    }

    function State(): RouterState
      reads this
    {
      RouterState(stack, needRemove, needCache, eventChannelMap, mpxAction)
    }

    /** The `beforeEach` guard for a navigation to `target`. */
    method BeforeEach(app: App, target: string) returns (outcome: GuardOutcome)
      modifies this
      ensures (State(), outcome) == Step(old(State()), app, target)
    {
      var action := EffectiveAction(mpxAction, stack, target);
      var pageInRoutes := InRoutes(app.routes, target);
      if !pageInRoutes {
        if |stack| < 1 {
          if app.hasOnPageNotFound {
            return PageNotFoundHandled;
          }
          return Restart(Location(app.firstPage, true, None), Some(NotFoundWarning(target, app.firstPage)));
        }
        return Thrown(NotFoundError(action.kind, target));
      }
      match action.kind {
        case To =>
          stack := stack + [target];
          needCache := Some(target);
          if Truthy(action.eventChannel) {
            eventChannelMap := eventChannelMap[DropFirst(target) := action.eventChannel];
          }
        case Back =>
          var sp := Splice(stack, |stack| - action.delta, action.delta, []);
          needRemove := sp.removed;
          stack := sp.result;
        case Redirect =>
          var sp := Splice(stack, |stack| - 1, 1, [target]);
          needRemove := sp.removed;
          stack := sp.result;
          needCache := Some(target);
        case Switch =>
          if !action.replaced {
            mpxAction := Some(action.(replaced := true));
            return Restart(Location(action.path, true, None), None);
          }
          var tab := FirstTab(stack, app.tabBarMap);
          if tab.Some? {
            needRemove := stack[..tab.value] + stack[tab.value + 1..];
            stack := [target];
          } else {
            needRemove := stack;
            stack := [target];
            needCache := Some(target);
          }
        case ReLaunch =>
          if !action.replaced {
            mpxAction := Some(action.(replaced := true));
            return Restart(Location(action.path, true, Some(action.routeCount)), None);
          }
          needRemove := stack;
          stack := [target];
          needCache := Some(target);
      }
      return Proceed;
    }
  }

  // ---------------------------------------------------------------------
  // Properties of the guard
  // ---------------------------------------------------------------------

  /** A pending action for a page in the route table. */
  predicate Pending(st: RouterState, app: App, target: string, kind: ActionKind) {
    InRoutes(app.routes, target) && st.action.Some? && st.action.value.kind == kind
  }

  /** `to` pushes exactly one entry, the target, and caches it. */
  lemma ToPushes(st: RouterState, app: App, target: string)
    requires Pending(st, app, target, To)
    ensures var (st', outcome) := Step(st, app, target);
            st'.stack == st.stack + [target] && st'.needCache == Some(target) && st'.needRemove == st.needRemove && outcome == Proceed
  {
  }

  /** `back` within the stack's depth removes exactly the last `delta` entries
      and schedules them for removal. */
  lemma BackPops(st: RouterState, app: App, target: string)
    requires Pending(st, app, target, Back) && 0 <= st.action.value.delta <= |st.stack|
    ensures var (st', outcome) := Step(st, app, target);
            var d := st.action.value.delta;
            && st'.stack == st.stack[..|st.stack| - d] && st'.needRemove == st.stack[|st.stack| - d..]
            && st'.needCache == st.needCache && outcome == Proceed
  {
    SpliceTail(st.stack, st.action.value.delta, []);
  }

  /** A `delta` deeper than the stack makes `splice` start from a negative
      index counted from the end: three entries and a `delta` of 4 leave two. */
  lemma BackPastBottom(app: App, target: string)
    requires InRoutes(app.routes, target)
    ensures var st := RouterState(["/a", "/b", "/c"], [], None, map[], Some(Action(Back, 4, "", Undefined, Undefined, false)));
            Step(st, app, target).0.stack == ["/a", "/b"]
  {
    var s := ["/a", "/b", "/c"];
    assert SpliceStart(3, -1) == 2;
    assert Splice(s, -1, 4, []).result == s[..2];
  }

  /** `redirect` replaces the top entry (or pushes onto an empty stack). */
  lemma RedirectReplacesTop(st: RouterState, app: App, target: string)
    requires Pending(st, app, target, Redirect)
    ensures var (st', outcome) := Step(st, app, target);
            && (|st.stack| > 0 ==> st'.stack == st.stack[..|st.stack| - 1] + [target] && st'.needRemove == [st.stack[|st.stack| - 1]])
            && (|st.stack| == 0 ==> st'.stack == [target] && st'.needRemove == [])
            && st'.needCache == Some(target) && outcome == Proceed
  {
    if |st.stack| > 0 {
      SpliceTail(st.stack, 1, [target]);
    }
  }

  /** A `reLaunch` first restarts the navigation with `replace` and marks the
      action replaced, leaving the stack alone; the replaced navigation makes
      the stack exactly the target. */
  lemma ReLaunchResets(st: RouterState, app: App, target: string)
    requires Pending(st, app, target, ReLaunch)
    ensures var (st', outcome) := Step(st, app, target);
            && (!st.action.value.replaced ==>
                  && st'.stack == st.stack && st'.action == Some(st.action.value.(replaced := true))
                  && outcome == Restart(Location(st.action.value.path, true, Some(st.action.value.routeCount)), None))
            && (st.action.value.replaced ==>
                  st'.stack == [target] && st'.needRemove == st.stack && st'.needCache == Some(target) && outcome == Proceed)
  {
  }

  /** Two passes of the guard for one `reLaunch`: whatever the stack held, it
      ends as exactly the target and everything before is removed. */
  lemma ReLaunchTwice(st: RouterState, app: App, target: string)
    requires Pending(st, app, target, ReLaunch) && !st.action.value.replaced
    ensures var mid := Step(st, app, target).0;
            var (st', outcome) := Step(mid, app, target);
            st'.stack == [target] && st'.needRemove == st.stack && outcome == Proceed
  {
    var mid := Step(st, app, target).0;
    assert mid.action.Some? && mid.action.value.kind == ReLaunch && mid.action.value.replaced;
    assert mid.stack == st.stack;
  }

  /** A replaced `switch` leaves only the target on the stack; the first
      tab-bar entry is kept (retargeted) instead of removed, every other entry
      is scheduled for removal in stack order, and only a stack without a
      tab-bar entry caches the new entry. */
  lemma SwitchKeepsTab(st: RouterState, app: App, target: string)
    requires Pending(st, app, target, Switch) && st.action.value.replaced
    ensures var (st', outcome) := Step(st, app, target);
            var tab := FirstTab(st.stack, app.tabBarMap);
            && st'.stack == [target] && outcome == Proceed
            && (tab.Some? ==>
                  && |st'.needRemove| == |st.stack| - 1 && st'.needCache == st.needCache
                  && (forall j :: 0 <= j < tab.value ==> st'.needRemove[j] == st.stack[j])
                  && (forall j :: tab.value < j < |st.stack| ==> st'.needRemove[j - 1] == st.stack[j]))
            && (tab.None? ==> st'.needRemove == st.stack && st'.needCache == Some(target))
  {
  }

  /** A navigation the user makes is read as `back` by one when it returns to
      the entry below the top, and as `to` otherwise. */
  lemma UserNavigation(st: RouterState, app: App, target: string)
    requires st.action.None? && InRoutes(app.routes, target)
    ensures var (st', outcome) := Step(st, app, target);
            && (|st.stack| > 1 && st.stack[|st.stack| - 2] == target ==> st'.stack == st.stack[..|st.stack| - 1])
            && (!(|st.stack| > 1 && st.stack[|st.stack| - 2] == target) ==> st'.stack == st.stack + [target])
            && outcome == Proceed
  {
    if |st.stack| > 1 && st.stack[|st.stack| - 2] == target {
      SpliceTail(st.stack, 1, []);
    }
  }

  /** A page missing from the route table never changes the router; it is
      an error once the stack has entries. On entry the app's own
      `onPageNotFound` handles it when defined, and otherwise the guard warns
      and restarts at the first page. */
  lemma UnknownPage(st: RouterState, app: App, target: string)
    requires !InRoutes(app.routes, target)
    ensures var (st', outcome) := Step(st, app, target);
            && st' == st
            && (|st.stack| > 0 <==> outcome.Thrown?)
            && (|st.stack| == 0 && !app.hasOnPageNotFound ==>
                  && outcome.Restart? && outcome.location == Location(app.firstPage, true, None)
                  && outcome.warning.Some? && Contains(outcome.warning.value, target))
            && (|st.stack| == 0 && app.hasOnPageNotFound ==> outcome == PageNotFoundHandled)
            && (outcome.Thrown? ==> Contains(outcome.message, target))
  {
    if |st.stack| > 0 {
      var msg := NotFoundError(EffectiveAction(st.action, st.stack, target).kind, target);
      var p := MethodName(EffectiveAction(st.action, st.stack, target).kind) + ":fail page \"";
      assert msg == p + target + "\" is not found";
      assert OccursAt(msg, target, |p|);
    } else if !app.hasOnPageNotFound {
      var w := NotFoundWarning(target, app.firstPage);
      var p := "[Mpx runtime warn]: the ";
      assert w == p + target + (" path does not exist in the application\U{FF0C}will redirect to the home page path " + app.firstPage);
      assert OccursAt(w, target, |p|);
    }
  }
}

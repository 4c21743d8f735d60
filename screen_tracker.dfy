/**
 * Screen tracking: the name of the screen currently shown, found by
 * descending through nested navigators, and a middleware that reports a
 * change of that name after NAVIGATE and BACK actions.
 */
module ScreenTracker {
  import opened Wrappers
  import opened Actions

  /**
   * A navigation state or a route. A route whose object carries `routes`
   * belongs to a nested navigator and has its own `index`; a plain screen
   * has no `routes`.
   */
  datatype NavNode =
    | Screen(routeName: string)
    | Navigator(routeName: string, index: int, routes: seq<NavNode>)

  /** `parent.routes[parent.index]` exists and is `child`. */
  predicate SelectsChild(parent: NavNode, child: NavNode) {
    parent.Navigator? && 0 <= parent.index < |parent.routes| && parent.routes[parent.index] == child
  }

  /**
   * The descent from `n` is defined: `n` has routes, its index is in bounds,
   * and the selected route is either a plain screen or again descendable.
   * The source reads `routes[index]` without checking either.
   */
  predicate Descendable(n: NavNode) {
    && n.Navigator?
    && 0 <= n.index < |n.routes|
    && (n.routes[n.index].Navigator? ==> Descendable(n.routes[n.index]))
  }

  /**
   * `p` is the chain of selected routes below `n`: each element is the
   * selected route of the one before, and the chain stops at the first
   * selected route that has no nested routes.
   */
  predicate IsActivePath(n: NavNode, p: seq<NavNode>) {
    && |p| > 0
    && SelectsChild(n, p[0])
    && (forall i :: 0 <= i < |p| - 1 ==> SelectsChild(p[i], p[i + 1]))
    && p[|p| - 1].Screen?
  }

  /** The name of the screen at the end of the descent from a non-null navigation state. */
  function CurrentRouteName(n: NavNode): (name: string)
    requires Descendable(n)
    ensures exists p: seq<NavNode> :: IsActivePath(n, p) && name == p[|p| - 1].routeName
  {
    var route := n.routes[n.index];
    if route.Navigator? then
      var name := CurrentRouteName(route);
      var q: seq<NavNode> :| IsActivePath(route, q) && name == q[|q| - 1].routeName;
      assert IsActivePath(n, [route] + q) by {
        var p := [route] + q;
        forall i | 0 <= i < |p| - 1 ensures SelectsChild(p[i], p[i + 1]) {
          if i > 0 { assert p[i] == q[i - 1] && p[i + 1] == q[i]; }
        }
      }
      name
    else
      assert IsActivePath(n, [route]);
      route.routeName
  }

  /** A well-formed argument of `getCurrentRouteName`: null, or a descendable state. */
  predicate Trackable(state: Option<NavNode>) {
    state.Some? ==> Descendable(state.value)
  }

  /** `getCurrentRouteName(navigationState)`: `None` (null) exactly for an absent state. */
  function GetCurrentRouteName(state: Option<NavNode>): (r: Option<string>)
    requires Trackable(state)
    ensures r.None? <==> state.None?
    ensures state.Some? ==> r == Some(CurrentRouteName(state.value))
  {
    match state
    case None => None
    case Some(n) => Some(CurrentRouteName(n))
  }

  /** The selected chain below a node is unique: the descent has exactly one outcome. */
  lemma {:induction false} ActivePathUnique(n: NavNode, p: seq<NavNode>, q: seq<NavNode>)
    requires IsActivePath(n, p) && IsActivePath(n, q)
    ensures p == q
    decreases |p|
  {
    var route := p[0];
    assert q[0] == route;
    assert |p| > 1 ==> SelectsChild(p[0], p[1]);
    assert |q| > 1 ==> SelectsChild(q[0], q[1]);
    if route.Screen? {
      assert |p| == 1 && |q| == 1;
    } else {
      assert IsActivePath(route, p[1..]) by {
        forall i | 0 <= i < |p[1..]| - 1 ensures SelectsChild(p[1..][i], p[1..][i + 1]) {
          assert SelectsChild(p[i + 1], p[i + 2]);
        }
      }
      assert IsActivePath(route, q[1..]) by {
        forall i | 0 <= i < |q[1..]| - 1 ensures SelectsChild(q[1..][i], q[1..][i + 1]) {
          assert SelectsChild(q[i + 1], q[i + 2]);
        }
      }
      ActivePathUnique(route, p[1..], q[1..]);
      assert p == [p[0]] + p[1..];
      assert q == [q[0]] + q[1..];
    }
  }

  /** The current route name is the name at the end of the (unique) chain of selected routes. */
  lemma RouteNameFollowsActivePath(n: NavNode, p: seq<NavNode>)
    requires Descendable(n) && IsActivePath(n, p)
    ensures CurrentRouteName(n) == p[|p| - 1].routeName
  {
    var q: seq<NavNode> :| IsActivePath(n, q) && CurrentRouteName(n) == q[|q| - 1].routeName;
    ActivePathUnique(n, p, q);
  }

  /** A selected route without nested routes names the current screen. */
  lemma SelectedScreenIsCurrent(n: NavNode)
    requires Descendable(n) && n.routes[n.index].Screen?
    ensures CurrentRouteName(n) == n.routes[n.index].routeName
  {
    RouteNameFollowsActivePath(n, [n.routes[n.index]]);
  }

  /** A selected route with nested routes hands the question down to that nested navigator. */
  lemma NestedNavigatorDecides(n: NavNode)
    requires Descendable(n) && n.routes[n.index].Navigator?
    ensures Descendable(n.routes[n.index])
    ensures CurrentRouteName(n) == CurrentRouteName(n.routes[n.index])
  {
    var route := n.routes[n.index];
    var name := CurrentRouteName(route);
    var q: seq<NavNode> :| IsActivePath(route, q) && name == q[|q| - 1].routeName;
    var p := [route] + q;
    assert IsActivePath(n, p) by {
      forall i | 0 <= i < |p| - 1 ensures SelectsChild(p[i], p[i + 1]) {
        assert p[i + 1] == q[i];
        if i > 0 { assert p[i] == q[i - 1]; }
      }
    }
    RouteNameFollowsActivePath(n, p);
  }

  /** The `onScreenChange(fromScreen, toScreen)` call the middleware makes. */
  datatype ScreenChange = ScreenChange(from: Option<string>, to: Option<string>)

  /** The two action types the middleware watches. */
  predicate IsTracked(action: Action) {
    action.actionType == Some(NavigateType) || action.actionType == Some(BackType)
  }

  /**
   * One dispatch through the middleware built by `createScreenTrackingMiddleware`.
   * `selector` is `navStateSelector`, `next` is the rest of the dispatch chain
   * (its result and the store state after it), `before` is the store state
   * when the action arrives. `change` is the `onScreenChange` call, if any.
   */
  method TrackScreens<S, R>(selector: S -> Option<NavNode>, next: (Action, S) -> (R, S), action: Action, before: S)
    returns (result: R, after: S, change: Option<ScreenChange>)
    requires IsTracked(action) ==> Trackable(selector(before)) && Trackable(selector(next(action, before).1))
    ensures (result, after) == next(action, before)
    ensures !IsTracked(action) ==> change.None?
    ensures change.Some? ==> change.value.from != change.value.to
    ensures change.Some? <==>
      IsTracked(action) && GetCurrentRouteName(selector(before)) != GetCurrentRouteName(selector(after))
    ensures change.Some? ==>
      change.value == ScreenChange(GetCurrentRouteName(selector(before)), GetCurrentRouteName(selector(after)))
  {
    if action.actionType != Some(NavigateType) && action.actionType != Some(BackType) {
      result, after := next(action, before).0, next(action, before).1;
      change := None;
      return;
    }
    var fromScreen := GetCurrentRouteName(selector(before));
    var outcome := next(action, before);
    result, after := outcome.0, outcome.1;
    var toScreen := GetCurrentRouteName(selector(after));
    change := None;
    if toScreen != fromScreen {
      change := Some(ScreenChange(fromScreen, toScreen));
    }
  }
}

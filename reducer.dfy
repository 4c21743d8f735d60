/**
 * The navigation reducer: a thin adapter around the navigator's router,
 * which is an opaque pure function from an action and a previous state to a
 * new state, or to nothing when the router declines the action.
 */
module Reducer {
  import opened Wrappers
  import opened Actions

  /** `router.getStateForAction`: `None` in the result is `undefined`/`null`. */
  type Router<!N> = (Action, Option<N>) -> Option<N>

  /** The state argument the store passes: `Undefined` triggers the default parameter, `null` does not. */
  datatype Incoming<N> = Undefined | Given(state: Option<N>)

  /** The closure returned by `createNavigationReducer`: the router and the initial state it captured. */
  datatype NavigationReducer<!N> = NavigationReducer(router: Router<N>, initialState: Option<N>)

  /** `createNavigationReducer(navigator)`: the initial state is the router's answer to the init action on a null state. */
  function CreateNavigationReducer<N>(router: Router<N>): (r: NavigationReducer<N>)
    ensures r.router == router
    ensures r.initialState == router(InitAction, None)
  {
    NavigationReducer(router, router(InitAction, None))
  }

  /** The state the reducer works from: the incoming one, or the initial state when none was passed. */
  function Prior<N>(reducer: NavigationReducer<N>, incoming: Incoming<N>): Option<N> {
    match incoming
    case Undefined => reducer.initialState
    case Given(s) => s
  }

  /** One reduction: the router's new state if it gives one, otherwise the previous state unchanged. */
  function Reduce<N>(reducer: NavigationReducer<N>, incoming: Incoming<N>, action: Action): (r: Option<N>)
    ensures reducer.router(action, Prior(reducer, incoming)).Some? ==> r == reducer.router(action, Prior(reducer, incoming))
    ensures reducer.router(action, Prior(reducer, incoming)).None? ==> r == Prior(reducer, incoming)
  {
    var state := Prior(reducer, incoming);
    match reducer.router(action, state)
    case Some(next) => Some(next)
    case None => state
  }

  /** A store without a navigation state yet starts from the router's answer to the init action on a null state. */
  lemma UndefinedStartsFromInitialState<N>(router: Router<N>, action: Action)
    ensures var initial := router(InitAction, None);
      Reduce(CreateNavigationReducer(router), Undefined, action)
      == if router(action, initial).Some? then router(action, initial) else initial
  {
  }

  /** The store feeding `actions` one after another through the reducer, starting from `state`. */
  function ReduceAll<N>(reducer: NavigationReducer<N>, state: Option<N>, actions: seq<Action>): Option<N>
    decreases |actions|
  {
    if actions == [] then state
    else ReduceAll(reducer, Reduce(reducer, Given(state), actions[0]), actions[1..])
  }

  /** A router that declines every action of a sequence leaves the state exactly as it was. */
  lemma {:induction false} DecliningRouterKeepsState<N>(reducer: NavigationReducer<N>, state: Option<N>, actions: seq<Action>)
    requires forall i :: 0 <= i < |actions| ==> reducer.router(actions[i], state).None?
    ensures ReduceAll(reducer, state, actions) == state
    decreases |actions|
  {
    if actions != [] {
      assert Reduce(reducer, Given(state), actions[0]) == state;
      forall i | 0 <= i < |actions[1..]|
        ensures reducer.router(actions[1..][i], state).None?
      {
        assert actions[1..][i] == actions[i + 1];
      }
      DecliningRouterKeepsState(reducer, state, actions[1..]);
    }
  }

  /**
   * Whatever the actions, the reduced state is the starting state or the
   * router's answer to one of the actions, given the state reduced before it.
   */
  lemma {:induction false} ReduceAllProducedByRouter<N>(reducer: NavigationReducer<N>, state: Option<N>, actions: seq<Action>)
    ensures var r := ReduceAll(reducer, state, actions);
      r == state
      || (r.Some? && exists i :: 0 <= i < |actions| && reducer.router(actions[i], ReduceAll(reducer, state, actions[..i])) == r)
    decreases |actions|
  {
    if actions != [] {
      var next := Reduce(reducer, Given(state), actions[0]);
      var r := ReduceAll(reducer, state, actions);
      assert r == ReduceAll(reducer, next, actions[1..]);
      assert ReduceAll(reducer, state, actions[..0]) == state by { assert actions[..0] == []; }
      ReduceAllProducedByRouter(reducer, next, actions[1..]);
      if r == next {
        if next != state {
          assert reducer.router(actions[0], ReduceAll(reducer, state, actions[..0])) == r;
        }
      } else {
        var j :| 0 <= j < |actions[1..]|
          && reducer.router(actions[1..][j], ReduceAll(reducer, next, actions[1..][..j])) == r;
        assert actions[..j + 1][0] == actions[0] && actions[..j + 1][1..] == actions[1..][..j];
        assert ReduceAll(reducer, state, actions[..j + 1]) == ReduceAll(reducer, next, actions[1..][..j]);
        assert actions[1..][j] == actions[j + 1];
      }
    }
  }
}

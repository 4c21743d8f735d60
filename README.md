# Navigation-change notifications, screen tracking and the navigation reducer

This project models the logic of react-navigation's redux helpers, the package that keeps a
navigation library's state tree inside a redux store. The model covers three pieces:

- **The notification dispatcher** (`middleware.dfy`, module `Middleware`). It is a process-wide
  registry that maps a navigator key to its set of subscriber callbacks. Beside it sits, per key,
  a FIFO queue of notifications held back until the container reports that it has rendered. A
  notification is held back when its action's `type` starts with `"Navigation"` and the
  navigation state object changed. Every other notification goes out at once. Draining a
  key's queue removes the queue and then delivers its notifications in order. Each queued
  notification goes to the subscribers present when it is delivered.
  The behaviour is stated as functions over a `Registry` value: `Notify`, `Fire`, `Drain`,
  `Initialize` and `MiddlewareStep`. The class `Dispatcher` holds the two module-level maps
  and a ghost log of callback invocations. Its methods are proved to change that state
  exactly as those functions say.
- **Screen tracking** (`screen_tracker.dfy`, module `ScreenTracker`). The current route name is
  found by descending through nested navigators along `routes[index]`. The model proves that the
  result is the name at the end of the unique chain of selected routes. A middleware reports
  `onScreenChange(from, to)` for NAVIGATE and BACK actions when that name changed.
- **The navigation reducer** (`reducer.dfy`, module `Reducer`). It wraps an opaque router
  function. It returns the router's new state, or the previous state when the router declines.
  The initial state is the router's answer to the init action on a null state.

Modelling choices:
- Subscriber callbacks are identified by a number. A key's subscriber set is a duplicate-free
  sequence in insertion order, which is the order in which a JavaScript `Set` iterates.
- A queued trigger closure captures only the key and the payload, so a queue entry is the payload.
- Navigation states are compared by identity. A `StateRef` is `Null`, `Undefined` or a state
  identity, and `===` is equality, so `null === undefined` is false as in JavaScript.
- An action is represented by its `type` alone. `None` means the object has no own `type`.
- The action types are react-navigation's `"Navigation/NAVIGATE"`, `"Navigation/BACK"` and
  `"Navigation/INIT"`.
- The store and the rest of the dispatch chain (`next`) are parameters. `next` is a pure
  function from the action and the store state to its result and the new store state.
  The navigation-state selector is a pure function parameter too.
- A thrown `invariant` failure is a `Failure` result. In the reducer and the screen tracker,
  `None` stands for `null` or `undefined`. Those code paths test truthiness (`||`, `!`), which
  treats the two alike.

## Model

| member | source | states |
|---|---|---|
| `Middleware.GetOrCreate` | src/middleware.js:19-26 | after the call the key is present; its set is the one it had (empty if none); a present key leaves the map as it was, so a second call changes nothing; no other key's entry changes |
| `Middleware.Dispatcher.GetReduxSubscribers` | src/middleware.js:19-26 | returns the key's current set and leaves the registry as `GetOrCreate` says; the queues and the delivery log are untouched |
| `Middleware.Subscribe` | src/middleware.js:129 | adding a callback to the set handed to `getNavigation`: the callback is then in the key's set, at the end if it was new; a callback already present leaves the set unchanged; the key is present afterwards, and every other key keeps its presence and its set |
| `Middleware.Dispatcher.AddSubscriber` | src/middleware.js:129 | registering a callback changes the registry exactly as `Subscribe` says and keeps every set duplicate-free |
| `Middleware.Fanout` | src/middleware.js:57-58 | `forEach` over the set calls each subscriber exactly once, in set order, with the same payload |
| `Middleware.Dispatcher.RunTrigger` | src/middleware.js:57-58 | a trigger looks the key's subscribers up when it runs, creating the entry if missing, and delivers its captured payload to each of them in order (loop proved against `Fire`) |
| `Middleware.Notify` | src/middleware.js:56-74 | when there is no action, no `type`, a type not starting with "Navigation", or `state === lastState`: every current subscriber of the key receives the payload now and the queues are unchanged; otherwise nobody is called, the subscribers are unchanged, and the payload is appended to the end of the key's queue (created if absent); other keys' queues never change |
| `Middleware.Dispatcher.TriggerAllSubscribers` | src/middleware.js:56-74 | the imperative decision and push change the registry exactly as `Notify` says |
| `Middleware.FireAllEffect` | src/middleware.js:82-84 | running a queue of triggers delivers every payload, in queue order, to the key's subscribers, and leaves the queues unchanged |
| `Middleware.FireAllSnoc` | src/middleware.js:82-84 | running one more trigger at the end of the queue is running it after all the earlier ones (the loop step) |
| `Middleware.Drain` | src/middleware.js:76-85 | a key with no queue is a no-op; otherwise the queue is removed and its payloads are delivered in insertion order to the subscribers present at drain time; afterwards the key has no queue, so an immediate second drain does nothing; other keys' queues and sets are unchanged |
| `Middleware.Dispatcher.TriggerDelayedSubscribers` | src/middleware.js:76-85 | the delete-then-`for…of` loop changes the registry exactly as `Drain` says |
| `Middleware.DidUpdateCallback` | src/middleware.js:87-89 | the callback bound to a key behaves exactly like draining that key |
| `Middleware.Initialize` | src/middleware.js:91-102 | afterwards the key has no pending notifications and other keys' queues are unchanged; the init payload (init action, given state, null last state) is delivered before the pending ones when it goes out at once and after them when it was queued |
| `Middleware.DrainAfterNotify` | src/middleware.js:91-102 | a notification followed by a drain of its key delivers the pending payloads and the new one, in the order that depends on whether the new one was held back |
| `Middleware.DrainAfterHeld` | src/middleware.js:68-85 | a held-back notification followed by a drain of its key goes out after everything already pending |
| `Middleware.DrainAfterImmediate` | src/middleware.js:59-85 | a notification that goes out at once, followed by a drain of its key, is delivered before everything already pending |
| `Middleware.InitDeliveredAfterPending` | src/middleware.js:91-102 | with any state other than `null` (including `undefined`, since `undefined === null` is false) the init notification is itself held back, so every subscriber receives the pending notifications first and the init notification last |
| `Middleware.InitDeliveredFirstOnlyForNull` | src/middleware.js:91-102 | with a `null` state, `state === lastState` holds, so the init notification goes out at once and the pending notifications follow it |
| `Middleware.Dispatcher.InitializeListeners` | src/middleware.js:91-102 | the two calls change the registry exactly as `Initialize` says |
| `Middleware.MiddlewareStep` | src/middleware.js:37-51 | the dispatch returns `next(action)`'s result; the payload is the action, the selected state after `next` and the selected state before it; the notification is held back exactly when the action's type starts with "Navigation" and the selected state changed |
| `Middleware.Dispatcher.ReduxMiddleware` | src/middleware.js:37-51 | the middleware's result, the store state after it and the new registry are those of `MiddlewareStep` |
| `Middleware.NotifyEachQueues` | src/middleware.js:68-73 | held-back notifications call nobody and pile up at the end of the key's queue in the order they were sent |
| `Middleware.DeferredDeliveredInOrder` | src/middleware.js:68-84 | a run of held-back notifications, once drained, reaches the subscribers in sending order and leaves no queue (FIFO, drained exactly once) |
| `Middleware.ImmediateOvertakesQueued` | src/middleware.js:59-84 | a notification that goes out at once is delivered before an earlier one that was held back |
| `Middleware.DrainReachesLateSubscriber` | src/middleware.js:57-84 | a held-back payload captured at enqueue time goes to the subscriber set as it is at drain time, including a subscriber added in between |
| `Middleware.CheckPropArguments` | src/middleware.js:111-124 | the prop constructor's checks fail exactly when the router or `getCurrentNavigation` is missing, the router check first |
| `Middleware.Dispatcher.NavigationPropConstructor` | src/middleware.js:105-133 | a missing router or `getCurrentNavigation` fails without touching the registry; otherwise the key's subscriber set, created if needed, is what is handed on |
| `ScreenTracker.CurrentRouteName` | src/screen-tracker.js:13-22 | on a state whose indices are in bounds along the descent, the result is the name of the last route of a chain of selected routes that follows `index` at every level and ends at the first selected route without nested routes |
| `ScreenTracker.GetCurrentRouteName` | src/screen-tracker.js:13-14 | the result is null exactly for an absent navigation state, and the current route name otherwise |
| `ScreenTracker.ActivePathUnique` | src/screen-tracker.js:16-21 | there is only one chain of selected routes below a state, so the descent has one outcome |
| `ScreenTracker.RouteNameFollowsActivePath` | src/screen-tracker.js:16-21 | the current route name is the name at the end of the chain of selected routes |
| `ScreenTracker.SelectedScreenIsCurrent` | src/screen-tracker.js:16-21 | when the selected route has no nested routes, the result is that route's `routeName` |
| `ScreenTracker.NestedNavigatorDecides` | src/screen-tracker.js:16-19 | when the selected route has nested routes, the result is the current route name of that route |
| `ScreenTracker.TrackScreens` | src/screen-tracker.js:24-50 | the result and store state are always `next(action)`'s; for actions other than NAVIGATE and BACK no screen change is reported; for NAVIGATE/BACK a change is reported exactly when the names before and after `next` differ, as `(from, to)` with `from` taken before `next` and `to` after it |
| `Reducer.CreateNavigationReducer` | src/reducer.js:9-12 | the reducer keeps the router, and its initial state is the router's result for the init action on a null state |
| `Reducer.Reduce` | src/reducer.js:13-18 | when the router returns a state, the reducer returns exactly that state; when it returns nothing, the previous state is returned unchanged; an undefined incoming state stands for the initial state |
| `Reducer.UndefinedStartsFromInitialState` | src/reducer.js:12-17 | with no incoming state, the reduction starts from the router's answer to the init action on a null state |
| `Reducer.DecliningRouterKeepsState` | src/reducer.js:17 | if the router declines every action of a sequence, the state after the whole sequence equals the starting state |
| `Reducer.ReduceAllProducedByRouter` | src/reducer.js:17 | after any sequence of actions the state is either the starting state or the router's answer to one of those actions, given the state reduced before it; the reducer invents no state |

## Left out

- React components and lifecycle wiring are not part of this model: `src/create-redux-container.js`, `src/reduxify-navigator.js` and `src/stateful-navigator.js`. They are rendering glue over React, react-redux and react-native.
- `getNavigation`, `NavigationActions` and the router's `getStateForAction` belong to react-navigation. They are foreign code. The router is an opaque function parameter. The action types are constants with react-navigation's values.
- How subscribers are added and removed happens inside `getNavigation`. `Subscribe` and `Dispatcher.AddSubscriber` exist only to state properties, and removal is not modelled.
- Subscriber callbacks have no effect of their own in the model: a delivery is a record in the ghost log. A callback that dispatches, subscribes or unsubscribes during a drain is not modelled.
- Dispatcher.GetReduxSubscribers: the model returns the set's contents, not a shared mutable `Set` object, so aliasing between the returned set and the registry is not captured.
- The constant `type: 'action'` field of the payload is left implicit. An action carries only its `type`, because no other field is read.
- `getScreenProps`/`EMPTY_SCREEN_PROPS` (src/middleware.js:30-31) is a constant function and is left out.
- The deprecated stubs in `src/index.js` only fail an `invariant`. `src/types.js` and `index.d.ts` are type declarations. None of them is modelled.
- The `createReactNavigationReduxMiddleware` default key `"root"` is the constant `DefaultKey`; a caller that passes no key is not modelled separately.
- ScreenTracker.CurrentRouteName: the source reads `routes[index]` without a bounds check, which would throw or read `undefined`. The model requires the indices to be in bounds along the descent (`Descendable`) instead of modelling that failure.
- Exceptions thrown by `next`, by the selector or by a callback are not modelled.
- Middleware.Notify: an action `type` that is present but not a string (`{type: 5}`) makes `startsWith` throw after `next` has run. `Action` holds only string types, so that failure is not modelled.
- MiddlewareStep: `next` is a pure function of the action and the store state, so it cannot touch the registry. In the program, `next` runs the store's listeners. A listener can re-render the container and drain the key's queue through the did-update callback, or dispatch again through this middleware. Either would change the registry before this dispatch's own notification. The model does not capture such re-entrant drains, dispatches or subscriptions.
- Dispatcher.ReduxMiddleware: the same assumption as `MiddlewareStep`. `next` is assumed never to drain, dispatch or subscribe.

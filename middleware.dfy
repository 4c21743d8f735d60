/**
 * The notification dispatcher behind the redux middleware: a process-wide
 * registry from a navigator key to its subscribers, and per key a FIFO queue
 * of notifications held back until the container signals that it rendered.
 *
 * The first half states the behaviour as functions over a `Registry` value;
 * the class `Dispatcher` below holds the two module-level maps and is proved
 * to change them exactly as those functions say.
 */
module Middleware {
  import opened Wrappers
  import opened Actions

  /** A subscriber callback, by identity. */
  type SubId = nat

  /**
   * A navigation state as `===` sees it: `null`, `undefined`, or an object
   * compared by identity. `null === undefined` is false, so the two are distinct.
   */
  datatype StateRef = Null | Undefined | Ref(id: nat)

  /** The event payload `{type: 'action', action, state, lastState}`; the constant `type` is left implicit. */
  datatype Payload = Payload(action: Option<Action>, state: StateRef, lastState: StateRef)

  /** One callback invocation: the subscriber called and the payload it received. */
  type Delivery = (SubId, Payload)

  /**
   * `subscribers`: the `reduxSubscribers` map (each set in insertion order);
   * `delayed`: the `delayedTriggers` map, each queued trigger represented by the
   * payload it captured; `log`: every callback invocation so far, in order.
   */
  datatype Registry = Registry(subscribers: map<string, seq<SubId>>, delayed: map<string, seq<Payload>>, log: seq<Delivery>)

  /** The key used when the caller gives none. */
  const DefaultKey: string := "root"

  /** The subscribers of `key`, empty when the key has none yet. */
  function SubscribersOf(m: map<string, seq<SubId>>, key: string): seq<SubId> {
    if key in m then m[key] else []
  }

  /** The pending payloads of `key`, empty when the key has no queue. */
  function QueueOf(m: map<string, seq<Payload>>, key: string): seq<Payload> {
    if key in m then m[key] else []
  }

  /** `getReduxSubscribers(key)` on the map: get the key's set, creating an empty one if absent. */
  function GetOrCreate(m: map<string, seq<SubId>>, key: string): (m': map<string, seq<SubId>>)
    ensures key in m'
    ensures SubscribersOf(m', key) == SubscribersOf(m, key)
    ensures key in m ==> m' == m
    ensures m'.Keys == m.Keys + {key}
    ensures forall k :: k in m && k != key ==> m'[k] == m[k]
  {
    if key in m then m else m[key := []]
  }

  /** Adding a subscriber to a key's set: a set ignores a callback it already holds. */
  function Subscribe(m: map<string, seq<SubId>>, key: string, s: SubId): (m': map<string, seq<SubId>>)
    ensures s in SubscribersOf(m', key)
    ensures s in SubscribersOf(m, key) ==> SubscribersOf(m', key) == SubscribersOf(m, key)
    ensures s !in SubscribersOf(m, key) ==> SubscribersOf(m', key) == SubscribersOf(m, key) + [s]
    ensures forall k :: k != key ==> SubscribersOf(m', k) == SubscribersOf(m, k)
    ensures m'.Keys == m.Keys + {key}
    ensures forall k :: k in m && k != key ==> m'[k] == m[k]
  {
    var subs := SubscribersOf(m, key);
    if s in subs then m[key := subs] else m[key := subs + [s]]
  }

  /** No callback appears twice in a set. */
  predicate Distinct(subs: seq<SubId>) {
    forall i, j :: 0 <= i < j < |subs| ==> subs[i] != subs[j]
  }

  /**
   * Whether a notification is held back: there is an action, it has a `type`,
   * the type starts with "Navigation", and the state object changed.
   */
  predicate IsDeferred(p: Payload) {
    && p.action.Some?
    && p.action.value.actionType.Some?
    && StartsWith(p.action.value.actionType.value, NavigationPrefix)
    && p.state != p.lastState
  }

  /** `subs.forEach(subscriber => subscriber(p))`: every subscriber, in set order, receives `p`. */
  function Fanout(subs: seq<SubId>, p: Payload): (r: seq<Delivery>)
    ensures |r| == |subs|
    ensures forall i :: 0 <= i < |subs| ==> r[i] == (subs[i], p)
  {
    if subs == [] then [] else [(subs[0], p)] + Fanout(subs[1..], p)
  }

  /** The deliveries of a queue of payloads fired one after another against the same subscribers. */
  function DrainLog(subs: seq<SubId>, q: seq<Payload>): seq<Delivery> {
    if q == [] then [] else Fanout(subs, q[0]) + DrainLog(subs, q[1..])
  }

  /**
   * Running one trigger closure: it looks the key's subscribers up when it runs
   * (through `getReduxSubscribers`, which creates the entry when missing) and
   * calls each of them with the payload it captured.
   */
  function Fire(r: Registry, key: string, p: Payload): Registry {
    Registry(GetOrCreate(r.subscribers, key), r.delayed, r.log + Fanout(SubscribersOf(r.subscribers, key), p))
  }

  /** `triggerAllSubscribers(key, p)`: notify now, or append the trigger to the key's queue. */
  function Notify(r: Registry, key: string, p: Payload): (r': Registry)
    ensures !IsDeferred(p) ==> r'.delayed == r.delayed
    ensures !IsDeferred(p) ==> r'.log == r.log + Fanout(SubscribersOf(r.subscribers, key), p)
    ensures !IsDeferred(p) ==> r'.subscribers == GetOrCreate(r.subscribers, key)
    ensures IsDeferred(p) ==> r'.log == r.log && r'.subscribers == r.subscribers
    ensures IsDeferred(p) ==> key in r'.delayed && r'.delayed[key] == QueueOf(r.delayed, key) + [p]
    ensures forall k :: k != key ==> (k in r'.delayed <==> k in r.delayed) && QueueOf(r'.delayed, k) == QueueOf(r.delayed, k)
  {
    if !IsDeferred(p) then Fire(r, key, p)
    else r.(delayed := r.delayed[key := QueueOf(r.delayed, key) + [p]])
  }

  /** Running a queue of triggers in order. */
  function FireAll(r: Registry, key: string, q: seq<Payload>): Registry
    decreases |q|
  {
    if q == [] then r else FireAll(Fire(r, key, q[0]), key, q[1..])
  }

  /** Running a queue of triggers delivers each payload, in queue order, to the subscribers of the key. */
  lemma {:induction false} FireAllEffect(r: Registry, key: string, q: seq<Payload>)
    ensures FireAll(r, key, q).log == r.log + DrainLog(SubscribersOf(r.subscribers, key), q)
    ensures FireAll(r, key, q).delayed == r.delayed
    ensures FireAll(r, key, q).subscribers == if q == [] then r.subscribers else GetOrCreate(r.subscribers, key)
    decreases |q|
  {
    if q != [] {
      var subs := SubscribersOf(r.subscribers, key);
      var r1 := Fire(r, key, q[0]);
      assert r1.log == r.log + Fanout(subs, q[0]);
      assert SubscribersOf(r1.subscribers, key) == subs;
      FireAllEffect(r1, key, q[1..]);
      assert DrainLog(subs, q) == Fanout(subs, q[0]) + DrainLog(subs, q[1..]);
      assert r.log + DrainLog(subs, q) == r1.log + DrainLog(subs, q[1..]);
      if q[1..] != [] {
        assert GetOrCreate(r1.subscribers, key) == r1.subscribers;
      }
    }
  }

  /** Running the queue one trigger further. */
  lemma {:induction false} FireAllSnoc(r: Registry, key: string, q: seq<Payload>, p: Payload)
    ensures FireAll(r, key, q + [p]) == Fire(FireAll(r, key, q), key, p)
    decreases |q|
  {
    if q == [] {
      assert [p][1..] == [];
    } else {
      assert (q + [p])[1..] == q[1..] + [p];
      FireAllSnoc(Fire(r, key, q[0]), key, q[1..], p);
    }
  }

  /**
   * `triggerDelayedSubscribers(key)`: nothing when the key has no queue;
   * otherwise the queue is removed and its triggers run in insertion order.
   */
  function Drain(r: Registry, key: string): (r': Registry)
    ensures key !in r'.delayed
    ensures key !in r.delayed ==> r' == r
    ensures key in r.delayed ==> r'.log == r.log + DrainLog(SubscribersOf(r.subscribers, key), r.delayed[key])
    ensures SubscribersOf(r'.subscribers, key) == SubscribersOf(r.subscribers, key)
    ensures forall k :: k != key ==> SubscribersOf(r'.subscribers, k) == SubscribersOf(r.subscribers, k)
    ensures forall k :: k != key ==> (k in r'.delayed <==> k in r.delayed) && QueueOf(r'.delayed, k) == QueueOf(r.delayed, k)
  {
    if key !in r.delayed then r
    else
      var cleared := r.(delayed := r.delayed - {key});
      FireAllEffect(cleared, key, r.delayed[key]);
      FireAll(cleared, key, r.delayed[key])
  }

  /** `createDidUpdateCallback(key)`: a callback bound to the key that drains that key's queue. */
  function DidUpdateCallback(key: string): (callback: Registry -> Registry)
    ensures forall r :: callback(r) == Drain(r, key)
  {
    r => Drain(r, key)
  }

  /** The payload of the initial notification: the init action, the given state, and a `null` last state. */
  function InitPayload(state: StateRef): Payload {
    Payload(Some(InitAction), state, Null)
  }

  /**
   * `initializeListeners(key, state)`: the init notification, then a drain of
   * the key's queue. Whatever was pending is delivered and nothing is left
   * pending; the init notification comes before the pending ones when it is
   * delivered at once, and after them when it was queued itself.
   */
  function Initialize(r: Registry, key: string, state: StateRef): (r': Registry)
    ensures key !in r'.delayed
    ensures var subs := SubscribersOf(r.subscribers, key);
      var pending := QueueOf(r.delayed, key);
      r'.log == r.log + if IsDeferred(InitPayload(state)) then DrainLog(subs, pending + [InitPayload(state)])
                        else Fanout(subs, InitPayload(state)) + DrainLog(subs, pending)
    ensures forall k :: k != key ==> (k in r'.delayed <==> k in r.delayed) && QueueOf(r'.delayed, k) == QueueOf(r.delayed, k)
  {
    DrainAfterNotify(r, key, InitPayload(state));
    Drain(Notify(r, key, InitPayload(state)), key)
  }

  /** A notification followed by a drain of its key: the order in which the new and the pending payloads go out. */
  lemma DrainAfterNotify(r: Registry, key: string, p: Payload)
    ensures var subs := SubscribersOf(r.subscribers, key);
      var pending := QueueOf(r.delayed, key);
      Drain(Notify(r, key, p), key).log
      == r.log + if IsDeferred(p) then DrainLog(subs, pending + [p]) else Fanout(subs, p) + DrainLog(subs, pending)
  {
    if IsDeferred(p) {
      DrainAfterHeld(r, key, p);
    } else {
      DrainAfterImmediate(r, key, p);
    }
  }

  /** The held-back case of `DrainAfterNotify`: the new payload joins the end of the queue. */
  lemma DrainAfterHeld(r: Registry, key: string, p: Payload)
    requires IsDeferred(p)
    ensures Drain(Notify(r, key, p), key).log
         == r.log + DrainLog(SubscribersOf(r.subscribers, key), QueueOf(r.delayed, key) + [p])
  {
    var notified := r.(delayed := r.delayed[key := QueueOf(r.delayed, key) + [p]]);
    assert Notify(r, key, p) == notified;
    assert key in notified.delayed && notified.delayed[key] == QueueOf(r.delayed, key) + [p];
  }

  /** The immediate case of `DrainAfterNotify`: the new payload goes out before the queue. */
  lemma DrainAfterImmediate(r: Registry, key: string, p: Payload)
    requires !IsDeferred(p)
    ensures var subs := SubscribersOf(r.subscribers, key);
      Drain(Notify(r, key, p), key).log == r.log + Fanout(subs, p) + DrainLog(subs, QueueOf(r.delayed, key))
  {
    var subs := SubscribersOf(r.subscribers, key);
    var sent := Fanout(subs, p);
    var notified := Registry(GetOrCreate(r.subscribers, key), r.delayed, r.log + sent);
    assert Notify(r, key, p) == notified;
    assert SubscribersOf(notified.subscribers, key) == subs;
    if key in r.delayed {
      assert Drain(notified, key).log == notified.log + DrainLog(subs, r.delayed[key]);
    } else {
      assert Drain(notified, key) == notified;
      assert DrainLog(subs, QueueOf(r.delayed, key)) == [];
    }
  }

  /**
   * With any state other than `null` (an object, or even `undefined`, which is
   * not `=== null`) the init notification is itself held back, so it reaches
   * the subscribers after every pending one.
   */
  lemma InitDeliveredAfterPending(r: Registry, key: string, state: StateRef)
    requires state != Null
    ensures Initialize(r, key, state).log
         == r.log + DrainLog(SubscribersOf(r.subscribers, key), QueueOf(r.delayed, key) + [InitPayload(state)])
  {
    assert InitType[..|NavigationPrefix|] == NavigationPrefix;
    assert IsDeferred(InitPayload(state));
  }

  /** Only a `null` state lets the init notification go out at once, ahead of the pending ones. */
  lemma InitDeliveredFirstOnlyForNull(r: Registry, key: string)
    ensures Initialize(r, key, Null).log
         == r.log + Fanout(SubscribersOf(r.subscribers, key), InitPayload(Null)) + DrainLog(SubscribersOf(r.subscribers, key), QueueOf(r.delayed, key))
  {
    assert !IsDeferred(InitPayload(Null));
  }

  /**
   * One dispatch through the middleware of `createReactNavigationReduxMiddleware`:
   * the rest of the chain runs first, then the subscribers of `key` are notified
   * with the action and the selected navigation state after and before it.
   * The result is that of `next`.
   */
  function MiddlewareStep<S, R>(r: Registry, key: string, selector: S -> StateRef, next: (Action, S) -> (R, S), action: Action, before: S)
    : (out: (R, S, Registry))
    ensures (out.0, out.1) == next(action, before)
    ensures var p := Payload(Some(action), selector(out.1), selector(before));
      out.2 == Notify(r, key, p)
    ensures var changed := selector(before) != selector(out.1);
      var navigation := action.actionType.Some? && StartsWith(action.actionType.value, NavigationPrefix);
      (navigation && changed <==> out.2.log == r.log && out.2.delayed != r.delayed)
  {
    var (result, after) := next(action, before);
    (result, after, Notify(r, key, Payload(Some(action), selector(after), selector(before))))
  }

  /** Notifications fired one after another for the same key, as a run of middleware dispatches would. */
  function NotifyEach(r: Registry, key: string, ps: seq<Payload>): Registry
    decreases |ps|
  {
    if ps == [] then r else NotifyEach(Notify(r, key, ps[0]), key, ps[1..])
  }

  /** Held-back notifications pile up at the end of the key's queue, in the order they came, and call nobody. */
  lemma {:induction false} NotifyEachQueues(r: Registry, key: string, ps: seq<Payload>)
    requires forall i :: 0 <= i < |ps| ==> IsDeferred(ps[i])
    ensures NotifyEach(r, key, ps).log == r.log
    ensures NotifyEach(r, key, ps).subscribers == r.subscribers
    ensures QueueOf(NotifyEach(r, key, ps).delayed, key) == QueueOf(r.delayed, key) + ps
    ensures key in NotifyEach(r, key, ps).delayed <==> key in r.delayed || ps != []
    decreases |ps|
  {
    if ps != [] {
      var r1 := Notify(r, key, ps[0]);
      assert forall i :: 0 <= i < |ps[1..]| ==> IsDeferred(ps[1..][i]) by {
        forall i | 0 <= i < |ps[1..]| ensures IsDeferred(ps[1..][i]) {
          assert ps[1..][i] == ps[i + 1];
        }
      }
      NotifyEachQueues(r1, key, ps[1..]);
      assert QueueOf(r.delayed, key) + ps == QueueOf(r.delayed, key) + [ps[0]] + ps[1..];
    }
  }

  /** Held-back notifications reach the subscribers in the order they were sent, once the queue is drained. */
  lemma {:induction false} DeferredDeliveredInOrder(r: Registry, key: string, ps: seq<Payload>)
    requires key !in r.delayed
    requires forall i :: 0 <= i < |ps| ==> IsDeferred(ps[i])
    ensures Drain(NotifyEach(r, key, ps), key).log == r.log + DrainLog(SubscribersOf(r.subscribers, key), ps)
    ensures key !in Drain(NotifyEach(r, key, ps), key).delayed
  {
    NotifyEachQueues(r, key, ps);
    var queued := NotifyEach(r, key, ps);
    if ps == [] {
      assert DrainLog(SubscribersOf(r.subscribers, key), ps) == [];
    } else {
      assert queued.delayed[key] == ps;
    }
  }

  /** A notification delivered at once overtakes one that was held back before it. */
  lemma ImmediateOvertakesQueued(r: Registry, key: string, held: Payload, now: Payload)
    requires key !in r.delayed && IsDeferred(held) && !IsDeferred(now)
    ensures var subs := SubscribersOf(r.subscribers, key);
      Drain(Notify(Notify(r, key, held), key, now), key).log == r.log + Fanout(subs, now) + Fanout(subs, held)
  {
    var subs := SubscribersOf(r.subscribers, key);
    var both := Notify(Notify(r, key, held), key, now);
    assert both.delayed[key] == [held];
    assert SubscribersOf(both.subscribers, key) == subs;
    assert DrainLog(subs, [held]) == Fanout(subs, held) by {
      assert [held][1..] == [];
    }
  }

  /** A queued notification goes to the subscribers present when the queue is drained, including late ones. */
  lemma DrainReachesLateSubscriber(r: Registry, key: string, p: Payload, s: SubId)
    requires key !in r.delayed && IsDeferred(p)
    requires s !in SubscribersOf(r.subscribers, key)
    ensures var queued := Notify(r, key, p);
      var later := queued.(subscribers := Subscribe(queued.subscribers, key, s));
      Drain(later, key).log == r.log + Fanout(SubscribersOf(r.subscribers, key) + [s], p)
  {
    var queued := Notify(r, key, p);
    var later := queued.(subscribers := Subscribe(queued.subscribers, key, s));
    assert later.delayed[key] == [p];
    assert DrainLog(SubscribersOf(r.subscribers, key) + [s], [p]) == Fanout(SubscribersOf(r.subscribers, key) + [s], p) by {
      assert [p][1..] == [];
    }
  }

  /** The errors `createNavigationPropConstructor` raises through `invariant`. */
  datatype PropError = RouterMissing | GetCurrentNavigationMissing

  /** The argument checks of the prop constructor, in the order the source makes them. */
  function CheckPropArguments(routerGiven: bool, getCurrentNavigationGiven: bool): (r: Option<PropError>)
    ensures r.None? <==> routerGiven && getCurrentNavigationGiven
    ensures r == Some(RouterMissing) <==> !routerGiven
    ensures r == Some(GetCurrentNavigationMissing) <==> routerGiven && !getCurrentNavigationGiven
  {
    if !routerGiven then Some(RouterMissing)
    else if !getCurrentNavigationGiven then Some(GetCurrentNavigationMissing)
    else None
  }

  /** What the registry keeps true: queues are never empty, and no set holds a callback twice. */
  ghost predicate RegistryInvariant(r: Registry) {
    && (forall k :: k in r.delayed ==> |r.delayed[k]| > 0)
    && (forall k :: k in r.subscribers ==> Distinct(r.subscribers[k]))
  }

  /**
   * The module-level state of the middleware file: `reduxSubscribers`,
   * `delayedTriggers`, and the ghost record of every callback invocation.
   */
  class Dispatcher {
    var subscribers: map<string, seq<SubId>>
    var delayed: map<string, seq<Payload>>
    ghost var log: seq<Delivery>

    ghost function State(): Registry
      reads this
    {
      Registry(subscribers, delayed, log)
    }

    ghost predicate Valid()
      reads this
    {
      RegistryInvariant(State())
    }

    /** Both maps empty, as at module load. */
    constructor ()
      ensures Valid()
      ensures State() == Registry(map[], map[], [])
    {
      subscribers := map[];
      delayed := map[];
      log := [];
    }

    /** `getReduxSubscribers(key)`. */
    method GetReduxSubscribers(key: string) returns (subs: seq<SubId>)
      requires Valid()
      modifies this
      ensures Valid()
      ensures subs == SubscribersOf(old(subscribers), key)
      ensures State() == old(State()).(subscribers := GetOrCreate(old(subscribers), key))
    {
      if key in subscribers {
        subs := subscribers[key];
      } else {
        subs := [];
        subscribers := subscribers[key := subs];
      }
    }

    /** Registering a callback; in the library this happens inside the navigation prop's `addListener`. */
    method AddSubscriber(key: string, s: SubId)
      requires Valid()
      modifies this
      ensures Valid()
      ensures State() == old(State()).(subscribers := Subscribe(old(subscribers), key, s))
    {
      var subs := if key in subscribers then subscribers[key] else [];
      if s !in subs {
        subs := subs + [s];
      }
      subscribers := subscribers[key := subs];
    }

    /** The trigger closure `() => getReduxSubscribers(key).forEach(subscriber => subscriber(p))`. */
    method RunTrigger(key: string, p: Payload)
      requires Valid()
      modifies this
      ensures Valid()
      ensures State() == Fire(old(State()), key, p)
    {
      var subs := GetReduxSubscribers(key);
      var i := 0;
      while i < |subs|
        invariant 0 <= i <= |subs|
        invariant Valid()
        invariant subscribers == GetOrCreate(old(subscribers), key) && delayed == old(delayed)
        invariant log == old(log) + Fanout(subs[..i], p)
      {
        assert Fanout(subs[..i + 1], p) == Fanout(subs[..i], p) + [(subs[i], p)];
        log := log + [(subs[i], p)];
        i := i + 1;
      }
      assert subs[..i] == subs;
    }

    /** `triggerAllSubscribers(key, p)`. */
    method TriggerAllSubscribers(key: string, p: Payload)
      requires Valid()
      modifies this
      ensures Valid()
      ensures State() == Notify(old(State()), key, p)
    {
      if p.action.None?
        || p.action.value.actionType.None?
        || !StartsWith(p.action.value.actionType.value, NavigationPrefix)
        || p.state == p.lastState
      {
        RunTrigger(key, p);
        return;
      }
      if key in delayed {
        delayed := delayed[key := delayed[key] + [p]];
      } else {
        assert QueueOf(delayed, key) + [p] == [p];
        delayed := delayed[key := [p]];
      }
    }

    /** `triggerDelayedSubscribers(key)`. */
    method TriggerDelayedSubscribers(key: string)
      requires Valid()
      modifies this
      ensures Valid()
      ensures State() == Drain(old(State()), key)
    {
      if key !in delayed {
        return;
      }
      var triggers := delayed[key];
      delayed := delayed - {key};
      ghost var cleared := State();
      for i := 0 to |triggers|
        invariant Valid()
        invariant State() == FireAll(cleared, key, triggers[..i])
      {
        assert triggers[..i + 1] == triggers[..i] + [triggers[i]];
        FireAllSnoc(cleared, key, triggers[..i], triggers[i]);
        RunTrigger(key, triggers[i]);
      }
      assert triggers[..|triggers|] == triggers;
    }

    /** `initializeListeners(key, state)`. */
    method InitializeListeners(key: string, state: StateRef)
      requires Valid()
      modifies this
      ensures Valid()
      ensures State() == Initialize(old(State()), key, state)
    {
      TriggerAllSubscribers(key, Payload(Some(InitAction), state, Null));
      TriggerDelayedSubscribers(key);
    }

    /** One dispatch through the middleware of `createReactNavigationReduxMiddleware(selector, key)`. */
    method ReduxMiddleware<S, R>(key: string, selector: S -> StateRef, next: (Action, S) -> (R, S), action: Action, before: S)
      returns (result: R, after: S)
      requires Valid()
      modifies this
      ensures Valid()
      ensures (result, after, State()) == MiddlewareStep(old(State()), key, selector, next, action, before)
    {
      var lastState := selector(before);
      var outcome := next(action, before);
      result, after := outcome.0, outcome.1;
      TriggerAllSubscribers(key, Payload(Some(action), selector(after), lastState));
    }

    /**
     * The prop constructor of `createNavigationPropConstructor(key)`: it fails
     * when the router or `getCurrentNavigation` is missing, and otherwise hands
     * the key's subscriber set (created if needed) to `getNavigation`.
     */
    method NavigationPropConstructor(key: string, routerGiven: bool, getCurrentNavigationGiven: bool)
      returns (r: Result<seq<SubId>, PropError>)
      requires Valid()
      modifies this
      ensures Valid()
      ensures r.Failure? <==> !(routerGiven && getCurrentNavigationGiven)
      ensures r.Failure? ==> Some(r.error) == CheckPropArguments(routerGiven, getCurrentNavigationGiven) && State() == old(State())
      ensures r.Success? ==> r.value == SubscribersOf(old(subscribers), key)
      ensures r.Success? ==> State() == old(State()).(subscribers := GetOrCreate(old(subscribers), key))
    {
      if !routerGiven {
        return Failure(RouterMissing);
      }
      if !getCurrentNavigationGiven {
        return Failure(GetCurrentNavigationMissing);
      }
      var subs := GetReduxSubscribers(key);
      r := Success(subs);
    }
  }
}

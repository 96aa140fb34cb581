/** The router factory and its teardown protocol
    (src/platform/crayon/lib/create.ts).

    `create` finds the shared state in three tiers (the explicit argument, the
    slot on the window, a new History wrapped in a new SharedState that is then
    stored), builds a router that borrows the shared History and event stream,
    registers it, and arms a destroy watcher that unregisters the router when a
    `Destroyed` event carrying its id goes by on the stream.

    History, Location, RouteMap, Router and the event stream are opaque objects
    here; the registry is the set of registered router ids, and the destroy
    watchers still waiting are the set of ids they wait for. Events are
    delivered one at a time, in order. */
module RouterFactory {
  import opened Wrappers

  type Id = string

  /** The kind of a router event; only `Destroyed` matters to the factory. */
  datatype RouterEventType = Destroyed | Other(name: string)

  datatype RouterEvent = RouterEvent(kind: RouterEventType, id: Id)

  /** A global context, with the one slot that holds the shared state. */
  class Window {
    var sharedState: Option<SharedState>

    constructor ()
      ensures sharedState == None
    {
      sharedState := None;
    }
  }

  /** The History adapter, bound to the window it was built for. */
  class History {
    const window: Window

    constructor (window: Window)
      ensures this.window == window
    {
      this.window := window;
    }
  }

  /** The Location reader, bound to a window. */
  class Location {
    const window: Window

    constructor (window: Window)
      ensures this.window == window
    {
      this.window := window;
    }
  }

  class RouteMap {
    constructor () {}
  }

  /** The shared broadcast stream of router events. */
  class EventStream {
    constructor () {}
  }

  class Router {
    const id: Id
    const locator: Location
    const routeMap: RouteMap
    const history: History
    const events: EventStream

    constructor (id: Id, locator: Location, routeMap: RouteMap, history: History, events: EventStream)
      ensures this.id == id && this.locator == locator && this.routeMap == routeMap
      ensures this.history == history && this.events == events
    {
      this.id := id;
      this.locator := locator;
      this.routeMap := routeMap;
      this.history := history;
      this.events := events;
    }
  }

  /** The registry of a shared state together with the destroy watchers that
      are still waiting on its event stream. */
  datatype RegistryState = RegistryState(routers: set<Id>, watchers: set<Id>)

  /** Every registered router still has its destroy watcher waiting. */
  predicate WatchersCover(s: RegistryState) {
    s.routers <= s.watchers
  }

  /** One event goes by: a waiting watcher whose predicate (type `Destroyed`
      and the router's id) matches resolves, stops waiting, and removes its
      router; every other watcher keeps waiting. */
  function Deliver(s: RegistryState, e: RouterEvent): (t: RegistryState)
    ensures t.routers <= s.routers && t.watchers <= s.watchers
    ensures forall x :: x != e.id ==> (x in t.routers <==> x in s.routers) && (x in t.watchers <==> x in s.watchers)
    ensures e.kind != Destroyed ==> t == s
    ensures e.kind == Destroyed && e.id in s.watchers ==> e.id !in t.routers && e.id !in t.watchers
    ensures WatchersCover(s) ==> WatchersCover(t)
  {
    if e.kind == Destroyed && e.id in s.watchers then
      RegistryState(s.routers - {e.id}, s.watchers - {e.id})
    else s
  }

  /** The events of `es` go by, in order. */
  function DeliverAll(s: RegistryState, es: seq<RouterEvent>): RegistryState {
    if es == [] then s else Deliver(DeliverAll(s, es[..|es| - 1]), es[|es| - 1])
  }

  lemma {:induction false} DeliverAllKeepsCover(s: RegistryState, es: seq<RouterEvent>)
    requires WatchersCover(s)
    ensures WatchersCover(DeliverAll(s, es))
    ensures DeliverAll(s, es).routers <= s.routers
  {
    if es != [] {
      DeliverAllKeepsCover(s, es[..|es| - 1]);
    }
  }

  /** A router stays registered exactly as long as no `Destroyed` event with
      its own id has gone by: events of another type, or carrying another id,
      leave it registered. */
  lemma {:induction false} RegisteredUntilDestroyed(s: RegistryState, es: seq<RouterEvent>, x: Id)
    requires WatchersCover(s)
    ensures x in DeliverAll(s, es).routers <==> x in s.routers && RouterEvent(Destroyed, x) !in es
  {
    if es != [] {
      var earlier := es[..|es| - 1];
      RegisteredUntilDestroyed(s, earlier, x);
      DeliverAllKeepsCover(s, earlier);
      assert es == earlier + [es[|es| - 1]];
    }
  }

  /** Destroying one router removes that router only. */
  lemma DestroyRemovesOnlyItsRouter(s: RegistryState, x: Id, y: Id)
    requires WatchersCover(s) && x in s.routers && y in s.routers && x != y
    ensures x !in Deliver(s, RouterEvent(Destroyed, x)).routers
    ensures y in Deliver(s, RouterEvent(Destroyed, x)).routers
  {
  }

  /** The state every router of a window shares: one History, one event
      stream, and the registry of live routers. */
  class SharedState {
    const history: History
    const events: EventStream
    var routers: set<Id>
    var watchers: set<Id>

    function State(): RegistryState
      reads this
    {
      RegistryState(routers, watchers)
    }

    /** Every registered router has its destroy watcher waiting. */
    predicate Valid()
      reads this
    {
      WatchersCover(State())
    }

    constructor (history: History)
      ensures this.history == history && fresh(events)
      ensures routers == {} && watchers == {} && Valid()
    {
      this.history := history;
      events := new EventStream();
      routers := {};
      watchers := {};
    }

    method AddRouter(id: Id)
      modifies this
      ensures routers == old(routers) + {id} && watchers == old(watchers)
    {
      routers := routers + {id};
    }

    /** Unregisters a router; a router that is not registered is left alone. */
    method RemoveRouter(id: Id)
      modifies this
      ensures routers == old(routers) - {id} && watchers == old(watchers)
    {
      routers := routers - {id};
    }

    /** One event goes by on `events`; the matching destroy watcher runs. */
    method Dispatch(e: RouterEvent)
      modifies this
      ensures State() == Deliver(old(State()), e)
      ensures old(Valid()) ==> Valid()
    {
      if e.kind == Destroyed && e.id in watchers {
        watchers := watchers - {e.id};
        RemoveRouter(e.id);
      }
    }

    /** The events of `es` go by on `events`, in order. */
    method DispatchAll(es: seq<RouterEvent>)
      modifies this
      ensures State() == DeliverAll(old(State()), es)
      ensures old(Valid()) ==> Valid()
    {
      var i := 0;
      while i < |es|
        invariant i <= |es|
        invariant State() == DeliverAll(old(State()), es[..i])
      {
        assert es[..i + 1][..i] == es[..i];
        Dispatch(es[i]);
        i := i + 1;
      }
      assert es[..i] == es;
      if old(Valid()) {
        DeliverAllKeepsCover(old(State()), es);
      }
    }
  }

  /** `getSharedState(window)`: what the window's slot holds. */
  function GetSharedState(w: Window): Option<SharedState>
    reads w
  {
    w.sharedState
  }

  /** `setSharedState`: stores a shared state in a window's slot. */
  method SetSharedState(w: Window, s: SharedState)
    modifies w
    ensures w.sharedState == Some(s)
  {
    w.sharedState := Some(s);
  }

  /** The shared state an optional value refers to, as a frame. */
  function Stored(o: Option<SharedState>): set<object> {
    if o.Some? then {o.value} else {}
  }

  /** `onRouterDestroy`: arms the destroy watcher and returns at once; the
      watcher's effect happens later, in `SharedState.Dispatch`. */
  method OnRouterDestroy(router: Router, shared: SharedState)
    modifies shared
    ensures shared.watchers == old(shared.watchers) + {router.id}
    ensures shared.routers == old(shared.routers)
  {
    shared.watchers := shared.watchers + {router.id};
  }

  /** `create(id, _window, sharedState)`. `ambient` is the global `window`,
      where `setSharedState(sharedState)`, called without `_window`, stores a
      newly made state; the lookup reads `_window` (here `w`). `shared` names
      the state the router was attached to. */
  method Create(id: Id, w: Window, ambient: Window, explicit: Option<SharedState>)
    returns (router: Router, ghost shared: SharedState)
    modifies ambient, if explicit.Some? then Stored(explicit) else Stored(w.sharedState)
    ensures fresh(router) && fresh(router.routeMap) && fresh(router.locator)
    ensures router.id == id && router.locator.window == w
    ensures router.history == shared.history && router.events == shared.events
    // tier 1: an explicit state is used as it is, without a lookup or a new History
    ensures explicit.Some? ==> shared == explicit.value && unchanged(ambient, w)
    // tier 2: the state found on the window is reused
    ensures explicit.None? && old(w.sharedState).Some? ==>
      shared == old(w.sharedState).value && unchanged(ambient, w)
    // tier 3: a new History for `w` wrapped in a new state, stored on `ambient`
    ensures explicit.None? && old(w.sharedState).None? ==>
      && fresh(shared) && fresh(shared.history) && fresh(shared.events)
      && shared.history.window == w
      && ambient.sharedState == Some(shared)
      && (w != ambient ==> unchanged(w))
    // registration, with the destroy watcher still pending
    ensures !fresh(shared) ==>
      shared.routers == old(shared.routers) + {id} && shared.watchers == old(shared.watchers) + {id}
    ensures fresh(shared) ==> shared.routers == {id} && shared.watchers == {id}
    // the registry keeps every router covered by its watcher
    ensures fresh(shared) || old(shared.Valid()) ==> shared.Valid()
  {
    var sharedState := explicit;
    if sharedState.None? {
      sharedState := GetSharedState(w);
    }
    if sharedState.None? {
      var history := new History(w);
      var s := new SharedState(history);
      SetSharedState(ambient, s);
      sharedState := Some(s);
    }
    var s := sharedState.value;
    var history := s.history;
    var routeMap := new RouteMap();
    var locator := new Location(w);
    router := new Router(id, locator, routeMap, history, s.events);
    s.AddRouter(router.id);
    OnRouterDestroy(router, s);
    shared := s;
  }

  /** With a `_window` other than the global one, the new state goes to the
      global window's slot, so the next `create` on the same `_window` finds
      nothing there and builds a second History and a second event stream. */
  method ForeignWindowBuildsTwoHistories(w: Window, ambient: Window, a: Id, b: Id)
    returns (ra: Router, rb: Router)
    requires w != ambient && w.sharedState == None
    modifies ambient
    ensures w.sharedState == None
    ensures ra.history != rb.history && ra.events != rb.events
  {
    ghost var sa, sb;
    ra, sa := Create(a, w, ambient, None);
    rb, sb := Create(b, w, ambient, None);
  }

  /** `create` with the new state stored on the window it was looked up on,
      which is what the three-tier resolution needs to find it again. */
  method CreateOnOwnWindow(id: Id, w: Window, explicit: Option<SharedState>)
    returns (router: Router, ghost shared: SharedState)
    modifies w, if explicit.Some? then Stored(explicit) else Stored(w.sharedState)
    ensures fresh(router) && router.id == id && router.locator.window == w
    ensures router.history == shared.history && router.events == shared.events
    ensures explicit.Some? ==> shared == explicit.value && unchanged(w)
    ensures explicit.None? && old(w.sharedState).Some? ==>
      shared == old(w.sharedState).value && unchanged(w)
    ensures explicit.None? && old(w.sharedState).None? ==>
      fresh(shared) && fresh(shared.history) && shared.history.window == w
    ensures explicit.None? ==> w.sharedState == Some(shared)
    ensures !fresh(shared) ==>
      shared.routers == old(shared.routers) + {id} && shared.watchers == old(shared.watchers) + {id}
    ensures fresh(shared) ==> shared.routers == {id} && shared.watchers == {id}
    ensures fresh(shared) || old(shared.Valid()) ==> shared.Valid()
  {
    router, shared := Create(id, w, w, explicit);
  }

  /** Any number of routers created on one window without an explicit state
      share one state, hence one History and one event stream: the state
      already on the window if there was one, else a single new one. */
  method CreateAll(ids: seq<Id>, w: Window) returns (routers: seq<Router>)
    requires |ids| > 0
    modifies w, Stored(w.sharedState)
    ensures |routers| == |ids| && w.sharedState.Some?
    ensures old(w.sharedState).Some? ==> w.sharedState == old(w.sharedState)
    ensures forall i :: 0 <= i < |routers| ==>
      && routers[i].id == ids[i]
      && routers[i].history == w.sharedState.value.history
      && routers[i].events == w.sharedState.value.events
      && ids[i] in w.sharedState.value.routers
  {
    var first, shared := CreateOnOwnWindow(ids[0], w, None);
    routers := [first];
    var i := 1;
    while i < |ids|
      invariant 1 <= i <= |ids| && |routers| == i
      invariant w.sharedState == Some(shared)
      invariant old(w.sharedState).Some? ==> shared == old(w.sharedState).value
      invariant old(w.sharedState).Some? || fresh(shared)
      invariant forall j :: 0 <= j < i ==>
        && routers[j].id == ids[j]
        && routers[j].history == shared.history
        && routers[j].events == shared.events
        && ids[j] in shared.routers
    {
      var next, again := CreateOnOwnWindow(ids[i], w, None);
      routers := routers + [next];
      i := i + 1;
    }
  }

  /** Two routers on one window, one of them destroyed: the other stays
      registered, and an event of another type or for another id changes
      nothing. */
  method DestroyOneOfTwo(w: Window, a: Id, b: Id) returns (ra: Router, rb: Router, ghost afterOther: RegistryState)
    requires a != b && w.sharedState == None
    modifies w
    ensures w.sharedState.Some?
    ensures ra.history == rb.history && ra.events == rb.events
    // the event of another type leaves both routers registered and watched
    ensures afterOther == RegistryState({a, b}, {a, b})
    // the destroy event then removes `a` and its watcher only
    ensures w.sharedState.value.State() == RegistryState({b}, {b})
  {
    ghost var shared;
    ra, shared := CreateOnOwnWindow(a, w, None);
    rb, shared := CreateOnOwnWindow(b, w, None);
    var s := w.sharedState.value;
    s.Dispatch(RouterEvent(Other("navigated"), a));
    afterOther := s.State();
    s.Dispatch(RouterEvent(Destroyed, a));
  }
}

/**
 * DeepLinksHandler: the one deep link there is, and the two-step navigation
 * `open` performs on the app state: reset the routing to its default, then run
 * the "route to destination" action, deferred on the main queue when a reset
 * happened.
 *
 * The routing value is opaque: only its equality and the default
 * `ViewRouting()` matter. The main queue is the list of actions scheduled on
 * it, each tagged with its delay.
 */
module DeepLinks {
  import opened Wrappers

  datatype DeepLink = Home

  /** The parts of a URL that `DeepLink(url:)` inspects, as `URLComponents` would give them. */
  datatype URLComponents = URLComponents(host: Option<string>, queryItems: Option<seq<(string, Option<string>)>>)

  /**
   * `DeepLink.init?(url:)`: a URL that cannot be parsed, whose host is not
   * www.example.com or that has no query gives `home`, and so does every other
   * URL; the initializer never fails.
   */
  function DeepLinkFrom(components: Option<URLComponents>): (r: Option<DeepLink>)
  {
    if components.None? || components.value.host != Some("www.example.com") || components.value.queryItems.None? then
      Some(Home)
    else
      Some(Home)
  }

  /** Whatever the URL, the link is `home`. */
  lemma DeepLinkAlwaysHome(components: Option<URLComponents>)
    ensures DeepLinkFrom(components) == Some(Home)
  {
  }

  /** `AppState`: the routing, which `open` rewrites, and every other field, which it must leave alone. */
  datatype AppState<R, O> = AppState(routing: R, rest: O)

  /** How long the main queue waits before running an action: 0 under tests, 1.5 s otherwise. */
  datatype Delay = NoDelay | SettleDelay

  /** The only deferred action `open` schedules. */
  datatype Action = RouteToDestination

  /** An action waiting on the main queue. */
  datatype Scheduled = Scheduled(action: Action, delay: Delay)

  /** The delay `open` asks for. */
  function SettleDelayFor(isRunningTests: bool): (d: Delay)
    ensures d == NoDelay <==> isRunningTests
  {
    if isRunningTests then NoDelay else SettleDelay
  }

  /**
   * What an action does to the state. `routeToDestination` is
   * `bulkUpdate { $0.routing.self }`: its closure reads the routing and assigns
   * nothing.
   */
  function Perform<R, O>(a: Action, s: AppState<R, O>): AppState<R, O> {
    match a
    case RouteToDestination => s
  }

  /** The state after the main queue has run every scheduled action, in order. */
  function Drained<R, O>(s: AppState<R, O>, queue: seq<Scheduled>): AppState<R, O>
    decreases |queue|
  {
    if queue == [] then s else Drained(Perform(queue[0].action, s), queue[1..])
  }

  /** The effect of `open`: the new state and what it adds to the main queue. */
  datatype Outcome<R, O> = Outcome(state: AppState<R, O>, scheduled: seq<Scheduled>)

  /** `open(deepLink:)` as a function of the state before it, the default routing and the test flag. */
  function Opened<R(==), O>(s: AppState<R, O>, link: DeepLink, defaultRouting: R, isRunningTests: bool): (o: Outcome<R, O>)
    ensures o.state.rest == s.rest
    ensures s.routing == defaultRouting ==> o.state == s && o.scheduled == []
    ensures s.routing != defaultRouting ==>
      o.state == s.(routing := defaultRouting)
      && o.scheduled == [Scheduled(RouteToDestination, SettleDelayFor(isRunningTests))]
  {
    match link
    case Home =>
      if s.routing != defaultRouting then
        Outcome(s.(routing := defaultRouting), [Scheduled(RouteToDestination, SettleDelayFor(isRunningTests))])
      else
        Outcome(Perform(RouteToDestination, s), [])
  }

  /** No scheduled action writes anything: draining the queue leaves the state as it is. */
  lemma {:induction false} DrainedUnchanged<R, O>(s: AppState<R, O>, queue: seq<Scheduled>)
    ensures Drained(s, queue) == s
    decreases |queue|
  {
    if queue != [] {
      DrainedUnchanged(Perform(queue[0].action, s), queue[1..]);
    }
  }

  /**
   * `open` runs first; once the main queue has run what was already waiting
   * on it and then what `open` scheduled, the routing is the default whichever
   * branch was taken, and no other field has changed.
   */
  lemma OpenSettlesOnDefault<R, O>(s: AppState<R, O>, waiting: seq<Scheduled>, link: DeepLink,
                                   defaultRouting: R, isRunningTests: bool)
    ensures var o := Opened(s, link, defaultRouting, isRunningTests);
      Drained(o.state, waiting + o.scheduled) == s.(routing := defaultRouting)
  {
    var o := Opened(s, link, defaultRouting, isRunningTests);
    DrainedUnchanged(o.state, waiting + o.scheduled);
  }

  /** A second `open(.home)` after the first has settled takes the immediate branch and schedules nothing. */
  lemma OpenTwiceSchedulesOnce<R, O>(s: AppState<R, O>, defaultRouting: R, isRunningTests: bool)
    ensures var first := Opened(s, Home, defaultRouting, isRunningTests);
      var second := Opened(Drained(first.state, first.scheduled), Home, defaultRouting, isRunningTests);
      |first.scheduled| <= 1 && second.scheduled == [] && second.state == Drained(first.state, first.scheduled)
  {
    var first := Opened(s, Home, defaultRouting, isRunningTests);
    DrainedUnchanged(first.state, first.scheduled);
  }

  /** `Store<AppState>`: a mutable cell holding the app state. */
  class Store<R, O> {
    var value: AppState<R, O>

    constructor (initial: AppState<R, O>)
      ensures value == initial
    {
      value := initial;
    }

    /** `appState[\.routing] = r`: replaces the routing and nothing else. */
    method SetRouting(r: R)
      modifies this
      ensures value == old(value).(routing := r)
    {
      value := value.(routing := r);
    }

    /** `bulkUpdate` with the destination's closure, which assigns nothing. */
    method BulkUpdateRouteToDestination()
      modifies this
      ensures value == Perform(RouteToDestination, old(value))
    {
    }
  }

  /** `DispatchQueue.main`, seen as the list of actions scheduled on it and not yet run. */
  class MainQueue {
    var scheduled: seq<Scheduled>

    constructor ()
      ensures scheduled == []
    {
      scheduled := [];
    }

    /** `asyncAfter(deadline:execute:)`: puts an action at the back of the queue. */
    method AsyncAfter(delay: Delay, action: Action)
      modifies this
      ensures scheduled == old(scheduled) + [Scheduled(action, delay)]
    {
      scheduled := scheduled + [Scheduled(action, delay)];
    }

    /** Runs the oldest scheduled action, if any, against the store. */
    method RunNext<R, O>(store: Store<R, O>) returns (ran: bool)
      modifies this, store
      ensures ran <==> old(scheduled) != []
      ensures old(scheduled) == [] ==> scheduled == [] && store.value == old(store.value)
      ensures old(scheduled) != [] ==>
        scheduled == old(scheduled)[1..] && store.value == Perform(old(scheduled)[0].action, old(store.value))
      ensures Drained(store.value, scheduled) == Drained(old(store.value), old(scheduled))
    {
      if scheduled == [] {
        return false;
      }
      var next := scheduled[0];
      scheduled := scheduled[1..];
      match next.action
      case RouteToDestination => store.BulkUpdateRouteToDestination();
      return true;
    }
  }

  /** `RealDeepLinksHandler`: the container's store, the main queue and whether tests are running. */
  class RealDeepLinksHandler<R(==), O> {
    const store: Store<R, O>
    const main: MainQueue
    const defaultRouting: R
    const isRunningTests: bool

    constructor (store: Store<R, O>, main: MainQueue, defaultRouting: R, isRunningTests: bool)
      ensures this.store == store && this.main == main
      ensures this.defaultRouting == defaultRouting && this.isRunningTests == isRunningTests
    {
      this.store := store;
      this.main := main;
      this.defaultRouting := defaultRouting;
      this.isRunningTests := isRunningTests;
    }

    /**
     * `open(deepLink:)`: with the routing already at its default, routes to the
     * destination at once; otherwise resets the routing to the default and
     * schedules the routing to the destination on the main queue.
     */
    method Open(deepLink: DeepLink)
      modifies store, main
      ensures var o := Opened(old(store.value), deepLink, defaultRouting, isRunningTests);
        store.value == o.state && main.scheduled == old(main.scheduled) + o.scheduled
    {
      match deepLink
      case Home =>
        if store.value.routing != defaultRouting {
          store.SetRouting(defaultRouting);
          var delay := if isRunningTests then NoDelay else SettleDelay;
          main.AsyncAfter(delay, RouteToDestination);
        } else {
          store.BulkUpdateRouteToDestination();
        }
    }
  }

  /**
   * A run of the handler: `open(.home)` from a non-default routing, observed
   * in the middle of the transition and after the main queue has run.
   */
  method OpenThenSettle<R(==), O>(initial: AppState<R, O>, defaultRouting: R, isRunningTests: bool)
    returns (midway: AppState<R, O>, settled: AppState<R, O>, deferred: seq<Scheduled>)
    requires initial.routing != defaultRouting
    ensures midway == initial.(routing := defaultRouting)
    ensures deferred == [Scheduled(RouteToDestination, SettleDelayFor(isRunningTests))]
    ensures settled == midway
  {
    var store := new Store(initial);
    var main := new MainQueue();
    var handler := new RealDeepLinksHandler(store, main, defaultRouting, isRunningTests);
    handler.Open(Home);
    midway := store.value;
    deferred := main.scheduled;
    var ran := main.RunNext(store);
    settled := store.value;
  }
}

/**
 * The server: its lifecycle state, the assembly of one router per
 * registered controller, and the wrapper that turns a handler's outcome into
 * an HTTP response.
 */
module Server {
  import opened Wrappers
  import opened Model
  import opened Metadata
  import opened Registry
  import opened Exceptions
  import Discovery

  /** The lifecycle states; `Uninitialized` is declared but never assigned by the server. */
  datatype ServerState = Uninitialized | Initializing | Initialized | Starting | Running | Terminating | Terminated

  /** A controller instance, as the injection container resolves it from its class. */
  type InstanceId = nat

  /** The method `name` bound to the controller instance `instance`. */
  datatype HandlerRef = HandlerRef(instance: InstanceId, name: string)

  /**
   * One route registered on a controller's router under its HTTP method. The
   * arguments are kept in the order the router receives them: path, then the
   * wrapped handler, then the middleware list.
   */
  datatype RouterEntry = RouterEntry(httpMethod: Method, path: string, handler: HandlerRef, middleware: seq<Middleware>)

  /** A controller's router, mounted on the application under its base path. */
  datatype RouterMount = RouterMount(basePath: string, router: seq<RouterEntry>)

  /** The TypeError `routes.forEach` raises for a registered class without a routes list. */
  datatype AssemblyError = MissingRoutes(controller: ControllerId)

  /**
   * The router entries `_setupController` creates for `routes`: one per
   * route, in stored order, each bound to the controller instance and given
   * the controller's middleware followed by the route's own.
   */
  function SetupRoutes(instance: InstanceId, baseMiddleware: seq<Middleware>, routes: seq<ControllerRoute>): (r: seq<RouterEntry>)
    ensures |r| == |routes|
    ensures forall j :: 0 <= j < |routes| ==>
              r[j].httpMethod == routes[j].httpMethod && r[j].path == routes[j].path &&
              r[j].handler == HandlerRef(instance, routes[j].handlerName) &&
              r[j].middleware == baseMiddleware + routes[j].middleware
    decreases |routes|
  {
    if routes == [] then []
    else
      var route := routes[|routes| - 1];
      SetupRoutes(instance, baseMiddleware, routes[..|routes| - 1])
        + [RouterEntry(route.httpMethod, route.path, HandlerRef(instance, route.handlerName), baseMiddleware + route.middleware)]
  }

  /** Every registered class has a routes list. */
  predicate AllRouted(entries: map<ControllerId, Metadata>, registry: seq<ControllerId>) {
    forall i :: 0 <= i < |registry| ==> Lookup(entries, registry[i]).routes.Some?
  }

  /** The router mounted for one declared class that has routes. */
  function MountFor(entries: map<ControllerId, Metadata>, id: ControllerId, resolve: ControllerId -> InstanceId): RouterMount
    requires Lookup(entries, id).basePath.Some? && Lookup(entries, id).middleware.Some?
    requires Lookup(entries, id).routes.Some?
  {
    var m := Lookup(entries, id);
    RouterMount(m.basePath.value, SetupRoutes(resolve(id), m.middleware.value, m.routes.value))
  }

  lemma PrefixDeclared(entries: map<ControllerId, Metadata>, registry: seq<ControllerId>, n: nat)
    requires Declared(entries, registry) && n <= |registry|
    ensures Declared(entries, registry[..n])
    ensures AllRouted(entries, registry) ==> AllRouted(entries, registry[..n])
  {
  }

  /**
   * `_registerRoutes`: the routers mounted, one per registered class in
   * registry order, or the error that stops the walk at the first registered
   * class without a routes list.
   */
  function Assemble(entries: map<ControllerId, Metadata>, registry: seq<ControllerId>,
                    resolve: ControllerId -> InstanceId): (r: Result<seq<RouterMount>, AssemblyError>)
    requires Declared(entries, registry)
    ensures r.Success? <==> AllRouted(entries, registry)
    ensures r.Success? ==>
              |r.value| == |registry| &&
              forall i :: 0 <= i < |registry| ==> r.value[i] == MountFor(entries, registry[i], resolve)
    ensures r.Failure? ==>
              exists i :: 0 <= i < |registry| && registry[i] == r.error.controller &&
                Lookup(entries, registry[i]).routes.None? && AllRouted(entries, registry[..i])
    decreases |registry|
  {
    if registry == [] then Success([])
    else
      var n := |registry| - 1;
      var id := registry[n];
      PrefixDeclared(entries, registry, n);
      match Assemble(entries, registry[..n], resolve)
      case Failure(e) =>
        assert forall i :: 0 <= i < n ==> registry[..n][..i] == registry[..i];
        Failure(e)
      case Success(mounts) =>
        if Lookup(entries, id).routes.None? then
          assert registry[..n][..n] == registry[..n];
          Failure(MissingRoutes(id))
        else
          assert forall i :: 0 <= i < n ==> registry[..n][i] == registry[i];
          Success(mounts + [MountFor(entries, id, resolve)])
  }

  /**
   * A controller at "/users" with middleware [m1] and one route GET "/:id"
   * with middleware [m2] is mounted at "/users" with the middleware chain
   * [m1, m2].
   */
  lemma UsersExample(resolve: ControllerId -> InstanceId)
    ensures
      var m1, m2 := Middleware("m1"), Middleware("m2");
      var users := Metadata(Some("/users"), Some([m1]), Some([ControllerRoute(Method.Get, "/:id", "getUser", [m2])]));
      Assemble(map[7 := users], [7], resolve)
        == Success([RouterMount("/users", [RouterEntry(Method.Get, "/:id", HandlerRef(resolve(7), "getUser"), [m1, m2])])])
  {
    var m1, m2 := Middleware("m1"), Middleware("m2");
    var users := Metadata(Some("/users"), Some([m1]), Some([ControllerRoute(Method.Get, "/:id", "getUser", [m2])]));
    var r := Assemble(map[7 := users], [7], resolve);
    assert [m1] + [m2] == [m1, m2];
    var entry := RouterEntry(Method.Get, "/:id", HandlerRef(resolve(7), "getUser"), [m1, m2]);
    assert |r.value| == 1 && |r.value[0].router| == 1;
    assert r.value[0].router == [entry];
    assert r.value[0] == RouterMount("/users", [entry]);
    assert r.value == [RouterMount("/users", [entry])];
    assert r.value[0].router[0] == RouterEntry(Method.Get, "/:id", HandlerRef(resolve(7), "getUser"), [m1, m2]);
  }

  /** What a handler did: returned a value, or threw one. */
  datatype Outcome = Returned(value: JsValue) | Threw(error: JsValue)

  /** An HTTP status with a JSON body. */
  datatype Response = Response(status: int, body: JsValue)

  const UnexpectedErrorMessage := "An unexpected error occurred"

  /** The JSON object `{message}`. */
  function MessageBody(message: JsValue): JsValue {
    Object(map["message" := message])
  }

  /**
   * The wrapper `_handleRequest` puts around every handler. A returned value
   * is sent with status 200; a thrown `GeneralException` is sent with its own
   * status code and only its message; anything else thrown is sent as 500
   * with a fixed message. `None` when no response is written: a thrown
   * `null` makes the type guard itself throw inside the catch block.
   */
  function HandleRequest(outcome: Outcome): (r: Option<Response>)
    ensures outcome.Returned? ==> r == Some(Response(200, outcome.value))
    ensures outcome.Threw? && outcome.error.Object? &&
            Property(outcome.error, "message").Str? && Property(outcome.error, "statusCode").Num? ==>
              r == Some(Response(Property(outcome.error, "statusCode").n, MessageBody(Property(outcome.error, "message"))))
    ensures outcome.Threw? && outcome.error.Object? &&
            !(Property(outcome.error, "message").Str? && Property(outcome.error, "statusCode").Num?) ==>
              r == Some(Response(500, MessageBody(Str(UnexpectedErrorMessage))))
    ensures outcome.Threw? && !outcome.error.Object? && !outcome.error.Null? ==>
              r == Some(Response(500, MessageBody(Str(UnexpectedErrorMessage))))
    ensures r == None <==> outcome == Threw(Null)
  {
    match outcome
    case Returned(result) => Some(Response(200, result))
    case Threw(err) =>
      match IsGeneralException(err)
      case None => None
      case Some(true) => Some(Response(Property(err, "statusCode").n, MessageBody(Property(err, "message"))))
      case Some(false) => Some(Response(500, MessageBody(Str(UnexpectedErrorMessage))))
  }

  /**
   * An error that is not a `GeneralException` never reaches the client: any
   * two such errors get the very same response.
   */
  lemma UnexpectedErrorsLookAlike(e1: JsValue, e2: JsValue)
    requires IsGeneralException(e1) == Some(false) && IsGeneralException(e2) == Some(false)
    ensures HandleRequest(Threw(e1)) == HandleRequest(Threw(e2))
    ensures HandleRequest(Threw(e1)).value.status == 500
  {
  }

  /**
   * A thrown `GeneralException` built with a status code is answered with
   * that status and a body holding its message and nothing else.
   */
  lemma GeneralExceptionResponse(message: string, statusCode: int)
    ensures HandleRequest(Threw(NewGeneralException(Some(message), Some(statusCode))))
              == Some(Response(statusCode, Object(map["message" := Str(message)])))
  {
  }

  /** A server listening through `app.listen(port)`; `open` until closed. */
  datatype Listener = Listener(port: Option<nat>, open: bool)

  /**
   * `ApiServer`. `state` is `_state` and `history` every value written to it,
   * in order; `mounts` are the routers mounted on the express application;
   * `listeners` are the servers `listen` created, and `server` the index of
   * the one `_server` holds.
   */
  class ApiServer {
    var state: ServerState
    ghost var history: seq<ServerState>
    const port: Option<nat>
    var mounts: seq<RouterMount>
    var listeners: seq<Listener>
    var server: Option<nat>

    ghost predicate Valid()
      reads this
    {
      |history| > 0 && state == history[|history| - 1] &&
      (server.Some? ==> server.value < |listeners|)
    }

    /**
     * Construction goes through INITIALIZING to INITIALIZED. It builds a file
     * discovery for the working directory but never runs it, then mounts the
     * routers of the registered classes. A registered class without routes
     * makes the source's constructor throw; that case is `Assemble`'s
     * failure and is excluded here.
     */
    constructor (port: Option<nat>, store: MetadataStore, registry: ControllerRegistry,
                 resolve: ControllerId -> InstanceId,
                 controllerMatcher: Discovery.Path -> bool, cwd: Discovery.Path)
      requires Declared(store.entries, registry.controllers)
      requires AllRouted(store.entries, registry.controllers)
      ensures Valid()
      ensures state == Initialized && history == [Initializing, Initialized]
      ensures this.port == port
      ensures mounts == Assemble(store.entries, registry.controllers, resolve).value
      ensures listeners == [] && server == None
    {
      state := Initializing;
      history := [Initializing];
      this.port := port;
      mounts := [];
      listeners := [];
      server := None;
      new;
      var _ := DiscoverControllers(controllerMatcher, cwd);
      RegisterRoutes(store, registry, resolve);
      state := Initialized;
      history := history + [Initialized];
    }

    /**
     * `_discoverControllers`: builds a discovery of the working directory and
     * never asks it to walk, so nothing is loaded. The server drops it.
     */
    method DiscoverControllers(controllerMatcher: Discovery.Path -> bool, cwd: Discovery.Path)
      returns (discovery: Discovery.FileDiscovery)
      ensures fresh(discovery)
      ensures discovery.initialPath == cwd && discovery.matcher == controllerMatcher
      ensures discovery.loaded == []
    {
      discovery := new Discovery.FileDiscovery(controllerMatcher, cwd);
    }

    /** `_registerRoutes`: one router per registered class, in registry order. */
    method RegisterRoutes(store: MetadataStore, registry: ControllerRegistry, resolve: ControllerId -> InstanceId)
      requires Declared(store.entries, registry.controllers)
      requires AllRouted(store.entries, registry.controllers)
      modifies this`mounts
      ensures mounts == old(mounts) + Assemble(store.entries, registry.controllers, resolve).value
    {
      var controllers := registry.controllers;
      var i := 0;
      while i < |controllers|
        invariant 0 <= i <= |controllers|
        invariant Declared(store.entries, controllers[..i]) && AllRouted(store.entries, controllers[..i])
        invariant mounts == old(mounts) + Assemble(store.entries, controllers[..i], resolve).value
      {
        var controllerClass := controllers[i];
        var controllerInstance := resolve(controllerClass);
        var m := store.Get(controllerClass);
        SetupController(controllerInstance, m.basePath.value, m.middleware.value, m.routes.value);
        PrefixDeclared(store.entries, controllers, i + 1);
        assert controllers[..i + 1][..i] == controllers[..i];
        i := i + 1;
      }
      assert controllers[..i] == controllers;
    }

    /** `_setupController`: fills a new router with the routes and mounts it under `basePath`. */
    method SetupController(controllerInstance: InstanceId, basePath: string,
                           baseMiddleware: seq<Middleware>, routes: seq<ControllerRoute>)
      modifies this`mounts
      ensures mounts == old(mounts) + [RouterMount(basePath, SetupRoutes(controllerInstance, baseMiddleware, routes))]
    {
      var exRouter: seq<RouterEntry> := [];
      var j := 0;
      while j < |routes|
        invariant 0 <= j <= |routes|
        invariant exRouter == SetupRoutes(controllerInstance, baseMiddleware, routes[..j])
      {
        var route := routes[j];
        var routeMiddleware := baseMiddleware + route.middleware;
        exRouter := exRouter + [RouterEntry(route.httpMethod, route.path, HandlerRef(controllerInstance, route.handlerName), routeMiddleware)];
        assert routes[..j + 1][..j] == routes[..j];
        j := j + 1;
      }
      assert routes[..j] == routes;
      mounts := mounts + [RouterMount(basePath, exRouter)];
    }

    /**
     * `start()`: whatever the state, goes through STARTING to RUNNING and
     * listens on a new server, which `_server` now holds.
     */
    method Start()
      requires Valid()
      modifies this`state, this`history, this`listeners, this`server
      ensures Valid()
      ensures state == Running && history == old(history) + [Starting, Running]
      ensures listeners == old(listeners) + [Listener(port, true)]
      ensures server == Some(|old(listeners)|)
    {
      state := Starting;
      history := history + [Starting];
      listeners := listeners + [Listener(port, true)];
      server := Some(|listeners| - 1);
      state := Running;
      history := history + [Running];
    }

    /**
     * `stop()`: goes to TERMINATING, closes the server `_server` holds and
     * goes to TERMINATED. Before any `start()` there is no server, the close
     * throws a TypeError (`typeError`) and the state stays TERMINATING.
     */
    method Stop() returns (typeError: bool)
      requires Valid()
      modifies this`state, this`history, this`listeners
      ensures Valid()
      ensures typeError <==> old(server).None?
      ensures typeError ==> state == Terminating && history == old(history) + [Terminating] && listeners == old(listeners)
      ensures !typeError ==>
                state == Terminated && history == old(history) + [Terminating, Terminated] &&
                listeners == old(listeners)[old(server).value := old(listeners)[old(server).value].(open := false)]
    {
      state := Terminating;
      history := history + [Terminating];
      if server.None? {
        typeError := true;
        return;
      }
      typeError := false;
      listeners := listeners[server.value := listeners[server.value].(open := false)];
      state := Terminated;
      history := history + [Terminated];
    }
  }

  /**
   * `start()` has no guard: a second call creates a second open listener,
   * and `_server` holds only the second one.
   */
  method StartTwice(s: ApiServer)
    requires s.Valid()
    modifies s`state, s`history, s`listeners, s`server
    ensures s.Valid()
    ensures s.state == Running && s.history == old(s.history) + [Starting, Running, Starting, Running]
    ensures s.listeners == old(s.listeners) + [Listener(s.port, true), Listener(s.port, true)]
    ensures s.server == Some(|old(s.listeners)| + 1)
  {
    s.Start();
    s.Start();
  }

  /**
   * After two starts, `stop()` closes only the server `_server` holds: the
   * server still ends TERMINATED, but the first listener stays open.
   */
  method StartTwiceThenStop(s: ApiServer)
    requires s.Valid()
    modifies s`state, s`history, s`listeners, s`server
    ensures s.Valid()
    ensures s.state == Terminated
    ensures s.history == old(s.history) + [Starting, Running, Starting, Running, Terminating, Terminated]
    ensures s.listeners == old(s.listeners) + [Listener(s.port, true), Listener(s.port, false)]
    ensures s.server == Some(|old(s.listeners)| + 1)
  {
    StartTwice(s);
    var _ := s.Stop();
  }
}

/**
 * The route decorators `@Get`, `@Put`, `@Post` and `@Delete`: each appends one
 * route descriptor to the routes metadata of the decorated method's class,
 * creating an empty list first when the class has none yet.
 */
module Methods {
  import opened Wrappers
  import opened Model
  import opened Metadata

  /** The routes declared so far, an empty list when none is defined. */
  function RoutesSoFar(m: Metadata): seq<ControllerRoute> {
    m.routes.GetOr([])
  }

  /**
   * The metadata after one route decorator: the routes list exists, it is the
   * earlier list (or a new empty one) with `route` added at the end, and the
   * base path and middleware are untouched.
   */
  function AddRoute(m: Metadata, route: ControllerRoute): (m': Metadata)
    ensures m'.routes.Some? && |m'.routes.value| == |RoutesSoFar(m)| + 1
    ensures m'.routes.value[|RoutesSoFar(m)|] == route
    ensures forall i :: 0 <= i < |RoutesSoFar(m)| ==> m'.routes.value[i] == RoutesSoFar(m)[i]
    ensures m'.basePath == m.basePath && m'.middleware == m.middleware
  {
    Metadata(m.basePath, m.middleware, Some(RoutesSoFar(m) + [route]))
  }

  /** Several route decorators applied one after the other. */
  function AddRoutes(m: Metadata, routes: seq<ControllerRoute>): Metadata
    decreases |routes|
  {
    if routes == [] then m else AddRoute(AddRoutes(m, routes[..|routes| - 1]), routes[|routes| - 1])
  }

  /**
   * Declaration order is route order: decorating methods with `routes`, in
   * that order, on a class that had `existing` routes (or none) leaves exactly
   * `existing + routes`, and never touches base path or middleware.
   */
  lemma {:induction false} AddRoutesInOrder(m: Metadata, routes: seq<ControllerRoute>)
    ensures AddRoutes(m, routes).routes == if m.routes.None? && routes == [] then None
                                           else Some(RoutesSoFar(m) + routes)
    ensures AddRoutes(m, routes).basePath == m.basePath
    ensures AddRoutes(m, routes).middleware == m.middleware
    decreases |routes|
  {
    if routes != [] {
      var init := routes[..|routes| - 1];
      AddRoutesInOrder(m, init);
      assert RoutesSoFar(AddRoutes(m, init)) == RoutesSoFar(m) + init by {
        if init == [] { assert RoutesSoFar(m) + init == RoutesSoFar(m); }
      }
      assert (RoutesSoFar(m) + init) + [routes[|routes| - 1]] == RoutesSoFar(m) + routes;
      assert init + [routes[|routes| - 1]] == routes;
    } else {
      assert RoutesSoFar(m) + routes == RoutesSoFar(m);
    }
  }

  /**
   * The route decorators never change which classes are registered, nor
   * their base path or middleware, so the server's precondition on the
   * registry survives them.
   */
  lemma AddRoutePreservesDeclared(entries: map<ControllerId, Metadata>, registry: seq<ControllerId>,
                                  target: ControllerId, route: ControllerRoute)
    requires Declared(entries, registry)
    ensures Declared(entries[target := AddRoute(Lookup(entries, target), route)], registry)
  {
  }

  /**
   * `getControllerRoutes`: defines an empty routes list on the class when it
   * has none, and gives back the class's routes.
   */
  method GetControllerRoutes(store: MetadataStore, controllerCtor: ControllerId) returns (routes: seq<ControllerRoute>)
    modifies store
    ensures store.entries == if old(store.HasRoutes(controllerCtor)) then old(store.entries)
                             else old(store.entries)[controllerCtor := old(store.Get(controllerCtor)).(routes := Some([]))]
    ensures store.HasRoutes(controllerCtor) && routes == store.Get(controllerCtor).routes.value
    ensures routes == RoutesSoFar(old(store.Get(controllerCtor)))
  {
    if !store.HasRoutes(controllerCtor) {
      store.DefineRoutes(controllerCtor, []);
    }
    routes := store.Get(controllerCtor).routes.value;
  }

  /**
   * The decorator that `methodDecoratorFactory(method)(path, middleware)`
   * returns, applied to the method `propertyKey` of the class `target`:
   * only that class's routes change, by the route `{method, path,
   * handlerName: propertyKey, middleware}` added at the end.
   */
  method DecorateRoute(store: MetadataStore, httpMethod: Method, path: string, middleware: seq<Middleware>,
                       target: ControllerId, propertyKey: string)
    modifies store
    ensures store.entries == old(store.entries)[target := AddRoute(old(store.Get(target)),
                                                  ControllerRoute(httpMethod, path, propertyKey, middleware))]
  {
    var _ := GetControllerRoutes(store, target);
    store.PushRoute(target, ControllerRoute(httpMethod, path, propertyKey, middleware));
  }

  /** `@Get(path, middleware = [])`. */
  method Get(store: MetadataStore, target: ControllerId, propertyKey: string, path: string,
             middleware: seq<Middleware> := [])
    modifies store
    ensures store.entries == old(store.entries)[target := AddRoute(old(store.Get(target)),
                                                  ControllerRoute(Method.Get, path, propertyKey, middleware))]
  {
    DecorateRoute(store, Method.Get, path, middleware, target, propertyKey);
  }

  /** `@Put(path, middleware = [])`. */
  method Put(store: MetadataStore, target: ControllerId, propertyKey: string, path: string,
             middleware: seq<Middleware> := [])
    modifies store
    ensures store.entries == old(store.entries)[target := AddRoute(old(store.Get(target)),
                                                  ControllerRoute(Method.Put, path, propertyKey, middleware))]
  {
    DecorateRoute(store, Method.Put, path, middleware, target, propertyKey);
  }

  /** `@Post(path, middleware = [])`. */
  method Post(store: MetadataStore, target: ControllerId, propertyKey: string, path: string,
              middleware: seq<Middleware> := [])
    modifies store
    ensures store.entries == old(store.entries)[target := AddRoute(old(store.Get(target)),
                                                  ControllerRoute(Method.Post, path, propertyKey, middleware))]
  {
    DecorateRoute(store, Method.Post, path, middleware, target, propertyKey);
  }

  /** `@Delete(path, middleware = [])`. */
  method Delete(store: MetadataStore, target: ControllerId, propertyKey: string, path: string,
                middleware: seq<Middleware> := [])
    modifies store
    ensures store.entries == old(store.entries)[target := AddRoute(old(store.Get(target)),
                                                  ControllerRoute(Method.Delete, path, propertyKey, middleware))]
  {
    DecorateRoute(store, Method.Delete, path, middleware, target, propertyKey);
  }
}

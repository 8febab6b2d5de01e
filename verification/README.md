# express-route-decorators, modelled in Dafny

This project models the core of a small decorator-driven routing framework
for express. Controller classes are marked with `@Controller(basePath,
...middleware)`. Their handler methods are marked with `@Get`, `@Put`,
`@Post` or `@Delete`, and `@Use(middleware)` can replace a controller's
middleware. These decorators write into a metadata store keyed by the
controller class, and `@Controller` appends the class to a static registry.
`ApiServer` reads the registry in order and mounts one express router per
controller. Each router holds the controller's routes, with the controller's
middleware followed by the route's own. Every handler is wrapped so that its
outcome becomes a JSON response. `FileDiscovery` walks a directory tree and
`require`s every file a matcher accepts, skipping `node_modules`.

Modules:

- `Wrappers`: Option and Result, shared by the others.
- `Model`: the route descriptor and the HTTP method enumeration.
- `Metadata`: the metadata store, a class over a map from controller to
  optional base path, middleware and routes. It stands for the
  reflect-metadata calls the decorators and the server make, not for a
  file of the repository.
- `Registry`: the registry class. `src/decorator/Controller.ts` and
  `src/core/ControllerRegistry.ts` hold two identical copies of it; the
  server uses the first.
- `Methods`, `ControllerDecorator`, `UseDecorator`: the decorators. Each is a
  method over the store (and, for `@Controller`, the registry), specified by
  a function on one controller's metadata.
- `Exceptions`: JavaScript values as far as a thrown error is inspected, plus
  the type guard.
- `Discovery`: the walk, as a function on a directory tree, and the
  `FileDiscovery` class whose recursive method appends to a load log.
- `Server`: route assembly, the response wrapper and the `ApiServer` class
  with its lifecycle state.

Behaviour of the code worth knowing:

- `start()` has no guard on the current state. Each call listens on a new
  server, and a second call leaves the first one open.
- Route assembly happens in the constructor, not in `start()`.
- The constructor builds a file discovery but never runs its walk.
- The registry does not enforce uniqueness. A class decorated twice is
  registered twice, so its routes are mounted twice.
- The route middleware is passed to the router after the wrapped handler.
  Nothing here claims that middleware runs before the handler.
- `stop()` before `start()` throws a TypeError, and the state stays TERMINATING.

Foreign collaborators become parameters:

- The injection container is a function `resolve` from class to instance.
- The file system is a tree value given to `FindFiles`.
- The file content matcher is a predicate on paths.
- The express application and its routers are the logs `mounts` and
  `listeners`.

## Model

| member | source | states |
|---|---|---|
| `Registry.ControllerRegistry.constructor` | src/core/ControllerRegistry.ts:2 | the registry starts empty |
| `Registry.ControllerRegistry.RegisterController` | src/decorator/Controller.ts:23-25 | the class is appended at the end; everything earlier is kept, and there is no membership check |
| `Registry.RegisterAppends` | src/core/ControllerRegistry.ts:4-6 | registering grows the registry by exactly one, puts the class last, keeps earlier entries in place, and adds one occurrence even if the class was already there |
| `Metadata.MetadataStore.Get` | src/core/ApiServer.ts:97-99 | a class with no stored entry reads as undefined for all three keys |
| `Metadata.MetadataStore.HasRoutes` | src/decorator/methods.ts:50 | routes metadata counts as defined exactly when the class has an entry whose routes list exists |
| `Metadata.MetadataStore.DefineBasePath` | src/decorator/Controller.ts:11 | only the base path of that class is overwritten |
| `Metadata.MetadataStore.DefineMiddleware` | src/decorator/Use.ts:10 | only the middleware of that class is overwritten |
| `Metadata.MetadataStore.DefineRoutes` | src/decorator/methods.ts:51 | only the routes of that class are overwritten |
| `Metadata.MetadataStore.PushRoute` | src/decorator/methods.ts:44 | a push on the returned array changes the stored list, adding the route at its end |
| `Methods.AddRoute` | src/decorator/methods.ts:39-45 | after a route decorator, the routes list exists and is the earlier list (or an empty one) plus exactly the new route at the end; earlier routes keep their order; base path and middleware do not change |
| `Methods.AddRoutesInOrder` | src/decorator/methods.ts:41-44 | decorating methods in some order leaves the existing routes followed by the new ones in that same order |
| `Methods.AddRoutePreservesDeclared` | src/decorator/methods.ts:39-45 | route decorators keep every registered class's base path and middleware defined |
| `Methods.GetControllerRoutes` | src/decorator/methods.ts:49-55 | an empty routes list is created only when the class has none; the routes so far are returned |
| `Methods.DecorateRoute` | src/decorator/methods.ts:37-47 | only the routes of `target.constructor` change, by `{method, path, handlerName: propertyKey, middleware}` at the end |
| `Methods.Get` | src/decorator/methods.ts:10 | fixes the method to get; middleware defaults to the empty list |
| `Methods.Put` | src/decorator/methods.ts:18 | fixes the method to put; middleware defaults to the empty list |
| `Methods.Post` | src/decorator/methods.ts:26 | fixes the method to post; middleware defaults to the empty list |
| `Methods.Delete` | src/decorator/methods.ts:34 | fixes the method to delete; middleware defaults to the empty list |
| `ControllerDecorator.Declare` | src/decorator/Controller.ts:11-12 | after `@Controller`, the base path and middleware are the given ones (the rest arguments, possibly empty) and the routes are untouched |
| `ControllerDecorator.DeclareLastWins` | src/decorator/Controller.ts:11-12 | re-declaring overwrites both fields: the last declaration wins |
| `ControllerDecorator.DeclarePreservesDeclared` | src/decorator/Controller.ts:9-17 | after `@Controller`, every registered class, the new one included, has base path and middleware defined |
| `ControllerDecorator.Controller` | src/decorator/Controller.ts:9-17 | the base path and middleware are overwritten, the routes are kept, and the class is appended to the registry |
| `ControllerDecorator.ControllerTwice` | src/decorator/Controller.ts:9-25 | applying `@Controller` twice appends the class twice to the registry and keeps the second declaration |
| `UseDecorator.WithMiddleware` | src/decorator/Use.ts:8-11 | after `@Use`, the middleware is the given list; base path and routes are unchanged |
| `UseDecorator.UseIdempotent` | src/decorator/Use.ts:10 | applying the same `@Use` twice equals applying it once |
| `UseDecorator.UseAndControllerLastWriterWins` | src/decorator/Use.ts:8-11 | between `@Use` and `@Controller`, whichever writes the middleware last wins; the base path comes from `@Controller` either way |
| `UseDecorator.UsePreservesDeclared` | src/decorator/Use.ts:8-12 | `@Use` keeps every registered class's base path and middleware defined |
| `UseDecorator.Use` | src/decorator/Use.ts:8-12 | only the middleware of the class changes; the registry is not touched |
| `Exceptions.IsGeneralException` | src/exception/GeneralException.ts:11-14 | false for every non-object; for objects, true exactly when `message` is a string and `statusCode` a number; throws for `null` |
| `Exceptions.NewGeneralException` | src/exception/GeneralException.ts:1-8 | the exception's message is the given one or the prototype's empty string; `statusCode` is the given number or undefined |
| `Exceptions.GeneralExceptionRecognised` | src/exception/GeneralException.ts:2-13 | a `GeneralException` is recognised exactly when it was built with a status code |
| `Discovery.Walk` | src/discovery/FileDiscovery.ts:22-36 | the ordered load list of `_findRec`: empty when the path's base name is ignored; every loaded path is accepted by the matcher and lies under the path |
| `Discovery.WalkChildren` | src/discovery/FileDiscovery.ts:34-35 | the children's load lists concatenated in listing order; every loaded path is accepted by the matcher and lies strictly below the directory |
| `Discovery.WalkIsFilteredListing` | src/discovery/FileDiscovery.ts:22-36 | the load list is the depth-first, listing-order list of regular files, kept when the matcher accepts them and no component from the root's name on is `node_modules`; the load count is the number of such files |
| `Discovery.LoadedIff` | src/discovery/FileDiscovery.ts:22-36 | a path is loaded exactly when it is such a file; every loaded path lies under the initial path |
| `Discovery.FileDiscovery.constructor` | src/discovery/FileDiscovery.ts:13-16 | construction stores the matcher and the root and loads nothing |
| `Discovery.FileDiscovery.FindFiles` | src/discovery/FileDiscovery.ts:18-20 | the walk starts at the initial path and appends its loads to the log |
| `Discovery.FileDiscovery.FindRec` | src/discovery/FileDiscovery.ts:22-36 | the recursive walk appends exactly the walk's load list, in order |
| `Server.SetupRoutes` | src/core/ApiServer.ts:108-114 | one router entry per route, in stored order, with the route's method and path, the handler bound to the instance, and the middleware `baseMiddleware ++ route.middleware` |
| `Server.Assemble` | src/core/ApiServer.ts:93-106 | assembly succeeds exactly when every registered class has a routes list; then router `i` belongs to registry entry `i`, under its base path; otherwise the error names the first class without routes |
| `Server.UsersExample` | src/core/ApiServer.ts:108-117 | a `/users` controller with middleware `[m1]` and route GET `/:id` with `[m2]` is mounted at `/users` with chain `[m1, m2]` |
| `Server.HandleRequest` | src/core/ApiServer.ts:65-79 | a returned value gives 200 with that value; a recognised exception gives its status and `{message}` only; any other thrown value gives 500 and the fixed message; a thrown `null` gives no response |
| `Server.UnexpectedErrorsLookAlike` | src/core/ApiServer.ts:74-76 | any two unrecognised errors get the same 500 response, so nothing of the error reaches the client |
| `Server.GeneralExceptionResponse` | src/core/ApiServer.ts:72-73 | a thrown `GeneralException(message, status)` is answered with that status and a body holding only the message |
| `Server.ApiServer.constructor` | src/core/ApiServer.ts:21-31 | the state goes through INITIALIZING to INITIALIZED; the routers are those of `Assemble`; nothing listens yet |
| `Server.ApiServer.DiscoverControllers` | src/core/ApiServer.ts:89-91 | a discovery of the working directory is built and has loaded nothing: its walk is never started |
| `Server.ApiServer.RegisterRoutes` | src/core/ApiServer.ts:93-106 | the loop mounts exactly `Assemble`'s routers, in registry order |
| `Server.ApiServer.SetupController` | src/core/ApiServer.ts:108-117 | the loop fills the router with `SetupRoutes` and mounts it once under the base path |
| `Server.ApiServer.Start` | src/core/ApiServer.ts:33-37 | from any state, goes through STARTING to RUNNING and listens on a new server |
| `Server.ApiServer.Stop` | src/core/ApiServer.ts:39-43 | goes through TERMINATING to TERMINATED, closing the held server; with no server, the close throws and the state stays TERMINATING |
| `Server.StartTwice` | src/core/ApiServer.ts:33-37 | two starts pass twice through STARTING to RUNNING and add two open listeners; `_server` holds the second; the routers are untouched |
| `Server.StartTwiceThenStop` | src/core/ApiServer.ts:33-43 | after two starts, `stop()` ends TERMINATED but closes only the second listener; the first stays open |

## Left out

- Express itself is not modelled: routing requests, `listen` and `close` on a socket, and `app.use` prefix matching. Mounting is a log of routers and listening is a log of listeners.
- typedi is not modelled. `Container.get` is the parameter `resolve`, and `Reflect.decorate([Service], constructor)` has no effect in the model.
- reflect-metadata is replaced by the explicit `MetadataStore`.
- `FileContentMatcher` (the file read and the regex search) is not part of this model; the matcher is a predicate on paths, consulted only on regular files.
- `lstat`, symbolic links, missing or unreadable paths, and the errors `fs` raises are not modelled. The tree given to `FindFiles` is what lies at the initial path.
- `require` executes a path only once (module cache), so a second `findFiles()` has no further effect there. The model's log records every `require` call. No `try` surrounds the `require`, so an exception thrown while a loaded file runs leaves the walk and stops it; the real load log is then only a prefix of the walk, while `FindFiles` always logs the whole walk. What the loaded files do when executed (applying decorators) is not modelled.
- async/await and JSON serialisation are not modelled. A serialisation failure, which the source would turn into a 500, cannot occur on the modelled values.
- Status codes outside what node accepts are handed to the transport as given; the transport's reaction is not modelled.
- `_initialize` and `_afterAppStart` do nothing by default and are not modelled. The `listen` callback is not modelled either.
- Handler names that are symbols are not modelled (property keys are strings). Looking up a handler method missing from the instance is not modelled.
- JavaScript numbers are modelled as integers.
- `Server.ApiServer.constructor`: requires every registered class to have a routes list. The source's constructor throws a TypeError there and yields no object. That failure is modelled by `Server.Assemble`, not by the constructor.
- `Metadata.MetadataStore.Get`: does not model inherited metadata. reflect-metadata's reads (`hasMetadata`, `getMetadata`) fall back along a class's prototype chain, while its writes define only the class's own metadata. So when a controller extends another decorated class, its route decorators push onto the base class's own routes array, and the server's reads of that class see the base class's values. The model gives every class only its own entry, so it covers neither the inherited reads nor that shared array.

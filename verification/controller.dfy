/**
 * The `@Controller(basePath, ...middleware)` class decorator: it defines the
 * class's base path and middleware, then registers the class.
 */
module ControllerDecorator {
  import opened Wrappers
  import opened Model
  import opened Metadata
  import opened Registry

  /**
   * The metadata after `@Controller(basePath, ...middleware)`: both fields
   * hold the given values, whatever they held before, and the routes are
   * untouched.
   */
  function Declare(m: Metadata, basePath: string, middleware: seq<Middleware>): (m': Metadata)
    ensures m'.basePath == Some(basePath) && m'.middleware == Some(middleware)
    ensures m'.routes == m.routes
  {
    Metadata(Some(basePath), Some(middleware), m.routes)
  }

  /** Declaring again overwrites both fields: the last declaration wins. */
  lemma DeclareLastWins(m: Metadata, basePath1: string, middleware1: seq<Middleware>,
                        basePath2: string, middleware2: seq<Middleware>)
    ensures Declare(Declare(m, basePath1, middleware1), basePath2, middleware2) == Declare(m, basePath2, middleware2)
  {
  }

  /**
   * Declaring and registering a class keeps every registered class declared,
   * the new one included.
   */
  lemma DeclarePreservesDeclared(entries: map<ControllerId, Metadata>, registry: seq<ControllerId>,
                                 target: ControllerId, basePath: string, middleware: seq<Middleware>)
    requires Declared(entries, registry)
    ensures Declared(entries[target := Declare(Lookup(entries, target), basePath, middleware)], registry + [target])
  {
  }

  /**
   * `@Controller(basePath, ...middleware)` applied to the class `target`: its
   * base path and middleware are overwritten, its routes are kept, and it is
   * appended to the registry even if it is already there.
   */
  method Controller(store: MetadataStore, registry: ControllerRegistry,
                    target: ControllerId, basePath: string, middleware: seq<Middleware>)
    modifies store, registry
    ensures store.entries == old(store.entries)[target := Declare(old(store.Get(target)), basePath, middleware)]
    ensures registry.controllers == old(registry.controllers) + [target]
  {
    store.DefineBasePath(target, basePath);
    store.DefineMiddleware(target, middleware);
    // Making the class injectable is not modelled; the server's `resolve` parameter stands for the container.
    registry.RegisterController(target);
  }

  /**
   * Applying `@Controller` twice to one class registers it twice, keeps the
   * second base path and middleware, and leaves its routes alone.
   */
  method ControllerTwice(store: MetadataStore, registry: ControllerRegistry, target: ControllerId,
                         basePath1: string, middleware1: seq<Middleware>,
                         basePath2: string, middleware2: seq<Middleware>)
    modifies store, registry
    ensures registry.controllers == old(registry.controllers) + [target, target]
    ensures Occurrences(registry.controllers, target) == Occurrences(old(registry.controllers), target) + 2
    ensures store.entries == old(store.entries)[target := Declare(old(store.Get(target)), basePath2, middleware2)]
  {
    Controller(store, registry, target, basePath1, middleware1);
    ghost var middle := registry.controllers;
    Controller(store, registry, target, basePath2, middleware2);
    RegisterAppends(old(registry.controllers), target);
    RegisterAppends(middle, target);
  }
}

/**
 * The `@Use(middleware)` class decorator: it overwrites the class's
 * middleware metadata and does nothing else.
 */
module UseDecorator {
  import opened Wrappers
  import opened Model
  import opened Metadata
  import ControllerDecorator

  /** The metadata after `@Use(middleware)`: only the middleware changes. */
  function WithMiddleware(m: Metadata, middleware: seq<Middleware>): (m': Metadata)
    ensures m'.middleware == Some(middleware)
    ensures m'.basePath == m.basePath && m'.routes == m.routes
  {
    m.(middleware := Some(middleware))
  }

  /** Applying the same `@Use` twice is the same as applying it once. */
  lemma UseIdempotent(m: Metadata, middleware: seq<Middleware>)
    ensures WithMiddleware(WithMiddleware(m, middleware), middleware) == WithMiddleware(m, middleware)
  {
  }

  /**
   * `@Use` after `@Controller` (TypeScript applies the decorator written
   * closer to the class first) replaces the controller's middleware and keeps
   * its base path; `@Controller` after `@Use` replaces the middleware `@Use`
   * set. Whichever runs last wins.
   */
  lemma UseAndControllerLastWriterWins(m: Metadata, basePath: string, declared: seq<Middleware>, used: seq<Middleware>)
    ensures WithMiddleware(ControllerDecorator.Declare(m, basePath, declared), used)
              == Metadata(Some(basePath), Some(used), m.routes)
    ensures ControllerDecorator.Declare(WithMiddleware(m, used), basePath, declared)
              == Metadata(Some(basePath), Some(declared), m.routes)
  {
  }

  /** `@Use` keeps every registered class declared. */
  lemma UsePreservesDeclared(entries: map<ControllerId, Metadata>, registry: seq<ControllerId>,
                             target: ControllerId, middleware: seq<Middleware>)
    requires Declared(entries, registry)
    ensures Declared(entries[target := WithMiddleware(Lookup(entries, target), middleware)], registry)
  {
  }

  /**
   * `@Use(middleware)` applied to the class `target`: its middleware
   * metadata becomes `middleware`; nothing else in the store changes, and the
   * registry is not involved.
   */
  method Use(store: MetadataStore, target: ControllerId, middleware: seq<Middleware>)
    modifies store
    ensures store.entries == old(store.entries)[target := WithMiddleware(old(store.Get(target)), middleware)]
  {
    store.DefineMiddleware(target, middleware);
  }
}

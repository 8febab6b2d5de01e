/**
 * The metadata store that the decorators write and the server reads. It
 * stands for reflect-metadata's per-constructor storage under the three keys
 * `basePath`, `middleware` and `routes`: a key that was never defined reads
 * as `undefined`, modelled as `None`. Each class has only its own entry:
 * reads that fall back to a base class's metadata, and a subclass's route
 * pushed onto the array its base class owns, are not modelled.
 */
module Metadata {
  import opened Wrappers
  import opened Model

  /** What is stored for one controller class under the three keys. */
  datatype Metadata = Metadata(
    basePath: Option<string>,
    middleware: Option<seq<Middleware>>,
    routes: Option<seq<ControllerRoute>>)

  /** The metadata of a class on which nothing was defined. */
  const Undefined := Metadata(None, None, None)

  /** Reads the metadata of `id`; a class without entries reads as `Undefined`. */
  function Lookup(entries: map<ControllerId, Metadata>, id: ControllerId): Metadata {
    if id in entries then entries[id] else Undefined
  }

  /**
   * Every registered controller has its base path and its middleware defined.
   * `@Controller` writes both before it registers the class, and no decorator
   * ever removes them, so every reachable store satisfies this.
   */
  ghost predicate Declared(entries: map<ControllerId, Metadata>, registry: seq<ControllerId>) {
    forall i :: 0 <= i < |registry| ==>
      Lookup(entries, registry[i]).basePath.Some? && Lookup(entries, registry[i]).middleware.Some?
  }

  /**
   * The store itself: a map from controller class to its metadata. Its
   * methods are the reflect-metadata calls the decorators make.
   */
  class MetadataStore {
    var entries: map<ControllerId, Metadata>

    /** A fresh store holds nothing. */
    constructor ()
      ensures entries == map[]
    {
      entries := map[];
    }

    /** All three keys of `target`, `undefined` where never defined. */
    function Get(target: ControllerId): (m: Metadata)
      reads this
      ensures target !in entries ==> m == Undefined
    {
      Lookup(entries, target)
    }

    /** Whether routes metadata is defined for the class. */
    predicate HasRoutes(target: ControllerId)
      reads this
      ensures HasRoutes(target) <==> target in entries && entries[target].routes.Some?
    {
      Get(target).routes.Some?
    }

    /** Defines the class's base-path metadata. */
    method DefineBasePath(target: ControllerId, basePath: string)
      modifies this
      ensures entries == old(entries)[target := old(Get(target)).(basePath := Some(basePath))]
    {
      entries := entries[target := Get(target).(basePath := Some(basePath))];
    }

    /** Defines the class's middleware metadata. */
    method DefineMiddleware(target: ControllerId, middleware: seq<Middleware>)
      modifies this
      ensures entries == old(entries)[target := old(Get(target)).(middleware := Some(middleware))]
    {
      entries := entries[target := Get(target).(middleware := Some(middleware))];
    }

    /** Defines the class's routes metadata. */
    method DefineRoutes(target: ControllerId, routes: seq<ControllerRoute>)
      modifies this
      ensures entries == old(entries)[target := old(Get(target)).(routes := Some(routes))]
    {
      entries := entries[target := Get(target).(routes := Some(routes))];
    }

    /**
     * Pushes a route onto the routes array read from the store. That array
     * is the stored one, so the push changes the stored list.
     */
    method PushRoute(target: ControllerId, route: ControllerRoute)
      requires HasRoutes(target)
      modifies this
      ensures entries == old(entries)[target := old(Get(target)).(routes := Some(old(Get(target)).routes.value + [route]))]
    {
      var m := Get(target);
      entries := entries[target := m.(routes := Some(m.routes.value + [route]))];
    }
  }
}

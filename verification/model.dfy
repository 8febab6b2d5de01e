/**
 * The record types shared by the decorators and the server: the HTTP method
 * enumeration, middleware, controller identities and the route descriptor
 * (src/model/ControllerRoute.ts).
 */
module Model {

  /** The four HTTP methods a route decorator can fix (`Method.get` ... `Method.delete`). */
  datatype Method = Get | Put | Post | Delete

  /** A middleware function, known to this model only by its name. */
  datatype Middleware = Middleware(name: string)

  /** The identity of a controller class (its constructor function). */
  type ControllerId = nat

  /**
   * One route declared on a controller: the HTTP method (`method` in the
   * source, a reserved word here), the path under the
   * controller's base path, the name of the handler method (the decorated
   * property key) and the middleware given to the route decorator.
   */
  datatype ControllerRoute = ControllerRoute(
    httpMethod: Method,
    path: string,
    handlerName: string,
    middleware: seq<Middleware>)
}

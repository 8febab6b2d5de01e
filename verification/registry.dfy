/**
 * The process-wide registry of controller classes: a static list that the
 * `@Controller` decorator appends to and the server reads in order.
 */
module Registry {
  import opened Model

  class ControllerRegistry {
    /** `ControllerRegistry.controllers`, in registration order. */
    var controllers: seq<ControllerId>

    /** The static list starts out empty. */
    constructor ()
      ensures controllers == []
    {
      controllers := [];
    }

    /**
     * Appends the controller at the end. No membership test is made, so a
     * controller registered twice occurs twice.
     */
    method RegisterController(controller: ControllerId)
      modifies this
      ensures controllers == old(controllers) + [controller]
    {
      controllers := controllers + [controller];
    }
  }

  /** How many times `id` occurs in the registry. */
  function Occurrences(controllers: seq<ControllerId>, id: ControllerId): (n: nat)
    ensures n <= |controllers|
    ensures n == 0 <==> id !in controllers
  {
    if controllers == [] then 0
    else Occurrences(controllers[..|controllers| - 1], id)
         + (if controllers[|controllers| - 1] == id then 1 else 0)
  }

  /**
   * Registering appends exactly one entry: the length grows by one, every
   * earlier entry keeps its position, the new one is last, and its number of
   * occurrences grows by one whether or not it was already there.
   */
  lemma RegisterAppends(controllers: seq<ControllerId>, id: ControllerId)
    ensures |controllers + [id]| == |controllers| + 1
    ensures (controllers + [id])[|controllers|] == id
    ensures forall i :: 0 <= i < |controllers| ==> (controllers + [id])[i] == controllers[i]
    ensures Occurrences(controllers + [id], id) == Occurrences(controllers, id) + 1
  {
  }
}

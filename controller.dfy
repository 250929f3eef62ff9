/**
 * The controller registry of package `controller`: the package-level slice
 * `Controllers`, the `Add` that appends to it, and `SetupRoutes`, which calls
 * `SetupRoutes()` on every registered controller. Controllers are opaque;
 * what each controller's own `SetupRoutes()` does is not modelled, only the
 * order of the calls, which `calls` records.
 */
module Controller {
  class Registry<C> {
    var controllers: seq<C>
    /** The controllers whose `SetupRoutes()` has been called, in call order. */
    var calls: seq<C>

    /** `var Controllers = []Controller{}`. */
    constructor ()
      ensures controllers == [] && calls == []
    {
      controllers, calls := [], [];
    }

    /** `Add`: append, with no duplicate check. */
    method Add(c: C)
      modifies this
      ensures controllers == old(controllers) + [c]
      ensures calls == old(calls)
    {
      controllers := controllers + [c];
    }

    /** `SetupRoutes`: one call per registered controller, in registration order. */
    method SetupRoutes()
      modifies this
      ensures calls == old(calls) + controllers
      ensures controllers == old(controllers)
    {
      for i := 0 to |controllers|
        invariant controllers == old(controllers)
        invariant calls == old(calls) + controllers[..i]
      {
        assert controllers[..i + 1] == controllers[..i] + [controllers[i]];
        calls := calls + [controllers[i]];
      }
      assert controllers[..|controllers|] == controllers;
    }
  }

  /** Registering the same controller twice keeps both entries. */
  method AddTwiceScenario<C>(c: C) returns (registered: seq<C>)
    ensures registered == [c, c]
  {
    var r := new Registry<C>();
    r.Add(c);
    r.Add(c);
    registered := r.controllers;
  }

  /**
   * Registering `a` then `b` and setting up routes calls `a` before `b`, each
   * once; a second `SetupRoutes` repeats the same calls, and the registry
   * itself stays as it was.
   */
  method SetupRoutesScenario<C>(a: C, b: C) returns (registered: seq<C>, calls: seq<C>)
    ensures registered == [a, b]
    ensures calls == [a, b, a, b]
  {
    var r := new Registry<C>();
    r.Add(a);
    r.Add(b);
    r.SetupRoutes();
    r.SetupRoutes();
    registered, calls := r.controllers, r.calls;
  }
}

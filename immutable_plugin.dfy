/** `ImmutablePlugin`: a plugin whose `Output` is `Void` and whose `Source` is
    `ImmutablePluginable`. It never writes a host field; its handler only
    changes the plugin's own state. */
module ImmutablePlugin {
  import opened Runtime

  /** A value conforming to `ImmutablePlugin`: its `Input` type, the object
      holding its own state, and its `handle(value:)`, which maps the input's
      content and that state to the new state and the error thrown, if any. */
  datatype AnyImmutablePlugin = AnyImmutablePlugin(input: TypeTag, instance: PluginObject, handler: Handler)

  /** The `keyPath` getter: always `\.immutable`, so whatever host it is
      applied to, reading through it gives `()`. */
  function KeyPathOf(p: AnyImmutablePlugin): (k: KeyPath)
    ensures k.ImmutableField? && forall fields: map<FieldId, int> :: ReadKeyPath(fields, k) == UnitPayload
  {
    ImmutableField
  }

  /** The `keyPath` setter: `set { }` ignores what it is given, so the
      plugin, its input, object and handler included, is left as it was. */
  function WithKeyPath(p: AnyImmutablePlugin, k: KeyPath): (q: AnyImmutablePlugin)
    ensures q == p
  {
    p
  }

  /** Assigning to `keyPath` leaves the plugin as it was, and it still names `immutable`. */
  lemma KeyPathIsFixed(p: AnyImmutablePlugin, k: KeyPath)
    ensures WithKeyPath(p, k) == p
    ensures KeyPathOf(WithKeyPath(p, k)) == ImmutableField
  {
  }

  /** The type-erased `handle(_:)`, as its effect on the plugin's own state
      `own`: a value that is not an `Input` changes nothing and throws
      nothing; an `Input` runs the user handler exactly once on the current
      state, and what it throws is passed on. */
  function Handled(p: AnyImmutablePlugin, v: Value, own: int): (e: Effect)
    ensures v.tag != p.input ==> e == Effect(own, None)
    ensures v.tag == p.input ==> e == p.handler(v.payload, own)
  {
    if v.tag != p.input then Effect(own, None) else p.handler(v.payload, own)
  }

  /** The `handle(value:output:)` adapter: forwards to the user's
      `handle(value:)`. The unit `output` is passed through untouched (it has
      no other value to take), so only the plugin's own object changes. */
  method HandleWithOutput(p: AnyImmutablePlugin, payload: int, output: ()) returns (thrown: Option<Error>)
    modifies p.instance
    ensures p.instance.state == p.handler(payload, old(p.instance.state)).written
    ensures thrown == p.handler(payload, old(p.instance.state)).thrown
  {
    var e := p.handler(payload, p.instance.state);
    p.instance.state := e.written;
    thrown := e.thrown;
  }

  /** The type-erased `handle(_:)`: return quietly unless the value is an
      `Input`, otherwise make a local `()` output and call the adapter once. */
  method Handle(p: AnyImmutablePlugin, v: Value) returns (thrown: Option<Error>)
    modifies p.instance
    ensures p.instance.state == Handled(p, v, old(p.instance.state)).written
    ensures thrown == Handled(p, v, old(p.instance.state)).thrown
  {
    if v.tag != p.input {
      return None;
    }
    var output: () := ();
    thrown := HandleWithOutput(p, v.payload, output);
  }
}

/** `Plugin`: a unit of work declaring an `Input` type it accepts, an `Output`
    type it rewrites, and a key path naming the host field of that type. */
module Plugin {
  import opened Runtime
  import opened ImmutablePlugin

  /** A value of type `any Plugin`. A `Keyed` plugin is an ordinary conformer
      with its `Source` class and key path; an `Immutable` one is an
      `ImmutablePlugin`, which the type-erased `handle` recognises by a cast. */
  datatype AnyPlugin =
    | Keyed(input: TypeTag, output: TypeTag, source: TypeTag, keyPath: KeyPath, handler: Handler)
    | Immutable(plugin: AnyImmutablePlugin)
  {
    function Input(): TypeTag
    {
      match this
      case Keyed(i, _, _, _, _) => i
      case Immutable(ip) => ip.input
    }

    function Output(): TypeTag
    {
      if Keyed? then output else Void
    }

    function Source(): TypeTag
    {
      if Keyed? then source else ImmutablePluginableTag
    }
  }

  /** `inputType`: the printed name of `Input`; `()` for a `Void` input. */
  function InputType(p: AnyPlugin): (name: string)
    ensures p.Input() == Void ==> name == "()"
  {
    TypeName(p.Input())
  }

  /** `outputType`: the printed name of `Output`; `()` for every immutable
      plugin, whose `Output` is `Void`. */
  function OutputType(p: AnyPlugin): (name: string)
    ensures p.Immutable? ==> name == "()"
  {
    TypeName(p.Output())
  }

  /** The type names depend on the declared types alone: two plugins with the
      same `Input` and `Output` report the same names, whatever else differs. */
  lemma TypeNamesFollowDeclaredTypes(p: AnyPlugin, q: AnyPlugin)
    requires p.Input() == q.Input() && p.Output() == q.Output()
    ensures InputType(p) == InputType(q) && OutputType(p) == OutputType(q)
  {
  }

  /** `isValid(value:)`: the value can be viewed as the plugin's `Input`;
      then its type prints as the plugin's `inputType`. */
  predicate IsValid(p: AnyPlugin, v: Value): (ok: bool)
    ensures ok ==> TypeName(v.tag) == InputType(p)
  {
    v.tag == p.Input()
  }

  /** `()` is valid exactly for the plugins whose `Input` is `Void`. */
  lemma UnitMatchesOnlyVoidInput(p: AnyPlugin)
    ensures IsValid(p, Unit) <==> p.Input() == Void
  {
  }

  /** What a dispatch may change: the host's stored fields and the states of
      the plugins' own objects. */
  datatype State = State(fields: map<FieldId, int>, owned: map<PluginObject, int>)

  /** The result of one type-erased `handle(_:source:)` call. */
  datatype Step = Step(state: State, thrown: Option<Error>)

  /** What Swift's types guarantee for a plugin held by a host of class
      `host` with field names `fieldKeys`: if that class is the plugin's
      `Source`, its key path names one of the host's fields. */
  predicate WellTyped(p: AnyPlugin, host: TypeTag, fieldKeys: set<FieldId>)
  {
    p.Keyed? && p.source == host && p.keyPath.Field? ==> p.keyPath.id in fieldKeys
  }

  /** What `p` needs to run against a host: it is well typed there, and an
      immutable plugin's object is among the objects whose state is known. */
  predicate Fits(p: AnyPlugin, host: TypeTag, fieldKeys: set<FieldId>, objects: set<PluginObject>)
  {
    WellTyped(p, host, fieldKeys) && (p.Immutable? ==> p.plugin.instance in objects)
  }

  /** The type-erased `handle(_:source:)` against a host of class `host`, as
      intended: an `ImmutablePlugin` is diverted to its own `handle(_:)`
      before the `Source` cast, so it runs on every host and writes no host
      field; any other plugin returns quietly unless the value is an `Input`
      and the host is a `Source`, and otherwise rewrites the one field its
      key path names with what its handler left there, passing the handler's
      error on. (Read literally, the diversion calls this same function
      again; see InvokeAsWritten.) */
  function Invoke(p: AnyPlugin, v: Value, host: TypeTag, s: State): (r: Step)
    requires Fits(p, host, s.fields.Keys, s.owned.Keys)
    ensures r.state.fields.Keys == s.fields.Keys && r.state.owned.Keys == s.owned.Keys
    ensures !IsValid(p, v) ==> r == Step(s, None)
    ensures p.Keyed? && host != p.source ==> r == Step(s, None)
    ensures p.Keyed? ==> r.state.owned == s.owned
    ensures p.Keyed? && IsValid(p, v) && host == p.source ==>
      var e := p.handler(v.payload, ReadKeyPath(s.fields, p.keyPath));
      r.thrown == e.thrown && r.state.fields == WriteKeyPath(s.fields, p.keyPath, e.written)
    ensures p.Immutable? ==> r.state.fields == s.fields
    ensures p.Immutable? ==>
      var e := Handled(p.plugin, v, s.owned[p.plugin.instance]);
      r.thrown == e.thrown && r.state.owned == s.owned[p.plugin.instance := e.written]
  {
    match p
    case Immutable(ip) =>
      var e := Handled(ip, v, s.owned[ip.instance]);
      Step(s.(owned := s.owned[ip.instance := e.written]), e.thrown)
    case Keyed(input, _, source, k, handler) =>
      if v.tag != input || host != source then Step(s, None)
      else
        var e := handler(v.payload, ReadKeyPath(s.fields, k));
        Step(s.(fields := WriteKeyPath(s.fields, k, e.written)), e.thrown)
  }

  /** An immutable plugin does the same whatever class the host has, its
      declared `Source` or any other. */
  lemma ImmutableIgnoresHostClass(p: AnyPlugin, v: Value, host: TypeTag, s: State)
    requires p.Immutable? && p.plugin.instance in s.owned
    ensures Invoke(p, v, host, s) == Invoke(p, v, p.Source(), s)
  {
  }

  /** `handle(_:source:)` as written: an `ImmutablePlugin` is cast to
      `any ImmutablePlugin` and sent to `handle(_:source:)` again, which is
      this same protocol-extension method, so the cast succeeds again. Each
      unit of `fuel` pays for one such call; `None` means the fuel ran out
      before the call returned. */
  function InvokeAsWritten(p: AnyPlugin, v: Value, host: TypeTag, s: State, fuel: nat): (r: Option<Step>)
    requires Fits(p, host, s.fields.Keys, s.owned.Keys)
    ensures p.Keyed? ==> r == Some(Invoke(p, v, host, s))
    decreases fuel
  {
    if p.Immutable? then
      if fuel == 0 then None else InvokeAsWritten(p, v, host, s, fuel - 1)
    else
      Some(Invoke(p, v, host, s))
  }

  /** However much fuel it is given, the as-written call for an immutable
      plugin never returns, so its handler is never reached. */
  lemma {:induction false} AsWrittenImmutableNeverReturns(p: AnyPlugin, v: Value, host: TypeTag, s: State, fuel: nat)
    requires p.Immutable? && p.plugin.instance in s.owned
    ensures InvokeAsWritten(p, v, host, s, fuel) == None
    decreases fuel
  {
    if fuel > 0 {
      AsWrittenImmutableNeverReturns(p, v, host, s, fuel - 1);
    }
  }
}

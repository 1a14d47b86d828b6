/** Stand-ins for the Swift machinery the plugin library leans on: runtime
    types and their printed names, values of type `Any`, thrown errors,
    writable key paths into a host, and the objects behind class-typed plugins. */
module Runtime {

  datatype Option<+T> = None | Some(value: T)

  /** The runtime type of a value or a class (`Input.self`, `Output.self`,
      the class of a host). Casts `x as? T` become equality of tags. */
  datatype TypeTag = Void | Named(name: string)

  /** The text `"\(T.self)"` that Swift prints for a type; `Void` prints as `()`. */
  function TypeName(t: TypeTag): string
  {
    match t
    case Void => "()"
    case Named(n) => n
  }

  /** The class that `ImmutablePlugin` names as its `Source`. */
  const ImmutablePluginableTag: TypeTag := Named("ImmutablePluginable")

  /** A value of static type `Any`: its runtime type and its content. */
  datatype Value = Value(tag: TypeTag, payload: int)

  /** The content of `()`, the only value of type `Void`. */
  const UnitPayload: int := 0

  /** The value `()` that `handle()` dispatches. */
  const Unit: Value := Value(Void, UnitPayload)

  /** An error thrown by a plugin's handler. */
  type Error = string

  /** What one run of a user handler leaves behind: the value it left in its
      `inout` output (Swift writes an `inout` back on return and on throw
      alike) and the error it threw, if any. */
  datatype Effect = Effect(written: int, thrown: Option<Error>)

  /** A user `handle` implementation, as a function of the input's content
      and of the current value of what it may change. */
  type Handler = (int, int) -> Effect

  type FieldId = string

  /** A `WritableKeyPath` into a host: one of its stored fields, or the
      `immutable` pseudo-property every `Pluginable` has. */
  datatype KeyPath = Field(id: FieldId) | ImmutableField

  /** `host[keyPath: k]` read: a field's value; `immutable` always reads `()`. */
  function ReadKeyPath(fields: map<FieldId, int>, k: KeyPath): (x: int)
    requires k.Field? ==> k.id in fields
    ensures k.ImmutableField? ==> x == UnitPayload
  {
    match k
    case Field(f) => fields[f]
    case ImmutableField => UnitPayload
  }

  /** `host[keyPath: k] = x`: a field takes the new value and no other field
      changes; a write to `immutable` changes nothing. */
  function WriteKeyPath(fields: map<FieldId, int>, k: KeyPath, x: int): (r: map<FieldId, int>)
    requires k.Field? ==> k.id in fields
    ensures r.Keys == fields.Keys
    ensures k.ImmutableField? ==> r == fields
    ensures k.Field? ==> r[k.id] == x
    ensures forall g :: g in fields && (k.ImmutableField? || g != k.id) ==> r[g] == fields[g]
  {
    match k
    case Field(f) => fields[f := x]
    case ImmutableField => fields
  }

  /** Reading a key path after writing through it gives back what was written,
      except for `immutable`, which stays `()`. */
  lemma ReadAfterWrite(fields: map<FieldId, int>, k: KeyPath, x: int)
    requires k.Field? ==> k.id in fields
    ensures ReadKeyPath(WriteKeyPath(fields, k, x), k) == if k.Field? then x else UnitPayload
  {
  }

  /** The object behind a class-typed plugin (such as a shared counter): its
      own stored state, which outlives any dispatch and is not the host's. */
  class PluginObject {
    var state: int

    constructor (state: int)
      ensures this.state == state
    {
      this.state := state;
    }
  }
}

/** `ImmutablePluginable`: the concrete host class that `ImmutablePlugin`
    names as its `Source`. Its only stored property is `plugins`. */
module ImmutablePluginable {
  import opened Runtime
  import opened Plugin
  import opened Pluginable

  /** `init(plugins:)`, with `plugins` defaulting to `[]`: a fresh host of
      class `ImmutablePluginable`, no fields of its own, and the given
      plugins stored unchanged and in order. A keyed plugin registered here
      can only name the `immutable` pseudo-property. */
  method New(plugins: seq<AnyPlugin> := []) returns (h: Host)
    requires forall i :: 0 <= i < |plugins| ==> WellTyped(plugins[i], ImmutablePluginableTag, {})
    ensures fresh(h) && h.Valid()
    ensures h.tag == ImmutablePluginableTag && h.fields == map[] && h.plugins == plugins
  {
    h := new Host(ImmutablePluginableTag, map[], plugins);
  }

  /** A host made with the default argument reports no plugin types, and a
      value sent to it is handled without error and changes nothing. */
  lemma DefaultHostIsEmpty(v: Value, s: State)
    ensures PluginInputTypes([]) == [] && PluginOutputTypes([]) == [] && PluginTypes([]) == []
    ensures Dispatch([], v, ImmutablePluginableTag, s) == Outcome(s, None, [])
  {
  }

  /** A client of the host, from its contracts alone: the default host is
      empty, and registering appends after what `init(plugins:)` stored. */
  method RegisterAfterInit(p: AnyPlugin, q: AnyPlugin) returns (empty: Host, h: Host)
    requires WellTyped(p, ImmutablePluginableTag, {}) && WellTyped(q, ImmutablePluginableTag, {})
    ensures empty.plugins == [] && empty.fields == map[]
    ensures h.plugins == [p, q] && h.fields == map[] && h.tag == ImmutablePluginableTag
  {
    empty := New();
    h := New([p]);
    h.Register(q);
  }
}

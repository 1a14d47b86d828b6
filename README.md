# Plugin — a verified model of the Swift plugin library

The library lets an object (a `Pluginable` host) keep an ordered list of
plugins and pass values through them. Each plugin declares the `Input` type
it accepts, the `Output` type it rewrites, the `Source` class it works on,
and a key path naming the host property of that `Output` type. A call to
`handle(value:)` does two things:

- It keeps the plugins whose `Input` the value can be cast to.
- It runs the kept plugins one after another, in registration order. Each
  plugin's handler rewrites the host property its key path names. The first
  error thrown ends the loop and is passed to the caller.

An `ImmutablePlugin` has `Output == Void` and `Source == ImmutablePluginable`.
Its key path is fixed to the `immutable` pseudo-property, so it never writes
a host property; its handler only changes the plugin's own state. The host
also reports the type names of its plugins (`pluginInputTypes`,
`pluginOutputTypes`, `pluginTypes`).

The model is split into modules that follow the source files:

- `Runtime` holds the Swift machinery the library leans on:
  - runtime types and their printed names;
  - values of type `Any`;
  - handlers as functions returning the `inout` value and an optional error;
  - key paths, with reads and writes through them;
  - class objects that hold a plugin's own state.
- `ImmutablePlugin` (`ImmutablePlugin.swift`): the fixed key path and the
  type-erased `handle(_:)`.
- `Plugin` (`Plugin.swift`): `any Plugin` values, `inputType`/`outputType`,
  `isValid(value:)`, and the type-erased `handle(_:source:)` (`Invoke`).
  The module also holds the literal reading of that call (`InvokeAsWritten`).
- `Pluginable` (`Pluginable.swift`) has two layers:
  - specification functions for introspection, the filter (`Eligible`) and
    the loop (`Run`, `Dispatch`);
  - the `Host` class. Its methods `Register`, `Handle` and `HandleUnit`
    update the host's fields and the plugin objects in place, and are proved
    against those functions.
- `ImmutablePluginable` (`ImmutablePluginable.swift`): the concrete host
  class and its initialiser.
- `Scenarios` restates the library's own test cases over the model.

Casts (`as? Input`, `as? Source`) are equality of runtime type tags. A host
property holds an `int`, and `()` is the payload `0`.

## Model

| member | source | states |
|---|---|---|
| Runtime.ReadKeyPath | Sources/Plugin/Pluginable.swift:33-35 | Reading through the `immutable` key path always yields `()`. |
| Runtime.WriteKeyPath | Sources/Plugin/Pluginable.swift:33-37 | Writing through a field's key path sets that field and no other, and leaves the key set unchanged. A write to `immutable` (`set { }`) changes nothing. |
| Runtime.ReadAfterWrite | Sources/Plugin/Pluginable.swift:33-37 | A read after a write through the same key path gives back the written value, except for `immutable`, which stays `()`. |
| ImmutablePlugin.KeyPathIsFixed | Sources/Plugin/ImmutablePlugin.swift:17-21 | Assigning to an immutable plugin's `keyPath` leaves the plugin unchanged, and its key path is still `\.immutable`. |
| ImmutablePlugin.KeyPathOf | Sources/Plugin/ImmutablePlugin.swift:18-19 | The `keyPath` getter names `\.immutable`, so reading through it on any host yields `()`. |
| ImmutablePlugin.WithKeyPath | Sources/Plugin/ImmutablePlugin.swift:18-20 | The `keyPath` setter `set { }` ignores its argument and leaves the plugin (input, object, handler) exactly as it was. |
| ImmutablePlugin.Handled | Sources/Plugin/ImmutablePlugin.swift:31-40 | A value that is not an `Input` leaves the plugin's state alone and throws nothing. An `Input` applies the user handler exactly once to the current state and passes its error on. |
| ImmutablePlugin.HandleWithOutput | Sources/Plugin/ImmutablePlugin.swift:23-25 | The `inout ()` adapter forwards to `handle(value:)`. The plugin's state becomes what the handler leaves, and the handler's error is returned. |
| ImmutablePlugin.Handle | Sources/Plugin/ImmutablePlugin.swift:30-40 | The new plugin state and the error returned are exactly those of `Handled` on the old state. |
| Plugin.TypeNamesFollowDeclaredTypes | Sources/Plugin/Plugin.swift:26-28 | `inputType` and `outputType` depend only on the declared `Input` and `Output` types. |
| Plugin.InputType | Sources/Plugin/Plugin.swift:27 | `inputType` prints `Input.self`, which is `()` when the input is `Void`. |
| Plugin.OutputType | Sources/Plugin/Plugin.swift:28 | `outputType` prints `Output.self`, which is `()` for every immutable plugin, since its `Output` is `Void` (ImmutablePlugin.swift:2). |
| Plugin.IsValid | Sources/Plugin/Plugin.swift:30-34 | `isValid(value:)` holds when the value casts to `Input`; then the value's type prints as the plugin's `inputType`. |
| Plugin.UnitMatchesOnlyVoidInput | Sources/Plugin/Plugin.swift:30-34 | `isValid(value: ())` holds exactly when the plugin's `Input` is `Void`, in both directions. |
| Plugin.Invoke | Sources/Plugin/Plugin.swift:36-50 | For a keyed plugin: it returns quietly, changing nothing, unless the value is an `Input` and the host is a `Source`. Otherwise it rewrites only the key-path field, with the handler's output, and passes the handler's error on. For an immutable plugin: it runs `ImmutablePlugin.Handled` on the plugin's own state and leaves the host's fields unchanged. It never adds or removes a field or an object. |
| Plugin.ImmutableIgnoresHostClass | Sources/Plugin/Plugin.swift:37-39 | An immutable plugin behaves the same on a host of any class, because it is diverted before the `Source` cast. |
| Plugin.InvokeAsWritten | Sources/Plugin/Plugin.swift:36-50 | The call as written, one fuel unit per nested call. For a keyed plugin it agrees with `Invoke`. |
| Plugin.AsWrittenImmutableNeverReturns | Sources/Plugin/Plugin.swift:37-38 | As written, the call for an immutable plugin re-enters itself on every level and never returns, whatever the fuel. |
| Pluginable.Zip | Sources/Plugin/Pluginable.swift:26-27 | Swift's `zip` has the length of the shorter input and pairs the elements at equal positions. |
| Pluginable.PluginInputTypes | Sources/Plugin/Pluginable.swift:22 | `pluginInputTypes` has one entry per registered plugin, in registration order, and entry `i` is plugin `i`'s `inputType`. |
| Pluginable.PluginOutputTypes | Sources/Plugin/Pluginable.swift:24 | `pluginOutputTypes` has one entry per registered plugin, in registration order, and entry `i` is plugin `i`'s `outputType`. |
| Pluginable.PluginTypes | Sources/Plugin/Pluginable.swift:26-31 | The two name lists have equal length, so the `zip` drops nothing: `pluginTypes` has one entry per plugin, and entry `i` is `"(input: …, output: …)"` built from plugin `i`'s own two names. |
| Pluginable.IntrospectionAfterRegister | Sources/Plugin/Pluginable.swift:21-42 | Registering a plugin appends exactly its entry to each introspection list. |
| Pluginable.ImmutableDescription | Sources/Plugin/Pluginable.swift:25-31 | An immutable plugin's `pluginTypes` entry names `()` as its output, and is `"(input: (), output: ())"` when its input is `Void`. |
| Pluginable.Eligible | Sources/Plugin/Pluginable.swift:46-49 | The filter yields registration positions below the bound. |
| Pluginable.EligibleExactly | Sources/Plugin/Pluginable.swift:46-49 | The filter keeps every plugin that accepts the value and no other. The kept positions are strictly increasing, so they are in registration order and each appears once. |
| Pluginable.EligibleAfterAppend | Sources/Plugin/Pluginable.swift:40-49 | Registering more plugins does not change which earlier plugins are kept. |
| Pluginable.ValidIndicesAfterRegister | Sources/Plugin/Pluginable.swift:40-49 | After `register(plugin:)`, the new plugin is kept last, and only if it accepts the value. |
| Pluginable.EligibleAll | Sources/Plugin/Pluginable.swift:46-49 | When every plugin accepts the value, all of them are kept, in order. |
| Pluginable.NoneEligible | Sources/Plugin/Pluginable.swift:46-49 | When no plugin accepts the value, none is kept. |
| Pluginable.ValidIndices | Sources/Plugin/Pluginable.swift:46-49 | The positions kept by the filter are in range, strictly increasing (registration order, no repeats), and each names a plugin that accepts the value. |
| Pluginable.ValidPlugins | Sources/Plugin/Pluginable.swift:46-49 | `plugins.filter { $0.isValid(value:) }`: entry `k` is the plugin at the `k`-th kept position, so the result is in registration order with duplicates kept; it keeps only plugins that accept the value, and every plugin that does. |
| Pluginable.Run | Sources/Plugin/Pluginable.swift:51-54 | Running the kept plugins never adds or removes a host field or a plugin object. |
| Pluginable.RunLogIsPrefix | Sources/Plugin/Pluginable.swift:51-54 | The plugins invoked are a prefix of those kept. It is all of them when nothing is thrown, and it is non-empty when something is. |
| Pluginable.RunStateComposesLog | Sources/Plugin/Pluginable.swift:51-54 | The final state is the composition of every invoked plugin's writes, including those of the plugin that threw. |
| Pluginable.RunStopsAtFirstError | Sources/Plugin/Pluginable.swift:51-54 | Every invoked plugin but the last returned normally. The last one's error, if any, is the error of the whole call. |
| Pluginable.Dispatch | Sources/Plugin/Pluginable.swift:45-55 | `handle(value:)` as a function: filter, then run the kept plugins from the old state. Only accepting plugins are invoked, in registration order, as a prefix of those kept; all of them unless one throws, and then at least that one. |
| Pluginable.DispatchWithoutMatch | Sources/Plugin/Pluginable.swift:45-55 | A value that no plugin accepts is handled without error and changes nothing. |
| Pluginable.RunAddsOneEach | Sources/Plugin/Pluginable.swift:51-54 | Running `k` plugins that each add one to a field raises it by `k`, throws nothing, and invokes them all. |
| Pluginable.DispatchAddsPluginCount | Sources/Plugin/Pluginable.swift:45-60 | With `k` registered plugins that each add one to a field, `handle()` raises that field by exactly `k` and changes nothing else. |
| Pluginable.Host.constructor | Sources/Plugin/Pluginable.swift:2-4 | A host of the given class, fields and plugins. |
| Pluginable.Host.Register | Sources/Plugin/Pluginable.swift:39-42 | `plugins` becomes the old list with the new plugin appended. The fields are unchanged, and the host stays valid. |
| Pluginable.Host.Apply | Sources/Plugin/Plugin.swift:36-50 | One type-erased call on this host changes the fields and the plugin objects exactly as `Invoke` says, and returns `Invoke`'s error. |
| Pluginable.Host.Handle | Sources/Plugin/Pluginable.swift:44-55 | The new fields and object states, the error returned, and the plugins invoked are exactly those of `Dispatch` on the old state. The plugin list is unchanged. |
| Pluginable.Host.HandleUnit | Sources/Plugin/Pluginable.swift:57-60 | `handle()` is `handle(value: ())`: the outcome is `Dispatch` of `()` on the old state. |
| ImmutablePluginable.New | Sources/Plugin/ImmutablePluginable.swift:1-7 | `init(plugins:)` makes a fresh, valid `ImmutablePluginable` host with no stored fields and the given plugins, unchanged and in order. |
| ImmutablePluginable.DefaultHostIsEmpty | Sources/Plugin/ImmutablePluginable.swift:5-7 | A host made with the default `[]` reports no plugin types, and a dispatch on it changes nothing and throws nothing. |
| ImmutablePluginable.RegisterAfterInit | Sources/Plugin/ImmutablePluginable.swift:5-7 | A host made with the default argument holds no plugins and no fields; one made with `[p]` and then given `register(plugin: q)` (Pluginable.swift:40-42) holds `[p, q]`, in that order. |
| Scenarios.ExampleTypes | Tests/PluginTests/PluginTests.swift:20-46 | The type lists are empty, then `["(input: (), output: Int)"]`, then two entries long. |
| Scenarios.ExampleCounts | Tests/PluginTests/PluginTests.swift:32-50 | `count` stays 0 on `"Woot"`, becomes 1 on `handle()`, and becomes 3 on `handle()` after a second plugin is registered. |
| Scenarios.CountPluginRunsOnce | Tests/PluginTests/PluginTests.swift:107-123 | The shared counting plugin reports `"(input: (), output: ())"`. It ignores `"Woot"`. On a host of any class, `handle()` runs it exactly once and leaves the host's fields alone. |
| Scenarios.CountRound | Tests/PluginTests/PluginTests.swift:36-50 | One `handle()` on a `MockService` holding only `ExamplePlugin`s raises `count` by the number of plugins, changes no other field, and throws nothing. |
| Scenarios.CounterExample | Tests/PluginTests/PluginTests.swift:20-50 | On a host object driven through `Register`, `Handle` and `HandleUnit`, `count` reads 0 after `"Woot"`, 1 after `handle()`, and 3 after a second registration and `handle()`; no call throws. |
| Scenarios.ImmutableExample | Tests/PluginTests/PluginTests.swift:107-123 | On a host object, the shared counter reads 0 after `"Woot"` and 1 after `handle()`; no call throws and the host's fields stay empty. |

## Left out

- `async`: the model is sequential. Suspension points do not change what one `handle(value:)` call computes, because each plugin is awaited before the next starts.
- Concurrency: other tasks touching the host or a plugin object during a dispatch are not modelled.
- Casting: casts to subclasses, protocols and existential types are not modelled. A value is an `Input` exactly when its runtime type is that type.
- Type names: `"\(T.self)"` is modelled as a name string fixed per type. Swift's rules for printing generic, nested or local types are not modelled.
- Host properties: each is modelled as one `int`. A key path names one of them or `immutable`. Key paths into nested properties, or to `plugins` itself, are not modelled.
- A keyed plugin's own state: plugins are modelled as values, and only an immutable plugin's object carries state.
- Handlers: a handler that registers plugins or starts another dispatch while running is not modelled. The kept list is fixed before the loop, as in the source.
- `Plugin.InvokeAsWritten`: the unbounded self-call is modelled with a fuel bound. `None` stands for "did not return within that many nested calls", not for a stack overflow.
- Pluginable.DispatchAddsPluginCount: host properties and plugin state are unbounded integers, so the test fixtures' `output += 1` and `count += 1` (PluginTests.swift:16, 103) never trap here; on Swift `Int` they trap at `Int.max`, and "raises by exactly k" (also in `Pluginable.RunAddsOneEach`) holds only below that bound.
- Package manifest and the `URLRequest` test case: these are not part of the library's logic.

## Findings

| source | as written | input that shows it | evidently intended | confidence | as-written member | corrected member |
|---|---|---|---|---|---|---|
| Sources/Plugin/Plugin.swift:37-38 | An `ImmutablePlugin` is cast to `any ImmutablePlugin` and `handle(value, source: &source)` is called on it. That name resolves to this same `Plugin` extension method, so the cast succeeds again and the call never returns. | Any `ImmutablePlugin` with a value of its `Input` type, e.g. the shared counting plugin with `()` (Tests/PluginTests/PluginTests.swift:121-123). | Call the plugin's own `handle(_:)` (ImmutablePlugin.swift:31-40), which runs its handler once and writes no host property. | medium; not executed | Plugin.InvokeAsWritten | Plugin.Invoke |

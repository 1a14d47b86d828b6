/** The library's own usage examples, restated over the model: a counter
    field driven by keyed plugins, and a shared counting immutable plugin. */
module Scenarios {
  import opened Runtime
  import opened ImmutablePlugin
  import opened Plugin
  import opened Pluginable

  const MockService: TypeTag := Named("MockService")
  const IntType: TypeTag := Named("Int")
  const StringType: TypeTag := Named("String")

  /** `"Woot"`: a value of type `String` (its content does not matter). */
  const Woot: Value := Value(StringType, 0)

  /** `ExamplePlugin(keyPath: \.count)`: on `()`, adds one to `count`. */
  function ExamplePlugin(): AnyPlugin
  {
    Keyed(Void, IntType, MockService, Field("count"), (payload: int, count: int) => Effect(count + 1, None))
  }

  /** A counting `ImmutablePlugin` whose count lives in `counter`. */
  function CountPlugin(counter: PluginObject): AnyPlugin
  {
    Immutable(AnyImmutablePlugin(Void, counter, (payload: int, count: int) => Effect(count + 1, None)))
  }

  /** The type lists: empty, then one `"(input: (), output: Int)"` entry, then two. */
  lemma ExampleTypes()
    ensures PluginTypes([]) == []
    ensures PluginTypes([ExamplePlugin()]) == ["(input: (), output: Int)"]
    ensures |PluginTypes([ExamplePlugin(), ExamplePlugin()])| == 2
  {
    assert InputType(ExamplePlugin()) == "()" && OutputType(ExamplePlugin()) == "Int";
    assert Describe("()", "Int") == "(input: (), output: Int)";
  }

  /** `count` stays 0 on `"Woot"`, becomes 1 on `handle()` with one plugin,
      and goes from 1 to 3 on `handle()` with two. */
  lemma ExampleCounts(fields: map<FieldId, int>, owned: map<PluginObject, int>)
    requires fields == map["count" := 0]
    ensures Dispatch([ExamplePlugin()], Woot, MockService, State(fields, owned)) == Outcome(State(fields, owned), None, [])
    ensures Dispatch([ExamplePlugin()], Unit, MockService, State(fields, owned)).thrown == None
    ensures Dispatch([ExamplePlugin()], Unit, MockService, State(fields, owned)).state.fields["count"] == 1
    ensures Dispatch([ExamplePlugin(), ExamplePlugin()], Unit, MockService, State(map["count" := 1], owned)).thrown == None
    ensures Dispatch([ExamplePlugin(), ExamplePlugin()], Unit, MockService, State(map["count" := 1], owned)).state.fields["count"] == 3
  {
    DispatchWithoutMatch([ExamplePlugin()], Woot, MockService, State(fields, owned));
    DispatchAddsPluginCount([ExamplePlugin()], MockService, "count", State(fields, owned));
    DispatchAddsPluginCount([ExamplePlugin(), ExamplePlugin()], MockService, "count", State(map["count" := 1], owned));
  }

  /** The immutable plugin reports `"(input: (), output: ())"`; on a host of
      another class it ignores `"Woot"`, and `handle()` runs it once, leaving
      the host's fields alone. */
  lemma CountPluginRunsOnce(counter: PluginObject, host: TypeTag, s: State)
    requires counter in s.owned
    ensures PluginTypes([CountPlugin(counter)]) == ["(input: (), output: ())"]
    ensures Dispatch([CountPlugin(counter)], Woot, host, s) == Outcome(s, None, [])
    ensures Dispatch([CountPlugin(counter)], Unit, host, s) ==
      Outcome(State(s.fields, s.owned[counter := s.owned[counter] + 1]), None, [0])
  {
    ImmutableDescription(CountPlugin(counter));
    DispatchWithoutMatch([CountPlugin(counter)], Woot, host, s);
    EligibleAll([CountPlugin(counter)], Unit, 1);
    assert ValidIndices([CountPlugin(counter)], Unit) == [0];
  }

  /** One `handle()` round on a `MockService` whose plugins are all
      `ExamplePlugin`s: `count` rises by the number of plugins and nothing
      throws. */
  method CountRound(service: Host) returns (thrown: Option<Error>)
    requires service.Valid() && service.tag == MockService && "count" in service.fields
    requires forall i :: 0 <= i < |service.plugins| ==> service.plugins[i] == ExamplePlugin()
    modifies service`fields
    ensures service.Valid()
    ensures service.fields == old(service.fields)["count" := old(service.fields)["count"] + |service.plugins|]
    ensures thrown == None
  {
    assert service.Objects() == {};
    DispatchAddsPluginCount(service.plugins, MockService, "count", service.Snapshot());
    ghost var log;
    thrown, log := service.HandleUnit();
  }

  /** The counter example on a host object, from the host's contracts alone:
      `counts` holds `count` after `"Woot"`, after `handle()` with one plugin,
      and after `handle()` with two; `clean` says no call threw. */
  method CounterExample() returns (counts: seq<int>, clean: bool)
    ensures counts == [0, 1, 3] && clean
  {
    var service := new Host(MockService, map["count" := 0], []);
    service.Register(ExamplePlugin());
    assert service.plugins == [ExamplePlugin()];
    assert service.Objects() == {};
    DispatchWithoutMatch(service.plugins, Woot, MockService, service.Snapshot());
    var thrown1, log := service.Handle(Woot);
    counts := [service.fields["count"]];
    var thrown2 := CountRound(service);
    counts := counts + [service.fields["count"]];
    service.Register(ExamplePlugin());
    assert service.plugins == [ExamplePlugin(), ExamplePlugin()];
    var thrown3 := CountRound(service);
    counts := counts + [service.fields["count"]];
    clean := thrown1 == None && thrown2 == None && thrown3 == None;
  }

  /** The shared counting plugin on a host of another class: `counts` holds
      the counter after `"Woot"` and after `handle()`; `clean` says no call
      threw and `untouched` that the host's fields stayed empty. */
  method ImmutableExample() returns (counts: seq<int>, clean: bool, untouched: bool)
    ensures counts == [0, 1] && clean && untouched
  {
    var counter := new PluginObject(0);
    var service := new Host(MockService, map[], []);
    service.Register(CountPlugin(counter));
    assert service.plugins == [CountPlugin(counter)];
    assert service.plugins[0].plugin.instance == counter;
    assert counter in service.Objects();
    CountPluginRunsOnce(counter, MockService, service.Snapshot());
    var thrown1, log := service.Handle(Woot);
    counts := [counter.state];
    ghost var before := service.Snapshot();
    assert before.owned[counter] == 0;
    CountPluginRunsOnce(counter, MockService, before);
    var thrown2, log2 := service.HandleUnit();
    assert service.Snapshot().owned[counter] == 1;
    counts := counts + [counter.state];
    clean := thrown1 == None && thrown2 == None;
    untouched := service.fields == map[];
  }
}

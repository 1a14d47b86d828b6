/** `Pluginable`: a host object that keeps an ordered list of plugins,
    reports their types, and dispatches values to them one after another. */
module Pluginable {
  import opened Runtime
  import opened ImmutablePlugin
  import opened Plugin

  // ---------------------------------------------------------------------
  // Introspection: `pluginInputTypes`, `pluginOutputTypes`, `pluginTypes`
  // ---------------------------------------------------------------------

  /** `plugins.map(\.inputType)`: one name per plugin, in registration order. */
  function PluginInputTypes(plugins: seq<AnyPlugin>): (names: seq<string>)
    ensures |names| == |plugins|
    ensures forall i :: 0 <= i < |plugins| ==> names[i] == InputType(plugins[i])
  {
    seq(|plugins|, i requires 0 <= i < |plugins| => InputType(plugins[i]))
  }

  /** `plugins.map(\.outputType)`: one name per plugin, in registration order. */
  function PluginOutputTypes(plugins: seq<AnyPlugin>): (names: seq<string>)
    ensures |names| == |plugins|
    ensures forall i :: 0 <= i < |plugins| ==> names[i] == OutputType(plugins[i])
  {
    seq(|plugins|, i requires 0 <= i < |plugins| => OutputType(plugins[i]))
  }

  /** Swift's `zip`: pairs up the elements at equal positions and stops at the
      end of the shorter sequence. */
  function Zip<A, B>(a: seq<A>, b: seq<B>): (r: seq<(A, B)>)
    ensures |r| == if |a| <= |b| then |a| else |b|
    ensures forall i :: 0 <= i < |r| ==> r[i] == (a[i], b[i])
  {
    if a == [] || b == [] then [] else [(a[0], b[0])] + Zip(a[1..], b[1..])
  }

  /** One entry of `pluginTypes`. */
  function Describe(inputType: string, outputType: string): string
  {
    "(input: " + inputType + ", output: " + outputType + ")"
  }

  /** `zip(pluginInputTypes, pluginOutputTypes).map { "(input: …, output: …)" }`:
      the two lists have equal length, so the zip loses nothing, and entry
      `i` describes plugin `i` by its own input and output names. */
  function PluginTypes(plugins: seq<AnyPlugin>): (entries: seq<string>)
    ensures |entries| == |plugins|
    ensures forall i :: 0 <= i < |plugins| ==> entries[i] == Describe(InputType(plugins[i]), OutputType(plugins[i]))
  {
    var z := Zip(PluginInputTypes(plugins), PluginOutputTypes(plugins));
    seq(|z|, i requires 0 <= i < |z| => Describe(z[i].0, z[i].1))
  }

  /** Registering a plugin adds exactly its entry at the end of each list. */
  lemma IntrospectionAfterRegister(plugins: seq<AnyPlugin>, p: AnyPlugin)
    ensures PluginInputTypes(plugins + [p]) == PluginInputTypes(plugins) + [InputType(p)]
    ensures PluginOutputTypes(plugins + [p]) == PluginOutputTypes(plugins) + [OutputType(p)]
    ensures PluginTypes(plugins + [p]) == PluginTypes(plugins) + [Describe(InputType(p), OutputType(p))]
  {
    assert (plugins + [p])[|plugins|] == p;
  }

  /** An immutable plugin's entry names `()` as its output type, and an
      immutable plugin driven by `handle()` shows `"(input: (), output: ())"`. */
  lemma ImmutableDescription(p: AnyPlugin)
    requires p.Immutable?
    ensures Describe(InputType(p), OutputType(p)) == "(input: " + InputType(p) + ", output: ())"
    ensures p.Input() == Void ==> Describe(InputType(p), OutputType(p)) == "(input: (), output: ())"
  {
  }

  // ---------------------------------------------------------------------
  // The filter of `handle(value:)`
  // ---------------------------------------------------------------------

  /** The positions, below `n`, of the plugins that accept `v`. */
  function Eligible(plugins: seq<AnyPlugin>, v: Value, n: nat): (r: seq<nat>)
    requires n <= |plugins|
    ensures forall k :: 0 <= k < |r| ==> r[k] < n
    decreases n
  {
    if n == 0 then []
    else Eligible(plugins, v, n - 1) + (if IsValid(plugins[n - 1], v) then [n - 1] else [])
  }

  /** The filter keeps exactly the plugins that accept the value, each once,
      in registration order. */
  lemma {:induction false} EligibleExactly(plugins: seq<AnyPlugin>, v: Value, n: nat)
    requires n <= |plugins|
    ensures forall k :: 0 <= k < |Eligible(plugins, v, n)| ==> IsValid(plugins[Eligible(plugins, v, n)[k]], v)
    ensures forall i :: 0 <= i < n && IsValid(plugins[i], v) ==> i in Eligible(plugins, v, n)
    ensures forall j, k :: 0 <= j < k < |Eligible(plugins, v, n)| ==> Eligible(plugins, v, n)[j] < Eligible(plugins, v, n)[k]
    decreases n
  {
    if n > 0 {
      EligibleExactly(plugins, v, n - 1);
    }
  }

  /** The registration positions of the plugins `handle(value:)` keeps: each
      position once, in order, and only those whose plugin accepts `v`
      (EligibleExactly adds that none of the others is left out). */
  function ValidIndices(plugins: seq<AnyPlugin>, v: Value): (idx: seq<nat>)
    ensures forall k :: 0 <= k < |idx| ==> idx[k] < |plugins| && IsValid(plugins[idx[k]], v)
    ensures forall j, k :: 0 <= j < k < |idx| ==> idx[j] < idx[k]
  {
    EligibleExactly(plugins, v, |plugins|);
    Eligible(plugins, v, |plugins|)
  }

  /** `plugins.filter { $0.isValid(value: v) }`: entry `k` is the plugin at
      the `k`-th kept position, so the kept plugins stay in registration order
      and a plugin registered twice is kept twice; every plugin kept accepts
      `v`, and every plugin that accepts `v` is kept. */
  function ValidPlugins(plugins: seq<AnyPlugin>, v: Value): (kept: seq<AnyPlugin>)
    ensures |kept| == |ValidIndices(plugins, v)|
    ensures forall k :: 0 <= k < |kept| ==> kept[k] == plugins[ValidIndices(plugins, v)[k]]
    ensures forall k :: 0 <= k < |kept| ==> IsValid(kept[k], v)
    ensures forall q :: q in plugins && IsValid(q, v) ==> q in kept
  {
    var idx := ValidIndices(plugins, v);
    EligibleExactly(plugins, v, |plugins|);
    var kept := seq(|idx|, k requires 0 <= k < |idx| => plugins[idx[k]]);
    assert forall i :: 0 <= i < |plugins| && IsValid(plugins[i], v) ==> plugins[i] in kept by {
      forall i | 0 <= i < |plugins| && IsValid(plugins[i], v)
        ensures plugins[i] in kept
      {
        var k :| 0 <= k < |idx| && idx[k] == i;
        assert kept[k] == plugins[i];
      }
    }
    kept
  }

  /** Positions below `n` are kept or dropped the same way once more plugins
      have been registered after them. */
  lemma {:induction false} EligibleAfterAppend(plugins: seq<AnyPlugin>, p: AnyPlugin, v: Value, n: nat)
    requires n <= |plugins|
    ensures Eligible(plugins + [p], v, n) == Eligible(plugins, v, n)
    decreases n
  {
    if n > 0 {
      EligibleAfterAppend(plugins, p, v, n - 1);
      assert (plugins + [p])[n - 1] == plugins[n - 1];
    }
  }

  /** A newly registered plugin is dispatched after all earlier ones, and
      only when it accepts the value; the earlier choices are unchanged. */
  lemma ValidIndicesAfterRegister(plugins: seq<AnyPlugin>, p: AnyPlugin, v: Value)
    ensures ValidIndices(plugins + [p], v) ==
      ValidIndices(plugins, v) + (if IsValid(p, v) then [|plugins|] else [])
  {
    EligibleAfterAppend(plugins, p, v, |plugins|);
    assert (plugins + [p])[|plugins|] == p;
  }

  /** When every plugin accepts the value, all of them are kept, in order. */
  lemma {:induction false} EligibleAll(plugins: seq<AnyPlugin>, v: Value, n: nat)
    requires n <= |plugins|
    requires forall i :: 0 <= i < n ==> IsValid(plugins[i], v)
    ensures |Eligible(plugins, v, n)| == n
    ensures forall k :: 0 <= k < n ==> Eligible(plugins, v, n)[k] == k
    decreases n
  {
    if n > 0 {
      EligibleAll(plugins, v, n - 1);
    }
  }

  /** When no plugin below `n` accepts the value, none is kept. */
  lemma {:induction false} NoneEligible(plugins: seq<AnyPlugin>, v: Value, n: nat)
    requires n <= |plugins|
    requires forall i :: 0 <= i < n ==> !IsValid(plugins[i], v)
    ensures Eligible(plugins, v, n) == []
    decreases n
  {
    if n > 0 {
      NoneEligible(plugins, v, n - 1);
    }
  }

  // ---------------------------------------------------------------------
  // The loop of `handle(value:)`
  // ---------------------------------------------------------------------

  /** The result of one dispatch: what the host and the plugin objects hold
      afterwards, the error it ends with, and which plugins were invoked (by
      registration position, in the order invoked). */
  datatype Outcome = Outcome(state: State, thrown: Option<Error>, log: seq<nat>)

  predicate InRange(plugins: seq<AnyPlugin>, order: seq<nat>)
  {
    forall k :: 0 <= k < |order| ==> order[k] < |plugins|
  }

  predicate AllFit(plugins: seq<AnyPlugin>, host: TypeTag, s: State)
  {
    forall i :: 0 <= i < |plugins| ==> Fits(plugins[i], host, s.fields.Keys, s.owned.Keys)
  }

  /** Invokes the plugins at the positions `order`, one after another, each
      on what the previous ones left; the first to throw ends the run. */
  function Run(plugins: seq<AnyPlugin>, order: seq<nat>, v: Value, host: TypeTag, s: State): (o: Outcome)
    requires InRange(plugins, order) && AllFit(plugins, host, s)
    ensures o.state.fields.Keys == s.fields.Keys && o.state.owned.Keys == s.owned.Keys
    decreases |order|
  {
    if order == [] then Outcome(s, None, [])
    else
      var e := Invoke(plugins[order[0]], v, host, s);
      if e.thrown.Some? then Outcome(e.state, e.thrown, [order[0]])
      else
        var o := Run(plugins, order[1..], v, host, e.state);
        Outcome(o.state, o.thrown, [order[0]] + o.log)
  }

  /** `handle(value:)` on a host of class `host` holding `plugins`: filter
      first, then run the kept plugins in registration order. Only plugins
      that accept `v` are invoked, in registration order; all of them unless
      one throws, and the call throws only if the last one invoked did. */
  function Dispatch(plugins: seq<AnyPlugin>, v: Value, host: TypeTag, s: State): (o: Outcome)
    requires AllFit(plugins, host, s)
    ensures forall k :: 0 <= k < |o.log| ==> o.log[k] < |plugins| && IsValid(plugins[o.log[k]], v)
    ensures forall j, k :: 0 <= j < k < |o.log| ==> o.log[j] < o.log[k]
    ensures |o.log| <= |ValidIndices(plugins, v)| && o.log == ValidIndices(plugins, v)[..|o.log|]
    ensures o.thrown.None? ==> o.log == ValidIndices(plugins, v)
    ensures o.thrown.Some? ==> o.log != []
  {
    RunLogIsPrefix(plugins, ValidIndices(plugins, v), v, host, s);
    Run(plugins, ValidIndices(plugins, v), v, host, s)
  }

  /** The state after invoking the plugins at `steps` one after another,
      whatever they throw. */
  function Compose(plugins: seq<AnyPlugin>, steps: seq<nat>, v: Value, host: TypeTag, s: State): (t: State)
    requires InRange(plugins, steps) && AllFit(plugins, host, s)
    ensures t.fields.Keys == s.fields.Keys && t.owned.Keys == s.owned.Keys
    decreases |steps|
  {
    if steps == [] then s
    else Compose(plugins, steps[1..], v, host, Invoke(plugins[steps[0]], v, host, s).state)
  }

  /** The `k`-th invocation along `steps`, on the state the earlier ones left. */
  function StepAt(plugins: seq<AnyPlugin>, steps: seq<nat>, k: nat, v: Value, host: TypeTag, s: State): Step
    requires InRange(plugins, steps) && AllFit(plugins, host, s) && k < |steps|
  {
    Invoke(plugins[steps[k]], v, host, Compose(plugins, steps[..k], v, host, s))
  }

  /** The plugins invoked are a prefix of those kept; all of them when
      nothing is thrown, and at least the thrower when something is. */
  lemma {:induction false} RunLogIsPrefix(plugins: seq<AnyPlugin>, order: seq<nat>, v: Value, host: TypeTag, s: State)
    requires InRange(plugins, order) && AllFit(plugins, host, s)
    ensures var o := Run(plugins, order, v, host, s);
      |o.log| <= |order| && o.log == order[..|o.log|] &&
      (o.thrown.None? ==> o.log == order) &&
      (o.thrown.Some? ==> o.log != [])
    decreases |order|
  {
    if order != [] {
      var e := Invoke(plugins[order[0]], v, host, s);
      if e.thrown.None? {
        RunLogIsPrefix(plugins, order[1..], v, host, e.state);
        var o := Run(plugins, order[1..], v, host, e.state);
        assert order == [order[0]] + order[1..];
        assert order[..|o.log| + 1] == [order[0]] + order[1..][..|o.log|];
      }
    }
  }

  /** Unfolds one invocation at the front of a composition. */
  lemma ComposeCons(plugins: seq<AnyPlugin>, a: nat, rest: seq<nat>, v: Value, host: TypeTag, s: State)
    requires a < |plugins| && InRange(plugins, rest) && AllFit(plugins, host, s)
    ensures InRange(plugins, [a] + rest)
    ensures Compose(plugins, [a] + rest, v, host, s) ==
      Compose(plugins, rest, v, host, Invoke(plugins[a], v, host, s).state)
  {
    assert ([a] + rest)[1..] == rest;
  }

  /** Every write of every invoked plugin persists, the thrower's included:
      the state a run ends in is the composition of its invocations. */
  lemma {:induction false} RunStateComposesLog(plugins: seq<AnyPlugin>, order: seq<nat>, v: Value, host: TypeTag, s: State)
    requires InRange(plugins, order) && AllFit(plugins, host, s)
    ensures InRange(plugins, Run(plugins, order, v, host, s).log)
    ensures Run(plugins, order, v, host, s).state == Compose(plugins, Run(plugins, order, v, host, s).log, v, host, s)
    decreases |order|
  {
    RunLogIsPrefix(plugins, order, v, host, s);
    if order != [] {
      var e := Invoke(plugins[order[0]], v, host, s);
      if e.thrown.Some? {
        ComposeCons(plugins, order[0], [], v, host, s);
        assert [order[0]] + [] == [order[0]];
      } else {
        RunStateComposesLog(plugins, order[1..], v, host, e.state);
        RunLogIsPrefix(plugins, order[1..], v, host, e.state);
        var o := Run(plugins, order[1..], v, host, e.state);
        ComposeCons(plugins, order[0], o.log, v, host, s);
      }
    }
  }

  /** Unfolds one invocation at the front of a step sequence. */
  lemma StepAtCons(plugins: seq<AnyPlugin>, a: nat, rest: seq<nat>, k: nat, v: Value, host: TypeTag, s: State)
    requires a < |plugins| && InRange(plugins, rest) && AllFit(plugins, host, s) && k < |rest|
    ensures InRange(plugins, [a] + rest)
    ensures StepAt(plugins, [a] + rest, k + 1, v, host, s) ==
      StepAt(plugins, rest, k, v, host, Invoke(plugins[a], v, host, s).state)
  {
    assert ([a] + rest)[..k + 1] == [a] + rest[..k];
    assert ([a] + rest)[k + 1] == rest[k];
    ComposeCons(plugins, a, rest[..k], v, host, s);
  }

  /** The first plugin to throw ends the run: each invoked plugin but the
      last returned normally, and the last one's error (if any) is the run's. */
  lemma {:induction false} RunStopsAtFirstError(plugins: seq<AnyPlugin>, order: seq<nat>, v: Value, host: TypeTag, s: State)
    requires InRange(plugins, order) && AllFit(plugins, host, s)
    ensures InRange(plugins, Run(plugins, order, v, host, s).log)
    ensures var o := Run(plugins, order, v, host, s);
      forall k :: 0 <= k < |o.log| ==>
        StepAt(plugins, o.log, k, v, host, s).thrown == if k == |o.log| - 1 then o.thrown else None
    decreases |order|
  {
    RunLogIsPrefix(plugins, order, v, host, s);
    if order != [] {
      var a := order[0];
      var e := Invoke(plugins[a], v, host, s);
      var o := Run(plugins, order, v, host, s);
      assert StepAt(plugins, o.log, 0, v, host, s) == e by {
        assert o.log[..0] == [];
      }
      if e.thrown.None? {
        RunStopsAtFirstError(plugins, order[1..], v, host, e.state);
        RunLogIsPrefix(plugins, order[1..], v, host, e.state);
        var o' := Run(plugins, order[1..], v, host, e.state);
        assert o.log == [a] + o'.log;
        forall k | 1 <= k < |o.log|
          ensures StepAt(plugins, o.log, k, v, host, s) == StepAt(plugins, o'.log, k - 1, v, host, e.state)
        {
          StepAtCons(plugins, a, o'.log, k - 1, v, host, s);
        }
      }
    }
  }

  /** A value no registered plugin accepts is handled without error, and
      nothing changes. */
  lemma DispatchWithoutMatch(plugins: seq<AnyPlugin>, v: Value, host: TypeTag, s: State)
    requires AllFit(plugins, host, s)
    requires forall i :: 0 <= i < |plugins| ==> !IsValid(plugins[i], v)
    ensures Dispatch(plugins, v, host, s) == Outcome(s, None, [])
  {
    NoneEligible(plugins, v, |plugins|);
  }

  /** A keyed plugin, with `Void` input and this host class as its `Source`,
      whose handler adds one to field `f` and never throws. */
  ghost predicate AddsOne(p: AnyPlugin, host: TypeTag, f: FieldId)
  {
    p.Keyed? && p.input == Void && p.source == host && p.keyPath == Field(f) &&
    forall payload: int, current: int :: p.handler(payload, current) == Effect(current + 1, None)
  }

  lemma {:induction false} RunAddsOneEach(plugins: seq<AnyPlugin>, order: seq<nat>, host: TypeTag, f: FieldId, s: State)
    requires InRange(plugins, order) && AllFit(plugins, host, s) && f in s.fields
    requires forall k :: 0 <= k < |order| ==> AddsOne(plugins[order[k]], host, f)
    ensures Run(plugins, order, Unit, host, s) == Outcome(State(s.fields[f := s.fields[f] + |order|], s.owned), None, order)
    decreases |order|
  {
    if order == [] {
      assert s.fields[f := s.fields[f]] == s.fields;
    } else {
      var p := plugins[order[0]];
      assert AddsOne(p, host, f);
      var e := Invoke(p, Unit, host, s);
      assert e.state == State(s.fields[f := s.fields[f] + 1], s.owned);
      RunAddsOneEach(plugins, order[1..], host, f, e.state);
      assert s.fields[f := s.fields[f] + 1][f := s.fields[f] + 1 + |order[1..]|] == s.fields[f := s.fields[f] + |order|];
      assert [order[0]] + order[1..] == order;
    }
  }

  /** With k registered plugins that each add one to the same field, one
      `handle()` raises that field by exactly k and changes nothing else. */
  lemma DispatchAddsPluginCount(plugins: seq<AnyPlugin>, host: TypeTag, f: FieldId, s: State)
    requires f in s.fields
    requires forall i :: 0 <= i < |plugins| ==> AddsOne(plugins[i], host, f)
    ensures AllFit(plugins, host, s)
    ensures Dispatch(plugins, Unit, host, s).thrown == None
    ensures Dispatch(plugins, Unit, host, s).state == State(s.fields[f := s.fields[f] + |plugins|], s.owned)
  {
    var order := ValidIndices(plugins, Unit);
    EligibleAll(plugins, Unit, |plugins|);
    assert |order| == |plugins|;
    assert AllFit(plugins, host, s) by {
      forall i | 0 <= i < |plugins|
        ensures Fits(plugins[i], host, s.fields.Keys, s.owned.Keys)
      {
        assert AddsOne(plugins[i], host, f);
      }
    }
    assert forall k :: 0 <= k < |order| ==> AddsOne(plugins[order[k]], host, f);
    RunAddsOneEach(plugins, order, host, f, s);
  }

  // ---------------------------------------------------------------------
  // The host object
  // ---------------------------------------------------------------------

  /** The objects of the immutable plugins in `plugins`. */
  function ObjectsOf(plugins: seq<AnyPlugin>): (r: set<PluginObject>)
    ensures forall i :: 0 <= i < |plugins| && plugins[i].Immutable? ==> plugins[i].plugin.instance in r
  {
    set i | 0 <= i < |plugins| && plugins[i].Immutable? :: plugins[i].plugin.instance
  }

  function InstanceOf(p: AnyPlugin): set<PluginObject>
  {
    if p.Immutable? then {p.plugin.instance} else {}
  }

  /** A `Pluginable` object: its class, its registered plugins and its stored
      fields (each key path a plugin can hold names one of them). */
  class Host {
    const tag: TypeTag
    var plugins: seq<AnyPlugin>
    var fields: map<FieldId, int>

    ghost predicate Valid()
      reads this
    {
      forall i :: 0 <= i < |plugins| ==> WellTyped(plugins[i], tag, fields.Keys)
    }

    function Objects(): set<PluginObject>
      reads this
    {
      ObjectsOf(plugins)
    }

    /** The fields of this host and the states of the objects `objs`. */
    function StateOf(objs: set<PluginObject>): (s: State)
      reads this, objs
      ensures s.fields == fields && s.owned.Keys == objs
      ensures forall o :: o in objs ==> s.owned[o] == o.state
    {
      State(fields, map o | o in objs :: o.state)
    }

    /** The fields of this host and the states of its plugins' objects. */
    function Snapshot(): (s: State)
      reads this, Objects()
      ensures s == StateOf(Objects())
      ensures Valid() ==> AllFit(plugins, tag, s)
    {
      StateOf(Objects())
    }

    /** A host of class `tag` with the given fields and plugins, in order. */
    constructor (tag: TypeTag, fields: map<FieldId, int>, plugins: seq<AnyPlugin>)
      requires forall i :: 0 <= i < |plugins| ==> WellTyped(plugins[i], tag, fields.Keys)
      ensures this.tag == tag && this.fields == fields && this.plugins == plugins
      ensures Valid()
    {
      this.tag := tag;
      this.fields := fields;
      this.plugins := plugins;
    }

    /** `register(plugin:)`: appends the plugin, duplicates included; the
      earlier entries and the fields stay as they were. */
    method Register(p: AnyPlugin)
      requires Valid() && WellTyped(p, tag, fields.Keys)
      modifies this`plugins
      ensures plugins == old(plugins) + [p]
      ensures fields == old(fields)
      ensures Valid()
    {
      plugins := plugins + [p];
    }

    /** `plugin.handle(value, source: &source)` with this host as the source,
      observed on the host's fields and the objects `objs`: exactly what
      Invoke describes. */
    method Apply(p: AnyPlugin, v: Value, ghost objs: set<PluginObject>) returns (thrown: Option<Error>)
      requires WellTyped(p, tag, fields.Keys) && InstanceOf(p) <= objs
      modifies this`fields, InstanceOf(p)
      ensures Fits(p, tag, old(fields).Keys, objs)
      ensures StateOf(objs) == Invoke(p, v, tag, old(StateOf(objs))).state
      ensures thrown == Invoke(p, v, tag, old(StateOf(objs))).thrown
    {
      ghost var s := StateOf(objs);
      match p
      case Immutable(ip) =>
        // Plugin.swift casts to `any ImmutablePlugin` and calls
        // `handle(_:source:)` again, which reads as a call to itself; what is
        // meant, and what the model does, is to run the plugin's `handle(_:)`.
        thrown := ImmutablePlugin.Handle(ip, v);
        assert StateOf(objs).owned == s.owned[ip.instance := ip.instance.state];
      case Keyed(input, _, source, k, handler) =>
        if v.tag != input || tag != source {
          return None;
        }
        var e := handler(v.payload, ReadKeyPath(fields, k));
        fields := WriteKeyPath(fields, k, e.written);
        thrown := e.thrown;
    }

    /** `handle(value:)`: keeps the plugins that accept `v` (fixed before the
      loop), runs them in registration order, and stops at the first error,
      which it returns; `log` lists the positions of the plugins invoked. */
    method Handle(v: Value) returns (thrown: Option<Error>, ghost log: seq<nat>)
      requires Valid()
      modifies this`fields, Objects()
      ensures plugins == old(plugins) && Valid()
      ensures var o := Dispatch(plugins, v, tag, old(Snapshot()));
        Snapshot() == o.state && thrown == o.thrown && log == o.log
    {
      ghost var s0 := Snapshot();
      ghost var objs := Objects();
      ghost var order := ValidIndices(plugins, v);
      var valid := ValidPlugins(plugins, v);
      var i := 0;
      while i < |valid|
        invariant 0 <= i <= |valid| == |order|
        invariant fields.Keys == s0.fields.Keys && Valid()
        invariant AllFit(plugins, tag, StateOf(objs))
        invariant Run(plugins, order, v, tag, s0) == Prefixed(order[..i], Run(plugins, order[i..], v, tag, StateOf(objs)))
      {
        var p := valid[i];
        assert p == plugins[order[i]];
        ghost var cur := StateOf(objs);
        RunAdvance(plugins, order, i, v, tag, s0, cur);
        var t := Apply(p, v, objs);
        if t.Some? {
          thrown := t;
          log := order[..i + 1];
          return;
        }
        i := i + 1;
      }
      assert order[i..] == [] && order[..i] == order;
      thrown := None;
      log := order;
    }

    /** `handle()`: the same as `handle(value: ())`. */
    method HandleUnit() returns (thrown: Option<Error>, ghost log: seq<nat>)
      requires Valid()
      modifies this`fields, Objects()
      ensures plugins == old(plugins) && Valid()
      ensures var o := Dispatch(plugins, Unit, tag, old(Snapshot()));
        Snapshot() == o.state && thrown == o.thrown && log == o.log
    {
      thrown, log := Handle(Unit);
    }
  }

  function Prefixed(pre: seq<nat>, o: Outcome): Outcome
  {
    Outcome(o.state, o.thrown, pre + o.log)
  }

  /** One turn of the dispatch loop: a run that has reached position `i` of
      `order` either ends with the invocation there, if it throws, or goes on
      from position `i + 1`. */
  lemma {:induction false} RunAdvance(plugins: seq<AnyPlugin>, order: seq<nat>, i: nat, v: Value, host: TypeTag, s0: State, cur: State)
    requires InRange(plugins, order) && AllFit(plugins, host, s0) && AllFit(plugins, host, cur) && i < |order|
    requires Run(plugins, order, v, host, s0) == Prefixed(order[..i], Run(plugins, order[i..], v, host, cur))
    ensures var e := Invoke(plugins[order[i]], v, host, cur);
      if e.thrown.Some? then Run(plugins, order, v, host, s0) == Outcome(e.state, e.thrown, order[..i + 1])
      else Run(plugins, order, v, host, s0) == Prefixed(order[..i + 1], Run(plugins, order[i + 1..], v, host, e.state))
  {
    assert order[i..][0] == order[i] && order[i..][1..] == order[i + 1..];
    RunUnfold(plugins, order[i..], v, host, cur);
    var e := Invoke(plugins[order[i]], v, host, cur);
    assert order[..i + 1] == order[..i] + [order[i]];
    if e.thrown.None? {
      var o := Run(plugins, order[i + 1..], v, host, e.state);
      assert order[..i] + ([order[i]] + o.log) == order[..i + 1] + o.log;
    }
  }

  /** One step of Run on a non-empty order. */
  lemma {:induction false} RunUnfold(plugins: seq<AnyPlugin>, order: seq<nat>, v: Value, host: TypeTag, s: State)
    requires InRange(plugins, order) && AllFit(plugins, host, s) && order != []
    ensures var e := Invoke(plugins[order[0]], v, host, s);
      Run(plugins, order, v, host, s) ==
        if e.thrown.Some? then Outcome(e.state, e.thrown, [order[0]])
        else Prefixed([order[0]], Run(plugins, order[1..], v, host, e.state))
  {
  }
}

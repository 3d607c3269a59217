/** The shared configuration slot and the registrar that fills it:
    `config_var`, `get_config`, `configure` and `use_config`. */
module Registrar {
  import opened Errors
  import opened Contexts

  /** The one ContextVar every feature's configuration lives in; features are
      kept apart only by running in different contexts. */
  const ConfigVar: Var := ContextVar("feature_config")

  /** The part of the application settings the core reads: persisted options
      per feature name and the list of features to install. */
  datatype Settings = Settings(features: map<string, Option<FieldMap>>, installFeatures: Option<seq<string>>)

  /** A configuration model class: its name and its constructor, which
      validates positional arguments and keyword fields or fails. */
  datatype Schema = Schema(name: string, construct: (seq<Field>, FieldMap) -> Result<Instance>)

  type Hook<!W> = Code<W>

  /** What `use_config(model, name=..., hooks=...)` fixes: the configure half
      of the pair it returns is `configure` with these three bound; the get
      half is `GetConfig` itself, the same for every binding. */
  datatype Binding<!W> = Binding(schema: Schema, name: string, hooks: seq<Hook<W>>)

  function UseConfig<W>(schema: Schema, name: string, hooks: seq<Hook<W>>): (b: Binding<W>)
    ensures b.schema == schema && b.name == name && b.hooks == hooks
  {
    Binding(schema, name, hooks)
  }

  /** `get_config()`: the slot's value in the given context, or LookupError. */
  function GetConfig(vars: Vars): (r: Result<Value>)
    ensures r.Err? <==> ConfigVar !in vars
    ensures r.Err? ==> r.error == LookupError("feature_config")
    ensures r.Ok? ==> r.value == vars[ConfigVar]
  {
    Lookup(vars, ConfigVar)
  }

  /** Python truthiness of `settings.features.get(name)`. */
  predicate HasDefaults(settings: Settings, name: string)
  {
    name in settings.features && settings.features[name].Some? && settings.features[name].value != map[]
  }

  /** The keyword fields of a first-time configure, read the way Python parses
      `settings.features.get(name) or {} | kwargs`, that is
      `get(name) or ({} | kwargs)`: the persisted options when they are
      present and non-empty, the explicit keywords otherwise, never both. */
  function FirstTimeFields(settings: Settings, name: string, kwargs: FieldMap): FieldMap
  {
    if HasDefaults(settings, name) then settings.features[name].value else map[] + kwargs
  }

  /** `model(*args, **fields)` lifted to a context value. */
  function Build(schema: Schema, args: seq<Field>, fields: FieldMap): Result<Value>
  {
    var r := schema.construct(args, fields);
    if r.Ok? then Ok(ModelValue(r.value)) else Err(r.error)
  }

  /** The value `configure` stores, given the variables of the current context:
      built from persisted defaults or keywords when the slot is unset; kept
      as it is on a re-configure without arguments; otherwise rebuilt from the
      previous value's dump overridden by the keywords. */
  function NewConfig(b: Binding, settings: Settings, args: seq<Field>, kwargs: FieldMap, vars: Vars): (r: Result<Value>)
    ensures ConfigVar in vars && args == [] && kwargs == map[] ==> r == Ok(vars[ConfigVar])
    ensures r.Ok? && !(ConfigVar in vars && args == [] && kwargs == map[]) ==> r.value.ModelValue?
    ensures ConfigVar in vars && (args != [] || kwargs != map[]) && !vars[ConfigVar].ModelValue? ==>
      r == Err(AttributeError("model_dump"))
    ensures r.Err? && ConfigVar in vars ==> args != [] || kwargs != map[]
  {
    match GetConfig(vars)
    case Err(_) => Build(b.schema, args, FirstTimeFields(settings, b.name, kwargs))
    case Ok(previous) =>
      if args == [] && kwargs == map[] then Ok(previous)
      else if previous.ModelValue? then Build(b.schema, args, previous.instance.fields + kwargs)
      else Err(AttributeError("model_dump"))
  }

  /** The state after running some hooks one after the other, and the
      exceptions they raised, in the order they were raised. */
  datatype HookRun<!W> = HookRun(vars: Vars, world: W, failures: seq<Exception>)

  /** The hook loop of `configure`: every hook runs once, in order, each one
      on the state the previous one left, whether or not that one raised. */
  function RunHooks<W>(hooks: seq<Hook<W>>, vars: Vars, w: W): (r: HookRun<W>)
    ensures |r.failures| <= |hooks|
  {
    if hooks == [] then HookRun(vars, w, [])
    else
      var p := RunHooks(hooks[..|hooks| - 1], vars, w);
      var s := hooks[|hooks| - 1](p.vars, p.world);
      HookRun(s.vars, s.world, p.failures + if s.raised.Some? then [s.raised.value] else [])
  }

  /** What one `configure(*args, **kwargs)` call does to the current context. */
  function ConfigureSpec<W>(b: Binding<W>, settings: Settings, args: seq<Field>, kwargs: FieldMap, vars: Vars, w: W): (s: Step<W>)
    ensures NewConfig(b, settings, args, kwargs, vars).Err? ==>
      s == Step(vars, w, Some(NewConfig(b, settings, args, kwargs, vars).error))
    ensures NewConfig(b, settings, args, kwargs, vars).Ok? && s.raised.Some? ==>
      && s.raised.value.ExceptionGroup? && s.raised.value.message == HookCallsFailed
      && 0 < |s.raised.value.exceptions| <= |b.hooks|
  {
    match NewConfig(b, settings, args, kwargs, vars)
    case Err(e) => Step(vars, w, Some(e))
    case Ok(v) =>
      var h := RunHooks(b.hooks, vars[ConfigVar := v], w);
      Step(h.vars, h.world, GroupOf(HookCallsFailed, h.failures))
  }

  /** `configure(model, name, hooks, *args, **kwargs)`, run in the current
      context of `rt`: compute the value, store it, then run every hook,
      collecting what they raise into one ExceptionGroup. */
  method Configure<W>(rt: Runtime, b: Binding<W>, settings: Settings, args: seq<Field>, kwargs: FieldMap, w: W)
    returns (raised: Option<Exception>, w': W)
    modifies rt.current
    ensures var s := ConfigureSpec(b, settings, args, kwargs, old(rt.current.vars), w);
      rt.current.vars == s.vars && w' == s.world && raised == s.raised
  {
    var config := NewConfig(b, settings, args, kwargs, rt.current.vars);
    if config.Err? {
      return Some(config.error), w;
    }
    rt.Set(ConfigVar, config.value);
    ghost var stored := rt.current.vars;
    var exceptions: seq<Exception> := [];
    var i := 0;
    w' := w;
    while i < |b.hooks|
      invariant 0 <= i <= |b.hooks|
      invariant RunHooks(b.hooks[..i], stored, w) == HookRun(rt.current.vars, w', exceptions)
    {
      assert b.hooks[..i + 1][..i] == b.hooks[..i];
      var s := b.hooks[i](rt.current.vars, w');
      rt.current.vars := s.vars;
      w' := s.world;
      if s.raised.Some? {
        exceptions := exceptions + [s.raised.value];
      }
      i := i + 1;
    }
    assert b.hooks[..i] == b.hooks;
    raised := GroupOf(HookCallsFailed, exceptions);
  }

  // ---------------------------------------------------------------------
  // Properties of configure

  /** First time in a context, the model receives the persisted options for
      the binding's name when they are present and non-empty (the keywords
      are then ignored), and the keywords otherwise. */
  lemma FirstTimeSource<W>(b: Binding<W>, settings: Settings, args: seq<Field>, kwargs: FieldMap, vars: Vars)
    requires ConfigVar !in vars
    ensures HasDefaults(settings, b.name) ==>
      NewConfig(b, settings, args, kwargs, vars) == Build(b.schema, args, settings.features[b.name].value)
    ensures !HasDefaults(settings, b.name) ==>
      NewConfig(b, settings, args, kwargs, vars) == Build(b.schema, args, kwargs)
  {
    assert map[] + kwargs == kwargs;
  }

  /** Re-configuring without arguments keeps the stored value, whatever it is
      and whatever the binding. */
  lemma ReconfigureWithoutArgumentsKeeps<W>(b: Binding<W>, settings: Settings, vars: Vars)
    requires ConfigVar in vars
    ensures NewConfig(b, settings, [], map[], vars) == Ok(vars[ConfigVar])
  {
  }

  /** Re-configuring with keywords hands the model the previous value's dump
      overridden key by key: the keywords win, every other dumped field is
      passed on unchanged, and nothing else is added. */
  lemma ReconfigureMerges<W>(b: Binding<W>, settings: Settings, args: seq<Field>, kwargs: FieldMap, vars: Vars, m: Instance)
    requires ConfigVar in vars && vars[ConfigVar] == ModelValue(m)
    requires args != [] || kwargs != map[]
    ensures NewConfig(b, settings, args, kwargs, vars) == Build(b.schema, args, m.fields + kwargs)
    ensures (m.fields + kwargs).Keys == m.fields.Keys + kwargs.Keys
    ensures forall k :: k in kwargs ==> (m.fields + kwargs)[k] == kwargs[k]
    ensures forall k :: k in m.fields && k !in kwargs ==> (m.fields + kwargs)[k] == m.fields[k]
  {
  }

  /** A failing construction raises before anything is stored and before any
      hook runs: the context and the world are left as they were. */
  lemma ConstructionFailureAborts<W>(b: Binding<W>, settings: Settings, args: seq<Field>, kwargs: FieldMap, vars: Vars, w: W)
    requires NewConfig(b, settings, args, kwargs, vars).Err?
    ensures ConfigureSpec(b, settings, args, kwargs, vars, w)
         == Step(vars, w, Some(NewConfig(b, settings, args, kwargs, vars).error))
  {
  }

  /** Each of the hooks, run on the state the hooks before it left, keeps
      whatever value the slot holds. */
  ghost predicate SlotKeptAlong<W>(hooks: seq<Hook<W>>, vars: Vars, w: W)
    decreases |hooks|
  {
    hooks != [] ==>
      var p := RunHooks(hooks[..|hooks| - 1], vars, w);
      var s := hooks[|hooks| - 1](p.vars, p.world);
      && SlotKeptAlong(hooks[..|hooks| - 1], vars, w)
      && (ConfigVar in p.vars ==> ConfigVar in s.vars && s.vars[ConfigVar] == p.vars[ConfigVar])
  }

  /** Running hooks that leave the slot alone keeps the stored value, even
      when some of them raise. */
  lemma {:induction false} RunHooksKeepsSlot<W>(hooks: seq<Hook<W>>, vars: Vars, w: W)
    requires ConfigVar in vars
    requires SlotKeptAlong(hooks, vars, w)
    ensures ConfigVar in RunHooks(hooks, vars, w).vars
    ensures RunHooks(hooks, vars, w).vars[ConfigVar] == vars[ConfigVar]
  {
    if hooks != [] {
      RunHooksKeepsSlot(hooks[..|hooks| - 1], vars, w);
    }
  }

  /** Once construction succeeds the value is stored before the first hook
      runs, and it is still there after the hooks, whether or not they raised
      an ExceptionGroup (for hooks that leave the slot alone). */
  lemma StoredValueRemains<W>(b: Binding<W>, settings: Settings, args: seq<Field>, kwargs: FieldMap, vars: Vars, w: W)
    requires NewConfig(b, settings, args, kwargs, vars).Ok?
    requires SlotKeptAlong(b.hooks, vars[ConfigVar := NewConfig(b, settings, args, kwargs, vars).value], w)
    ensures var s := ConfigureSpec(b, settings, args, kwargs, vars, w);
      ConfigVar in s.vars && s.vars[ConfigVar] == NewConfig(b, settings, args, kwargs, vars).value
  {
    var v := NewConfig(b, settings, args, kwargs, vars).value;
    RunHooksKeepsSlot(b.hooks, vars[ConfigVar := v], w);
  }

  /** The failures of a hook run are the failures of its first part followed
      by those of the rest, the rest starting from the state the first part
      left: a failing hook never stops a later one. */
  lemma {:induction false} RunHooksAppend<W>(first: seq<Hook<W>>, rest: seq<Hook<W>>, vars: Vars, w: W)
    ensures var p := RunHooks(first, vars, w);
      var q := RunHooks(rest, p.vars, p.world);
      RunHooks(first + rest, vars, w) == HookRun(q.vars, q.world, p.failures + q.failures)
  {
    if rest == [] {
      assert first + rest == first;
    } else {
      var init := rest[..|rest| - 1];
      RunHooksAppend(first, init, vars, w);
      assert (first + rest)[..|first + rest| - 1] == first + init;
      assert (first + rest)[|first + rest| - 1] == rest[|rest| - 1];
    }
  }

  /** The aggregate is raised exactly when some hook raised, and then holds
      every hook failure in order; otherwise configure returns normally. */
  lemma HookGroupIff<W>(b: Binding<W>, settings: Settings, args: seq<Field>, kwargs: FieldMap, vars: Vars, w: W)
    requires NewConfig(b, settings, args, kwargs, vars).Ok?
    ensures var v := NewConfig(b, settings, args, kwargs, vars).value;
      var h := RunHooks(b.hooks, vars[ConfigVar := v], w);
      var s := ConfigureSpec(b, settings, args, kwargs, vars, w);
      (s.raised.None? <==> h.failures == []) &&
      (s.raised.Some? ==> s.raised.value == ExceptionGroup(HookCallsFailed, h.failures))
  {
  }

  /** With two hooks of which only the first raises, the second still runs
      on the state the first left, and the group holds the first failure only. */
  lemma SecondHookStillRuns<W>(h1: Hook<W>, h2: Hook<W>, vars: Vars, w: W, e: Exception)
    requires h1(vars, w).raised == Some(e)
    requires h2(h1(vars, w).vars, h1(vars, w).world).raised.None?
    ensures var s1 := h1(vars, w);
      var s2 := h2(s1.vars, s1.world);
      RunHooks([h1, h2], vars, w) == HookRun(s2.vars, s2.world, [e])
  {
    var s1 := h1(vars, w);
    assert [h1, h2][..1] == [h1];
    assert [h1][..0] == [];
    assert RunHooks([h1], vars, w) == HookRun(s1.vars, s1.world, [e]);
  }

  /** Every binding reads and writes the same slot: once any value is stored
      in a context, a configure without arguments through another binding in
      that context keeps it, whatever that binding's model and persisted
      options. Isolation comes from contexts alone. */
  lemma SharedSlot<W>(b1: Binding<W>, b2: Binding<W>, settings: Settings, args: seq<Field>, kwargs: FieldMap, vars: Vars, w: W)
    requires NewConfig(b1, settings, args, kwargs, vars).Ok?
    requires SlotKeptAlong(b1.hooks, vars[ConfigVar := NewConfig(b1, settings, args, kwargs, vars).value], w)
    ensures var s := ConfigureSpec(b1, settings, args, kwargs, vars, w);
      NewConfig(b2, settings, [], map[], s.vars) == Ok(NewConfig(b1, settings, args, kwargs, vars).value)
  {
    StoredValueRemains(b1, settings, args, kwargs, vars, w);
  }
}

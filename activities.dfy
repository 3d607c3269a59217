/** The activities feature: a configuration model with two optional text
    fields, a hook that puts the configured Discord activity into the
    application's run arguments, and the `use_config` binding that ties the
    two to the plugin's name. */
module Activities {
  import opened Errors
  import opened Contexts
  import opened Registrar
  import opened Features
  import opened App

  /** The plugin's name, which is also the name its options are kept under. */
  const PluginName: string := "activities"
  const ModelName: string := "ActivityConfig"
  const NameField: string := "initial_activity_name"
  const StateField: string := "initial_activity_state"

  /** A value a `str | None` field accepts without coercion. */
  predicate OptionalText(f: Field)
  {
    f.NoneField? || f.Str?
  }

  /** The declared defaults of ActivityConfig. */
  function Defaults(): (d: FieldMap)
    ensures d.Keys == {NameField, StateField}
    ensures forall k | k in d :: d[k] == NoneField
  {
    map[NameField := NoneField, StateField := NoneField]
  }

  /** The fields ActivityConfig accepts: only its two declared ones, each
      text or None. */
  predicate Accepted(fields: FieldMap)
  {
    fields.Keys <= {NameField, StateField} && forall k | k in fields :: OptionalText(fields[k])
  }

  /** `ActivityConfig(*args, **fields)`: a settings model that forbids extra
      fields; the instance's dump has both fields, the given ones and the
      defaults for the rest. */
  function ConstructActivityConfig(args: seq<Field>, fields: FieldMap): (r: Result<Instance>)
    ensures r.Ok? <==> args == [] && Accepted(fields)
    ensures args != [] ==> r == Err(TypeError("positional arguments"))
    ensures args == [] && !Accepted(fields) ==> r == Err(ValidationError(ModelName))
    ensures r.Ok? ==>
      && r.value.model == ModelName
      && r.value.fields.Keys == {NameField, StateField}
      && (forall k | k in fields :: r.value.fields[k] == fields[k])
      && (forall k | k in r.value.fields && k !in fields :: r.value.fields[k] == NoneField)
  {
    if args != [] then Err(TypeError("positional arguments"))
    else if !Accepted(fields) then Err(ValidationError(ModelName))
    else Ok(Instance(ModelName, Defaults() + fields))
  }

  const ActivityConfigSchema: Schema := Schema(ModelName, ConstructActivityConfig)

  /** `update_run_args`: finds the application and the configuration in the
      current context and, when the configured name is non-empty, sets the
      "activity" run argument of that application. The activity is built
      before `app.run_args` is looked up. */
  function UpdateRunArgs(vars: Vars, w: World): (s: Step<World>)
    ensures s.vars == vars
  {
    match Lookup(vars, AppStateVar)
    case Err(e) => Step(vars, w, Some(e))
    case Ok(app) =>
      match GetConfig(vars)
      case Err(e) => Step(vars, w, Some(e))
      case Ok(config) =>
        if !config.ModelValue? || NameField !in config.instance.fields then
          Step(vars, w, Some(AttributeError(NameField)))
        else if !Truthy(config.instance.fields[NameField]) then
          Step(vars, w, None)
        else if StateField !in config.instance.fields then
          Step(vars, w, Some(AttributeError(StateField)))
        else if !app.Ref? || !(app.obj is AppState) then
          Step(vars, w, Some(AttributeError("run_args")))
        else
          var activity := Activity(config.instance.fields[NameField], config.instance.fields[StateField]);
          Step(vars, w[app.obj := RunArgsOf(w, app.obj)["activity" := ActivityArg(activity)]], None)
  }

  /** `configure, get_config = use_config(ActivityConfig, name=plugin.name,
      hooks=[update_run_args])`. */
  function ActivitiesBinding(): (b: Binding<World>)
    ensures b.schema == ActivityConfigSchema && b.name == PluginName
    ensures |b.hooks| == 1 && b.hooks[0] == UpdateRunArgs
  {
    UseConfig(ActivityConfigSchema, PluginName, [UpdateRunArgs])
  }

  /** The module's `get_config`, called as a routine: it raises exactly when
      the slot is unset and changes nothing. */
  function GetConfigRoutine(vars: Vars, w: World): (s: Step<World>)
    ensures s.vars == vars && s.world == w
    ensures s.raised.Some? <==> ConfigVar !in vars
  {
    var r := GetConfig(vars);
    Step(vars, w, if r.Err? then Some(r.error) else None)
  }

  /** `setup`: looks up the application and registers the plugin with its
      client; the registration itself is not modelled. */
  function Setup(vars: Vars, w: World): (s: Step<World>)
    ensures s.vars == vars && s.world == w
    ensures s.raised.None? <==> AppStateVar in vars && vars[AppStateVar].Ref? && vars[AppStateVar].obj is AppState
  {
    match Lookup(vars, AppStateVar)
    case Err(e) => Step(vars, w, Some(e))
    case Ok(app) =>
      if app.Ref? && app.obj is AppState then Step(vars, w, None)
      else Step(vars, w, Some(AttributeError("client")))
  }

  /** The routines the imported module exposes; it has no `teardown`. */
  function ActivitiesModule(): (m: Module<World>)
    ensures "teardown" !in m && "configure" in m && "setup" in m
    ensures m["configure"] == Some(BoundConfigure(ActivitiesBinding()))
    ensures m["setup"] == Some(Code(Setup))
  {
    map[
      "configure" := Some(BoundConfigure(ActivitiesBinding())),
      "get_config" := Some(Code(GetConfigRoutine)),
      "setup" := Some(Code(Setup)),
      "update_run_args" := Some(Code(UpdateRunArgs))
    ]
  }

  // ---------------------------------------------------------------------
  // Properties of the activities feature

  /** The dump of a constructed configuration constructs it again. */
  lemma DumpRoundTrip(args: seq<Field>, fields: FieldMap)
    requires ConstructActivityConfig(args, fields).Ok?
    ensures var i := ConstructActivityConfig(args, fields).value;
      ConstructActivityConfig([], i.fields) == Ok(i)
  {
    var i := ConstructActivityConfig(args, fields).value;
    assert Accepted(i.fields);
    assert Defaults() + i.fields == i.fields;
  }

  /** A configuration built from nothing has both fields None. */
  lemma DefaultsAreNone()
    ensures ConstructActivityConfig([], map[]) == Ok(Instance(ModelName, map[NameField := NoneField, StateField := NoneField]))
  {
    assert Defaults() + map[] == Defaults();
  }

  /** When the hook finds an application and a full configuration whose name
      is non-empty, that application's "activity" becomes the configured
      name and state; every other run argument, and every other
      application's run arguments, stay as they were. */
  lemma HookSetsActivity(vars: Vars, w: World, app: AppState, m: Instance)
    requires AppStateVar in vars && vars[AppStateVar] == Ref(app)
    requires ConfigVar in vars && vars[ConfigVar] == ModelValue(m)
    requires NameField in m.fields && StateField in m.fields && Truthy(m.fields[NameField])
    ensures var s := UpdateRunArgs(vars, w);
      && s.raised.None?
      && RunArgsOf(s.world, app)["activity"] == ActivityArg(Activity(m.fields[NameField], m.fields[StateField]))
      && (forall k | k in RunArgsOf(w, app) && k != "activity" :: k in RunArgsOf(s.world, app) && RunArgsOf(s.world, app)[k] == RunArgsOf(w, app)[k])
      && RunArgsOf(s.world, app).Keys == RunArgsOf(w, app).Keys + {"activity"}
      && (forall o | o != app :: RunArgsOf(s.world, o) == RunArgsOf(w, o))
  {
  }

  /** With the name None or empty the hook returns normally and changes
      nothing. */
  lemma EmptyNameChangesNothing(vars: Vars, w: World, m: Instance)
    requires AppStateVar in vars
    requires ConfigVar in vars && vars[ConfigVar] == ModelValue(m)
    requires NameField in m.fields && !Truthy(m.fields[NameField])
    ensures UpdateRunArgs(vars, w) == Step(vars, w, None)
  {
  }

  /** The hook never changes the context, and whatever it does to the world
      concerns the "activity" key of the application in the context alone. */
  lemma HookWritesOnlyActivity(vars: Vars, w: World)
    ensures var s := UpdateRunArgs(vars, w);
      && s.vars == vars
      && (s.world != w ==>
            && s.raised.None? && AppStateVar in vars && vars[AppStateVar].Ref?
            && var app := vars[AppStateVar].obj;
            && (forall o | o != app :: RunArgsOf(s.world, o) == RunArgsOf(w, o))
            && (forall k | k != "activity" :: (k in RunArgsOf(s.world, app) <==> k in RunArgsOf(w, app)))
            && (forall k | k != "activity" && k in RunArgsOf(w, app) :: RunArgsOf(s.world, app)[k] == RunArgsOf(w, app)[k]))
  {
  }

  /** Every successful construction in `configure` is followed by exactly one
      run of `update_run_args`, on the context holding the new value; a
      failure of the hook is raised wrapped in a group of one. */
  lemma {:induction false} ConfigureRunsHookOnce(settings: Settings, args: seq<Field>, kwargs: FieldMap, vars: Vars, w: World)
    requires NewConfig(ActivitiesBinding(), settings, args, kwargs, vars).Ok?
    ensures var v := NewConfig(ActivitiesBinding(), settings, args, kwargs, vars).value;
      var h := UpdateRunArgs(vars[ConfigVar := v], w);
      ConfigureSpec(ActivitiesBinding(), settings, args, kwargs, vars, w)
        == Step(h.vars, h.world, if h.raised.Some? then Some(ExceptionGroup(HookCallsFailed, [h.raised.value])) else None)
  {
    var b := ActivitiesBinding();
    var v := NewConfig(b, settings, args, kwargs, vars).value;
    var h := UpdateRunArgs(vars[ConfigVar := v], w);
    assert b.hooks[..0] == [];
    assert RunHooks(b.hooks[..0], vars[ConfigVar := v], w) == HookRun(vars[ConfigVar := v], w, []);
    var failures: seq<Exception> := if h.raised.Some? then [h.raised.value] else [];
    assert [] + failures == failures;
    assert RunHooks(b.hooks, vars[ConfigVar := v], w) == HookRun(h.vars, h.world, failures);
    assert ConfigureSpec(b, settings, args, kwargs, vars, w) == Step(h.vars, h.world, GroupOf(HookCallsFailed, failures));
  }

  /** First configure in a context holding the application, with persisted
      options the model accepts: the slot gets the options completed by the
      defaults, nothing is raised, and the activity is set exactly when the
      persisted name is non-empty. */
  lemma FirstConfigure(settings: Settings, vars: Vars, w: World, app: AppState)
    requires ConfigVar !in vars && AppStateVar in vars && vars[AppStateVar] == Ref(app)
    requires HasDefaults(settings, PluginName) && Accepted(settings.features[PluginName].value)
    ensures var fields := Defaults() + settings.features[PluginName].value;
      var s := ConfigureSpec(ActivitiesBinding(), settings, [], map[], vars, w);
      && s.raised.None?
      && s.vars == vars[ConfigVar := ModelValue(Instance(ModelName, fields))]
      && s.world == if Truthy(fields[NameField])
         then w[app := RunArgsOf(w, app)["activity" := ActivityArg(Activity(fields[NameField], fields[StateField]))]]
         else w
  {
    ConfigureRunsHookOnce(settings, [], map[], vars, w);
  }

  /** Calling "configure" on a not yet imported activities feature imports
      the package and runs its bound `configure` without arguments on the
      feature's variables. */
  lemma ConfigureCall(settings: Settings, library: map<string, Module<World>>, vars: Vars, required: bool, warnOnMissing: bool, w: World)
    requires PluginName in library && library[PluginName] == ActivitiesModule()
    ensures var c := ConfigureSpec(ActivitiesBinding(), settings, [], map[], vars, w);
      CallSpec(FeatureState(PluginName, vars, None), Environment(settings, library), "configure", required, warnOnMissing, w)
        == CallOutcome(c.raised, FeatureState(PluginName, c.vars, Some(ActivitiesModule())), c.world, false)
  {
    assert Resolve(None, PluginName, library) == Ok(ActivitiesModule());
    assert Attribute(ActivitiesModule(), "configure") == Some(BoundConfigure(ActivitiesBinding()));
  }

  /** The full "configure" pass of an application whose only installed
      feature is this one, with the persisted name "Coding": the pass returns
      normally without warnings and the application will start with that
      activity and no state. */
  lemma CodingScenario(app: AppState, vars: Vars, w: World)
    requires ConfigVar !in vars && AppStateVar in vars && vars[AppStateVar] == Ref(app)
    ensures var settings := Settings(map[PluginName := Some(map[NameField := Str("Coding")])], Some([PluginName]));
      var env := Environment(settings, map[PluginName := ActivitiesModule()]);
      var p := PassSpec(InitialStates(InstallList(settings), vars), env, "configure", false, true, w);
      && Aggregate("configure", FailuresOf(p.calls)).None?
      && p.warnings == []
      && RunArgsOf(p.world, app) == RunArgsOf(w, app)["activity" := ActivityArg(Activity(Str("Coding"), NoneField))]
  {
    var settings := Settings(map[PluginName := Some(map[NameField := Str("Coding")])], Some([PluginName]));
    var env := Environment(settings, map[PluginName := ActivitiesModule()]);
    var states: seq<FeatureState<World>> := InitialStates(InstallList(settings), vars);
    assert states == [FeatureState(PluginName, vars, None)];
    var fields := Defaults() + map[NameField := Str("Coding")];
    assert fields[NameField] == Str("Coding") && fields[StateField] == NoneField;
    FirstConfigure(settings, vars, w, app);
    ConfigureCall(settings, env.library, vars, false, true, w);
    var c := ConfigureSpec(ActivitiesBinding(), settings, [], map[], vars, w);
    var o := CallSpec(states[0], env, "configure", false, true, w);
    assert o.raised.None? && o.world == c.world && !o.warned;
    assert states[..|states| - 1] == [];
    assert PassSpec(states[..|states| - 1], env, "configure", false, true, w) == PassOutcome([], w, [], []);
    var p := PassSpec(states, env, "configure", false, true, w);
    assert p == Extend(PassOutcome([], w, [], []), states[0], env, "configure", false, true);
    assert p.calls == [(PluginName, None)];
    assert FailuresOf(p.calls) == [];
  }

  /** The package has no teardown routine: the "teardown" pass calls nothing
      on it, returns normally and records one warning. */
  lemma TeardownWarns(vars: Vars, w: World, settings: Settings)
    ensures var s := FeatureState(PluginName, vars, Some(ActivitiesModule()));
      var o := CallSpec(s, Environment(settings, map[]), "teardown", false, true, w);
      o == CallOutcome(None, s, w, true)
  {
  }
}

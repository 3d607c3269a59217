/** The application state: the settings, a snapshot of the context it was
    created in, the lazily built feature set with one context copy per
    installed feature, and the lifecycle passes over that set. */
module App {
  import opened Errors
  import opened Contexts
  import opened Registrar
  import opened Features

  /** The ContextVar through which code finds the running application. */
  const AppStateVar: Var := ContextVar("app_state")

  /** The Discord activity shown once the bot is up, field values as the
      configuration gave them. */
  datatype Activity = Activity(name: Field, state: Field)

  datatype RunArg = ActivityArg(activity: Activity) | OtherArg(payload: Field)

  /** The keyword arguments the bot is started with. */
  type RunArgs = map<string, RunArg>

  /** What routines and hooks can change outside contexts: the `run_args`
      dict of each application object. */
  type World = map<object, RunArgs>

  /** `app.run_args`: a cached property, empty until first written. */
  function RunArgsOf(w: World, app: object): (r: RunArgs)
    ensures app !in w ==> r == map[]
    ensures app in w ==> r == w[app]
  {
    if app in w then w[app] else map[]
  }

  /** `settings.install_features or ()`. */
  function InstallList(settings: Settings): (names: seq<string>)
    ensures settings.installFeatures.None? ==> names == []
    ensures settings.installFeatures.Some? ==> names == settings.installFeatures.value
  {
    if settings.installFeatures.Some? then settings.installFeatures.value else []
  }

  /** The package names of a feature list, in order. */
  function NamesOf<W>(fs: seq<Feature<W>>): (names: seq<string>)
    ensures |names| == |fs| && forall k :: 0 <= k < |fs| ==> names[k] == fs[k].packageName
  {
    if fs == [] then [] else NamesOf(fs[..|fs| - 1]) + [fs[|fs| - 1].packageName]
  }

  /** What freshly built features look like: one per name, each on a copy
      of the same variables, nothing imported yet. */
  function InitialStates<W>(names: seq<string>, vars: Vars): (r: seq<FeatureState<W>>)
    ensures |r| == |names|
    ensures forall k :: 0 <= k < |names| ==> r[k] == FeatureState(names[k], vars, None)
  {
    seq(|names|, k requires 0 <= k < |names| => FeatureState(names[k], vars, None))
  }

  /** The states after every feature got a new copy of `vars`: names, order
      and cached modules stay. */
  function Reset<W>(states: seq<FeatureState<W>>, vars: Vars): (r: seq<FeatureState<W>>)
    ensures |r| == |states|
    ensures forall k :: 0 <= k < |states| ==> r[k] == states[k].(vars := vars)
  {
    seq(|states|, k requires 0 <= k < |states| => states[k].(vars := vars))
  }

  /** One more feature given the new variables. */
  lemma ResetStep<W>(states: seq<FeatureState<W>>, i: nat, vars: Vars)
    requires i < |states|
    ensures (Reset(states[..i], vars) + states[i..])[i := states[i].(vars := vars)]
         == Reset(states[..i + 1], vars) + states[i + 1..]
  {
    var lhs := (Reset(states[..i], vars) + states[i..])[i := states[i].(vars := vars)];
    var rhs := Reset(states[..i + 1], vars) + states[i + 1..];
    assert |lhs| == |rhs|;
    forall k | 0 <= k < |lhs|
      ensures lhs[k] == rhs[k]
    {
      if k < i {
        assert lhs[k] == Reset(states[..i], vars)[k];
      } else if k > i {
        assert lhs[k] == states[k];
      }
    }
  }

  /** Gives every feature of `fs` its own new copy of `base`. */
  method ResetContexts(fs: FeatureSet<World>, base: Context)
    requires fs.Valid()
    modifies fs.features
    ensures fs.Valid()
    ensures forall k :: 0 <= k < |fs.features| ==> fresh(fs.features[k].context) && fs.features[k].context != base
    ensures fs.States() == Reset(old(fs.States()), base.vars)
  {
    ghost var before := fs.States();
    var i := 0;
    while i < |fs.features|
      invariant 0 <= i <= |fs.features|
      invariant fs.Valid()
      invariant forall k :: 0 <= k < i ==> fresh(fs.features[k].context)
      invariant fs.States() == Reset(before[..i], base.vars) + before[i..]
    {
      var c := base.Copy();
      ResetStep(before, i, base.vars);
      fs.SetContext(i, c);
      i := i + 1;
    }
    assert before[..i] == before;
    assert before[i..] == [];
    assert Reset(before, base.vars) + [] == Reset(before, base.vars);
  }

  class AppState {
    const settings: Settings
    var baseContext: Context
    /** The `feature_set` cached property. */
    var featureSetCache: Option<FeatureSet<World>>

    /** The built feature set, if any: its features and their contexts. */
    ghost function Footprint(): set<object>
      reads this, if featureSetCache.Some? then set f | f in featureSetCache.value.features else {}
    {
      if featureSetCache.Some? then featureSetCache.value.Repr() else {}
    }

    /** The features are distinct, each with a context of its own, and none
        of them runs in the base context. */
    ghost predicate Valid()
      reads this, if featureSetCache.Some? then set f | f in featureSetCache.value.features else {}
    {
      featureSetCache.Some? ==>
        && featureSetCache.value.Valid()
        && forall k :: 0 <= k < |featureSetCache.value.features| ==> featureSetCache.value.features[k].context != baseContext
    }

    /** `AppState(settings, update_current_context=...)`: `base_context` is a
        snapshot of the current context; when asked, the application is first
        bound in the current context and the snapshot taken again, so that it
        holds the binding. */
    constructor (rt: Runtime, settings: Settings, updateCurrentContext: bool)
      modifies rt.current
      ensures this.settings == settings && featureSetCache == None && Valid()
      ensures fresh(baseContext)
      ensures updateCurrentContext ==>
        rt.current.vars == old(rt.current.vars)[AppStateVar := Ref(this)] && baseContext.vars == rt.current.vars
      ensures !updateCurrentContext ==>
        rt.current.vars == old(rt.current.vars) && baseContext.vars == old(rt.current.vars)
    {
      var snapshot := rt.CopyContext();
      this.settings := settings;
      baseContext := snapshot;
      featureSetCache := None;
      new;
      if updateCurrentContext {
        rt.Set(AppStateVar, Ref(this));
        baseContext := rt.CopyContext();
      }
    }

    /** The `feature_set` cached property: built on first access with one
        Feature per installed name, in order, each on its own copy of the
        base context; the same set on every later access. */
    method GetFeatureSet() returns (fs: FeatureSet<World>)
      requires Valid()
      modifies this`featureSetCache
      ensures Valid() && featureSetCache == Some(fs)
      ensures fs.States() == old(PendingStates())
      ensures forall o | o in fs.Repr() :: o in old(Footprint()) || fresh(o)
      ensures old(featureSetCache).Some? ==> fs == old(featureSetCache).value
      ensures old(featureSetCache).None? ==>
        && fresh(fs) && NamesOf(fs.features) == InstallList(settings)
        && fs.States() == InitialStates(InstallList(settings), baseContext.vars)
        && forall k :: 0 <= k < |fs.features| ==> fresh(fs.features[k]) && fresh(fs.features[k].context)
    {
      if featureSetCache.Some? {
        return featureSetCache.value;
      }
      var names := InstallList(settings);
      var built: seq<Feature<World>> := [];
      var i := 0;
      while i < |names|
        invariant 0 <= i <= |names| && |built| == i
        invariant forall k :: 0 <= k < i ==>
          && fresh(built[k]) && fresh(built[k].context)
          && built[k].State() == FeatureState(names[k], baseContext.vars, None)
        invariant forall k, j :: 0 <= k < i && 0 <= j < i && k != j ==>
          built[k] != built[j] && built[k].context != built[j].context
      {
        var c := baseContext.Copy();
        var f := new Feature(names[i], c);
        built := built + [f];
        i := i + 1;
      }
      fs := new FeatureSet(built);
      featureSetCache := Some(fs);
      StatesOfIndex(built);
    }

    /** `propagate_context`, iterating over the feature list: every feature
        gets a new copy of the base context; the list, the names and the
        cached modules stay. */
    method PropagateContext()
      requires Valid()
      modifies this`featureSetCache, Footprint()
      ensures Valid() && featureSetCache.Some?
      ensures baseContext == old(baseContext) && baseContext.vars == old(baseContext.vars)
      ensures old(featureSetCache).Some? ==> featureSetCache == old(featureSetCache)
      ensures var fs := featureSetCache.value;
        && NamesOf(fs.features) == (if old(featureSetCache).Some? then NamesOf(old(featureSetCache).value.features) else InstallList(settings))
        && fs.States() == Reset(if old(featureSetCache).Some? then old(featureSetCache.value.States()) else InitialStates(InstallList(settings), baseContext.vars), baseContext.vars)
        && forall k :: 0 <= k < |fs.features| ==> fresh(fs.features[k].context)
    {
      var fs := GetFeatureSet();
      assert forall f | f in fs.features :: f in old(Footprint()) || fresh(f);
      ResetContexts(fs, baseContext);
    }

    /** `propagate_context` as written: it obtains the feature set and then
        iterates over the FeatureSet object itself, which defines no
        iteration, so it raises TypeError before any context is replaced. */
    method PropagateContextAsWritten() returns (raised: Option<Exception>)
      requires Valid()
      modifies this`featureSetCache
      ensures Valid() && featureSetCache.Some?
      ensures old(featureSetCache).Some? ==> featureSetCache == old(featureSetCache)
      ensures raised == Some(TypeError(NotIterable))
    {
      var fs := GetFeatureSet();
      raised := Some(TypeError(NotIterable));
    }

    /** The feature states the next pass starts from: those of the built set,
        or those the first access to `feature_set` will build. */
    ghost function PendingStates(): seq<FeatureState<World>>
      reads this, baseContext, if featureSetCache.Some? then set f | f in featureSetCache.value.features else {}
      reads if featureSetCache.Some? then set f | f in featureSetCache.value.features :: f.context else {}
    {
      if featureSetCache.Some? then featureSetCache.value.States()
      else InitialStates(InstallList(settings), baseContext.vars)
    }

    /** `self.feature_set.call(routine_name)` with the default flags. */
    method Phase(rt: Runtime, env: Environment<World>, routineName: string, w: World)
      returns (raised: Option<Exception>, w': World)
      requires Valid()
      modifies this`featureSetCache, Footprint(), rt`current, rt`log
      ensures Valid() && featureSetCache.Some?
      ensures baseContext == old(baseContext) && baseContext.vars == old(baseContext.vars)
      ensures old(featureSetCache).Some? ==> featureSetCache == old(featureSetCache)
      ensures rt.current == old(rt.current)
      ensures var p := PassSpec(old(PendingStates()), env, routineName, false, true, w);
        && featureSetCache.value.States() == p.states && w' == p.world && rt.log == old(rt.log) + p.warnings
        && raised == Aggregate(routineName, FailuresOf(p.calls))
    {
      var fs := GetFeatureSet();
      assert this !in fs.Repr() && rt !in fs.Repr();
      raised, w' := CallOn(fs, rt, env, routineName, w);
    }

    /** The pass itself, over the built feature set: it leaves the set's
        contexts, and so the base context, where they were. */
    method CallOn(fs: FeatureSet<World>, rt: Runtime, env: Environment<World>, routineName: string, w: World)
      returns (raised: Option<Exception>, w': World)
      requires Valid() && featureSetCache == Some(fs)
      modifies fs.Repr(), rt`current, rt`log
      ensures Valid()
      ensures baseContext.vars == old(baseContext.vars)
      ensures rt.current == old(rt.current)
      ensures var p := PassSpec(old(fs.States()), env, routineName, false, true, w);
        && fs.States() == p.states && w' == p.world && rt.log == old(rt.log) + p.warnings
        && raised == Aggregate(routineName, FailuresOf(p.calls))
    {
      OutsideRepr(fs, baseContext);
      raised, w' := fs.Call(rt, env, routineName, false, true, w);
    }

    /** `AppState.configure`: one "configure" pass. */
    method Configure(rt: Runtime, env: Environment<World>, w: World) returns (raised: Option<Exception>, w': World)
      requires Valid()
      modifies this`featureSetCache, Footprint(), rt`current, rt`log
      ensures Valid() && featureSetCache.Some?
      ensures baseContext == old(baseContext) && baseContext.vars == old(baseContext.vars)
      ensures old(featureSetCache).Some? ==> featureSetCache == old(featureSetCache)
      ensures rt.current == old(rt.current)
      ensures var p := PassSpec(old(PendingStates()), env, "configure", false, true, w);
        && featureSetCache.value.States() == p.states && w' == p.world && rt.log == old(rt.log) + p.warnings
        && raised == Aggregate("configure", FailuresOf(p.calls))
    {
      raised, w' := Phase(rt, env, "configure", w);
    }

    /** `AppState.run`: the "setup" pass, then the bot is started with the
        application's run arguments, unless the pass raised. */
    method Run(rt: Runtime, env: Environment<World>, w: World) returns (raised: Option<Exception>, started: Option<RunArgs>, w': World)
      requires Valid()
      modifies this`featureSetCache, Footprint(), rt`current, rt`log
      ensures Valid() && featureSetCache.Some?
      ensures baseContext == old(baseContext) && baseContext.vars == old(baseContext.vars)
      ensures old(featureSetCache).Some? ==> featureSetCache == old(featureSetCache)
      ensures rt.current == old(rt.current)
      ensures var p := PassSpec(old(PendingStates()), env, "setup", false, true, w);
        && featureSetCache.value.States() == p.states && w' == p.world && rt.log == old(rt.log) + p.warnings
        && raised == Aggregate("setup", FailuresOf(p.calls))
      ensures started.Some? <==> raised.None?
      ensures started.Some? ==> started.value == RunArgsOf(w', this)
    {
      raised, w' := Phase(rt, env, "setup", w);
      if raised.None? {
        started := Some(RunArgsOf(w', this));
      } else {
        started := None;
      }
    }

    /** `AppState.stop`: the "teardown" pass. */
    method Stop(rt: Runtime, env: Environment<World>, w: World) returns (raised: Option<Exception>, w': World)
      requires Valid()
      modifies this`featureSetCache, Footprint(), rt`current, rt`log
      ensures Valid() && featureSetCache.Some?
      ensures baseContext == old(baseContext) && baseContext.vars == old(baseContext.vars)
      ensures old(featureSetCache).Some? ==> featureSetCache == old(featureSetCache)
      ensures rt.current == old(rt.current)
      ensures var p := PassSpec(old(PendingStates()), env, "teardown", false, true, w);
        && featureSetCache.value.States() == p.states && w' == p.world && rt.log == old(rt.log) + p.warnings
        && raised == Aggregate("teardown", FailuresOf(p.calls))
    {
      raised, w' := Phase(rt, env, "teardown", w);
    }
  }

  /** A context no feature of `fs` uses is outside the set's footprint. */
  lemma OutsideRepr<W>(fs: FeatureSet<W>, c: Context)
    requires forall k :: 0 <= k < |fs.features| ==> fs.features[k].context != c
    ensures c !in fs.Repr()
  {
    forall f | f in fs.features
      ensures f.context != c
    {
      var k :| 0 <= k < |fs.features| && fs.features[k] == f;
    }
  }

  /** The reason `for feature in feature_set` fails. */
  const NotIterable: string := "'FeatureSet' object is not iterable"

  /** The module-level `configure()`: an application bound in the current
      context, then its "configure" pass, every feature starting from a
      copy of a context that holds the application. */
  method ConfigureMain(rt: Runtime, env: Environment<World>, w: World) returns (app: AppState, raised: Option<Exception>, w': World)
    modifies rt.current, rt`current, rt`log
    ensures fresh(app) && app.settings == env.settings && app.Valid() && app.featureSetCache.Some?
    ensures rt.current == old(rt.current) && rt.current.vars == old(rt.current.vars)[AppStateVar := Ref(app)]
    ensures AppStateVar in app.baseContext.vars && app.baseContext.vars == old(rt.current.vars)[AppStateVar := Ref(app)]
    ensures var p := PassSpec(InitialStates(InstallList(env.settings), app.baseContext.vars), env, "configure", false, true, w);
      && app.featureSetCache.value.States() == p.states && w' == p.world && rt.log == old(rt.log) + p.warnings
      && raised == Aggregate("configure", FailuresOf(p.calls))
  {
    app := new AppState(rt, env.settings, true);
    raised, w' := app.Configure(rt, env, w);
  }
}

/** `Feature` and `FeatureSet`: one pluggable package with its own context,
    and the ordered collection that sends one lifecycle routine to all of
    them, collecting failures instead of stopping at the first. */
module Features {
  import opened Errors
  import opened Contexts
  import opened Registrar

  /** A module attribute that `Feature.call` can run: code seen through its
      effect, or the configure function that `use_config` bound, called with
      no arguments. */
  datatype Routine<!W> = Code(effect: Code<W>) | BoundConfigure(binding: Binding<W>)

  /** An imported module as `getattr` sees it: attribute name to value, a
      name mapped to None being an attribute whose value is None. */
  type Module<!W> = map<string, Option<Routine<W>>>

  /** What the core cannot see: the settings provider and the packages
      `importlib.import_module` can import (a missing name is an ImportError). */
  datatype Environment<!W> = Environment(settings: Settings, library: map<string, Module<W>>)

  /** Running a routine in a context whose variables are `vars`. */
  function RoutineSpec<W>(r: Routine<W>, settings: Settings, vars: Vars, w: W): Step<W>
  {
    match r
    case Code(f) => f(vars, w)
    case BoundConfigure(b) => ConfigureSpec(b, settings, [], map[], vars, w)
  }

  /** The `package` cached property: the cached module if there is one,
      otherwise the import, a failed import becoming FeatureConfigurationError. */
  function Resolve<W>(cache: Option<Module<W>>, name: string, library: map<string, Module<W>>): (r: Result<Module<W>>)
    ensures r.Err? <==> cache.None? && name !in library
    ensures cache.Some? ==> r == Ok(cache.value)
    ensures cache.None? && name in library ==> r == Ok(library[name])
    ensures r.Err? ==> r.error == FeatureConfigurationError(CouldNotImport(name), Some(ImportError(name)))
  {
    if cache.Some? then Ok(cache.value)
    else if name in library then Ok(library[name])
    else Err(FeatureConfigurationError(CouldNotImport(name), Some(ImportError(name))))
  }

  /** `getattr(module, name, None)`, None when missing or set to None. */
  function Attribute<W>(m: Module<W>, name: string): Option<Routine<W>>
  {
    if name in m then m[name] else None
  }

  /** What a caller can observe of a Feature: its package name, the bindings
      of its context and what its `package` property has cached. */
  datatype FeatureState<!W> = FeatureState(name: string, vars: Vars, cache: Option<Module<W>>)

  datatype CallOutcome<!W> = CallOutcome(raised: Option<Exception>, state: FeatureState<W>, world: W, warned: bool)

  /** One `Feature.call(routine_name, required=..., warn_on_missing=...)`. */
  function CallSpec<W>(s: FeatureState<W>, env: Environment<W>, routineName: string, required: bool, warnOnMissing: bool, w: W): (o: CallOutcome<W>)
    ensures o.state.name == s.name
    ensures o.warned ==> o.raised.None? && !required && warnOnMissing
  {
    match Resolve(s.cache, s.name, env.library)
    case Err(e) => CallOutcome(Some(e), s, w, false)
    case Ok(m) =>
      var resolved := s.(cache := Some(m));
      match Attribute(m, routineName)
      case Some(r) =>
        var step := RoutineSpec(r, env.settings, s.vars, w);
        CallOutcome(step.raised, resolved.(vars := step.vars), step.world, false)
      case None =>
        if required then
          CallOutcome(Some(FeatureConfigurationError(DoesNotExport(s.name, routineName), None)), resolved, w, false)
        else
          CallOutcome(None, resolved, w, warnOnMissing)
  }

  class Feature<!W> {
    const packageName: string
    var context: Context
    var cache: Option<Module<W>>

    constructor (packageName: string, context: Context)
      ensures this.packageName == packageName && this.context == context && cache == None
    {
      this.packageName := packageName;
      this.context := context;
      cache := None;
    }

    ghost function State(): FeatureState<W>
      reads this, context
    {
      FeatureState(packageName, context.vars, cache)
    }

    /** The `package` cached property. Only a successful import is cached. */
    method Package(env: Environment<W>) returns (r: Result<Module<W>>)
      modifies this`cache
      ensures r == Resolve(old(cache), packageName, env.library)
      ensures cache == if r.Ok? then Some(r.value) else old(cache)
    {
      if cache.Some? {
        return Ok(cache.value);
      }
      if packageName !in env.library {
        return Err(FeatureConfigurationError(CouldNotImport(packageName), Some(ImportError(packageName))));
      }
      cache := Some(env.library[packageName]);
      r := Ok(env.library[packageName]);
    }

    /** `Feature.call`: an exported routine runs with this feature's context
        current, its writes staying in that context; a missing one is an error
        when `required`, otherwise a warning record when `warnOnMissing`. */
    method Call(rt: Runtime, env: Environment<W>, routineName: string, required: bool, warnOnMissing: bool, w: W)
      returns (raised: Option<Exception>, w': W)
      modifies this`cache, context, rt`current, rt`log
      ensures rt.current == old(rt.current)
      ensures old(rt.current) != context ==> rt.current.vars == old(rt.current.vars)
      ensures var o := CallSpec(old(State()), env, routineName, required, warnOnMissing, w);
        && raised == o.raised && State() == o.state && w' == o.world
        && rt.log == old(rt.log) + if o.warned then [UndefinedRoutine(packageName, routineName)] else []
    {
      var package := Package(env);
      if package.Err? {
        return Some(package.error), w;
      }
      var routine := Attribute(package.value, routineName);
      if routine.Some? {
        match routine.value {
          case Code(f) =>
            raised, w' := rt.Run(context, f, w);
          case BoundConfigure(b) =>
            var saved := rt.current;
            rt.current := context;
            raised, w' := Configure(rt, b, env.settings, [], map[], w);
            rt.current := saved;
        }
        return;
      }
      if required {
        return Some(FeatureConfigurationError(DoesNotExport(packageName, routineName), None)), w;
      }
      if warnOnMissing {
        rt.log := rt.log + [UndefinedRoutine(packageName, routineName)];
      }
      raised, w' := None, w;
    }
  }

  // ---------------------------------------------------------------------
  // The failures dictionary of FeatureSet.call

  /** An insertion-ordered dict from package name to exception. */
  type Failures = seq<(string, Exception)>

  function Keys(d: Failures): (ks: seq<string>)
    ensures |ks| == |d| && forall i :: 0 <= i < |d| ==> ks[i] == d[i].0
  {
    if d == [] then [] else Keys(d[..|d| - 1]) + [d[|d| - 1].0]
  }

  function Values(d: Failures): (vs: seq<Exception>)
    ensures |vs| == |d| && forall i :: 0 <= i < |d| ==> vs[i] == d[i].1
  {
    if d == [] then [] else Values(d[..|d| - 1]) + [d[|d| - 1].1]
  }

  /** `d[k] = e` on a Python dict: an existing key keeps its position and
      takes the new value; a new key goes at the end. */
  function Assign(d: Failures, k: string, e: Exception): (r: Failures)
    ensures k in Keys(d) ==> |r| == |d|
    ensures k !in Keys(d) ==> r == d + [(k, e)]
    ensures forall i :: 0 <= i < |d| ==> r[i].0 == d[i].0
    ensures forall i :: 0 <= i < |d| && d[i].0 != k ==> r[i] == d[i]
    ensures forall i :: 0 <= i < |d| && d[i].0 == k ==> r[i].1 == e
  {
    if k in Keys(d) then seq(|d|, i requires 0 <= i < |d| => if d[i].0 == k then (k, e) else d[i])
    else d + [(k, e)]
  }

  /** The dict after `errors[name] = exc` for every call that raised, in order. */
  function FailuresOf(calls: seq<(string, Option<Exception>)>): (d: Failures)
    ensures |d| <= |calls|
  {
    if calls == [] then []
    else
      var d := FailuresOf(calls[..|calls| - 1]);
      var last := calls[|calls| - 1];
      if last.1.Some? then Assign(d, last.0, last.1.value) else d
  }

  /** What `FeatureSet.call` raises once the pass is over. */
  function Aggregate(routineName: string, d: Failures): (r: Option<Exception>)
    ensures r.None? <==> d == []
    ensures r.Some? ==> r.value == ExceptionGroup(FeatureCallsFailed(routineName, Keys(d)), Values(d))
    ensures r.Some? ==> |r.value.exceptions| == |r.value.message.packages| == |d|
  {
    GroupOf(FeatureCallsFailed(routineName, Keys(d)), Values(d))
  }

  /** The names of the calls that raised, in call order. */
  function FailedNames(calls: seq<(string, Option<Exception>)>): seq<string>
  {
    if calls == [] then []
    else FailedNames(calls[..|calls| - 1]) + if calls[|calls| - 1].1.Some? then [calls[|calls| - 1].0] else []
  }

  /** The sequence without repetitions, each element at its first position. */
  function Dedup(s: seq<string>): seq<string>
  {
    if s == [] then []
    else
      var d := Dedup(s[..|s| - 1]);
      if s[|s| - 1] in d then d else d + [s[|s| - 1]]
  }

  /** The exception of the latest failing call of package `k`, if any. */
  function LastFailure(calls: seq<(string, Option<Exception>)>, k: string): Option<Exception>
  {
    if calls == [] then None
    else if calls[|calls| - 1].0 == k && calls[|calls| - 1].1.Some? then calls[|calls| - 1].1
    else LastFailure(calls[..|calls| - 1], k)
  }

  lemma {:induction false} DedupElements(s: seq<string>)
    ensures forall x :: x in Dedup(s) <==> x in s
  {
    if s != [] {
      DedupElements(s[..|s| - 1]);
      assert s == s[..|s| - 1] + [s[|s| - 1]];
    }
  }

  /** The dict holds one entry per failing package name, in the order of
      each name's first failure. */
  lemma {:induction false} FailuresKeys(calls: seq<(string, Option<Exception>)>)
    ensures Keys(FailuresOf(calls)) == Dedup(FailedNames(calls))
  {
    if calls != [] {
      var init := calls[..|calls| - 1];
      var last := calls[|calls| - 1];
      FailuresKeys(init);
      var d := FailuresOf(init);
      if last.1.Some? {
        assert FailedNames(calls) == FailedNames(init) + [last.0];
        assert FailedNames(calls)[..|FailedNames(calls)| - 1] == FailedNames(init);
        var r := Assign(d, last.0, last.1.value);
        if last.0 in Keys(d) {
          assert Keys(r) == Keys(d);
        } else {
          assert Keys(r) == Keys(d) + [last.0];
        }
      } else {
        assert FailedNames(calls) == FailedNames(init);
      }
    }
  }

  /** Each entry holds the exception of the latest failing call of its
      package: a name that fails twice keeps its position and its last error. */
  lemma {:induction false} FailuresLatest(calls: seq<(string, Option<Exception>)>)
    ensures forall i :: 0 <= i < |FailuresOf(calls)| ==>
      LastFailure(calls, FailuresOf(calls)[i].0) == Some(FailuresOf(calls)[i].1)
  {
    if calls != [] {
      FailuresLatest(calls[..|calls| - 1]);
    }
  }

  /** The dict is empty exactly when no call raised. */
  lemma {:induction false} FailuresEmptyIff(calls: seq<(string, Option<Exception>)>)
    ensures FailuresOf(calls) == [] <==> forall i :: 0 <= i < |calls| ==> calls[i].1.None?
  {
    if calls != [] {
      var init := calls[..|calls| - 1];
      FailuresEmptyIff(init);
      if calls[|calls| - 1].1.None? {
        assert forall i :: 0 <= i < |init| ==> init[i] == calls[i];
      }
    }
  }

  // ---------------------------------------------------------------------
  // FeatureSet

  /** The result of one pass: every feature's new state, the world, each
      call's package name and outcome in call order, the failures dict and
      the warning records. */
  datatype PassOutcome<!W> = PassOutcome(
    states: seq<FeatureState<W>>,
    world: W,
    calls: seq<(string, Option<Exception>)>,
    warnings: seq<Record>)

  /** `FeatureSet.call`: calls every feature once, in sequence order, each on
      the world the previous call left, whatever the earlier calls raised. */
  function PassSpec<W>(states: seq<FeatureState<W>>, env: Environment<W>, routineName: string, required: bool, warnOnMissing: bool, w: W): (p: PassOutcome<W>)
    ensures |p.states| == |states| && |p.calls| == |states|
  {
    if states == [] then PassOutcome([], w, [], [])
    else Extend(PassSpec(states[..|states| - 1], env, routineName, required, warnOnMissing, w), states[|states| - 1], env, routineName, required, warnOnMissing)
  }

  /** One more iteration of the loop: call the next feature on the world
      left so far and record what it did. */
  function Extend<W>(p: PassOutcome<W>, s: FeatureState<W>, env: Environment<W>, routineName: string, required: bool, warnOnMissing: bool): (r: PassOutcome<W>)
    ensures |r.states| == |p.states| + 1 && |r.calls| == |p.calls| + 1
  {
    var o := CallSpec(s, env, routineName, required, warnOnMissing, p.world);
    PassOutcome(
      p.states + [o.state],
      o.world,
      p.calls + [(s.name, o.raised)],
      p.warnings + if o.warned then [UndefinedRoutine(s.name, routineName)] else [])
  }

  /** Two passes one after the other, the second starting from the world the
      first left. */
  function Combine<W>(p: PassOutcome<W>, q: PassOutcome<W>): PassOutcome<W>
  {
    PassOutcome(p.states + q.states, q.world, p.calls + q.calls, p.warnings + q.warnings)
  }

  lemma ExtendCombine<W>(p: PassOutcome<W>, q: PassOutcome<W>, s: FeatureState<W>, env: Environment<W>, routineName: string, required: bool, warnOnMissing: bool)
    ensures Extend(Combine(p, q), s, env, routineName, required, warnOnMissing)
         == Combine(p, Extend(q, s, env, routineName, required, warnOnMissing))
  {
    var o := CallSpec(s, env, routineName, required, warnOnMissing, q.world);
    assert p.states + q.states + [o.state] == p.states + (q.states + [o.state]);
    assert p.calls + q.calls + [(s.name, o.raised)] == p.calls + (q.calls + [(s.name, o.raised)]);
  }

  ghost function StatesOf<W>(fs: seq<Feature<W>>): (r: seq<FeatureState<W>>)
    reads set f | f in fs, set f | f in fs :: f.context
    ensures |r| == |fs|
  {
    if fs == [] then [] else StatesOf(fs[..|fs| - 1]) + [fs[|fs| - 1].State()]
  }

  lemma {:induction false} StatesOfIndex<W>(fs: seq<Feature<W>>)
    ensures forall i :: 0 <= i < |fs| ==> StatesOf(fs)[i] == fs[i].State()
  {
    if fs != [] {
      StatesOfIndex(fs[..|fs| - 1]);
    }
  }

  class FeatureSet<!W> {
    const features: seq<Feature<W>>

    constructor (features: seq<Feature<W>>)
      ensures this.features == features
    {
      this.features := features;
    }

    /** The features and their contexts. */
    ghost function Repr(): set<object>
      reads set f | f in features
    {
      (set f | f in features :: f as object) + (set f | f in features :: f.context as object)
    }

    /** No feature occurs twice and no two features share a context. */
    ghost predicate Valid()
      reads set f | f in features
    {
      forall i, j :: 0 <= i < |features| && 0 <= j < |features| && i != j ==>
        features[i] != features[j] && features[i].context != features[j].context
    }

    ghost function States(): seq<FeatureState<W>>
      reads set f | f in features, set f | f in features :: f.context
    {
      StatesOf(features)
    }

    /** `FeatureSet.call`: one call per feature, none skipped, then one
        ExceptionGroup naming every failing package if any call raised. */
    method Call(rt: Runtime, env: Environment<W>, routineName: string, required: bool, warnOnMissing: bool, w: W)
      returns (raised: Option<Exception>, w': W)
      requires Valid()
      modifies Repr(), rt`current, rt`log
      ensures Valid()
      ensures forall i :: 0 <= i < |features| ==> features[i].context == old(features[i].context)
      ensures rt.current == old(rt.current)
      ensures var p := PassSpec(old(States()), env, routineName, required, warnOnMissing, w);
        && States() == p.states && w' == p.world && rt.log == old(rt.log) + p.warnings
        && raised == Aggregate(routineName, FailuresOf(p.calls))
    {
      var errors;
      errors, w' := RunAll(rt, env, routineName, required, warnOnMissing, w);
      raised := Aggregate(routineName, errors);
    }

    /** The loop of `FeatureSet.call`: every feature is called in order and
        each failure is recorded in the failures dict. */
    method RunAll(rt: Runtime, env: Environment<W>, routineName: string, required: bool, warnOnMissing: bool, w: W)
      returns (errors: Failures, w': W)
      requires Valid()
      modifies Repr(), rt`current, rt`log
      ensures Valid()
      ensures forall i :: 0 <= i < |features| ==> features[i].context == old(features[i].context)
      ensures rt.current == old(rt.current)
      ensures var p := PassSpec(old(States()), env, routineName, required, warnOnMissing, w);
        && States() == p.states && w' == p.world && rt.log == old(rt.log) + p.warnings
        && errors == FailuresOf(p.calls)
    {
      ghost var before := States();
      ghost var acc := PassSpec([], env, routineName, required, warnOnMissing, w);
      errors := [];
      w' := w;
      var i := 0;
      while i < |features|
        invariant 0 <= i <= |features|
        invariant rt.current == old(rt.current)
        invariant forall k :: 0 <= k < |features| ==> features[k].context == old(features[k].context)
        invariant acc == PassSpec(before[..i], env, routineName, required, warnOnMissing, w)
        invariant States() == acc.states + before[i..]
        invariant w' == acc.world && errors == FailuresOf(acc.calls) && rt.log == old(rt.log) + acc.warnings
      {
        assert features[i] in old(Repr()) && features[i].context in old(Repr());
        errors, w', acc := Step(i, rt, env, routineName, required, warnOnMissing, w, w', errors, before, acc, old(rt.log));
        i := i + 1;
      }
      assert before[..i] == before;
    }

    /** `feature.context = c` for feature i, with `c` a context no feature
        uses. */
    method SetContext(i: nat, c: Context)
      requires Valid() && i < |features|
      requires forall k :: 0 <= k < |features| ==> features[k].context != c
      modifies features[i]
      ensures Valid() && features[i].context == c
      ensures forall k :: 0 <= k < |features| && k != i ==> features[k].context == old(features[k].context)
      ensures States() == old(States())[i := old(States())[i].(vars := c.vars)]
    {
      StatesOfIndex(features);
      features[i].context := c;
      StatesOfIndex(features);
    }

    /** The body of the loop above: calls feature i and records the call in
        the failures dict, the world and the log. */
    method Step(i: nat, rt: Runtime, env: Environment<W>, routineName: string, required: bool, warnOnMissing: bool, w: W,
                w0: W, errors: Failures, ghost before: seq<FeatureState<W>>, ghost acc: PassOutcome<W>, ghost log: seq<Record>)
      returns (errors': Failures, w1: W, ghost next: PassOutcome<W>)
      requires Valid() && i < |before| == |features|
      requires acc == PassSpec(before[..i], env, routineName, required, warnOnMissing, w)
      requires States() == acc.states + before[i..]
      requires w0 == acc.world && errors == FailuresOf(acc.calls) && rt.log == log + acc.warnings
      modifies features[i], features[i].context, rt`current, rt`log
      ensures Valid()
      ensures rt.current == old(rt.current)
      ensures forall k :: 0 <= k < |features| ==> features[k].context == old(features[k].context)
      ensures next == PassSpec(before[..i + 1], env, routineName, required, warnOnMissing, w)
      ensures States() == next.states + before[i + 1..]
        && w1 == next.world && errors' == FailuresOf(next.calls) && rt.log == log + next.warnings
    {
      ghost var o := CallSpec(before[i], env, routineName, required, warnOnMissing, w0);
      ghost var extra := if o.warned then [UndefinedRoutine(before[i].name, routineName)] else [];
      PassStep(before, i, acc, env, routineName, required, warnOnMissing, w);
      next := PassSpec(before[..i + 1], env, routineName, required, warnOnMissing, w);
      var exc;
      exc, w1 := CallAt(i, rt, env, routineName, required, warnOnMissing, w0);
      AppendAssoc(log, acc.warnings, extra);
      FailuresSnoc(acc.calls, (features[i].packageName, exc));
      errors' := errors;
      if exc.Some? {
        errors' := Assign(errors, features[i].packageName, exc.value);
      }
    }

    /** One iteration of the loop: feature i is called and no other feature
        changes. */
    method CallAt(i: nat, rt: Runtime, env: Environment<W>, routineName: string, required: bool, warnOnMissing: bool, w: W)
      returns (raised: Option<Exception>, w': W)
      requires Valid() && i < |features|
      modifies features[i], features[i].context, rt`current, rt`log
      ensures Valid()
      ensures rt.current == old(rt.current)
      ensures forall k :: 0 <= k < |features| ==> features[k].context == old(features[k].context)
      ensures var s := old(States())[i];
        var o := CallSpec(s, env, routineName, required, warnOnMissing, w);
        && s.name == features[i].packageName
        && raised == o.raised && States() == old(States())[i := o.state] && w' == o.world
        && rt.log == old(rt.log) + if o.warned then [UndefinedRoutine(s.name, routineName)] else []
    {
      StatesOfIndex(features);
      var feature := features[i];
      raised, w' := feature.Call(rt, env, routineName, required, warnOnMissing, w);
      forall k | 0 <= k < |features| && k != i
        ensures features[k].State() == old(features[k].State())
      {
        assert features[k] != feature && features[k].context != feature.context;
      }
      StatesOfIndex(features);
    }
  }

  /** What one iteration of the loop adds to the pass so far. */
  lemma PassStep<W>(before: seq<FeatureState<W>>, i: nat, acc: PassOutcome<W>, env: Environment<W>, routineName: string, required: bool, warnOnMissing: bool, w: W)
    requires i < |before| && acc == PassSpec(before[..i], env, routineName, required, warnOnMissing, w)
    ensures var o := CallSpec(before[i], env, routineName, required, warnOnMissing, acc.world);
      var next := Extend(acc, before[i], env, routineName, required, warnOnMissing);
      && (acc.states + before[i..])[i] == before[i]
      && next == PassSpec(before[..i + 1], env, routineName, required, warnOnMissing, w)
      && (acc.states + before[i..])[i := o.state] == next.states + before[i + 1..]
      && next.world == o.world
      && next.calls == acc.calls + [(before[i].name, o.raised)]
      && next.warnings == acc.warnings + if o.warned then [UndefinedRoutine(before[i].name, routineName)] else []
  {
    PassSnoc(before, i, env, routineName, required, warnOnMissing, w);
  }

  /** The pass over one more feature is the pass so far extended by it. */
  lemma PassSnoc<W>(states: seq<FeatureState<W>>, i: nat, env: Environment<W>, routineName: string, required: bool, warnOnMissing: bool, w: W)
    requires i < |states|
    ensures PassSpec(states[..i + 1], env, routineName, required, warnOnMissing, w)
         == Extend(PassSpec(states[..i], env, routineName, required, warnOnMissing, w), states[i], env, routineName, required, warnOnMissing)
  {
    assert states[..i + 1][..i] == states[..i];
  }

  /** The dict after one more call. */
  lemma FailuresSnoc(calls: seq<(string, Option<Exception>)>, c: (string, Option<Exception>))
    ensures FailuresOf(calls + [c]) == if c.1.Some? then Assign(FailuresOf(calls), c.0, c.1.value) else FailuresOf(calls)
  {
    assert (calls + [c])[..|calls|] == calls;
  }

  // ---------------------------------------------------------------------
  // Properties of Feature.call and FeatureSet.call

  /** An exported routine runs on the feature's own variables; what it writes
      is the feature's new state, raised or not, and its exception is passed
      on unchanged. */
  lemma ExportedRoutineRuns<W>(s: FeatureState<W>, env: Environment<W>, routineName: string, required: bool, warnOnMissing: bool, w: W)
    requires Resolve(s.cache, s.name, env.library).Ok?
    requires Attribute(Resolve(s.cache, s.name, env.library).value, routineName).Some?
    ensures var m := Resolve(s.cache, s.name, env.library).value;
      var step := RoutineSpec(Attribute(m, routineName).value, env.settings, s.vars, w);
      CallSpec(s, env, routineName, required, warnOnMissing, w)
        == CallOutcome(step.raised, FeatureState(s.name, step.vars, Some(m)), step.world, false)
  {
  }

  /** A missing routine is FeatureConfigurationError when required; otherwise
      the call returns normally and warns exactly when `warnOnMissing`. The
      context and the world are untouched either way. */
  lemma MissingRoutine<W>(s: FeatureState<W>, env: Environment<W>, routineName: string, required: bool, warnOnMissing: bool, w: W)
    requires Resolve(s.cache, s.name, env.library).Ok?
    requires Attribute(Resolve(s.cache, s.name, env.library).value, routineName).None?
    ensures var o := CallSpec(s, env, routineName, required, warnOnMissing, w);
      && o.state.vars == s.vars && o.world == w
      && (required ==> o.raised == Some(FeatureConfigurationError(DoesNotExport(s.name, routineName), None)))
      && (!required ==> o.raised.None? && (o.warned <==> warnOnMissing))
  {
  }

  /** A package that cannot be imported surfaces as FeatureConfigurationError
      caused by the ImportError; nothing is cached, so the next call imports
      again. */
  lemma ImportFailure<W>(s: FeatureState<W>, env: Environment<W>, routineName: string, required: bool, warnOnMissing: bool, w: W)
    requires s.cache.None? && s.name !in env.library
    ensures var o := CallSpec(s, env, routineName, required, warnOnMissing, w);
      o == CallOutcome(Some(FeatureConfigurationError(CouldNotImport(s.name), Some(ImportError(s.name)))), s, w, false)
  {
  }

  /** Once a module is cached it is what every later call uses: the import
      table is not consulted again. */
  lemma CachedModuleReused<W>(s: FeatureState<W>, env: Environment<W>, routineName: string, required: bool, warnOnMissing: bool, w: W)
    requires CallSpec(s, env, routineName, required, warnOnMissing, w).raised.None?
    ensures var o := CallSpec(s, env, routineName, required, warnOnMissing, w);
      && o.state.cache.Some?
      && (s.cache.Some? ==> o.state.cache == s.cache)
      && forall library :: Resolve(o.state.cache, s.name, library) == Ok(o.state.cache.value)
  {
  }

  /** Slot writes made by a routine stay in the feature: the next call on the
      same feature starts from them. */
  lemma WritesPersist<W>(s: FeatureState<W>, env: Environment<W>, first: string, second: string, w: W)
    requires Resolve(s.cache, s.name, env.library).Ok?
    requires Attribute(Resolve(s.cache, s.name, env.library).value, second).Some?
    ensures var o1 := CallSpec(s, env, first, false, true, w);
      var r := Attribute(Resolve(s.cache, s.name, env.library).value, second).value;
      var o2 := CallSpec(o1.state, env, second, false, true, o1.world);
      o2.state.vars == RoutineSpec(r, env.settings, o1.state.vars, o1.world).vars
  {
  }

  /** The pass raises exactly when some feature's call raised; the group then
      names each failing package once, in first-failure order, with its
      latest exception. */
  lemma PassGroupIff<W>(states: seq<FeatureState<W>>, env: Environment<W>, routineName: string, required: bool, warnOnMissing: bool, w: W)
    ensures var p := PassSpec(states, env, routineName, required, warnOnMissing, w);
      var d := FailuresOf(p.calls);
      var raised := Aggregate(routineName, d);
      && (raised.None? <==> forall i :: 0 <= i < |p.calls| ==> p.calls[i].1.None?)
      && (raised.Some? ==> raised.value == ExceptionGroup(FeatureCallsFailed(routineName, Dedup(FailedNames(p.calls))), Values(d)))
      && (forall i :: 0 <= i < |d| ==> LastFailure(p.calls, d[i].0) == Some(d[i].1))
  {
    var p := PassSpec(states, env, routineName, required, warnOnMissing, w);
    FailuresEmptyIff(p.calls);
    FailuresKeys(p.calls);
    FailuresLatest(p.calls);
  }

  /** Splitting the feature list: the second part is called on the world the
      first part left, and its outcomes follow the first part's, so an earlier
      failure never keeps a later feature from being called. */
  lemma {:induction false} PassAppend<W>(first: seq<FeatureState<W>>, rest: seq<FeatureState<W>>, env: Environment<W>, routineName: string, required: bool, warnOnMissing: bool, w: W)
    ensures var p := PassSpec(first, env, routineName, required, warnOnMissing, w);
      PassSpec(first + rest, env, routineName, required, warnOnMissing, w)
        == Combine(p, PassSpec(rest, env, routineName, required, warnOnMissing, p.world))
  {
    var p := PassSpec(first, env, routineName, required, warnOnMissing, w);
    if rest == [] {
      assert first + rest == first;
    } else {
      var init := rest[..|rest| - 1];
      var last := rest[|rest| - 1];
      PassAppend(first, init, env, routineName, required, warnOnMissing, w);
      var q0 := PassSpec(init, env, routineName, required, warnOnMissing, p.world);
      var all := first + rest;
      assert all[..|all| - 1] == first + init;
      assert all[|all| - 1] == last;
      ExtendCombine(p, q0, last, env, routineName, required, warnOnMissing);
    }
  }

  /** Each feature is called exactly once, on its own state and in list order:
      the outcome for feature i is Feature.call on that feature's state with
      the world the first i calls left. */
  lemma {:induction false} PassCallsEach<W>(states: seq<FeatureState<W>>, env: Environment<W>, routineName: string, required: bool, warnOnMissing: bool, w: W, i: nat)
    requires i < |states|
    ensures var before := PassSpec(states[..i], env, routineName, required, warnOnMissing, w);
      var o := CallSpec(states[i], env, routineName, required, warnOnMissing, before.world);
      var p := PassSpec(states, env, routineName, required, warnOnMissing, w);
      p.states[i] == o.state && p.calls[i] == (states[i].name, o.raised)
  {
    PassAppend(states[..i + 1], states[i + 1..], env, routineName, required, warnOnMissing, w);
    assert states[..i + 1] + states[i + 1..] == states;
    assert states[..i + 1][..i] == states[..i];
  }
}

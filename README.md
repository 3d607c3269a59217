# autohelper feature framework, modelled in Dafny

This project models the feature lifecycle and scoped-configuration framework
of the autohelper Discord bot. The framework loads a list of pluggable
packages ("features"). It sends each lifecycle routine ("configure", "setup",
"teardown") to every feature in order, each feature running inside its own
`contextvars.Context`. It collects failures instead of stopping at the first
one. Each feature keeps its validated configuration object in one shared
`ContextVar` slot, and features are kept apart only because each runs in a
context of its own.

Modules, one per source component:

- `Errors` (errors.dfy): the exceptions the framework raises or passes on,
  plus `Option`/`Result`.
- `Contexts` (contexts.dfy): contexts as heap objects.
  - A `Context` holds a map from context variable to value.
  - `Copy` forks an independent object.
  - `Runtime.Run` makes a context current for one call, so the call's writes
    land in that object, and then restores the caller's context.
  - Routines and hooks are total functions from (context variables, world) to
    (new variables, new world, raised exception). The "world" stands for
    everything outside contexts a routine can change.
- `Registrar` (registrar.dfy): `config_var`, `get_config`, `configure` and
  `use_config`. The `Configure` method runs the hook loop and is proved
  against `ConfigureSpec`.
- `Features` (features.dfy): `Feature` and `FeatureSet`.
  - `Feature.package` is a cached property; the `Feature` class keeps the
    cache in a field.
  - `Feature.Call` is proved against `CallSpec`.
  - `FeatureSet.Call` runs the loop (`RunAll`) that fills an insertion-ordered failures
    dict. It is proved against `PassSpec`, and the lemmas state the
    aggregation rules.
- `Collect` (collect.dfy): the `errors` / `maybe_context` helper.
  - An `errors` block yields one guard object, a `Guard`.
  - The body of the block is a sequence of statements, each seen through
    what its own code raised: a `with maybe:` block, a call of a function
    decorated with `@maybe`, or a statement outside any guard.
  - The guard is a generator-based context manager, so it is one-shot. The
    first `with` consumes it; a second one raises AttributeError("args")
    before its block runs. A decorated call builds a fresh guard each time
    while the guard is unconsumed, and raises AttributeError("func") once a
    `with` has consumed it.
- `App` (app.dfy): `AppState`.
  - The constructor and its context snapshot.
  - The cached `feature_set`.
  - `propagate_context`.
  - The three lifecycle phases.
  - The module-level `configure()`.
- `Activities` (activities.dfy): the activities feature, a concrete client of
  `use_config`. Its hook writes the configured activity into the
  application's run arguments.

Abstractions:

- The settings provider is an input `Settings`: optional field maps per
  feature name, plus the optional install list.
- A pydantic model is a `Schema`: a name plus a partial constructor from
  positional arguments and a field map to an `Instance`. `model_dump` is the
  instance's field map.
- `importlib.import_module` is a map from package name to module, where a
  module is a map from attribute name to optional routine. A missing package
  is an ImportError.
- The logging sink is an append-only sequence of warning records in
  `Runtime.log`.

`settings.features.get(name) or {} | kwargs` is evaluated the way Python
parses it, `get(name) or ({} | kwargs)`. So on a first configure the
explicit keywords are ignored whenever non-empty persisted options exist.
A rule under which explicit keywords always win is not what the code does;
the model follows the code (`Registrar.FirstTimeFields`,
`Registrar.FirstTimeSource`).

## Model

| member | source | states |
|---|---|---|
| Errors.GroupOf | autohelper/framework/utils.py:31-33 | a group is raised exactly when the list of caught exceptions is non-empty, and then holds that list |
| Contexts.Lookup | autohelper/framework/features.py:23-24 | `ContextVar.get` succeeds exactly when the variable is bound, returning its value, and otherwise raises LookupError naming the variable |
| Contexts.Context.Copy | autohelper/main.py:105 | `Context.copy()` gives a new object with the same bindings |
| Contexts.Runtime.CopyContext | autohelper/main.py:65 | `copy_context()` gives a new object holding the current context's bindings |
| Contexts.Runtime.Get | autohelper/main.py:26-27 | reading a variable in the current context succeeds exactly when it is bound there, giving its value, and otherwise raises LookupError naming the variable |
| Contexts.Runtime.Set | autohelper/main.py:72 | `var.set` rebinds the variable in the current context only, and nothing else changes |
| Contexts.Runtime.Run | autohelper/framework/features.py:54 | `context.run(code)` runs the code on the context's variables, leaves its writes in that context and restores the caller's current context |
| Registrar.UseConfig | autohelper/framework/features.py:132-141 | the configure half is bound to exactly the model, name and hooks given; the get half is `GetConfig`, shared by every binding |
| Registrar.NewConfig | autohelper/framework/features.py:105-117 | an argument-less configure on a filled slot reuses the stored value; on a filled slot holding no model instance, a configure with arguments raises AttributeError("model_dump"); any other success is a newly built model instance; reuse never fails |
| Registrar.RunHooks | autohelper/framework/features.py:121-126 | the hook loop collects at most one failure per hook |
| Registrar.ConfigureSpec | autohelper/framework/features.py:94-129 | a failing construction raises its own error and leaves the context and the world untouched; after a successful one, what configure raises is a hook-calls group holding between one and as many exceptions as there are hooks |
| Registrar.GetConfig | autohelper/framework/features.py:20-24 | `get_config` raises LookupError("feature_config") exactly when the slot is unset, and otherwise returns the slot's value |
| Registrar.Configure | autohelper/framework/features.py:94-129 | the new context variables, world and exception are those of `ConfigureSpec`: the value is stored, then every hook runs in order, and the hook failures are collected into one group |
| Registrar.FirstTimeSource | autohelper/framework/features.py:105-111 | on the first call in a context, the model gets the persisted options when they are present and non-empty, ignoring the keywords, and gets the keywords otherwise |
| Registrar.ReconfigureWithoutArgumentsKeeps | autohelper/framework/features.py:112-113 | a second configure without args or kwargs keeps the stored value unchanged |
| Registrar.ReconfigureMerges | autohelper/framework/features.py:112-117 | a second configure with arguments rebuilds from the previous dump overridden key by key: the keywords win, other dumped fields pass through, and nothing is added |
| Registrar.ConstructionFailureAborts | autohelper/framework/features.py:105-119 | a failing construction raises its own error before the slot is written and before any hook runs; the context and the world stay as they were |
| Registrar.RunHooksKeepsSlot | autohelper/framework/features.py:119-126 | hooks that leave the slot alone keep the stored value, even those that raise |
| Registrar.StoredValueRemains | autohelper/framework/features.py:119-129 | after a successful construction, the stored value is still in the slot after the hooks, whether or not a hook group was raised |
| Registrar.RunHooksAppend | autohelper/framework/features.py:121-126 | the hook loop over two stretches is the second run on the state the first left, with failures concatenated: a failing hook never stops a later one |
| Registrar.HookGroupIff | autohelper/framework/features.py:121-129 | configure raises exactly when some hook raised, and the group then holds every hook failure in order |
| Registrar.SecondHookStillRuns | autohelper/framework/features.py:122-126 | with two hooks where only the first raises, the second runs on the state the first left, and only the first failure is collected |
| Registrar.SharedSlot | autohelper/framework/features.py:104-119 | every binding shares the one slot: a value stored through one binding is what another binding keeps on an argument-less configure in that context |
| Features.CallSpec | autohelper/framework/features.py:41-65 | a call keeps the feature's name, and a warning is recorded only on a non-required, warn-on-missing call that returned normally |
| Features.Resolve | autohelper/framework/features.py:33-39 | `package` fails exactly when nothing is cached and the import table lacks the name; a cached module wins over the table; the failure is FeatureConfigurationError caused by the ImportError |
| Features.Feature.constructor | autohelper/framework/features.py:27-31 | a feature starts with its package name, the given context and nothing imported |
| Features.Feature.Package | autohelper/framework/features.py:33-39 | gives the cached module if there is one, otherwise the import or FeatureConfigurationError caused by the ImportError; only a successful import is cached |
| Features.Feature.Call | autohelper/framework/features.py:41-65 | the outcome, the feature's new state and the log are those of `CallSpec`; the caller's current context is restored and, if it is not the feature's own, left untouched |
| Features.Keys | autohelper/framework/features.py:90 | the dict's keys in insertion order |
| Features.Values | autohelper/framework/features.py:91 | the dict's values in insertion order |
| Features.Assign | autohelper/framework/features.py:88 | `d[k] = e`: an existing key keeps its position and takes the new value, a new key is added at the end, and other entries are untouched |
| Features.FailuresOf | autohelper/framework/features.py:79-88 | the failures dict has at most one entry per call |
| Features.Aggregate | autohelper/framework/features.py:89-91 | nothing is raised exactly when the dict is empty; otherwise one ExceptionGroup names the dict's keys and holds its values, one exception per package |
| Features.FailuresKeys | autohelper/framework/features.py:79-88 | the failures dict has one entry per failing package name, in first-failure order |
| Features.FailuresLatest | autohelper/framework/features.py:87-88 | each entry holds the latest exception of its package |
| Features.FailuresEmptyIff | autohelper/framework/features.py:87-89 | the dict is empty exactly when no call raised |
| Features.PassSpec | autohelper/framework/features.py:80-88 | a pass yields one new state and one recorded call per feature |
| Features.Extend | autohelper/framework/features.py:81-88 | one more loop iteration adds exactly one state and one call record |
| Features.FeatureSet.Call | autohelper/framework/features.py:72-91 | the new feature states, world and log are those of `PassSpec`; the exception is the aggregate of the failures dict; the contexts and the current context stay |
| Features.FeatureSet.RunAll | autohelper/framework/features.py:79-88 | the loop leaves the feature states, world and log of `PassSpec` and the failures dict of its calls, one entry per failing package |
| Features.FeatureSet.Step | autohelper/framework/features.py:81-88 | one loop iteration moves the pass, the dict, the world and the log one feature further |
| Features.FeatureSet.CallAt | autohelper/framework/features.py:82-86 | calling feature i changes that feature's state only |
| Features.FeatureSet.SetContext | autohelper/main.py:112 | `feature.context = c` replaces one feature's variables and keeps the other features and the set's validity |
| Features.ExportedRoutineRuns | autohelper/framework/features.py:48-55 | an exported routine runs on the feature's own variables; its writes become the feature's state and its exception passes unchanged |
| Features.MissingRoutine | autohelper/framework/features.py:56-65 | a missing routine raises FeatureConfigurationError when required, and otherwise returns normally, warning exactly when warn_on_missing; context and world are untouched |
| Features.ImportFailure | autohelper/framework/features.py:33-39 | an unimportable package raises FeatureConfigurationError caused by the ImportError and caches nothing |
| Features.CachedModuleReused | autohelper/framework/features.py:33-36 | after a call that returned normally the module is cached, and the import table is never consulted again |
| Features.WritesPersist | autohelper/framework/features.py:48-55 | slot writes by one call are what the next call on the same feature starts from |
| Features.PassGroupIff | autohelper/framework/features.py:79-91 | the pass raises exactly when some call raised; the group names each failing package once, in first-failure order, each with its latest exception |
| Features.PassAppend | autohelper/framework/features.py:80-88 | later features are called on the world earlier ones left, and their outcomes follow; an earlier failure never skips a later feature |
| Features.PassCallsEach | autohelper/framework/features.py:80-88 | feature i is called exactly once, on its own state and on the world left by the first i calls |
| Collect.MessageOf | autohelper/framework/utils.py:24 | the group message is the one passed, or "Caught some exceptions" when none is |
| Collect.Collector.constructor | autohelper/framework/utils.py:25 | a new collector has an empty caught list |
| Collect.MaybeContext | autohelper/framework/utils.py:15-20 | a raised exception is appended and swallowed; a block that completes normally leaves the list unchanged |
| Collect.Guard.constructor | autohelper/framework/utils.py:27 | the yielded guard appends to the block's own list and starts unconsumed |
| Collect.Guard.With | autohelper/framework/utils.py:15-20 | the first `with` consumes the guard and catches its block's exception into the list; any later `with` raises AttributeError("args") and adds nothing |
| Collect.Guard.Call | autohelper/framework/utils.py:15-20 | a decorated call catches its own exception into the list while the guard is unconsumed, and raises AttributeError("func") once it is consumed |
| Collect.RunStatement | autohelper/framework/utils.py:15-29 | one statement of the body: the guard's new state, whether an exception leaves the body and which, and what the list gains |
| Collect.CaughtFrom | autohelper/framework/utils.py:23-30 | the list holds at most one exception per statement that ran |
| Collect.Caught | autohelper/framework/utils.py:23-30 | the list after a whole body that starts with an unconsumed guard, at most one exception per statement |
| Collect.RunErrors | autohelper/framework/utils.py:23-35 | the outcome is the group, with the given or default message, of `Caught(body)`, and the shared list is empty afterwards |
| Collect.CaughtAppend | autohelper/framework/utils.py:26-29 | statements after a stretch run exactly when nothing in that stretch escaped the body, and they start from the guard state the stretch left |
| Collect.FirstWithCatches | autohelper/framework/utils.py:15-20 | the first `with maybe:` catches the exception of its block, and the statements after it still run |
| Collect.SecondWithFails | autohelper/framework/utils.py:15-20 | a `with` on a consumed guard raises AttributeError, which leaves the body and is appended last; nothing after it runs |
| Collect.TwoWithBlocks | autohelper/framework/utils.py:15-29 | two raising `with maybe:` blocks leave the first exception and the AttributeError of the second entry in the list |
| Collect.GuardedCallContinues | autohelper/framework/utils.py:15-20 | decorated calls on an unconsumed guard each catch their own exception, and the body goes on with the guard still unconsumed |
| Collect.QuietGuard | autohelper/framework/utils.py:16-18 | a guard whose block completes normally adds nothing, and a `with` still consumes the guard |
| Collect.UnguardedLast | autohelper/framework/utils.py:26-29 | an exception escaping the body is appended after those caught, and nothing after it runs |
| Collect.NothingCaughtIff | autohelper/framework/utils.py:31 | nothing is caught exactly when no statement raised |
| Collect.ErrorsRaisesIff | autohelper/framework/utils.py:31-35 | `errors` exits normally exactly when nothing was raised; otherwise its group holds every caught exception in catch order |
| App.RunArgsOf | autohelper/main.py:80-82 | `run_args` is empty until first written, and after that it is the stored dict |
| App.InstallList | autohelper/main.py:106 | `install_features or ()` is empty when the setting is None |
| App.NamesOf | autohelper/main.py:103-107 | the package names of a feature list, position by position |
| App.InitialStates | autohelper/main.py:103-107 | a freshly built feature per name, in order, on the base variables, with nothing imported |
| App.Reset | autohelper/main.py:110-112 | every feature gets the base variables, keeping its name, position and cache |
| App.ResetContexts | autohelper/main.py:110-112 | every feature gets a new context holding a copy of the base bindings, and the other parts of each feature state stay |
| App.AppState.constructor | autohelper/main.py:62-74 | with update, the application is bound in the current context and the base snapshot is retaken so that it holds the binding; without, the current context is untouched and the snapshot is the one taken at construction |
| App.AppState.GetFeatureSet | autohelper/main.py:101-108 | the first access builds one feature per installed name, in order, each on a fresh, distinct copy of the base context; later accesses give the same set |
| App.AppState.PropagateContext | autohelper/main.py:110-112 | (corrected) every feature gets a fresh copy of the base context; the list, names, order and caches stay |
| App.AppState.PropagateContextAsWritten | autohelper/main.py:110-111 | (as written) iterating the FeatureSet raises TypeError before any context is replaced |
| App.AppState.Phase | autohelper/main.py:114-128 | one pass of the named routine over the pending feature states, with the default flags; the base context is left as it was |
| App.AppState.CallOn | autohelper/main.py:114-128 | the pass over a built feature set gives the states, world, log and exception of `PassSpec`, and leaves the base context alone because no feature runs in it |
| App.AppState.Configure | autohelper/main.py:114-115 | exactly one "configure" pass |
| App.AppState.Run | autohelper/main.py:117-124 | the "setup" pass runs first, and the bot is started with the application's run arguments exactly when the pass did not raise |
| App.AppState.Stop | autohelper/main.py:126-128 | exactly one "teardown" pass |
| App.ConfigureMain | autohelper/main.py:131-136 | a new application bound in the current context (the current context object is kept and gains exactly the `app_state` binding), then its "configure" pass over features whose contexts all hold that binding |
| Activities.Defaults | autohelper/features/activities.py:17-19 | both fields default to None |
| Activities.ConstructActivityConfig | autohelper/features/activities.py:17-19 | construction succeeds exactly for no positional args and known fields holding text or None; the dump then has both fields, the given ones with their values and the others None |
| Activities.UpdateRunArgs | autohelper/features/activities.py:22-29 | the hook never changes the context |
| Activities.ActivitiesBinding | autohelper/features/activities.py:32-36 | the binding uses the plugin name "activities" and the single hook `update_run_args` |
| Activities.GetConfigRoutine | autohelper/features/activities.py:32-36 | the module's `get_config` raises exactly when the slot is unset, and changes nothing |
| Activities.Setup | autohelper/features/activities.py:39-41 | `setup` returns normally exactly when an application is bound, and changes nothing modelled |
| Activities.ActivitiesModule | autohelper/features/activities.py:1-5 | the module exports configure and setup but no teardown |
| Activities.DumpRoundTrip | autohelper/features/activities.py:17-19 | constructing from a configuration's dump gives the same configuration |
| Activities.DefaultsAreNone | autohelper/features/activities.py:17-19 | a configuration built from nothing has both fields None |
| Activities.HookSetsActivity | autohelper/features/activities.py:25-29 | with a non-empty name, `run_args["activity"]` becomes that name and state; no other key and no other application changes |
| Activities.EmptyNameChangesNothing | autohelper/features/activities.py:25 | with a None or empty name the hook returns normally and changes nothing |
| Activities.HookWritesOnlyActivity | autohelper/features/activities.py:22-29 | any change the hook makes is to the "activity" key of the application in the context |
| Activities.ConfigureRunsHookOnce | autohelper/features/activities.py:32-36 | every successful construction is followed by exactly one run of the hook, on the context holding the new value |
| Activities.FirstConfigure | autohelper/features/activities.py:14-36 | a first configure from accepted persisted options stores them completed by the defaults, and sets the activity exactly when the name is non-empty |
| Activities.ConfigureCall | autohelper/features/activities.py:32-36 | calling "configure" on the feature imports the package and runs the bound configure without arguments |
| Activities.CodingScenario | autohelper/features/activities.py:14-36 | with persisted name "Coding", the "configure" pass returns normally, without warnings, and the app's activity is "Coding" with no state |
| Activities.TeardownWarns | autohelper/features/activities.py:1-5 | "teardown" on the feature returns normally with one warning and no change |

## Left out

- The hikari bot, the arc client, `bot.run`, `bot.close`, `client.add_plugin`, `bot_args`, `bot` and `client`: network clients outside the framework; `Activities.Setup` only checks that an application is bound.
- The `ThreadPoolExecutor` and `asyncio.to_thread` hand-off in `stop`, and the event loop: `App.AppState.Stop` is the teardown pass run in sequence.
- logfire spans: an external sink; only the "undefined routine" warning is modelled, as a record appended to `Runtime.log`.
- Environment variables and dotenv files as pydantic-settings sources: the model reads only the keyword fields it is given.
- The text of exception messages: groups record which routine and which packages they are about, not the formatted string.
- Validation error details: `ValidationError` names the model only.
- Activities.ConstructActivityConfig: positional arguments raise TypeError here; pydantic-settings would bind them to its own init options. No caller in the repository passes positional arguments.
- The module-level `run()`, `get_app_state()` as a separate function (it is `Lookup` on `app_state`), and `guess_module_name` (stack-frame introspection).
- The events decorator module: its only effect is a logging call.
- Features.FeatureSet.Call: requires distinct features with distinct contexts; a feature set that shares a context between two features is not modelled. `AppState` always builds distinct ones.
- Errors.Exception, Features.PassAppend, Registrar.RunHooksAppend, Collect.FirstWithCatches: the model's exceptions are all `Exception` subclasses. The feature pass (autohelper/framework/features.py:83-88), the hook loop (autohelper/framework/features.py:121-129) and the `errors` helper (autohelper/framework/utils.py:19 and 28) catch only `Exception`. A `BaseException` that is not an `Exception` (KeyboardInterrupt, SystemExit, GeneratorExit) escapes them at once: later features are not called, later hooks do not run and the `errors` body is abandoned without a group. "Every feature is called regardless of earlier failures" and "the hook loop keeps going" hold only for `Exception` subclasses.
- Nesting `errors` blocks, or using the guard of one block inside another: each body is modelled with its own guard only.
- Re-entering a context that is already running: Python's `Context.run` raises RuntimeError there, but the model does not refuse it. `Contexts.Runtime.Run` and `Features.Feature.Call` return the routine's outcome even when the context is the current one. In `AppState` every feature context is a fresh copy of the base context, which nothing else enters.
- The default `context=copy_context()` of `Feature` (autohelper/framework/features.py:31): `Features.Feature.constructor` always takes the context explicitly. The feature set comprehension (autohelper/main.py:104-105) passes a copy of the base context; the entry point (autohelper/__main__.py:8) builds one feature with the default context and calls "configure" and "run" on it, and that caller is not modelled.
- Module attributes other than the four routines in `Activities.ActivitiesModule` (`plugin`, `ActivityConfig`, imports): lifecycle passes never call them.
- Activities.UpdateRunArgs: a configuration slot holding something other than a model instance is treated as lacking the attribute.

## Findings

| source | as written | input that shows it | evidently intended | confidence | as-written member | corrected member |
|---|---|---|---|---|---|---|
| autohelper/main.py:110-112 | `for feature in self.feature_set` iterates the FeatureSet object, which defines no iteration | any `AppState`, then `propagate_context()`: TypeError "'FeatureSet' object is not iterable" | iterate `self.feature_set.features`, giving each feature a new copy of the base context | not executed | App.AppState.PropagateContextAsWritten | App.AppState.PropagateContext |

/** Python's contextvars as the framework uses them: a Context is a heap
    object holding a map from context variable to value, exactly one Context
    is current, `copy()` forks an independent object and `run` makes a
    context current for the duration of one call. */
module Contexts {
  import opened Errors

  /** A field value as it appears in a keyword-argument or settings mapping. */
  datatype Field = NoneField | Str(s: string) | Int(i: int) | Bool(b: bool)

  type FieldMap = map<string, Field>

  /** Python truthiness of a field value. */
  predicate Truthy(f: Field)
  {
    match f
    case NoneField => false
    case Str(s) => s != ""
    case Int(i) => i != 0
    case Bool(b) => b
  }

  /** A validated configuration object: its model's name and the field map
      that `model_dump(round_trip=True)` gives back. */
  datatype Instance = Instance(model: string, fields: FieldMap)

  /** A ContextVar, identified by its name (the program declares each name once). */
  datatype Var = ContextVar(name: string)

  datatype Value =
    | ModelValue(instance: Instance)
    | Ref(obj: object)

  type Vars = map<Var, Value>

  /** `var.get()` without a default. */
  function Lookup(vars: Vars, v: Var): (r: Result<Value>)
    ensures r.Ok? <==> v in vars
    ensures r.Ok? ==> r.value == vars[v]
    ensures r.Err? ==> r.error == LookupError(v.name)
  {
    if v in vars then Ok(vars[v]) else Err(LookupError(v.name))
  }

  /** What running a piece of code in the current context does: the context's
      new variables, the new state W of everything else the code can reach,
      and the exception it raised, if any. Writes made before a raise stay. */
  datatype Step<!W> = Step(vars: Vars, world: W, raised: Option<Exception>)

  /** A zero-argument Python callable, seen through its effect. */
  type Code<!W> = (Vars, W) -> Step<W>

  /** A record sent to the logging sink. */
  datatype Record = UndefinedRoutine(package: string, routine: string)

  class Context {
    var vars: Vars

    constructor (vars: Vars)
      ensures this.vars == vars
    {
      this.vars := vars;
    }

    /** `Context.copy()`: a new object with the same bindings. */
    method Copy() returns (c: Context)
      ensures fresh(c) && c.vars == vars
    {
      c := new Context(vars);
    }
  }

  /** The running thread: its current context and the log it writes to. */
  class Runtime {
    var current: Context
    var log: seq<Record>

    constructor (current: Context)
      ensures this.current == current && log == []
    {
      this.current := current;
      log := [];
    }

    /** `copy_context()`: a fork of the current context. */
    method CopyContext() returns (c: Context)
      ensures fresh(c) && c.vars == current.vars
    {
      c := current.Copy();
    }

    /** `var.get()` in the current context. */
    method Get(v: Var) returns (r: Result<Value>)
      ensures r.Ok? <==> v in current.vars
      ensures r.Ok? ==> r.value == current.vars[v]
      ensures r.Err? ==> r.error == LookupError(v.name)
    {
      r := Lookup(current.vars, v);
    }

    /** `var.set(x)`: rebinds the variable in the current context only. */
    method Set(v: Var, x: Value)
      modifies current
      ensures current.vars == old(current.vars)[v := x]
    {
      current.vars := current.vars[v := x];
    }

    /** `context.run(code)`: runs code with `ctx` current, its writes landing
        in `ctx`, and restores the caller's current context afterwards. */
    method Run<W>(ctx: Context, code: Code<W>, w: W) returns (raised: Option<Exception>, w': W)
      modifies this`current, ctx
      ensures current == old(current)
      ensures var s := code(old(ctx.vars), w);
        ctx.vars == s.vars && w' == s.world && raised == s.raised
    {
      var saved := current;
      current := ctx;
      var s := code(ctx.vars, w);
      current.vars := s.vars;
      current := saved;
      raised, w' := s.raised, s.world;
    }
  }
}

/** The exceptions the feature framework raises or passes on, and the two
    wrappers that stand for Python's "value or None" and "value or raise". */
module Errors {

  datatype Option<+T> = None | Some(value: T)

  datatype Result<+T> = Ok(value: T) | Err(error: Exception)

  /** What a FeatureConfigurationError complains about. */
  datatype Problem =
    | CouldNotImport(package: string)
    | DoesNotExport(package: string, routine: string)

  /** What the message of an ExceptionGroup says; the formatted text itself is
      not modelled, only what it is made from. */
  datatype GroupMessage =
    | FeatureCallsFailed(routine: string, packages: seq<string>)
    | HookCallsFailed
    | Text(text: string)

  /** Exceptions of the `Exception` hierarchy only: the framework's handlers
      catch `Exception`, and a bare `BaseException` is not represented. */
  datatype Exception =
      /** raised by a Feature whose package is missing or lacks a required routine */
    | FeatureConfigurationError(problem: Problem, cause: Option<Exception>)
    | ImportError(name: string)
      /** ContextVar.get on a variable that is unset in the current context */
    | LookupError(variable: string)
    | AttributeError(attribute: string)
    | TypeError(reason: string)
      /** a configuration model rejected the fields it was given */
    | ValidationError(model: string)
      /** any other exception, raised by code outside the modelled core */
    | Raised(code: int)
    | ExceptionGroup(message: GroupMessage, exceptions: seq<Exception>)

  /** The exception list of a raise-if-anything-was-caught step. */
  function GroupOf(message: GroupMessage, caught: seq<Exception>): (r: Option<Exception>)
    ensures r.None? <==> caught == []
    ensures r.Some? ==> r.value == ExceptionGroup(message, caught)
  {
    if caught == [] then None else Some(ExceptionGroup(message, caught))
  }

  /** Concatenation regroups; stated once for the sequences of exceptions,
      warnings and calls the other modules build up. */
  lemma AppendAssoc<T>(a: seq<T>, b: seq<T>, c: seq<T>)
    ensures a + (b + c) == a + b + c
  {
  }
}

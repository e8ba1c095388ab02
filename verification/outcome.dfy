/**
 * Outcomes shared by every component: an optional value, the ways a read or a lookup can
 * fail, and a result that is a value, a recoverable error, or a panic (an `expect`/`unwrap`
 * on data that came from the target process).
 */
module Outcome {

  datatype Option<T> = None | Some(value: T)

  /** The recoverable errors the auto splitters report. */
  datatype Error =
    | ReadFailed                                    // a pointer path or plain read did not resolve
    | ModuleNotFound(moduleName: string)             // the named module is not loaded in the process
    | SignatureNotFound                             // a byte signature has no match in the module
    | NotFound(what: string)                        // a class, actor or field lookup came back empty
    | ProjectMissing(project: string)               // "failed to find project {p}"
    | ClassMissing(cls: string, project: string)    // "failed to find class {c} in project {p}"
    | UnknownVariable(variable: string, cls: string) // "unknown variable {v} in class {c}"
    | NullPointer                                   // a pointer that must not be null was null
    | NotUtf8                                       // a name in memory is not valid UTF-8
    | NotBool(key: string)                          // a setting exists but is not a boolean
    | UnknownSetting(key: string)                   // neither stored nor declared with a default
    | ParseFailed                                   // the settings text is not well formed
    | WalkBound                                     // a walk over target memory ran past its bound

  datatype Result<T> = Ok(value: T) | Err(error: Error) | Panic(message: string)
  {
    /** With `PropagateFailure` and `Extract`, lets `:-` stand for Rust's `?`. */
    predicate IsFailure()
    {
      !Ok?
    }

    function PropagateFailure<U>(): Result<U>
      requires IsFailure()
    {
      match this
      case Err(e) => Err(e)
      case Panic(s) => Panic(s)
    }

    function Extract(): T
      requires !IsFailure()
    {
      value
    }
  }

  /** Passes a failure on unchanged, at another value type (Rust's `?`). */
  function Fail<T, U>(r: Result<T>): (f: Result<U>)
    requires !r.Ok?
    ensures !f.Ok?
    ensures f.Err? <==> r.Err?
    ensures f.Err? ==> f.error == r.error
  {
    match r
    case Err(e) => Err(e)
    case Panic(s) => Panic(s)
  }

  /** Whether two outcomes fail in the same way (same error, or both panic with the same message). */
  predicate SameFailure<T, U>(r: Result<T>, s: Result<U>)
  {
    (r.Err? && s.Err? && r.error == s.error) || (r.Panic? && s.Panic? && r.message == s.message)
  }

  /** `Option::ok_or`: a missing value becomes the given error. */
  function OkOr<T>(o: Option<T>, e: Error): (r: Result<T>)
    ensures r.Ok? <==> o.Some?
    ensures r.Ok? ==> r.value == o.value
    ensures !r.Ok? ==> r == Err(e)
  {
    match o
    case Some(v) => Ok(v)
    case None => Err(e)
  }
}

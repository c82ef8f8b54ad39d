/** The exceptions a produced loader can raise, and what a loader call ends with. */
module LoadErrors {
  import opened Values

  /** `LoadError` and its subclasses, plus the exceptions that are not load errors. */
  datatype Exc =
    | LoadError                                          // bare `LoadError()`
    | TypeLoadError(expected: PyType, input: Option<Value>)
    | BadVariantError(allowed: set<Value>, data: Value)
    | UnionLoadError(errors: seq<Exc>)
    | DomainLoadError(code: nat)                         // any other LoadError a leaf loader raises
    | UnexpectedError(code: nat)                         // an exception that is not a LoadError
    | ExceptionGroup(errors: seq<Exc>)                   // `CompatExceptionGroup`
    | DispatchKeyError(cls: PyType)                      // no dumper registered for a runtime class
    | UnhashableTypeError                                // `TypeError: unhashable type` from `hash`

  /** `isinstance(e, LoadError)`. */
  predicate IsLoadError(e: Exc)
  {
    !e.UnexpectedError? && !e.ExceptionGroup? && !e.DispatchKeyError? && !e.UnhashableTypeError?
  }

  /** A loader (or dumper) call either returns a value or raises. */
  datatype Outcome = Ok(value: Value) | Raised(exc: Exc)

  /** The call raised something caught by `except LoadError`. */
  predicate IsLoadFailure(o: Outcome)
  {
    o.Raised? && IsLoadError(o.exc)
  }

  /** The call raised something that `except LoadError` lets through. */
  predicate IsUnexpected(o: Outcome)
  {
    o.Raised? && !IsLoadError(o.exc)
  }
}

/** Values standing for Python's `None`, raised exceptions and the
    "validate in order, report the first failure" pattern that the domain
    entities' constructors follow. */
module Outcomes {
  import opened Mensagens

  /** Python's `Optional[T]`: `None` or a present value. */
  datatype Option<+T> = None | Some(value: T)

  /** The exception classes the core raises, each carrying the key of its
      message. */
  datatype Error =
    | ValidationError(message: Mensagem)     // django.core.exceptions.ValidationError
    | ValueError(message: Mensagem)          // Python's built-in ValueError
    | InvalidInputException(message: Mensagem)
    | BusinessRuleViolationException(message: Mensagem)
    | ValidationException(message: Mensagem)
    | EntityNotFoundException(message: Mensagem)
    | InvalidEmailException(message: Mensagem)
    | InvalidDateException(message: Mensagem)
    | InvalidCPFException(message: Mensagem)
    | InvalidPhoneException(message: Mensagem)
    | AttributeError(message: Mensagem)      // Python's built-in AttributeError
    | TypeError(message: Mensagem)           // Python's built-in TypeError

  /** A call that either returns a value or raises. */
  datatype Result<+T> = Ok(value: T) | Err(error: Error)

  /** A call that returns `None` or raises (a validating setter). */
  datatype Outcome = Pass | Fail(error: Error)

  /** Python's `xs or []` on an optional list. */
  function OrEmpty<T>(xs: Option<seq<T>>): (r: seq<T>)
    ensures xs.Some? ==> r == xs.value
    ensures xs.None? ==> r == []
  {
    if xs.Some? then xs.value else []
  }

  /** Running `first` and then, only if it did not raise, `next`: the
      caller sees the first failure. */
  function Then(first: Outcome, next: Outcome): (o: Outcome)
    ensures o.Pass? <==> first.Pass? && next.Pass?
    ensures first.Fail? ==> o == first
    ensures first.Pass? ==> o == next
  {
    if first.Fail? then first else next
  }

  /** Python's `if not s: raise error` on a text field. */
  function NonEmpty(s: string, error: Error): (o: Outcome)
    ensures o.Pass? <==> |s| > 0
    ensures o.Fail? ==> o.error == error
  {
    if s == "" then Fail(error) else Pass
  }
}

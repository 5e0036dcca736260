/**
 * The exceptions that can leave, or be caught inside, one operation call,
 * the class hierarchy `isinstance` consults, and `on_exception`, which
 * builds the predicates of an operation's exception table.
 */
module Exceptions {
  import opened Values

  /** Why argument validation failed, with the offending caller-facing names. */
  datatype ValidationError =
    | Unexpected(names: set<string>)
    | Missing(names: set<string>)

  datatype Exception =
    | TypeError(reason: ValidationError)   // raised by argument validation
    | KeyError(key: string)                // a missing dict key or format field
    | IndexError(index: nat)               // a positional format field `{}`
    // A malformed format string, or a body that is not JSON: the ValueError
    // `r.json()` raises in `requests` before 2.27. From 2.27 on that is
    // `requests.exceptions.JSONDecodeError`, which also derives from
    // `RequestException`; the hierarchy below follows the earlier releases.
    | ValueError
    | HTTPError(status: int)               // `raise_for_status` on a 4xx or 5xx reply

  /** The built-in and `requests` exception classes the layer can meet. */
  datatype ExceptionClass =
    | ExceptionType
    | TypeErrorType
    | LookupErrorType
    | KeyErrorType
    | IndexErrorType
    | ValueErrorType
    | OSErrorType
    | RequestExceptionType
    | HTTPErrorType

  /** `type(e)` */
  function ClassOf(e: Exception): ExceptionClass {
    match e
    case TypeError(_) => TypeErrorType
    case KeyError(_) => KeyErrorType
    case IndexError(_) => IndexErrorType
    case ValueError => ValueErrorType
    case HTTPError(_) => HTTPErrorType
  }

  /** The direct base class (`requests.RequestException` derives from `IOError`, an alias of `OSError`). */
  function Base(c: ExceptionClass): Option<ExceptionClass> {
    match c
    case ExceptionType => None
    case TypeErrorType => Some(ExceptionType)
    case LookupErrorType => Some(ExceptionType)
    case KeyErrorType => Some(LookupErrorType)
    case IndexErrorType => Some(LookupErrorType)
    case ValueErrorType => Some(ExceptionType)
    case OSErrorType => Some(ExceptionType)
    case RequestExceptionType => Some(OSErrorType)
    case HTTPErrorType => Some(RequestExceptionType)
  }

  /**
   * `c.__mro__`: the class followed by its bases, most derived first. The
   * order stops at `Exception`, the widest class the layer names; Python's
   * continues with `BaseException` and `object`.
   */
  function Mro(c: ExceptionClass): (m: seq<ExceptionClass>)
    ensures |m| >= 1 && m[0] == c && m[|m| - 1] == ExceptionType
  {
    match c
    case ExceptionType => [ExceptionType]
    case TypeErrorType => [TypeErrorType, ExceptionType]
    case LookupErrorType => [LookupErrorType, ExceptionType]
    case KeyErrorType => [KeyErrorType, LookupErrorType, ExceptionType]
    case IndexErrorType => [IndexErrorType, LookupErrorType, ExceptionType]
    case ValueErrorType => [ValueErrorType, ExceptionType]
    case OSErrorType => [OSErrorType, ExceptionType]
    case RequestExceptionType => [RequestExceptionType, OSErrorType, ExceptionType]
    case HTTPErrorType => [HTTPErrorType, RequestExceptionType, OSErrorType, ExceptionType]
  }

  /** The method resolution order is the chain of direct bases. */
  lemma MroFollowsBases(c: ExceptionClass)
    ensures Base(c).None? ==> Mro(c) == [c]
    ensures Base(c).Some? ==> Mro(c) == [c] + Mro(Base(c).value)
  {
  }

  /** `isinstance(e, cls)` */
  predicate IsInstance(e: Exception, cls: ExceptionClass) {
    cls in Mro(ClassOf(e))
  }

  /**
   * `on_exception(cls, extra_condition)`: a check that holds exactly for
   * instances of `cls` that also satisfy the extra condition; an omitted
   * condition holds of everything.
   */
  function OnException(cls: ExceptionClass, extraCondition: Option<Exception -> bool>): Exception -> bool {
    var extra := match extraCondition
      case None => (_: Exception) => true
      case Some(f) => f;
    (e: Exception) => IsInstance(e, cls) && extra(e)
  }

  /**
   * `lambda e: e.response.status_code == code`. The source only applies it
   * after `isinstance(e, HTTPError)` has held, so its value on other
   * exceptions is never observed; here it is false.
   */
  function StatusIs(code: int): Exception -> bool {
    (e: Exception) => e.HTTPError? && e.status == code
  }

  /** The table entry the catalogue uses: an HTTP error whose reply had the given status. */
  lemma OnHttpStatusMatchesExactly(code: int)
    ensures forall e :: OnException(HTTPErrorType, Some(StatusIs(code)))(e) <==> e == HTTPError(code)
  {
  }

  /** An instance of a class is an instance of its base class. */
  lemma InstanceOfBase(e: Exception, c: ExceptionClass)
    requires IsInstance(e, c) && Base(c).Some?
    ensures IsInstance(e, Base(c).value)
  {
    MroFollowsBases(c);
  }

  /**
   * A check built for a class also holds for its base class, and an extra
   * condition only narrows the check it is added to: the entry matches
   * exactly the exceptions the unconditioned entry matches that satisfy it.
   */
  lemma OnExceptionNarrows(cls: ExceptionClass, condition: Exception -> bool, e: Exception)
    ensures OnException(cls, Some(condition))(e) <==> OnException(cls, None)(e) && condition(e)
    ensures Base(cls).Some? && OnException(cls, None)(e) ==> OnException(Base(cls).value, None)(e)
    ensures OnException(ExceptionType, None)(e)
  {
    if Base(cls).Some? && OnException(cls, None)(e) {
      InstanceOfBase(e, cls);
    }
  }

  /** `except Exception` catches every exception of the model. */
  lemma AllAreExceptions(e: Exception)
    ensures IsInstance(e, ExceptionType)
  {
  }

  /** Only an HTTP error is an instance of HTTPError. */
  lemma OnlyHttpErrorsAreHttpErrors(e: Exception)
    ensures IsInstance(e, HTTPErrorType) <==> e.HTTPError?
  {
  }
}

/**
 * Values shared by every part of the model: the Java stand-ins the training
 * kit's core relies on (optional values, exceptions with their cause chain,
 * identifiers and timestamps), kept as plain datatypes.
 */
module Common {

  datatype Option<+T> = None | Some(value: T)

  /** An operation either returns a value or throws a Throwable. */
  datatype Result<+T> = Success(value: T) | Failure(error: Throwable)

  /** A UUID; generated ones (random or by the persistence provider) are inputs of the model. */
  datatype Uuid = Uuid(bits: nat)

  /** A LocalDateTime; the clock is an input of the model, so a timestamp is an uninterpreted value. */
  datatype Timestamp = Timestamp(ticks: int)

  /** The exception classes the core raises or inspects. */
  datatype ExceptionKind =
    | SQLException(sqlState: Option<string>)
    | DataIntegrityViolation
    | BusinessException
    | IllegalArgument
    | IllegalState
    | NullPointer
    | NoSuchElement
    | EntityNotFound
    | NoResult
    | JsonProcessing
    | RuntimeException
    | OtherException(className: string)

  /** A thrown exception with its (possibly absent) cause, as `Throwable.getCause()` gives it. */
  datatype Throwable = Throwable(kind: ExceptionKind, message: string, cause: Option<Throwable>)

  /** SQLSTATE "serialization failure" (ISO/IEC 9075-2, "Status codes", class 40, subclass 001). */
  const SERIALIZATION_FAILURE: string := "40001"

  /** SQLSTATE "check violation" (class 23, subclass 514), raised by the inventory >= 0 check. */
  const CHECK_VIOLATION: string := "23514"

  function Fault(kind: ExceptionKind, message: string): Throwable
  {
    Throwable(kind, message, None)
  }

  /** The exception `Objects.requireNonNull` throws. */
  const NullPointerFault: Throwable := Fault(NullPointer, "")

  /**
   * The failure a flush raises when a row breaks a check constraint, as the
   * persistence layer reports it: a DataIntegrityViolationException whose cause
   * is the driver's SQLException.
   */
  const ConstraintViolationFault: Throwable :=
    Throwable(DataIntegrityViolation, "could not execute statement",
              Some(Fault(SQLException(Some(CHECK_VIOLATION)), "check constraint violated")))

  /** `new BusinessException("Constraint violation", e)`. */
  function BusinessFault(cause: Throwable): Throwable
  {
    Throwable(BusinessException, "Constraint violation", Some(cause))
  }
}

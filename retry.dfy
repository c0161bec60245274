/**
 * Conflict classification and retry bookkeeping: the classifier that decides
 * whether a failure may be retried, and the listener that counts the outcome
 * of every attempt.
 */
module Retry {
  import opened Common

  /** The chain `t, t.getCause(), t.getCause().getCause(), ...`, outermost first. */
  function Causes(t: Throwable): (cs: seq<Throwable>)
    ensures |cs| >= 1 && cs[0] == t
    decreases t
  {
    match t.cause
    case None => [t]
    case Some(c) => [t] + Causes(c)
  }

  /** The innermost element of the cause chain. */
  function Innermost(t: Throwable): Throwable
  {
    var cs := Causes(t);
    cs[|cs| - 1]
  }

  /**
   * `NestedExceptionUtils.getMostSpecificCause`: the root cause when there is
   * one, otherwise the exception itself; that is, the innermost element of the
   * cause chain, the one element of it that has no cause.
   */
  function MostSpecificCause(t: Throwable): (r: Throwable)
    ensures r == Innermost(t)
    ensures r.cause.None?
    ensures r in Causes(t)
    decreases t
  {
    match t.cause
    case None => t
    case Some(c) => MostSpecificCause(c)
  }

  /** An SQLException whose SQL state is exactly "40001". */
  predicate IsSerializationFailure(t: Throwable)
  {
    t.kind == SQLException(Some(SERIALIZATION_FAILURE))
  }

  /**
   * The `SQLException` overload: decides on the SQL state alone (a null state is
   * not a serialization failure) and does not consult the enabled flag.
   */
  function ShouldRetrySql(ex: Throwable): (r: bool)
    requires ex.kind.SQLException?
    ensures r ==> ex.kind.sqlState.Some?
    ensures r <==> IsSerializationFailure(ex)
  {
    ex.kind.sqlState == Some(SERIALIZATION_FAILURE)
  }

  class TransientExceptionClassifier {
    var enabled: bool

    /** A new classifier is enabled. */
    constructor ()
      ensures enabled
    {
      enabled := true;
    }

    function IsEnabled(): (b: bool)
      reads this
      ensures b == enabled
    {
      enabled
    }

    method SetEnabled(b: bool)
      modifies this
      ensures enabled == b
      ensures IsEnabled() == b
    {
      enabled := b;
    }

    /**
     * `shouldRetry(Throwable)`: false while disabled and for a null throwable;
     * otherwise true exactly when the innermost cause is an SQLException with
     * SQL state "40001".
     */
    function ShouldRetry(ex: Option<Throwable>): (r: bool)
      reads this
      ensures r <==> enabled && ex.Some? && IsSerializationFailure(Innermost(ex.value))
    {
      if !IsEnabled() || ex.None? then false
      else
        var throwable := MostSpecificCause(ex.value);
        if throwable.kind.SQLException? then ShouldRetrySql(throwable) else false
    }
  }

  /** A classifier that is switched off retries nothing, a 40001 failure included. */
  lemma DisabledNeverRetries(c: TransientExceptionClassifier, ex: Option<Throwable>)
    requires !c.enabled
    ensures !c.ShouldRetry(ex)
  {
  }

  /** An enabled classifier retries a bare serialization failure, whatever wraps it. */
  lemma {:induction false} WrappedSerializationFailureRetried(c: TransientExceptionClassifier, wrappers: seq<(ExceptionKind, string)>, msg: string)
    requires c.enabled
    ensures c.ShouldRetry(Some(Wrap(wrappers, Fault(SQLException(Some(SERIALIZATION_FAILURE)), msg))))
  {
    InnermostOfWrap(wrappers, Fault(SQLException(Some(SERIALIZATION_FAILURE)), msg));
  }

  /** Wraps `inner` in one exception per element of `wrappers`, the first outermost. */
  function Wrap(wrappers: seq<(ExceptionKind, string)>, inner: Throwable): (t: Throwable)
  {
    if wrappers == [] then inner
    else Throwable(wrappers[0].0, wrappers[0].1, Some(Wrap(wrappers[1..], inner)))
  }

  lemma {:induction false} InnermostOfWrap(wrappers: seq<(ExceptionKind, string)>, inner: Throwable)
    ensures Innermost(Wrap(wrappers, inner)) == Innermost(inner)
  {
    if wrappers != [] {
      InnermostOfWrap(wrappers[1..], inner);
      var t := Wrap(wrappers, inner);
      assert MostSpecificCause(t) == MostSpecificCause(Wrap(wrappers[1..], inner));
    }
  }

  /**
   * Only the innermost cause is inspected: a 40001 SQLException that itself
   * wraps a deeper cause that is not a serialization failure is not retried.
   */
  lemma SerializationFailureWrappingOtherCauseNotRetried(c: TransientExceptionClassifier, msg: string, deeper: Throwable)
    requires !IsSerializationFailure(Innermost(deeper))
    ensures !c.ShouldRetry(Some(Throwable(SQLException(Some(SERIALIZATION_FAILURE)), msg, Some(deeper))))
  {
    var t := Throwable(SQLException(Some(SERIALIZATION_FAILURE)), msg, Some(deeper));
    assert MostSpecificCause(t) == MostSpecificCause(deeper);
  }

  /**
   * A constraint violation surfaced as a BusinessException is never retried:
   * its innermost cause carries SQL state "23514", not "40001".
   */
  lemma ConstraintViolationNotRetried(c: TransientExceptionClassifier)
    ensures !c.ShouldRetry(Some(BusinessFault(ConstraintViolationFault)))
  {
    var t := BusinessFault(ConstraintViolationFault);
    assert MostSpecificCause(t) == MostSpecificCause(ConstraintViolationFault);
  }

  /** The callbacks a retry template makes on its listener. */
  datatype Callback = ErrorCallback | SuccessCallback

  /** The number of occurrences of `c` in `cs`. */
  function Count(cs: seq<Callback>, c: Callback): (n: nat)
    ensures n <= |cs|
  {
    if cs == [] then 0
    else Count(cs[..|cs| - 1], c) + (if cs[|cs| - 1] == c then 1 else 0)
  }

  class TransientExceptionRetryListener {
    var error: int
    var success: int
    /** The callbacks received since construction or the last `Clear`. */
    ghost var callbacks: seq<Callback>

    /** Each counter equals the number of matching callbacks since the last clear. */
    ghost predicate Valid()
      reads this
    {
      && error == Count(callbacks, ErrorCallback)
      && success == Count(callbacks, SuccessCallback)
    }

    constructor ()
      ensures Valid() && callbacks == []
      ensures error == 0 && success == 0
    {
      error, success := 0, 0;
      callbacks := [];
    }

    method Clear()
      modifies this
      ensures Valid() && callbacks == []
      ensures error == 0 && success == 0
    {
      error, success := 0, 0;
      callbacks := [];
    }

    method GetError() returns (n: int)
      ensures n == error
    {
      n := error;
    }

    method GetSuccess() returns (n: int)
      ensures n == success
    {
      n := success;
    }

    method OnError()
      requires Valid()
      modifies this
      ensures Valid() && callbacks == old(callbacks) + [ErrorCallback]
      ensures error == old(error) + 1 && success == old(success)
    {
      error := error + 1;
      callbacks := callbacks + [ErrorCallback];
      assert callbacks[..|callbacks| - 1] == old(callbacks);
    }

    method OnSuccess()
      requires Valid()
      modifies this
      ensures Valid() && callbacks == old(callbacks) + [SuccessCallback]
      ensures success == old(success) + 1 && error == old(error)
    {
      success := success + 1;
      callbacks := callbacks + [SuccessCallback];
      assert callbacks[..|callbacks| - 1] == old(callbacks);
    }
  }

  /**
   * The counters only grow between clears: whatever callbacks follow, each
   * count is at least what it was and the two counts add up to the number of
   * callbacks.
   */
  lemma {:induction false} CountsAreMonotone(before: seq<Callback>, after: seq<Callback>)
    ensures Count(before + after, ErrorCallback) >= Count(before, ErrorCallback)
    ensures Count(before + after, SuccessCallback) >= Count(before, SuccessCallback)
    ensures Count(before + after, ErrorCallback) + Count(before + after, SuccessCallback) == |before + after|
  {
    if after == [] {
      assert before + after == before;
      CountsPartition(before);
    } else {
      var init := after[..|after| - 1];
      CountsAreMonotone(before, init);
      assert (before + after)[..|before + after| - 1] == before + init;
    }
  }

  lemma {:induction false} CountsPartition(cs: seq<Callback>)
    ensures Count(cs, ErrorCallback) + Count(cs, SuccessCallback) == |cs|
  {
    if cs != [] {
      CountsPartition(cs[..|cs| - 1]);
    }
  }
}

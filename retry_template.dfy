/**
 * `updateOrder` as its callers see it through the retry advice: each attempt
 * runs in a fresh read-write transaction; a failed attempt is reported to the
 * listener and retried, at most five attempts in all, only while the
 * classifier says the failure is transient.
 */
module RetryTemplate {
  import opened Common
  import opened Orders
  import opened Storage
  import opened Simulations
  import opened Retry
  import opened OrderUpdate
  import AdvisorOrder

  /** `@Retryable(maxAttempts = 5)`. */
  const MAX_ATTEMPTS: nat := 5

  /**
   * What an attempt that loses a write-write race to a concurrent
   * transaction throws: a Spring wrapper around the driver's serialization
   * failure.
   */
  const ConflictFault: Throwable :=
    Throwable(OtherException("TransactionSystemException"), "Could not commit JPA transaction",
              Some(Fault(SQLException(Some(SERIALIZATION_FAILURE)), "restart transaction: WriteTooOldError")))

  /**
   * Whether attempt `k` (from 0) loses to a concurrent transaction. Which
   * attempts do is decided by the database's concurrency control, which is
   * not part of this model; the caller supplies it.
   */
  function Conflicts(conflicts: seq<bool>, k: nat): bool
  {
    k < |conflicts| && conflicts[k]
  }

  /**
   * One attempt against the committed orders: the status update, unless it
   * fails by itself, is lost to a conflict when `conflict` holds.
   */
  function AttemptResult(orders: map<Uuid, OrderRow>, id: Uuid, pre: ShipmentStatus, post: ShipmentStatus,
                         pattern: Pattern, now: Timestamp, conflict: bool): (r: Result<map<Uuid, OrderRow>>)
    ensures r.Failure? <==> UpdateOrderEffect(orders, id, pre, post, pattern, now).Failure? || conflict
    ensures r.Success? ==> r == UpdateOrderEffect(orders, id, pre, post, pattern, now)
  {
    var effect := UpdateOrderEffect(orders, id, pre, post, pattern, now);
    if effect.Failure? then effect
    else if conflict then Failure(ConflictFault)
    else effect
  }

  /** The attempt count, the committed orders and the failure, if any, that a retried update ends with. */
  datatype RetryOutcome = RetryOutcome(attempts: nat, orders: map<Uuid, OrderRow>, failure: Option<Throwable>)

  /**
   * The retry template from attempt `attempt` on: a successful attempt
   * commits and ends it; a failed one ends it when it was the fifth or when
   * the classifier does not call it transient, and is retried otherwise.
   */
  function RetryFrom(orders: map<Uuid, OrderRow>, id: Uuid, pre: ShipmentStatus, post: ShipmentStatus, pattern: Pattern,
                     now: Timestamp, conflicts: seq<bool>, enabled: bool, attempt: nat): (r: RetryOutcome)
    requires 1 <= attempt <= MAX_ATTEMPTS
    ensures attempt <= r.attempts <= MAX_ATTEMPTS
    ensures r.failure.None? ==>
      var last := AttemptResult(orders, id, pre, post, pattern, now, Conflicts(conflicts, r.attempts - 1));
      last.Success? && r.orders == last.value
    ensures r.failure.Some? ==> r.orders == orders
    ensures r.failure.Some? ==> r.attempts == MAX_ATTEMPTS || !(enabled && IsSerializationFailure(Innermost(r.failure.value)))
    decreases MAX_ATTEMPTS - attempt
  {
    var result := AttemptResult(orders, id, pre, post, pattern, now, Conflicts(conflicts, attempt - 1));
    if result.Success? then RetryOutcome(attempt, result.value, None)
    else if attempt == MAX_ATTEMPTS || !(enabled && IsSerializationFailure(Innermost(result.error))) then
      RetryOutcome(attempt, orders, Some(result.error))
    else RetryFrom(orders, id, pre, post, pattern, now, conflicts, enabled, attempt + 1)
  }

  /** One step of the retry template, unfolded. */
  lemma RetryFromStep(orders: map<Uuid, OrderRow>, id: Uuid, pre: ShipmentStatus, post: ShipmentStatus, pattern: Pattern,
                      now: Timestamp, conflicts: seq<bool>, enabled: bool, attempt: nat)
    requires 1 <= attempt <= MAX_ATTEMPTS
    ensures var result := AttemptResult(orders, id, pre, post, pattern, now, Conflicts(conflicts, attempt - 1));
      var out := RetryFrom(orders, id, pre, post, pattern, now, conflicts, enabled, attempt);
      && (result.Success? ==> out == RetryOutcome(attempt, result.value, None))
      && (result.Failure? && (attempt == MAX_ATTEMPTS || !(enabled && IsSerializationFailure(Innermost(result.error)))) ==>
            out == RetryOutcome(attempt, orders, Some(result.error)))
      && (result.Failure? && attempt < MAX_ATTEMPTS && enabled && IsSerializationFailure(Innermost(result.error)) ==>
            out == RetryFrom(orders, id, pre, post, pattern, now, conflicts, enabled, attempt + 1))
  {
  }

  /**
   * What one attempt decides about the retried update: it ends at this
   * attempt, with the attempt's orders or the old ones, or it goes on from the
   * next attempt.
   */
  lemma StepOutcome(orders: map<Uuid, OrderRow>, id: Uuid, pre: ShipmentStatus, post: ShipmentStatus, pattern: Pattern,
                    now: Timestamp, conflicts: seq<bool>, enabled: bool, attempt: nat, failure: Option<Throwable>, again: bool)
    requires 1 <= attempt <= MAX_ATTEMPTS
    requires var result := AttemptResult(orders, id, pre, post, pattern, now, Conflicts(conflicts, attempt - 1));
      && (failure.None? <==> result.Success?)
      && (failure.Some? ==> failure.value == result.error)
    requires again <==> failure.Some? && attempt < MAX_ATTEMPTS && enabled && IsSerializationFailure(Innermost(failure.value))
    ensures var result := AttemptResult(orders, id, pre, post, pattern, now, Conflicts(conflicts, attempt - 1));
      var out := RetryFrom(orders, id, pre, post, pattern, now, conflicts, enabled, attempt);
      && (!again && failure.None? ==> out == RetryOutcome(attempt, result.value, None))
      && (!again && failure.Some? ==> out == RetryOutcome(attempt, orders, failure))
      && (again ==> attempt < MAX_ATTEMPTS && out == RetryFrom(orders, id, pre, post, pattern, now, conflicts, enabled, attempt + 1))
  {
    RetryFromStep(orders, id, pre, post, pattern, now, conflicts, enabled, attempt);
  }

  /** A lost race is transient: an enabled classifier retries it. */
  lemma ConflictIsRetried(c: TransientExceptionClassifier)
    requires c.enabled
    ensures c.ShouldRetry(Some(ConflictFault))
  {
    WrappedSerializationFailureRetried(c, [(OtherException("TransactionSystemException"), "Could not commit JPA transaction")],
                                       "restart transaction: WriteTooOldError");
  }

  /** A missing order under read-modify-write is not transient: it is never retried. */
  lemma MissingOrderNotRetried(c: TransientExceptionClassifier)
    ensures !c.ShouldRetry(Some(NoResultFault))
  {
    assert MostSpecificCause(NoResultFault) == NoResultFault;
  }

  /**
   * With the classifier enabled, a conflict on each of the first `k`
   * attempts (fewer than five) is retried, and the attempt after them
   * commits the update.
   */
  lemma {:induction false} ConflictsThenSuccess(orders: map<Uuid, OrderRow>, id: Uuid, pre: ShipmentStatus, post: ShipmentStatus,
                                                pattern: Pattern, now: Timestamp, conflicts: seq<bool>, attempt: nat)
    requires 1 <= attempt <= MAX_ATTEMPTS
    requires UpdateOrderEffect(orders, id, pre, post, pattern, now).Success?
    requires |conflicts| < MAX_ATTEMPTS && forall k :: attempt - 1 <= k < |conflicts| ==> conflicts[k]
    requires attempt - 1 <= |conflicts|
    ensures RetryFrom(orders, id, pre, post, pattern, now, conflicts, true, attempt)
         == RetryOutcome(|conflicts| + 1, UpdateOrderEffect(orders, id, pre, post, pattern, now).value, None)
    decreases MAX_ATTEMPTS - attempt
  {
    if attempt - 1 < |conflicts| {
      InnermostOfWrap([(OtherException("TransactionSystemException"), "Could not commit JPA transaction")],
                      Fault(SQLException(Some(SERIALIZATION_FAILURE)), "restart transaction: WriteTooOldError"));
      assert Innermost(ConflictFault) == Fault(SQLException(Some(SERIALIZATION_FAILURE)), "restart transaction: WriteTooOldError");
      ConflictsThenSuccess(orders, id, pre, post, pattern, now, conflicts, attempt + 1);
    }
  }

  /** A disabled classifier makes every update a single attempt. */
  lemma DisabledMeansOneAttempt(orders: map<Uuid, OrderRow>, id: Uuid, pre: ShipmentStatus, post: ShipmentStatus,
                                pattern: Pattern, now: Timestamp, conflicts: seq<bool>)
    ensures RetryFrom(orders, id, pre, post, pattern, now, conflicts, false, 1).attempts == 1
  {
  }

  /** `@EnableRetry`'s order value: retry advice comes before any transaction is created. */
  const RetryAdvicePrecedence: int := AdvisorOrder.TRANSACTION_RETRY_ADVISOR

  /**
   * The retry advice encloses the transaction manager, so each attempt
   * runs in a transaction of its own, begun after the retry decision and
   * ended before the next one; `Attempt` relies on this.
   */
  lemma RetryAdviceOutsideTransaction()
    ensures RetryAdvicePrecedence == AdvisorOrder.Precedence(AdvisorOrder.TransactionRetry)
    ensures TransactionManagerPrecedence == AdvisorOrder.Precedence(AdvisorOrder.TransactionManager)
    ensures AdvisorOrder.Encloses(AdvisorOrder.TransactionRetry, AdvisorOrder.TransactionManager)
  {
  }

  /**
   * One attempt: a fresh read-write transaction around `updateOrder`,
   * committed when the update returns normally and rolled back when it
   * throws or loses its race.
   */
  method Attempt(store: Store, id: Uuid, pre: ShipmentStatus, post: ShipmentStatus, simulation: Simulation,
                 now: Timestamp, conflict: bool) returns (err: Option<Throwable>)
    requires store.Valid() && !store.tx.active
    modifies store
    ensures store.Valid() && !store.tx.active
    ensures var result := AttemptResult(old(store.committed.orders), id, pre, post, simulation.pattern, now, conflict);
      && (err.None? <==> result.Success?)
      && (err.Some? ==> err.value == result.error && store.committed == old(store.committed))
      && (result.Success? ==> store.committed == old(store.committed).(orders := result.value))
  {
    store.Begin(false);
    var failure, _ := UpdateOrder(store, id, pre, post, simulation, now);
    if failure.None? && conflict {
      failure := Some(ConflictFault);
    }
    if failure.None? {
      var commitErr := store.Commit();
      assert commitErr.None?;
    } else {
      store.Rollback();
    }
    err := failure;
  }

  /**
   * One attempt as the retry template runs it: the attempt, the listener's
   * callback for its outcome and, for a failure, whether the template goes
   * on to another attempt.
   */
  method AttemptAndReport(store: Store, classifier: TransientExceptionClassifier, listener: TransientExceptionRetryListener,
                          id: Uuid, pre: ShipmentStatus, post: ShipmentStatus, simulation: Simulation,
                          now: Timestamp, conflict: bool, attempt: nat)
    returns (failure: Option<Throwable>, again: bool)
    requires store.Valid() && !store.tx.active && listener.Valid()
    modifies store, listener
    ensures store.Valid() && !store.tx.active && listener.Valid()
    ensures var result := AttemptResult(old(store.committed.orders), id, pre, post, simulation.pattern, now, conflict);
      && (failure.None? <==> result.Success?)
      && (failure.Some? ==> failure.value == result.error && store.committed == old(store.committed))
      && (result.Success? ==> store.committed == old(store.committed).(orders := result.value))
    ensures again <==> failure.Some? && attempt < MAX_ATTEMPTS && classifier.enabled && IsSerializationFailure(Innermost(failure.value))
    ensures failure.None? ==> listener.success == old(listener.success) + 1 && listener.error == old(listener.error)
    ensures failure.Some? ==> listener.success == old(listener.success) && listener.error == old(listener.error) + 1
  {
    failure := Attempt(store, id, pre, post, simulation, now, conflict);
    if failure.None? {
      listener.OnSuccess();
      again := false;
    } else {
      listener.OnError();
      again := attempt < MAX_ATTEMPTS && classifier.ShouldRetry(failure);
    }
  }

  /**
   * `updateOrder` under `@Retryable(maxAttempts = 5)`: attempts until one
   * succeeds, the classifier declines the failure or five attempts are
   * spent; the listener hears of every failed attempt and of the success.
   */
  method UpdateOrderWithRetry(store: Store, classifier: TransientExceptionClassifier, listener: TransientExceptionRetryListener,
                              id: Uuid, pre: ShipmentStatus, post: ShipmentStatus, simulation: Simulation,
                              now: Timestamp, conflicts: seq<bool>)
    returns (r: Option<Throwable>, attempts: nat)
    requires store.Valid() && !store.tx.active && listener.Valid()
    modifies store, listener
    ensures store.Valid() && !store.tx.active && listener.Valid()
    ensures var out := RetryFrom(old(store.committed.orders), id, pre, post, simulation.pattern, now, conflicts, classifier.enabled, 1);
      && attempts == out.attempts && r == out.failure
      && store.committed == old(store.committed).(orders := out.orders)
    ensures listener.success == old(listener.success) + (if r.None? then 1 else 0)
    ensures listener.error == old(listener.error) + (if r.None? then attempts - 1 else attempts)
  {
    ghost var committed0 := store.committed;
    ghost var success0, error0 := listener.success, listener.error;
    ghost var pattern := simulation.pattern;
    ghost var enabled := classifier.enabled;
    ghost var outcome := RetryFrom(committed0.orders, id, pre, post, pattern, now, conflicts, enabled, 1);
    attempts := 1;
    while true
      invariant 1 <= attempts <= MAX_ATTEMPTS
      invariant store.Valid() && !store.tx.active && listener.Valid()
      invariant store.committed == committed0
      invariant outcome == RetryFrom(committed0.orders, id, pre, post, pattern, now, conflicts, enabled, attempts)
      invariant listener.success == success0 && listener.error == error0 + attempts - 1
      decreases MAX_ATTEMPTS - attempts
    {
      var failure, again := AttemptAndReport(store, classifier, listener, id, pre, post, simulation, now,
                                             Conflicts(conflicts, attempts - 1), attempts);
      StepOutcome(committed0.orders, id, pre, post, pattern, now, conflicts, enabled, attempts, failure, again);
      if !again {
        return failure, attempts;
      }
      attempts := attempts + 1;
    }
  }

  /**
   * The read-write conflict of the retry test, run one after the other: T2
   * moves the order from placed to cancelled and commits, and T1 (placed to
   * confirmed) loses its first attempt to T2. T1's retry then finds the
   * order cancelled and does nothing, so the order ends cancelled, with two
   * successes and one error counted.
   */
  method ReadWriteConflictScenario(initial: Tables, id: Uuid, t1Time: Timestamp, t2Time: Timestamp)
    returns (status: ShipmentStatus, successes: int, errors: int)
    requires ChecksHold(initial.inventory)
    requires id in initial.orders && initial.orders[id].status == placed
    ensures status == cancelled && successes == 2 && errors == 1
  {
    var store := new Store(initial);
    var classifier := new TransientExceptionClassifier();
    classifier.SetEnabled(true);
    var listener := new TransientExceptionRetryListener();
    listener.Clear();
    var simulation := ReadModifyWrite();

    ghost var before := store.committed.orders;
    UpdateIsCompareAndSet(before, id, placed, cancelled, READ_MODIFY_WRITE, t2Time);
    ConflictsThenSuccess(before, id, placed, cancelled, READ_MODIFY_WRITE, t2Time, [], 1);
    var t2Failure, _ := UpdateOrderWithRetry(store, classifier, listener, id, placed, cancelled, simulation, t2Time, []);

    ghost var afterT2 := store.committed.orders;
    assert afterT2[id].status == cancelled;
    UpdateIsCompareAndSet(afterT2, id, placed, confirmed, READ_MODIFY_WRITE, t1Time);
    ConflictsThenSuccess(afterT2, id, placed, confirmed, READ_MODIFY_WRITE, t1Time, [true], 1);
    var t1Failure, _ := UpdateOrderWithRetry(store, classifier, listener, id, placed, confirmed, simulation, t1Time, [true]);

    status := store.committed.orders[id].status;
    successes := listener.GetSuccess();
    errors := listener.GetError();
  }
}

/**
 * The order status update of the transaction and contention chapters: a
 * compare-and-set on an order's status, done either by reading the order
 * under a lock and changing the entity, or by one conditional UPDATE.
 */
module OrderUpdate {
  import opened Common
  import opened AssertUtils
  import opened Orders
  import opened Storage
  import opened Simulations

  /** `getSingleResult` on a query that matches no row. */
  const NoResultFault: Throwable := Fault(NoResult, "No entity found for query")

  /**
   * What `updateOrder` does to the order table. Read-modify-write: a missing
   * order throws; an order in `pre` moves to `post` and has its update time
   * refreshed; any other order is left as it is. Write-only: the conditional
   * update, where a missing order is simply a row that does not match.
   */
  function UpdateOrderEffect(orders: map<Uuid, OrderRow>, id: Uuid, pre: ShipmentStatus, post: ShipmentStatus,
                             pattern: Pattern, now: Timestamp): (r: Result<map<Uuid, OrderRow>>)
    ensures r.Failure? <==> pattern == READ_MODIFY_WRITE && id !in orders
    ensures r.Failure? ==> r.error == NoResultFault
    ensures r.Success? ==> r.value.Keys == orders.Keys
    ensures r.Success? ==> forall k :: k in orders && k != id ==> r.value[k] == orders[k]
  {
    if pattern == READ_MODIFY_WRITE then
      if id !in orders then Failure(NoResultFault)
      else if orders[id].status == pre then Success(orders[id := orders[id].(status := post, dateUpdated := now)])
      else Success(orders)
    else
      Success(UpdateOrderStatusById(orders, id, pre, post).0)
  }

  /**
   * Both forms are a compare-and-set on the status: an order in `pre` ends in
   * `post`, any other order is untouched; only read-modify-write refreshes
   * the update time.
   */
  lemma UpdateIsCompareAndSet(orders: map<Uuid, OrderRow>, id: Uuid, pre: ShipmentStatus, post: ShipmentStatus,
                              pattern: Pattern, now: Timestamp)
    requires id in orders
    ensures var r := UpdateOrderEffect(orders, id, pre, post, pattern, now);
      && r.Success?
      && (orders[id].status == pre ==>
            r.value[id] == orders[id].(status := post,
                                      dateUpdated := if pattern == READ_MODIFY_WRITE then now else orders[id].dateUpdated))
      && (orders[id].status != pre ==> r.value[id] == orders[id])
  {
  }

  /** A missing order is an error for read-modify-write and a no-op for write-only. */
  lemma MissingOrder(orders: map<Uuid, OrderRow>, id: Uuid, pre: ShipmentStatus, post: ShipmentStatus, now: Timestamp)
    requires id !in orders
    ensures UpdateOrderEffect(orders, id, pre, post, READ_MODIFY_WRITE, now) == Failure(NoResultFault)
    ensures UpdateOrderEffect(orders, id, pre, post, WRITE_ONLY, now) == Success(orders)
  {
  }

  /** Repeating an update whose pre and post differ changes nothing the second time, at any time. */
  lemma UpdateIdempotent(orders: map<Uuid, OrderRow>, id: Uuid, pre: ShipmentStatus, post: ShipmentStatus,
                         pattern: Pattern, first: Timestamp, second: Timestamp)
    requires pre != post
    requires UpdateOrderEffect(orders, id, pre, post, pattern, first).Success?
    ensures var once := UpdateOrderEffect(orders, id, pre, post, pattern, first).value;
      UpdateOrderEffect(once, id, pre, post, pattern, second) == Success(once)
  {
    if pattern == WRITE_ONLY {
      UpdateOrderStatusIdempotent(orders, id, pre, post);
    }
  }

  /** placed to confirmed, then confirmed to delivered, each take effect under either pattern. */
  lemma SequentialUpdates(orders: map<Uuid, OrderRow>, id: Uuid, pattern: Pattern, t1: Timestamp, t2: Timestamp)
    requires id in orders && orders[id].status == placed
    ensures var first := UpdateOrderEffect(orders, id, placed, confirmed, pattern, t1);
      && first.Success? && first.value[id].status == confirmed
      && var second := UpdateOrderEffect(first.value, id, confirmed, delivered, pattern, t2);
         second.Success? && second.value[id].status == delivered
  {
  }

  /**
   * `updateOrder`, inside the caller's transaction: needs a read-write
   * transaction, applies the status update of the simulation's pattern,
   * thinks for the simulation's delay, then flushes. The lock mode the status
   * query runs with is the simulation's, since the second `setLockMode`
   * overrides the first.
   */
  method UpdateOrder(store: Store, id: Uuid, pre: ShipmentStatus, post: ShipmentStatus, simulation: Simulation, now: Timestamp)
    returns (r: Option<Throwable>, lockMode: Option<LockModeType>)
    requires store.Valid()
    modifies store
    ensures store.Valid() && store.committed == old(store.committed) && store.tx == old(store.tx)
    ensures store.nextId == old(store.nextId)
    ensures !IsReadWriteTransaction(store.tx) ==>
      r == Some(AssertReadWriteTransaction(store.tx).error) && lockMode.None? && store.working == old(store.working)
    ensures IsReadWriteTransaction(store.tx) ==>
      var effect := UpdateOrderEffect(old(store.working.orders), id, pre, post, simulation.pattern, now);
      && lockMode == Some(simulation.lockModeType)
      && (effect.Failure? ==> r == Some(effect.error) && store.working == old(store.working))
      && (effect.Success? ==>
            && store.working == old(store.working).(orders := effect.value)
            && (r.None? <==> ChecksHold(store.working.inventory))
            && (r.Some? ==> r.value == ConstraintViolationFault))
  {
    var guard := AssertReadWriteTransaction(store.tx);
    if guard.Fail? {
      return Some(guard.error), None;
    }
    var failure: Option<Throwable>;
    var lock: LockModeType;
    if simulation.pattern == READ_MODIFY_WRITE {
      failure, lock := UpdateOrderReadModifyWrite(store, id, pre, post, simulation, now);
    } else {
      var rows;
      rows, lock := UpdateOrderWriteOnly(store, id, pre, post, simulation);
      failure := None;
    }
    lockMode := Some(lock);
    if failure.Some? {
      return failure, lockMode;
    }
    var _ := simulation.ThinkTime();
    r := store.Flush();
  }

  /** Reads the order with the simulation's lock mode and changes it if it is in `pre`. */
  method UpdateOrderReadModifyWrite(store: Store, id: Uuid, pre: ShipmentStatus, post: ShipmentStatus, simulation: Simulation, now: Timestamp)
    returns (r: Option<Throwable>, lockMode: LockModeType)
    requires store.Valid() && IsReadWriteTransaction(store.tx)
    modifies store
    ensures store.Valid() && store.committed == old(store.committed) && store.tx == old(store.tx)
    ensures store.nextId == old(store.nextId)
    ensures lockMode == simulation.lockModeType
    ensures var effect := UpdateOrderEffect(old(store.working.orders), id, pre, post, READ_MODIFY_WRITE, now);
      && (effect.Failure? ==> r == Some(effect.error) && store.working == old(store.working))
      && (effect.Success? ==> r.None? && store.working == old(store.working).(orders := effect.value))
  {
    lockMode := PESSIMISTIC_WRITE;
    lockMode := simulation.lockModeType;
    if id !in store.working.orders {
      return Some(NoResultFault), lockMode;
    }
    var order := store.working.orders[id];
    if order.status == pre {
      store.Write(store.working.(orders := store.working.orders[id := order.(status := post, dateUpdated := now)]));
    }
    r := None;
  }

  /** The conditional UPDATE by id and `pre`; the count of affected rows is only logged. */
  method UpdateOrderWriteOnly(store: Store, id: Uuid, pre: ShipmentStatus, post: ShipmentStatus, simulation: Simulation)
    returns (rowsAffected: nat, lockMode: LockModeType)
    requires store.Valid() && IsReadWriteTransaction(store.tx)
    modifies store
    ensures store.Valid() && store.committed == old(store.committed) && store.tx == old(store.tx)
    ensures store.nextId == old(store.nextId)
    ensures lockMode == simulation.lockModeType
    ensures rowsAffected == UpdateOrderStatusById(old(store.working.orders), id, pre, post).1
    ensures store.working == old(store.working).(orders := UpdateOrderStatusById(old(store.working.orders), id, pre, post).0)
  {
    lockMode := simulation.lockModeType;
    var update := UpdateOrderStatusById(store.working.orders, id, pre, post);
    store.Write(store.working.(orders := update.0));
    rowsAffected := update.1;
  }
}

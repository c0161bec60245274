/**
 * The outbox and inbox patterns: an order service tagged as an outbox
 * operation writes the order it returns to the outbox table inside the
 * transaction that placed it, and the inbox service upserts the order into
 * the inbox table without any transaction of its own.
 */
module OutboxInbox {
  import opened Common
  import opened AssertUtils
  import opened AdvisorOrder
  import opened Orders
  import opened Storage
  import opened OrderPlacement

  /** What the JSON writer sees of an order when it serialises it. */
  datatype OrderSnapshot = OrderSnapshot(
    id: Option<Uuid>,
    customer: Customer,
    orderItems: seq<PurchaseOrderItem>,
    status: ShipmentStatus,
    totalPrice: Option<real>,
    datePlaced: Option<Timestamp>,
    dateUpdated: Option<Timestamp>,
    deliveryAddress: Option<Address>)

  function Snapshot(order: PurchaseOrder): OrderSnapshot
    reads order
  {
    OrderSnapshot(order.id, order.customer, order.orderItems, order.status, order.totalPrice,
                  order.datePlaced, order.dateUpdated, order.deliveryAddress)
  }

  /**
   * The JSON writer: the payload text, or the JsonProcessingException it
   * throws.
   */
  type Serializer = OrderSnapshot -> Result<string>

  /** The inbox table's key for a row of the given aggregate type and payload. */
  type InboxKey = (string, string) -> string

  /** The aggregate type both services tag their events with. */
  const PURCHASE_ORDER: string := "purchase_order"

  const NoTransactionMessage: string := "Expected existing transaction - check advisor @Order"

  /** What `Assert.isTrue` throws when no transaction is active. */
  const NoTransactionFault: Throwable := Fault(IllegalArgument, NoTransactionMessage)

  const SerializationMessage: string := "Error serializing outbox JSON payload"

  /** The RuntimeException that wraps a serialisation failure. */
  function SerializationFault(cause: Throwable): (r: Throwable)
    ensures r.kind == RuntimeException && r.cause == Some(cause)
  {
    Throwable(RuntimeException, SerializationMessage, Some(cause))
  }

  /** The outbox aspect runs innermost, inside the transaction the transaction manager opened. */
  const OutboxAspectPrecedence: int := CHANGE_FEED_ADVISOR

  lemma OutboxAdviceInsideTransaction()
    ensures OutboxAspectPrecedence == Precedence(ChangeFeed)
    ensures forall a :: a != ChangeFeed ==> Encloses(a, ChangeFeed)
  {
  }

  /**
   * `OutboxJdbcRepository.writeEvent`: needs an open transaction, serialises
   * the event and inserts one outbox row into that transaction.
   */
  method WriteOutboxEvent(store: Store, event: OrderSnapshot, aggregateType: string, serialize: Serializer)
    returns (err: Option<Throwable>)
    requires store.Valid()
    modifies store
    ensures store.Valid() && store.committed == old(store.committed) && store.tx == old(store.tx)
    ensures store.nextId == old(store.nextId)
    ensures !store.tx.active ==> err == Some(NoTransactionFault) && store.working == old(store.working)
    ensures store.tx.active && serialize(event).Failure? ==>
      err == Some(SerializationFault(serialize(event).error)) && store.working == old(store.working)
    ensures store.tx.active && serialize(event).Success? ==>
      && err.None?
      && store.working == old(store.working).(outbox := old(store.working.outbox) + [OutboxRow(aggregateType, serialize(event).value)])
  {
    if !store.tx.active {
      return Some(NoTransactionFault);
    }
    var json := serialize(event);
    if json.Failure? {
      return Some(SerializationFault(json.error));
    }
    store.Write(store.working.(outbox := store.working.outbox + [OutboxRow(aggregateType, json.value)]));
    err := None;
  }

  /**
   * `OutboxAspect.doAfterOutboxOperation`: after a tagged method returns
   * normally, checks that a transaction is open and writes the returned
   * value as an outbox event of the tag's aggregate type.
   */
  method DoAfterOutboxOperation(store: Store, returnValue: OrderSnapshot, aggregateType: string, serialize: Serializer)
    returns (err: Option<Throwable>)
    requires store.Valid()
    modifies store
    ensures store.Valid() && store.committed == old(store.committed) && store.tx == old(store.tx)
    ensures !store.tx.active ==> err == Some(NoTransactionFault) && store.working == old(store.working)
    ensures store.tx.active && serialize(returnValue).Failure? ==>
      err == Some(SerializationFault(serialize(returnValue).error)) && store.working == old(store.working)
    ensures store.tx.active && serialize(returnValue).Success? ==>
      && err.None?
      && store.working == old(store.working).(outbox := old(store.working.outbox) + [OutboxRow(aggregateType, serialize(returnValue).value)])
  {
    if !store.tx.active {
      return Some(NoTransactionFault);
    }
    err := WriteOutboxEvent(store, returnValue, aggregateType, serialize);
  }

  /**
   * `placeOrder` of the outbox order service and of the patterns chapter's
   * facade: the shared placement, then, on a normal return only, the outbox
   * advice with aggregate type "purchase_order". A failing outbox write
   * replaces the result with its exception.
   */
  method PlaceOrderWithOutbox(store: Store, order: PurchaseOrder, now: Timestamp, serialize: Serializer)
    returns (r: Result<PurchaseOrder>)
    requires store.Valid()
    modifies store, order
    ensures store.Valid() && store.committed == old(store.committed) && store.tx == old(store.tx)
    ensures !IsReadWriteTransaction(old(store.tx)) ==>
      r == Failure(AssertReadWriteTransaction(old(store.tx)).error) && store.working == old(store.working)
    ensures IsReadWriteTransaction(old(store.tx)) ==>
      var effect := PlaceOrderEffect(old(store.working.inventory), order.orderItems);
      && (effect.Failure? ==> r == Failure(effect.error) && store.working == old(store.working))
      && (effect.Success? && serialize(Snapshot(order)).Failure? ==>
            && r == Failure(SerializationFault(serialize(Snapshot(order)).error))
            && order.id.Some? && order.totalPrice.Some? && order.datePlaced.Some? && order.dateUpdated.Some?
            && store.working == old(store.working).(
                 inventory := effect.value,
                 orders := old(store.working.orders)[order.id.value := order.Row()]))
      && (effect.Success? && serialize(Snapshot(order)).Success? ==>
            && r == Success(order) && order.id.Some? && order.totalPrice.Some?
            && (old(order.id).None? ==> order.id.value !in old(store.working.orders))
            && order.datePlaced.Some? && order.dateUpdated.Some?
            && store.working == old(store.working).(
                 inventory := effect.value,
                 orders := old(store.working.orders)[order.id.value := order.Row()],
                 outbox := old(store.working.outbox) + [OutboxRow(PURCHASE_ORDER, serialize(Snapshot(order)).value)]))
  {
    r := PlaceOrder(store, order, now);
    if r.Failure? {
      return;
    }
    var err := DoAfterOutboxOperation(store, Snapshot(order), PURCHASE_ORDER, serialize);
    if err.Some? {
      return Failure(err.value);
    }
  }

  /**
   * The tagged `placeOrder` through its transactional proxy, the outbox
   * advice running inside the transaction: the order's row, the lowered
   * inventory and exactly one outbox row holding the returned order are
   * committed together, and when any of them fails none is.
   */
  method PlaceOrderWithOutboxInTransaction(store: Store, order: PurchaseOrder, now: Timestamp, serialize: Serializer)
    returns (r: Result<PurchaseOrder>)
    requires store.Valid() && !store.tx.active
    modifies store, order
    ensures store.Valid() && !store.tx.active
    ensures r.Failure? ==> store.committed == old(store.committed)
    ensures var effect := PlaceOrderEffect(old(store.committed.inventory), order.orderItems);
      && (r.Success? <==> effect.Success? && serialize(Snapshot(order)).Success?)
      && (r.Success? ==>
            && r == Success(order) && order.id.Some? && order.totalPrice.Some?
            && (old(order.id).None? ==> order.id.value !in old(store.committed.orders))
            && order.datePlaced.Some? && order.dateUpdated.Some?
            && store.committed == old(store.committed).(
                 inventory := effect.value,
                 orders := old(store.committed.orders)[order.id.value := order.Row()],
                 outbox := old(store.committed.outbox) + [OutboxRow(PURCHASE_ORDER, serialize(Snapshot(order)).value)]))
  {
    store.Begin(false);
    r := PlaceOrderWithOutbox(store, order, now, serialize);
    if r.Success? {
      var err := store.Commit();
      assert err.None?;
    } else {
      store.Rollback();
    }
  }

  /**
   * `InboxJdbcRepository.writeEvent`: serialises the event and upserts it
   * into the inbox under its key, with no transaction required; outside a
   * transaction the write commits on its own. Nothing but the inbox changes.
   */
  method WriteInboxEvent(store: Store, event: OrderSnapshot, aggregateType: string, serialize: Serializer, keyOf: InboxKey)
    returns (err: Option<Throwable>)
    requires store.Valid()
    modifies store
    ensures store.Valid() && store.tx == old(store.tx)
    ensures serialize(event).Failure? ==>
      err == Some(SerializationFault(serialize(event).error))
      && store.working == old(store.working) && store.committed == old(store.committed)
    ensures serialize(event).Success? ==>
      var json := serialize(event).value;
      var inbox := old(store.working.inbox)[keyOf(aggregateType, json) := InboxRow(aggregateType, json)];
      && err.None?
      && store.working == old(store.working).(inbox := inbox)
      && (!store.tx.active ==> store.committed == store.working)
      && (store.tx.active ==> store.committed == old(store.committed))
  {
    var json := serialize(event);
    if json.Failure? {
      return Some(SerializationFault(json.error));
    }
    var key := keyOf(aggregateType, json.value);
    store.WriteAutoCommit(store.working.(inbox := store.working.inbox[key := InboxRow(aggregateType, json.value)]));
    err := None;
  }

  /**
   * `InboxService.placeOrder` through its `@TransactionImplicit` proxy
   * (propagation NOT_SUPPORTED): any transaction of the caller is suspended,
   * so the repository's UPSERT of the order, as a "purchase_order" event,
   * commits on its own, whether the caller later commits or rolls back. The
   * same order is returned; a failed serialisation propagates and writes
   * nothing.
   */
  method InboxPlaceOrder(store: Store, order: PurchaseOrder, serialize: Serializer, keyOf: InboxKey)
    returns (r: Result<PurchaseOrder>)
    requires store.Valid()
    modifies store
    ensures store.Valid() && store.tx == old(store.tx) && store.nextId == old(store.nextId)
    ensures serialize(Snapshot(order)).Failure? ==>
      && r == Failure(SerializationFault(serialize(Snapshot(order)).error))
      && store.working == old(store.working) && store.committed == old(store.committed)
    ensures serialize(Snapshot(order)).Success? ==>
      var json := serialize(Snapshot(order)).value;
      var key := keyOf(PURCHASE_ORDER, json);
      && r == Success(order)
      && store.committed == old(store.committed).(inbox := old(store.committed.inbox)[key := InboxRow(PURCHASE_ORDER, json)])
      && store.working == old(store.working).(inbox := old(store.working.inbox)[key := InboxRow(PURCHASE_ORDER, json)])
  {
    var json := serialize(Snapshot(order));
    if json.Failure? {
      return Failure(SerializationFault(json.error));
    }
    store.UpsertInboxSuspended(keyOf(PURCHASE_ORDER, json.value), InboxRow(PURCHASE_ORDER, json.value));
    r := Success(order);
  }

  /**
   * A caller that opens a transaction, has the inbox service take an order
   * and then rolls back still leaves the order's inbox row committed, and
   * nothing else of its transaction.
   */
  method InboxRowOutlivesCallerRollback(store: Store, order: PurchaseOrder, serialize: Serializer, keyOf: InboxKey)
    returns (r: Result<PurchaseOrder>)
    requires store.Valid() && !store.tx.active
    modifies store
    ensures store.Valid() && !store.tx.active
    ensures r.Success? <==> serialize(Snapshot(order)).Success?
    ensures r.Failure? ==> store.committed == old(store.committed)
    ensures r.Success? ==>
      var json := serialize(Snapshot(order)).value;
      store.committed == old(store.committed).(inbox := old(store.committed.inbox)[keyOf(PURCHASE_ORDER, json) := InboxRow(PURCHASE_ORDER, json)])
  {
    store.Begin(false);
    r := InboxPlaceOrder(store, order, serialize, keyOf);
    store.Rollback();
  }
}

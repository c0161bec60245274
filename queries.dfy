/**
 * The read side of the order services: the finders of the transactions and
 * contention chapters and the order-total sums of the performance chapter.
 * Each one first checks the transaction it runs in.
 */
module OrderQueries {
  import opened Common
  import opened AssertUtils
  import opened Orders
  import opened Storage
  import opened OrderPlacement

  /** What one order adds to the sum of totals in `status`. */
  function Contribution(row: OrderRow, status: ShipmentStatus): real
  {
    if row.status == status then row.totalPrice else 0.0
  }

  /** The sum of the totals of the orders in `keys` that are in `status`. */
  ghost function StatusTotal(orders: map<Uuid, OrderRow>, status: ShipmentStatus, keys: set<Uuid>): real
    requires keys <= orders.Keys
    decreases keys
  {
    if keys == {} then 0.0
    else
      var k :| k in keys;
      Contribution(orders[k], status) + StatusTotal(orders, status, keys - {k})
  }

  /** The sum does not depend on which key is taken first. */
  lemma {:induction false} StatusTotalRemove(orders: map<Uuid, OrderRow>, status: ShipmentStatus, keys: set<Uuid>, k: Uuid)
    requires keys <= orders.Keys && k in keys
    ensures StatusTotal(orders, status, keys) == Contribution(orders[k], status) + StatusTotal(orders, status, keys - {k})
    decreases keys
  {
    var j :| j in keys && StatusTotal(orders, status, keys) == Contribution(orders[j], status) + StatusTotal(orders, status, keys - {j});
    if j != k {
      StatusTotalRemove(orders, status, keys - {j}, k);
      StatusTotalRemove(orders, status, keys - {k}, j);
      assert keys - {j} - {k} == keys - {k} - {j};
    }
  }

  /**
   * `select sum(po.totalPrice) from PurchaseOrder po where po.status = :status`:
   * SQL's SUM over no rows is null, here None.
   */
  ghost function SumOrderTotal(orders: map<Uuid, OrderRow>, status: ShipmentStatus): (r: Option<real>)
    ensures r.None? <==> forall k :: k in orders ==> orders[k].status != status
  {
    if exists k :: k in orders && orders[k].status == status then Some(StatusTotal(orders, status, orders.Keys))
    else None
  }

  /**
   * Saving one more order adds its total to the sum of its status and leaves
   * the sums of the other statuses as they were.
   */
  lemma SumAfterNewOrder(orders: map<Uuid, OrderRow>, status: ShipmentStatus, id: Uuid, row: OrderRow)
    requires id !in orders
    ensures var before := SumOrderTotal(orders, status);
      SumOrderTotal(orders[id := row], status) ==
        if row.status != status then before
        else Some(row.totalPrice + if before.Some? then before.value else 0.0)
  {
    var after := orders[id := row];
    StatusTotalRemove(after, status, after.Keys, id);
    assert after.Keys - {id} == orders.Keys;
    StatusTotalAgree(orders, after, status, orders.Keys);
    if row.status != status && SumOrderTotal(orders, status).None? {
      assert forall k :: k in after ==> after[k].status != status;
    }
    if SumOrderTotal(orders, status).None? {
      StatusTotalNone(orders, status, orders.Keys);
    }
  }

  /** Two tables that agree on `keys` have the same sum over them. */
  lemma {:induction false} StatusTotalAgree(a: map<Uuid, OrderRow>, b: map<Uuid, OrderRow>, status: ShipmentStatus, keys: set<Uuid>)
    requires keys <= a.Keys && keys <= b.Keys
    requires forall k :: k in keys ==> a[k] == b[k]
    ensures StatusTotal(a, status, keys) == StatusTotal(b, status, keys)
    decreases keys
  {
    if keys != {} {
      var k :| k in keys && StatusTotal(a, status, keys) == Contribution(a[k], status) + StatusTotal(a, status, keys - {k});
      StatusTotalRemove(b, status, keys, k);
      StatusTotalAgree(a, b, status, keys - {k});
    }
  }

  /** With no order in `status` among `keys`, the sum over them is 0. */
  lemma {:induction false} StatusTotalNone(orders: map<Uuid, OrderRow>, status: ShipmentStatus, keys: set<Uuid>)
    requires keys <= orders.Keys
    requires forall k :: k in keys ==> orders[k].status != status
    ensures StatusTotal(orders, status, keys) == 0.0
    decreases keys
  {
    if keys != {} {
      var k :| k in keys && StatusTotal(orders, status, keys) == Contribution(orders[k], status) + StatusTotal(orders, status, keys - {k});
      StatusTotalNone(orders, status, keys - {k});
      assert Contribution(orders[k], status) == 0.0;
    }
  }

  /** The aggregate query itself, row by row. */
  method QuerySumOrderTotal(orders: map<Uuid, OrderRow>, status: ShipmentStatus) returns (r: Option<real>)
    ensures r == SumOrderTotal(orders, status)
  {
    var rest := orders.Keys;
    var total := 0.0;
    var matched := false;
    while rest != {}
      invariant rest <= orders.Keys
      invariant total + StatusTotal(orders, status, rest) == StatusTotal(orders, status, orders.Keys)
      invariant matched <==> exists k :: k in orders.Keys - rest && orders[k].status == status
      decreases rest
    {
      var k :| k in rest;
      StatusTotalRemove(orders, status, rest, k);
      if orders[k].status == status {
        total := total + orders[k].totalPrice;
        matched := true;
      }
      rest := rest - {k};
    }
    if matched {
      r := Some(total);
    } else {
      r := None;
    }
  }

  /** `sumOrderTotals`: outside any transaction, the sum over placed orders. */
  method SumOrderTotals(store: Store) returns (r: Result<Option<real>>)
    requires store.Valid()
    ensures IsNoTransaction(store.tx) ==> r == Success(SumOrderTotal(store.committed.orders, placed))
    ensures !IsNoTransaction(store.tx) ==> r == Failure(AssertNoTransaction(store.tx).error)
  {
    var guard := AssertNoTransaction(store.tx);
    if guard.Fail? {
      return Failure(guard.error);
    }
    var sum := QuerySumOrderTotal(store.working.orders, placed);
    r := Success(sum);
  }

  /**
   * `sumOrderTotalsHistoricalQuery`: the same sum, in a read-only transaction
   * (a follower read, whose staleness is not modelled).
   */
  method SumOrderTotalsHistoricalQuery(store: Store) returns (r: Result<Option<real>>)
    requires store.Valid()
    ensures IsReadOnlyTransaction(store.tx) ==> r == Success(SumOrderTotal(store.working.orders, placed))
    ensures !IsReadOnlyTransaction(store.tx) ==> r == Failure(AssertReadOnlyTransaction(store.tx).error)
  {
    var guard := AssertReadOnlyTransaction(store.tx);
    if guard.Fail? {
      return Failure(guard.error);
    }
    var sum := QuerySumOrderTotal(store.working.orders, placed);
    r := Success(sum);
  }

  /** `sumOrderTotalsHistoricalNativeQuery`: the native query, with no transaction check at all. */
  method SumOrderTotalsHistoricalNativeQuery(store: Store) returns (r: Option<real>)
    ensures r == SumOrderTotal(store.working.orders, placed)
  {
    r := QuerySumOrderTotal(store.working.orders, placed);
  }

  /** `findProducts`: outside any transaction, every product's inventory. */
  method FindProducts(store: Store) returns (r: Result<map<Uuid, int>>)
    requires store.Valid()
    ensures IsNoTransaction(store.tx) ==> r == Success(store.committed.inventory)
    ensures !IsNoTransaction(store.tx) ==> r == Failure(AssertNoTransaction(store.tx).error)
  {
    var guard := AssertNoTransaction(store.tx);
    if guard.Fail? {
      return Failure(guard.error);
    }
    r := Success(store.working.inventory);
  }

  /** `findOrders`: outside any transaction, every order. */
  method FindOrders(store: Store) returns (r: Result<map<Uuid, OrderRow>>)
    requires store.Valid()
    ensures IsNoTransaction(store.tx) ==> r == Success(store.committed.orders)
    ensures !IsNoTransaction(store.tx) ==> r == Failure(AssertNoTransaction(store.tx).error)
  {
    var guard := AssertNoTransaction(store.tx);
    if guard.Fail? {
      return Failure(guard.error);
    }
    r := Success(store.working.orders);
  }

  /** `findOrderById`: in a read-only transaction, the order if there is one. */
  method FindOrderById(store: Store, id: Uuid) returns (r: Result<Option<OrderRow>>)
    ensures IsReadOnlyTransaction(store.tx) ==>
      && r.Success?
      && (r.value.Some? <==> id in store.working.orders)
      && (r.value.Some? ==> r.value.value == store.working.orders[id])
    ensures !IsReadOnlyTransaction(store.tx) ==> r == Failure(AssertReadOnlyTransaction(store.tx).error)
  {
    var guard := AssertReadOnlyTransaction(store.tx);
    if guard.Fail? {
      return Failure(guard.error);
    }
    if id in store.working.orders {
      r := Success(Some(store.working.orders[id]));
    } else {
      r := Success(None);
    }
  }

  /**
   * `sumOrderTotals` before and after placing an order that arrives without
   * an id: the placed total grows by exactly that order's subtotal, since the
   * order is saved under an id no row had; a failed placement leaves it as
   * it was.
   */
  method PlaceOrderThenSum(store: Store, order: PurchaseOrder, now: Timestamp)
    returns (r: Result<PurchaseOrder>, before: Option<real>, after: Option<real>)
    requires store.Valid() && !store.tx.active
    modifies store, order
    ensures store.Valid() && !store.tx.active
    ensures before == old(SumOrderTotal(store.committed.orders, placed))
    ensures r.Failure? ==> after == before
    ensures r.Success? && old(order.id).None? ==>
      && SumCosts(order.orderItems).Success? && order.totalPrice == Some(SumCosts(order.orderItems).value)
      && after == Some(order.totalPrice.value + if before.Some? then before.value else 0.0)
  {
    ghost var orders := store.committed.orders;
    var sum := SumOrderTotals(store);
    before := sum.value;
    r := PlaceOrderInTransaction(store, order, now);
    sum := SumOrderTotals(store);
    after := sum.value;
    if r.Success? && old(order.id).None? {
      SumAfterNewOrder(orders, placed, order.id.value, order.Row());
    }
  }
}

/**
 * Placing one order, the step every chapter's order service shares: lower
 * each line item's product inventory by its quantity, mark the order placed,
 * price it at its subtotal and save it, turning a check-constraint failure
 * at flush into a BusinessException.
 */
module OrderPlacement {
  import opened Common
  import opened AssertUtils
  import opened Orders
  import opened Storage

  /** What a product lookup throws for an item without a product id, and for an unknown id. */
  datatype LookupFaults = LookupFaults(nullId: Throwable, missing: Throwable)

  /**
   * `requireNonNull(id)` then `getReferenceById(id)`: a null id throws at once;
   * an unknown id throws EntityNotFoundException when the reference is used.
   */
  const ReferenceFaults: LookupFaults :=
    LookupFaults(NullPointerFault, Fault(EntityNotFound, "Unable to find Product"))

  /** Every item names a product id that the inventory holds. */
  predicate Resolvable(inventory: map<Uuid, int>, items: seq<PurchaseOrderItem>)
  {
    forall i :: 0 <= i < |items| ==> items[i].product.id.Some? && items[i].product.id.value in inventory
  }

  /** The number of units of product `p` that `items` order, summed over every item naming it. */
  function TotalQuantity(items: seq<PurchaseOrderItem>, p: Uuid): int
  {
    if items == [] then 0
    else TotalQuantity(items[..|items| - 1], p)
         + (if items[|items| - 1].product.id == Some(p) then items[|items| - 1].quantity else 0)
  }

  /**
   * The inventory after lowering, item by item from the first, each item's
   * product by its quantity; the first item that cannot be resolved stops it.
   */
  function ApplyItems(inventory: map<Uuid, int>, items: seq<PurchaseOrderItem>, faults: LookupFaults): (r: Result<map<Uuid, int>>)
    ensures r.Success? ==> r.value.Keys == inventory.Keys
    ensures r.Failure? ==> r.error == faults.nullId || r.error == faults.missing
  {
    if items == [] then Success(inventory)
    else
      var init := ApplyItems(inventory, items[..|items| - 1], faults);
      var item := items[|items| - 1];
      if init.Failure? then init
      else if item.product.id.None? then Failure(faults.nullId)
      else if item.product.id.value !in init.value then Failure(faults.missing)
      else Success(init.value[item.product.id.value := init.value[item.product.id.value] - item.quantity])
  }

  /**
   * Applying the items succeeds exactly when every item resolves, and then
   * lowers each product by the total quantity ordered of it, repeated
   * products accumulating.
   */
  lemma {:induction false} ApplyItemsLowersByTotalQuantity(inventory: map<Uuid, int>, items: seq<PurchaseOrderItem>, faults: LookupFaults)
    ensures ApplyItems(inventory, items, faults).Success? <==> Resolvable(inventory, items)
    ensures ApplyItems(inventory, items, faults).Success? ==>
      forall p :: p in inventory ==> ApplyItems(inventory, items, faults).value[p] == inventory[p] - TotalQuantity(items, p)
  {
    if items != [] {
      var init := items[..|items| - 1];
      var item := items[|items| - 1];
      ApplyItemsLowersByTotalQuantity(inventory, init, faults);
      assert forall i :: 0 <= i < |init| ==> init[i] == items[i];
      if Resolvable(inventory, items) {
        assert item.product.id.Some? && item.product.id.value in inventory;
      } else if Resolvable(inventory, init) {
        assert !(item.product.id.Some? && item.product.id.value in inventory);
      }
    }
  }

  /**
   * What placing an order does to the inventory of the open transaction:
   * the lookups may fail, then the subtotal may fail (an unpriced item), then
   * the flush fails when any inventory would go negative.
   */
  function PlaceOrderEffect(inventory: map<Uuid, int>, items: seq<PurchaseOrderItem>): (r: Result<map<Uuid, int>>)
    ensures r.Success? ==> ChecksHold(r.value) && r.value.Keys == inventory.Keys
  {
    var applied := ApplyItems(inventory, items, ReferenceFaults);
    if applied.Failure? then Failure(applied.error)
    else if SumCosts(items).Failure? then Failure(UnpricedFault)
    else if !ChecksHold(applied.value) then Failure(BusinessFault(ConstraintViolationFault))
    else applied
  }

  /**
   * Placement succeeds exactly when every item resolves, every item is
   * priced and no product is ordered beyond its inventory; it then lowers
   * each product by exactly the quantity ordered of it. When everything
   * resolves and is priced, the only other outcome is the
   * BusinessException wrapping the constraint violation.
   */
  lemma PlaceOrderEffectMeaning(inventory: map<Uuid, int>, items: seq<PurchaseOrderItem>)
    ensures PlaceOrderEffect(inventory, items).Success? <==>
      && Resolvable(inventory, items) && AllPriced(items)
      && (forall p :: p in inventory ==> TotalQuantity(items, p) <= inventory[p])
    ensures PlaceOrderEffect(inventory, items).Success? ==>
      forall p :: p in inventory ==> PlaceOrderEffect(inventory, items).value[p] == inventory[p] - TotalQuantity(items, p)
    ensures Resolvable(inventory, items) && AllPriced(items) && PlaceOrderEffect(inventory, items).Failure? ==>
      PlaceOrderEffect(inventory, items).error == BusinessFault(ConstraintViolationFault)
  {
    ApplyItemsLowersByTotalQuantity(inventory, items, ReferenceFaults);
    SumCostsIsPricedTotal(items);
  }

  /**
   * Ordering a product's whole inventory leaves it at 0; one more unit of it
   * is then refused with the BusinessException wrapping the integrity
   * violation.
   */
  lemma WholeInventoryThenOneMore(inventory: map<Uuid, int>, p: Uuid, price: real, sku: Option<string>)
    requires ChecksHold(inventory) && p in inventory && inventory[p] > 0
    ensures var first := PlaceOrderEffect(inventory, [PurchaseOrderItem(inventory[p], Some(price), ProductRef(Some(p), sku))]);
      && first.Success? && first.value[p] == 0
      && PlaceOrderEffect(first.value, [PurchaseOrderItem(1, Some(price), ProductRef(Some(p), sku))])
         == Failure(BusinessFault(ConstraintViolationFault))
  {
    var whole := [PurchaseOrderItem(inventory[p], Some(price), ProductRef(Some(p), sku))];
    var one := [PurchaseOrderItem(1, Some(price), ProductRef(Some(p), sku))];
    assert whole[..0] == [] && one[..0] == [];
    assert forall q :: TotalQuantity(whole, q) == if q == p then inventory[p] else 0;
    PlaceOrderEffectMeaning(inventory, whole);
    assert Resolvable(inventory, whole) && AllPriced(whole);
    var first := PlaceOrderEffect(inventory, whole);
    assert TotalQuantity(one, p) == 1;
    PlaceOrderEffectMeaning(first.value, one);
  }

  /** The `forEach` over the line items, lowering each product's inventory in turn. */
  method LowerInventories(inventory: map<Uuid, int>, items: seq<PurchaseOrderItem>, faults: LookupFaults) returns (r: Result<map<Uuid, int>>)
    ensures r == ApplyItems(inventory, items, faults)
  {
    var current := inventory;
    var i := 0;
    while i < |items|
      invariant 0 <= i <= |items|
      invariant ApplyItems(inventory, items[..i], faults) == Success(current)
    {
      assert items[..i + 1][..i] == items[..i];
      var productId := items[i].product.id;
      if productId.None? {
        ApplyItemsFailureExtends(inventory, items, faults, i + 1);
        return Failure(faults.nullId);
      }
      if productId.value !in current {
        ApplyItemsFailureExtends(inventory, items, faults, i + 1);
        return Failure(faults.missing);
      }
      current := current[productId.value := current[productId.value] - items[i].quantity];
      i := i + 1;
    }
    assert items[..i] == items;
    r := Success(current);
  }

  /** Once a prefix of the items fails to apply, every longer prefix fails with the same error. */
  lemma {:induction false} ApplyItemsFailureExtends(inventory: map<Uuid, int>, items: seq<PurchaseOrderItem>, faults: LookupFaults, n: nat)
    requires n <= |items|
    requires ApplyItems(inventory, items[..n], faults).Failure?
    ensures ApplyItems(inventory, items, faults) == ApplyItems(inventory, items[..n], faults)
    decreases |items| - n
  {
    if n < |items| {
      assert items[..n + 1][..n] == items[..n];
      ApplyItemsFailureExtends(inventory, items, faults, n + 1);
    } else {
      assert items[..n] == items;
    }
  }

  /**
   * The body of `placeOrder`, inside the caller's transaction. It needs a
   * read-write transaction; on success the same order object is returned,
   * placed, priced at its subtotal and saved, and the working tables hold
   * the lowered inventory and the order's row. A failure leaves the order
   * row unsaved; the transaction is then rolled back by its owner.
   */
  method PlaceOrder(store: Store, order: PurchaseOrder, now: Timestamp) returns (r: Result<PurchaseOrder>)
    requires store.Valid()
    modifies store, order
    ensures store.Valid() && store.committed == old(store.committed) && store.tx == old(store.tx)
    ensures !IsReadWriteTransaction(old(store.tx)) ==>
      r == Failure(AssertReadWriteTransaction(old(store.tx)).error) && store.working == old(store.working)
    ensures IsReadWriteTransaction(old(store.tx)) ==>
      var effect := PlaceOrderEffect(old(store.working.inventory), order.orderItems);
      && (r.Failure? <==> effect.Failure?)
      && (r.Failure? ==> r.error == effect.error && store.working == old(store.working))
      && (r.Success? ==>
            && r == Success(order) && order.status == placed
            && order.totalPrice == Some(SumCosts(order.orderItems).value)
            && order.id.Some? && (old(order.id).Some? ==> order.id == old(order.id))
            && (old(order.id).None? ==> order.id.value !in old(store.working.orders))
            && order.datePlaced.Some? && order.dateUpdated.Some?
            && store.working == old(store.working).(inventory := effect.value,
                                                    orders := old(store.working.orders)[order.id.value := order.Row()]))
  {
    var guard := AssertReadWriteTransaction(store.tx);
    if guard.Fail? {
      return Failure(guard.error);
    }
    var applied := LowerInventories(store.working.inventory, order.orderItems, ReferenceFaults);
    if applied.Failure? {
      return Failure(applied.error);
    }
    order.SetStatus(placed);
    var subTotal := order.SubTotal();
    if subTotal.Failure? {
      return Failure(subTotal.error);
    }
    order.SetTotalPrice(Some(subTotal.value));
    r := SaveAndFlush(store, order, applied.value, now);
  }

  /**
   * `saveAndFlush`: assigns an id to an order that has none, stamps it,
   * writes its row and the lowered inventory, and flushes; a constraint
   * violation surfaces as `BusinessException("Constraint violation", e)`.
   */
  method SaveAndFlush(store: Store, order: PurchaseOrder, inventory: map<Uuid, int>, now: Timestamp) returns (r: Result<PurchaseOrder>)
    requires store.Valid() && IsReadWriteTransaction(store.tx) && order.totalPrice.Some?
    modifies store, order
    ensures store.Valid() && store.committed == old(store.committed) && store.tx == old(store.tx)
    ensures order.status == old(order.status) && order.totalPrice == old(order.totalPrice)
    ensures order.id.Some? && (old(order.id).Some? ==> order.id == old(order.id))
    ensures old(order.id).None? ==> order.id.value !in old(store.working.orders) && order.id.value !in old(store.committed.orders)
    ensures order.datePlaced.Some? && order.dateUpdated.Some?
    ensures r.Failure? <==> !ChecksHold(inventory)
    ensures r.Failure? ==> r.error == BusinessFault(ConstraintViolationFault) && store.working == old(store.working)
    ensures r.Success? ==>
      && r == Success(order)
      && store.working == old(store.working).(inventory := inventory,
                                              orders := old(store.working.orders)[order.id.value := order.Row()])
  {
    if order.id.None? {
      var id := store.GenerateId();
      order.id := Some(id);
    }
    order.PreCreate(now);
    if !ChecksHold(inventory) {
      return Failure(BusinessFault(ConstraintViolationFault));
    }
    store.Write(store.working.(inventory := inventory, orders := store.working.orders[order.id.value := order.Row()]));
    var err := store.Flush();
    assert err.None?;
    r := Success(order);
  }

  /**
   * `placeOrder` called through its transactional proxy: a read-write
   * transaction is opened around the body and committed on return, or rolled
   * back on a throw, so that a failed placement leaves no inventory change
   * behind.
   */
  method PlaceOrderInTransaction(store: Store, order: PurchaseOrder, now: Timestamp) returns (r: Result<PurchaseOrder>)
    requires store.Valid() && !store.tx.active
    modifies store, order
    ensures store.Valid() && !store.tx.active
    ensures var effect := PlaceOrderEffect(old(store.committed.inventory), order.orderItems);
      && (r.Failure? <==> effect.Failure?)
      && (r.Failure? ==> r.error == effect.error && store.committed == old(store.committed))
      && (r.Success? ==>
            && r == Success(order) && order.status == placed
            && order.totalPrice == Some(SumCosts(order.orderItems).value)
            && order.id.Some? && (old(order.id).Some? ==> order.id == old(order.id))
            && (old(order.id).None? ==> order.id.value !in old(store.committed.orders))
            && order.datePlaced.Some? && order.dateUpdated.Some?
            && store.committed == old(store.committed).(inventory := effect.value,
                                                        orders := old(store.committed.orders)[order.id.value := order.Row()]))
  {
    store.Begin(false);
    r := PlaceOrder(store, order, now);
    if r.Success? {
      var err := store.Commit();
      assert err.None?;
    } else {
      store.Rollback();
    }
  }
}

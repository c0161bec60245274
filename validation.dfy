/**
 * Order placement with pre-validation, from the transactions chapter: every
 * line item is checked by the inventory service outside any database
 * transaction, and only then is the order placed through the transactional
 * proxy.
 */
module OrderValidation {
  import opened Common
  import opened AssertUtils
  import opened Orders
  import opened Storage
  import opened OrderPlacement

  /**
   * The inventory service's check of one product id, unit price and
   * quantity: None when it returns normally, the exception it throws
   * otherwise.
   */
  type Validator = (Uuid, Option<real>, int) -> Option<Throwable>

  /** What checking one item throws: a null product id fails `requireNonNull` before the service is called. */
  function ItemFault(item: PurchaseOrderItem, validate: Validator): Option<Throwable>
  {
    if item.product.id.None? then Some(NullPointerFault)
    else validate(item.product.id.value, item.unitPrice, item.quantity)
  }

  /**
   * The exception of the first item, in order, whose check throws, or None
   * when every item passes.
   */
  function FirstInvalid(items: seq<PurchaseOrderItem>, validate: Validator): (r: Option<Throwable>)
    ensures r.None? <==> forall i :: 0 <= i < |items| ==> ItemFault(items[i], validate).None?
    ensures r.Some? ==> exists i :: 0 <= i < |items| && ItemFault(items[i], validate) == r &&
                                    forall j :: 0 <= j < i ==> ItemFault(items[j], validate).None?
  {
    if items == [] then None
    else
      var init := FirstInvalid(items[..|items| - 1], validate);
      if init.Some? then
        assert forall j :: 0 <= j < |items| - 1 ==> items[..|items| - 1][j] == items[j];
        init
      else
        assert forall j :: 0 <= j < |items| - 1 ==> items[..|items| - 1][j] == items[j];
        ItemFault(items[|items| - 1], validate)
  }

  /** Checks the items one by one, stopping at the first that throws. */
  method ValidateItems(items: seq<PurchaseOrderItem>, validate: Validator) returns (r: Option<Throwable>)
    ensures r == FirstInvalid(items, validate)
  {
    var i := 0;
    while i < |items|
      invariant 0 <= i <= |items|
      invariant FirstInvalid(items[..i], validate).None?
    {
      assert items[..i + 1][..i] == items[..i];
      var fault := ItemFault(items[i], validate);
      if fault.Some? {
        FirstInvalidExtends(items, validate, i + 1);
        return fault;
      }
      i := i + 1;
    }
    assert items[..|items|] == items;
    r := None;
  }

  /** Once a prefix has failed, the whole sequence fails with the same exception. */
  lemma {:induction false} FirstInvalidExtends(items: seq<PurchaseOrderItem>, validate: Validator, n: nat)
    requires n <= |items|
    requires FirstInvalid(items[..n], validate).Some?
    ensures FirstInvalid(items, validate) == FirstInvalid(items[..n], validate)
    decreases |items| - n
  {
    if n < |items| {
      var longer := items[..n + 1];
      assert longer[..n] == items[..n];
      FirstInvalidExtends(items, validate, n + 1);
    } else {
      assert items[..n] == items;
    }
  }

  /**
   * `placeOrderWithValidation`: refuses to run inside a transaction;
   * otherwise an item that fails its check stops everything before any
   * transaction is opened, and an order whose items all pass is placed as
   * `placeOrder` through the proxy places it.
   */
  method PlaceOrderWithValidation(store: Store, order: PurchaseOrder, now: Timestamp, validate: Validator)
    returns (r: Result<PurchaseOrder>)
    requires store.Valid()
    modifies store, order
    ensures store.Valid() && store.tx.active == old(store.tx.active)
    ensures !IsNoTransaction(old(store.tx)) ==>
      r == Failure(AssertNoTransaction(old(store.tx)).error) && store.committed == old(store.committed)
    ensures IsNoTransaction(old(store.tx)) && FirstInvalid(order.orderItems, validate).Some? ==>
      r == Failure(FirstInvalid(order.orderItems, validate).value) && store.committed == old(store.committed)
    ensures IsNoTransaction(old(store.tx)) && FirstInvalid(order.orderItems, validate).None? ==>
      var effect := PlaceOrderEffect(old(store.committed.inventory), order.orderItems);
      && (r.Failure? <==> effect.Failure?)
      && (r.Failure? ==> r.error == effect.error && store.committed == old(store.committed))
      && (r.Success? ==>
            && r == Success(order) && order.id.Some? && order.totalPrice.Some?
            && order.datePlaced.Some? && order.dateUpdated.Some?
            && store.committed == old(store.committed).(inventory := effect.value,
                                                        orders := old(store.committed.orders)[order.id.value := order.Row()]))
  {
    var guard := AssertNoTransaction(store.tx);
    if guard.Fail? {
      return Failure(guard.error);
    }
    var invalid := ValidateItems(order.orderItems, validate);
    if invalid.Some? {
      return Failure(invalid.value);
    }
    r := PlaceOrderInTransaction(store, order, now);
  }

  /**
   * With a validator that accepts everything, as the remote inventory
   * service does, pre-validation refuses only items without a product id,
   * which placement refuses too: every order that placement accepts passes.
   */
  lemma PlaceableOrderPassesValidation(inventory: map<Uuid, int>, items: seq<PurchaseOrderItem>, validate: Validator)
    requires forall id, price, quantity :: validate(id, price, quantity).None?
    requires PlaceOrderEffect(inventory, items).Success?
    ensures FirstInvalid(items, validate).None?
  {
    PlaceOrderEffectMeaning(inventory, items);
  }
}

/**
 * Purchase orders: line items and their nested builder, the order builder's
 * validation, the order entity with its default status, creation timestamps
 * and subtotal, the row image an order is stored as, and the conditional
 * status update by id.
 */
module Orders {
  import opened Common

  datatype ShipmentStatus = placed | confirmed | cancelled | delivered

  datatype Address = Address(address1: string, address2: string, city: string, postcode: string, country: string)

  /** A customer as an order sees it: an identity and a postal address, either of which may be null. */
  datatype Customer = Customer(id: Option<Uuid>, address: Option<Address>)

  /** The placeholder product an item refers to: only its id and SKU are set. */
  datatype ProductRef = ProductRef(id: Option<Uuid>, sku: Option<string>)

  datatype PurchaseOrderItem = PurchaseOrderItem(quantity: int, unitPrice: Option<real>, product: ProductRef)

  const UnpricedFault: Throwable := Fault(IllegalState, "unitPrice is null")

  /** `totalCost`: the exact product of unit price and quantity; a null price throws. */
  function TotalCost(item: PurchaseOrderItem): (r: Result<real>)
    ensures r.Failure? <==> item.unitPrice.None?
    ensures r.Failure? ==> r.error == UnpricedFault
    ensures r.Success? ==> r.value == item.unitPrice.value * item.quantity as real
  {
    if item.unitPrice.None? then Failure(UnpricedFault)
    else Success(item.unitPrice.value * item.quantity as real)
  }

  /**
   * The running sum `subTotal` computes, item by item from the first: the
   * first unpriced item stops it with `UnpricedFault`.
   */
  function SumCosts(items: seq<PurchaseOrderItem>): (r: Result<real>)
    ensures r.Failure? ==> r.error == UnpricedFault
  {
    if items == [] then Success(0.0)
    else
      var init := SumCosts(items[..|items| - 1]);
      var last := TotalCost(items[|items| - 1]);
      if init.Failure? then init
      else if last.Failure? then last
      else Success(init.value + last.value)
  }

  predicate AllPriced(items: seq<PurchaseOrderItem>)
  {
    forall i :: 0 <= i < |items| ==> items[i].unitPrice.Some?
  }

  /** The order total by definition: unit price times quantity, summed over the items. */
  function PricedTotal(items: seq<PurchaseOrderItem>): real
    requires AllPriced(items)
  {
    if items == [] then 0.0
    else items[0].unitPrice.value * items[0].quantity as real + PricedTotal(items[1..])
  }

  lemma {:induction false} PricedTotalAppend(items: seq<PurchaseOrderItem>, item: PurchaseOrderItem)
    requires AllPriced(items + [item])
    ensures AllPriced(items) && item.unitPrice.Some?
    ensures PricedTotal(items + [item]) == PricedTotal(items) + item.unitPrice.value * item.quantity as real
  {
    assert forall i :: 0 <= i < |items| ==> items[i] == (items + [item])[i];
    assert (items + [item])[|items|] == item;
    if items != [] {
      assert (items + [item])[1..] == items[1..] + [item];
      PricedTotalAppend(items[1..], item);
    }
  }

  /**
   * `subTotal` succeeds exactly when every item has a price, and is then the
   * sum of every item's total cost; an order without items totals 0.
   */
  lemma {:induction false} SumCostsIsPricedTotal(items: seq<PurchaseOrderItem>)
    ensures SumCosts(items).Success? <==> AllPriced(items)
    ensures AllPriced(items) ==> SumCosts(items) == Success(PricedTotal(items))
  {
    if items != [] {
      var init := items[..|items| - 1];
      var last := items[|items| - 1];
      assert items == init + [last];
      SumCostsIsPricedTotal(init);
      if AllPriced(items) {
        assert last.unitPrice.Some?;
        PricedTotalAppend(init, last);
        assert SumCosts(init) == Success(PricedTotal(init));
        var c := TotalCost(last);
        assert c.Success?;
        assert c.value == last.unitPrice.value * last.quantity as real;
        assert items[..|items| - 1] == init;
        assert SumCosts(items) == Success(SumCosts(init).value + TotalCost(last).value);
      } else if AllPriced(init) {
        assert last.unitPrice.None?;
      }
    }
  }

  /** Stamps a timestamp that is still null; one already set is kept. */
  function Stamp(d: Option<Timestamp>, now: Timestamp): (r: Option<Timestamp>)
    ensures r.Some?
    ensures d.Some? ==> r == d
    ensures d.None? ==> r == Some(now)
  {
    if d.None? then Some(now) else d
  }

  /** A second `preCreate`, at any later time, changes nothing. */
  lemma StampIdempotent(d: Option<Timestamp>, first: Timestamp, second: Timestamp)
    ensures Stamp(Stamp(d, first), second) == Stamp(d, first)
  {
  }

  /** A purchase order as the `purchase_order` table (with its item table) holds it. */
  datatype OrderRow = OrderRow(
    customer: Customer,
    items: seq<PurchaseOrderItem>,
    status: ShipmentStatus,
    totalPrice: real,
    datePlaced: Timestamp,
    dateUpdated: Timestamp,
    deliveryAddress: Option<Address>)

  class PurchaseOrder {
    var id: Option<Uuid>
    var totalPrice: Option<real>
    const customer: Customer
    /** The items, fixed at build time; callers only ever see this value. */
    const orderItems: seq<PurchaseOrderItem>
    var status: ShipmentStatus
    var datePlaced: Option<Timestamp>
    var dateUpdated: Option<Timestamp>
    const deliveryAddress: Option<Address>

    /** The order `build` assembles: status `placed`, no total, no timestamps yet. */
    constructor (id: Option<Uuid>, customer: Customer, items: seq<PurchaseOrderItem>)
      ensures this.id == id && this.customer == customer && orderItems == items
      ensures deliveryAddress == customer.address
      ensures status == placed && totalPrice.None?
      ensures datePlaced.None? && dateUpdated.None?
    {
      this.id := id;
      this.customer := customer;
      orderItems := items;
      deliveryAddress := customer.address;
      status := placed;
      totalPrice := None;
      datePlaced, dateUpdated := None, None;
    }

    /** `preCreate`, run when the order is first persisted. */
    method PreCreate(now: Timestamp)
      modifies this
      ensures datePlaced == Stamp(old(datePlaced), now)
      ensures dateUpdated == Stamp(old(dateUpdated), now)
      ensures id == old(id) && status == old(status) && totalPrice == old(totalPrice)
    {
      if datePlaced.None? {
        datePlaced := Some(now);
      }
      if dateUpdated.None? {
        dateUpdated := Some(now);
      }
    }

    method SetStatus(s: ShipmentStatus)
      modifies this
      ensures status == s
      ensures id == old(id) && totalPrice == old(totalPrice)
      ensures datePlaced == old(datePlaced) && dateUpdated == old(dateUpdated)
    {
      status := s;
    }

    method SetTotalPrice(p: Option<real>)
      modifies this
      ensures totalPrice == p
      ensures id == old(id) && status == old(status)
      ensures datePlaced == old(datePlaced) && dateUpdated == old(dateUpdated)
    {
      totalPrice := p;
    }

    /** `subTotal`: adds up the items' total costs, first to last. */
    method SubTotal() returns (r: Result<real>)
      ensures r == SumCosts(orderItems)
    {
      var sum := 0.0;
      var i := 0;
      while i < |orderItems|
        invariant 0 <= i <= |orderItems|
        invariant SumCosts(orderItems[..i]) == Success(sum)
      {
        assert orderItems[..i + 1][..i] == orderItems[..i];
        var cost := TotalCost(orderItems[i]);
        if cost.Failure? {
          assert SumCosts(orderItems[..i + 1]).Failure?;
          SumCostsFailureExtends(orderItems, i + 1);
          return cost;
        }
        sum := sum + cost.value;
        i := i + 1;
      }
      assert orderItems[..i] == orderItems;
      r := Success(sum);
    }

    /** The row `save` writes, once an id, a total and both timestamps are set. */
    function Row(): OrderRow
      reads this
      requires totalPrice.Some? && datePlaced.Some? && dateUpdated.Some?
    {
      OrderRow(customer, orderItems, status, totalPrice.value, datePlaced.value, dateUpdated.value, deliveryAddress)
    }
  }

  /** Once a prefix of the items fails to sum, so does every longer prefix. */
  lemma {:induction false} SumCostsFailureExtends(items: seq<PurchaseOrderItem>, n: nat)
    requires n <= |items|
    requires SumCosts(items[..n]).Failure?
    ensures SumCosts(items).Failure?
    decreases |items| - n
  {
    if n < |items| {
      assert items[..n + 1][..n] == items[..n];
      SumCostsFailureExtends(items, n + 1);
    } else {
      assert items[..n] == items;
    }
  }

  /**
   * `then`: an item needs a product id or a SKU (either alone will do), a
   * unit price and a positive quantity, checked in that order; the first
   * two failures are `NullPointerException`s from `requireNonNull`, the last
   * an `IllegalArgumentException`.
   */
  function NewItem(quantity: int, unitPrice: Option<real>, productId: Option<Uuid>, productSku: Option<string>): (r: Result<PurchaseOrderItem>)
    ensures r.Success? <==> (productId.Some? || productSku.Some?) && unitPrice.Some? && quantity > 0
    ensures productId.None? && productSku.None? ==> r == Failure(NullPointerFault)
    ensures (productId.Some? || productSku.Some?) && unitPrice.None? ==> r == Failure(NullPointerFault)
    ensures (productId.Some? || productSku.Some?) && unitPrice.Some? && quantity <= 0 ==>
      r == Failure(Fault(IllegalArgument, "quantity must be > 0"))
    ensures r.Success? ==>
      r.value.quantity == quantity && r.value.unitPrice == unitPrice
      && r.value.product.id == productId && r.value.product.sku == productSku
  {
    if productId.None? && productSku.None? then Failure(NullPointerFault)
    else if unitPrice.None? then Failure(NullPointerFault)
    else if quantity <= 0 then Failure(Fault(IllegalArgument, "quantity must be > 0"))
    else Success(PurchaseOrderItem(quantity, unitPrice, ProductRef(productId, productSku)))
  }

  /** `build`'s two checks, the customer first. */
  function BuildFailure(customer: Option<Customer>, items: seq<PurchaseOrderItem>): (r: Option<Throwable>)
    ensures r.None? <==> customer.Some? && items != []
    ensures customer.None? ==> r == Some(Fault(IllegalState, "Missing customer"))
    ensures customer.Some? && items == [] ==> r == Some(Fault(IllegalState, "Empty order"))
  {
    if customer.None? then Some(Fault(IllegalState, "Missing customer"))
    else if items == [] then Some(Fault(IllegalState, "Empty order"))
    else None
  }

  /** `PurchaseOrder.Builder`. */
  class PurchaseOrderBuilder {
    var id: Option<Uuid>
    var customer: Option<Customer>
    var orderItems: seq<PurchaseOrderItem>

    constructor ()
      ensures id.None? && customer.None? && orderItems == []
    {
      id, customer, orderItems := None, None, [];
    }

    /** `withGeneratedId`; the random UUID is an input. */
    method WithGeneratedId(random: Uuid) returns (b: PurchaseOrderBuilder)
      modifies this
      ensures b == this
      ensures id == Some(random) && customer == old(customer) && orderItems == old(orderItems)
    {
      id := Some(random);
      b := this;
    }

    method WithCustomer(c: Option<Customer>) returns (b: PurchaseOrderBuilder)
      modifies this
      ensures b == this
      ensures customer == c && id == old(id) && orderItems == old(orderItems)
    {
      customer := c;
      b := this;
    }

    /** `andOrderItem`: a fresh nested builder whose callback appends to this builder. */
    method AndOrderItem() returns (nb: NestedBuilder)
      ensures fresh(nb) && nb.parent == this
      ensures nb.quantity == 0 && nb.unitPrice.None? && nb.productId.None? && nb.productSku.None?
    {
      nb := new NestedBuilder(this);
    }

    /** The nested builder's callback, `orderItems::add`. */
    method AddItem(item: PurchaseOrderItem)
      modifies this
      ensures orderItems == old(orderItems) + [item]
      ensures id == old(id) && customer == old(customer)
    {
      orderItems := orderItems + [item];
    }

    /**
     * `build`: fails without a customer, then without items; otherwise a new
     * order with this builder's id, the customer, the customer's address as
     * delivery address and the items in the order they were added.
     */
    method Build() returns (r: Result<PurchaseOrder>)
      ensures r.Failure? <==> BuildFailure(customer, orderItems).Some?
      ensures r.Failure? ==> r.error == BuildFailure(customer, orderItems).value
      ensures r.Success? ==>
        && fresh(r.value)
        && r.value.id == id && r.value.customer == customer.value
        && r.value.deliveryAddress == customer.value.address
        && r.value.orderItems == orderItems
        && r.value.status == placed && r.value.totalPrice.None?
        && r.value.datePlaced.None? && r.value.dateUpdated.None?
    {
      if customer.None? {
        return Failure(Fault(IllegalState, "Missing customer"));
      }
      if orderItems == [] {
        return Failure(Fault(IllegalState, "Empty order"));
      }
      var order := new PurchaseOrder(id, customer.value, orderItems);
      r := Success(order);
    }
  }

  /** `PurchaseOrderItem.NestedBuilder`. */
  class NestedBuilder {
    const parent: PurchaseOrderBuilder
    var quantity: int
    var unitPrice: Option<real>
    var productId: Option<Uuid>
    var productSku: Option<string>

    constructor (parent: PurchaseOrderBuilder)
      ensures this.parent == parent
      ensures quantity == 0 && unitPrice.None? && productId.None? && productSku.None?
    {
      this.parent := parent;
      quantity, unitPrice, productId, productSku := 0, None, None, None;
    }

    method WithQuantity(q: int) returns (b: NestedBuilder)
      modifies this
      ensures b == this && quantity == q
      ensures unitPrice == old(unitPrice) && productId == old(productId) && productSku == old(productSku)
    {
      quantity := q;
      b := this;
    }

    method WithUnitPrice(p: Option<real>) returns (b: NestedBuilder)
      modifies this
      ensures b == this && unitPrice == p
      ensures quantity == old(quantity) && productId == old(productId) && productSku == old(productSku)
    {
      unitPrice := p;
      b := this;
    }

    method WithProductId(id: Option<Uuid>) returns (b: NestedBuilder)
      modifies this
      ensures b == this && productId == id
      ensures quantity == old(quantity) && unitPrice == old(unitPrice) && productSku == old(productSku)
    {
      productId := id;
      b := this;
    }

    method WithProductSku(sku: Option<string>) returns (b: NestedBuilder)
      modifies this
      ensures b == this && productSku == sku
      ensures quantity == old(quantity) && unitPrice == old(unitPrice) && productId == old(productId)
    {
      productSku := sku;
      b := this;
    }

    /**
     * `then`: validates first, so a failure appends nothing; on success the
     * callback appends exactly one item to the parent, which is returned.
     */
    method Then() returns (r: Result<PurchaseOrderBuilder>)
      modifies parent
      ensures var item := NewItem(quantity, unitPrice, productId, productSku);
        && (item.Failure? ==> r == Failure(item.error) && parent.orderItems == old(parent.orderItems))
        && (item.Success? ==> r == Success(parent) && parent.orderItems == old(parent.orderItems) + [item.value])
      ensures parent.id == old(parent.id) && parent.customer == old(parent.customer)
    {
      if productId.None? && productSku.None? {
        return Failure(NullPointerFault);
      }
      if unitPrice.None? {
        return Failure(NullPointerFault);
      }
      if quantity <= 0 {
        return Failure(Fault(IllegalArgument, "quantity must be > 0"));
      }
      var item := PurchaseOrderItem(quantity, unitPrice, ProductRef(productId, productSku));
      parent.AddItem(item);
      r := Success(parent);
    }
  }

  /**
   * The named query `updateOrderStatusById` on the order table: the row with
   * that id is moved from `pre` to `post` when its status is `pre`; the
   * result carries the number of rows it affected.
   */
  function UpdateOrderStatusById(orders: map<Uuid, OrderRow>, id: Uuid, pre: ShipmentStatus, post: ShipmentStatus): (r: (map<Uuid, OrderRow>, nat))
    ensures r.1 == 1 <==> id in orders && orders[id].status == pre
    ensures r.1 <= 1
    ensures r.0.Keys == orders.Keys
    ensures forall k :: k in orders && k != id ==> r.0[k] == orders[k]
    ensures id in orders ==> r.0[id] == if r.1 == 1 then orders[id].(status := post) else orders[id]
  {
    if id in orders && orders[id].status == pre then (orders[id := orders[id].(status := post)], 1)
    else (orders, 0)
  }

  /** Repeating a transition whose pre and post differ affects no row and changes nothing. */
  lemma UpdateOrderStatusIdempotent(orders: map<Uuid, OrderRow>, id: Uuid, pre: ShipmentStatus, post: ShipmentStatus)
    requires pre != post
    ensures var once := UpdateOrderStatusById(orders, id, pre, post).0;
      UpdateOrderStatusById(once, id, pre, post) == (once, 0)
  {
  }

  /** placed to confirmed, then confirmed to delivered: both transitions take effect. */
  lemma SequentialTransitions(orders: map<Uuid, OrderRow>, id: Uuid)
    requires id in orders && orders[id].status == placed
    ensures var first := UpdateOrderStatusById(orders, id, placed, confirmed);
      var second := UpdateOrderStatusById(first.0, id, confirmed, delivered);
      first.1 == 1 && second.1 == 1 && second.0[id].status == delivered
  {
  }
}

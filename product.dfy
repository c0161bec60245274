/**
 * The product entity: identity, catalogue data, a price and an inventory
 * counter that order placement lowers in place, plus the builder that fills
 * one shared instance.
 */
module Products {
  import opened Common

  /** All fields of a product at one moment, for stating what a mutator leaves alone. */
  datatype ProductFields = ProductFields(
    id: Option<Uuid>,
    version: int,
    name: Option<string>,
    sku: Option<string>,
    price: Option<real>,
    inventory: int)

  /** A product as `new Product()` leaves it: every reference null, every number zero. */
  const Blank: ProductFields := ProductFields(None, 0, None, None, None, 0)

  class Product {
    var id: Option<Uuid>
    var version: int
    var name: Option<string>
    var sku: Option<string>
    var price: Option<real>
    var inventory: int

    constructor ()
      ensures Fields() == Blank
    {
      id, version, name, sku, price, inventory := None, 0, None, None, None, 0;
    }

    function Fields(): ProductFields
      reads this
    {
      ProductFields(id, version, name, sku, price, inventory)
    }

    method SetId(newId: Option<Uuid>)
      modifies this
      ensures Fields() == old(Fields()).(id := newId)
    {
      id := newId;
    }

    method SetSku(newSku: Option<string>)
      modifies this
      ensures Fields() == old(Fields()).(sku := newSku)
    {
      sku := newSku;
    }

    method SetPrice(newPrice: Option<real>)
      modifies this
      ensures Fields() == old(Fields()).(price := newPrice)
    {
      price := newPrice;
    }

    /**
     * `addPrice` as written: the price becomes the argument added to itself;
     * the previous price is neither read nor kept.
     */
    method AddPrice(p: real) returns (r: real)
      modifies this
      ensures r == p + p
      ensures Fields() == old(Fields()).(price := Some(r))
    {
      price := Some(p + p);
      r := p + p;
    }

    /**
     * `addPrice` as its name and its sibling `addInventoryQuantity` suggest:
     * the argument added to the current price. A null price makes the
     * addition throw, as `BigDecimal.add` on a null receiver would.
     */
    method AddToPrice(p: real) returns (r: Result<real>)
      modifies this
      ensures old(price).None? ==> r == Failure(NullPointerFault) && Fields() == old(Fields())
      ensures old(price).Some? ==>
        r == Success(old(price).value + p) && Fields() == old(Fields()).(price := Some(r.value))
    {
      if price.None? {
        return Failure(NullPointerFault);
      }
      price := Some(price.value + p);
      r := Success(price.value);
    }

    /**
     * Adds `qty`, which may be negative, to the inventory and returns the new
     * value; no lower bound is enforced here (the schema's check constraint
     * is what rejects a negative inventory, at flush).
     */
    method AddInventoryQuantity(qty: int) returns (r: int)
      modifies this
      ensures r == old(inventory) + qty
      ensures Fields() == old(Fields()).(inventory := r)
    {
      inventory := inventory + qty;
      r := inventory;
    }

    method GetInventory() returns (n: int)
      ensures n == inventory
    {
      n := inventory;
    }

    method SetInventory(n: int)
      modifies this
      ensures Fields() == old(Fields()).(inventory := n)
    {
      inventory := n;
    }
  }

  /**
   * On a product priced 10, `addPrice(1)` leaves a price of 2, where adding 1
   * to the current price gives 11.
   */
  method AddPriceDiscrepancy() returns (asWritten: real, intended: Result<real>)
    ensures asWritten == 2.0
    ensures intended == Success(11.0)
  {
    var p := new Product();
    p.SetPrice(Some(10.0));
    asWritten := p.AddPrice(1.0);
    var q := new Product();
    q.SetPrice(Some(10.0));
    intended := q.AddToPrice(1.0);
  }

  /**
   * `Product.Builder`: every setter writes one field of the single instance
   * it was created with, and `build` hands out that same instance each time.
   */
  class ProductBuilder {
    const instance: Product

    constructor ()
      ensures fresh(instance) && instance.Fields() == Blank
    {
      instance := new Product();
    }

    /** `withRandomUUID`; the random UUID is an input. */
    method WithRandomUuid(random: Uuid) returns (b: ProductBuilder)
      modifies instance
      ensures b == this
      ensures instance.Fields() == old(instance.Fields()).(id := Some(random))
    {
      instance.id := Some(random);
      b := this;
    }

    method WithId(id: Option<Uuid>) returns (b: ProductBuilder)
      modifies instance
      ensures b == this
      ensures instance.Fields() == old(instance.Fields()).(id := id)
    {
      instance.id := id;
      b := this;
    }

    method WithName(name: Option<string>) returns (b: ProductBuilder)
      modifies instance
      ensures b == this
      ensures instance.Fields() == old(instance.Fields()).(name := name)
    {
      instance.name := name;
      b := this;
    }

    method WithSku(sku: Option<string>) returns (b: ProductBuilder)
      modifies instance
      ensures b == this
      ensures instance.Fields() == old(instance.Fields()).(sku := sku)
    {
      instance.sku := sku;
      b := this;
    }

    method WithPrice(price: Option<real>) returns (b: ProductBuilder)
      modifies instance
      ensures b == this
      ensures instance.Fields() == old(instance.Fields()).(price := price)
    {
      instance.price := price;
      b := this;
    }

    method WithInventory(inventory: int) returns (b: ProductBuilder)
      modifies instance
      ensures b == this
      ensures instance.Fields() == old(instance.Fields()).(inventory := inventory)
    {
      instance.inventory := inventory;
      b := this;
    }

    method Build() returns (p: Product)
      ensures p == instance
    {
      p := instance;
    }
  }

  /**
   * Two builds of one builder return one object, so a change made through the
   * first product is seen through the second.
   */
  method BuildTwiceSharesInstance() returns (first: Product, second: Product, seen: int)
    ensures first == second
    ensures seen == 7
  {
    var b := new ProductBuilder();
    first := b.Build();
    second := b.Build();
    first.SetInventory(7);
    seen := second.GetInventory();
  }
}

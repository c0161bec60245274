/**
 * Chunked batch placement, from the performance chapter: the orders are cut
 * into consecutive chunks and each chunk is placed in a transaction of its
 * own, loading every product the chunk names with one query.
 */
module BatchPlacement {
  import opened Common
  import opened AssertUtils
  import opened Orders
  import opened Storage
  import opened OrderPlacement

  /** `Optional.orElseThrow` on an empty optional. */
  const NoValuePresentFault: Throwable := Fault(NoSuchElement, "No value present")

  /**
   * A chunk looks each item's product up among the products it loaded; an
   * item without a product id matches none of them, and neither does an
   * unknown id.
   */
  const ChunkFaults: LookupFaults := LookupFaults(NoValuePresentFault, NoValuePresentFault)

  /** The line items of each order of a chunk. */
  function ItemsOf(chunk: seq<PurchaseOrder>): (r: seq<seq<PurchaseOrderItem>>)
    ensures |r| == |chunk| && forall i :: 0 <= i < |chunk| ==> r[i] == chunk[i].orderItems
  {
    seq(|chunk|, i requires 0 <= i < |chunk| => chunk[i].orderItems)
  }

  /** The distinct product ids the items of a chunk name. */
  function ChunkProductIds(orders: seq<seq<PurchaseOrderItem>>): set<Uuid>
  {
    set o, k | 0 <= o < |orders| && 0 <= k < |orders[o]| && orders[o][k].product.id.Some? :: orders[o][k].product.id.value
  }

  /** `findAllById(ids)`: the products whose id is among `ids`. */
  function Loaded(inventory: map<Uuid, int>, ids: set<Uuid>): (r: map<Uuid, int>)
    ensures r.Keys == inventory.Keys * ids
    ensures forall p :: p in r ==> r[p] == inventory[p]
  {
    map p | p in inventory && p in ids :: inventory[p]
  }

  /**
   * The loaded products after lowering, order by order from the first, by
   * each order's items; the first unresolvable item or unpriced order stops
   * it.
   */
  function LowerChunk(loaded: map<Uuid, int>, orders: seq<seq<PurchaseOrderItem>>): (r: Result<map<Uuid, int>>)
    ensures r.Success? ==> r.value.Keys == loaded.Keys
  {
    if orders == [] then Success(loaded)
    else
      var init := LowerChunk(loaded, orders[..|orders| - 1]);
      var items := orders[|orders| - 1];
      if init.Failure? then init
      else
        var applied := ApplyItems(init.value, items, ChunkFaults);
        if applied.Failure? then applied
        else if SumCosts(items).Failure? then Failure(UnpricedFault)
        else applied
  }

  /** The number of units of `p` a chunk orders, over all its orders. */
  function ChunkQuantity(orders: seq<seq<PurchaseOrderItem>>, p: Uuid): int
  {
    if orders == [] then 0
    else ChunkQuantity(orders[..|orders| - 1], p) + TotalQuantity(orders[|orders| - 1], p)
  }

  /**
   * What `placeOrderChunk` does to the inventory: the lowered products
   * replace the loaded ones, and the flush fails when any would go negative.
   */
  function ChunkEffect(inventory: map<Uuid, int>, orders: seq<seq<PurchaseOrderItem>>): (r: Result<map<Uuid, int>>)
    ensures r.Success? ==> ChecksHold(r.value) && r.value.Keys == inventory.Keys
  {
    var lowered := LowerChunk(Loaded(inventory, ChunkProductIds(orders)), orders);
    if lowered.Failure? then Failure(lowered.error)
    else if !ChecksHold(inventory + lowered.value) then Failure(BusinessFault(ConstraintViolationFault))
    else Success(inventory + lowered.value)
  }

  /**
   * Lowering a chunk succeeds exactly when every order's items resolve and
   * are priced, and then lowers each product by its quantity over the whole
   * chunk.
   */
  lemma {:induction false} LowerChunkMeaning(loaded: map<Uuid, int>, orders: seq<seq<PurchaseOrderItem>>)
    ensures LowerChunk(loaded, orders).Success? <==>
      forall o :: 0 <= o < |orders| ==> Resolvable(loaded, orders[o]) && AllPriced(orders[o])
    ensures LowerChunk(loaded, orders).Success? ==>
      forall p :: p in loaded ==> LowerChunk(loaded, orders).value[p] == loaded[p] - ChunkQuantity(orders, p)
  {
    if orders != [] {
      var front := orders[..|orders| - 1];
      var items := orders[|orders| - 1];
      LowerChunkMeaning(loaded, front);
      assert forall o :: 0 <= o < |front| ==> front[o] == orders[o];
      var init := LowerChunk(loaded, front);
      if init.Success? {
        ApplyItemsLowersByTotalQuantity(init.value, items, ChunkFaults);
        SumCostsIsPricedTotal(items);
      }
    }
  }

  /** A product no item of the chunk names is ordered zero times. */
  lemma {:induction false} ChunkQuantityOutside(orders: seq<seq<PurchaseOrderItem>>, p: Uuid)
    requires p !in ChunkProductIds(orders)
    ensures ChunkQuantity(orders, p) == 0
  {
    if orders != [] {
      var last := |orders| - 1;
      var front := orders[..last];
      assert forall o, k :: 0 <= o < |front| && 0 <= k < |front[o]| ==> front[o][k] == orders[o][k];
      ChunkQuantityOutside(front, p);
      forall k | 0 <= k < |orders[last]| && orders[last][k].product.id.Some?
        ensures orders[last][k].product.id.value in ChunkProductIds(orders)
      {
      }
      TotalQuantityOutside(orders[last], p);
    }
  }

  /** Items none of which names `p` order zero units of it. */
  lemma {:induction false} TotalQuantityOutside(items: seq<PurchaseOrderItem>, p: Uuid)
    requires forall k :: 0 <= k < |items| ==> items[k].product.id != Some(p)
    ensures TotalQuantity(items, p) == 0
  {
    if items != [] {
      var front := items[..|items| - 1];
      assert forall k :: 0 <= k < |front| ==> front[k] == items[k];
      TotalQuantityOutside(front, p);
    }
  }

  /** Every id an item of the chunk names is among the ids the chunk loads. */
  lemma ItemIdsLoaded(orders: seq<seq<PurchaseOrderItem>>)
    ensures forall o, k :: 0 <= o < |orders| && 0 <= k < |orders[o]| && orders[o][k].product.id.Some? ==>
      orders[o][k].product.id.value in ChunkProductIds(orders)
  {
  }

  /**
   * Placing a chunk succeeds exactly when every item of every order names a
   * known product, every order is priced and no product is ordered beyond
   * its inventory over the whole chunk; it then lowers each product by
   * exactly that total. When everything resolves and is priced, the only
   * other outcome is the BusinessException wrapping the constraint
   * violation.
   */
  lemma ChunkEffectMeaning(inventory: map<Uuid, int>, orders: seq<seq<PurchaseOrderItem>>)
    ensures ChunkEffect(inventory, orders).Success? <==>
      && (forall o :: 0 <= o < |orders| ==> Resolvable(inventory, orders[o]) && AllPriced(orders[o]))
      && (forall p :: p in inventory ==> ChunkQuantity(orders, p) <= inventory[p])
    ensures ChunkEffect(inventory, orders).Success? ==>
      forall p :: p in inventory ==> ChunkEffect(inventory, orders).value[p] == inventory[p] - ChunkQuantity(orders, p)
    ensures && (forall o :: 0 <= o < |orders| ==> Resolvable(inventory, orders[o]) && AllPriced(orders[o]))
            && ChunkEffect(inventory, orders).Failure?
            ==> ChunkEffect(inventory, orders).error == BusinessFault(ConstraintViolationFault)
  {
    var ids := ChunkProductIds(orders);
    var loaded := Loaded(inventory, ids);
    ItemIdsLoaded(orders);
    assert forall o :: 0 <= o < |orders| ==> (Resolvable(loaded, orders[o]) <==> Resolvable(inventory, orders[o]));
    LowerChunkMeaning(loaded, orders);
    var lowered := LowerChunk(loaded, orders);
    if lowered.Success? {
      forall p | p in inventory
        ensures (inventory + lowered.value)[p] == inventory[p] - ChunkQuantity(orders, p)
      {
        if p !in ids {
          ChunkQuantityOutside(orders, p);
        }
      }
    }
  }

  /**
   * When every product an order names exists, placing it as a chunk of its
   * own has exactly the effect of `placeOrder`, failures included.
   */
  lemma SingleOrderChunkIsPlaceOrder(inventory: map<Uuid, int>, items: seq<PurchaseOrderItem>)
    requires Resolvable(inventory, items)
    ensures ChunkEffect(inventory, [items]) == PlaceOrderEffect(inventory, items)
  {
    if AllPriced(items) {
      SinglePricedChunk(inventory, items);
    } else {
      SingleUnpricedChunk(inventory, items);
    }
  }

  /** A one-order chunk of priced items: both paths check the same quantities against the same stock. */
  lemma SinglePricedChunk(inventory: map<Uuid, int>, items: seq<PurchaseOrderItem>)
    requires Resolvable(inventory, items) && AllPriced(items)
    ensures ChunkEffect(inventory, [items]) == PlaceOrderEffect(inventory, items)
  {
    var orders := [items];
    assert orders[..0] == [];
    assert orders[0] == items;
    assert forall p :: ChunkQuantity(orders, p) == TotalQuantity(items, p);
    ChunkEffectMeaning(inventory, orders);
    PlaceOrderEffectMeaning(inventory, items);
    var chunk := ChunkEffect(inventory, orders);
    var place := PlaceOrderEffect(inventory, items);
    assert chunk.Success? <==> place.Success?;
    if chunk.Success? {
      assert chunk.value.Keys == place.value.Keys;
      forall p | p in chunk.value
        ensures chunk.value[p] == place.value[p]
      {
      }
      assert chunk.value == place.value;
    }
  }


  /** A one-order chunk with an unpriced item: both paths lower every item first, then fail on the price. */
  lemma SingleUnpricedChunk(inventory: map<Uuid, int>, items: seq<PurchaseOrderItem>)
    requires Resolvable(inventory, items) && !AllPriced(items)
    ensures ChunkEffect(inventory, [items]) == PlaceOrderEffect(inventory, items)
  {
    var orders := [items];
    SumCostsIsPricedTotal(items);
    ItemIdsLoaded(orders);
    var loaded := Loaded(inventory, ChunkProductIds(orders));
    forall k | 0 <= k < |items|
      ensures items[k].product.id.Some? && items[k].product.id.value in loaded
    {
      assert orders[0][k] == items[k];
    }
    ApplyItemsLowersByTotalQuantity(loaded, items, ChunkFaults);
    ApplyItemsLowersByTotalQuantity(inventory, items, ReferenceFaults);
    assert orders[..0] == [];
    assert LowerChunk(loaded, orders[..0]) == Success(loaded);
    assert LowerChunk(loaded, orders) == Failure(UnpricedFault);
  }


  /**
   * `StreamUtils.chunkedStream`: consecutive slices of `batchSize` orders,
   * the last one possibly shorter.
   */
  function Chunks<T>(orders: seq<T>, batchSize: nat): (r: seq<seq<T>>)
    requires batchSize > 0
    ensures forall i :: 0 <= i < |r| ==> 0 < |r[i]| <= batchSize
    ensures forall i, x :: 0 <= i < |r| && x in r[i] ==> x in orders
    decreases |orders|
  {
    if orders == [] then []
    else if |orders| <= batchSize then [orders]
    else
      assert forall x :: x in orders[..batchSize] ==> x in orders;
      assert forall x :: x in orders[batchSize..] ==> x in orders;
      [orders[..batchSize]] + Chunks(orders[batchSize..], batchSize)
  }

  /** The chunks, put back together, are the orders in their original order. */
  lemma {:induction false} ChunksPartition<T>(orders: seq<T>, batchSize: nat)
    requires batchSize > 0
    ensures Concat(Chunks(orders, batchSize)) == orders
    decreases |orders|
  {
    if orders != [] && |orders| > batchSize {
      var rest := Chunks(orders[batchSize..], batchSize);
      ChunksPartition(orders[batchSize..], batchSize);
      ConcatCons(orders[..batchSize], rest);
      assert orders[..batchSize] + orders[batchSize..] == orders;
    } else if orders != [] {
      assert Concat([orders]) == Concat([]) + orders;
    }
  }

  function Concat<T>(chunks: seq<seq<T>>): seq<T>
  {
    if chunks == [] then [] else Concat(chunks[..|chunks| - 1]) + chunks[|chunks| - 1]
  }

  lemma {:induction false} ConcatCons<T>(head: seq<T>, rest: seq<seq<T>>)
    ensures Concat([head] + rest) == head + Concat(rest)
    decreases |rest|
  {
    if rest == [] {
      assert ([head] + rest)[..0] == [];
    } else {
      var all := [head] + rest;
      assert all[..|all| - 1] == [head] + rest[..|rest| - 1];
      ConcatCons(head, rest[..|rest| - 1]);
    }
  }

  /**
   * How far a batch got: the chunks committed, the inventory they left and
   * the failure that stopped the next one, if any.
   */
  datatype BatchOutcome = BatchOutcome(committedChunks: nat, inventory: map<Uuid, int>, failure: Option<Throwable>)

  /**
   * Each chunk placed in its own transaction, in order: a chunk that fails
   * is rolled back and stops the batch, and the chunks before it stay
   * committed.
   */
  function PlaceChunks(inventory: map<Uuid, int>, chunks: seq<seq<seq<PurchaseOrderItem>>>): (r: BatchOutcome)
    ensures r.committedChunks <= |chunks|
    ensures r.failure.None? ==> r.committedChunks == |chunks|
    ensures r.inventory.Keys == inventory.Keys
  {
    if chunks == [] then BatchOutcome(0, inventory, None)
    else
      var init := PlaceChunks(inventory, chunks[..|chunks| - 1]);
      if init.failure.Some? then init
      else
        var effect := ChunkEffect(init.inventory, chunks[|chunks| - 1]);
        if effect.Failure? then BatchOutcome(init.committedChunks, init.inventory, Some(effect.error))
        else BatchOutcome(init.committedChunks + 1, effect.value, None)
  }

  /** The number of units of `p` ordered over several chunks. */
  function BatchQuantity(chunks: seq<seq<seq<PurchaseOrderItem>>>, p: Uuid): int
  {
    if chunks == [] then 0
    else BatchQuantity(chunks[..|chunks| - 1], p) + ChunkQuantity(chunks[|chunks| - 1], p)
  }

  /** A batch that fails nowhere lowers each product by its total over every chunk. */
  lemma {:induction false} PlaceChunksLowersByTotal(inventory: map<Uuid, int>, chunks: seq<seq<seq<PurchaseOrderItem>>>)
    requires PlaceChunks(inventory, chunks).failure.None?
    ensures forall p :: p in inventory ==> PlaceChunks(inventory, chunks).inventory[p] == inventory[p] - BatchQuantity(chunks, p)
  {
    if chunks != [] {
      var init := PlaceChunks(inventory, chunks[..|chunks| - 1]);
      PlaceChunksLowersByTotal(inventory, chunks[..|chunks| - 1]);
      ChunkEffectMeaning(init.inventory, chunks[|chunks| - 1]);
    }
  }

  /** The units of `p` ordered by two runs of orders, one after the other, add up. */
  lemma {:induction false} ChunkQuantityAppend(a: seq<seq<PurchaseOrderItem>>, b: seq<seq<PurchaseOrderItem>>, p: Uuid)
    ensures ChunkQuantity(a + b, p) == ChunkQuantity(a, p) + ChunkQuantity(b, p)
    decreases |b|
  {
    if b == [] {
      assert a + b == a;
    } else {
      assert (a + b)[..|a + b| - 1] == a + b[..|b| - 1];
      ChunkQuantityAppend(a, b[..|b| - 1], p);
    }
  }

  /** Chunk by chunk, a batch orders of `p` what all its orders, put back together, do. */
  lemma {:induction false} BatchQuantityOfConcat(chunks: seq<seq<PurchaseOrder>>, p: Uuid)
    ensures BatchQuantity(ChunkItems(chunks), p) == ChunkQuantity(ItemsOf(Concat(chunks)), p)
    decreases |chunks|
  {
    if chunks != [] {
      var front := chunks[..|chunks| - 1];
      var last := chunks[|chunks| - 1];
      BatchQuantityOfConcat(front, p);
      assert ChunkItems(chunks)[..|chunks| - 1] == ChunkItems(front);
      assert ItemsOf(Concat(front) + last) == ItemsOf(Concat(front)) + ItemsOf(last);
      ChunkQuantityAppend(ItemsOf(Concat(front)), ItemsOf(last), p);
    }
  }

  /**
   * How the orders are cut into chunks makes no difference to the number of
   * units of any product the batch orders.
   */
  lemma ChunkingKeepsQuantity(orders: seq<PurchaseOrder>, batchSize: nat, p: Uuid)
    requires batchSize > 0
    ensures BatchQuantity(ChunkItems(Chunks(orders, batchSize)), p) == ChunkQuantity(ItemsOf(orders), p)
  {
    BatchQuantityOfConcat(Chunks(orders, batchSize), p);
    ChunksPartition(orders, batchSize);
  }

  /** Once a prefix of the chunk fails to lower, so does the whole chunk, with the same error. */
  lemma {:induction false} LowerChunkFailureExtends(loaded: map<Uuid, int>, orders: seq<seq<PurchaseOrderItem>>, n: nat)
    requires n <= |orders|
    requires LowerChunk(loaded, orders[..n]).Failure?
    ensures LowerChunk(loaded, orders) == LowerChunk(loaded, orders[..n])
    decreases |orders| - n
  {
    if n < |orders| {
      assert orders[..n + 1][..n] == orders[..n];
      LowerChunkFailureExtends(loaded, orders, n + 1);
    } else {
      assert orders[..n] == orders;
    }
  }

  /** The identity and timestamps of an order, which lowering leaves alone. */
  function Stamps(order: PurchaseOrder): (Option<Uuid>, Option<Timestamp>, Option<Timestamp>)
    reads order
  {
    (order.id, order.datePlaced, order.dateUpdated)
  }

  /** An order marked placed and priced at its subtotal. */
  predicate PlacedAndPriced(order: PurchaseOrder)
    reads order
  {
    && order.status == placed && SumCosts(order.orderItems).Success?
    && order.totalPrice == Some(SumCosts(order.orderItems).value)
  }

  /** Every order of the chunk is placed and priced and carries an id and both dates, as saving leaves it. */
  predicate ChunkSaved(chunk: seq<PurchaseOrder>)
    reads chunk
  {
    forall o :: o in chunk ==> PlacedAndPriced(o) && o.id.Some? && o.datePlaced.Some? && o.dateUpdated.Some?
  }

  /**
   * The tables `after` are `before` with a chunk saved into them: the given
   * inventory and the rows of the chunk's orders, each placed and priced,
   * the ids given to the orders in `without` being distinct and absent from
   * `taken`.
   */
  ghost predicate ChunkSavedInto(before: Tables, after: Tables, chunk: seq<PurchaseOrder>, inventory: map<Uuid, int>,
                                 without: set<PurchaseOrder>, taken: set<Uuid>)
    reads chunk, without
  {
    && ChunkSaved(chunk)
    && DistinctFreshIds(without, taken)
    && after == before.(inventory := inventory, orders := SaveRows(before.orders, chunk))
  }

  /**
   * One order of a chunk: its items lower the loaded products, then it is
   * marked placed and priced at its subtotal.
   */
  method LowerOrder(loaded: map<Uuid, int>, order: PurchaseOrder) returns (r: Result<map<Uuid, int>>)
    modifies order
    ensures r == LowerChunk(loaded, [order.orderItems])
    ensures r.Success? ==> PlacedAndPriced(order)
    ensures Stamps(order) == old(Stamps(order))
  {
    assert [order.orderItems][..0] == [];
    r := LowerInventories(loaded, order.orderItems, ChunkFaults);
    if r.Failure? {
      return;
    }
    order.SetStatus(placed);
    var subTotal := order.SubTotal();
    if subTotal.Failure? {
      return Failure(subTotal.error);
    }
    order.SetTotalPrice(Some(subTotal.value));
  }

  /** The loop over a chunk's orders, stopping at the first that fails. */
  method LowerOrders(loaded: map<Uuid, int>, chunk: seq<PurchaseOrder>) returns (r: Result<map<Uuid, int>>)
    modifies chunk
    ensures r == LowerChunk(loaded, ItemsOf(chunk))
    ensures r.Success? ==> forall o :: o in chunk ==> PlacedAndPriced(o)
    ensures forall o :: o in chunk ==> Stamps(o) == old(Stamps(o))
  {
    var orders := ItemsOf(chunk);
    var acc := loaded;
    var i := 0;
    while i < |chunk|
      invariant 0 <= i <= |chunk|
      invariant LowerChunk(loaded, orders[..i]) == Success(acc)
      invariant forall k :: 0 <= k < i ==> PlacedAndPriced(chunk[k])
      invariant forall o :: o in chunk ==> Stamps(o) == old(Stamps(o))
    {
      label BeforeStep:
      var step := LowerOrder(acc, chunk[i]);
      assert orders[..i + 1][..i] == orders[..i];
      assert [chunk[i].orderItems][..0] == [];
      if step.Failure? {
        assert LowerChunk(loaded, orders[..i + 1]) == step;
        LowerChunkFailureExtends(loaded, orders, i + 1);
        return step;
      }
      forall k | 0 <= k < i + 1
        ensures PlacedAndPriced(chunk[k])
      {
        if chunk[k] != chunk[i] {
          assert old@BeforeStep(PlacedAndPriced(chunk[k]));
        }
      }
      acc := step.value;
      i := i + 1;
    }
    assert orders[..|chunk|] == orders;
    r := Success(acc);
  }

  /** The orders of a chunk that have no id yet. */
  ghost function WithoutId(chunk: seq<PurchaseOrder>): set<PurchaseOrder>
    reads chunk
  {
    set o | o in chunk && o.id.None?
  }

  /** Orders holding an id hold pairwise distinct ones, none of them in `taken`. */
  ghost predicate DistinctFreshIds(orders: set<PurchaseOrder>, taken: set<Uuid>)
    reads orders
  {
    && (forall o :: o in orders && o.id.Some? ==> o.id.value !in taken)
    && (forall o1, o2 :: o1 in orders && o2 in orders && o1 != o2 && o1.id.Some? && o2.id.Some? ==> o1.id != o2.id)
  }

  /**
   * `saveAll` before its flush: each order is persisted, getting an id
   * when it has none and its timestamps when they are unset. The ids
   * generated are new to the order table and differ from each other.
   */
  method PersistAll(store: Store, chunk: seq<PurchaseOrder>, now: Timestamp)
    modifies store, chunk
    ensures store.committed == old(store.committed) && store.working == old(store.working) && store.tx == old(store.tx)
    ensures forall o :: o in chunk ==>
      && o.id.Some? && (old(o.id).Some? ==> o.id == old(o.id))
      && o.datePlaced.Some? && o.dateUpdated.Some?
      && o.status == old(o.status) && o.totalPrice == old(o.totalPrice)
    ensures DistinctFreshIds(old(WithoutId(chunk)), old(store.working.orders.Keys + store.committed.orders.Keys))
  {
    ghost var generated := WithoutId(chunk);
    ghost var taken := store.working.orders.Keys + store.committed.orders.Keys;
    var i := 0;
    while i < |chunk|
      invariant 0 <= i <= |chunk|
      invariant store.committed == old(store.committed) && store.working == old(store.working) && store.tx == old(store.tx)
      invariant forall k :: 0 <= k < i ==> chunk[k].id.Some? && chunk[k].datePlaced.Some? && chunk[k].dateUpdated.Some?
      invariant forall o :: o in chunk ==>
        && (old(o.id).Some? ==> o.id == old(o.id))
        && o.status == old(o.status) && o.totalPrice == old(o.totalPrice)
      invariant DistinctFreshIds(generated, taken)
      invariant forall o :: o in generated && o.id.Some? ==> o.id.value.bits < store.nextId
    {
      var order := chunk[i];
      if order.id.None? {
        AssignFreshId(store, order, generated, taken);
      }
      order.PreCreate(now);
      i := i + 1;
    }
  }

  /**
   * An order of `generated` that has no id gets one from the store: it
   * differs from every id handed out before and from the ids in `taken`.
   */
  method AssignFreshId(store: Store, order: PurchaseOrder, ghost generated: set<PurchaseOrder>, ghost taken: set<Uuid>)
    requires order in generated && order.id.None?
    requires taken <= store.working.orders.Keys + store.committed.orders.Keys
    requires DistinctFreshIds(generated, taken)
    requires forall o :: o in generated && o.id.Some? ==> o.id.value.bits < store.nextId
    modifies store, order
    ensures store.committed == old(store.committed) && store.working == old(store.working) && store.tx == old(store.tx)
    ensures order.id.Some? && order.datePlaced == old(order.datePlaced) && order.dateUpdated == old(order.dateUpdated)
    ensures order.status == old(order.status) && order.totalPrice == old(order.totalPrice)
    ensures DistinctFreshIds(generated, taken)
    ensures forall o :: o in generated && o.id.Some? ==> o.id.value.bits < store.nextId
  {
    var id := store.GenerateId();
    order.id := Some(id);
  }

  /** The order table after a chunk is saved: every order's row under its id, a later order of the chunk winning. */
  function SaveRows(orders: map<Uuid, OrderRow>, chunk: seq<PurchaseOrder>): (r: map<Uuid, OrderRow>)
    reads chunk
    requires forall o :: o in chunk ==> o.id.Some? && o.totalPrice.Some? && o.datePlaced.Some? && o.dateUpdated.Some?
  {
    if chunk == [] then orders
    else
      var last := chunk[|chunk| - 1];
      SaveRows(orders, chunk[..|chunk| - 1])[last.id.value := last.Row()]
  }

  /** Saving a chunk adds exactly the ids of its orders to the table. */
  lemma {:induction false} SaveRowsKeys(orders: map<Uuid, OrderRow>, chunk: seq<PurchaseOrder>)
    requires forall o :: o in chunk ==> o.id.Some? && o.totalPrice.Some? && o.datePlaced.Some? && o.dateUpdated.Some?
    ensures SaveRows(orders, chunk).Keys == orders.Keys + (set o | o in chunk :: o.id.value)
  {
    if chunk != [] {
      var front := chunk[..|chunk| - 1];
      SaveRowsKeys(orders, front);
      assert forall o :: o in chunk <==> o in front || o == chunk[|chunk| - 1];
    }
  }

  /** Saving a chunk leaves every order whose id no order of the chunk carries as it was. */
  lemma {:induction false} SaveRowsKeepsOthers(orders: map<Uuid, OrderRow>, chunk: seq<PurchaseOrder>, k: Uuid)
    requires forall o :: o in chunk ==> o.id.Some? && o.totalPrice.Some? && o.datePlaced.Some? && o.dateUpdated.Some?
    requires k in orders && forall o :: o in chunk ==> o.id != Some(k)
    ensures k in SaveRows(orders, chunk) && SaveRows(orders, chunk)[k] == orders[k]
  {
    if chunk != [] {
      var front := chunk[..|chunk| - 1];
      assert forall o :: o in front ==> o in chunk;
      SaveRowsKeepsOthers(orders, front, k);
    }
  }

  /** After saving a chunk, each id holds the row of the last order of the chunk carrying it. */
  lemma {:induction false} SaveRowsLastWins(orders: map<Uuid, OrderRow>, chunk: seq<PurchaseOrder>, i: nat)
    requires forall o :: o in chunk ==> o.id.Some? && o.totalPrice.Some? && o.datePlaced.Some? && o.dateUpdated.Some?
    requires i < |chunk| && forall j :: i < j < |chunk| ==> chunk[j].id != chunk[i].id
    ensures chunk[i].id.value in SaveRows(orders, chunk) && SaveRows(orders, chunk)[chunk[i].id.value] == chunk[i].Row()
  {
    if i < |chunk| - 1 {
      var front := chunk[..|chunk| - 1];
      assert forall o :: o in front ==> o in chunk;
      assert forall j :: 0 <= j < |front| ==> front[j] == chunk[j];
      SaveRowsLastWins(orders, front, i);
    }
  }

  /**
   * `placeOrderChunk`, in the caller's read-write transaction: loads the
   * products the chunk names, lowers them order by order, marks each order
   * placed and priced, then saves all of them and flushes. Any failure
   * leaves the order table as it was, for the owner to roll back.
   */
  method PlaceOrderChunk(store: Store, chunk: seq<PurchaseOrder>, now: Timestamp) returns (err: Option<Throwable>)
    requires store.Valid()
    modifies store, chunk
    ensures store.Valid() && store.committed == old(store.committed) && store.tx == old(store.tx)
    ensures !IsReadWriteTransaction(old(store.tx)) ==>
      err == Some(AssertReadWriteTransaction(old(store.tx)).error) && store.working == old(store.working)
    ensures IsReadWriteTransaction(old(store.tx)) ==>
      var effect := ChunkEffect(old(store.working.inventory), ItemsOf(chunk));
      && (err.None? <==> effect.Success?)
      && (err.Some? ==> err.value == effect.error && store.working == old(store.working))
      && (err.None? ==>
            ChunkSavedInto(old(store.working), store.working, chunk, effect.value,
                           old(WithoutId(chunk)), old(store.working.orders.Keys + store.committed.orders.Keys)))
  {
    var guard := AssertReadWriteTransaction(store.tx);
    if guard.Fail? {
      return Some(guard.error);
    }
    ghost var without := WithoutId(chunk);
    var loaded := Loaded(store.working.inventory, ChunkProductIds(ItemsOf(chunk)));
    var lowered := LowerOrders(loaded, chunk);
    if lowered.Failure? {
      return Some(lowered.error);
    }
    assert WithoutId(chunk) == without by {
      forall o | o in chunk
        ensures o.id == old(o.id)
      {
        assert Stamps(o) == old(Stamps(o));
      }
    }
    err := SaveChunk(store, chunk, store.working.inventory + lowered.value, now);
  }

  /**
   * `saveAllAndFlush` for a chunk whose orders are placed and priced:
   * the orders are persisted, their rows and the lowered inventory written,
   * and a negative inventory found by the flush is the BusinessException.
   */
  method SaveChunk(store: Store, chunk: seq<PurchaseOrder>, inventory: map<Uuid, int>, now: Timestamp) returns (err: Option<Throwable>)
    requires store.Valid() && IsReadWriteTransaction(store.tx)
    requires forall o :: o in chunk ==> PlacedAndPriced(o)
    modifies store, chunk
    ensures store.Valid() && store.committed == old(store.committed) && store.tx == old(store.tx)
    ensures ChunkSaved(chunk)
    ensures DistinctFreshIds(old(WithoutId(chunk)), old(store.working.orders.Keys + store.committed.orders.Keys))
    ensures err.None? <==> ChecksHold(inventory)
    ensures err.Some? ==> err.value == BusinessFault(ConstraintViolationFault) && store.working == old(store.working)
    ensures err.None? ==>
      store.working == old(store.working).(inventory := inventory, orders := SaveRows(old(store.working.orders), chunk))
  {
    PersistAll(store, chunk, now);
    if !ChecksHold(inventory) {
      return Some(BusinessFault(ConstraintViolationFault));
    }
    store.Write(store.working.(inventory := inventory, orders := SaveRows(store.working.orders, chunk)));
    err := store.Flush();
  }

  /** The line items of every chunk. */
  function ChunkItems(chunks: seq<seq<PurchaseOrder>>): (r: seq<seq<seq<PurchaseOrderItem>>>)
    ensures |r| == |chunks| && forall i :: 0 <= i < |chunks| ==> r[i] == ItemsOf(chunks[i])
  {
    seq(|chunks|, i requires 0 <= i < |chunks| => ItemsOf(chunks[i]))
  }

  /** Once a prefix of the chunks has failed, the batch outcome no longer changes. */
  lemma {:induction false} PlaceChunksFailureExtends(inventory: map<Uuid, int>, chunks: seq<seq<seq<PurchaseOrderItem>>>, n: nat)
    requires n <= |chunks|
    requires PlaceChunks(inventory, chunks[..n]).failure.Some?
    ensures PlaceChunks(inventory, chunks) == PlaceChunks(inventory, chunks[..n])
    decreases |chunks| - n
  {
    if n < |chunks| {
      assert chunks[..n + 1][..n] == chunks[..n];
      PlaceChunksFailureExtends(inventory, chunks, n + 1);
    } else {
      assert chunks[..n] == chunks;
    }
  }

  /**
   * `placeOrderChunk` through its transactional proxy, which opens a new
   * read-write transaction for every chunk: the chunk's inventory effect and
   * the rows of its orders, placed and priced under ids new to the table
   * where they had none, are committed together, or nothing is.
   */
  method PlaceChunkInTransaction(store: Store, chunk: seq<PurchaseOrder>, now: Timestamp) returns (err: Option<Throwable>)
    requires store.Valid() && !store.tx.active
    modifies store, set o | o in chunk
    ensures store.Valid() && !store.tx.active
    ensures var effect := ChunkEffect(old(store.committed.inventory), ItemsOf(chunk));
      && (err.None? <==> effect.Success?)
      && (err.Some? ==> err.value == effect.error && store.committed == old(store.committed))
      && (err.None? ==>
            ChunkSavedInto(old(store.committed), store.committed, chunk, effect.value,
                           old(WithoutId(chunk)), old(store.committed.orders.Keys)))
  {
    ghost var before, without := store.committed, WithoutId(chunk);
    ghost var effect := ChunkEffect(store.committed.inventory, ItemsOf(chunk));
    store.Begin(false);
    assert store.working.orders.Keys + store.committed.orders.Keys == before.orders.Keys;
    err := PlaceOrderChunk(store, chunk, now);
    if err.Some? {
      store.Rollback();
    } else {
      assert ChunkSavedInto(before, store.working, chunk, effect.value, without, before.orders.Keys);
      var commitErr := store.Commit();
      assert commitErr.None?;
    }
  }

  /**
   * One more chunk of a batch that has not failed so far: it either commits
   * its effect, or its failure is the outcome of the whole batch.
   */
  lemma PlaceChunksStep(inventory: map<Uuid, int>, chunks: seq<seq<seq<PurchaseOrderItem>>>, i: nat, current: map<Uuid, int>)
    requires i < |chunks|
    requires PlaceChunks(inventory, chunks[..i]) == BatchOutcome(i, current, None)
    ensures var effect := ChunkEffect(current, chunks[i]);
      && (effect.Success? ==> PlaceChunks(inventory, chunks[..i + 1]) == BatchOutcome(i + 1, effect.value, None))
      && (effect.Failure? ==> PlaceChunks(inventory, chunks) == BatchOutcome(i, current, Some(effect.error)))
  {
    assert chunks[..i + 1][..i] == chunks[..i];
    if ChunkEffect(current, chunks[i]).Failure? {
      PlaceChunksFailureExtends(inventory, chunks, i + 1);
    }
  }

  /** The sizes of the first `n` chunks. */
  function Sizes(chunks: seq<seq<PurchaseOrder>>, n: nat): (r: seq<int>)
    requires n <= |chunks|
    ensures |r| == n && forall k :: 0 <= k < n ==> r[k] == |chunks[k]|
  {
    if n == 0 then [] else Sizes(chunks, n - 1) + [|chunks[n - 1]|]
  }

  /**
   * The chunks in order, each in a transaction of its own, until one fails:
   * the chunks before it stay committed, and the consumer hears the size of
   * every committed chunk.
   */
  method PlaceChunksInOrder(store: Store, chunks: seq<seq<PurchaseOrder>>, now: Timestamp)
    returns (err: Option<Throwable>, consumed: seq<int>)
    requires store.Valid() && !store.tx.active
    modifies store, set i, o | 0 <= i < |chunks| && o in chunks[i] :: o
    ensures store.Valid() && !store.tx.active
    ensures var outcome := PlaceChunks(old(store.committed.inventory), ChunkItems(chunks));
      && store.committed.inventory == outcome.inventory
      && err == outcome.failure
      && |consumed| == outcome.committedChunks
      && forall k :: 0 <= k < |consumed| ==> consumed[k] == |chunks[k]|
  {
    var items := ChunkItems(chunks);
    ghost var start := store.committed.inventory;
    consumed := [];
    var i := 0;
    while i < |chunks|
      invariant 0 <= i <= |chunks|
      invariant store.Valid() && !store.tx.active
      invariant PlaceChunks(start, items[..i]) == BatchOutcome(i, store.committed.inventory, None)
      invariant consumed == Sizes(chunks, i)
    {
      PlaceChunksStep(start, items, i, store.committed.inventory);
      assert items[i] == ItemsOf(chunks[i]);
      var failure := PlaceChunkInTransaction(store, chunks[i], now);
      if failure.Some? {
        return failure, consumed;
      }
      consumed := consumed + [|chunks[i]|];
      i := i + 1;
    }
    assert items[..|chunks|] == items;
    err := None;
  }

  /**
   * `placeOrders`: outside any transaction, cuts the orders into chunks of
   * `batchSize` and places each through the transactional proxy, in order;
   * the consumer is handed each chunk's size once that chunk is committed.
   * The first chunk that fails stops the batch, the ones before it staying
   * committed.
   */
  method PlaceOrders(store: Store, orders: seq<PurchaseOrder>, batchSize: nat, now: Timestamp)
    returns (err: Option<Throwable>, consumed: seq<int>)
    requires store.Valid() && batchSize > 0
    modifies store, set o | o in orders
    ensures store.Valid() && store.tx.active == old(store.tx.active)
    ensures !IsNoTransaction(old(store.tx)) ==>
      err == Some(AssertNoTransaction(old(store.tx)).error) && consumed == [] && store.committed == old(store.committed)
    ensures IsNoTransaction(old(store.tx)) ==>
      var chunks := Chunks(orders, batchSize);
      var outcome := PlaceChunks(old(store.committed.inventory), ChunkItems(chunks));
      && store.committed.inventory == outcome.inventory
      && err == outcome.failure
      && |consumed| == outcome.committedChunks
      && (forall i :: 0 <= i < |consumed| ==> consumed[i] == |chunks[i]|)
      && (err.None? ==> forall p :: p in old(store.committed.inventory) ==>
            store.committed.inventory[p] == old(store.committed.inventory[p]) - ChunkQuantity(ItemsOf(orders), p))
  {
    var guard := AssertNoTransaction(store.tx);
    if guard.Fail? {
      return Some(guard.error), [];
    }
    var chunks := Chunks(orders, batchSize);
    ghost var start := store.committed.inventory;
    err, consumed := PlaceChunksInOrder(store, chunks, now);
    if err.None? {
      PlaceChunksLowersByTotal(start, ChunkItems(chunks));
      forall p | p in start
        ensures store.committed.inventory[p] == start[p] - ChunkQuantity(ItemsOf(orders), p)
      {
        ChunkingKeepsQuantity(orders, batchSize, p);
      }
    }
  }

}

/**
 * The database as the order services see it: the product inventory, the
 * order table, the outbox and the inbox, with one transaction at a time.
 * Writes made inside a transaction go to a working copy that commit
 * publishes and rollback discards.
 */
module Storage {
  import opened Common
  import opened AssertUtils
  import opened Orders
  import AdvisorOrder

  /** A row of the `outbox` table. */
  datatype OutboxRow = OutboxRow(aggregateType: string, payload: string)

  /** A row of the `inbox` table. */
  datatype InboxRow = InboxRow(aggregateType: string, payload: string)

  datatype Tables = Tables(
    inventory: map<Uuid, int>,
    orders: map<Uuid, OrderRow>,
    outbox: seq<OutboxRow>,
    inbox: map<string, InboxRow>)

  /** The schema's check constraint: no product's inventory is negative. */
  predicate ChecksHold(inventory: map<Uuid, int>)
  {
    forall p :: p in inventory ==> inventory[p] >= 0
  }

  /** A number above the bits of every id in `ids`. */
  ghost function IdBound(ids: set<Uuid>): (r: nat)
    ensures forall u :: u in ids ==> u.bits < r
    decreases ids
  {
    if ids == {} then 0
    else
      var u :| u in ids;
      var rest := IdBound(ids - {u});
      if u.bits < rest then rest else u.bits + 1
  }

  /** `@EnableTransactionManagement`'s order value for the proxy that opens and ends the store's transactions. */
  const TransactionManagerPrecedence: int := AdvisorOrder.TRANSACTION_MANAGER_ADVISOR

  class Store {
    var committed: Tables
    var working: Tables
    var tx: TxContext
    /** The next identifier the persistence provider hands out; not transactional. */
    var nextId: nat

    /** Outside a transaction nothing is pending, and committed data satisfies the schema. */
    ghost predicate Valid()
      reads this
    {
      && (!tx.active ==> working == committed)
      && ChecksHold(committed.inventory)
    }

    constructor (initial: Tables)
      requires ChecksHold(initial.inventory)
      ensures Valid() && !tx.active
      ensures committed == initial && working == initial && nextId == 0
    {
      committed, working := initial, initial;
      tx := TxContext(false, false);
      nextId := 0;
    }

    method Begin(readOnly: bool)
      requires Valid() && !tx.active
      modifies this
      ensures Valid() && tx == TxContext(true, readOnly)
      ensures committed == old(committed) && working == old(committed) && nextId == old(nextId)
    {
      tx := TxContext(true, readOnly);
      working := committed;
    }

    /**
     * Publishes the working copy; a working copy that breaks the check
     * constraint is discarded instead and the constraint failure returned.
     */
    method Commit() returns (err: Option<Throwable>)
      requires Valid() && tx.active
      modifies this
      ensures Valid() && !tx.active && nextId == old(nextId)
      ensures err.None? <==> ChecksHold(old(working).inventory)
      ensures err.None? ==> committed == old(working)
      ensures err.Some? ==> committed == old(committed) && err.value == ConstraintViolationFault
    {
      if ChecksHold(working.inventory) {
        committed := working;
        err := None;
      } else {
        working := committed;
        err := Some(ConstraintViolationFault);
      }
      tx := TxContext(false, false);
    }

    method Rollback()
      requires Valid() && tx.active
      modifies this
      ensures Valid() && !tx.active
      ensures committed == old(committed) && nextId == old(nextId)
    {
      working := committed;
      tx := TxContext(false, false);
    }

    /** `EntityManager.flush`: the pending writes must satisfy the check constraint. */
    method Flush() returns (err: Option<Throwable>)
      ensures err.None? <==> ChecksHold(working.inventory)
      ensures err.Some? ==> err.value == ConstraintViolationFault
    {
      if ChecksHold(working.inventory) {
        err := None;
      } else {
        err := Some(ConstraintViolationFault);
      }
    }

    /**
     * An identifier generated on persist, standing for the random UUID the
     * entity receives: any id no order row, committed or pending, carries,
     * and never one handed out before.
     */
    method GenerateId() returns (id: Uuid)
      modifies this
      ensures id !in committed.orders && id !in working.orders
      ensures old(nextId) <= id.bits && nextId == id.bits + 1
      ensures committed == old(committed) && working == old(working) && tx == old(tx)
    {
      ghost var bound := IdBound(committed.orders.Keys + working.orders.Keys);
      var n := if nextId < bound then bound else nextId;
      assert Uuid(n) !in committed.orders && Uuid(n) !in working.orders;
      id :| nextId <= id.bits && id !in committed.orders && id !in working.orders;
      nextId := id.bits + 1;
    }

    /** Replaces the working copy; used for writes made inside the open transaction. */
    method Write(t: Tables)
      requires Valid() && tx.active
      modifies this
      ensures Valid() && working == t
      ensures committed == old(committed) && tx == old(tx) && nextId == old(nextId)
    {
      working := t;
    }

    /**
     * A write outside any transaction commits on its own (auto-commit);
     * inside one it joins the transaction.
     */
    method WriteAutoCommit(t: Tables)
      requires Valid() && (!tx.active ==> ChecksHold(t.inventory))
      modifies this
      ensures Valid() && working == t && tx == old(tx) && nextId == old(nextId)
      ensures !tx.active ==> committed == t
      ensures tx.active ==> committed == old(committed)
    {
      working := t;
      if !tx.active {
        committed := t;
      }
    }

    /**
     * An inbox upsert made while the caller's transaction, if there is one,
     * is suspended: it commits at once. The caller's transaction later
     * publishes or discards whole tables, so the row enters its working copy
     * as well, where neither that commit nor that rollback undoes it.
     */
    method UpsertInboxSuspended(key: string, row: InboxRow)
      requires Valid()
      modifies this
      ensures Valid() && tx == old(tx) && nextId == old(nextId)
      ensures committed == old(committed).(inbox := old(committed.inbox)[key := row])
      ensures working == old(working).(inbox := old(working.inbox)[key := row])
    {
      committed := committed.(inbox := committed.inbox[key := row]);
      working := working.(inbox := working.inbox[key := row]);
    }
  }
}

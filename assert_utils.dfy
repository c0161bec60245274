/**
 * The three guards every service facade method starts with. Each reads the
 * current transaction context and either passes or throws the
 * IllegalArgumentException of `Assert.isTrue`.
 */
module AssertUtils {
  import opened Common

  /** What `TransactionSynchronizationManager` reports for the current thread. */
  datatype TxContext = TxContext(active: bool, readOnly: bool)

  /** The outcome of a guard: it passes or throws. */
  datatype Check = Pass | Fail(error: Throwable)

  predicate IsReadOnlyTransaction(ctx: TxContext) { ctx.active && ctx.readOnly }

  predicate IsReadWriteTransaction(ctx: TxContext) { ctx.active && !ctx.readOnly }

  predicate IsNoTransaction(ctx: TxContext) { !ctx.active }

  function AssertReadOnlyTransaction(ctx: TxContext): (r: Check)
    ensures r.Pass? <==> IsReadOnlyTransaction(ctx)
    ensures !ctx.active ==> r == Fail(Fault(IllegalArgument, "Txn is not active"))
    ensures ctx.active && !ctx.readOnly ==> r == Fail(Fault(IllegalArgument, "Txn is not read-only"))
  {
    if !ctx.active then Fail(Fault(IllegalArgument, "Txn is not active"))
    else if !ctx.readOnly then Fail(Fault(IllegalArgument, "Txn is not read-only"))
    else Pass
  }

  function AssertReadWriteTransaction(ctx: TxContext): (r: Check)
    ensures r.Pass? <==> IsReadWriteTransaction(ctx)
    ensures !ctx.active ==> r == Fail(Fault(IllegalArgument, "Txn is not active"))
    ensures ctx.active && ctx.readOnly ==> r == Fail(Fault(IllegalArgument, "Txn is read-only"))
  {
    if !ctx.active then Fail(Fault(IllegalArgument, "Txn is not active"))
    else if ctx.readOnly then Fail(Fault(IllegalArgument, "Txn is read-only"))
    else Pass
  }

  function AssertNoTransaction(ctx: TxContext): (r: Check)
    ensures r.Pass? <==> IsNoTransaction(ctx)
    ensures ctx.active ==> r == Fail(Fault(IllegalArgument, "Txn is active"))
  {
    if ctx.active then Fail(Fault(IllegalArgument, "Txn is active")) else Pass
  }
}

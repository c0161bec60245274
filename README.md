# CockroachDB training modules: order services, transaction advice and outbox/inbox, in Dafny

This project models the core of the CockroachDB training modules, a set of Spring Boot
applications. The modules teach transactions, contention, performance and event patterns
through one small order-taking domain.

- **Domain.** A `PurchaseOrder` is assembled through a builder with nested line-item builders.
  Each `PurchaseOrderItem` refers to a `Product` by id or SKU. A `Simulation` says how a
  status update is carried out: read-modify-write or write-only, with a lock mode and an
  optional commit delay.
- **Order services ("facades"), one per chapter.**
  - Placing an order lowers each product's inventory by the item quantity. It then marks the
    order `placed`, prices it at its subtotal and saves it. The flush surfaces the schema's
    non-negative-inventory check as a `BusinessException`.
  - Updating an order is a compare-and-set on its shipment status.
  - Finders and order-total sums check which kind of transaction they run in, through
    `AssertUtils`.
  - The performance chapter places orders in chunks, one transaction per chunk.
  - The patterns chapter writes the placed order to an outbox table inside the placing
    transaction, or upserts it into an inbox table with no transaction of its own.
- **Transaction advice.**
  - `AdvisorOrder` fixes the nesting of the advices: retry, then transaction manager, then
    session attributes, then change feed.
  - `TransactionDecoratorAspect` issues the session statements of a `@TransactionExplicit`
    profile inside the open transaction.
  - `TransientExceptionClassifier` decides what Spring Retry retries: only a failure whose
    most specific cause is an SQL serialization failure, SQL state `40001`.
  - `TransientExceptionRetryListener` counts failed and successful attempts.

## How the model is organised

| module | file | what it holds |
|---|---|---|
| `Common` | common.dfy | `Option`, `Result`, ids, timestamps, and the `Throwable` datatype (exception class, message, cause chain) that every failure in the model is. |
| `Retry` | retry.dfy | The classifier (a class with its `enabled` flag) and the retry listener (a class with its two counters). |
| `AdvisorOrder` | advisor_order.dfy | The advisor precedence constants and the enclosing relation they induce. |
| `AssertUtils` | assert_utils.dfy | The three transaction guards, over a `TxContext(active, readOnly)`. |
| `TransactionDecorator` | decorator.dfy | The decorator aspect, which appends the statements it issues to a `Session` object. |
| `Products`, `Simulations`, `Orders` | product.dfy, simulation.dfy, purchase_order.dfy | The entities as classes whose setters update fields in place, their builders, and the value types (`PurchaseOrderItem`, `OrderRow`). |
| `Storage` | store.dfy | The database as one `Store` object. It holds committed and working `Tables` (inventory, orders, outbox, inbox) and the current `TxContext`, with `Begin`, `Commit`, `Rollback` and `Flush`. The `Commit` and `Flush` methods enforce the non-negative inventory check. |
| `OrderPlacement`, `OrderUpdate`, `OrderQueries`, `OrderValidation`, `BatchPlacement` | order_placement.dfy, order_update.dfy, queries.dfy, validation.dfy, batch_placement.dfy | The facade operations. The three chapter facades share `placeOrder`, `updateOrder` and `findOrderById`, which appear here once each. |
| `OutboxInbox` | outbox_inbox.dfy | The outbox aspect and repository, the outbox and inbox order services, and the inbox repository. |
| `RetryTemplate` | retry_template.dfy | `updateOrder` under `@Retryable(maxAttempts = 5)`: one transaction per attempt, the classifier deciding, the listener counting. |

The imperative parts stay imperative:

- entity setters, builders, the listener counters and the store are classes with `modifies` clauses;
- loops stay loops (subtotal, inventory lowering, validation, the sum query, chunked placement, the retry loop);
- each method is proved against a specification function (`SumCosts`, `ApplyItems`, `PlaceOrderEffect`, `UpdateOrderEffect`, `ChunkEffect`, `PlaceChunks`, `FirstInvalid`, `SumOrderTotal`, `RetryFrom`).

The properties are proved as lemmas about those functions.

Exceptions are values: a method that can throw returns a `Result` or an `Option<Throwable>`. The
values it names are the ones the source throws:

- `IllegalArgumentException` with the guard's message;
- `NullPointerException` for `requireNonNull`;
- `EntityNotFoundException` for an unknown product reference;
- `NoResultException` for a missing order;
- `IllegalStateException` from the builders and an unpriced item;
- `BusinessException` wrapping the constraint violation;
- `RuntimeException` wrapping a JSON failure.

Amounts (`BigDecimal`) are `real`. The current time, the JSON writer, the inbox key, the remote
inventory check and, in the retried update, which attempts lose a race to a concurrent
transaction are all parameters. An id generated on persist, which the source draws as a random
UUID, is an arbitrary id that no order row carries and that was not handed out before; the
store keeps a counter only to make successive ids differ.

## Model

| member | source | states |
|---|---|---|
| Retry.MostSpecificCause | training-modules-common/src/main/java/io/cockroachdb/training/common/retry/TransientExceptionClassifier.java:28 | The most specific cause is the innermost throwable of the cause chain. It has no cause of its own and lies on the chain. |
| Retry.ShouldRetrySql | training-modules-common/src/main/java/io/cockroachdb/training/common/retry/TransientExceptionClassifier.java:36-43 | An SQLException is transient exactly when its SQL state is "40001". |
| Retry.TransientExceptionClassifier.ShouldRetry | training-modules-common/src/main/java/io/cockroachdb/training/common/retry/TransientExceptionClassifier.java:24-34 | Retry exactly when the classifier is enabled, the exception is non-null, and its most specific cause is an SQLException in state 40001. |
| Retry.TransientExceptionClassifier.constructor | training-modules-common/src/main/java/io/cockroachdb/training/common/retry/TransientExceptionClassifier.java:14 | A new classifier is enabled. |
| Retry.TransientExceptionClassifier.IsEnabled | training-modules-common/src/main/java/io/cockroachdb/training/common/retry/TransientExceptionClassifier.java:16-18 | Returns the enabled flag. |
| Retry.TransientExceptionClassifier.SetEnabled | training-modules-common/src/main/java/io/cockroachdb/training/common/retry/TransientExceptionClassifier.java:20-22 | Sets the flag, and `isEnabled` then reports the new value. |
| Retry.DisabledNeverRetries | training-modules-common/src/main/java/io/cockroachdb/training/common/retry/TransientExceptionClassifier.java:25-27 | A disabled classifier retries nothing. |
| Retry.WrappedSerializationFailureRetried | training-modules-common/src/main/java/io/cockroachdb/training/common/retry/TransientExceptionClassifier.java:28-31 | A 40001 SQLException wrapped in any number of other exceptions is retried by an enabled classifier. |
| Retry.InnermostOfWrap | training-modules-common/src/main/java/io/cockroachdb/training/common/retry/TransientExceptionClassifier.java:28 | Wrapping does not change the most specific cause. |
| Retry.SerializationFailureWrappingOtherCauseNotRetried | training-modules-common/src/main/java/io/cockroachdb/training/common/retry/TransientExceptionClassifier.java:28-33 | Only the innermost cause counts: a 40001 SQLException that has a non-transient cause of its own is not retried. |
| Retry.ConstraintViolationNotRetried | training-modules-common/src/main/java/io/cockroachdb/training/common/retry/TransientExceptionClassifier.java:28-34 | The BusinessException raised for a check-constraint violation is never retried. |
| Retry.TransientExceptionRetryListener.constructor | training-modules-common/src/main/java/io/cockroachdb/training/common/retry/TransientExceptionRetryListener.java:10-12 | Both counters start at 0. |
| Retry.TransientExceptionRetryListener.Clear | training-modules-common/src/main/java/io/cockroachdb/training/common/retry/TransientExceptionRetryListener.java:14-17 | Resets both counters to 0. |
| Retry.TransientExceptionRetryListener.GetError | training-modules-common/src/main/java/io/cockroachdb/training/common/retry/TransientExceptionRetryListener.java:19-21 | Returns the error count. |
| Retry.TransientExceptionRetryListener.GetSuccess | training-modules-common/src/main/java/io/cockroachdb/training/common/retry/TransientExceptionRetryListener.java:23-25 | Returns the success count. |
| Retry.TransientExceptionRetryListener.OnError | training-modules-common/src/main/java/io/cockroachdb/training/common/retry/TransientExceptionRetryListener.java:27-31 | Adds one to the error count only; the counters keep equalling the callbacks received. |
| Retry.TransientExceptionRetryListener.OnSuccess | training-modules-common/src/main/java/io/cockroachdb/training/common/retry/TransientExceptionRetryListener.java:33-36 | Adds one to the success count only; the counters keep equalling the callbacks received. |
| Retry.CountsAreMonotone | training-modules-common/src/main/java/io/cockroachdb/training/common/retry/TransientExceptionRetryListener.java:27-36 | Further callbacks never decrease either count, and the two counts add up to the number of callbacks. |
| Retry.CountsPartition | training-modules-common/src/main/java/io/cockroachdb/training/common/retry/TransientExceptionRetryListener.java:27-36 | Every callback is counted exactly once, as an error or as a success. |
| AdvisorOrder.Precedence | training-modules-common/src/main/java/io/cockroachdb/training/common/aspect/AdvisorOrder.java:10-29 | Each advice's order value lies within five below `LOWEST_PRECEDENCE`, so all of them run before an advisor left at the default. |
| AdvisorOrder.Encloses | training-modules-common/src/main/java/io/cockroachdb/training/common/aspect/AdvisorOrder.java:10-29 | By Spring's rule that a lower order value is invoked first, one advice encloses another exactly when the documented nesting (retry, transaction manager, session attributes, change feed) puts it further out. |
| AdvisorOrder.AdvisorsNestAsDocumented | training-modules-common/src/main/java/io/cockroachdb/training/common/aspect/AdvisorOrder.java:10-29 | Retry encloses the transaction manager, which encloses the session-attribute advice, which encloses the change-feed advice. Every order value is below `LOWEST_PRECEDENCE`, and no two advices enclose each other. |
| AssertUtils.AssertReadOnlyTransaction | domain/src/main/java/io/cockroachdb/training/util/AssertUtils.java:10-13 | Passes exactly in an active read-only transaction. Otherwise it fails with "Txn is not active" or "Txn is not read-only", in that order of checking. |
| AssertUtils.AssertReadWriteTransaction | domain/src/main/java/io/cockroachdb/training/util/AssertUtils.java:15-18 | Passes exactly in an active read-write transaction. Otherwise it fails with "Txn is not active" or "Txn is read-only". |
| AssertUtils.AssertNoTransaction | domain/src/main/java/io/cockroachdb/training/util/AssertUtils.java:20-22 | Passes exactly when no transaction is active. Otherwise it fails with "Txn is active". |
| TransactionDecorator.TransactionDecoratorAspect.constructor | common/src/main/java/io/cockroachdb/training/common/aspect/TransactionDecoratorAspect.java:45-49 | Records the licence flag and the session it issues statements on. |
| TransactionDecorator.TransactionDecoratorAspect.DoInTransaction | common/src/main/java/io/cockroachdb/training/common/aspect/TransactionDecoratorAspect.java:51-104 | With no active transaction, or no profile on the method or its type, it fails and issues nothing. Otherwise it issues the profile's statements in order, then invokes the target exactly once and returns its outcome unchanged. The method's profile wins over the type's. |
| TransactionDecorator.TransactionDecoratorAspect.IssueDirectives | common/src/main/java/io/cockroachdb/training/common/aspect/TransactionDecoratorAspect.java:66-101 | Appends exactly the profile's directives to the session, and nothing else. |
| TransactionDecorator.TransactionDecoratorAspect.IssueApplicationName | common/src/main/java/io/cockroachdb/training/common/aspect/TransactionDecoratorAspect.java:66-68 | Issues the application-name statement unless the name is "(empty)". |
| TransactionDecorator.TransactionDecoratorAspect.IssuePriority | common/src/main/java/io/cockroachdb/training/common/aspect/TransactionDecoratorAspect.java:70-83 | Issues the priority statement for a non-NORMAL priority. It also issues it for NORMAL when the retry call count is present and above 1. |
| TransactionDecorator.TransactionDecoratorAspect.IssueIdleTimeout | common/src/main/java/io/cockroachdb/training/common/aspect/TransactionDecoratorAspect.java:85-87 | Issues the idle-timeout statement unless the timeout is "0s". |
| TransactionDecorator.TransactionDecoratorAspect.IssueReadOnly | common/src/main/java/io/cockroachdb/training/common/aspect/TransactionDecoratorAspect.java:89-91 | Issues the read-only statement for a read-only profile. |
| TransactionDecorator.TransactionDecoratorAspect.IssueTimeTravel | common/src/main/java/io/cockroachdb/training/common/aspect/TransactionDecoratorAspect.java:93-101 | With the licence, issues the follower-read statement or the historical-interval statement, according to the mode. |
| TransactionDecorator.TransactionDecoratorAspect.AttributesAdviceInsideTransaction | common/src/main/java/io/cockroachdb/training/common/aspect/TransactionDecoratorAspect.java:33-39 | The aspect's order value is the session-attribute precedence, enclosed by both the transaction manager and the retry advice, so the transaction `doInTransaction` requires is already open when it runs. |
| TransactionDecorator.DirectivesInFixedOrder | common/src/main/java/io/cockroachdb/training/common/aspect/TransactionDecoratorAspect.java:66-101 | Statements always come in the order application name, priority, idle timeout, read-only, time travel, so no kind is issued twice. |
| TransactionDecorator.ApplicationNameDirective | common/src/main/java/io/cockroachdb/training/common/aspect/TransactionDecoratorAspect.java:66-68 | The application name is issued exactly when it is not "(empty)", and it carries the profile's name. |
| TransactionDecorator.PriorityDirective | common/src/main/java/io/cockroachdb/training/common/aspect/TransactionDecoratorAspect.java:70-83 | The priority is issued exactly when it is non-NORMAL or the retry count is above 1. It always names the profile's own priority, so a retried NORMAL transaction is never raised to HIGH. |
| TransactionDecorator.IdleTimeoutDirective | common/src/main/java/io/cockroachdb/training/common/aspect/TransactionDecoratorAspect.java:85-87 | The idle timeout is issued exactly when it is not "0s", with the profile's value. |
| TransactionDecorator.ReadOnlyDirective | common/src/main/java/io/cockroachdb/training/common/aspect/TransactionDecoratorAspect.java:89-91 | The read-only statement is issued exactly for read-only profiles. |
| TransactionDecorator.TimeTravelDirective | common/src/main/java/io/cockroachdb/training/common/aspect/TransactionDecoratorAspect.java:93-101 | Time travel is issued exactly when licensed and the mode is not DISABLED. It is the last statement, and the interval text is spliced into the SQL verbatim. |
| Products.Product.constructor | domain/src/main/java/io/cockroachdb/training/domain/Product.java:64-82 | A new product has no id, name, SKU or price, and inventory 0. |
| Products.Product.SetId | domain/src/main/java/io/cockroachdb/training/domain/Product.java:93-95 | Changes the id and nothing else. |
| Products.Product.SetSku | domain/src/main/java/io/cockroachdb/training/domain/Product.java:109-111 | Changes the SKU and nothing else. |
| Products.Product.SetPrice | domain/src/main/java/io/cockroachdb/training/domain/Product.java:113-115 | Changes the price and nothing else. |
| Products.Product.AddPrice | domain/src/main/java/io/cockroachdb/training/domain/Product.java:117-120 | As written: the price becomes the argument doubled, whatever it was before, and that value is returned. |
| Products.Product.AddToPrice | domain/src/main/java/io/cockroachdb/training/domain/Product.java:117-120 | Corrected: the argument is added to the current price. A missing price throws NullPointerException and changes nothing. |
| Products.AddPriceDiscrepancy | domain/src/main/java/io/cockroachdb/training/domain/Product.java:117-120 | On a product priced 10, `addPrice(1)` leaves 2, where the corrected addition leaves 11. |
| Products.Product.AddInventoryQuantity | domain/src/main/java/io/cockroachdb/training/domain/Product.java:122-125 | Adds the possibly negative quantity to the inventory, returns the new inventory, and changes nothing else. |
| Products.Product.GetInventory | domain/src/main/java/io/cockroachdb/training/domain/Product.java:127-129 | Returns the inventory. |
| Products.Product.SetInventory | domain/src/main/java/io/cockroachdb/training/domain/Product.java:131-133 | Changes the inventory and nothing else. |
| Products.ProductBuilder.constructor | domain/src/main/java/io/cockroachdb/training/domain/Product.java:23-27 | The builder holds one fresh, blank product. |
| Products.ProductBuilder.WithRandomUuid | domain/src/main/java/io/cockroachdb/training/domain/Product.java:29-32 | Sets the instance's id to the given random UUID, changes nothing else, and returns the builder. |
| Products.ProductBuilder.WithId | domain/src/main/java/io/cockroachdb/training/domain/Product.java:34-37 | Sets only the id and returns the builder. |
| Products.ProductBuilder.WithName | domain/src/main/java/io/cockroachdb/training/domain/Product.java:39-42 | Sets only the name and returns the builder. |
| Products.ProductBuilder.WithSku | domain/src/main/java/io/cockroachdb/training/domain/Product.java:44-47 | Sets only the SKU and returns the builder. |
| Products.ProductBuilder.WithPrice | domain/src/main/java/io/cockroachdb/training/domain/Product.java:49-52 | Sets only the price and returns the builder. |
| Products.ProductBuilder.WithInventory | domain/src/main/java/io/cockroachdb/training/domain/Product.java:54-57 | Sets only the inventory and returns the builder. |
| Products.ProductBuilder.Build | domain/src/main/java/io/cockroachdb/training/domain/Product.java:59-61 | Returns the builder's own instance, not a copy. |
| Products.BuildTwiceSharesInstance | domain/src/main/java/io/cockroachdb/training/domain/Product.java:59-61 | Two builds return the same object, so a setter called after the first build changes the product already handed out. |
| Simulations.Simulation.constructor | training-modules-domain/src/main/java/io/cockroachdb/training/domain/Simulation.java:36-40 | Defaults: no commit delay, read-modify-write, lock mode NONE. |
| Simulations.Simulation.SetCommitDelay | training-modules-domain/src/main/java/io/cockroachdb/training/domain/Simulation.java:46-49 | Changes only the delay and returns the same simulation. |
| Simulations.Simulation.SetLockModeType | training-modules-domain/src/main/java/io/cockroachdb/training/domain/Simulation.java:55-58 | Changes only the lock mode and returns the same simulation. |
| Simulations.Simulation.SetPattern | training-modules-domain/src/main/java/io/cockroachdb/training/domain/Simulation.java:64-67 | Changes only the pattern and returns the same simulation. |
| Simulations.Simulation.ThinkTime | training-modules-domain/src/main/java/io/cockroachdb/training/domain/Simulation.java:69-83 | Sleeps exactly when the delay is positive, for the delay in whole milliseconds. |
| Simulations.NoSimulation | training-modules-domain/src/main/java/io/cockroachdb/training/domain/Simulation.java:19-21 | A fresh simulation with the defaults. |
| Simulations.ReadModifyWrite | training-modules-domain/src/main/java/io/cockroachdb/training/domain/Simulation.java:23-25 | A fresh simulation with the defaults, whose pattern is read-modify-write. |
| Simulations.WriteOnly | training-modules-domain/src/main/java/io/cockroachdb/training/domain/Simulation.java:27-29 | A fresh simulation with the defaults, except for the write-only pattern. |
| Orders.TotalCost | domain/src/main/java/io/cockroachdb/training/domain/PurchaseOrderItem.java:107-112 | Fails with IllegalStateException exactly when the unit price is missing. Otherwise the cost is unit price times quantity. |
| Orders.SumCosts | domain/src/main/java/io/cockroachdb/training/domain/model/PurchaseOrder.java:166-172 | The subtotal. Its only failure is the unpriced-item exception. |
| Orders.PricedTotalAppend | domain/src/main/java/io/cockroachdb/training/domain/model/PurchaseOrder.java:166-172 | Appending a priced item adds unit price times quantity to the total. |
| Orders.SumCostsIsPricedTotal | domain/src/main/java/io/cockroachdb/training/domain/model/PurchaseOrder.java:166-172 | The subtotal succeeds exactly when every item is priced. It then equals the sum of unit price times quantity. |
| Orders.SumCostsFailureExtends | domain/src/main/java/io/cockroachdb/training/domain/model/PurchaseOrder.java:166-172 | An unpriced item in a prefix makes the whole subtotal fail. |
| Orders.PurchaseOrder.SubTotal | domain/src/main/java/io/cockroachdb/training/domain/model/PurchaseOrder.java:166-172 | The loop's result is the subtotal function of the order's items. |
| Orders.Stamp | domain/src/main/java/io/cockroachdb/training/domain/model/PurchaseOrder.java:116-124 | A missing date becomes now, and a present date is kept. |
| Orders.StampIdempotent | domain/src/main/java/io/cockroachdb/training/domain/model/PurchaseOrder.java:116-124 | Stamping twice is stamping once, whatever the second time. |
| Orders.PurchaseOrder.constructor | domain/src/main/java/io/cockroachdb/training/domain/model/PurchaseOrder.java:58-64 | The built order takes the builder's id, customer and items, and the customer's address for delivery. It starts `placed`, unpriced and undated. |
| Orders.PurchaseOrder.PreCreate | domain/src/main/java/io/cockroachdb/training/domain/model/PurchaseOrder.java:116-124 | Stamps only the missing dates; id, status and total are unchanged. |
| Orders.PurchaseOrder.SetStatus | domain/src/main/java/io/cockroachdb/training/domain/model/PurchaseOrder.java:126-128 | Changes the status and nothing else. |
| Orders.PurchaseOrder.SetTotalPrice | domain/src/main/java/io/cockroachdb/training/domain/model/PurchaseOrder.java:134-136 | Changes the total and nothing else. |
| Orders.BuildFailure | domain/src/main/java/io/cockroachdb/training/domain/model/PurchaseOrder.java:50-56 | Building is refused exactly when the customer is missing ("Missing customer", checked first) or there are no items ("Empty order"). |
| Orders.PurchaseOrderBuilder.constructor | domain/src/main/java/io/cockroachdb/training/domain/model/PurchaseOrder.java:26-34 | Starts with no id, no customer and no items. |
| Orders.PurchaseOrderBuilder.WithGeneratedId | domain/src/main/java/io/cockroachdb/training/domain/model/PurchaseOrder.java:36-39 | Sets only the id and returns the builder. |
| Orders.PurchaseOrderBuilder.WithCustomer | domain/src/main/java/io/cockroachdb/training/domain/model/PurchaseOrder.java:41-44 | Sets only the customer and returns the builder. |
| Orders.PurchaseOrderBuilder.AndOrderItem | domain/src/main/java/io/cockroachdb/training/domain/model/PurchaseOrder.java:46-48 | Returns a fresh, empty item builder tied to this builder. |
| Orders.PurchaseOrderBuilder.AddItem | domain/src/main/java/io/cockroachdb/training/domain/model/PurchaseOrder.java:47 | Appends the item and changes nothing else. |
| Orders.PurchaseOrderBuilder.Build | domain/src/main/java/io/cockroachdb/training/domain/model/PurchaseOrder.java:50-65 | Fails exactly as the build check says. Otherwise it returns a fresh order with the builder's id, customer, items and the customer's address. |
| Orders.NewItem | domain/src/main/java/io/cockroachdb/training/domain/PurchaseOrderItem.java:58-81 | An item is made exactly when an id or SKU is given, the price is given and the quantity is positive. Each refusal raises the source's exception: NullPointerException, or IllegalArgumentException "quantity must be > 0". |
| Orders.NestedBuilder.constructor | domain/src/main/java/io/cockroachdb/training/domain/PurchaseOrderItem.java:33-36 | Tied to its parent builder, with every field unset. |
| Orders.NestedBuilder.WithQuantity | domain/src/main/java/io/cockroachdb/training/domain/PurchaseOrderItem.java:38-41 | Sets only the quantity and returns the builder. |
| Orders.NestedBuilder.WithUnitPrice | domain/src/main/java/io/cockroachdb/training/domain/PurchaseOrderItem.java:43-46 | Sets only the unit price and returns the builder. |
| Orders.NestedBuilder.WithProductId | domain/src/main/java/io/cockroachdb/training/domain/PurchaseOrderItem.java:48-51 | Sets only the product id and returns the builder. |
| Orders.NestedBuilder.WithProductSku | domain/src/main/java/io/cockroachdb/training/domain/PurchaseOrderItem.java:53-56 | Sets only the SKU and returns the builder. |
| Orders.NestedBuilder.Then | domain/src/main/java/io/cockroachdb/training/domain/PurchaseOrderItem.java:58-81 | Appends the validated item to the parent and returns the parent, or fails with the item's exception and appends nothing. |
| Orders.UpdateOrderStatusById | domain/src/main/java/io/cockroachdb/training/domain/model/PurchaseOrder.java:19-20 | The named update affects 1 row exactly when the order exists in the pre status, and then sets only its status. Otherwise it affects 0 rows. |
| Orders.UpdateOrderStatusIdempotent | domain/src/main/java/io/cockroachdb/training/domain/model/PurchaseOrder.java:19-20 | Repeating the update, with pre and post different, affects no row. |
| Orders.SequentialTransitions | ch1-transactions/src/test/java/io/cockroachdb/training/transactions/FunctionalTest.java:125-143 | From placed, placed-to-confirmed and then confirmed-to-delivered each affect one row and end delivered. |
| Storage.Store.GenerateId | domain/src/main/java/io/cockroachdb/training/domain/model/PurchaseOrder.java:68-70 | The id generated for an order on persist is carried by no order row, committed or pending, and differs from every id generated before it. |
| Storage.Store.UpsertInboxSuspended | common/src/main/java/io/cockroachdb/training/common/annotation/TransactionImplicit.java:14-23 | With the caller's transaction suspended, an inbox upsert is committed at once; the caller's pending tables receive it too, so neither the caller's commit nor its rollback loses it. Nothing else changes. |
| OrderPlacement.ApplyItems | training-modules-ch1-transactions/src/main/java/io/cockroachdb/training/transactions/OrderServiceFacade.java:100-104 | Lowering keeps the set of products. Its failures are only the null-id and unknown-product exceptions. |
| OrderPlacement.ApplyItemsLowersByTotalQuantity | training-modules-ch1-transactions/src/main/java/io/cockroachdb/training/transactions/OrderServiceFacade.java:100-104 | Lowering succeeds exactly when every item names a known product. Each product then drops by the total quantity ordered of it, repeats accumulating. |
| OrderPlacement.ApplyItemsFailureExtends | training-modules-ch1-transactions/src/main/java/io/cockroachdb/training/transactions/OrderServiceFacade.java:100-104 | The first unresolvable item decides the failure, whatever follows it. |
| OrderPlacement.LowerInventories | training-modules-ch1-transactions/src/main/java/io/cockroachdb/training/transactions/OrderServiceFacade.java:100-104 | The item loop computes exactly the lowering function. |
| OrderPlacement.PlaceOrderEffect | training-modules-ch1-transactions/src/main/java/io/cockroachdb/training/transactions/OrderServiceFacade.java:95-114 | A successful placement keeps every inventory non-negative and the set of products unchanged. |
| OrderPlacement.PlaceOrderEffectMeaning | training-modules-ch1-transactions/src/main/java/io/cockroachdb/training/transactions/OrderServiceFacade.java:95-114 | Placement succeeds exactly when every item resolves, every item is priced and no product is ordered beyond its stock. It then lowers each product by its ordered quantity. Otherwise a resolvable, priced order fails only with the constraint-violation BusinessException. |
| OrderPlacement.WholeInventoryThenOneMore | ch1-transactions/src/test/java/io/cockroachdb/training/transactions/FunctionalTest.java:47-123 | Ordering a product's whole stock leaves 0, and one more unit is then refused with the constraint-violation BusinessException. |
| OrderPlacement.PlaceOrder | training-modules-ch1-transactions/src/main/java/io/cockroachdb/training/transactions/OrderServiceFacade.java:93-115 | Needs a read-write transaction. A failure leaves the transaction's tables as they were. On success the order is placed, priced at its subtotal, stamped and saved, and each product is lowered as the placement effect says. An order that arrived without an id is saved under one no row had, so no existing order is replaced. The same code is `placeOrder` in the contention chapter facade (training-modules-ch2-contention/src/main/java/io/cockroachdb/training/contention/OrderServiceFacade.java:62-84), the performance chapter facade (training-modules-ch3-performance/src/main/java/io/cockroachdb/training/performance/OrderServiceFacade.java:66-86) and the inbox order service (ch4-patterns/src/main/java/io/cockroachdb/training/patterns/inbox/InboxOrderService.java:28-51), all modelled by this one member. |
| OrderPlacement.SaveAndFlush | training-modules-ch1-transactions/src/main/java/io/cockroachdb/training/transactions/OrderServiceFacade.java:106-114 | Keeps the status and the total, and gives the order an id, new to the order table when it had none, and dates. A flush that finds a negative inventory becomes the BusinessException; otherwise the row and the inventory are written. |
| OrderPlacement.PlaceOrderInTransaction | training-modules-ch1-transactions/src/main/java/io/cockroachdb/training/transactions/OrderServiceFacade.java:93-95 | Through the transactional proxy, the placement commits exactly its effect, or nothing at all. On success the committed tables gain the lowered inventory and the placed, priced order's row, under an id no committed order had when the order arrived without one. |
| OrderUpdate.UpdateOrderEffect | training-modules-ch2-contention/src/main/java/io/cockroachdb/training/contention/OrderServiceFacade.java:87-142 | Under read-modify-write a missing order raises NoResultException; write-only never fails. Only the given order can change, and no order appears or disappears. |
| OrderUpdate.UpdateIsCompareAndSet | training-modules-ch2-contention/src/main/java/io/cockroachdb/training/contention/OrderServiceFacade.java:120-125 | The status changes to post exactly when it was pre, and is left unchanged otherwise. The update time is touched only by read-modify-write. |
| OrderUpdate.MissingOrder | training-modules-ch2-contention/src/main/java/io/cockroachdb/training/contention/OrderServiceFacade.java:115-118 | A missing order fails read-modify-write and is a no-op for write-only. |
| OrderUpdate.UpdateIdempotent | training-modules-ch2-contention/src/main/java/io/cockroachdb/training/contention/OrderServiceFacade.java:106-142 | Repeating an update, with pre and post different, changes nothing, under either pattern. |
| OrderUpdate.SequentialUpdates | ch1-transactions/src/test/java/io/cockroachdb/training/transactions/FunctionalTest.java:125-143 | placed-to-confirmed, then confirmed-to-delivered, both take effect under either pattern. |
| OrderUpdate.UpdateOrder | training-modules-ch1-transactions/src/main/java/io/cockroachdb/training/transactions/OrderServiceFacade.java:134-179 | Needs a read-write transaction. It then applies the update effect of the simulation's pattern and flushes, and reports the simulation's lock mode as the one in force. The contention chapter's `updateOrder` (training-modules-ch2-contention/src/main/java/io/cockroachdb/training/contention/OrderServiceFacade.java:87-104) dispatches on the pattern in the same way. |
| OrderUpdate.UpdateOrderReadModifyWrite | training-modules-ch2-contention/src/main/java/io/cockroachdb/training/contention/OrderServiceFacade.java:106-126 | Read-modify-write: the compare-and-set with the update time. The second lock-mode call wins. |
| OrderUpdate.UpdateOrderWriteOnly | training-modules-ch2-contention/src/main/java/io/cockroachdb/training/contention/OrderServiceFacade.java:128-142 | Write-only: the named update, and its affected-row count. |
| OrderQueries.SumOrderTotal | domain/src/main/java/io/cockroachdb/training/domain/repository/OrderRepository.java:22-23 | The SQL sum is null exactly when no order has the status. |
| OrderQueries.StatusTotalRemove | domain/src/main/java/io/cockroachdb/training/domain/repository/OrderRepository.java:22-23 | The sum does not depend on the order in which rows are visited. |
| OrderQueries.StatusTotalAgree | domain/src/main/java/io/cockroachdb/training/domain/repository/OrderRepository.java:22-23 | Tables that agree on a set of rows have the same sum over it. |
| OrderQueries.StatusTotalNone | domain/src/main/java/io/cockroachdb/training/domain/repository/OrderRepository.java:22-23 | With no matching row, the running sum is 0. |
| OrderQueries.SumAfterNewOrder | domain/src/main/java/io/cockroachdb/training/domain/repository/OrderRepository.java:22-23 | Saving a new order adds its total to its own status's sum (null becoming that total) and leaves the other sums alone. |
| OrderQueries.QuerySumOrderTotal | domain/src/main/java/io/cockroachdb/training/domain/repository/OrderRepository.java:22-28 | The row-by-row aggregation computes exactly the sum, including null for no match. |
| OrderQueries.PlaceOrderThenSum | training-modules-ch3-performance/src/main/java/io/cockroachdb/training/performance/OrderServiceFacade.java:46-51 | Summing placed orders before and after placing one that arrives without an id: a successful placement raises the sum by exactly the order's subtotal (null becoming that subtotal), and a failed one leaves it unchanged. |
| OrderQueries.SumOrderTotals | training-modules-ch3-performance/src/main/java/io/cockroachdb/training/performance/OrderServiceFacade.java:46-51 | Outside a transaction it returns the committed sum over placed orders; inside one it fails with the guard's exception. |
| OrderQueries.SumOrderTotalsHistoricalQuery | training-modules-ch3-performance/src/main/java/io/cockroachdb/training/performance/OrderServiceFacade.java:53-58 | In a read-only transaction it returns the sum over placed orders; otherwise the guard's exception. |
| OrderQueries.SumOrderTotalsHistoricalNativeQuery | training-modules-ch3-performance/src/main/java/io/cockroachdb/training/performance/OrderServiceFacade.java:60-64 | The same sum, with no transaction check. |
| OrderQueries.FindProducts | training-modules-ch1-transactions/src/main/java/io/cockroachdb/training/transactions/OrderServiceFacade.java:65-70 | Outside a transaction, all committed products; otherwise the guard's exception. |
| OrderQueries.FindOrders | training-modules-ch1-transactions/src/main/java/io/cockroachdb/training/transactions/OrderServiceFacade.java:79-84 | Outside a transaction, all committed orders; otherwise the guard's exception. |
| OrderQueries.FindOrderById | training-modules-ch1-transactions/src/main/java/io/cockroachdb/training/transactions/OrderServiceFacade.java:86-91 | In a read-only transaction it returns the order exactly when it exists; otherwise the guard's exception. The contention chapter facade's `findOrderById` (training-modules-ch2-contention/src/main/java/io/cockroachdb/training/contention/OrderServiceFacade.java:50-55) is the same code. |
| OrderValidation.FirstInvalid | training-modules-ch1-transactions/src/main/java/io/cockroachdb/training/transactions/OrderServiceFacade.java:122-128 | No exception exactly when every item passes its check. Otherwise it is the exception of the first item that fails. |
| OrderValidation.ValidateItems | training-modules-ch1-transactions/src/main/java/io/cockroachdb/training/transactions/OrderServiceFacade.java:122-128 | The validation loop, stopping at the first exception, computes exactly that first failure. |
| OrderValidation.FirstInvalidExtends | training-modules-ch1-transactions/src/main/java/io/cockroachdb/training/transactions/OrderServiceFacade.java:122-128 | A failing prefix decides the outcome, whatever follows. |
| OrderValidation.PlaceOrderWithValidation | training-modules-ch1-transactions/src/main/java/io/cockroachdb/training/transactions/OrderServiceFacade.java:117-132 | Refused inside a transaction. A failing item stops everything before any transaction opens. Otherwise the order is placed through the proxy: its effect committed, or nothing. |
| OrderValidation.PlaceableOrderPassesValidation | training-modules-ch1-transactions/src/main/java/io/cockroachdb/training/transactions/RemoteInventoryService.java:16-27 | With the always-accepting remote check, every order that placement accepts passes pre-validation. |
| BatchPlacement.Loaded | training-modules-ch3-performance/src/main/java/io/cockroachdb/training/performance/OrderServiceFacade.java:113-122 | `findAllById` yields exactly the requested ids that exist, with their inventories. |
| BatchPlacement.ItemIdsLoaded | training-modules-ch3-performance/src/main/java/io/cockroachdb/training/performance/OrderServiceFacade.java:113-119 | Every item's product id is among the collected ids. |
| BatchPlacement.LowerChunk | training-modules-ch3-performance/src/main/java/io/cockroachdb/training/performance/OrderServiceFacade.java:125-137 | Lowering a chunk keeps the set of loaded products. |
| BatchPlacement.LowerChunkMeaning | training-modules-ch3-performance/src/main/java/io/cockroachdb/training/performance/OrderServiceFacade.java:125-137 | Lowering a chunk succeeds exactly when every item of every order resolves among the loaded products and every order is priced. Each product then drops by the chunk's total quantity of it. |
| BatchPlacement.LowerChunkFailureExtends | training-modules-ch3-performance/src/main/java/io/cockroachdb/training/performance/OrderServiceFacade.java:125-137 | The first failing order decides the chunk's failure. |
| BatchPlacement.ChunkQuantityOutside | training-modules-ch3-performance/src/main/java/io/cockroachdb/training/performance/OrderServiceFacade.java:113-119 | A product no item names is ordered 0 times by the chunk. |
| BatchPlacement.TotalQuantityOutside | training-modules-ch3-performance/src/main/java/io/cockroachdb/training/performance/OrderServiceFacade.java:125-133 | A product no item of an order names is ordered 0 times by it. |
| BatchPlacement.ChunkEffect | training-modules-ch3-performance/src/main/java/io/cockroachdb/training/performance/OrderServiceFacade.java:107-143 | A successful chunk keeps every inventory non-negative and the set of products unchanged. |
| BatchPlacement.ChunkEffectMeaning | training-modules-ch3-performance/src/main/java/io/cockroachdb/training/performance/OrderServiceFacade.java:107-143 | A chunk succeeds exactly when all its orders resolve, are priced, and stay within stock. Each product then drops by the chunk's quantity of it. Otherwise a resolvable, priced chunk fails with the constraint-violation BusinessException. |
| BatchPlacement.SingleOrderChunkIsPlaceOrder | training-modules-ch3-performance/src/main/java/io/cockroachdb/training/performance/OrderServiceFacade.java:107-143 | For an order whose items all resolve, a one-order chunk has exactly the effect of `placeOrder`. |
| BatchPlacement.LowerOrder | training-modules-ch3-performance/src/main/java/io/cockroachdb/training/performance/OrderServiceFacade.java:126-136 | The per-order step computes the one-order lowering. On success it marks the order placed and priced at its subtotal. |
| BatchPlacement.LowerOrders | training-modules-ch3-performance/src/main/java/io/cockroachdb/training/performance/OrderServiceFacade.java:125-137 | The chunk loop computes exactly the chunk lowering. On success every order is placed and priced at its subtotal. |
| BatchPlacement.PersistAll | training-modules-ch3-performance/src/main/java/io/cockroachdb/training/performance/OrderServiceFacade.java:139 | Every order in the chunk gets an id (an existing one kept) and its dates stamped, status and total unchanged. The ids generated are pairwise distinct and carried by no order row. |
| BatchPlacement.AssignFreshId | training-modules-ch3-performance/src/main/java/io/cockroachdb/training/performance/OrderServiceFacade.java:139 | An order saved without an id gets one that no order row carries and that differs from every id given out before it. The order's dates, status and total are untouched. |
| BatchPlacement.SaveChunk | training-modules-ch3-performance/src/main/java/io/cockroachdb/training/performance/OrderServiceFacade.java:139-142 | Every order of a placed and priced chunk is saved under a distinct new id where it had none. The flush fails with the constraint-violation BusinessException exactly when the lowered inventory goes negative, leaving the pending tables unchanged. Otherwise the pending tables take that inventory and the rows of all the chunk's orders. |
| BatchPlacement.SaveRowsKeys | training-modules-ch3-performance/src/main/java/io/cockroachdb/training/performance/OrderServiceFacade.java:139 | `saveAll` adds exactly the chunk's ids to the order table. |
| BatchPlacement.SaveRowsKeepsOthers | training-modules-ch3-performance/src/main/java/io/cockroachdb/training/performance/OrderServiceFacade.java:139 | Rows of ids outside the chunk are untouched. |
| BatchPlacement.SaveRowsLastWins | training-modules-ch3-performance/src/main/java/io/cockroachdb/training/performance/OrderServiceFacade.java:139 | Each chunk order's row is the last saved under its id. |
| BatchPlacement.PlaceOrderChunk | training-modules-ch3-performance/src/main/java/io/cockroachdb/training/performance/OrderServiceFacade.java:107-143 | Needs a read-write transaction. It fails exactly as the chunk effect says, leaving the pending tables as they were. On success it writes the lowered inventory and saves every order of the chunk, the generated ids being distinct and new to the table. |
| BatchPlacement.PlaceChunkInTransaction | training-modules-ch3-performance/src/main/java/io/cockroachdb/training/performance/OrderServiceFacade.java:93-97 | Each chunk is placed through the proxy in a new read-write transaction. Exactly when the chunk effect succeeds, the committed tables take its inventory and the rows of all the chunk's orders, placed and priced, under distinct new ids where they had none. When it fails nothing is committed. |
| BatchPlacement.Chunks | training-modules-ch3-performance/src/main/java/io/cockroachdb/training/performance/OrderServiceFacade.java:95 | Every chunk is non-empty, no larger than the batch size, and made of the given orders. |
| BatchPlacement.ChunksPartition | training-modules-ch3-performance/src/main/java/io/cockroachdb/training/performance/OrderServiceFacade.java:95-99 | Concatenating the chunks gives back the orders, in order. |
| BatchPlacement.PlaceChunks | training-modules-ch3-performance/src/main/java/io/cockroachdb/training/performance/OrderServiceFacade.java:88-100 | Chunks are placed in order until the first failure. All chunks commit when none fails, and the set of products is kept. |
| BatchPlacement.PlaceChunksStep | training-modules-ch3-performance/src/main/java/io/cockroachdb/training/performance/OrderServiceFacade.java:95-99 | A batch that has not failed so far either commits the next chunk's effect, or ends with that chunk's failure, whatever follows it. |
| BatchPlacement.PlaceChunksInOrder | training-modules-ch3-performance/src/main/java/io/cockroachdb/training/performance/OrderServiceFacade.java:95-99 | The chunk loop ends with the batch outcome's committed inventory and failure. The consumer receives the size of each committed chunk, in order. |
| BatchPlacement.PlaceChunksLowersByTotal | training-modules-ch3-performance/src/main/java/io/cockroachdb/training/performance/OrderServiceFacade.java:88-100 | When no chunk fails, each product drops by the quantity ordered of it across the whole batch. |
| BatchPlacement.ChunkQuantityAppend | training-modules-ch3-performance/src/main/java/io/cockroachdb/training/performance/OrderServiceFacade.java:88-100 | The units of a product ordered by two runs of orders, one after the other, add up. |
| BatchPlacement.BatchQuantityOfConcat | training-modules-ch3-performance/src/main/java/io/cockroachdb/training/performance/OrderServiceFacade.java:88-100 | Summed chunk by chunk, a batch orders of each product what its chunks, put back together, order. |
| BatchPlacement.ChunkingKeepsQuantity | training-modules-ch3-performance/src/main/java/io/cockroachdb/training/performance/OrderServiceFacade.java:88-100 | For any batch size, the chunked batch orders of each product exactly what the orders, taken whole, order. |
| BatchPlacement.PlaceChunksFailureExtends | training-modules-ch3-performance/src/main/java/io/cockroachdb/training/performance/OrderServiceFacade.java:95-99 | After the first failed chunk, later chunks change nothing. |
| BatchPlacement.PlaceOrders | training-modules-ch3-performance/src/main/java/io/cockroachdb/training/performance/OrderServiceFacade.java:88-100 | Refused inside a transaction. Otherwise it commits chunk by chunk, in its own transaction each, until one fails. The committed inventory, the failure and the chunk sizes reported to the consumer are those of the batch outcome. When no chunk fails, each product drops by exactly the quantity all the orders order of it, whatever the batch size. |
| OutboxInbox.SerializationFault | ch4-patterns/src/main/java/io/cockroachdb/training/patterns/outbox/OutboxJdbcRepository.java:51-53 | A JSON failure is rethrown as a RuntimeException caused by it. |
| OutboxInbox.OutboxAdviceInsideTransaction | ch4-patterns/src/main/java/io/cockroachdb/training/patterns/outbox/OutboxAspect.java:15-17 | The outbox aspect has the change-feed precedence, so every other advice, the transaction manager included, encloses it. |
| OutboxInbox.WriteOutboxEvent | ch4-patterns/src/main/java/io/cockroachdb/training/patterns/outbox/OutboxJdbcRepository.java:35-54 | Without a transaction it fails with "Expected existing transaction". A JSON failure becomes the RuntimeException. Otherwise exactly one outbox row (aggregate type, payload) is appended in the open transaction. |
| OutboxInbox.DoAfterOutboxOperation | ch4-patterns/src/main/java/io/cockroachdb/training/patterns/outbox/OutboxAspect.java:32-39 | Checks for a transaction, then writes the returned value as an event of the tag's type. |
| OutboxInbox.PlaceOrderWithOutbox | training-modules-ch4-patterns/src/main/java/io/cockroachdb/training/patterns/outbox/OutboxOrderService.java:28-52 | Placement, then, only on a normal return, the outbox row holding the placed order, in the same transaction. A failed write replaces the result and leaves the placement's inventory and order row pending, with no outbox row, for the transaction's owner to roll back. The patterns chapter facade's `placeOrder` (training-modules-ch4-patterns/src/main/java/io/cockroachdb/training/patterns/OrderServiceFacade.java:27-51) is the same code with the same tag. |
| OutboxInbox.PlaceOrderWithOutboxInTransaction | training-modules-ch4-patterns/src/main/java/io/cockroachdb/training/patterns/outbox/OutboxOrderService.java:28-31 | Through the proxy, exactly when placement and serialisation succeed, the committed tables gain together the lowered inventory, the placed order's row (under a new id when it had none) and exactly one outbox row for the returned order, the inbox unchanged. Otherwise nothing is committed. |
| OutboxInbox.WriteInboxEvent | training-modules-ch4-patterns/src/main/java/io/cockroachdb/training/patterns/inbox/InboxJdbcRepository.java:33-49 | Needs no transaction. It upserts the serialised event under its key and changes nothing else. Outside a transaction the write commits at once; inside one it joins that transaction. |
| OutboxInbox.InboxPlaceOrder | ch4-patterns/src/main/java/io/cockroachdb/training/patterns/inbox/InboxService.java:15-20 | Through its NOT_SUPPORTED proxy: with any caller transaction suspended, the order's "purchase_order" inbox row is committed at once, the caller's pending tables receiving it as well, and the same order is returned. A serialisation failure is returned instead and changes nothing. The second copy of the service (training-modules-ch4-patterns/src/main/java/io/cockroachdb/training/patterns/inbox/InboxService.java:15-20) is the same code. |
| OutboxInbox.InboxRowOutlivesCallerRollback | common/src/main/java/io/cockroachdb/training/common/annotation/TransactionImplicit.java:14-23 | A caller that opens a transaction, calls the inbox service and rolls back still leaves the order's inbox row committed, and nothing else. |
| RetryTemplate.AttemptResult | training-modules-ch1-transactions/src/main/java/io/cockroachdb/training/transactions/OrderServiceFacade.java:134-179 | An attempt fails exactly when the update fails by itself or loses its race. Otherwise it has the update's effect. |
| RetryTemplate.RetryFrom | training-modules-ch1-transactions/src/main/java/io/cockroachdb/training/transactions/OrderServiceFacade.java:136-137 | Between 1 and 5 attempts. The committed orders are those of the last attempt when it succeeded, and unchanged otherwise. It gives up only after the fifth attempt or on a failure the classifier declines. |
| RetryTemplate.StepOutcome | training-modules-ch1-transactions/src/main/java/io/cockroachdb/training/transactions/OrderServiceFacade.java:136-137 | An attempt ends the retried update, with its own orders on success or the old ones on failure, unless the template goes on. In that case the outcome is the one from the next attempt. |
| RetryTemplate.ConflictIsRetried | training-modules-common/src/main/java/io/cockroachdb/training/common/retry/TransientExceptionClassifier.java:24-34 | A lost write race, surfacing as a Spring exception around a 40001 SQLException, is retried by an enabled classifier. |
| RetryTemplate.MissingOrderNotRetried | training-modules-common/src/main/java/io/cockroachdb/training/common/retry/TransientExceptionClassifier.java:24-34 | A missing order's NoResultException is never retried. |
| RetryTemplate.ConflictsThenSuccess | training-modules-ch1-transactions/src/main/java/io/cockroachdb/training/transactions/OrderServiceFacade.java:136-137 | With the classifier enabled, fewer than five lost races followed by a clean attempt take exactly one attempt more than the losses, and commit the update. |
| RetryTemplate.DisabledMeansOneAttempt | training-modules-ch1-transactions/src/main/java/io/cockroachdb/training/transactions/OrderServiceFacade.java:136 | A disabled classifier makes every update a single attempt. |
| RetryTemplate.RetryAdviceOutsideTransaction | domain/src/main/java/io/cockroachdb/training/domain/config/SpringRetryConfig.java:15 | Retry advice has the retry precedence and the transaction manager the manager precedence (domain/src/main/java/io/cockroachdb/training/config/TransactionConfig.java:13). Retry therefore encloses the transaction manager, and each attempt gets a transaction of its own. |
| RetryTemplate.Attempt | training-modules-ch1-transactions/src/main/java/io/cockroachdb/training/transactions/OrderServiceFacade.java:134-179 | One transaction around `updateOrder`: it commits the attempt's effect, or rolls back and reports its exception. |
| RetryTemplate.AttemptAndReport | training-modules-common/src/main/java/io/cockroachdb/training/common/retry/TransientExceptionRetryListener.java:27-36 | An attempt followed by exactly one listener callback: a success for a normal return, an error otherwise. It goes on to another attempt exactly when the attempt failed, fewer than five were made and the classifier calls the failure transient. |
| RetryTemplate.UpdateOrderWithRetry | training-modules-ch1-transactions/src/main/java/io/cockroachdb/training/transactions/OrderServiceFacade.java:134-179 | The retry loop ends as the retry outcome function says: attempts, failure and committed orders. The listener gains one success on success and one error per failed attempt. |
| RetryTemplate.ReadWriteConflictScenario | training-modules-ch1-transactions/src/test/java/io/cockroachdb/training/transactions/TransactionRetryTest.java:107-136 | T2 cancels, T1 loses one race and its retry is a no-op, so the order ends cancelled with 2 successes and 1 error counted. |

## Left out

- Concurrency itself is not modelled.
  - The database's serializable isolation, locks and lock modes are left out. `setLockMode` is recorded as the mode in force, not enforced.
  - A JPA provider may refuse a lock mode on an UPDATE query; the model does not capture that.
  - Which attempts lose a race is an input of `RetryTemplate.UpdateOrderWithRetry` (`conflicts`). In `ReadWriteConflictScenario`, T2 is run to completion before T1, so T1's first attempt reads `cancelled` rather than `placed`. Its outcome, a lost race, is the same as in the interleaving.
- Spring Retry's backoff and delays, `ThinkTime`'s actual sleep, and the JSON writer's output format (Jackson) are left out. The JSON writer is a function parameter.
- The `@Retryable` on the patterns chapter's `placeOrder` methods and on `InboxService.placeOrder` is not modelled. They carry no classifier expression, and each call is modelled as a single attempt. Only `updateOrder`'s retry is modelled, in `RetryTemplate`.
- `findCustomers` is left out: the model has no customer table.
- Pagination (`Pageable`, `Page`) is left out. The finders return whole tables.
- Follower-read and historical staleness are left out. A time-travel query reads the current data.
- `BatchPlacement.Loaded`: `findAllById` with a null id among the collected ids is not modelled. The set holds only the ids items actually name, and an item without an id fails at lookup with NoSuchElementException.
- `BatchPlacement.Chunks`: `StreamUtils.chunkedStream` is not part of this model. It is assumed to cut the stream, in order, into chunks of `batchSize` with a shorter last chunk. `PlaceOrders` requires `batchSize > 0`, which the source leaves to that utility.
- `OrderQueries.SumOrderTotals`, `OrderQueries.SumOrderTotalsHistoricalNativeQuery`, `OrderQueries.FindProducts`, `OrderQueries.FindOrders`, `OrderValidation.PlaceOrderWithValidation` and `BatchPlacement.PlaceOrders` are modelled as the bodies of these `@TransactionImplicit` (propagation NOT_SUPPORTED) methods, without the proxy's suspension of a caller's transaction. Called with a transaction open, the model's body sees that transaction, and its `assertNoTransaction` guard fails. Through the proxy, the body would run with the caller's transaction suspended. Only `OutboxInbox.InboxPlaceOrder` models the suspension.
- `Storage.Store.UpsertInboxSuspended` puts the suspended write into the caller's pending tables as well as committing it, because the model's transactions publish whole tables. A caller's own later read of the inbox therefore sees the row, which a database transaction would not necessarily see.
- `Products.Product.AddPrice` takes a `real`, which cannot be null, so the NullPointerException that `price.add(null)` throws is not modelled.
- `Orders.PurchaseOrder.PreCreate` stamps both missing dates with one `now`, where the source reads the clock once for each date; the two readings may differ.
- `OrderPlacement.ReferenceFaults` and `OrderUpdate.NoResultFault` give EntityNotFoundException and NoResultException messages that approximate the persistence provider's wording, which is not part of this model.
- `BatchPlacement.PlaceOrders` states the committed inventory, the failure and the consumed chunk sizes. It does not state the committed order rows, which `PlaceChunkInTransaction` states for each chunk, because an order object may occur in more than one chunk and be changed again by a later one.
- Java `int` overflow of inventories, quantities and the listener's counters is not modelled. Integers are unbounded, since the training data stays far below 2^31.
- The inbox table's key is a function parameter (`InboxKey`): the inbox DDL is not part of this model.
- `ShipmentStatus.java` is not part of this model. Its values are taken as `placed`, `confirmed`, `cancelled` and `delivered`, the four the sources use.
- The non-negative-inventory check constraint is taken from `FunctionalTest.java:98-123`, which expects a DataIntegrityViolationException when inventory would go below 0. Its SQL state is modelled as CockroachDB's `23514` (check_violation).
- The entity `@Version` column, optimistic locking, and JPA's merge-versus-persist choice in `save` are left out. A save is an insert-or-replace by id.
- The `TransactionExplicit` annotation's default attribute values are not part of this model, so a profile is passed in whole.
- The decorator's "no active transaction" message omits the method signature the source appends.
- `TransactionDecoratorAspect.DoInTransaction`: the retry call count is an input, since it comes from a retry aspect that is not part of this model.
- `Retry.TransientExceptionRetryListener.OnError`: the source's counters are `AtomicInteger`s safe under concurrent callbacks. The model's callbacks are sequential.
- `OrderUpdate.UpdateOrderEffect`: the read-modify-write null check after `getSingleResult` is dead code, because JPA throws NoResultException for a missing row. The model raises NoResultException and has no separate null branch.

## Findings

| source | as written | input that shows it | evidently intended | confidence | as-written member | corrected member |
|---|---|---|---|---|---|---|
| domain/src/main/java/io/cockroachdb/training/domain/Product.java:117-120 | `addPrice(price)` sets the price to `price + price`, discarding the current price | a product priced 10, `addPrice(1)`: the price becomes 2 | add the argument to the current price, giving 11, as `addInventoryQuantity` does for inventory | medium, not executed | Products.Product.AddPrice, Products.AddPriceDiscrepancy | Products.Product.AddToPrice |

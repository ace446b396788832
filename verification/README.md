# NexusPay: a verified model

NexusPay takes an order through a saga over three services: the order service creates it, the
inventory service reserves its stock, the payment service charges it, and each tells the next
through messages that may arrive late, twice or out of order. This project models that saga and the
machinery under it in Dafny and proves what they guarantee.

`dafny verify dfyconfig.toml` checks everything.

## How it is laid out

| file | what it holds |
|---|---|
| `InventoryTables`, `InventoryRepository` | stock and reservations; the `Inventory` entity and the loops of reserve, release and sweep |
| `StockLedger` | when a reserve succeeds; no unit is created or lost |
| `InventoryTransactions`, `ReserveDeadlock`, `ReleaseDeadlock` | row-locking transactions interleaved: serial equivalence, and exactly when they deadlock |
| `OrderTables`, `OrderService`, `OrderSystem` | the order aggregate, repository and handlers; handlers interleaved between load and write |
| `PaymentTables`, `PaymentService`, `PaymentSystem`, `PaymentExecutions`, `PaymentTheorems`, `RefundConfirmations` | the payment aggregate, repositories and handlers; executions, webhooks and refunds interleaved, and how the handlers refine them |
| `Retry`, `CircuitBreaker` | the retry loop, the breaker, and the two composed |
| `Outbox` | the outbox query, the poller, and any number of pollers |
| `SagaMessages`, `SagaHandlers` | messages, queue bindings, and the handlers that publish |
| `SagaSafety` | the three services together with messages that never go away |
| `SagaRefinement` | the handlers as steps of the saga |
| `SagaQuiescence`, `SagaExceptions` | the three services with messages handled once: how every order ends, and when not as promised |
| `RateLimiter`, `Paging`, `Totals` | the sliding window, keyset paging, order totals |

Each class keeps the source's fields and is proved against a function on values (`UpdateOrder`,
`Transact`, `AfterHit`, ...); the theorems are about those functions. An interleaved system is a
total function `Step` on its state, where an action that is not possible changes nothing, and `Run`
of a sequence of actions; a theorem about `Run` is about every run. Handlers that read and write in
separate statements are separate steps there, and a crash may drop any of them.

## What the database and broker are trusted to do

- Rows are never deleted, so a row's position serves as its id.
- A transaction commits or leaves nothing; a locked read sees the latest committed row.
- A release's `SELECT ... FOR UPDATE` takes all its reservation rows in one step, so two releases or sweeps that each hold some of these rows and wait for others of them are not a state of the model.
- The unique constraints on (order, SKU) of a reservation, on a payment's order and key, and on an order's key hold.
- A publish is confirmed, stored without a confirm reaching the publisher, or not stored.
- UUIDs, clocks, random draws, the gateway's answers and the broker's answers are inputs, chosen freely.
- The gateway's answer is taken as the outcome: a charge that was performed but whose answer timed out counts as a failed one.

## Where the code does less than its documentation says

Each comes with an input that shows it and the condition under which it does not happen.

- Paging: the cursor keeps milliseconds of a microsecond column, so orders of one millisecond can be skipped (`Paging.PagingIsExact`, `Paging.SameMillisecondIsSkipped`).
- The breaker lets every call pass once it is HALF_OPEN, not a single probe (`BreakerRuns.SingleProbeExactly`, `BreakerRuns.TwoProbesInFlight`).
- A release does not lock its rows in SKU order and can deadlock with a reserve (`ReserveDeadlock.DeadlocksExactly`, `ReserveDeadlock.CrossingReleaseDeadlocks`) or, whatever is in stock, with another release (`ReleaseDeadlock.ReleasesDeadlockExactly`, `ReleaseDeadlock.SoldOutReleasesDeadlock`).
- The payment service answers from whatever payment holds the order's saga key, and a client may choose that key (`UnpaidConfirmation.PaidAsOrderedExactly`): an order may be confirmed on a payment for another order (`UnpaidConfirmation.UnpaidRun`) or of another amount (`UnpaidConfirmation.UnderpaidRun`).
- A `payment.completed` handled before its order's inventory.reserved is dropped, and the charged order stays in PAYMENT_PENDING (`SagaQuiescence.Quiescence`, `SagaExceptions.StuckRun`).
- A cancelled order may be charged (`SagaExceptions.ChargedAndCancelled`, `SagaExceptions.WastedRun`).
- Full jitter draws a delay below the cap, never the cap itself, although its comment says up to it; only a cap of zero is reached (`Retry.JitterIsUniform`).
- The gateway may confirm a payment's refund more than once, of which one is recorded (`RefundConfirmations.CarefulExactly`, `PaymentTheorems.GatewayMayConfirmTwice`).
- An order's total is recomputed from rounded prices on every load and rewritten by every update, so the stored and shown total may differ from the amount charged (`Totals.AgreesExactlyForWholeCents`, `Totals.BoundIsAttained`).

## Model

| member | source | states |
|---|---|---|
| `SagaSafety.ConfirmedMeansReservedAndPaid` | services/order-service/src/interfaces/messaging/eventHandlers.ts:61-80 | In every run with duplicated, delayed and reordered messages, crashes and HTTP requests, a CONFIRMED order has one committed transaction whose rows are exactly one per ordered line, and a payment under its saga key that reached COMPLETED (now COMPLETED or REFUNDED), for this order and the total of the prices as ordered unless a client sent the saga key in a payment request of its own; the stored total, rewritten by then, is at most half a cent per unit away from that amount and equal to it for whole-cent prices |
| `SagaSafety.PaidMessageIsPaid` | services/payment-service/src/interfaces/messaging/eventHandlers.ts:46-66 | `payment.completed` is sent only for a payment that is completed under the order's saga key; whose payment it is follows from where its insert came from |
| `UnpaidConfirmation.PaidAsOrderedExactly` | services/payment-service/src/interfaces/http/controllers/PaymentController.ts:47-59 | With at least one charge attempt allowed, for any order and any set of payment requests: every run whose clients send no other requests gives the CONFIRMED order a completed payment for itself and of the amount charged for what was ordered, if and only if no request of a positive amount in the set carries the order's saga key, for whatever order |
| `UnpaidConfirmation.PrepaidRun` | services/payment-service/src/application/handlers/ProcessPaymentHandler.ts:48-56 | For every accepted request under an order's saga key, for this or any other order and of any amount, and every price that rounds to at least a cent: a run from the start ends with the order CONFIRMED, that one payment and that one charge |
| `UnpaidConfirmation.UnpaidRun` | services/payment-service/src/interfaces/http/controllers/PaymentController.ts:47-59 | A run from the start ends with order 1 CONFIRMED, one payment, for order 2, and no charge for order 1 |
| `UnpaidConfirmation.UnderpaidRun` | services/payment-service/src/interfaces/http/controllers/PaymentController.ts:47-59 | A run from the start ends with order 1, of 10.00, CONFIRMED and one charge, of a cent, made for that order under its saga key |
| `UnpaidConfirmation.KeyReuseConfirms` | services/order-service/src/interfaces/messaging/eventHandlers.ts:44-80 | From any state in which a completed payment, for whatever order and amount, holds the order's saga key, the saga confirms the order without a charge |
| `SagaSafety.KeyReuseConfirmsUnpaid` | services/payment-service/src/application/handlers/ProcessPaymentHandler.ts:48-56 | When a completed payment, for whatever order and amount, holds the saga key, `inventory.reserved` is answered with `payment.completed` and nothing is charged |
| `SagaSafety.ConfirmedPaidSeparately` | services/payment-service/src/interfaces/messaging/eventHandlers.ts:46-55 | In every run two CONFIRMED orders have two payments, whatever keys clients use |
| `SagaSafety.ConfirmedIsNeverCompensated` | services/order-service/src/interfaces/messaging/eventHandlers.ts:82-107 | `order.cancelled` reaches the broker only for CANCELLED orders, so compensation never releases a CONFIRMED order's stock |
| `SagaSafety.RunKeepsInv` | services/order-service/src/interfaces/messaging/eventHandlers.ts:25-42 | The invariant behind both: payloads agree with the order, handlers run only on messages that were published, each reserved order is covered by one transaction's rows |
| `SagaSafety.ReserveCovers` | services/inventory-service/src/interfaces/messaging/eventHandlers.ts:59-68 | After a successful reserve the rows of that one transaction are exactly the ordered lines |
| `SagaSafety.PaymentStepOk` | services/payment-service/src/application/handlers/ProcessPaymentHandler.ts:48-96 | No step of any payment execution, webhook or refund changes a payment's order, key or amount, or takes back a completion; a new row comes from an execution that was asked for it |
| `SagaSafety.OutboxedCancellation` | services/order-service/src/interfaces/messaging/eventHandlers.ts:102-104 | An `order.cancelled` outbox row belongs to a CANCELLED order |
| `SagaHandlers.InventoryEventHandlers.OnOrderCreated` | services/inventory-service/src/interfaces/messaging/eventHandlers.ts:49-78 | Stock is reserved whole or not at all, and exactly these messages are left at the broker, a failed publish of inventory.reserved falling into the same catch block |
| `SagaHandlers.InventoryEventHandlers.Announce` | services/inventory-service/src/interfaces/messaging/eventHandlers.ts:59-77 | Which messages are stored for every answer of the broker to the two publishes, and when the handler throws |
| `SagaHandlers.InventoryEventHandlers.OnOrderCancelled` | services/inventory-service/src/interfaces/messaging/eventHandlers.ts:80-93 | Gives back every ACTIVE reservation of the order, publishes inventory.released if there was one, and throws exactly when the release or that publish does |
| `SagaHandlers.OrderCreatedIsStep` | services/inventory-service/src/interfaces/messaging/eventHandlers.ts:59-77 | The handler refines the saga's step: the same tables and the same deliverable messages |
| `SagaHandlers.OnInventoryReserved` | services/payment-service/src/interfaces/messaging/eventHandlers.ts:46-75 | A payment that has the saga key is answered for: `payment.completed` exactly if it is COMPLETED; otherwise one execution leaves its payment, and `payment.completed` exactly if the last answer of the gateway is a success, `payment.failed` if not; an execution that throws, which is characterised, stores and publishes nothing |
| `SagaRefinement.InventoryReservedIsSteps` | services/payment-service/src/interfaces/messaging/eventHandlers.ts:46-75 | The handler is a run of the saga: the tables it leaves and the message it stores are those of an uninterrupted execution and its reply, whatever the gateway, the breaker and the broker answer |
| `SagaRefinement.StockHandlersAreSteps` | services/inventory-service/src/interfaces/messaging/eventHandlers.ts:49-93 | With confirmed publishes, the two inventory handlers do exactly what the steps do that handle each message once |
| `SagaRefinement.PaymentHandlerIsStep` | services/payment-service/src/interfaces/messaging/eventHandlers.ts:57-74 | The payment step that handles each message once publishes what the handler does: `payment.completed` exactly for a payment that succeeded |
| `SagaHandlers.OrderCancelledIsStep` | services/inventory-service/src/interfaces/messaging/eventHandlers.ts:80-93 | `onOrderCancelled` is a step of the saga: the same tables, and nothing in the saga reacts to what it publishes |
| `SagaQuiescence.Quiescence` | services/order-service/src/interfaces/messaging/eventHandlers.ts:44-134 | When nothing is left to publish or handle, every order is CONFIRMED or CANCELLED unless its `payment.completed` was handled while it was CREATED (then charged and stuck in PAYMENT_PENDING, or cancelled); CANCELLED orders hold no ACTIVE reservation; each SKU's reserved and available units are accounted for by the orders not cancelled |
| `SagaQuiescence.ReplyFirstConfirms` | services/order-service/src/interfaces/messaging/eventHandlers.ts:61-80 | With both messages waiting, handling inventory.reserved first confirms the order |
| `SagaQuiescence.PaymentFirstStrands` | services/order-service/src/interfaces/messaging/eventHandlers.ts:70-73 | Handling `payment.completed` first leaves the order in PAYMENT_PENDING with nothing left to handle |
| `SagaExceptions.StuckRun` | services/order-service/src/interfaces/messaging/eventHandlers.ts:70-73 | A run from the start that ends with nothing left to handle and a charged order stuck in PAYMENT_PENDING |
| `SagaExceptions.ChargedAndCancelled` | services/payment-service/src/interfaces/messaging/eventHandlers.ts:46-55 | An order is CANCELLED and charged if and only if some step accepted the customer's cancellation after the charge, or let the charge succeed after the order was cancelled |
| `SagaExceptions.WastedRun` | services/payment-service/src/interfaces/messaging/eventHandlers.ts:46-55 | A run from the start that ends with nothing left to handle and an order that is CANCELLED and charged |
| `SagaQuiescence.ReachesQuiet` | services/inventory-service/src/interfaces/messaging/eventHandlers.ts:49-93 | From any state, deliveries alone reach a state with nothing left to publish or handle |
| `SagaQuiescence.DeliveriesAreBounded` | packages/shared/src/messaging/topology.ts:43-102 | No series of deliveries is longer than a number computed from what is waiting |
| `SagaQuiescence.DeliveryShrinks` | packages/shared/src/messaging/topology.ts:57-89 | Every delivery, with all it publishes through the bindings, strictly shrinks that number |
| `SagaPhases.RunKeepsInv` | services/order-service/src/interfaces/messaging/eventHandlers.ts:44-134 | Every step of every run keeps each order in a consistent phase of the saga: status, its messages in four queues and the outbox, and its reservations |
| `SagaPhases.CancelKeepsInv` | services/order-service/src/application/handlers/CancelOrderHandler.ts:21-57 | A customer's cancellation at any moment keeps every order's phase |
| `SagaPhases.OutcomePhase` | services/order-service/src/interfaces/messaging/eventHandlers.ts:61-107 | What a payment outcome does to an order in each phase, the early one included |
| `SagaPhases.ReleaseFrees` | services/inventory-service/src/infrastructure/repositories/KnexInventoryRepository.ts:118-130 | Releasing an order frees all its ACTIVE reservations, keeps the ledger, and leaves every other order's reservations as they were |
| `PerOrder.ActiveQtyIsSum` | services/inventory-service/src/infrastructure/repositories/KnexInventoryRepository.ts:58-116 | A SKU's ACTIVE units are the sum over the orders of theirs |
| `PerOrder.ForWithout` | packages/shared/src/messaging/topology.ts:61-89 | Taking a ready message takes the first of its order and disturbs no other order's sequence |
| `InventoryEntity.Inventory.Reserve` | services/inventory-service/src/domain/entities/Inventory.ts:75-90 | Moves units from available to reserved exactly when the quantity is positive and in stock, and counts the version; the sum is kept; otherwise the error says which, and nothing changes |
| `InventoryEntity.Inventory.Release` | services/inventory-service/src/domain/entities/Inventory.ts:97-109 | Moves units back exactly when the quantity is positive and reserved, and counts the version; the sum is kept; otherwise the error says which, and nothing changes |
| `InventoryRepositories.InventoryRepository.ReserveOrdered` | services/inventory-service/src/infrastructure/repositories/KnexInventoryRepository.ts:65-115 | The loop commits what its takes do in order, or rolls everything back with the first error |
| `InventoryRepositories.InventoryRepository.Reserve` | services/inventory-service/src/infrastructure/repositories/KnexInventoryRepository.ts:58-116 | The same for the lines sorted by SKU: one new ACTIVE row per line with its SKU, quantity and expiry, and one result naming it |
| `InventoryRepositories.InventoryRepository.GiveBackSelected` | services/inventory-service/src/infrastructure/repositories/KnexInventoryRepository.ts:124-127 | The loop gives back every selected row or, on a throw, none |
| `InventoryRepositories.InventoryRepository.Release` | services/inventory-service/src/infrastructure/repositories/KnexInventoryRepository.ts:118-130 | Gives back the order's ACTIVE rows and returns how many there were |
| `InventoryRepositories.InventoryRepository.ReleaseExpired` | services/inventory-service/src/infrastructure/repositories/KnexInventoryRepository.ts:132-153 | Gives back the rows it selects and returns exactly the ACTIVE ones whose time is before now, in table order |
| `InventoryRepositories.InventoryRepository.GiveBack` | services/inventory-service/src/infrastructure/repositories/KnexInventoryRepository.ts:159-185 | Returns one reservation's units and marks its row; an unknown SKU only marks it |
| `InventoryTables.SortLines` | services/inventory-service/src/infrastructure/repositories/KnexInventoryRepository.ts:63 | Sorted by SKU, and a permutation of the items |
| `StockLedger.ReserveAllOrNothing` | services/inventory-service/src/infrastructure/repositories/KnexInventoryRepository.ts:58-116 | `reserve` succeeds if and only if every line names a known SKU once, is in stock and not yet reserved by the order; then all rows and counters move, otherwise nothing does |
| `StockLedger.ReserveThrows` | services/inventory-service/src/infrastructure/repositories/KnexInventoryRepository.ts:68-103 | What a failed `reserve` throws: the error of the first obstructed line in SKU order, by its SKU, its quantity, the stock the lines before it leave, and the unique constraint |
| `StockLedger.SweepExactly` | services/inventory-service/src/infrastructure/repositories/KnexInventoryRepository.ts:132-153 | With the ledger, a sweep turns exactly the ACTIVE rows whose time is before now EXPIRED, and each SKU's available units grow by exactly the quantities of those rows |
| `StockLedger.ReleaseExactly` | services/inventory-service/src/infrastructure/repositories/KnexInventoryRepository.ts:118-130 | With the ledger, a release turns exactly the order's ACTIVE rows RELEASED, and each SKU's available units grow by exactly the quantities of those rows |
| `StockLedger.EveryRunKeepsLedger` | services/inventory-service/src/infrastructure/repositories/KnexInventoryRepository.ts:58-185 | In every run of reserve, release and sweep, reserved equals the sum of ACTIVE reservations and available plus reserved equals the initial stock |
| `StockLedger.GivingBackNeverThrows` | services/inventory-service/src/domain/entities/Inventory.ts:97-109 | With the ledger, release and sweep never throw, and mark exactly the rows they selected |
| `StockLedger.ReturnedOnce` | services/inventory-service/src/infrastructure/repositories/KnexInventoryRepository.ts:118-153 | No reservation is returned twice in any run, and what was returned stays returned |
| `StockLedger.SweepRestoresAllStock` | services/inventory-service/src/infrastructure/repositories/KnexInventoryRepository.ts:132-153 | A sweep after the last expiry makes all stock available again |
| `InventoryTransactions.SerialEquivalence` | services/inventory-service/src/infrastructure/repositories/KnexInventoryRepository.ts:65-115 | For any number of interleaved transactions that lock rows before reading and hold locks to the end, the committed tables are those of the committed ones run one at a time in commit order, a release giving back the rows its SELECT returned; rolled-back ones leave no trace |
| `InventoryTransactions.ReservesAreSerializable` | services/inventory-service/src/infrastructure/repositories/KnexInventoryRepository.ts:58-116 | When only reserves run, that serial order is a run of the repository's `reserve` |
| `InventoryTransactions.FailureIsSerial` | services/inventory-service/src/infrastructure/repositories/KnexInventoryRepository.ts:74-82 | A transaction that fails under interleaving would fail with the same error run alone at that point |
| `InventoryTransactions.LedgerUnderInterleaving` | services/inventory-service/src/infrastructure/repositories/KnexInventoryRepository.ts:58-185 | The stock ledger holds in every state of every interleaving |
| `InventoryTransactions.ReleaseNeverThrows` | services/inventory-service/src/infrastructure/repositories/KnexInventoryRepository.ts:159-185 | Under interleaving too, no give-back step of a release or sweep fails |
| `ReserveDeadlock.NoDeadlock` | services/inventory-service/src/infrastructure/repositories/KnexInventoryRepository.ts:63-72 | In every reachable state whose open transactions, releases and sweeps included, lock rows in SKU order, some unfinished one can move |
| `ReserveDeadlock.ReservesNeverDeadlock` | services/inventory-service/src/infrastructure/repositories/KnexInventoryRepository.ts:63-72 | Reserves alone, repeated SKUs included, never all wait |
| `ReserveDeadlock.MoveLeavesLess` | services/inventory-service/src/infrastructure/repositories/KnexInventoryRepository.ts:68-72 | Every move strictly lowers the work left |
| `ReserveDeadlock.AllFinish` | services/inventory-service/src/infrastructure/repositories/KnexInventoryRepository.ts:63-115 | Any schedule of transactions that lock in SKU order extends to one in which all have finished, within the initial work |
| `ReserveDeadlock.ReleaseCanDeadlock` | services/inventory-service/src/infrastructure/repositories/KnexInventoryRepository.ts:118-126 | For every release that locks a larger SKU before a smaller one that is in stock, a schedule leaves it and a reserve waiting for each other |
| `ReserveDeadlock.DeadlocksExactly` | services/inventory-service/src/infrastructure/repositories/KnexInventoryRepository.ts:118-126 | With every SKU in stock, a release can deadlock with a reserve if and only if the rows it selected make it lock some larger SKU before a smaller one |
| `ReserveDeadlock.CrossingReleaseDeadlocks` | services/inventory-service/src/infrastructure/repositories/KnexInventoryRepository.ts:118-126 | It happens for an order of two SKUs whose rows come in descending order |
| `ReleaseDeadlock.ReleasesDeadlockExactly` | services/inventory-service/src/infrastructure/repositories/KnexInventoryRepository.ts:118-126 | Two releases or sweeps of different rows can deadlock, whatever is in stock, if and only if each can get through some first rows without the other and then needs the lock on an SKU the other has passed |
| `ReleaseDeadlock.SoldOutReleasesDeadlock` | services/inventory-service/src/infrastructure/repositories/KnexInventoryRepository.ts:118-126 | It happens with both SKUs sold out, to two orders whose rows come in opposite SKU orders |
| `OrderTables.WalksAreLives` | services/order-service/src/domain/value-objects/OrderStatus.ts:25-49 | The graph allows exactly six lives of an order, each broken off anywhere: CONFIRMED only after reserved stock and a pending payment, no status twice, no way on from CONFIRMED, CANCELLED and EXPIRED |
| `OrderTables.PlansAreLegal` | services/order-service/src/domain/value-objects/OrderStatus.ts:25-57 | Whatever a handler writes at once walks the transition graph step by step |
| `OrderAggregate.Order.TransitionTo` | services/order-service/src/domain/entities/Order.ts:118-136 | Moves exactly along the transition graph and counts versions; the loaded version is untouched |
| `OrderAggregate.Order.Cancel` | services/order-service/src/domain/entities/Order.ts:141-152 | Succeeds exactly for a cancellable status |
| `OrderRepositories.OrderRepository.Save` | services/order-service/src/infrastructure/repositories/KnexOrderRepository.ts:48-84 | Inserts order and events together, unless the id or the idempotency key is taken |
| `OrderRepositories.OrderRepository.Update` | services/order-service/src/infrastructure/repositories/KnexOrderRepository.ts:141-169 | Writes status, version, recomputed total and events together if and only if the row has the version that was loaded |
| `OrderRepositories.OrderRepository.WriteOutbox` | services/order-service/src/infrastructure/repositories/KnexOrderRepository.ts:102-116 | Appends the events in order |
| `OrderHandlers.OrderEventHandlers.OnReserved` | services/order-service/src/interfaces/messaging/eventHandlers.ts:44-59 | Moves a CREATED order to PAYMENT_PENDING with both transitions in one write, rewrites its total, and leaves every other order alone; ignores any other status |
| `OrderHandlers.OrderEventHandlers.OnCompleted` | services/order-service/src/interfaces/messaging/eventHandlers.ts:61-80 | Confirms a PAYMENT_PENDING order, with order.confirmed in the outbox; ignores any other status |
| `OrderHandlers.OrderEventHandlers.OnPaymentFailure` | services/order-service/src/interfaces/messaging/eventHandlers.ts:82-107 | Cancels an order in any status but CONFIRMED, CANCELLED and EXPIRED, with order.cancelled in the outbox |
| `OrderHandlers.OrderEventHandlers.OnReservationFailure` | services/order-service/src/interfaces/messaging/eventHandlers.ts:109-134 | Cancels an order whose status the graph lets be cancelled, a CREATED one through INVENTORY_FAILED, without an event |
| `OrderHandlers.CancelOrder` | services/order-service/src/application/handlers/CancelOrderHandler.ts:21-57 | Fails for an unknown id or another customer's order, then for a status that cannot be cancelled, and leaves both tables alone; otherwise cancels in one write with order.cancelled in the outbox |
| `OrderHandlers.CreateOrder` | services/order-service/src/application/handlers/CreateOrderHandler.ts:27-70 | An existing key returns its order and changes nothing; otherwise it succeeds exactly for a new id and a list of items, not empty, of positive quantities and prices of at least a cent, and then saves the order in full with its exact rounded total, and its event |
| `OrderSystem.NoLostUpdate` | services/order-service/src/infrastructure/repositories/KnexOrderRepository.ts:146-167 | Under any interleaving each order's history is a path in the graph to its stored status, version is one plus its length, two handlers that loaded one version never both write, and only four statuses are ever stored |
| `OrderSystem.UninterruptedHandler` | services/order-service/src/infrastructure/repositories/KnexOrderRepository.ts:141-169 | A handler whose load and write nothing interrupts leaves in the interleaved system what the handler does alone |
| `OrderSystem.UninterruptedCreation` | services/order-service/src/application/handlers/CreateOrderHandler.ts:27-70 | So does a creation |
| `OrderSystem.OneOutcome` | services/order-service/src/interfaces/messaging/eventHandlers.ts:61-134 | A key names at most one order; its outbox has one order.created, one order.confirmed exactly when CONFIRMED, an order.cancelled only when CANCELLED, and never both outcomes |
| `OrderSystem.OutcomeIsFinal` | services/order-service/src/domain/value-objects/OrderStatus.ts:25-52 | CONFIRMED and CANCELLED rows never change again |
| `OrderSystem.StoredTotal` | services/order-service/src/infrastructure/repositories/KnexOrderRepository.ts:150-158 | In every run an order's stored total is the amount charged while it is CREATED and the total of the stored prices afterwards, off by at most half the units in cents and not at all for whole-cent prices |
| `OrderSystem.GuardedWrite` | services/order-service/src/infrastructure/repositories/KnexOrderRepository.ts:141-169 | A write that passes the version guard was planned on the very row it overwrites |
| `PaymentTables.WalksAreLives` | services/payment-service/src/domain/value-objects/PaymentStatus.ts:22-29 | The lives of a payment: PENDING, PROCESSING, COMPLETED, then refund requests that fall back to COMPLETED; only the last status may be FAILED, first or second after PENDING, or REFUNDED after a refund request |
| `PaymentAggregate.Payment.Transition` | services/payment-service/src/domain/entities/Payment.ts:134-157 | Moves exactly along the payment graph, recording the event and counting the version |
| `PaymentAggregate.Payment.Complete` | services/payment-service/src/domain/entities/Payment.ts:98-101 | Sets the transaction id before the transition is checked |
| `PaymentRepositories.PaymentRepository.Save` | services/payment-service/src/infrastructure/repositories/KnexPaymentRepository.ts:51-76 | Inserts unless the order or the key already has a payment |
| `PaymentRepositories.PaymentRepository.Update` | services/payment-service/src/infrastructure/repositories/KnexPaymentRepository.ts:78-104 | Writes row and events together if and only if the stored version is the aggregate's less its pending events; either way the events are drained |
| `PaymentHandlers.ChargeThroughBreaker` | services/payment-service/src/application/handlers/ProcessPaymentHandler.ts:69-90 | A refused call makes no charge and leaves the breaker; an admitted one runs the retry loop and reports its last answer to the breaker |
| `PaymentHandlers.ProcessPayment` | services/payment-service/src/application/handlers/ProcessPaymentHandler.ts:48-112 | A known key answers from its payment and charges nothing; otherwise one payment row with its two events, COMPLETED exactly when the last charge of the retry loop succeeded, and the breaker told of it; errors leave tables and breaker alone |
| `PaymentExecutions.ExecutionSettles` | services/payment-service/src/application/handlers/ProcessPaymentHandler.ts:58-111 | An execution of the interleaved system that inserts its payment and that nothing interrupts leaves what `ProcessPayment` leaves: one payment with the command's order, key and amount, two events, the charges of the retry loop, settled by its last answer |
| `PaymentExecutions.ExecutionFinds` | services/payment-service/src/application/handlers/ProcessPaymentHandler.ts:48-64 | One that finds a payment under its key answers from it; one that has nothing to pay or meets a unique constraint is gone; neither touches the tables or the gateway |
| `PaymentExecutions.WebhookIsRun` | services/payment-service/src/application/handlers/ProcessWebhookHandler.ts:34-66 | A webhook that nothing interrupts leaves what `ProcessWebhook` leaves |
| `PaymentExecutions.RefundIsRun` | services/payment-service/src/application/handlers/RefundHandler.ts:48-119 | A refund that nothing interrupts leaves what `RefundPayment` leaves, and one confirmation exactly if the last answer of the retry loop is a success |
| `PaymentExecutions.ExecutionIsOneCall` | services/payment-service/src/application/handlers/ProcessPaymentHandler.ts:69-90 | To the breaker an execution is one arrival and, if admitted, one end, of which only a transient failure counts |
| `PaymentHandlers.ProcessWebhook` | services/payment-service/src/application/handlers/ProcessWebhookHandler.ts:34-66 | Applies success and failure notices to a PROCESSING payment, with one event, and ignores everything else |
| `PaymentHandlers.RefundPayment` | services/payment-service/src/application/handlers/RefundHandler.ts:48-119 | Succeeds exactly when the last answer of the retry loop is a success, writing both transitions at once and one refund row for the full amount; every other outcome, by cause, leaves the tables alone |
| `PaymentTheorems.NoDoubleCharge` | services/payment-service/src/application/handlers/ProcessPaymentHandler.ts:48-96 | For any number of concurrent or repeated executions, crashes anywhere, the gateway is asked at most maxAttempts times per order and succeeds at most once |
| `PaymentTheorems.LogReplaysToRow` | services/payment-service/src/infrastructure/repositories/KnexPaymentRepository.ts:78-121 | Under any interleaving each payment's events chain from PENDING along allowed links to the stored status, and version is one plus their number |
| `PaymentTheorems.ReplayIsChain` | services/payment-service/src/domain/entities/Payment.ts:134-157 | What replaying a log means: allowed links, each from where the last ended |
| `PaymentTheorems.RefundAccounting` | services/payment-service/src/application/handlers/RefundHandler.ts:71-115 | At most one refund row per payment and per key, for exactly the payment's amount; recorded refunds never exceed completed charges; a COMPLETED payment has a transaction id |
| `PaymentTheorems.GatewayMayConfirmTwice` | services/payment-service/src/application/handlers/RefundHandler.ts:71-104 | Two refund requests with different keys can both be confirmed by the gateway before either writes |
| `RefundConfirmations.ConfirmedOnce` | services/payment-service/src/application/handlers/RefundHandler.ts:71-104 | If no refund of a payment starts beside another and none is lost after its confirmation, the gateway confirms at most one, and it gets written |
| `RefundConfirmations.CarefulExactly` | services/payment-service/src/application/handlers/RefundHandler.ts:48-104 | After such a run, the next step keeps every such continuation at one confirmation if and only if it does neither: otherwise some continuation is confirmed twice |
| `RefundConfirmations.ReturnsWithinCharges` | services/payment-service/src/application/handlers/RefundHandler.ts:71-104 | If every payment's refunds run so, the money the gateway returned is at most what completed charges took |
| `PaymentTheorems.SecondRefundIsRefused` | services/payment-service/src/infrastructure/repositories/KnexPaymentRepository.ts:82-104 | Once one of them has written, the other's write is refused |
| `PaymentSystem.WriteKeepsDb` | services/payment-service/src/infrastructure/repositories/KnexPaymentRepository.ts:78-104 | A write that passes the version guard extends the log from the row it overwrites |
| `PaymentSystem.AskKeepsCharges` | services/payment-service/src/application/handlers/ProcessPaymentHandler.ts:69-90 | A charge request spends one attempt of the one execution that may charge for the order |
| `CircuitBreakers.CircuitBreaker.Start` | services/payment-service/src/infrastructure/resilience/CircuitBreaker.ts:74-83 | Refuses exactly while OPEN before the probe time; the first call after it moves to HALF_OPEN |
| `CircuitBreakers.CircuitBreaker.Succeed` | services/payment-service/src/infrastructure/resilience/CircuitBreaker.ts:92-97 | A success resets the count and closes a HALF_OPEN breaker |
| `CircuitBreakers.CircuitBreaker.Fail` | services/payment-service/src/infrastructure/resilience/CircuitBreaker.ts:99-111 | A counted failure opens a HALF_OPEN breaker, and any other at the threshold |
| `BreakerRuns.BreakerUnderInterleaving` | services/payment-service/src/infrastructure/resilience/CircuitBreaker.ts:74-123 | With calls starting and finishing in any order, the count is the counted failures since the last success, CLOSED is below the threshold, no call starts within the timeout of an opening, and moves to HALF_OPEN are a timeout apart |
| `BreakerRuns.ModeFromLog` | services/payment-service/src/infrastructure/resilience/CircuitBreaker.ts:74-123 | In every run the mode follows from the log alone: HALF_OPEN if and only if some probe has neither a success nor an opening after it, OPEN if and only if some opening has no probe after it |
| `BreakerRuns.DecisionsFromLog` | services/payment-service/src/infrastructure/resilience/CircuitBreaker.ts:74-116 | In every run a counted failure opens the breaker if and only if a probe is undecided or the failures since the last success reach the threshold; a call is refused only before, and let through as a probe only after, the timeout of the last opening; a call starts only while no opening is unprobed |
| `BreakerRuns.SingleProbeExactly` | services/payment-service/src/infrastructure/resilience/CircuitBreaker.ts:74-90 | At most one call is ever in flight while HALF_OPEN if and only if every call admitted while the breaker is not CLOSED starts when none is in flight |
| `BreakerRuns.TwoProbesInFlight` | services/payment-service/src/infrastructure/resilience/CircuitBreaker.ts:75-83 | A run of four events with two probes in flight |
| `GatewayLoad.CallsAreRun` | services/payment-service/src/infrastructure/resilience/CircuitBreaker.ts:74-90 | The sequential calls of this analysis are runs of the breaker with one call in flight |
| `GatewayLoad.OpensAfterExactly` | services/payment-service/src/application/handlers/ProcessPaymentHandler.ts:69-90 | Against a gateway that only fails, the breaker opens after exactly failureThreshold times maxAttempts charges |
| `GatewayLoad.LoadBound` | services/payment-service/src/infrastructure/resilience/CircuitBreaker.ts:99-116 | Over any time T from the start at most maxAttempts * (failureThreshold + T / resetTimeout) charges are made |
| `GatewayLoad.ChargesPerAdmission` | services/payment-service/src/application/handlers/ProcessPaymentHandler.ts:69-90 | Each call the breaker admits adds exactly maxAttempts charges, each refused call none |
| `GatewayLoad.FailingRetryUsesEveryAttempt` | packages/shared/src/resilience/retry.ts:58-75 | The retry loop against such a gateway makes exactly maxAttempts calls |
| `Retry.Retry` | packages/shared/src/resilience/retry.ts:47-78 | Makes the number of calls the answers determine, returns the last answer, and sleeps the sum of the capped exponential delays, or of their drawn fractions with jitter |
| `Retry.BackoffBound` | packages/shared/src/resilience/retry.ts:66-74 | n attempts sleep at most min(base * (2^(n-1) - 1), (n-1) * maxDelay) |
| `Retry.BackoffExact` | packages/shared/src/resilience/retry.ts:68-73 | Without jitter n backoffs sleep base * (2^k - 1) + (n - k) * maxDelay, where k of them are below the cap |
| `Retry.JitterIsUniform` | packages/shared/src/resilience/retry.ts:70 | Full jitter reaches each delay below the cap from draws of one interval of equal length, and never the cap |
| `Retry.StopsAtFirstFinal` | packages/shared/src/resilience/retry.ts:58-75 | The first answer that is not a transient error ends the loop; without one it makes every attempt |
| `Retry.StopsOnce` | packages/shared/src/resilience/retry.ts:58-75 | The number of calls is determined by the answers |
| `OutboxTables.FindUnpublished` | services/order-service/src/infrastructure/repositories/KnexOutboxRepository.ts:31-46 | Distinct unpublished rows, oldest first, at most the limit, and none older left out |
| `OutboxPollers.OutboxPoller.PublishUntilFailure` | services/order-service/src/infrastructure/messaging/OutboxPoller.ts:63-74 | Publishes in order, stops at the first publish that is not confirmed, and returns exactly the confirmed prefix |
| `OutboxPollers.OutboxPoller.Poll` | services/order-service/src/infrastructure/messaging/OutboxPoller.ts:53-83 | Marks exactly what was confirmed and returns its number; a poll that finds another running, or whose fetch fails, does nothing; one whose marking fails returns 0 although it published |
| `OutboxPollers.PollsDrainOutbox` | services/order-service/src/infrastructure/messaging/OutboxPoller.ts:53-83 | With every publish confirmed, each poll publishes at least one row, so as many polls as there are rows empty the outbox |
| `OutboxSystem.PollIsRun` | services/order-service/src/infrastructure/messaging/OutboxPoller.ts:53-83 | In the system of many pollers, a poll that no other interrupts publishes and marks exactly what `OutboxPoller.Poll` does |
| `OutboxSystem.PerOrderPublicationOrder` | services/order-service/src/infrastructure/messaging/OutboxPoller.ts:53-83 | For any number of pollers interleaving and crashing, the first broker occurrences of an order's events follow their creation order |
| `OutboxSystem.PublishedMeansConfirmed` | services/order-service/src/infrastructure/repositories/KnexOutboxRepository.ts:48-53 | A row is marked published only after the broker confirmed it; one the broker never stored is still there to be fetched |
| `RateLimiter.RedisSlidingWindowStore.Hit` | packages/shared/src/middleware/rateLimiter.ts:32-50 | Trims, adds and counts one key's set, leaves other keys alone, and allows exactly while the count is within the limit |
| `RateLimiter.StoredIsRecent` | packages/shared/src/middleware/rateLimiter.ts:36-42 | The stored set is the full history's hits newer than the window, key expiry included |
| `RateLimiter.AllowedIsExact` | packages/shared/src/middleware/rateLimiter.ts:44-46 | With distinct members a hit is allowed if and only if at most `limit` hits of the full history, itself included, fall in its window |
| `RateLimiter.LimitHolds` | packages/shared/src/middleware/rateLimiter.ts:32-50 | At most `limit` hits are allowed in any half-open interval as long as the window |
| `RateLimiter.CollidingHitsCountOnce` | packages/shared/src/middleware/rateLimiter.ts:34 | Distinct members are needed: two equal members of one instant count once |
| `Paging.PagingIsExact` | services/order-service/src/infrastructure/repositories/KnexOrderRepository.ts:177-223 | Following nextCursor shows exactly the full list, newest first, if and only if no page ends inside a millisecond, whatever newer orders are inserted; every walk is finite |
| `Paging.AlignedIs` | services/order-service/src/infrastructure/repositories/KnexOrderRepository.ts:192-195 | When a page size is safe for a list: the millisecond changes at every multiple of it |
| `Paging.EveryLimitWorks` | services/order-service/src/infrastructure/repositories/KnexOrderRepository.ts:212-217 | Every page size works if and only if no two neighbouring orders share a millisecond |
| `Paging.SameMillisecondIsSkipped` | services/order-service/src/infrastructure/repositories/KnexOrderRepository.ts:192-195 | Two orders of one millisecond on pages of one: the second is never shown |
| `Totals.TotalIsSum` | services/order-service/src/domain/entities/Order.ts:86-89 | The total of no items is zero, of one its price times its quantity, and of two lists the sum of theirs |
| `Totals.ChargedIsNearest` | packages/shared/src/domain/Money.ts:101-103 | The charge is the whole number of cents nearest to the total, halves up |
| `Totals.ReloadedTotal` | services/order-service/src/infrastructure/repositories/KnexOrderRepository.ts:228-247 | The total recomputed from stored prices is off by at most half a cent per unit ordered |
| `Totals.ChargedVersusShown` | services/order-service/src/application/events/orderEvents.ts:43 | The total shown after a reload differs from the amount charged by at most half the units, in cents |
| `Totals.BoundIsAttained` | services/order-service/src/infrastructure/repositories/KnexOrderRepository.ts:73-80 | The bound is attained for every number of units |
| `Totals.WholeCentsAreExact` | services/order-service/src/domain/entities/Order.ts:79-89 | For prices in whole cents the original, stored, recomputed and charged amounts are equal |
| `Totals.AgreesExactlyForWholeCents` | services/order-service/src/infrastructure/repositories/KnexOrderRepository.ts:73-80 | For any list of items: the shown and the charged amounts agree in all quantities if and only if every price is in whole cents |
| `Totals.StoredExactly` | packages/shared/src/domain/Money.ts:101-103 | An amount survives storage if and only if it is in whole cents |
| `Totals.ReloadSettles` | services/order-service/src/infrastructure/repositories/KnexOrderRepository.ts:228-247 | Reloading twice is reloading once, so the first update settles the stored total |
| `Totals.ReloadedIsWhole` | services/order-service/src/infrastructure/repositories/KnexOrderRepository.ts:150-158 | A reloaded total is in whole cents |

## Left out

- SagaSafety.ConfirmedMeansReservedAndPaid: does not say the reservation is still ACTIVE, because the expiry sweep and the HTTP release ignore the order's status.
- SagaQuiescence.Quiescence: runs have no expiry sweep, no HTTP reserve, release or payment, no crash and no lost confirm, and a payment is one execution with an arbitrary result; those are in `SagaSafety`, where no such end state is promised.
- OutboxSystem.PerOrderPublicationOrder: assumes that of one order's events the later has the later `created_at`; each of the order service's writes emits at most one event.
- RateLimiter.LimitHolds: assumes distinct members and one clock for all processes and Redis; the middleware lets requests pass when Redis fails.
- Paging.PagingIsExact: without a status filter, and rows with equal timestamps keep one order between requests.
- Totals.WholeCentsAreExact: exact decimals; the precision of decimal.js and the conversion to a JSON number are not modelled, nor the sums of different currencies, which throw.
- PaymentHandlers.ProcessPayment: amounts are whole cents, so an amount that is positive but rounds to 0.00 is not distinguished.
- BreakerRuns.BreakerUnderInterleaving: assumes a clock that does not go back.
- The price check constraint that refuses an order whose price rounds to 0.00: such orders are not saved, and the total lemmas hold for them all the same.
- InventoryTransactions.SerialEquivalence: a release is replayed with the rows its own SELECT returned, which may lack rows committed while it waited; it is not a fresh release at its commit.
- ReserveDeadlock.NoDeadlock: waits are for stock rows; two releases that wait for each other's reservation rows, locked in crossing order, are not states of the model.
- PaymentTheorems.NoDoubleCharge: counts the charges the gateway answered with success; one performed without an answer relies on the gateway recognising the repeated idempotency key.
- RefundConfirmations.CarefulExactly: does not assume that the gateway recognises a repeated idempotency key.
- The `Consumer`'s acknowledge, requeue-once and dead-letter policy: every consequence of it is a message delivered again or never again, which the saga's growing message set allows.
- Consumers of `inventory.released` and `order.confirmed`, notifications, audit and dead-letter queues: nothing in the saga reacts to them.
- Saga step records, metrics, logging, tracing, configuration, HTTP controllers and validators, authentication: no state argument.
- 32-bit integer columns: quantities, versions and counters are unbounded.
- Free-text fields such as failure reasons and gateway refund ids, and `updated_at` columns.
- Inventory imports and product deletion, which change stock from outside the ledger.
- The `Inventory` constructor's checks: the table's check constraints already keep both counters from going negative.
- Order and payment ids are numbers, SKUs are their rank in the collation order, and idempotency keys are numbers of which the even ones are the saga's.

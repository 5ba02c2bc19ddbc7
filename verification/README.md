# Order and stock saga: a verified model

This project models the stateful protocols of an e-commerce backend made of an order service, a catalog
service, an identity service and an edge gateway, and proves what they keep.

**The reservation saga.** Order-service and catalog-service own separate databases. Catalog keeps the stock of
each product and one reservation per order (RESERVED, RELEASED or COMMITTED); order-service keeps orders,
idempotency records and outbox rows. They talk by remote calls that may be lost, repeated, late or executed
after their caller gave up, and by events that are delivered at least once in any order. `Saga.dfy` is a
transition system over both databases and every call in progress: a transition is one database transaction,
one conditional write, or one local move of a caller. Decisions are separate from their effects:
`reconcileReservation` answers and the worker acts later, `createOrder` looks for the order and releases
later, `releaseStock` reads and writes in two transitions, and the worker's commit, which takes no advisory
lock, may run between them. The theorems of `SagaTheorems.dfy`, `SagaPrices.dfy`, `Convergence.dfy` and
`ConvergenceAmongOthers.dfy` hold for every interleaving of any number of calls, customers, administrators,
deliveries and reconciliations; `Walkthrough.dfy` is one such run written out.

**Beside it:** the versioned cache of product lists (`ListCache.dfy`), keyset pagination of orders
(`Pagination.dfy`), the transactional outbox with several workers (`Outbox.dfy`, `OutboxRuns.dfy`,
`OutboxLog.dfy`), the reservation worker's rotating batches (`ReservationWorker.dfy`, `Resolution.dfy`), the
locks of the catalog transactions (`Locks.dfy`), access tokens and their revocation (`AccessTokens.dfy`),
refresh-token rotation (`Sessions.dfy`), and order amounts (`Money.dfy`).

## How it is built

Each database is a class whose methods change its tables step by step, with the loops and the rollbacks of
the source (`CatalogService`, `OrderService`, `OutboxDb`, `ListService`, `Worker`, `AuthService`). Each method
is proved equal to a function on values (`Reserve`, `Release`, `CompareAndSet`, `Reconcile`, `AfterBatch`,
`AfterPass`, `Settle`, ...), and `StockLaws.dfy`, `OrderLaws.dfy` and `SagaLaws.dfy` say what these functions
and moves mean without repeating them. The transition systems are made of the same functions, so the theorems
about all runs speak about what the methods do. `SagaInvariants.dfy` states the invariants, `SagaSteps.dfy` proves that
each transition keeps them, `SagaFrames.dfy` what each leaves alone.

Conventions:

- An identifier is its rank in the order of identifiers; the code only compares identifiers. Rank 0 is the
  empty string. `localeCompare` is taken to be a total order in which only equal identifiers are equal.
- SHA-256, Base64, JSON and JWT signatures are injective. The order id is the pair (user, key) or, without a
  key, an id new to the call.
- Times are integers of milliseconds. Money is an integer number of cents.
- What administrators put into stock is the history variable `supply`; conservation is relative to it.

`dafny verify dfyconfig.toml` checks the whole project.

## Where the code and its documents differ

The model follows the code.

- `README.md` of the repository (lines 50-57) says that the reservation saga is not fully implemented; the
  code holds, commits and gives back stock as modelled here.
- `docs/adr/0006-order-state-machine-and-idempotency.md` says that every status mutation validates
  `canTransition`. Reconciliation and the stock-failure handler do not call it; their conditional writes are
  nevertheless always edges of the table (`SagaTheorems.StatusHistories`).
- The same document says that a second request in flight gets a 409 or waits. In the code both run; both
  reserve under one id, and the later transaction replays the record of the first
  (`SagaTheorems.SameKeySameResponse`).

## Where the code falls short of a natural promise

Each has a lemma with a concrete input and a lemma that says exactly when the promise holds.

- `canonical` rejects its own output when a per-product total passes 2^53 - 1
  (`Items.CanonicalRejectsOwnOutput`, `Items.CanonicalIdempotent`). On the wire quantities are uint32 and this
  cannot happen (`Items.CanonicalIdempotentOnWire`).
- A list query shares its cache key with a different one exactly when its category or search contains ':'
  (`ListCache.ColonsCollide`, `ListCache.SharedKeysExactly`), and can then be given the other's list
  (`ListCache.WrongListArises`). Freshness does not depend on it.
- Of two racing revocations of one user, the one that took its cutoff first may be stored last; a token
  between the two cutoffs is then readmitted (`AccessTokens.OvertakenRevocation`,
  `AccessTokens.EscapesExactly`).
- A reconciled reservation can stay RESERVED although its order is neither CONFIRMED nor recently PENDING:
  exactly when another writer takes the overdue order out of PENDING between the read and the write
  (`Resolution.OvertakenArises`, `Resolution.LeftAloneExactly`). A later pass reads the new status.
- With `maxRetries` 0 a new outbox row already has all its retries (`OutboxRuns.StatusesAreRight`); the worker
  then treats rows as with `maxRetries` 1 (`OutboxRuns.PublishedWasSent`).

## Model

| member | source | states |
|---|---|---|
| Items.Canonical | services/catalog-service/src/services/stockService.ts:14-25 | The merging loop rejects exactly the invalid lists, and otherwise returns the canonical form whose meaning the next lemmas give |
| Items.CanonicalMeaning | services/catalog-service/src/services/stockService.ts:14-25 | The canonical form exists exactly for 1 to 100 named lines of positive safe quantities; it is strictly sorted, positive, no longer than the input, and has the same total for every product |
| Items.CanonicalComplete | services/catalog-service/src/services/stockService.ts:32-40 | Two valid lists have equal canonical forms if and only if their per-product totals agree, so the comparison in reserveStock tests totals |
| Items.CanonicalIdempotent | services/catalog-service/src/services/stockService.ts:14-37 | The canonical form is accepted again, unchanged, if and only if every total is a safe integer |
| Items.CanonicalIdempotentOnWire | services/catalog-service/src/services/stockService.ts:14-37 | For uint32 quantities canonical never rejects its own output and is idempotent |
| Items.CanonicalRejectsOwnOutput | services/catalog-service/src/services/stockService.ts:18-20 | A concrete valid list whose canonical form is rejected |
| Items.MergeDuplicates | services/order-service/src/validators/orderValidators.ts:12-27 | The schema's transform rejects exactly the invalid lists and otherwise returns the merged list |
| Items.MergedEffect | services/order-service/src/validators/orderValidators.ts:18-25 | The merge keeps every per-product total and mentions the same products, each once |
| Items.MergedOrder | services/order-service/src/validators/orderValidators.ts:18-25 | The merged list has its products in the order of their first mention |
| Items.RequestComplete | services/order-service/src/services/orderService.ts:24-28 | Two requests have the same hash if and only if their per-product totals agree |
| Items.CanonicalOfMerged | services/order-service/src/validators/orderValidators.ts:16-26 | Within the catalog's limit of 100 lines, merging first does not change the canonical form, which is the list that is hashed |
| CatalogDb.DecrementAllEffect | services/catalog-service/src/services/stockService.ts:43 | The decrement loop succeeds exactly when every line is positive, known and covered, and then takes each product's total from the stock |
| CatalogDb.CatalogService.DecrementProductStockTx | services/catalog-service/src/services/productService.ts:208-234 | The conditional update, with the error for each way in which no row matches; it never makes stock negative |
| CatalogDb.CatalogService.ReserveStock | services/catalog-service/src/services/stockService.ts:26-46 | The transaction with its loop and rollback does what Reserve says, in every case including each error |
| StockLaws.ReserveExactly | services/catalog-service/src/services/stockService.ts:26-46 | reserveStock succeeds if and only if the list is valid and either an unreleased reservation with the same totals exists or, without one, the stock covers every total; it takes exactly the totals once, and otherwise changes nothing |
| StockLaws.ReserveErrors | services/catalog-service/src/services/stockService.ts:14-43 | Every failure of reserveStock has its own error: invalid list, other totals than before, released reservation, or the least product that the stock does not cover, unknown or with its stock and its requested total |
| StockLaws.RetryTakesNothing | services/catalog-service/src/services/stockService.ts:32-42 | After a reservation, a retry with any list of the same totals succeeds and changes nothing |
| CatalogDb.CatalogService.ReleaseStock | services/catalog-service/src/services/stockService.ts:51-73 | The transaction with its loop and rollback does what Release says |
| StockLaws.ReleaseConserves | services/catalog-service/src/services/stockService.ts:51-71 | In every outcome, and whatever the reservation's state, stock plus what all reservations hold of a product stays the same |
| StockLaws.ReserveConserves | services/catalog-service/src/services/stockService.ts:26-46 | So it does for reserveStock, whether it succeeds, repeats or fails in its loop |
| StockLaws.ReleaseUndoesReserve | services/catalog-service/src/services/stockService.ts:43-62 | Releasing a fresh reservation restores the stock, and a second release does nothing |
| CatalogDb.CatalogService.OnOrderCreated | services/catalog-service/src/events/kafka.ts:125-159 | De-duplication by event id, and one StockReservationFailed row when the reservation is missing or RELEASED; handling the event again changes nothing |
| StockLaws.DeliveriesCommute | services/catalog-service/src/events/kafka.ts:118-159 | Deliveries of different events can be swapped |
| StockLaws.DeliveryIsIdempotent | services/catalog-service/src/events/kafka.ts:128-138 | Delivering one event twice is delivering it once |
| CatalogDb.CatalogService.CommitReservation | services/catalog-service/src/events/reservationWorker.ts:36-40 | The worker's conditional write from RESERVED to COMMITTED; what reservations hold of each product stays the same |
| CatalogDb.CatalogService.constructor | services/catalog-service/prisma/schema.prisma:37-47 | A database with stock and no reservations |
| CatalogDb.HeldUpdate | services/catalog-service/src/services/stockService.ts:44-60 | Changing one reservation changes what all reservations hold of a product by exactly the difference |
| OrderStatusMachine.HistoryBound | services/order-service/src/services/orderStateMachine.ts:4-15 | A path through the transition table has at most as many changes as the rank of its end, at most four |
| OrderStatusMachine.TransitionsExactly | services/order-service/src/services/orderStateMachine.ts:4-15 | An order advances by one rank at a time, or is cancelled before it is shipped; COMPLETED and CANCELLED are final |
| OrderStatusMachine.HistoryStep | services/order-service/src/services/orderStateMachine.ts:4-25 | Every change of a logged history is an edge its writer may take, joined to its neighbours, starting at PENDING |
| OrderDb.OrderService.CreateOrderTx | services/order-service/src/services/orderService.ts:99-169 | The creating transaction: replay, conflict, unique violation, column overflow, or order, OrderCreated row and record together; a keyed one that returned gives the same when it is made again |
| OrderDb.OrderService.CommitStatus | services/order-service/src/services/orderService.ts:309-317 | The status write conditional on the status seen, with the release row of a cancellation |
| OrderDb.OrderService.UpdateOrderStatus | services/order-service/src/services/orderService.ts:286-320 | The whole call run alone: its checks, their errors, and then a write that cannot miss |
| OrderDb.OrderService.ReconcileReservation | services/order-service/src/services/orderService.ts:345-365 | The whole call run alone: cancellation of an overdue PENDING order and the verdict |
| OrderDb.OrderService.CancelOrderForStockFailure | services/order-service/src/services/orderService.ts:366-373 | The conditional cancellation with its release row |
| OrderLaws.CheckExactly | services/order-service/src/services/orderService.ts:265-307 | The checks of updateOrderStatus pass if and only if the order exists, the caller may make the change and it is an edge; each error has its exact condition |
| OrderLaws.StockFailureCancels | services/order-service/src/services/orderService.ts:366-373 | After a stock failure the order is neither PENDING nor CONFIRMED; it was cancelled, with one release row, exactly if it had been |
| OrderLaws.CheckedWriteIsSound | services/order-service/src/services/orderService.ts:292-317 | With any writer between check and write, the write succeeds if and only if the checked status still stands, and then the change is permitted and an edge; a customer's is a cancellation before payment |
| OrderLaws.CreationExactly | services/order-service/src/services/orderService.ts:99-169 | A creation without a record succeeds if and only if its identifiers are new and its total is below 10^12 cents; it then stores order, event row and record, and otherwise nothing |
| OrderLaws.RacingCreations | services/order-service/src/services/orderService.ts:99-187 | Two creations under one user and key, in either order and whatever becomes of each, add at most one order with one event row; if both return, they return the same order and had the same request |
| OrderLaws.CreationIsRepeatable | services/order-service/src/services/orderService.ts:27-40 | After a keyed creation every later one with that user and key returns the same order, or the conflict when the request differs, and changes nothing |
| OrderLaws.VerdictDescribesOrder | services/order-service/src/services/orderService.ts:345-365 | Run alone, release is answered if and only if the order it leaves is missing or CANCELLED, commit if and only if it was paid; no overdue order stays PENDING, and asking again changes nothing |
| Money.PriceItems | services/order-service/src/services/orderService.ts:43-86 | On success each line is its item with the price answered for its own product, and the total is the sum of answered price times quantity as long as that is below 10^20 cents; otherwise the error of the first product that is missing or cannot be asked |
| Money.TotalIsExact | services/order-service/src/services/orderService.ts:76-78 | The accumulated total is below 10^20 cents exactly when the true sum is, and then equals it: no operation rounded |
| Money.BoundedOrderIsExact | services/order-service/src/services/orderService.ts:76-78 | At most 100 lines of at most 1000 pieces at prices the column can hold are never rounded |
| Money.ResponseBearsLines | services/order-service/src/grpc/handlers/ordersV2.ts:7-23 | Each item of the response has the product, the quantity and, in minor units, the price of its line, and the total is the order's |
| Money.ResponseAddsUp | services/order-service/src/grpc/handlers/ordersV2.ts:7-23 | In the response the total in minor units is the sum of item prices in minor units times quantities |
| SagaInvariants.ReserveKeepsStock | services/catalog-service/src/services/stockService.ts:30-46 | reserveStock moves stock into the reservation: stock plus what is held stays the supply |
| SagaInvariants.ReleaseKeepsStock | services/catalog-service/src/services/stockService.ts:53-71 | So does the write of releaseStock, even when the reservation was committed after it was read |
| SagaSteps.ExecReserveReply | services/catalog-service/src/services/stockService.ts:32-45 | A success reply of ReserveStock means a reservation with the caller's canonical items |
| SagaSteps.CheckedUpdate | services/order-service/src/services/orderService.ts:296-307 | What passes the checks of updateOrderStatus is an edge its writer may take |
| SagaSteps.VerdictReason | services/order-service/src/services/orderService.ts:345-365 | Every release verdict is backed, when given, by a missing or a CANCELLED order, although the status writers take no lock |
| SagaSteps.VerdictCommit | services/order-service/src/services/orderService.ts:361-364 | Every commit verdict is backed by an order that is or was paid |
| SagaSteps.EventStepKeeps | services/catalog-service/src/events/kafka.ts:118-159 | Every delivery, release, reconciliation and commit keeps all invariants and moves reservations, orders and decisions only forward |
| SagaSteps.CallStepKeeps | services/order-service/src/services/orderService.ts:19-198 | So does every move of every createOrder call |
| SagaSteps.UserStepKeeps | services/order-service/src/services/orderService.ts:286-320 | So do status updates between check and write, and administrators' stock edits |
| SagaSteps.InvRun | services/order-service/src/services/orderService.ts:19-198 | All invariants hold in every state of every run |
| SagaTheorems.StockIsConserved | services/catalog-service/src/services/stockService.ts:26-73 | In every reachable state stock plus the quantities of all reservations not RELEASED is the supply, for every product, and stock is not negative |
| SagaTheorems.GivenBackOnce | services/catalog-service/src/services/stockService.ts:54-62 | Each reservation's stock is given back at most once in a run, with the lock-free commit between any read and write |
| SagaTheorems.ReleasedIsFinal | services/catalog-service/src/services/stockService.ts:54-57 | In every run a RELEASED reservation never changes again |
| SagaTheorems.CommittedIsSettled | services/catalog-service/src/events/reservationWorker.ts:24-40 | A COMMITTED reservation has an order that is PAID, SHIPPED, COMPLETED or CANCELLED |
| SagaFrames.ReleasedByFinish | services/catalog-service/src/services/stockService.ts:51-62 | Of all transitions of the saga only the write of a releaseStock of its order makes a reservation RELEASED |
| SagaTheorems.ReleasedWithoutOrder | services/order-service/src/services/orderService.ts:189-195 | If a reservation is RELEASED and its order exists uncancelled, then some transition released it carrying out the decision that the order was missing, and that decision was made at an earlier transition, in a state without the order |
| SagaTheorems.OneOrderPerKey | services/order-service/src/services/orderService.ts:88-170 | Per user and key at most one order; it exists exactly when its one OrderCreated row and its one record do, and the record stores it as created |
| SagaTheorems.ReturnsWhatWasAsked | services/order-service/src/services/orderService.ts:24-40 | Any call that returns, with or without a key, returns its order as created and asked for exactly the per-product totals of that response |
| SagaTheorems.OtherTotalsNeverReturn | services/order-service/src/services/orderService.ts:27-30 | A call whose totals differ from those stored under its user and key never returns |
| SagaTheorems.SameKeySameResponse | services/order-service/src/services/orderService.ts:24-40 | All calls with one user and key that return, return the order as created, and all asked for its per-product totals |
| SagaTheorems.ServicesAgree | services/order-service/src/services/orderService.ts:90-122 | Every order has a reservation with the same quantity of every product, also when different calls reserved and created |
| SagaTheorems.StoredTotalsAreExact | services/order-service/src/services/orderService.ts:108-113 | Every stored total is the exact sum of its lines |
| SagaPrices.OrdersBearAnsweredPrices | services/order-service/src/services/orderService.ts:51-86 | Of every stored order of every run the creating call asked for prices at some transition; each line bears the price answered then for its own product, and the total is their unrounded sum |
| SagaLaws.FreshCreation | services/order-service/src/services/orderService.ts:99-169 | A creating transaction that finds no order returns and stores the order as priced, PENDING and dated now, if and only if the total fits its column |
| SagaLaws.CreationReplaysExactly | services/order-service/src/services/orderService.ts:102-107 | Inside the creating transaction a call under a key that has an order gets that order as created if it asks for the same totals, is refused if not, and stores nothing |
| SagaLaws.ReplayExactly | services/order-service/src/services/orderService.ts:31-40 | So does a call before pricing and after a unique violation |
| SagaLaws.GiveBackDecides | services/order-service/src/services/orderService.ts:189-196 | A call that gives up after its stock was reserved decides a release if and only if its order is missing |
| SagaLaws.AbandonedStockCanBeGivenBack | services/order-service/src/services/orderService.ts:189-196 | In every later state in which that stock is still RESERVED and not under release, a release of it can run |
| SagaLaws.VerdictIsActedOn | services/order-service/src/services/orderService.ts:345-365 | A finished reconciliation decides a release exactly if the order was missing or CANCELLED as read, or is cancelled now for being overdue; sends one commit exactly if it was paid as read; and changes no other order |
| SagaLaws.CommitIsApplied | services/catalog-service/src/events/reservationWorker.ts:36-40 | A commit message turns exactly a RESERVED reservation into a COMMITTED one, moves no stock and is used up |
| SagaLaws.FailureCancels | services/order-service/src/services/orderService.ts:366-373 | A delivered stock failure leaves its order neither PENDING nor CONFIRMED |
| SagaTheorems.OneReleaseRequest | services/order-service/src/services/orderService.ts:337-373 | An order is CANCELLED if and only if exactly one StockReleaseRequested row was ever enqueued for it; otherwise none was |
| SagaTheorems.StatusHistories | services/order-service/src/services/orderService.ts:286-320 | Every status change by any interleaved writer is an edge; only administrators take one other than PENDING or CONFIRMED to CANCELLED; at most four changes |
| Convergence.Converges | services/catalog-service/src/events/kafka.ts:118-159 | For a CANCELLED order without commit, any finite sequence of deliveries and reconciliations about it leaves the order as it is; the reservation ends RELEASED with the stock credited exactly once if and only if a release completed, otherwise nothing moved |
| Convergence.SameEnd | services/catalog-service/src/services/stockService.ts:51-71 | Two such sequences, each with a completed release, end with the same order, reservation and stock |
| Convergence.ReleaseCanRun | services/order-service/src/services/orderService.ts:337-344 | While the reservation of such an order is RESERVED, delivering its StockReleaseRequested row releases it |
| ConvergenceAmongOthers.ConvergesAmongOthers | services/catalog-service/src/events/kafka.ts:118-159 | The same among everything else the saga does: in every continuation such an order stays as it is, its reservation ends RELEASED if and only if it was or a release of it completes, and that happens at most once and credits exactly what was held |
| Walkthrough.CancellationArises | services/order-service/src/services/orderService.ts:286-317 | A run exists in which a customer orders and cancels while the stock is held, as Converges supposes, and two more events release it |
| Locks.LevelsRise | services/catalog-service/src/services/stockService.ts:31-62 | A transaction waits only for one that, if it waits too, waits for a strictly higher lock |
| Locks.NoWaitCycle | services/catalog-service/src/services/stockService.ts:22-62 | In every reachable lock table, for any number of transactions, the wait-for graph has no cycle |
| Locks.SomeoneProceeds | services/catalog-service/src/services/stockService.ts:22-62 | Some transaction can always take its next lock or has all of them |
| Locks.CanonicalIsAdmissible | services/catalog-service/src/services/stockService.ts:22-24 | The canonical order is the lock order that this needs |
| Locks.ReleaseLocksWhatItWrites | services/catalog-service/src/services/stockService.ts:53-62 | The locks of releaseStock include its order, its reservation and every product whose stock it changes |
| Locks.ReserveLocksWhatItWrites | services/catalog-service/src/services/stockService.ts:31-44 | The locks of reserveStock include its order, every product whose stock it changes and the reservation it adds |
| ListCache.VersionFromKey | services/catalog-service/src/services/productService.ts:70 | Equal keys have equal versions, whatever the queries contain |
| ListCache.ParamsExactly | services/catalog-service/src/services/productService.ts:65-70 | What the key records of a query is its own page, limit up to 100, texts, prices and sorting, and is shared exactly by queries that agree in all of these |
| ListCache.CacheKeyInjective | services/catalog-service/src/services/productService.ts:69-70 | The key of a query without ':' equals the key of any other query if and only if the versions are equal and the queries agree field by field |
| ListCache.SharedKeysExactly | services/catalog-service/src/services/productService.ts:69-70 | A query shares its key with a query that differs in a field if and only if its category or search contains ':' |
| ListCache.WrongListArises | services/catalog-service/src/services/productService.ts:72-80 | For every query that shares its key there is a run in which it is given the list of another query |
| ListCache.ColonsCollide | services/catalog-service/src/services/productService.ts:70 | With ':' different queries share a key |
| ListCache.NextKeeps | services/catalog-service/src/services/productService.ts:64-140 | Every move of every reader and writer keeps each cached list at least as new as the version of its key |
| ListCache.ListsAreFresh | services/catalog-service/src/services/productService.ts:15-46 | A call that starts after a write's version bump finished never returns anything read before that write committed, whatever the queries of the run contain |
| ListCache.ListsAnswerTheirQuery | services/catalog-service/src/services/productService.ts:72-83 | What a query without ':' gets, cached or not and among any other queries, was computed for its own page, limit, texts, prices and sorting |
| ListCache.ListService.GetListVersion | services/catalog-service/src/services/productService.ts:15-27 | The version read, its initialisation, and the answer when Redis fails |
| ListCache.ListService.InvalidateListCache | services/catalog-service/src/services/productService.ts:29-36 | INCR, which starts a missing key at 1; a failure of Redis is swallowed |
| ListCache.ListService.WriteProduct | services/catalog-service/src/services/productService.ts:48-62 | A write commits first, and bumps the version afterwards |
| ListCache.ListService.GetProducts | services/catalog-service/src/services/productService.ts:64-140 | The lookup, the query and the fill of one call run alone, with and without Redis; without a hit the result is for the query's own fields and as new as the database |
| ListCache.ReaderAlone | services/catalog-service/src/services/productService.ts:64-140 | The moves of one reader made without a pause add up to GetProducts |
| Pagination.PageMeaning | services/order-service/src/services/orderService.ts:217-263 | A page holds the highest rows below the cursor in order, at most the clamped limit of them; it has a next cursor if and only if rows are left, and the cursor names its last row |
| Pagination.Clamp | services/order-service/src/services/orderService.ts:222 | The limit is the one asked for, brought between 1 and 100, and 20 if none is asked for |
| Pagination.CursorRoundTrip | services/order-service/src/services/orderService.ts:200-215 | A cursor decodes to the row it was made from, unless the row's id is empty; any other text is no cursor |
| Pagination.EachOnce | services/order-service/src/services/orderService.ts:231-251 | Whatever is inserted, removed or changed between fetches, with any limits, an order that matches throughout is returned exactly once |
| Pagination.TraverseDescends | services/order-service/src/services/orderService.ts:243 | The whole traversal is strictly descending, so nothing is returned twice, and stays below its starting cursor |
| Pagination.TraversalIsListing | services/order-service/src/services/orderService.ts:217-263 | On fixed data the traversal is the sorted list of all matching orders |
| Pagination.TraversalEnds | services/order-service/src/services/orderService.ts:248-251 | On fixed data it ends within one fetch more than there are rows |
| Pagination.CallersSeeExactly | services/order-service/src/services/orderService.ts:223-245 | A traversal shows a caller, newest first, exactly the orders of the asked status that are the caller's own, or all of them to an administrator |
| Outbox.OutboxDb.ProcessOnce | packages/messaging-kit/src/outboxWorker.ts:70-114 | One batch, whatever rows other workers hold: the new table, and a result equal to the number of rows that became PUBLISHED; the range error |
| Outbox.OutboxDb.Maintain | packages/messaging-kit/src/outboxWorker.ts:116-123 | Exactly the rows published more than seven days ago disappear, and the others stay as they are |
| Outbox.BatchEffect | packages/messaging-kit/src/outboxWorker.ts:82-109 | A batch touches each claimed row once, with its own attempt, and no other row |
| Outbox.BatchPublishes | packages/messaging-kit/src/outboxWorker.ts:101-110 | The rows newly PUBLISHED are as many as the successful attempts |
| OutboxRuns.NextKeeps | packages/messaging-kit/src/outboxWorker.ts:70-123 | Every move of any number of workers, with rollbacks and clean-ups, keeps statuses, counts and times consistent |
| OutboxRuns.CommitIsProcessOnce | packages/messaging-kit/src/outboxWorker.ts:74-114 | In every run of any workers, a commit turns the table into what ProcessOnce computes from the rows it tried, and its count is the number of rows it moved to PUBLISHED |
| OutboxLog.RowsTellTheirAttempts | packages/messaging-kit/src/outboxWorker.ts:82-109 | In every run each row tells the log of its committed attempts: retryCount is the number of failed ones, it is FAILED exactly with the last one allowed, PUBLISHED exactly with an accepted one and its instant, and its next attempt is due the waiting time after its last failure |
| OutboxLog.BackoffIsWait | packages/messaging-kit/src/outboxWorker.ts:95 | The waiting times are 2, 4, 8, ... 256 seconds and five minutes from the ninth failure on |
| OutboxLog.CleanUpExactly | packages/messaging-kit/src/outboxWorker.ts:116-123 | In every run the clean-up removes a row if and only if it was published more than seven days before |
| OutboxRuns.PublishedWasSent | packages/messaging-kit/src/outboxWorker.ts:83-109 | A row is PUBLISHED only after the broker took its message; retryCount never passes maxRetries, or 1 if that is 0, and the row is FAILED exactly when it gets there |
| OutboxRuns.StatusesAreRight | packages/messaging-kit/src/outboxWorker.ts:87-96 | Over all runs a row is FAILED exactly when retryCount equals maxRetries, if and only if maxRetries is at least 1 |
| OutboxRuns.NotFailedEarly | packages/messaging-kit/src/outboxWorker.ts:79-97 | For every maxRetries, no row is FAILED sooner after its first attempt than all but the last waiting time together |
| OutboxRuns.DefaultPatience | packages/messaging-kit/src/outboxWorker.ts:65-97 | With the default settings that is 254 seconds |
| OutboxRuns.DeletedOnlyWhenOld | packages/messaging-kit/src/outboxWorker.ts:116-123 | No row is deleted unless it was published more than seven days before |
| ReservationWorker.Worker.ReconcileReservations | services/catalog-service/src/events/reservationWorker.ts:14-45 | One pass over the batch the query returned does what AfterPass says to the catalog and to the timestamps |
| ReservationWorker.Worker.HandleRow | services/catalog-service/src/events/reservationWorker.ts:20-43 | One row: release, commit, touch, or after any error nothing, as the next lemmas say |
| ReservationWorker.NoAnswerNoChange | services/catalog-service/src/events/reservationWorker.ts:20-43 | Without an answer, or when the release fails, nothing at all changes: the stock stays reserved and the row keeps its place |
| ReservationWorker.AnswerExactly | services/catalog-service/src/events/reservationWorker.ts:35-40 | With an answer exactly one row changes: it is touched and becomes RELEASED, its totals returned and announced, or COMMITTED, or stays RESERVED |
| ReservationWorker.PassEffect | services/catalog-service/src/events/reservationWorker.ts:20-43 | Whichever calls of a pass are answered, each answered row gets its own verdict and a new time, every other row of the batch keeps status, items and times, and no other row changes |
| ReservationWorker.PassConserves | services/catalog-service/src/events/reservationWorker.ts:20-43 | A pass loses no stock: stock plus what is held stays the same for every product |
| ReservationWorker.EveryRowIsReached | services/catalog-service/src/events/reservationWorker.ts:15-19 | ceil(N / 100) passes examine all N stale rows, or find them settled by others |
| ReservationWorker.NewcomersQueueBehind | services/catalog-service/src/events/reservationWorker.ts:16-17 | A steady supply of new reservations does not delay rows untouched since before the window |
| ReservationWorker.ReservedThroughout | services/catalog-service/src/events/reservationWorker.ts:35-40 | A row RESERVED after the last pass was RESERVED before and after every pass |
| Resolution.LeftAloneExactly | services/order-service/src/services/orderService.ts:345-365 | An answer leaves a reservation alone if and only if, as read, the order was CONFIRMED or PENDING for less than 15 minutes, or was overdue but moved out of PENDING by another writer before the write |
| Resolution.OvertakenArises | services/order-service/src/services/orderService.ts:350-360 | An overdue order, cancelled by its customer between read and write, whose reservation is left alone |
| Resolution.OnlyOpenOrdersKeepStock | services/catalog-service/src/events/reservationWorker.ts:14-45 | After ceil(N / 100) passes a stale row still RESERVED was examined, and at the given moment of every examination, in the one history of the order database, one of these held of its order |
| Resolution.UndisturbedPassesKeepOpenOrders | services/catalog-service/src/events/reservationWorker.ts:14-45 | When nobody writes between a call's read and its write, its order was CONFIRMED or recently PENDING in the state read at every examination |
| Resolution.AnswerStaysTrue | services/order-service/src/services/orderService.ts:345-365 | In every later state of the order database a release answer means an order absent when read or CANCELLED, a commit answer an order paid or cancelled after that |
| Resolution.SettledForGood | services/catalog-service/src/events/reservationWorker.ts:35-43 | Every row that a pass released or committed was asked about and answered, whether or not other calls were, and was settled rightly for good |
| Resolution.SagaIsTimeline | services/order-service/src/services/orderService.ts:286-373 | The order states of every saga run are such a history |
| Resolution.SagaAnswers | services/order-service/src/services/orderService.ts:345-365 | Every reconciliation that a saga run finishes began in some state of the run, and answers at the moment that read that state |
| AccessTokens.KeyLifeIsInvisible | services/identity-service/src/services/authService.ts:135-141 | The gateway's verdict is the same as if cutoffs never expired: every key outlives the tokens it covers, across any number of revocations and both roundings |
| AccessTokens.ShortestKeyLife | services/identity-service/src/services/authService.ts:137 | A key life leaves no gap to `exp` if and only if it is at least 900 s |
| AccessTokens.VerdictExactly | edge/api-gateway/src/tokenVerifier.ts:11-45 | The gateway's answer about an issued token for every outcome of the read: accepted as its own user in its own role for fifteen minutes, UNAUTHENTICATED when expired, malformed or cut off, and DEPENDENCY_UNAVAILABLE exactly for an unexpired ADMIN token when the read fails |
| AccessTokens.AcceptedAsBearer | edge/api-gateway/src/tokenVerifier.ts:44 | Whoever is let in is let in as the user and the role the token was issued to |
| AccessTokens.UnrevokedKeepAccess | edge/api-gateway/src/tokenVerifier.ts:11-45 | A user without a cutoff, whatever happens to others, passes with every unexpired token as that user in its role, except as an ADMIN while Redis fails |
| AccessTokens.RevocationHasNoGap | edge/api-gateway/src/tokenVerifier.ts:11-45 | A token issued at or before a stored cutoff that later cutoffs do not undercut is refused at every later time, except that an unexpired USER token passes as its own user while the read of Redis fails; an ADMIN token never passes |
| AccessTokens.InOrderIsEnough | services/identity-service/src/services/authService.ts:135-141 | Revocations stored in the order of their cutoffs never undercut one another |
| AccessTokens.EscapesExactly | edge/api-gateway/src/tokenVerifier.ts:42-44 | A token of a revoked user passes, as its own user in its own role, if and only if it is unexpired and newer than the cutoff stored last |
| AccessTokens.OvertakenRevocation | services/identity-service/src/services/authService.ts:137 | Two racing revocations that readmit a token |
| Sessions.AuthService.constructor | services/identity-service/prisma/schema.prisma:30-42 | No tokens and no cutoffs |
| Sessions.AuthService.GenerateTokens | services/identity-service/src/services/authService.ts:34-64 | One new unrevoked refresh token and an access token of this instant, or a unique violation |
| Sessions.AuthService.RevokeUserAccess | services/identity-service/src/services/authService.ts:135-141 | The cutoff is stored for 900 s; a failure of Redis is swallowed |
| Sessions.AuthService.RefreshTokens | services/identity-service/src/services/authService.ts:142-175 | Unknown, reused, expired, colliding and exchanged tokens: table, cutoffs and result in each case |
| Sessions.AuthService.LogoutUser | services/identity-service/src/services/authService.ts:177-187 | All refresh tokens of the user revoked and a cutoff stored, or an error without a user |
| Sessions.SettleLive | services/identity-service/src/services/authService.ts:152-167 | An exchange keeps every user's number of exchangeable tokens; reuse brings its user's to zero |
| Sessions.InvNext | services/identity-service/src/services/authService.ts:101-187 | Every step of logins, logouts and refreshes, with refreshes cut at their lookup and lock, keeps the invariants; tokens never vanish, change user or become unrevoked |
| Sessions.LogInStores | services/identity-service/src/services/authService.ts:50-61 | A login stores one new unrevoked token of its user with the given expiry and changes no other |
| Sessions.ExchangeStores | services/identity-service/src/services/authService.ts:160-167 | An exchange stores one new unrevoked token of the same user with the given expiry, revokes the exchanged one and changes no other |
| Sessions.TokenLivesUntilExpiry | services/identity-service/src/services/authService.ts:159 | A token stored by a login is exchanged by a later commit if and only if it is unrevoked and the expiry stored with it lies ahead |
| Sessions.OneLiveTokenPerSession | services/identity-service/src/services/authService.ts:34-64 | A user's unrevoked tokens are as many as logins and registrations since the user's last revoke-all |
| Sessions.ExchangedAtMostOnce | services/identity-service/src/services/authService.ts:160-167 | No refresh token is ever exchanged twice |
| Sessions.RevokedStaysRevoked | services/identity-service/src/services/authService.ts:152-163 | `revoked` never returns to false in a run |
| Sessions.SpentTokenEndsEverySession | services/identity-service/src/services/authService.ts:152-158 | Once a token was exchanged or revoked, a refresh with it that commits is detected as reuse and leaves its user without a session |
| Sessions.CommitsExactly | services/identity-service/src/services/authService.ts:159-167 | Under the lock a commit exchanges the token if and only if it was unrevoked and unexpired: the conditional write never misses |

## Left out

- Product deletion: releaseStock of a deleted product fails and rolls back (`StockLaws.ReleaseExactly`); the saga has no deletion, and the worker's fairness asks that no reserved product is missing.
- SagaTheorems.StockIsConserved: administrators' stock edits change the supply by the same amount, since the code overwrites stock without regard to reservations.
- SagaTheorems.ReleasedWithoutOrder: does not promise that such an order is cancelled later; when the release comes after OrderCreated was consumed, the code does not do it.
- Convergence.Converges: leaves out orders whose reservation was committed before they were cancelled; the code does not return their stock.
- ListCache.ListsAreFresh: assumes that the version key is set and Redis calls succeed, because the code's initialisation of the version can repeat a value; ListService models the failing calls one at a time. Lists may expire at any moment.
- The cache of single products: a late fill can restore old data, so there is no such property to state.
- The filter of a product query and the sorting of its result: a listing is represented by its parameters and by the commits its two reads had seen.
- Pagination.EachOnce: is about the sort keys of the orders that match the caller; the optional total is left out. A cursor whose text decodes to an unreadable date counts as no cursor in the model, and is a database error in the code.
- Money.PriceItems: prices arrive with two decimals; the older reply that carries minor units divided by 100 is read as such a price.
- Items.Canonical: sums above 2^53 are exact in the model and rounded in the code; both are above the safe range and rejected on the next use. Integer columns are unbounded.
- Outbox.OutboxDb.ProcessOnce: payloads, topics and error texts; the claiming query's answer is a parameter described by its specification.
- OutboxRuns.PublishedWasSent: says nothing about the order in which messages of one order are published; the loop continues past a failure.
- OutboxRuns.DefaultPatience: takes the clock of the worker and the clock of the database to be one.
- ReservationWorker.EveryRowIsReached: asks that every call is answered and every release succeeds, and that times grow from pass to pass; a row whose calls keep failing stays at the front.
- AccessTokens.RevocationHasNoGap: takes each instant as one reading of one clock. Revocations that Redis did not store are not covered, as the code accepts. The second verifier, validateToken of identity-service, lets tokens of both roles pass when Redis fails and is not modelled.
- Sessions.OneLiveTokenPerSession: counts expired tokens as the table does; deletion of users, e-mail, passwords, roles and the user cache are left out.
- Locks.NoWaitCycle: covers the row and advisory locks of the catalog transactions; order-service transactions take one advisory lock and rows of one order.
- A createOrder call that fails while it handles a failure (a database error inside the catch block) stays where it is in the model instead of throwing; it does nothing more in either case.
- The empty-order-id checks of reserveStock and of the event handler, and the stock-cache invalidations after each transaction.
- Kafka, gRPC, Redis and Prisma clients, circuit breakers, retries, credentials, health, metrics, logging, shutdown, HTTP routing and configuration: an environment that may repeat, delay, reorder or drop.

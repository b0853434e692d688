# Nirka POS: a verified model of its ledgers and protocols

This project models the stateful core of the Nirka POS backend and proves what its
tables keep over whole runs: the kitchen ledger across table merges, stock,
subscription payments and expiry, the onboarding gate, bills and payment collection,
the seeder, and the cleanup routines of the QA suites. `dafny verify dfyconfig.toml`
checks all of it.

Two layers are kept apart.

* **Programs modelled line by line**: the seeder (`Upserts`, `SeedCatalog`, `SeedCoverage`, `SeedPlans`,
  `SeedPurge`, `SeedOrders`, `SeedRun`) and the cleanups (`Cleanup`), over finite maps whose keys
  and foreign keys are explicit (`OrderTables`).
* **Protocols**: what the QA suites promise of the backend, proved of (or refuted for)
  the controllers and services under `src/`. A request is split between what it reads
  before its transaction and the transaction's commit, after the commit where it goes on,
  and between its reads inside the transaction where these decide what is written
  (stock). The theorems range over every interleaving, repetition and crash. Where a
  step of the model is coarser than the code, the last section says so.

A property that holds only of some runs is stated as an if-and-only-if: it holds
throughout a run exactly when every commit meets a named condition on the rows it finds,
with a concrete run that breaks it.

Each loop or updating method of the source has an imperative counterpart (`Kitchen`,
`StockRoom`, `Billing`, `Application`, `Till`, `Seeder`, `PlanStore`, `Tenant`,
`OrderSeeder`) proved equal to the function or state machine the theorems are about.

| file | subject |
|---|---|
| `Prelude.dfy` | options, sums, map and set equality |
| `KitchenLedger.dfy` | orders, order items, tickets, merge groups and tables as one machine of checks and commits |
| `KitchenRows.dfy`, `KitchenTickets.dfy`, `KitchenDelivery.dfy`, `KitchenOnce.dfy`, `KitchenRuns.dfy` | sent quantities and deliveries |
| `KitchenSeating.dfy`, `KitchenGroups.dfy`, `KitchenTables.dfy`, `KitchenSplits.dfy`, `KitchenRaces.dfy` | merge groups and tables |
| `KitchenRequests.dfy`, `KitchenEdits.dfy` | what each request asks for and leaves behind, whole-order edits line by line |
| `KitchenService.dfy` | the kitchen handlers |
| `Inventory.dfy`, `StockRuns.dfy`, `StockReturns.dfy`, `StockAlone.dfy`, `StockMerges.dfy`, `StockRaces.dfy`, `StockService.dfy` | stock reservations and restorations |
| `SubscriptionPayments.dfy`, `ExpiryPass.dfy`, `SubscriptionService.dfy`, `ExpiryWarnings.dfy` | webhook, verify, expiry passes |
| `Onboarding.dfy`, `OnboardingService.dfy`, `OnboardingFlows.dfy` | from plan selection to activation |
| `BillDiscount.dfy`, `CollectPayment.dfy` | totals, discounts, collection |
| `Upserts.dfy`, `SeedCatalog.dfy`, `SeedCoverage.dfy`, `SeedPlans.dfy`, `SeedPurge.dfy`, `SeedOrders.dfy`, `SeedRun.dfy` | the seeder |
| `OrderTables.dfy`, `Cleanup.dfy`, `TenantTables.dfy` | foreign keys, cleanups |

## Where the code and what is said of it differ

The model follows the code. Each point below names the members that say when the promise
holds and what breaks it.

* *Each unit reaches the kitchen once.* The ticket's item query takes no row lock, though
  the comment above it says so; a ticket computed before another commits sends its units
  again (`StaleTicketDoubles`). Without edits, delivery is once-only exactly when every
  ticket commits on the history it read (`OnceOnlyIffFresh`); with all requests, exactly
  when every commit is careful (`OnceThroughoutIffCareful`). `POST /orders` accepts negative
  quantities, which is one way not to be.
* *The sent quantity follows the tickets.* A whole-order edit that gives a sent dish another
  note deletes the row with its ticket lines and creates one that inherits the sent
  quantity: two units sent with no ticket behind them, sent again by the next ticket, with
  no race (`RenotedItemIsSentAgain`). Sent quantities stay backed by tickets exactly when
  every whole-order edit is covered (`BackedThroughoutIffCovered`, and for one edit
  `WholeEditKeepsBackedIff`), and equal to them exactly when every commit is faithful
  (`ExactThroughoutIffFaithful`, and for one line `EditKeepsExactIff`).
* *An order waits in one merge group and tables are not shared.* The checks of merge and
  creation run before their transactions: one order can end in two active groups
  (`TwoMergesOfOneSource`) and two orders at one table (`TwoOrdersOneTable`). A group can
  outlive its cancelled primary, by a crash between the cancel and its release
  (`CrashAfterCancelStrandsGroup`) or simply by the status route
  (`StatusCancelStrandsGroup`); an order placed at a freed table before the release finds
  it freed again (`PlacedBeforeRelease`). Groups and tables stay consistent exactly when
  every event is safe where it happens (`SeatedThroughoutIffSafe`); placing, merging,
  splitting and cancelling are, if their checks would pass again (`UnchangedChecksAreSafe`).
* *A transfer moves the order's table.* It leaves the table in the order's merge group as it
  was, and with no two requests overlapping a later cancel or payment frees that table under
  whoever sits there (`TransferThenCancel`, `TransferThenPay`). A payment is safe exactly
  when no order outside its group keeps a table the group lists (`PaymentIsSafeIff`), as
  none does before the first transfer (`NamedUntilTransfer`, `NamedTablesAreOwn`). A
  completed order can be transferred too and frees a table that may be another's
  (`CompletedOrderTransferred`); a transfer is safe exactly when no other order keeps the
  old table (`TransferIsSafeIff`).
* *Stock is conserved.* A change reads the level and writes an absolute one without a lock:
  two additions of two units can take two (`LostUpdate`). Stock is its movements exactly
  when every transaction commits on the levels it read (`StockIsItsMovementsIff`).
* *Stock restoration never inflates stock.* A reservation clamped at zero followed by an
  item removal does (`ClampThenEditInflates`), and so does an edit that lands after the
  order's stock went back (`EditAfterRestore`). No order returns more than it took exactly
  when every edit hands back at most what is out (`NeverOverpaidIffWithin`); stock plus what
  orders hold stays whole exactly when every commit is square
  (`StockPlusOutstandingIsInitialIff`). The stock of a merged-away order stays out however
  the target is edited or cancelled (`MergedReservationStaysOut`, `EditOfMovedLine`).
* *PAID is absorbing and a payment activates once.* A failure event or a bad signature is
  written without a condition, also over a PAID row (`LateFailureActivatesTwice`); the
  promise holds exactly without such a write (`PaidAbsorbsIff`). Two purchases activated
  side by side extend the expiry once (`OverlappingActivationsLoseTheFirst`), and every
  paid cycle is credited exactly when no activation commits on a changed expiry
  (`EveryCycleCreditedIff`).
* *A captured event is answered 200.* The webhook of the hardening suite carries no amount;
  an event whose amount does not match is answered 400 and changes nothing
  (`SubscriptionService.Billing.ReceiveWebhook`).
* *A pass only expires past subscriptions.* The flip checks the status, not the date
  (`RenewedThenExpired`, `NoneExpiredEarlyIff`). A warning level is sent once in a
  restaurant's life, not once per cycle (`WarnedAtMostOnce`).
* *No restaurant is activated without provisioning and approval.* `POST /subscriptions/verify`
  is open to applicants and has no branch for them: a signed payment made through
  `POST /subscriptions/checkout` activates the restaurant with no approval, no schema and no
  creation row (`PlainVerifyPassesTheGate`). The gate holds exactly when no renewal lands
  before the approval (`ActivationNeedsPaymentThenApprovalIff`), and always on the onboarding
  routes alone (`OnboardingRoutesKeepTheGate`).
* *A second approval changes nothing.* True one after another, not side by side
  (`ConcurrentApprovalsCreateTwice`). A rejected application can still be approved
  (`RejectedMayStillBeApproved`). The plan activated is the plan paid for only if no plan is
  selected over, and no payment row written beside, a different one
  (`ActivatedPlanIsPaidForIff`).
* *The order's discount is inherited by its bill.* By `createBill` yes, by the till no: an
  omitted value defaults to zero there (`BillingAndTillAgreeIff`). Editing a discount has no
  floor at zero (`EditedTotalNonNegativeIff`).
* *One payment per order.* The amount check tolerates a paisa while completion does not, so
  a payment one paisa short leaves the order open to a second full payment
  (`SecondPaymentPossibleIffShort`). The losing collector of a race is told that the order
  is already paid, with 200 where the security suite expects 400
  (`LoserIsToldAlreadyPaid`). A cancelled bill reopens its order
  but keeps the unique key, so nothing can be collected again
  (`CancelledBillCanNeverBeCollected`).
* *Cleanup.* The live suite's chain omits payments and stops at a paid bill; the other
  chain and the seeder's purge omit merge rows and stop at the orders
  (`GoldenGrillCleanupCompletesIff`, `PrintCleanupCompletesIff`, `PurgeCompletesIff`).
* *Removing unused plans.* Only current plans count as use, so a plan that is merely
  scheduled is deleted and the scheduled change is cleared (`PruneKeeps`).

One remark has no theorem of its own: the schema's comment on `sentQuantity` computes the
ticket delta from it, the code from the ticket history; the model does as the code.

Besides the rows below, small lemmas spell out single steps on the fields they read and
write, so that no theorem rests on a definition alone: `SubtotalAdds`, `AddedAlone`,
`StatusAlone`, `CancelAlone` and `TransferAlone` in `KitchenRequests`, `FlagsSet` and
`RestoredOnlyWhenDeducted` in `Inventory`, `OtherwiseFlagsOnly` and `StepsAskFor` in
`StockRuns`, `OneJobEach` in `SubscriptionPayments`, `OneRequestEach` and `OtherRequests` in
`CollectPayment`, `LabelFlow` and `OtherEvents` in `OnboardingFlows`, and `PicksAddUp` in
`SeedOrders`.

## Model

| member | source | states |
|---|---|---|
| KitchenService.Kitchen.PendingForOrder | src/controllers/kot.controller.js:44-80 | the per-item sum over all tickets and the filter give exactly the order's outstanding lines |
| KitchenService.Kitchen.CreateKot | src/controllers/kot.controller.js:16-158 | a ticket request is the check and commit of the ledger run without a gap; it creates a ticket exactly when something is outstanding |
| KitchenService.Kitchen.UpdateOrder | src/controllers/order.controller.js:1331-1590 | adding up what the order's own rows were sent per menu item, matching rows by menu item and note in place, creating and then deleting is the whole-order edit of the ledger, whose lines, inheritance and matching `KitchenEdits` states on the rows; only pending and held orders take it |
| KitchenService.Kitchen.MergeOrders | src/controllers/order.controller.js:2465-2517 | with every refusal in the handler's order, moving items one by one, cancelling the source and extending or opening the group is the merge of the ledger |
| KitchenService.Kitchen.SplitOrders | src/controllers/order.controller.js:2520-2543 | refuses unless the group is active; otherwise reopens every source, occupies its table and marks the group split |
| KitchenService.Kitchen.CancelOrder | src/controllers/order.controller.js:803-935 | the transaction and, after it, the release of the group with its tables are the two commits of a cancel |
| KitchenService.Kitchen.CompletePaidOrder | src/controllers/payment.controller.js:204-250 | completing the order, freeing its table and releasing the group it leads, table by table, are one commit of the ledger |
| KitchenService.Kitchen.ChangeTable | src/controllers/order.controller.js:1141-1330 | with every refusal, freeing the old table and taking the new one is the transfer of the ledger, which leaves merge groups as they are |
| KitchenTickets.HoldsThroughoutIff | src/controllers/kot.controller.js:38-116 | the schema behind the three theorems below: over every run of all requests, interleavings and crashes a rule on sent quantity, quantity and ticket history holds of every row throughout exactly when each commit meets it on the rows it writes; what that takes of each request is their content |
| KitchenDelivery.BackedThroughoutIffCovered | src/controllers/order.controller.js:1381-1590 | sent quantities are backed by ticket lines throughout a run exactly when every whole-order edit writes none beyond the tickets of its row; no other request can break it |
| KitchenOnce.ExactThroughoutIffFaithful | src/controllers/kot.controller.js:98-116 | sent quantity equals ticket history throughout a run exactly when every commit is faithful to the history it finds |
| KitchenOnce.OnceThroughoutIffCareful | qa/live-verify-api.js:232-256 | over every run of all requests the kitchen receives no more than live rows ask for, and nothing received is forgotten, exactly when no row is written below its tickets, no row with tickets goes, and no ticket asks for more than is outstanding where it commits |
| KitchenOnce.CarefulIffFresh | src/controllers/kot.controller.js:38-116 | where quantities are kept, a ticket commit sends nothing twice exactly when the history it read is unchanged |
| KitchenOnce.OnceOnlyIffFresh | qa/live-verify-api.js:232-256 | over every run of creations, additions, tickets, merges, splits, cancels, status changes, transfers and payments no unit is sent twice exactly when every ticket commits fresh |
| KitchenRuns.TicketSendsExactlyThePending | qa/live-verify-api.js:232-256 | an undisturbed ticket adds exactly the outstanding units of every item of its order and none elsewhere, marks them sent, and leaves nothing outstanding |
| KitchenRuns.RepeatedTicketIsIdempotent | src/controllers/kot.controller.js:152-154 | repeating the request writes nothing |
| KitchenRuns.EditKeepsExactIff | src/controllers/order.controller.js:1963-1972 | an undisturbed line edit, whatever its note, keeps sent quantity equal to ticket history exactly when it does not go below what was sent |
| KitchenRuns.WholeEditKeepsBackedIff | src/controllers/order.controller.js:1381-1590 | an undisturbed whole-order edit keeps sent quantities backed exactly when created rows are for dishes the order's own rows were sent nothing of and kept rows take no more than their own |
| KitchenEdits.WholeEditLeavesTheLines | src/controllers/order.controller.js:1528-1590 | after it the order's rows are the requested lines one for one, with note, price and quantity, and rows of other orders are as they were |
| KitchenEdits.WholeEditInherits | src/controllers/order.controller.js:1396-1452 | each row then says sent what the order's own rows of the dish said, added up, up to its quantity: nothing for a dish it had no row of, whatever other orders sent |
| KitchenEdits.WholeEditKeepsMatching | src/controllers/order.controller.js:1528-1560 | rows that go on have their line's dish and note, the earliest first, and keep their tickets; a row is created only when no such row is left |
| KitchenRequests.ItemRequestsAskFor | src/controllers/order.controller.js:1714-2146 | which additions, line edits and removals are taken, by the order's status, the quantity and the rows that are there; never the last row goes |
| KitchenRequests.OrderRequestsAskFor | src/controllers/order.controller.js:86-130 | a table must be free for a new order, an order pending or held for a whole edit, and units unsent for a ticket |
| KitchenRequests.MergeAsksFor | src/controllers/order.controller.js:2465-2483 | a merge is taken exactly for two different open orders, the source seated and waiting in no active group, the target seated or leading one |
| KitchenRequests.SeatRequestsAskFor | src/controllers/order.controller.js:758-1225 | what a split, cancel, payment, status write and transfer ask of status, table and group |
| KitchenRequests.PlacedAlone | src/controllers/order.controller.js:130-330 | a new order is PENDING at its table, now occupied, with one unsent row for each line and their subtotal |
| KitchenRequests.EditedAlone | src/controllers/order.controller.js:1964-1985 | a line edit, run alone, changes quantity, note and, down to the quantity, the sent count of its own row and no other |
| KitchenRequests.RemovedAlone | src/controllers/order.controller.js:2148-2175 | a removal takes the row and its ticket lines, not what the kitchen received, and nothing of any other row |
| KitchenRequests.PaidAlone | src/controllers/payment.controller.js:204-250 | a payment, run alone, completes the order, frees exactly its table and those of the group it leads, and releases that group and no other |
| KitchenRequests.MergeFinds | src/controllers/order.controller.js:2484-2517 | a merge moves every row it read and restates the target's subtotal, or, where one is gone, writes nothing |
| KitchenRequests.TicketFinds | src/controllers/kot.controller.js:80-116 | a ticket for a row that is gone writes nothing; an automatic one stays without lines |
| KitchenRuns.StaleTicketDoubles | src/controllers/order.controller.js:395-434 | two units ordered, four sent: the automatic ticket overtaken by another terminal |
| KitchenRuns.RenotedItemIsSentAgain | src/controllers/order.controller.js:1518-1590 | two units ordered and sent, then the same dish with a note: a row says two sent with no ticket, and two more are sent |
| KitchenTables.SeatedThroughoutIffSafe | src/controllers/order.controller.js:2465-2543 | over every run with crashes each order waits in at most one active group under an open or leaving primary, and each order that keeps a table is alone at an occupied one, throughout exactly when every event is safe where it happens |
| KitchenGroups.StepGroupsIff | src/controllers/order.controller.js:2465-2543 | what each commit and crash must find for the merge groups to stay consistent: free sources, no reopened or paid order waiting elsewhere, no primary closed by a status write, no release lost; a payment releases the group its order leads |
| KitchenTables.UnchangedChecksAreSafe | src/controllers/order.controller.js:2470-2483 | placing, merging, splitting and cancelling are safe whenever their checks would pass again with the same reads at commit |
| KitchenTables.TransferIsSafeIff | src/controllers/order.controller.js:1141-1330 | a transfer whose checks would pass again keeps groups and tables consistent exactly when no other order keeps the old table, as none does while the order is open |
| KitchenTables.PaymentIsSafeIff | src/controllers/payment.controller.js:204-250 | a payment in full whose checks would pass again keeps them consistent exactly when no order outside the group it leads keeps a table the group lists |
| KitchenTables.NamedTablesAreOwn | src/controllers/payment.controller.js:228-247 | no order outside keeps such a table as long as every member names its own order's |
| KitchenSplits.NamedUntilTransfer | src/controllers/order.controller.js:2488-2491 | over every interleaving without a transfer every member of an active group names its own order's table |
| KitchenRaces.TwoMergesOfOneSource | src/controllers/order.controller.js:2482-2496 | two merges of one order that both passed the check leave it in two active groups |
| KitchenRaces.TwoOrdersOneTable | src/controllers/order.controller.js:86-130 | two orders that both found the table available are both open at it |
| KitchenRaces.StatusCancelStrandsGroup | src/controllers/order.controller.js:740-790 | cancelling a primary by status leaves its group active, with no race |
| KitchenRaces.CrashAfterCancelStrandsGroup | src/controllers/order.controller.js:914-926 | a cancel whose release is lost leaves the group active under a cancelled primary |
| KitchenRaces.PlacedBeforeRelease | src/controllers/order.controller.js:895-926 | an order placed at the freed table before the release sits at a table marked available |
| KitchenRaces.TransferThenCancel | src/controllers/order.controller.js:1227-1285 | a primary transferred, its old table taken by another order, then cancelled: the release frees the other order's table, with no race |
| KitchenRaces.TransferThenPay | src/controllers/payment.controller.js:228-247 | the same by a payment |
| KitchenRaces.CompletedOrderTransferred | src/controllers/order.controller.js:1172-1174 | only cancelled orders are refused: transferring a completed one frees the table of the order that sits there now |
| KitchenSplits.SplitRestores | qa/live-verify-api.js:258-277 | splitting reopens every source as PENDING with cancel fields cleared, occupies its table, moves no item, keeps groups and tables consistent, and takes its tables off the merged display while no other group waits for its release and no member was transferred |
| KitchenSplits.NeverRemerged | src/controllers/table.controller.js:55-80 | no later request other than another merge puts a table back on the merged display |
| KitchenSplits.MergeThenSplit | src/controllers/order.controller.js:2465-2543 | items are conserved, the source row returns exactly when it was PENDING, and its lines stay with the target while its stored subtotal still counts them |
| Inventory.RestoreReturnsTheNet | src/services/inventory.service.js:201-258 | a cancel gives back, item by item and in any order, exactly the net taken unless zero stops it, and a second attempt changes nothing |
| StockAlone.UndisturbedPerforms | src/services/inventory.service.js:33-77 | a request nothing interleaves with leaves exactly what its changes leave when applied one after another |
| StockRuns.StockNeverNegative | src/services/inventory.service.js:53-60 | whatever interleaves, stock never goes below zero and untracked items stay untracked |
| StockRuns.ChangeReads | src/services/inventory.service.js:33-77 | a change of a tracked item adds its amount, clamped at zero, to the level the transaction sees, records what was applied, and writes the level only if it differs |
| StockRuns.LandsIff | src/services/inventory.service.js:201-213 | a transaction reaches its stock writes exactly when its conditional updates find the order as they need it: new, there, or reserved and not given back |
| Inventory.ReservedOnce | src/services/inventory.service.js:86-127 | an order is reserved for once, whatever lines a second attempt names |
| Inventory.StockRequestsAskFor | src/controllers/order.controller.js:845-880 | which orders a placing, edit, cancel, deletion, merge and reopening are refused for |
| StockRuns.StockIsItsMovementsIff | qa/qa-run.js:184-233 | over every interleaving each item's stock is its initial stock plus its movements throughout exactly when every transaction commits on the levels it read |
| StockRaces.LostUpdate | src/services/inventory.service.js:37-60 | two orders take two units each and two are gone |
| StockReturns.NeverOverpaidIffWithin | src/services/inventory.service.js:165-192 | over every interleaving no order returns more than it took exactly when every edit hands back at most what its order has out where it commits |
| StockReturns.StockPlusOutstandingIsInitialIff | qa/qa-run.js:285-338 | stock plus what unrestored orders hold stays what it was throughout exactly when changes commit on the level they read, edits of restored orders leave the level alone, and restorations add exactly the net |
| StockRaces.EditAfterRestore | src/controllers/order.controller.js:2150-2185 | an edit begun before a cancel hands the units back a second time after it |
| StockRaces.ClampThenEditInflates | src/services/inventory.service.js:33-77 | a clamped reservation followed by an item removal leaves more stock than there was, with no race |
| StockMerges.MergedReservationStaysOut | src/controllers/order.controller.js:2488-2491 | with square commits, whatever edits and cancel the target sees, once every other order's stock is back the shelf is short by exactly what the merged-away order took |
| StockMerges.EditOfMovedLine | src/controllers/order.controller.js:2150-2185 | an edit of a moved line under the target's id puts its units on the shelf, the source's exactly so far as the target had fewer out itself, and cancelling the target takes those out again |
| StockMerges.DeletionReturnsTheSource | src/controllers/order.controller.js:2389-2420 | deleting the merged-away order returns its net; cancelling or editing it changes nothing |
| StockService.StockRoom.DeductForCreation | src/services/inventory.service.js:86-127 | claims the order once and takes each positive line |
| StockService.StockRoom.RestoreForCancelled | src/services/inventory.service.js:201-258 | claims the restoration once and applies the reverse of the net per item |
| SubscriptionPayments.PaymentMoves | qa/hardening-qa.js:263-330 | the only moves of a payment: CREATED is never re-entered, PAID comes only from a committing activation and is left only by an overwriting failure |
| SubscriptionPayments.ActivationStartsSigned | src/controllers/subscription.controller.js:402-465 | an activation starts only from a signed capture of the stored amount or a signed callback for the stored order, on an unpaid row |
| SubscriptionPayments.PaymentRequestsStartIff | src/controllers/subscription.controller.js:349-465 | exactly which captures, callbacks and failure events start what: by signature, amount, owner, order and an unpaid row |
| SubscriptionPayments.PassSelectsIff | src/cron/subscription.cron.js:95-148 | a pass selects exactly ACTIVE and TRIAL subscriptions: past their date to expire, within 604800000 milliseconds of it to warn |
| SubscriptionPayments.ActivationBalance | src/services/razorpay.service.js:187-206 | over every interleaving a payment's history rows are one if it stands PAID plus one for each failure written over it |
| SubscriptionPayments.PaidAbsorbsIff | qa/hardening-qa.js:284-330 | along a run PAID is absorbing, and there is at most one activation, exactly when no failure is written over a paid row |
| SubscriptionPayments.EveryCycleCreditedIff | src/services/razorpay.service.js:208-212 | at every point of a run each expiry is the one owed by the purchase history exactly when no activation commits against an expiry changed since it was read |
| SubscriptionPayments.OverlappingActivationsLoseTheFirst | src/services/razorpay.service.js:159-212 | two overlapping activations of one restaurant both end PAID with the expiry of the second alone |
| SubscriptionPayments.LateFailureActivatesTwice | src/controllers/subscription.controller.js:422-431 | a failure event after the capture reopens the payment and the next capture activates it again |
| ExpiryPass.ExpiryBalance | src/cron/subscription.cron.js:150-215 | over every interleaving of payments and passes, EXPIRATION rows and notices agree and count the times a restaurant fell out of use |
| ExpiryPass.WarnedAtMostOnce | src/cron/subscription.cron.js:38-81 | however passes overlap, one warning per restaurant and level, also in later cycles |
| ExpiryPass.PassesConverge | qa/hardening-qa.js:363-403 | any number of overlapping or crashed passes touches no payment, date or row other than overdue ACTIVE and TRIAL ones, and with none of these left equals one pass |
| ExpiryPass.ExpiredOnceIffFlipped | qa/hardening-qa.js:363-386 | under passes alone a restaurant gets exactly one row and one notice if it was flipped and none otherwise |
| ExpiryPass.NoneExpiredEarlyIff | src/cron/subscription.cron.js:155-162 | nobody is expired before the paid date, at any point of a run, exactly when every flip commits on a row still overdue |
| ExpiryPass.RenewedThenExpired | src/cron/subscription.cron.js:134-162 | a renewal between selection and flip leaves a paid restaurant EXPIRED with a future date |
| ExpiryWarnings.WarningLevelMeans | src/utils/subscription.js:195-204 | the bucket is the days left rounded up: last day, two to three, four to seven, else none |
| ExpiryWarnings.EveryoneWarned | src/cron/subscription.cron.js:99-127 | after a pass every restaurant expiring within a week has the warning of its bucket, and no other notice was added |
| ExpiryWarnings.EveryoneInTimeWarned | src/cron/subscription.cron.js:99-127 | told by status and milliseconds: every ACTIVE or TRIAL subscription with up to seven days left has its warning afterwards, of level one, three or seven |
| ExpiryWarnings.OnlyInTimeWarned | src/cron/subscription.cron.js:99-127 | and no other warning is sent |
| SubscriptionService.CompletePass | src/cron/subscription.cron.js:131-215 | a pass over all overdue rows leaves none: each ACTIVE or TRIAL subscription past its date is EXPIRED with one more history row and one more notice, every other one is as it was |
| SubscriptionService.Billing.ActivateSubscriptionPayment | src/services/razorpay.service.js:128-308 | claims an unpaid payment, makes it PAID, and extends from the later of expiry and now with one history row; a paid one is left alone |
| SubscriptionService.Billing.VerifyPayment | src/controllers/subscription.controller.js:349-394 | another restaurant's payment and a wrong order are refused and write nothing, a bad signature writes FAILED and nothing else, and success is answered exactly for paid or validly signed requests, an unpaid one being renewed |
| SubscriptionService.Billing.ReceiveWebhook | src/controllers/subscription.controller.js:402-518 | a failure event writes FAILED, a capture of an unpaid row renews, everything else writes nothing; unsigned and mismatched events are answered 400, all others 200 |
| SubscriptionService.Billing.RunExpiryPass | src/cron/subscription.cron.js:95-237 | after the two loops every ACTIVE or TRIAL subscription past its date is EXPIRED with one more history row and notice, every other one is unchanged, each one with up to seven days left has the warning of its bucket, and no other warning was added |
| Onboarding.ActivationNeedsPaymentThenApprovalIff | qa/payment-lifecycle-qa.js:245-300 | over every interleaving, crash and retry, whatever is active or has a schema, subscription or creation row had a payment accepted and, after that, an approval, throughout exactly when no renewal lands before the approval |
| Onboarding.OnboardingRoutesKeepTheGate | src/middleware/auth.middleware.js:167-191 | that gate holds throughout every run in which no signed plain verification starts on an inactive application |
| Onboarding.ApprovalOpensIff | src/services/onboarding.service.js:2252-2284 | an approval opens provisioning exactly for an application that is not running, with a valid document, a plan, a PAID row, and outside the manual flow or with its payment received |
| Onboarding.OpenedOnlyWithDocuments | src/services/onboarding.service.js:2264-2284 | along any run provisioning is opened only by an approval with a document on file and a PAID row, by a manual approval of a received payment, or by automatic review |
| Onboarding.ApplicantRequestsAskFor | src/services/onboarding.service.js:803-945 | in which stages, and with which document, plan and payments, a selection, checkout and submission are taken |
| Onboarding.PaymentRequestsAskFor | src/services/onboarding.service.js:988-1035 | which callbacks, captures and failure events are heard, by stage, order, signature, amount and an unpaid row |
| Onboarding.StaffRequestsAskFor | src/services/onboarding.service.js:1690-1788 | when a receipt is booked, a rejection made and an application lapses |
| Onboarding.PlainVerifyActivates | src/controllers/subscription.controller.js:349-394 | a signed plain verification of an unpaid row, run undisturbed, pays it, takes its plan and activates, and does nothing else |
| Onboarding.PlainVerifyPassesTheGate | src/services/razorpay.service.js:208-262 | so a registered applicant is running and subscribed with no approval, schema or creation row |
| Onboarding.CreationBalance | src/services/onboarding.service.js:1195-1212 | creation rows and activations by renewal are the running restaurant, those stopped since and those launched over a running one |
| Onboarding.ActivationLastsIff | src/services/onboarding.service.js:1099-1104 | a running restaurant stays running exactly when no freeze, rejection or second provisioning commits on it |
| Onboarding.ActivatedPlanIsPaidForIff | src/services/onboarding.service.js:803-910 | payments, activations and the selected plan agree throughout a run exactly when no plan is selected and no payment row written, by either checkout or a receipt, against the other |
| Onboarding.LaterApprovalsChangeNothing | qa/payment-lifecycle-qa.js:295-300 | approvals after activation, one after another, change nothing at all |
| Onboarding.ConcurrentApprovalsCreateTwice | src/services/onboarding.service.js:1074-1104 | two approvals past their guards write two creation rows, and a failing second one takes the restaurant out of service |
| Onboarding.RejectedMayStillBeApproved | src/services/onboarding.service.js:2252-2284 | with a payment on record a rejected application is activated by the general approval, but not after a manual-flow rejection |
| OnboardingFlows.ManualFlow | qa/manual-submit-flow-qa.js:123-188 | submission waits inactive, approvals before the receipt change nothing, the receipt adds one PAID row without activating, approval activates with one creation row |
| OnboardingFlows.CaptureFlow | qa/payment-lifecycle-qa.js:257-270 | a verified capture pays the row and queues the application for review, or activates it under automatic review; a replay writes nothing |
| OnboardingFlows.ForgedCallback | qa/payment-lifecycle-qa.js:399-412 | a forged callback fails its payment, returns the applicant to the payment step and touches nothing else |
| OnboardingFlows.FailureWhileRunning | src/controllers/subscription.controller.js:422-431 | a failure event for a running restaurant fails the payment and leaves stage and restaurant alone |
| OnboardingFlows.BadPlainCallback | src/controllers/subscription.controller.js:349-394 | so does a bad callback on the plain route, whether the restaurant runs or not |
| OnboardingFlows.SelectionFlow | src/services/onboarding.service.js:803-910 | a selection, run to its end, sets plan and stage and leaves the subscription unpaid |
| OnboardingFlows.SelectionWrites | src/services/onboarding.service.js:845-900 | its write takes the subscription back also from a renewal that overtook it, and leaves payments and creation rows alone |
| OnboardingFlows.CheckoutFlow | src/services/onboarding.service.js:922-985 | a checkout adds one CREATED row of the selected plan and moves to the payment step |
| OnboardingFlows.PlainCheckoutFlow | src/controllers/subscription.controller.js:211-347 | the plain checkout adds one of the plan asked for and leaves the stage alone |
| OnboardingFlows.LapseFlow | src/cron/email.cron.js:55-80 | a lapse marks the application EXPIRED and nothing else |
| OnboardingFlows.OpeningFinds | src/services/onboarding.service.js:1068-1110 | an approval that finds the restaurant running writes nothing but a manual one's label; without plan or payment it ends |
| OnboardingFlows.RejectionFlow | src/services/onboarding.service.js:1889-1907 | a manual-flow rejection is final for both approvals, a plain one with a payment on record is not |
| OnboardingService.Application.ProvisionAndActivate | src/services/onboarding.service.js:1068-1269 | a running restaurant is left alone, an unpaid one refused, and a failure leaves the application under review and retryable |
| OnboardingService.Application.ApproveApplication | src/services/onboarding.service.js:2252-2284 | the approval protocol run without a gap, failing where provisioning fails; succeeds exactly for running applications and for those with a document, a plan, a PAID row and no unreceived manual payment that are provisioned |
| OnboardingService.Application.ReceiveWebhook | src/controllers/subscription.controller.js:420-495 | the branch for applications not active yet: a failure returns them to the payment step, a capture pays the row once and queues or launches the application, and only unsigned or mismatched events are answered 400 |
| OnboardingService.Application.VerifyPlainly | src/controllers/subscription.controller.js:349-394 | for an applicant, success on an unpaid row means active with schema and creation rows as they were |
| OnboardingService.Application.MarkPaymentReceived | qa/manual-submit-flow-qa.js:169-174 | records one PAID row and never activates |
| BillDiscount.DiscountIsNearest | src/utils/discount.js:13-25 | the discount lies between zero and the subtotal and within half a paisa of the exact one |
| BillDiscount.DiscountNeverFalls | src/utils/discount.js:13-25 | a larger value never gives a smaller discount |
| BillDiscount.EditsDoNotAccumulate | qa/discount-qa.js:189-207 | after any sequence of edits the bill is what the last accepted edit makes of the original |
| BillDiscount.EditedEqualsFresh | src/controllers/bill.controller.js:111-118 | an edited bill is the freshly created one with that discount, except that creation floors the total at zero |
| BillDiscount.ZeroRestoresTheTotal | qa/discount-qa.js:203-207 | a zero discount restores the undiscounted total whatever came before |
| BillDiscount.LockedBill | src/controllers/bill.controller.js:233-243 | a paid or cancelled bill is unchanged by every sequence of edits |
| BillDiscount.EditedTotalNonNegativeIff | src/controllers/bill.controller.js:257-265 | every accepted edit leaves a non-negative total exactly when the charges are not negative |
| BillDiscount.BillingAndTillAgreeIff | src/controllers/payment.controller.js:65-84 | for a request naming no discount the bill and the till agree exactly when the order's own discount is worth nothing, promotions apart |
| BillDiscount.TillChargesOwed | src/controllers/payment.controller.js:65-84 | the till's discount is the one amount owed: the order's, clamped, under promotions; the nearest paisa to the named value in the named type, else the order's; else the flat amount, clamped |
| BillDiscount.BillingChargesOwed | src/controllers/bill.controller.js:84-109 | the same for a new bill, where what the request leaves out comes from the order |
| BillDiscount.FreshBill | src/controllers/bill.controller.js:84-118 | discount and grand total of a new bill make up subtotal, charges, tax and rounding, unless the total is floored at zero |
| BillDiscount.EditedBill | src/controllers/bill.controller.js:219-297 | an edit is refused for paid and cancelled bills and values out of range; otherwise discount and grand total make up the same sum, and nothing else changes |
| BillDiscount.TillNeverNegative | src/controllers/payment.controller.js:75-84 | the till's discount is between zero and the subtotal for every valid request |
| CollectPayment.NothingMoreIsRecordedIff | src/controllers/payment.controller.js:48-117 | no continuation records another payment exactly in states recognised from the tables and requests in flight |
| CollectPayment.PaymentsAreTheWinningOffers | qa/security-data-qa.js:69-84 | payment rows add up to what winning requests offered and losers add none |
| CollectPayment.OneFullPaymentPerOrder | qa/phase4-print-rbac-qa.js:353-364 | with winners paying in full there is at most one, its payments are the bill's paid amount, and no later run changes either |
| CollectPayment.SecondPaymentPossibleIffShort | src/controllers/payment.controller.js:89-98 | after the first payment another can be recorded exactly when the first fell short of its total |
| CollectPayment.OpenOrderCollects | src/controllers/payment.controller.js:145-226 | an open order with no bill or an unpaid one can always be paid, which completes it and frees its table |
| CollectPayment.GrandTotalIsDue | src/controllers/payment.controller.js:65-98 | the amount asked for is the amount due: subtotal and charges less the discount owed, floored at zero |
| CollectPayment.ClosedStaysPriced | src/controllers/payment.controller.js:48-64 | a closed order keeps status, price, bill and payments through every run until its bill is cancelled |
| CollectPayment.CancelledBillCanNeverBeCollected | src/controllers/bill.controller.js:511-590 | cancelling a paid bill reopens the order and no later run records a payment for it |
| CollectPayment.CancelledThenCompleted | src/controllers/payment.controller.js:206-218 | an order cancelled between check and commit ends completed |
| CollectPayment.UnpaidBillCollectedTwice | src/controllers/payment.controller.js:138-148 | two collections that saw the same unpaid bill are both recorded |
| CollectPayment.LoserIsToldAlreadyPaid | src/controllers/payment.controller.js:268-287 | of two collectors that found no bill the second to commit is told that the order is already paid and adds nothing |
| CollectPayment.Till.Collect | src/controllers/payment.controller.js:22-346 | the handler with its sums and row loop is the protocol run without a gap; a recorded bill's total is the amount due, told by the order's and the request's own numbers, with payments within a paisa of it; it is refused exactly when the order is closed or no such amount is met, and an answer other than recorded writes nothing |
| Upserts.Settled | prisma/seed.js:302-311 | after an upsert loop each named row is as its last entry leaves it: made by one creation with a new id if it was missing, otherwise what was there updated; the others are untouched |
| Upserts.Reseeded | prisma/seed.js:474-492 | running the loop again with other ids and draws restores every named row, undoing changes to the fields it sets, leaves every other row alone and creates nothing |
| Upserts.IdsStayUnique | prisma/seed.js:474-492 | existing rows keep their ids and new rows get unused ones |
| SeedCatalog.SeedingAgainRestores | prisma/seed.js:302-660 | a later run with other draws gives every seeded row what the first gave it, undoing changes to the fields it sets, including users' activity, and touches and creates nothing else |
| SeedCatalog.SeedingAgainChangesNothing | prisma/seed.js:302-660 | from any database a second run right after the first changes nothing in the catalog |
| SeedCatalog.StatusesDoNotMatter | prisma/seed.js:573-577 | table statuses changed since the first run are among the differences a second run undoes |
| SeedCatalog.Seeder.SeedAll | prisma/seed.js:301-662 | the catalog part of the program, loop after loop, is the catalog function of the theorems, with its counter and table list |
| SeedRun.SecondRun | prisma/seed.js:254-812 | after any service a second run goes through exactly when no merge row names one of the restaurant's orders; then seeded catalog rows and plans are the first run's, none of the restaurant's orders is left, and the order tables are what its own draws make of the same tables |
| SeedCoverage.EveryDishListed | prisma/seed.js:494-532 | every dish of a section with a known category is upserted at its place with its own price, category, vegetarian mark and position; the first ten are featured, the twentieth to thirtieth recommended |
| SeedCoverage.NothingElseListed | prisma/seed.js:494-532 | every upserted dish is one of those |
| SeedCoverage.EveryTableListed | prisma/seed.js:567-577 | every number of every range is upserted, on its floor, with its configured capacity, or four where that is missing or zero |
| SeedCoverage.NoOtherTableListed | prisma/seed.js:567-577 | every upserted table is a number of one of the ranges |
| SeedCoverage.TableNoUnique | prisma/seed.js:570 | padded table numbers are different for different numbers |
| SeedCoverage.TableNoReads | prisma/seed.js:570 | a table number is T followed by at least two digits that read as the number |
| SeedCoverage.CatalogAsConfigured | prisma/seed.js:474-538 | after a run every configured dish and category has the configured fields whatever was there before |
| SeedCoverage.ModulesFloorsUsersAsConfigured | prisma/seed.js:302-648 | the same for modules, floors and users, and a regular customer exists |
| SeedCoverage.DishAsConfigured | prisma/seed.js:494-538 | field by field: a dish there before gets name, prices, availability and mark and keeps the rest; a new one also its category, position, distinctions and draws |
| SeedCoverage.CategoryAsConfigured | prisma/seed.js:474-491 | an existing category gets colour, icon and activity and keeps its position; a new one is numbered in order |
| SeedCoverage.ModuleAndFloorAsConfigured | prisma/seed.js:302-311 | modules and floors have the configured fields and keep their ids |
| SeedCoverage.TableAsConfigured | prisma/seed.js:565-585 | a table is free, on the floor its range names, if there is one, with its configured capacity or four, and keeps its id |
| SeedCoverage.UserAsConfigured | prisma/seed.js:587-633 | an existing user is made active, with a phone where one is set, and otherwise kept; a new one is as configured |
| SeedCatalog.SeatedAsPlanned | prisma/seed.js:565-585 | every table of the plan exists, is free, on its floor, with the capacity of its last mention, and no other table is created |
| SeedCatalog.Seeder.SeedMenu | prisma/seed.js:494-538 | the nested loops with their counter upsert exactly the flattened menu, skipping unknown categories |
| SeedCatalog.Seeder.SeedTables | prisma/seed.js:565-585 | the nested loops upsert exactly the flattened plan and return its tables in order |
| SeedPlans.PermissionsForEach | prisma/seed.js:331-335 | one permission row per catalog module, enabled exactly for the plan's features |
| SeedPlans.SeedOutcome | prisma/seed.js:303-362 | every plan seeded with permissions and subscription features; other subscriptions keep their features, in order, behind "dashboard" unless they have it; the plans left are the configured and the used ones, nothing dangles |
| SeedPlans.PruneKeeps | prisma/seed.js:351-362 | removal keeps exactly the configured and used plans and drops scheduled changes to removed ones, leaving no dangling reference |
| SeedPlans.SeedingPlansTwice | prisma/seed.js:303-362 | two runs leave the plans, permissions and subscriptions of one |
| SeedPlans.PlanStore.SeedPlans | prisma/seed.js:317-338 | the loops over plans and modules compute the seeded tables |
| SeedPlans.PlanStore.AddDashboard | prisma/seed.js:341-349 | for the rows the query on the seeded plan ids finds, in any order, exactly the subscriptions off those plans get "dashboard" in front of their features, kept in order, if they lack it |
| SeedPlans.PlanStore.SeedCatalog | prisma/seed.js:315-362 | seeding, the two queries, the dashboard and the removal in their order compute the outcome of the theorems |
| SeedPlans.PlanStore.RemoveUnusedPlans | prisma/seed.js:353-362 | deleting one by one in any order removes exactly the unused plans with their permissions |
| OrderTables.OrderDeletionKeepsReferences | src/utils/tenantSchema.js:889-1045 | an order deletion that goes through leaves no dangling reference |
| OrderTables.BillDeletionKeepsReferences | src/utils/tenantSchema.js:889-1045 | a bill deletion that goes through leaves no payment dangling |
| SeedPurge.PurgeCompletesIff | prisma/seed.js:462-466 | the purge completes exactly when only own rows refer into the restaurant's and no merge row names its orders; then it is exactly the removal of its rows |
| SeedPurge.TenantPurgeCompletesIff | prisma/seed.js:462-466 | where references stay within one tenant only merged orders stop the purge |
| SeedPurge.PurgeTakesExactlyOne | prisma/seed.js:459-466 | none of the restaurant's rows is left and every row of another restaurant is unchanged |
| SeedPurge.PurgeKeepsReferences | prisma/seed.js:462-466 | every intermediate state of the five deletions is free of dangling references |
| Cleanup.PrintCleanupUndoes | qa/phase4-print-rbac-qa.js:69-97 | on any database the run enlarged by its own unmerged orders the cleanup returns the database before the run |
| Cleanup.PrintCleanupCompletesIff | qa/phase4-print-rbac-qa.js:69-88 | the chain completes exactly when no merge row names a tracked order |
| Cleanup.GoldenGrillCleanupUndoes | qa/live-verify-api.js:51-83 | the cleanup with merge groups returns the database before the run whenever it can complete |
| Cleanup.GoldenGrillCleanupCompletesIff | qa/live-verify-api.js:61-74 | the chain completes exactly when no tracked order is paid and every group it leads was noted; a payment leaves bills, items and orders behind |
| Cleanup.CleanupsKeepReferences | qa/live-verify-api.js:51-83 | every state a chain commits, wherever it stops, is free of dangling references |
| Cleanup.TicketsGoInOrder | qa/live-verify-api.js:51-83 | movements of the orders go first, then their ticket lines, then the tickets |
| TenantTables.Tenant.CleanupGoldenGrill | qa/live-verify-api.js:51-83 | the loops and guarded attempts are the chain the theorems are about |
| TenantTables.Tenant.CleanupPrint | qa/phase4-print-rbac-qa.js:69-97 | the guarded attempts are the chain the theorems are about |
| TenantTables.Tenant.Purge | prisma/seed.js:462-466 | goes through exactly when only own rows refer into the restaurant's and none of its orders is merged, and then exactly its rows are gone; otherwise its payments are gone and every order is still there |
| SeedOrders.TotalsAreFair | prisma/seed.js:680-695 | every total is line totals plus service charge less discount, non-negative, each percentage within half a paisa |
| SeedOrders.OrdersAreDrawn | prisma/seed.js:667-730 | one order for each round, with the drawn status, picks and, where it dines in, table |
| SeedOrders.MoneyIsConserved | prisma/seed.js:667-805 | for any number of rounds and draws an order has a bill exactly when completed, and then one paid in full by one payment; a ticket exactly when not cancelled, and then one; and the three money sums agree |
| SeedOrders.TableFollowsLastOrder | prisma/seed.js:734-745 | a table is occupied exactly when its last dine-in order is unfinished |
| SeedOrders.OccupiedMeansUnfinished | prisma/seed.js:699-745 | an occupied table has an unfinished dine-in order |
| SeedOrders.FreeWithOpenOrder | prisma/seed.js:734-745 | a later finished order frees a table that still has an open one |
| SeedOrders.OrderSeeder.SeedOrders | prisma/seed.js:667-812 | the loop fills the tables of the specification and its four counters are their sizes |

## Left out

- Kitchen: bills, discounts, tax and service charge inside subtotals; floor, diet, role and plan checks; rows without a `sentQuantity`; the in-transaction ticket of the basic plan; cancelling a ticket; the amounts of a payment, which are in `CollectPayment`; holding and resuming an order (as status writes they are `SetStatus`); the reason of a cancel, which would replace the merge note of an order; soft deletion, which frees the table; menu availability and prices at the time of an edit.
- Kitchen: a commit is one step, so the recalculation of the order that follows an item change is part of it, and the table updates of a release are not separated from each other.
- Inventory: low-stock alerts, purchases, manual corrections and the audit trail; completed orders, which cannot be cancelled; whether a row lock or a deadlock delays a commit.
- SubscriptionPayments: an inactive or incompatible plan and a missing subscription row end an activation with an error and are not modelled; signature checking is the event's boolean; the calendar is a function of cycle and date, about which nothing is assumed except, for one direction of `EveryCycleCreditedIff`, that different dates stay different.
- SubscriptionPayments: webhooks for self-serve restaurants that are not active yet take the branch in `Onboarding`; their plain checkout and verification are events there too.
- SubscriptionService.Billing.ReceiveWebhook: without the branch for applications that are not active yet, which is `OnboardingService.Application.ReceiveWebhook`.
- OnboardingService.Application.ReceiveWebhook: provisioning that fails after a capture, answered 500, is not part of it; what it leaves is in `ProvisionAndActivate`.
- ExpiryPass: one notice per restaurant stands for the rows written to each of its administrators; the notice history is never deleted.
- Onboarding: wizard stages before plan selection are one stage; legal acceptance and email verification are the event's boolean; plan availability, business-type compatibility, tenant settings, document status and the SUPER_ADMIN screens that activate restaurants by other paths.
- Onboarding.ActivationLastsIff: bounds the creation rows of an undisturbed run only up to those written over a running restaurant, which `ConcurrentApprovalsCreateTwice` shows do occur.
- BillDiscount: amounts are whole paise and exact; binary floating point is not modelled, so its one-paisa tolerance is exact as well. The order-status guards of `createBill` are not part of its arithmetic.
- CollectPayment: promotions are an order flag and amount; ticket status, the release of the merge group, which is `KitchenLedger.PaySeats`, and the separate payment, partial and split endpoints; a cancelled bill stays cancelled.
- SeedCatalog: the restaurant with its settings, printer and walk-in customer, created once when missing, is given; user passwords.
- SeedCatalog.SeedingAgainRestores: asks for one entry per user email, as the configuration has; other keys may repeat.
- SeedPlans: whether subscriptions without a plan count as legacy is a parameter, since SQL comparison with NULL decides it; plan prices and limits travel with the features and are not listed.
- SeedOrders: dates, customers, payment methods and order type beyond dine-in; random draws are inputs; halves round up.
- SeedPurge and Cleanup: table status is free or not; resetting the statuses of one restaurant is covered where orders are seeded.
- SeedRun: rows that the order loop creates are kept apart from the purged tables they go into; the super admin, upserted before everything else, is one of the users.
- Cleanup: ids that a failed request left undefined in the tracker.
- HTTP, sockets, notifications to users, audit logs, printing, report SQL, JWT, password hashing, role and plan gating, settings and browser screens.

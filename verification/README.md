# A model of the shop back end

The shop keeps stock in lots, sells and ships orders out of them, takes goods back, counts the cash
drawer, and invoices. This project models the parts of that back end where several tables must agree,
or where several requests race for the same row, and proves what they keep.

## How it is told

- **Values and functions.** Every operation has a function on plain values that says what it does: the
  tables after it, or why it is refused. A refused operation leaves everything as it was, as a database
  transaction does.
- **Classes.** Where the source changes rows step by step, a class does the same - stock row first, then
  lots, then ledger rows; one line of an order after the other; one pending payment after the other - and
  each method is proved to end exactly where its function says, also when it has to undo what it wrote.
- **Runs.** Laws are proved over whole runs: any sequence of calls, any interleaving of requests. A
  request that reads an order, decides, and then claims the row is modelled as such: its step names the
  earlier state it read.
- Money is counted in whole dong for orders and invoices and in hundredths for the drawer and for costs.

| module | what it holds |
|---|---|
| `Common`, `StableSort` | options, results, sums, and the stable sort |
| `LotAllocation` | drawing and returning plans over lots, running balances, average cost |
| `StockLedger`, `StockOperations`, `StockInvariants` | the stock tables, the six primitives, and their laws |
| `ReturnTrail`, `LotBounds`, `ReturnHomes`, `CounterSale` | what a document may still bring back, lot bounds, where goods come back to, the counter-sale round trip |
| `LotOrder`, `StockLaws` | told on the tables alone: which lots a draw takes, and what receipts, releases, locks and line costs come to |
| `InventoryService` | the stock service as a class over its tables |
| `OrderJourney`, `OrderDesk` | packing, editing, making to measure, shipping, handing over and cancelling |
| `JourneyLaws`, `JourneyRuns`, `LockWeights` | what each of them keeps, any interleaving of them, and when locks and orders agree |
| `ShippingLaws`, `Refusals` | when packing, shipping and handing over are accepted, and what they leave; which reason a refusal gives |
| `CounterLaws`, `CounterDesk`, `ReturnDesk`, `Till` | what a counter line writes; the counter, the inspection of returns and the money routes as classes |
| `OrderReturns`, `ReturnRuns` | requests and inspections, and what they leave on lines and orders over any run |
| `ReturnLaws` | when each step of a return is accepted, where goods go, and what is promised |
| `OrderMoney`, `MoneyLaws` | deposits, counter collection, refunds, and the cash book |
| `ComboExpansion`, `ComboRefusals`, `ComboComponents`, `OrderCombo`, `ComboAvailability` | opening combos, editing them, costing them, loading them, counting sets |
| `CashReconciliation`, `CashCustody`, `CustodyRuns` | the day's segments and variances, and who held the drawer |
| `ProductionList`, `Invoices`, `InvoiceLaws` | what has to be made; invoice arithmetic, and what each event does to an order's invoices |

## What the code does not keep

Each of these is proved to happen on a concrete run or input, mostly next to the exact condition under
which the code does keep the law.

- A stock guard can pass and the draw still fail: the shelf counts lots that are made for another order
  line (`StockInvariants.ShelfMayBeReserved`, `StockInvariants.DeductAccepted`).
- Packing claims an order by its status only, so an edit of the lines between the read and the claim
  leaves a pack of the old quantities (`JourneyRuns.PackMayBeStale`, `JourneyRuns.PackedAsOrderedWhen`).
- For the same reason a line may be made to measure between the two: packing then locks the product item
  the line named, every later step asks for the one it names now, and the order can be neither cancelled nor
  handed over; from then on locked stock and orders never agree again (`JourneyRuns.LocksMayBeStranded`,
  `JourneyRuns.LocksFollowTheOrders`).
- Two tills that read the same unpaid pickup order can both collect the whole amount
  (`OrderMoney.CollectedTwice`, `OrderMoney.CollectedInFullWhen`).
- A cancellation stops for a bank transfer that has just arrived, but not for cash collected since it read
  the order: that money is kept without a word (`OrderMoney.CancelMissesACollection`,
  `OrderMoney.RefundedInFullWhen`).
- An edit that looks at the deposit sets the payment status from the deposit alone and forgets a balance
  already collected (`OrderMoney.EditForgetsTheBalance`, `OrderMoney.EditedPayStatusWhen`).
- Two clerks that read the same order can each open a return of the same unit; only the inspection refuses the
  second (`ReturnLaws.PromisedTwice`, `ReturnLaws.PromisedOnceWhen`).
- A line returned unit by unit need not come back to its invoiced amount: three for 200 dong come back as
  201 (`Invoices.UnitByUnitOvershoots`, `Invoices.UnitByUnit`).
- A return of a combo's components adjusts no invoice, since an invoice lists only what was priced, and a
  return may name only what was stocked (`Invoices.CombosAreNotAdjusted`, `Invoices.AdjustedForPricedLines`).

## Model

| member | source | states |
|---|---|---|
| `LotAllocation.PlanDraw` | src/modules/inventories/lot-allocation.ts:23-49 | the loop over own lots, then shared lots by age, yields the plan whose meaning the next four rows state, or nothing when it falls short |
| `LotAllocation.DrawPlanMeaning` | src/modules/inventories/lot-allocation.ts:23-49 | there is no plan exactly when the eligible units are fewer than asked; otherwise the parts add up to exactly what was asked |
| `LotAllocation.DrawPlanSlices` | src/modules/inventories/lot-allocation.ts:23-49 | every part is positive and comes from a lot the line may draw, never from one made for another line |
| `LotAllocation.OldestFirst` | src/modules/inventories/lot-allocation.ts:23-49 | a later lot is touched only once every lot ahead of it - own lots first, then older shared ones - is drained |
| `LotAllocation.DrawInTwoSteps` | src/modules/inventories/lot-allocation.ts:23-49 | drawing a and then b succeeds exactly when drawing a+b does, and leaves the same lots |
| `LotAllocation.EmptyLotsDoNotMatter` | src/modules/inventories/lot-allocation.ts:23-49 | drained lots may be listed or left out: the plan is the same |
| `LotAllocation.PlanReturn` | src/modules/inventories/lot-allocation.ts:63-77 | the loop over the lots in order yields the plan whose meaning the next row states |
| `LotAllocation.ReturnPlanMeaning` | src/modules/inventories/lot-allocation.ts:63-77 | a return plan is refused exactly when the lots still have less out than asked; otherwise its parts are positive, add up to exactly what was asked, and each lot gets what those ahead of it left, up to what it still has out |
| `LotAllocation.RunningBalances` | src/modules/inventories/lot-allocation.ts:80-86 | each balance is the opening level plus everything up to and including its row |
| `LotAllocation.AverageUnitCost` | src/modules/inventories/lot-allocation.ts:89-99 | units and costs out net of what came back; no cost when nothing is out |
| `InventoryService.Service.OpenLot` | src/modules/inventories/inventories.service.ts:246-294 | a positive receipt becomes one new lot, its stock and its ledger row; anything else is refused |
| `InventoryService.Service.DeductStock` | src/modules/inventories/inventories.service.ts:297-329 | guard on the shelf, then lots, then ledger rows in bulk: the same tables as the row-by-row draw, or untouched tables and the reason |
| `InventoryService.Service.LockStock` | src/modules/inventories/inventories.service.ts:336-380 | all lines are locked or none, and the short ones are reported in order with what was on the shelf |
| `InventoryService.Service.ShipLockedStock` | src/modules/inventories/inventories.service.ts:383-410 | stock and lock fall together and the lots follow; a lock or lot shortage undoes the row update |
| `InventoryService.Service.ReleaseLockedStock` | src/modules/inventories/inventories.service.ts:413-433 | a lock that is there is given back, one that is not is refused |
| `InventoryService.Service.ReturnDrawn` | src/modules/inventories/inventories.service.ts:443-584 | goods re-enter their origin lots or children of them, or an opening lot if nothing was ever drawn; refused past what is out |
| `InventoryService.Service.TallyDrawn` | src/modules/inventories/inventories.service.ts:460-530 | what each origin lot gave and got back, read off the ledger in one pass |
| `InventoryService.Service.DrawLots` | src/modules/inventories/inventories.service.ts:598-667 | the drawn lots, bulk ledger rows and refreshed line cost are those of the plan |
| `InventoryService.BulkIsDraw` | src/modules/inventories/inventories.service.ts:640-667 | writing rows, lots and ledger in bulk with precomputed balances equals drawing slice by slice |
| `InventoryService.Service.RefreshLineCost` | src/modules/inventories/inventories.service.ts:696-717 | the line cost is the average over its SALE and SALE_REVERSAL rows |
| `StockInvariants.EveryRunIsConsistent` | src/modules/inventories/inventories.service.ts:231-667 | from empty tables, after any calls: locked within stock, stock = lots = ledger, lots backed by their own rows, balances chained, split lots like their parents |
| `StockInvariants.LotValueBacked` | src/modules/inventories/inventories.service.ts:231-244 | in every run, what is left in a lot is worth exactly what its own ledger rows add up to |
| `StockInvariants.LockEachAllOrSome` | src/modules/inventories/inventories.service.ts:336-380 | all lines lock exactly when, key by key, together they need no more than the shelf, in whatever order and however often a key is listed |
| `StockInvariants.DrawPossible` | src/modules/inventories/inventories.service.ts:598-640 | the lots suffice exactly when the quantity is within the stock less what is made for other lines |
| `StockInvariants.DeductAccepted` | src/modules/inventories/inventories.service.ts:297-329 | a deduction is accepted exactly when it is positive, on the shelf, and in lots open to the line; exactly when it lacks lots is it refused for them |
| `StockInvariants.GuardSuffices` | src/modules/inventories/inventories.service.ts:308-326 | with nothing made for another line, a draw whose stock guard passed never fails |
| `StockInvariants.ShelfMayBeReserved` | src/modules/inventories/inventories.service.ts:308-326 | a run after which the guard passes and the draw fails |
| `LotOrder.DeductOldestFirst` | src/modules/inventories/inventories.service.ts:297-329 | told on the lot table: an accepted deduction takes of a lot only once what was made for the line, and every shared lot of the goods received earlier, is empty; only lots of the goods, shared or made for the line, give anything; stock falls by the quantity at that key alone, all rows under the one cause |
| `LotOrder.ShipOldestFirst` | src/modules/inventories/inventories.service.ts:383-410 | a shipment from locked stock takes its lots in the same order, and the lock falls with it |
| `StockLaws.OpenedWhen` | src/modules/inventories/inventories.service.ts:246-294 | a receipt is taken exactly when positive; its lot has its key, day, cost, origin and line, nothing taken from it, and stock grows by it at its key alone |
| `StockLaws.NeverDrawnWhen` | src/modules/inventories/inventories.service.ts:443-478 | goods that never left under the document come back as an opening lot of that day at the current cost, open to everybody, if the caller allows one; otherwise they are refused |
| `StockLaws.ReleasedWhen` | src/modules/inventories/inventories.service.ts:413-433 | a lock is given back exactly as far as it goes, and nothing else moves |
| `StockLaws.LockReport` | src/modules/inventories/inventories.service.ts:336-380 | which line fits is decided in turn by what those before it left on the shelf; those that do not are reported in order, each with what was left when its turn came |
| `StockLaws.SaleIsCosted` | src/modules/inventories/inventories.service.ts:664-717 | goods deducted or shipped for a sale leave their line, and no other, costing what its SALE and SALE_REVERSAL rows come to per unit still out, to the nearest, a half up; none when none is out |
| `StockLaws.ReversalIsCosted` | src/modules/inventories/inventories.service.ts:579-717 | and so do goods a reversed sale brings back |
| `ReturnTrail.ReturnAccepted` | src/modules/inventories/inventories.service.ts:443-584 | a return is accepted exactly when it asks for no more than is still out, then books exactly its quantity |
| `ReturnTrail.NothingComesBackTwice` | src/modules/inventories/inventories.service.ts:443-584 | in every run, a document that took its goods out before its first return never brings an origin lot more than it gave |
| `LotBounds.NoLotOverflows` | src/modules/inventories/inventories.service.ts:505-583 | in every run of documented calls no lot holds less than nothing or more than it received |
| `ReturnHomes.GoodsComeHome` | src/modules/inventories/inventories.service.ts:443-584 | in every run, every row any accepted return wrote - of a customer, of a reversed sale, of a transfer that arrives or comes back - is of its goods, at its destination, under its cause, and stands on a lot its document had drawn from before, or on a lot split off from one, of the same goods, cost and provenance; on a lot of its own only if its document never drew |
| `CounterSale.CounterSaleRoundTrip` | src/modules/orders/orders.service.ts:359-386 | selling and then cancelling cannot fail, opens no lot, nets every lot to zero and clears every line cost, whatever happened in between |
| `CounterLaws.LineSold` | src/modules/orders/orders.service.ts:205-222 | a sold line takes its units at the branch alone, oldest lots first, every row a sale of the order under the line, and costs what they cost |
| `CounterLaws.LineBack` | src/modules/orders/orders.service.ts:359-386 | a line of a cancelled sale puts exactly its units back at the branch as a reversal of the order under the line; one no lot gave opens a lot of that day at the cost of that day |
| `CounterDesk.Desk.Sell` | src/modules/orders/orders.service.ts:205-222 | line by line draws, all or nothing |
| `CounterDesk.Desk.Cancel` | src/modules/orders/orders.service.ts:359-386 | line by line returns, all or nothing |
| `OrderJourney.TransitionsOnlyClimb` | src/modules/orders/order-status.ts:16-52 | no order ever returns to a status it left, so a claim by status is not fooled |
| `OrderJourney.ComesFrom` | src/modules/orders/order-status.ts:16-52 | the table told from the other end: called off exactly until the goods leave, brought back exactly once they left, completed from the counter or the road, every other step from the one before |
| `JourneyRuns.OrdersOnlyMoveOn` | src/modules/orders/order-status.ts:16-52 | in every run, under any interleaving, the stock tables agree, no order comes back to where it was, packed lines stay as they are, and a line names the product item it named or one that is new since |
| `JourneyRuns.StrayUnitsArePacked` | src/modules/fulfillments/fulfillments.service.ts:132-203 | in every run the locked units of a key are what the orders now PACKED or PICKED_UP count on there, plus what packs locked there beyond what their orders counted on |
| `JourneyRuns.NothingAstray` | src/modules/fulfillments/fulfillments.service.ts:96-203 | while every pack so far locked the product items its lines named when it committed, no unit is astray |
| `JourneyRuns.LocksFollowTheOrders` | src/modules/fulfillments/fulfillments.service.ts:96-203 | in every run the locked stock is what those orders count on exactly when every pack so far locked the product items its lines named when it committed; after one that did not, never again |
| `JourneyRuns.UnwrittenPackIsAligned` | src/modules/fulfillments/fulfillments.service.ts:132-150 | a pack of an order whose row was not written since the read is such a pack, so the version would tell |
| `JourneyRuns.NoRouteMissesItsLocks` | src/modules/orders/order-cancel.service.ts:228-272 | while every pack so far was such a pack, no commit of any route, however stale its read, is refused for a lock of its order that is missing |
| `JourneyRuns.LocksMayBeStranded` | src/modules/orders/order-customization.service.ts:165-183 | a run in which a line is made to measure between the read and the claim of its packing: the order can then be neither cancelled nor handed over, and two units stay locked that no order counts on |
| `JourneyLaws.PackKeeps` | src/modules/fulfillments/fulfillments.service.ts:132-203 | packing is never refused for a lock mismatch, moves no other order, and changes locked less counted-on units by what it locks beyond what the order then counts on |
| `JourneyLaws.CancelKeeps` | src/modules/orders/order-cancel.service.ts:228-272 | a cancellation is accepted exactly when the status read allows it, still stands, and the locks its lines name now are there, and then gives back every one; it is refused for a mismatch exactly when only they are not |
| `JourneyLaws.ShipAllEffect` | src/modules/shipments/shipments.service.ts:497-520 | shipping a pack fails only for a lock that is not there or for want of lots; otherwise the locks were there and fall by exactly those goods |
| `JourneyLaws.HandOverKeeps` | src/modules/orders/order-pickup.service.ts:275-367 | handing over moves no other order and sets no unit astray, and is refused for a mismatch only when locks of the order are missing |
| `JourneyLaws.ReleaseAllEffect` | src/modules/orders/order-cancel.service.ts:254-267 | a list of locks is given back in full exactly when, key by key, it is all there, in whatever order and however often a key is listed; otherwise it is refused |
| `JourneyRuns.PackedAsOrderedWhen` | src/modules/fulfillments/fulfillments.service.ts:132-203 | the quantities packed are those ordered exactly when the stocked lines read still stand in theirs, in particular when the row was not written since |
| `JourneyRuns.PackMayBeStale` | src/modules/fulfillments/fulfillments.service.ts:132-203 | a run in which two units are packed on an order for three |
| `OrderDesk.Desk.PackOrder` | src/modules/fulfillments/fulfillments.service.ts:96-203 | claim, fulfillment, lock: the commit of the journey, rolled back on any refusal |
| `OrderDesk.Desk.Cancel` | src/modules/orders/order-cancel.service.ts:228-272 | claim, then release item by item over every locking fulfillment, each item by the product item its line named when read; all or nothing |
| `JourneyLaws.GiveToCarrierKeeps` | src/modules/shipments/shipments.service.ts:86-219 | goods are given to a carrier exactly when the order was read and still is PACKED and, for an outside carrier, is not one its customer picks up; the order moves to PICKED_UP, no lock moves, and it counts on the locks it counted on |
| `OrderDesk.Desk.Ship` | src/modules/shipments/shipments.service.ts:420-540 | claim, then ship item by item, by the product item each line names; all or nothing |
| `OrderDesk.Desk.HandOver` | src/modules/orders/order-pickup.service.ts:275-367 | claim, ship item by item, hand the fulfillment over, all or nothing |
| `JourneyLaws.EditAccepted` | src/modules/orders/order-edit.service.ts:262-311 | of the rules modelled: an edit is accepted exactly when it is of the very row it read, not yet shipped, and when it changes lines, of a CONFIRMED order whose lines it names by the products they are; then the lines are exactly those it names, otherwise as they were, and those it adds, the order goes the way asked for, and nothing else of it moves |
| `JourneyLaws.EditRefusalMeans` | src/modules/orders/order-edit.service.ts:430-453 | the lines an edit names pass exactly when each is of the order, named once and of the product it is |
| `JourneyLaws.CustomizeKeeps` | src/modules/orders/order-customization.service.ts:165-183 | making a line to measure moves that line alone, and only to the product item made for it; it locks and frees nothing and touches no other order |
| `JourneyLaws.CustomizeWhen` | src/modules/orders/order-customization.service.ts:111-202 | accepted exactly for a stocked line, still there, of an order that is and was read CONFIRMED, with no piece asked of the workshop; one made to measure already stays, any other becomes the product item made for it |
| `ShippingLaws.ShipAllWhen` | src/modules/shipments/shipments.service.ts:497-520 | the goods of a pack ship exactly when their locks cover them and, key by key, what the lines need beyond the lots made for them is there in shared lots; stock, locks and shared lots then fall by just that, with the rows of each line under the order |
| `ShippingLaws.PackWhen` | src/modules/fulfillments/fulfillments.service.ts:96-203 | packing is accepted exactly for an order read as and still CONFIRMED whose stocked lines are all still there and name one source, all positive and together within its shelf; the pack is those lines as read, and their units are locked |
| `ShippingLaws.ShipWhen` | src/modules/shipments/shipments.service.ts:420-540 | shipping is accepted exactly for an order read as and still PICKED_UP whose pack was handed to the carrier and can ship; the order is then SHIPPING |
| `ShippingLaws.HandOverWhen` | src/modules/orders/order-pickup.service.ts:275-367 | handing over is accepted exactly for a pickup order read as and still PACKED, with nothing left to pay, whose pack can ship; the order is then COMPLETED and its one pack handed over |
| `ShippingLaws.CancelLeaves` | src/modules/orders/order-cancel.service.ts:228-272 | an accepted cancellation gives back exactly the locks of its packs, withdraws them, and leaves goods and ledger alone |
| `Refusals.PackRefused` | src/modules/fulfillments/fulfillments.service.ts:39-135 | packing gives each reason exactly when it is the first that holds: not CONFIRMED when read, nothing to pack, two sources, a line without one, moved on since |
| `Refusals.ShipRefused` | src/modules/shipments/shipments.service.ts:420-495 | so does shipping: not PICKED_UP when read, no pack with the carrier, moved on since |
| `Refusals.HandOverRefused` | src/modules/orders/order-pickup.service.ts:275-330 | and handing over: not picked up there, not ready, not paid, moved on since |
| `Refusals.CancelRefused` | src/modules/orders/order-cancel.service.ts:77-272 | and cancelling: the goods had left, moved on since |
| `ReturnRuns.ReturnsAddUp` | src/modules/order-returns/order-returns.service.ts:534-630 | in every run: nothing returned beyond what was sold, RETURN rows = returned quantity, a line RETURNED exactly when all of it is back, an order exactly when all it shipped is, GOOD only to sellable places, DAMAGED only to damaged-goods ones |
| `OrderReturns.ReturnWrites` | src/modules/inventories/inventories.service.ts:443-584 | an accepted stock return books exactly its quantity, at its destination, under its own cause |
| `OrderReturns.PlaceOfReturn` | src/modules/order-returns/order-returns.service.ts:712-758 | rows of an inspected line land where its condition says |
| `OrderReturns.SettleRight` | src/modules/order-returns/order-returns.service.ts:762-792 | after settling, an order is RETURNED exactly when everything of it that shipped is, and no other order changes |
| `ReturnLaws.RequestWhen` | src/modules/order-returns/order-returns.service.ts:189-325 | a return is opened exactly when the order was read as shipped and every line, each named once, as its own, in stock, shipped, and with that much neither back nor promised to an open return; it is written as asked |
| `ReturnLaws.InspectLineWhen` | src/modules/order-returns/order-returns.service.ts:500-792 | a line is accepted exactly when it is judged, there is a place for it - GOOD: the sellable one asked for, else where its earliest SALE row stands, else its planned source; DAMAGED: the damaged-goods warehouse of where it left from - the stock takes it back there, and no more comes back than was sold |
| `ReturnLaws.InspectWhen` | src/modules/order-returns/order-returns.service.ts:494-620 | a return is inspected exactly when received and not yet inspected, its lines and no others judged, and each accepted on what the one before it left; it is then COMPLETED, and of the orders none but its own moves, and only to RETURNED |
| `ReturnLaws.InspectedGoods` | src/modules/order-returns/order-returns.service.ts:500-760 | an accepted line is booked whole at that very place, every row of its item under its return and line, RETURN_GOOD or RETURN_DAMAGED by the verdict; its counter grows by it, it is RETURNED exactly when a shipped line is all back, and no other line moves |
| `ReturnLaws.PromisedOnceWhen` | src/modules/order-returns/order-returns.service.ts:261-295 | a request keeps the open returns of each line within what is out exactly when what it asks is, at the commit, neither back nor promised |
| `ReturnLaws.PromisedTwice` | src/modules/order-returns/order-returns.service.ts:261-295 | a run in which two clerks who read the same order open a return each of its one unit |
| `ReturnLaws.ReceiveClaims` | src/modules/order-returns/order-returns.service.ts:320-332 | receiving takes exactly a return that was asked for, and nothing promised changes |
| `ReturnLaws.CancelClaims` | src/modules/order-returns/order-returns.service.ts:479-492 | withdrawing takes exactly a return not yet inspected, and gives up exactly what it promised |
| `ReturnLaws.InspectClaims` | src/modules/order-returns/order-returns.service.ts:494-620 | inspecting turns what a return promised into units that are back, one for one |
| `ReturnRuns.FailedDeliveryComesBack` | src/modules/order-returns/order-returns.service.ts:340-476 | inspecting a return of all that is still out leaves the order RETURNED |
| `ReturnDesk.Desk.TakeBack` | src/modules/order-returns/order-returns.service.ts:545-622 | one line: destination, stock, guarded counter, status |
| `ReturnDesk.Desk.TakeAllBack` | src/modules/order-returns/order-returns.service.ts:545-622 | the lines in order, stopping at the first refusal |
| `ReturnDesk.Desk.Inspect` | src/modules/order-returns/order-returns.service.ts:494-633 | claim, lines, settling, all or nothing |
| `OrderMoney.MoneyAddsUp` | src/modules/orders/order-cancel.service.ts:62-143 | in every run: the deposit on an unshipped order is PAID deposits less refunds, within the total; every PAID payment has one cash row; the cash book nets what is held plus what transfers overpaid |
| `OrderMoney.CancelledMoney` | src/modules/orders/order-cancel.service.ts:285-315 | after a cancellation the cash book nets held less refunded, never below zero |
| `OrderMoney.ResolvedDepositRight` | src/modules/orders/manual-order.service.ts:64-91 | a deposit is taken only when positive and within the total, a percentage only up to one hundred |
| `MoneyLaws.DepositTakenWhen` | src/modules/orders/manual-order.service.ts:64-91 | a deposit is taken exactly when what was asked - an amount, or a percentage up to one hundred, to the nearest dong - is within the total, and is kept as that |
| `MoneyLaws.CreateWhen` | src/modules/orders/manual-order.service.ts:94-300 | a new order is taken exactly when its deposit is; the deposit is its one payment and its one cash row, by the way it was paid, and the status says how much of the total it covers |
| `OrderMoney.PercentWithinTotal` | src/modules/orders/order-edit.service.ts:68-72 | a percentage deposit that follows a new total never exceeds it |
| `OrderMoney.EditedDepositRight` | src/modules/orders/order-edit.service.ts:53-92 | an accepted edit leaves the deposit at what is held and within the new total |
| `MoneyLaws.EditWhen` | src/modules/orders/order-edit.service.ts:124-330 | of the money rules: an edit goes through exactly when the goods had not left and the row is the one read, the way of delivery stays or may change - not away from a counter that collected, nor while a code shown there has just been paid - and the deposit it settles on is what is held |
| `MoneyLaws.EditWrites` | src/modules/orders/order-edit.service.ts:262-330 | it writes the total and the way of delivery asked for, the deposit with the status it gives or both as they were, and voids the shown codes when the order leaves the counter; no cash moves |
| `OrderMoney.HeldWasReceived` | src/modules/orders/order-cancel.service.ts:82-125 | money held always has a payment to refund against |
| `OrderMoney.CollectCashKeeps` | src/modules/orders/order-pickup.service.ts:175-222 | a collection adds exactly what was due when it read the order |
| `MoneyLaws.CollectCashWhen` | src/modules/orders/order-pickup.service.ts:145-222 | cash is taken exactly for a pickup order read as and still PACKED, read as owing, none of whose shown codes has been paid since; what was read as owing becomes one payment and one cash row, the codes are void and the order is paid |
| `OrderMoney.CollectedInFullWhen` | src/modules/orders/order-pickup.service.ts:175-222 | the order is then paid exactly in full exactly when the amount due has not changed since the read |
| `OrderMoney.CollectedTwice` | src/modules/orders/order-pickup.service.ts:175-222 | a run in which 200 dong are collected for 100 |
| `OrderMoney.RefundedInFullWhen` | src/modules/orders/order-cancel.service.ts:218-315 | whatever amount an accepted cancellation gives back, it keeps exactly what it read as held less that amount exactly when nothing came in since, and never less |
| `OrderMoney.CancelAcceptedWhen` | src/modules/orders/order-cancel.service.ts:77-142 | a cancellation is accepted exactly when the order was read, and still is, in a status that may be called off, no shown code has been paid since, and the amount to give back is within what was read as held - and named if anything was |
| `OrderMoney.CancelGivesBack` | src/modules/orders/order-cancel.service.ts:218-315 | it gives back exactly the amount named: what is held falls by it, one refund of the latest payment received and one expense write it, by the way asked for or the way it came; REFUNDED when it is all that was read as held, else PARTIALLY_REFUNDED |
| `Refusals.RefundRefused` | src/modules/orders/order-cancel.service.ts:77-315 | of the money a cancellation gives each reason exactly when it is the first that holds: goods had left, more than is held, no amount named, moved on since, a shown code paid since |
| `Refusals.CollectRefused` | src/modules/orders/order-pickup.service.ts:145-222 | collecting does: not picked up there, not ready, nothing due; in cash also a shown code paid since, moved on since |
| `OrderMoney.CancelMissesACollection` | src/modules/orders/order-cancel.service.ts:218-315 | a run in which a cancelled order keeps the 100 dong collected meanwhile |
| `OrderMoney.EditedPayStatusWhen` | src/modules/orders/order-edit.service.ts:300-311 | the payment status after an edit, whenever it was read, is right for all the money held exactly when no balance was collected or it makes no difference |
| `OrderMoney.EditForgetsTheBalance` | src/modules/orders/order-edit.service.ts:300-311 | a run that takes a deposit of 50, collects the other 50, and whose edit then marks the fully paid order as partially paid |
| `OrderMoney.TransferKeeps` | src/modules/shipments/shipment-delivery.service.ts:503-572 | whatever transfer arrives - once or again, short or over - the books stay right |
| `MoneyLaws.TransferWhen` | src/modules/shipments/shipment-delivery.service.ts:466-572 | a transfer settles a payment that waits for no more than it brings, with one cash row of all it brings, and the order with it exactly if it waits packed at the counter; any other changes nothing |
| `Till.OrderRows.CancelCounterQr` | src/modules/orders/order-pickup.service.ts:50-65 | waiting transfers are voided one by one; one that just arrived stops everything |
| `Till.OrderRows.CollectCash` | src/modules/orders/order-pickup.service.ts:175-222 | void, claim, payment and cash row, or nothing |
| `OrderMoney.CollectQrKeeps` | src/modules/orders/order-pickup.service.ts:226-262 | showing a code takes no money and keeps the books right, however stale the read |
| `OrderMoney.OneCodeWaits` | src/modules/orders/order-pickup.service.ts:226-262 | asked on the order as it stands, a code waiting for exactly what is due is kept; otherwise all waiting codes are void but the new one, for what is due |
| `MoneyLaws.CollectQrWhen` | src/modules/orders/order-pickup.service.ts:145-262 | a code is shown exactly for a pickup order read as PACKED and owing; one that waits for exactly that is shown again, otherwise those that waited and still do are void and one is made out for it |
| `Till.OrderRows.Cancel` | src/modules/orders/order-cancel.service.ts:160-316 | claim, void, refund payment and expense row, or nothing |
| `Till.OrderRows.EditOrder` | src/modules/orders/order-edit.service.ts:207-311 | the money columns of an edit, under its claim |
| `ComboExpansion.Walker.Walk` | src/modules/orders/combo-expansion.ts:39-64 | the recursive walk over one shared leaf table |
| `ComboExpansion.Flatten` | src/modules/orders/combo-expansion.ts:33-67 | opening a combo, with the reason when it is refused |
| `ComboExpansion.FlattensExactly` | src/modules/orders/combo-expansion.ts:33-67 | a combo opens exactly when no way down holds more than five combos, repeats one or ends in an empty one - on any graph, cycles included |
| `ComboRefusals.RefusalMeans` | src/modules/orders/combo-expansion.ts:33-67 | every refusal is true: a way down from the combo is too long, comes back to the combo named, or ends in the empty combo named |
| `ComboRefusals.FiveLevels` | src/modules/orders/combo-expansion.ts:6-44 | a combo in a combo opens five levels down, and is refused as too deep at six |
| `ComboExpansion.FlattenMeaning` | src/modules/orders/combo-expansion.ts:33-67 | each leaf once, exactly those some way down ends in, each with the sum over all ways down of the product of quantities |
| `ComboExpansion.RoutesComplete` | src/modules/orders/combo-expansion.ts:33-67 | the ways down summed over are all of them |
| `ComboExpansion.RoutesDistinct` | src/modules/orders/combo-expansion.ts:33-67 | and none is counted twice |
| `ComboExpansion.WalkSame` | src/modules/orders/combo-expansion.ts:39-64 | opening depends only on what is below the combo |
| `ComboComponents.Climb` | src/modules/products/combo-components.ts:44-58 | the queue ends, cycles included, with exactly the combos above the start |
| `ComboComponents.AncestorsOf` | src/modules/products/combo-components.ts:36-60 | exactly the other combos above the item |
| `ComboComponents.AssertComboGraph` | src/modules/products/combo-components.ts:65-83 | no refusal exactly when the edited combo and all above it open |
| `ComboComponents.UpwardIsEnough` | src/modules/products/combo-components.ts:65-83 | where every stored combo opens, checking upward passes exactly when every combo still opens |
| `ComboComponents.Catalogue.WriteComboComponents` | src/modules/products/combo-components.ts:116-216 | accepted exactly for a list without repeats, itself, unknown or discontinued parts after which every combo opens; then the graph changes there alone and right costs stay right |
| `ComboComponents.Catalogue.RecomputeComboCosts` | src/modules/products/combo-components.ts:224-302 | on any catalogue without cycles: the combos above the change, and no others, are written, each once; if the rest was right, all costs are right |
| `ComboComponents.Recomputation.Resolve` | src/modules/products/combo-components.ts:281-295 | memoised resolving ends, computes each affected combo once, and gives the cost a full computation would |
| `ComboComponents.RecomputingKeepsCostsRight` | src/modules/products/combo-components.ts:224-302 | recomputing only above a change restores the cost equation everywhere |
| `ComboComponents.StoredCostsAreFull` | src/modules/products/combo-components.ts:224-302 | on any catalogue without cycles, stored costs that satisfy the equation are those of a full bottom-up computation |
| `ComboComponents.OpenGraphsAreRanked` | src/modules/products/combo-components.ts:224-302 | a catalogue whose combos open has no cycle, so the recursion ends |
| `OrderCombo.LoadComboGraph` | src/modules/orders/order-combo.ts:22-68 | the level-by-level load ends; it has every combo below those asked, or some asked combo does not open |
| `OrderCombo.LoadedIsEnough` | src/modules/orders/order-combo.ts:22-68 | on what was loaded a combo opens, or is refused, as on the whole graph |
| `OrderCombo.ExpandCombos` | src/modules/orders/order-combo.ts:70-84 | succeeds exactly when every ordered combo opens on the whole graph, with the leaves it has there |
| `OrderCombo.BuildOrderItemRows` | src/modules/orders/order-combo.ts:93-144 | line by line, the priced row and then one row per leaf: the rows whose meaning the next three rows state |
| `OrderCombo.LineHasItsRows` | src/modules/orders/order-combo.ts:93-144 | for any list of lines, every line has its priced row, and every leaf of a combo line its row right after it, multiplied by the line and under its row |
| `OrderCombo.RowsAreOfLines` | src/modules/orders/order-combo.ts:93-144 | and there are no other rows: one with a parent is that of a leaf of the very combo line whose row it names |
| `OrderCombo.ComponentUnits` | src/modules/orders/order-combo.ts:93-144 | the component rows carry of every item the sum over the combo lines of line quantity times what one combo holds of it |
| `ComboAvailability.SetsShown` | src/modules/products/combo-availability.ts:16-27 | n sets are shown exactly when every leaf that is goods has n times its quantity on the shelf; services do not count, and a combo of services alone shows 9999 |
| `ComboAvailability.LeastSetsMeans` | src/modules/products/combo-availability.ts:16-27 | n sets are available exactly when every leaf has n times its quantity on the shelf |
| `ComboAvailability.LockingSets` | src/modules/products/combo-availability.ts:16-27 | packing n sets locks them exactly when n is within the sets shown as available |
| `CashReconciliation.ReconcileSession` | src/modules/cash-drawer-sessions/cash-reconciliation.ts:99-176 | the one-pass sweep gives every segment the sums over the movements of its half-open stretch, and the totals of the day |
| `CashReconciliation.ExactlyOneSegment` | src/modules/cash-drawer-sessions/cash-reconciliation.ts:99-176 | every movement falls in exactly one stretch |
| `CashReconciliation.SegmentsCoverTheDay` | src/modules/cash-drawer-sessions/cash-reconciliation.ts:99-176 | over all segments any quantity adds up to its total for the day |
| `CashReconciliation.SegmentVariancesAddUp` | src/modules/cash-drawer-sessions/cash-reconciliation.ts:99-218 | segment variances add up to the session variance, final less opening less net cash, as the summary says |
| `CashReconciliation.SegmentTells` | src/modules/cash-drawer-sessions/cash-reconciliation.ts:99-218 | a segment runs from one count to the next and tells of the movements in between what came in, what went out and how many; its variance is what was counted less what should be there |
| `CashReconciliation.DayTells` | src/modules/cash-drawer-sessions/cash-reconciliation.ts:189-218 | and so does the day as a whole |
| `CashReconciliation.MovementOrderDoesNotMatter` | src/modules/cash-drawer-sessions/cash-reconciliation.ts:99-176 | the order of the movements changes no segment |
| `CashReconciliation.LogOrderDoesNotMatter` | src/modules/cash-drawer-sessions/cash-reconciliation.ts:99-105 | nor does the order of logs of different moments |
| `CustodyRuns.CustodyHolds` | src/modules/cash-drawer-sessions/cash-drawer-sessions.service.ts:460-557 | in every run logs alternate START and END, each END is by its START's cashier, each later START by the one named, and the holder follows the last log |
| `CustodyRuns.CloseableWhen` | src/modules/cash-drawer-sessions/cash-drawer-sessions.service.ts:561-608 | the day can be closed exactly after an END that names nobody |
| `CustodyRuns.FinalEndIsLast` | src/modules/cash-drawer-sessions/cash-drawer-sessions.service.ts:460-510 | after such an END no log can be filed |
| `CustodyRuns.SegmentsOfAClosedDay` | src/modules/cash-drawer-sessions/cash-reconciliation.ts:179-186 | a closed day reads OPENING (SHIFT GAP)* SHIFT CLOSING, each SHIFT charged to its holder |
| `CashCustody.StaleSubmitKeeps` | src/modules/cash-drawer-sessions/cash-drawer-sessions.service.ts:460-557 | however stale its read, an accepted filing was decided on the session as it stands and leaves the chain of hands unbroken |
| `CashCustody.StaleCloseKeeps` | src/modules/cash-drawer-sessions/cash-drawer-sessions.service.ts:561-608 | however stale its read, an accepted closing was decided on the session as it stands and ends with its holder's END |
| `CashCustody.SubmitWhen` | src/modules/cash-drawer-sessions/cash-drawer-sessions.service.ts:460-557 | a log is filed exactly on an open day, by its holder, in turn - a START by the first holder or whom the last END named, an END by who started, for nobody or a colleague of the branch - and on the session as read; it is then last, with its amount, and the drawer with whom it names |
| `Refusals.FilingRefused` | src/modules/cash-drawer-sessions/cash-drawer-sessions.service.ts:460-557 | a filing is refused for the first that holds: the day is closed, the drawer is with another, the log is out of turn - and how - or something was written since the read |
| `CashCustody.FinalizeWhen` | src/modules/cash-drawer-sessions/cash-drawer-sessions.service.ts:561-608 | a day is closed exactly when open, ended by its holder for nobody, and as read; the count is kept, all else stays |
| `ProductionList.BuildProductionList` | src/modules/production-requests/production-list.ts:111-203 | one row per key listed, wanted or requested, and no other; each row what the input adds up to; in the order the next row tells in plain words |
| `ProductionList.MostUrgentFirst` | src/modules/production-requests/production-list.ts:96-221 | on that list no short row stands behind one that is not; among either, rows with orders come first, by their first order, then the larger gap; within a row urgent orders stand before high ones and those before the rest, then the earlier date, no date last, then the smaller code; and its orders are its demand, each as often as it was asked |
| `ProductionList.NothingIsLost` | src/modules/production-requests/production-list.ts:111-203 | all demand and all that is outstanding are on the list |
| `ProductionList.UrgencyIsAComparison` | src/modules/production-requests/production-list.ts:101-108 | urgency is a genuine ordering |
| `ProductionList.RowsAreCompared` | src/modules/production-requests/production-list.ts:206-221 | so is the order of rows |
| `ProductionList.ShortAgainstTheShelf` | src/modules/production-requests/production-list.ts:15-21 | with nothing made to measure and the packed demand locked, the shortage is that of the waiting orders against the shelf |
| `ProductionList.RowAddsUp` | src/modules/production-requests/production-list.ts:163-187 | the figures of a row are those of what it lists: its demand that of its orders, what is drafted and on order that of its requests, each as often as it was made and by what of it is still to come |
| `ProductionList.ShortIsTheLeast` | src/modules/production-requests/production-list.ts:189-199 | what a row is short is the least that, made on top of stock, orders and drafts, leaves nobody waiting |
| `ProductionList.StockIsShownOnce` | src/modules/production-requests/production-list.ts:118-195 | the stock of a location and item is shown once: its standard row and the rows made to measure share it, unless more is made to measure than there is |
| `Invoices.NothingRoundedAway` | src/modules/invoices/invoice-math.ts:11-38 | invoiced amounts and returned values add up to the line totals exactly |
| `Invoices.SaleTotalMeaning` | src/modules/invoices/invoice-math.ts:40-55 | the total is the lines plus what the order charges beyond them, not below zero |
| `Invoices.FullReturnIsExact` | src/modules/invoices/invoice-math.ts:11-18 | a full return is worth the whole line |
| `Invoices.WholeOrderBack` | src/modules/invoices/invoices.service.ts:165-229 | bringing the whole order back takes off exactly what was invoiced |
| `Invoices.AdjustmentsStayClose` | src/modules/invoices/invoices.service.ts:165-229 | any number of partial returns stays within half a dong each of the exact share |
| `Invoices.UnitByUnit` | src/modules/invoices/invoice-math.ts:11-18 | unit-by-unit returns are exact exactly when the amount divides evenly |
| `Invoices.UnitByUnitOvershoots` | src/modules/invoices/invoice-math.ts:11-18 | three for 200 dong come back as 201 |
| `Invoices.AdjustsExactly` | src/modules/invoices/invoices.service.ts:165-229 | a return adjusts an invoice exactly when the invoice is issued and lists a line the return brings some of back |
| `Invoices.ReturnIsAdjusted` | src/modules/invoices/invoices.service.ts:165-229 | a return that names a listed line in one place takes exactly those units off it, no more than were invoiced, at minus their share of its amount to the nearest dong; earlier adjustments, total and lines stay |
| `Invoices.OneShare` | src/modules/invoices/invoice-math.ts:11-18 | there is only one share to the nearest dong, so the amount of that entry is settled |
| `Invoices.UnnamedIsNotAdjusted` | src/modules/invoices/invoices.service.ts:165-229 | of a line the return does not name nothing is taken off |
| `Invoices.WholeLineBack` | src/modules/invoices/invoices.service.ts:165-229 | a return of the whole order takes off every listed line all its units and its whole amount |
| `Invoices.AdjustedForPricedLines` | src/modules/invoices/invoices.service.ts:19-42 | told on the order: exactly when it brings back some of a priced row - no component of a combo - that was not all back when the invoice was issued |
| `Invoices.CombosAreNotAdjusted` | src/modules/invoices/invoices.service.ts:19-42 | an order for one combo, all of whose components come back, whose issued invoice stays as it was |
| `Invoices.InvoiceRows.IssueForOrder` | src/modules/invoices/invoices.service.ts:72-147 | the live invoice is issued once, net of earlier returns; an order without one, cancelled ones passed over, gets an issued one |
| `InvoiceLaws.PlacedMeans` | src/modules/invoices/invoices.service.ts:48-70 | a placed order gets an invoice of its total that waits, unless one that counts is there |
| `InvoiceLaws.CompletedMeans` | src/modules/invoices/invoices.service.ts:72-147 | a completed order is billed once - the one that waits is issued, or one is written if none counts, and one issued before stays: every priced row not all back, at its amount less the share of what is, to the nearest dong, and what the order charges beyond its rows, never less than nothing |
| `InvoiceLaws.WithdrawnMeans` | src/modules/invoices/invoices.service.ts:149-160 | a cancelled order withdraws every invoice that waits and no other |
| `InvoiceLaws.ReturnMeans` | src/modules/invoices/invoices.service.ts:165-229 | a return touches the issued invoice alone |
| `Invoices.IssuedInvoicesStand` | src/modules/invoices/invoices.service.ts:45-160 | in every run an order has at most one sale invoice that is not cancelled; an issued one keeps its total and lines for good and only gains adjustments, a cancelled one never changes |
| `Invoices.InvoiceRows.Adjust` | src/modules/invoices/invoices.service.ts:165-229 | an adjustment of the live invoice per return once it is issued, its lines those of the share rule |

## Left out

- One shop: tenants, branch scopes and permissions are not modelled; every account may do everything.
- Lots, payments and returns are numbered in the order they are written instead of carrying random ids; where the source breaks a tie by such an id, the model takes the order of writing.
- Own lots of a line and rows of an unordered query are taken in table order.
- Order codes are compared as numbers, where the source compares strings in the locale's order.
- JourneyLaws.EditAccepted: an edit says of each row of an order whether it is kept, dropped or added; that a combo's rows follow their combo, and that a line the workshop was asked to make may not be dropped, is not modelled, so more edits are covered than the source accepts.
- Of a made-to-measure line only the product item it moves to is modelled, not its measurements.
- What a request reads before its transaction it reads at one moment; the source reads an order and its rows by several queries.
- A database transaction is one step: what two transactions may see of each other below that is not modelled (two inspections of one order committing side by side, for one); reads made before the transaction are.
- `updatedAt` is a version number that changes with every write; two writes in the same millisecond share it in the source.
- Clocks, codes and computed prices are parameters; pricing, promotions and shipping fees are not modelled.
- Rounding errors of floating-point sums: amounts are whole numbers of the smallest unit, where the source rounds sums back to it.
- Shipments' own rows, events and drivers: handing to a carrier and shipping keep only what they do to the order, its pack and the stock.
- Delivery, the shipper's collection and its remittance: money is followed until the goods leave.
- The production of made-to-measure goods and the receipt of production requests: lots made for a line are taken as they are.
- The reversal of a counter sale as RETURNED writes RETURN_GOOD rows on lines the returns module does not own; it is kept apart there by `counterLines`.
- Permission checks, notifications, low-stock alerts, customers, addresses, notes and labels are left out everywhere.
- The allocation of invoice numbers, the category tree, and the search and listing queries are not modelled.

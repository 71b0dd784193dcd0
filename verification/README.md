# Partivo Tickets in Dafny

A model of the ticketing backend's core, with proofs. It covers three parts of the service.

1. **The order lifecycle.** Orders, items, bills, ticket stocks, tickets and outbox messages form one database value
   (`Entities.State`). `Lifecycle` says, as functions, what each service call or message handler commits, or that it
   aborts: an error and a panic both abort. `OrderBuilding` does the same for the construction of an order's items.
   The program itself changes records step by step, with loops, guarded updates and set/increment options, so it is
   also written that way: `Updates`, `Repository`, `OrderLogic`, `BillLogic`, `TicketLogic` and `Server` are classes whose
   methods are proved to commit exactly what the functions say, and whose transactions undo what an abort left half done.
   Whatever is proved about runs of the functions therefore holds of that program (`Server.Server.Serve`).
2. **The outbox claim protocol.** `Outbox` interleaves any number of workers, document by document; `OutboxWorker` is
   the collection and the poll as the program runs them, each poll proved to be a run of the protocol.
3. **The rate limiter.** `TokenBucket` is the Redis script over exact reals; `RateLimiter` is the limiter, and the
   manager that builds it from configuration.

## How the lifecycle proof is built

- `Sums`, `ItemSums`: sums over collections and how one changed document moves them.
- `Invariants`: what every reachable database satisfies. Each clause can exempt the order a transaction is working on.
- `Recalculation`, `ItemSteps`, `BillSteps`, `MessageSteps`: each step keeps the invariant; `Evolution` puts them together
  and records how each document may change.
- `Runs`: theorems over **all** runs, whatever the callers do.
- `Coverage`, `Conservation`, `Billing`, `GuardedRuns`, `OpenOrders`, `Consistency`: theorems that the code meets only when
  callers keep a guard. Each guard is exact for what it protects: `Conservation.CancelOrderConservesIff`,
  `GuardedRuns.RejectCoversIff` and `GuardedRuns.PaymentCoversIff` for one step, `Overpayment.BillGuardIsExact` for
  everything that can follow. `Traces` gives, for each guard, a short run of the code that breaks the property without it.
- `CheckIn`: check-in calls split into their read and their conditional write, interleaved with every other step.
- `Announcements`: what the payment service is told.
- `Placement`, `Outcomes`, `Settlement`, `Ticketing`: for each step, when exactly it commits in a reachable database, and
  what it leaves behind, stated on the documents and not through the functions of `Lifecycle`: what a new order
  stores, how the ledger alone tells an order's status, what a payment result or a refund pays, which validity period a
  ticket gets.

## Guards

Three properties are what the code is meant to do, but it does them only under a condition that a caller can check.

- *Cancel guard* (`Conservation.CancelGuard`): an order is canceled only while none of its seats was canceled on its own.
  `voidUnpaidOrder` releases all items of the order, also those whose seat was given back before
  (internal/logic/orders.go:1239 and 1268). Without it a stock can sell more seats than it opened with
  (`Traces.StockOversold`).
- *Reject guard* (`Coverage.RejectGuard`): a return is rejected only when it was requested. The transition table also
  lets a paid item become fulfilled (internal/logic/orders.go:591-594). Without it an order completes without
  tickets (`Traces.CompletedWithoutTickets`).
- *Payment guard* (`Coverage.PaymentGuard`): no payment succeeds for an order that is already Paid and waits for its
  tickets. It follows from the *bill guard* (`Billing.BillGuard`): a seat is canceled on its own only while the
  reduced total still covers the paid and pending bills, or when it is the last seat of an order for which nothing was
  paid. The code lowers the total and leaves the bills alone (internal/logic/orders.go:518-537). Without it payment
  results alone can overpay the order, with it nothing can (`Overpayment.BillGuardIsExact`); an overpaid order can
  complete without tickets (`Traces.OverpaidAndTicketless`).

## What else the proofs show about the code

- An order that becomes PendingRefund never leaves that status (`Runs.RunIsLater`), and the open-orders query keeps
  reporting its event even when none of its seats is open any more (`OpenOrders.OpenOrdersExactly`).
- A generate-tickets message that is delivered again after its order was returned as a whole is never acknowledged: the
  recalculation panics and changes nothing (`Runs.GeneratedIsDone`). The consumer rejects it without requeueing
  (internal/mq/rabbitmq/consumer.go:130), so it is dropped or dead-lettered.
- The branches PartiallyPaid to Canceled, PendingRefund to Paid and PartiallyReturned to Returned of the recalculation
  are never taken (`Evolution.RecalculateEdge`).
- The duplicate-refund loop and the ticket count before generation never find anything (`Runs.DuplicateGuardNeverFires`,
  `MessageSteps.CountFindsNothing`).

## Assumptions

- Money is integers in minor units, 100 to the unit; prices are not negative. The program computes with decimals printed to
  ten significant digits (internal/helper/helper.go:61), so this is faithful below 10^10 minor units. "Partially paid" tests the
  whole-unit part of the amount (internal/logic/orders.go:699-704): an order that has paid less than one unit stays
  Unpaid.
- A new payment bill asks for a positive amount (`Lifecycle.Admissible`); the API does not check it. Refund amounts
  are only bounded by the item's price, as in the code.
- ReserveTickets decrements a stock by the item's quantity. The program negates an unsigned number there
  (internal/dao/mongodb/tickets.go:307); the intended signed decrement is modelled.
- Transactions are executed one after the other and commit all or nothing. A failed write aborts its transaction even where
  the code only logs the error: the publication of the generate-tickets task (internal/logic/orders.go:1085-1092) and the
  refund bill of an approved return (internal/logic/orders.go:541-556). That a Paid order has its message rests on
  this. Object ids are fresh; a document's
  id is its position in its collection. Messages may be delivered any number of times, in any order, once they were written.
- A ticket stores its order's serial number (internal/models/ticket.go:49), while the count before generation asks for the
  order's id (internal/dao/mongodb/tickets.go:37-38), so it never finds a ticket; `Entities.OrderKey` keeps the
  two apart. That generation still happens once rests on the order's status, as proved here.
- In the outbox a publication that reports an error was not sent. In the rate limiter one clock that never goes
  back serves the script and the expiry, and one policy serves the keys of an identifier.

## Model

| member | source | states |
|---|---|---|
| Runs.NeverOverRefunded | internal/logic/orders.go:1098-1194 | In every run, for every order past its payment: Returned <= prices of its Returned items <= Total <= Paid. |
| Runs.NothingRefundedEarly | internal/logic/bill.go:278-294 | Until an order is completed nothing of it is refunded and none of its items is Returned. |
| Runs.LedgerIsExact | internal/logic/bill.go:244-306 | In every run Paid is the sum of the Paid bills, Returned that of the Refunded ones, and paid plus pending payments never exceed the original total. |
| Runs.TotalsTrackItems | internal/logic/orders.go:515-537 | The original total stays the price of all seats; Total and Subtotal stay the price of the seats not canceled, unless the order is Canceled. |
| Runs.ReturnInProgressExactly | internal/logic/orders.go:852-955 | In every run an order is ReturnInProgress exactly while one of its items is ReturnRequested or ReturnApproved. |
| Runs.RefundBillKeepsOrders | internal/logic/orders.go:1182-1191 | The unconditional status write of CreateRefundBill never changes an order. |
| Runs.OneRefundPerItem | internal/logic/orders.go:1112-1180 | At most one bill ever names an item; the item is Returned exactly when that bill is Refunded and ReturnApproved otherwise; the order counts its Returned items. |
| Runs.DuplicateGuardNeverFires | internal/logic/orders.go:1118-1141 | CreateRefundBill commits exactly for an item whose return is requested and an amount up to its price: the duplicate loop rejects nothing. |
| Runs.RunIsLater | internal/logic/orders.go:638-978 | Over any run: order statuses only move forward through their phases, Canceled, Returned and PendingRefund are never left, settled bills and used-up tickets do not change back, messages are never lost. |
| Runs.OneGenerateMessage | internal/logic/orders.go:1058-1096 | A generate-tickets message exists exactly for the orders that reached Paid, and only one for each. |
| Runs.PaymentHandledOnce | cmd/consumer/handlers/bills.go:72-126 | After a payment result was handled, delivering any result for that bill again changes nothing, however many steps later. |
| Runs.TicketsGeneratedOnce | cmd/consumer/handlers/tickets.go:62-88 | After a delivery that left the order no longer Paid, another one changes nothing, however many steps later and whatever the event service answers. |
| Runs.GeneratedIsDone | internal/logic/orders.go:603-624 | For an order whose tickets exist a further delivery changes nothing, and is acknowledged exactly when the order was not returned as a whole. |
| Ticketing.TicketsAreUsable | internal/logic/tickets.go:79-166 | In every run the message of a Paid order whose sessions are all found commits, completes the order and gives each of its items a new, Valid, unused ticket for the item's stock and the order's serial, valid from the session's start to its end. |
| Ticketing.NewTicketAdmits | internal/logic/tickets.go:103-147 | With that ticket a check-in call passes its checks exactly while the item's session lasts. |
| Ticketing.FirstFailureDecides | internal/logic/tickets.go:86-104 | The first item whose session is not found decides: an unknown session acknowledges the message without effect, any other failure aborts it. |
| Ticketing.ExpiryIsExact | internal/dao/mongodb/tickets.go:486-503 | Expiry shuts only Valid tickets with which no check-in begun from now on could pass its checks, and every one of them that had a time of validity. |
| Runs.OneTicketPerItem | internal/logic/tickets.go:50-77 | In every run no item has two tickets, and a ticket is Invalidated exactly when its item was Returned. |
| Outcomes.LedgerTellsStatus | internal/logic/orders.go:684-760 | In every run an order is Unpaid, or Canceled, only with less than one whole unit paid; PartiallyPaid only from one unit on and not paid in full; PendingRefund only when overpaid; anything later only when paid in full. |
| Outcomes.EarlyOrderResolved | internal/logic/orders.go:655-760 | After a payment or the cancellation of a seat, an order that awaits money has the status its new ledger and its remaining seats say; a partially paid order that is now overpaid gets a refund bill of exactly the excess. |
| Outcomes.LedgerMoves | internal/logic/bill.go:275-294 | Paid, Returned and the returned-items counter of an order move by exactly the bill's amount, and by one, when the success of a pending bill of that order is delivered, and by nothing in any other step. |
| Outcomes.CancelOrderCommitsIff | internal/logic/orders.go:1212-1234 | In every run an order can be canceled exactly while it is Unpaid, and then less than one whole unit was paid for it. |
| Outcomes.CanceledOrder | internal/logic/orders.go:1237-1285 | A canceled order has no pending bill and no live seat left, every seat of it is given back, and nothing of another order changes. |
| Outcomes.CancelItemCommitsIff | internal/logic/orders.go:487-571 | In every run a seat can be canceled exactly while it is pending, unless that would leave its order exactly paid. |
| Outcomes.ItemStepMovesItem | internal/logic/orders.go:405-435 | Canceling, requesting, approving and rejecting give the one item their status and change no other item. |
| Outcomes.ApprovalBillsPrice | internal/logic/orders.go:541-556 | An approval writes one refund bill of the item's price, without item and payment method; requests and rejections write none. |
| Outcomes.CreateBillCommitsIff | internal/logic/bill.go:46-81 | In every run a bill can be created exactly for an Unpaid or PartiallyPaid order whose paid and pending payments leave room for it within the total. |
| Outcomes.CreatedBill | internal/logic/bill.go:83-126 | It is a pending payment of that amount for that order, is announced, and takes exactly its amount of the room. |
| Outcomes.CancelBillCommitsIff | internal/logic/bill.go:132-174 | In every run a bill can be canceled exactly while it is pending, unless it is a refund that names no item; only that bill changes. |
| Settlement.RefundPaysExactly | internal/logic/orders.go:1136-1155 | A refund that was ordered for an amount, delivered however much later, adds exactly that amount to what its order got back, nothing to any other order, and returns its item. |
| Settlement.RefundAsRequested | internal/logic/orders.go:1142-1191 | An ordered refund is one new pending bill with that item, that amount and that item's order, announced to be paid out; the item is approved and nothing else changes. |
| Settlement.ResultStands | internal/logic/bill.go:251-306 | A result settles its bill with the status its kind and success call for and the payment it came from, for good; a failure changes nothing else. |
| Settlement.PaymentTakenIff | cmd/consumer/handlers/bills.go:72-126 | In every run the success of a pending payment is taken exactly while its order is neither Canceled nor returned as a whole. |
| Settlement.OtherResults | cmd/consumer/handlers/bills.go:72-112 | A result for an unknown bill fails, for a settled one is skipped; a failure is always taken, the success of a refund without an item never. |
| Placement.AddOrderCommitsIff | internal/logic/orders.go:78-113 | An order is taken exactly when its request is acceptable, names the event of its stocks, and its subtotal and total are the sum of price times quantity over its lines. |
| Placement.OrderIsAsConfirmed | internal/logic/orders.go:122-200 | It stores the requested event, the session of its stocks and the confirmed totals with nothing paid, its pending seats taken from their stocks, and one announced pending bill of the whole total. |
| Placement.SeatsArePlaced | internal/logic/orders.go:258-300 | In every run a seat's stock has the event and session of the seat's order, and the seat has that session and its stock's price. |
| Announcements.BillsAnnouncedOnce | internal/logic/payment_event_publisher.go:30-57 | In every run each payment bill was announced once, each canceled bill called off once, each item refund ordered once, and nothing else. |
| Evolution.StepKeeps | internal/logic/orders.go:638-978 | Every step keeps the whole invariant and moves every document along its permitted edges. |
| Evolution.RecalculateEdge | internal/logic/orders.go:638-978 | From a sound order recalculation takes only the permitted status edges and touches no other field but the items count. |
| Recalculation.RecalculateKeeps | internal/logic/orders.go:638-978 | Recalculation restores every invariant that a transaction suspended for its order. |
| Coverage.MachineIsDeclarative | internal/logic/orders.go:852-955 | For a completed order whose counters match its items, and whose status did before they changed, recalculation commits exactly the status its items declare, and aborts only for a Returned order. |
| Consistency.RecalculationDecides | internal/logic/orders.go:558-561 | A step that reaches the recalculation aborts exactly when the recalculation does, on the database and order given. |
| Consistency.NeverInconsistent | internal/logic/orders.go:911-919 | In no run that keeps the reject and payment guards does any guarded step reach the "data inconsistency" branch. |
| Coverage.CountersReadItems | internal/logic/orders.go:889-919 | The counters say what the items say: none returned, and all returned. |
| Coverage.StepCovers | internal/logic/orders.go:825-970 | Under the reject and payment guards every step keeps: completed orders count their live seats, have the declared status, and every seat has a ticket for its stock. |
| GuardedRuns.CompletedOrdersAreExact | internal/logic/orders.go:825-851 | Over runs that keep the reject and payment guards a completed order counts its live seats, has the status its items declare, and each item has exactly one ticket, for its own stock. |
| GuardedRuns.SeatsAreConserved | internal/dao/mongodb/tickets.go:271-342 | Over guarded runs, for every stock, quantity plus held seats stays the opening quantity, so held seats never exceed it. |
| GuardedRuns.CallerGuardsSuffice | internal/logic/orders.go:518-537 | The bill guard along a run implies the payment guard; no order is overpaid or PendingRefund, and no payment is pending for a Paid order. |
| GuardedRuns.ReturnStepsCommit | internal/logic/orders.go:573-599 | In every guarded run a return can be requested exactly for a Fulfilled item, approved for a ReturnRequested one, and rejected for a ReturnRequested or Paid one. |
| GuardedRuns.RefundsCommit | cmd/consumer/handlers/bills.go:86-112 | A successful refund of an item is never turned away. |
| GuardedRuns.RejectCoversIff | internal/logic/orders.go:422-435 | A rejection keeps completed orders exact if and only if the return had been requested. |
| GuardedRuns.PaymentCoversIff | internal/logic/orders.go:825-851 | A payment keeps completed orders exact if and only if its order was not already Paid. |
| Overpayment.BillGuardIsExact | internal/logic/orders.go:518-537 | After a seat was canceled in a run that keeps the bill guard, further guarded steps can overpay its order if and only if the guard did not hold at the cancellation; and then deliveries of payment results alone can. |
| Overpayment.ExactAt | internal/logic/orders.go:518-537 | The same for every database that satisfies the invariant and whose bills are within the totals. |
| Overpayment.DeliveriesOverpay | internal/logic/orders.go:691-760 | Delivering the pending payments of an order that is billed for more than it costs overpays it: none of them is turned away. |
| Billing.LastSeatCancels | internal/logic/orders.go:658-681 | With its last seat an order for which nothing was paid is canceled, owing nothing. |
| Conservation.CancelOrderConservesIff | internal/logic/orders.go:1237-1271 | Canceling an order conserves seats if and only if none of its seats was canceled before. |
| Conservation.StepConserves | internal/logic/orders.go:515-526 | Every guarded step conserves every stock's quantity plus held seats. |
| Traces.SeatReleasedTwice | internal/logic/orders.go:1266-1271 | A concrete run without the cancel guard: both seats are canceled, and a stock that opened with five seats offers six. |
| Traces.StockOversold | internal/logic/orders.go:1266-1271 | One more order, and the stock that opened with five seats has sold six. |
| Traces.CompletedWithoutTickets | internal/logic/orders.go:591-594 | A concrete run without the reject guard: an order of two seats completes without tickets, counting one. |
| Traces.OverpaidAndTicketless | internal/logic/orders.go:527-532 | A concrete run without the bill guard: an order is overpaid and completes without tickets, counting none. |
| OpenOrders.OpenOrdersExactly | internal/dao/mongodb/orders.go:77-94 | Over runs that keep the reject and payment guards, the query is true exactly for events with an open seat, by the seat's ticket stock, an overpaid order, or an unpaid order without seats. |
| OpenOrders.QueryIsItemTruth | internal/dao/mongodb/orders.go:77-94 | Over runs that keep the reject and bill guards and ask for seats, the query is true exactly when a seat of the event, by its ticket stock, is open. |
| OrderBuilding.CountCheck | internal/logic/orders.go:222-236 | The count check passes exactly for requests of distinct stocks that are all on sale. |
| OrderBuilding.AcceptsExactly | internal/logic/orders.go:217-271 | A request is accepted exactly when its stocks are distinct, on sale, of one event and session, and each quantity is within stock and limits. |
| OrderBuilding.BuildIsExact | internal/logic/orders.go:251-313 | An accepted request is served with exactly each requested quantity of pending one-seat items at the stock's price, and the subtotal is their sum. |
| OrderBuilding.AcceptedCanReserve | internal/dao/mongodb/tickets.go:295-342 | An accepted request never fails to reserve in the same transaction. |
| OrderBuilding.QuantityOfDistinct | internal/logic/orders.go:222-227 | With distinct stocks the lookup table returns every requested quantity. |
| CheckIn.CheckedInAtMostOnce | internal/logic/tickets.go:442-494 | In every interleaving at most one call per ticket reports "checked in now", and one does exactly when the ticket was used. |
| CheckIn.UsedWithinWindow | internal/logic/tickets.go:457-461 | In every interleaving the time of use lies in the ticket's validity period. |
| CheckIn.NeverValidAgain | internal/dao/mongodb/tickets.go:457-503 | A ticket that is not Valid never becomes Valid again, and no further call reports it. |
| CheckIn.ReturnedCannotCheckIn | cmd/consumer/handlers/bills.go:105-112 | The ticket of a Returned item can no longer be checked in, not even by a call that had read it before. |
| CheckIn.CheckInSucceedsIff | internal/logic/tickets.go:463-493 | A call past its checks reports a check-in exactly when the ticket is still Valid at its write and the audit log is saved; then the ticket is Used from that time on and nothing else changes, otherwise nothing does. |
| MessageSteps.CountFindsNothing | internal/dao/mongodb/tickets.go:37-44 | The count of existing tickets by order id is always zero. |
| BillSteps.RequestedHasNoRefund | internal/logic/orders.go:1118-1133 | A requested return has never had a refund bill. |
| BillSteps.CommittedAnyIsPayment | internal/logic/bill.go:60-69 | What the overpayment guard adds up, bills of either kind, is the order's payments only. |
| Billing.PaidHasNoPending | internal/logic/bill.go:71-81 | With bounded bills an order with another pending payment is not yet paid in full. |
| Billing.StepBounded | internal/logic/bill.go:53-81 | Under the bill guard every step keeps the payment bills of an order that is not Canceled, and what was paid for one that is, within its total. |
| Updates.UpdateOptions.Apply | internal/dao/repository/options.go:56-136 | Each option writes its one entry; a later one overwrites an earlier one under the same key. |
| Updates.OptionsCommute | internal/dao/repository/options.go:36-50 | Options that write different entries may be given in either order. |
| Updates.StatusUpdates | internal/dao/mongodb/orders.go:449-483 | The status and items-count updates change those fields and no other. |
| Updates.MoneyUpdates | internal/dao/mongodb/orders.go:449-483 | The increment updates add to the named counters and change no other field. |
| Updates.TotalUpdates | internal/dao/repository/options.go:56-136 | A total can be set, but not set and incremented in one update. |
| Updates.OtherUpdates | internal/dao/repository/options.go:56-136 | The options that record who changed a document and when leave its modelled fields alone. |
| Updates.SettledUpdate | internal/dao/mongodb/bill.go:70-103 | The update of a settled bill sets its status, and the payment id only when there is one. |
| Repository.TakeOneMore | internal/dao/mongodb/tickets.go:300-319 | After a reserved prefix the next guarded decrement succeeds exactly when the longer list can be reserved, and then leaves it reserved. |
| Repository.Database.ReserveTickets | internal/dao/mongodb/tickets.go:295-342 | All decrements modify a stock if and only if every stock covers its whole demand; quantities never become negative and never grow. |
| Repository.Database.ReleaseTickets | internal/dao/mongodb/tickets.go:271-293 | Every released item gives one seat back to its stock, unknown stocks are skipped. |
| Repository.Database.UpdateOrder | internal/dao/mongodb/orders.go:449-483 | The order is patched as its options say; without options it succeeds, for a missing order or a field both set and incremented it fails. |
| Repository.Database.UpdateBill | internal/dao/mongodb/bill.go:70-103 | The bill is patched as its options say; without options it succeeds, for a missing bill or a field both set and incremented it fails. |
| Repository.Database.UpdateItemsStatusByOrder | internal/dao/mongodb/orders.go:485-511 | Exactly the order's items in the old status get the new one. |
| Repository.Database.GetValidTicketsByIDs | internal/dao/mongodb/tickets.go:234-269 | Each requested stock on sale comes back once, however often it was asked for. |
| Repository.Database.GetOrderItemsByOrderID | internal/dao/mongodb/orders.go:186-204 | The order's items in the order of the collection. |
| Repository.Database.GetBillsByOrderID | internal/dao/mongodb/bill.go:40-53 | The order's bills in the order of the collection. |
| Repository.Database.GetRefundsByOrderItemID | internal/dao/mongodb/bill.go:106-122 | The refund bills that name the item. |
| Repository.Database.GetTicketByOrderItemID | internal/dao/mongodb/tickets.go:411-422 | The first ticket of the item, or none when no ticket is for it. |
| Repository.Database.MarkTicketAsUsed | internal/dao/mongodb/tickets.go:457-483 | Succeeds exactly for a Valid ticket, which becomes Used at the given time; otherwise nothing changes. |
| Repository.Database.ExpireTickets | internal/dao/mongodb/tickets.go:486-503 | Exactly the Valid tickets whose period has ended become Expired. |
| OrderLogic.OrderLogic.ValidateAndBuildOrderItems | internal/logic/orders.go:217-313 | The lookup table, the checks and the nested loops compute exactly the specified items and subtotal, or reject. |
| OrderLogic.OrderLogic.AddOrder | internal/logic/orders.go:78-215 | Succeeds exactly when the specified step commits, and then leaves its database. |
| OrderLogic.OrderLogic.RecalculateOrderStatus | internal/logic/orders.go:638-978 | The scans and status writes compute exactly the specified recalculation, including its aborts. |
| OrderLogic.OrderLogic.UpdateOrderItemStatus | internal/logic/orders.go:487-571 | Checks, release, reduced totals, refund bill and recalculation amount to the specified item change. |
| OrderLogic.OrderLogic.MarkOrderItemsAsFulfilled | internal/logic/orders.go:603-624 | Fulfils the paid items and recalculates, as specified. |
| OrderLogic.OrderLogic.CreateRefundBill | internal/logic/orders.go:1098-1194 | Its checks, its loop over refunds and its writes amount to the specified step. |
| OrderLogic.OrderLogic.CancelOrder | internal/logic/orders.go:1212-1285 | The loop over bills, the bulk update and the release amount to the specified cancellation; one bill without a payment method aborts it. |
| BillLogic.BillLogic.CommittedAmount | internal/logic/bill.go:53-69 | The loop adds up exactly the order's paid and pending bills. |
| BillLogic.BillLogic.CreateBill | internal/logic/bill.go:39-126 | Succeeds exactly for an order open to payments and an amount within what is owed. |
| BillLogic.BillLogic.CancelBill | internal/logic/bill.go:132-174 | Cancels exactly a pending bill that can be called off. |
| BillLogic.BillLogic.ProcessPaymentUpdate | internal/logic/bill.go:244-306 | Settles a pending bill and credits its order's ledger, as specified for success and failure; a settled bill is reported as already processed, a missing bill or order as an error. |
| TicketLogic.TicketLogic.GenerateTicketsForOrder | internal/logic/tickets.go:50-166 | Writes one ticket per item, or fails permanently or transiently as the first failing session lookup says, writing nothing. |
| TicketLogic.TicketLogic.VoidTicketByOrderItem | internal/logic/tickets.go:403-437 | The item's ticket is Invalidated and its seat released; without a ticket nothing happens. |
| TicketLogic.TicketLogic.CheckInTicket | internal/logic/tickets.go:442-494 | One uninterrupted call is the read and the write of the interleaved protocol: it checks in exactly a Valid ticket within its validity period, when the audit log is saved. |
| TicketLogic.FailureStands | internal/logic/tickets.go:86-104 | The first session that cannot be looked up decides how generation fails. |
| Server.Server.HandlePaymentResult | cmd/consumer/handlers/bills.go:72-126 | The handler's sequence of calls amounts to the specified payment step. |
| Server.Server.HandleTicketGeneration | cmd/consumer/handlers/tickets.go:62-88 | Generation and fulfilment amount to the specified step; a permanent failure is acknowledged. |
| Server.Server.Transact | internal/db/mongo_transaction.go:19-35 | A call commits the specified step or leaves the database as it was. |
| Server.Server.Serve | internal/db/mongo_transaction.go:19-35 | Any sequence of calls is a run of the lifecycle and reaches only reachable databases. |
| Server.Server.IsEventHasOpenOrders | internal/dao/mongodb/orders.go:77-94 | Finds an order of the event whose status is not a closed one, if there is one. |
| Outbox.MutualExclusion | internal/dao/mongodb/outbox.go:70-98 | In every interleaving a message is in at most one worker's hands. |
| Outbox.BatchIsWhatWasTaken | internal/dao/mongodb/outbox.go:100-112 | Phase 3 fetches exactly what phase 2 took, each message once, whatever other workers did in between. |
| Outbox.PublishedAtMostOnce | internal/worker/outbox_processor.go:66-88 | No message is published twice; a Processed one was published, a Pending one was not. |
| Outbox.OnlyTheHolderChanges | internal/dao/mongodb/outbox.go:117-140 | A message changes only by being claimed while pending or in the hands of the worker that holds it. |
| Outbox.AbandonedForGood | internal/worker/outbox_processor.go:52-89 | A message that is not pending and that nobody holds never changes again: a crash leaves it in Processing for good. |
| Outbox.ProcessedForGood | internal/dao/mongodb/outbox.go:117-126 | A Processed message is never touched or published again. |
| Outbox.EventSettled | internal/dao/mongodb/outbox.go:117-140 | In every interleaving, once its update is saved, a refused event is Pending again with one more retry and an accepted one is Processed; the claim id and every other message stay. |
| Outbox.PendingCanBeSent | internal/dao/mongodb/outbox.go:38-126 | In every interleaving any idle worker can claim, publish and close any pending message, however often it was claimed and put back before. |
| Outbox.StepKeeps | internal/dao/mongodb/outbox.go:38-140 | Every step of every worker keeps claims fresh, batches disjoint and publication in agreement with status. |
| OutboxWorker.OutboxDAO.FindPending | internal/dao/mongodb/outbox.go:41-56 | Phase 1 finds the oldest pending messages, oldest first, as many as the limit allows. |
| OutboxWorker.OutboxDAO.ClaimAndFetchEvents | internal/dao/mongodb/outbox.go:38-115 | One call claims and returns exactly the oldest pending messages, and is a run of the protocol. |
| OutboxWorker.ClaimedExactly | internal/dao/mongodb/outbox.go:76-112 | What is fetched by a fresh claim id is what was claimed under it. |
| OutboxWorker.OutboxDAO.MarkAsProcessed | internal/dao/mongodb/outbox.go:117-126 | The message becomes Processed; a missing one is no error. |
| OutboxWorker.OutboxDAO.IncrementRetry | internal/dao/mongodb/outbox.go:129-140 | The message is Pending again, counts one more retry and keeps the rest, its claim id included; a missing one is no error. |
| OutboxWorker.OutboxProcessor.ProcessEvents | internal/worker/outbox_processor.go:52-89 | One poll claims the oldest pending messages; each one the broker took is queued once and, its update saved, Processed; each one it refused is Pending again with one more retry; no other message changes; the poll is a run of the protocol. |
| TokenBucket.LazyIsEager | internal/limiter/rate_limiter.go:37-64 | Skipping the write on denial and letting keys expire never changes a decision, compared with a bucket that always writes and never expires. |
| TokenBucket.ExpiryHarmlessIff | internal/limiter/rate_limiter.go:25-64 | That holds for all request sequences if and only if a key lives long enough for an empty bucket to refill. |
| TokenBucket.ShortLifeMatters | internal/limiter/rate_limiter.go:34-40 | With a shorter lifetime a client that empties the bucket twice is allowed one request too many. |
| TokenBucket.LevelIsLeastAllowance | internal/limiter/rate_limiter.go:48-56 | The bucket holds the least allowance that any window ending with the request leaves. |
| TokenBucket.DeniedIffWindowFull | internal/limiter/rate_limiter.go:58-64 | A request is denied exactly when allowing it would overfill some window that ends with it. |
| TokenBucket.WindowBound | internal/limiter/rate_limiter.go:25-65 | Among any consecutive requests at most capacity plus rate times length are allowed. |
| TokenBucket.AnyWindowBound | internal/limiter/rate_limiter.go:25-65 | The same for every window of time. |
| RateLimiter.RedisRateLimiter.Allow | internal/limiter/rate_limiter.go:78-89 | The script's decision and stored bucket for one identifier, others untouched; the decision is that of the whole request history; without an answer of Redis it is an error that changes nothing. |
| RateLimiter.CreatedIsHarmless | internal/limiter/limiter_manager.go:26-50 | A policy is created exactly for a positive limit and interval; it refills one bucket per interval, and its keys live twice the interval in the fewest whole seconds, which is long enough. |
| RateLimiter.PolicyPerMinute | internal/limiter/limiter_manager.go:41-47 | A policy per minute refills its limit in sixty seconds and keeps its keys for 120. |
| RateLimiter.AtMostTwiceTheLimit | internal/limiter/limiter_manager.go:41-47 | Over any stretch as long as its interval a policy allows at most twice its limit. |
| RateLimiter.NewManager | internal/limiter/limiter_manager.go:21-67 | A manager exists exactly when there is a configuration and all its policies can be created, and then serves every name accordingly. |
| RateLimiter.Manager.Get | internal/limiter/limiter_manager.go:71-77 | A known name gets its limiter, any other the one named "default", which a configured policy of that name overrides. |

## Left out

- Generated API code, wiring, configuration files, logging, HTTP and gRPC handlers: plumbing around the modelled calls.
- MongoDB, RabbitMQ, Redis, access control, tokens, serial numbers and the event service themselves: only atomic
  conditional updates, atomic transactions, fresh ids and redelivery are kept; a session lookup is a parameter.
- The mode without transactions (internal/db/noop_transaction.go): the invariants rest on transactions.
- Decimal and big.Float arithmetic at the bit level, and the rounding of floating point in the rate limiter: money is
  integers within the stated bound, times and tokens are exact reals.
- Editing of the ticket-type catalogue: stocks are joined with their types and the set of stocks is fixed.
- Audit logs, return reasons, users and timestamps other than sale periods, validity and use; exports, listings and pagination.
- Progress out of PendingRefund, and refunds of bills that name no item: the code has no way there
  (internal/logic/orders.go:631-633, 768-778); that a refund bill without an item never settles is kept.
- Recovery of messages left in Processing after a crash: the code has none; `Outbox.AbandonedForGood` says so.
- A publication that fails after the broker took the message: the outbox model takes a failure as not sent.
- Tickets for live items only: generation covers canceled items too (internal/logic/tickets.go:81), and so does the model.
- Unused code: the refund of whole paid orders, the status table of orders, UpdateOrderStatus.
- Server.Server.Transact: executes transactions one after the other; write conflicts and retries of the driver are not modelled.
- Repository.Database.GetBillsByOrderID: does not model the ascending sort on created_at, because bills carry no times
  here; the bills come in the order in which they were stored.
- OutboxWorker.OutboxDAO.ClaimAndFetchEvents: one call without interference, whose queries do not fail; interference
  and a call that stops halfway are in the Outbox module.
- RateLimiter.NewManager: the overflow of twice an interval beyond 146 years is not modelled.
- OutboxWorker.OutboxProcessor.ProcessEvents: one poll without interference; the interleaving is in the Outbox module.

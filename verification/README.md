# Verified model of the ticket shop's purchase engine

The shop sells tickets for products with limited stock. A purchase reserves stock for a while, turns the
reservation into an order, takes a discount code, is charged by a payment gateway and, when the gateway's
notification arrives, converts the reservation, marks the order PAID and issues a reward coupon and one ticket
per unit. Everything lives in PostgreSQL rows changed by guarded UPDATEs inside transactions at READ COMMITTED;
any number of calls, sweeps and notifications run at once. This project models that engine, the Redis queue in
front of it and the login lockout, and proves what they keep.

## How it is laid out

Three descriptions of the same calls, each tied to the next by proof:

1. `Services` gives every call and every transaction as a function from a database to a database and a reply:
   what it does when nothing runs beside it. `Stock`, `Discount` and `TicketCodes` hold its arithmetic.
2. `ShopStore.Store` is a class with the tables as mutable fields and the services as methods, statement by statement with
   rollback, loops included. Each method is proved to leave exactly the database and the reply of its function.
3. `Machine` runs the calls as concurrent sessions, one SQL statement per step: reads see committed rows plus the
   session's own writes, guarded UPDATEs re-evaluate their guard, row locks and unique-index entries are held to
   commit or rollback, and the database may abort a session at any point. `Concurrency` proves that every
   interleaving keeps the invariants (`Invariants`) and commits the state of the same transactions run one at a
   time in commit order; `Linearizable` and `FirstReads` prove how calls *answer* there, `Alone` and `SweepAlone` that
   a call nothing disturbs comes to its end and does and answers exactly what its function says.

`Replies` ties the functions of 1 to the rows: for every call the exact reason of each answer and what is then written.

The proof of 3 is rely-guarantee: `SessionState` says what a session knows at each statement, `Rely` what it may
count on from the others (rows it has locked stand still, all others only move forward as `Progress` orders them),
`Stable` that its knowledge survives their commits, `Moves` and `ConfirmMoves` that its own statements carry it on.
`Kept`, `StockKept`, `Settlement` and `ConfirmKept` prove that each transaction keeps the invariants.

The results are in `Theorems`, `Replies`, `Redelivery`, `Linearizable`, `FirstReads`, `Alone`, `SweepAlone`, `Liveness`,
`Ledger`, `RunLedger`, `Capacity`, `Pending`, `Edits`, `Expiry` and `Sweep`. `Counterexamples` holds what does not hold, with a history of transactions that breaks it,
each of them issued by a call with what that call had read (`Calls.IssuedOn`). `Queue`, `QueueRaces` and `Lockout` stand
alone. `dafny verify dfyconfig.toml` checks the project.

## Where the code and its documents part

* `docs/database.md:126` has a successful payment convert its reservation. The code converts only a reservation that
  is still ACTIVE and marks the order PAID either way (`backend/src/payments/payment.service.ts:219-231`).
  `Counterexamples.PaidNeedNotBeConverted` reaches two paid orders and two tickets for one unit of stock.
  `Theorems.FirstPaymentSettles` says exactly when an order is paid without being converted, `Theorems.TicketsAreAccounted`
  what it costs, `Theorems.TicketsFitIff` exactly when the tickets still fit the stock, and `Theorems.PaymentFitsIff`
  exactly which payment oversells: it may well be one whose reservation is ACTIVE, paid after a late one took its place.
* `docs/database.md:124` calls notifications idempotent by event id. Successes are (`Redelivery.SuccessIsIdempotent`).
  A failure is answered `processed: true` each time, and when the payment has noted another failure since, delivering
  the first one again writes its id back (`Counterexamples.RedeliveredFailureMayChange`).
  `Redelivery.FailureIsIdempotentIff` gives the exact condition.
* `backend/src/coupons/coupon.service.ts:121-149` guards the order by `discountCents: 0`, so a computed discount of 0
  leaves the order open to a second use. `Ledger.CodeUseIsExact` counts those uses exactly.
* `usedRedemptions <= maxRedemptions` fails when administration lowers a limit below the use
  (`Counterexamples.LoweringBreaksTheLimit`), and when a call that read the limit before claims after it was lowered
  (`Counterexamples.StaleLimitBreaksTheLimit`). `Capacity.LimitKeptIff` and `Capacity.LimitHoldsThroughout` say that
  nothing else breaks it, `Capacity.UseWithinPeak` what holds in every run.
* `backend/src/payments/payment.service.ts:34` promises one pending payment per order. The lookup and the insert are two
  statements (`Counterexamples.TwoPendingPayments`); `Pending.OnePendingKeptIff` gives the exact condition.

## Model

| member | source | states |
|---|---|---|
| Stock.Release | backend/src/inventory/inventory.service.ts:49-61 | releasing keeps the books balanced and is undone by reserving the same quantity again |
| Stock.Sell | backend/src/inventory/inventory.service.ts:64-76 | selling keeps the books balanced and takes nothing from what is available |
| Stock.Reconcile | backend/src/inventory/inventory.service.ts:93-103 | reconcile balances the books, and changes more than the version exactly when they were not |
| ShopStore.Store.Reserve | backend/src/inventory/inventory.service.ts:34-46 | the guarded UPDATE succeeds exactly when enough is available, and then moves available to reserved |
| ShopStore.Store.Release | backend/src/inventory/inventory.service.ts:49-61 | succeeds exactly when enough is reserved, and then moves reserved to available |
| ShopStore.Store.Sell | backend/src/inventory/inventory.service.ts:64-76 | succeeds exactly when enough is reserved, and then moves reserved to sold |
| ShopStore.Store.Restock | backend/src/inventory/inventory.service.ts:79-90 | the new units are added to the stock and to what is available, or a CHECK constraint refuses the row; answers false exactly for an unknown product |
| ShopStore.Store.Reconcile | backend/src/inventory/inventory.service.ts:93-103 | what is available becomes what is neither reserved nor sold, the other counters are trusted; on a valid store it answers exactly whether the product is known |
| ShopStore.Store.CreateReservation | backend/src/reservations/reservation.service.ts:75-94 | contents and reply are those of the specification: stock and row together, or nothing |
| ShopStore.Store.Cancel | backend/src/reservations/reservation.service.ts:97-117 | contents and reply are those of the specification, rollback included |
| ShopStore.Store.ConvertWithin | backend/src/reservations/reservation.service.ts:133-145 | inside the caller's transaction: reply of the specification, and its contents unless refused |
| ShopStore.Store.Convert | backend/src/reservations/reservation.service.ts:124-148 | contents and reply are those of the specification |
| ShopStore.Store.ExpireOne | backend/src/reservations/reservation.service.ts:168-182 | contents and reply are those of the specification, whatever the unchecked release answers |
| ShopStore.Store.FindDue | backend/src/reservations/reservation.service.ts:156-159 | the due reservations, each once, in an order that is not pinned down |
| ShopStore.Store.ExpireSweep | backend/src/reservations/reservation.service.ts:155-166 | returns the number of due reservations, expires exactly them, returns exactly their quantities to each product and leaves none due |
| ShopStore.Store.PlaceWithin | backend/src/orders/order.service.ts:55-117 | the statements of the checkout transaction: the order and key of the specification, or its error |
| ShopStore.Store.CreateOrder | backend/src/orders/order.service.ts:50-125 | a bound key is answered with the order placed under it and nothing changes, whoever asks; otherwise contents and reply are those of the specification: placement, or a refusal without trace |
| ShopStore.Store.FindByKey | backend/src/orders/order.service.ts:181-188 | on a valid store the answer is the one order placed under the key, and none exactly when no order was |
| ShopStore.Store.FindUsable | backend/src/coupons/coupon.service.ts:173-189 | an answer exactly for a known code that is active and within its dates, refused as unknown exactly when it is |
| ShopStore.Store.Apply | backend/src/coupons/coupon.service.ts:86-171 | contents and reply are those of the specification; on a valid store a grant uses the code once and takes off the order its share or its value per ticket, capped at the subtotal, and a lost order claim gives the capacity back |
| ShopStore.Store.CreateForOrder | backend/src/payments/payment.service.ts:90-154 | contents and reply are those of the specification, and the payment answered is a pending one of the order: an old one when reused, the new one when made |
| ShopStore.Store.ConfirmPayment | backend/src/payments/payment.service.ts:178-247 | refused for its amount exactly when the payment is open and a success carries another one; on a valid store confirmed exactly when the payment is open, the amount absent or right, the event new and no code taken, and a success leaves the order PAID; contents and reply are those of the specification |
| ShopStore.Store.SettleWithin | backend/src/payments/payment.service.ts:218-238 | converts if ACTIVE, marks PAID, issues coupon then tickets, as specified |
| ShopStore.Store.IssueCoupon | backend/src/coupons/coupon-reward.service.ts:23-57 | one coupon when the order's code issues them and it has none, else nothing |
| ShopStore.Store.IssueTickets | backend/src/tickets/ticket-code.service.ts:26-70 | all the order's tickets when it has none, else nothing; a taken code fails it |
| ShopStore.Store.Redeem | backend/src/coupons/coupon-reward.service.ts:91-119 | contents and reply are those of the specification, log rows included |
| ShopStore.Store.ClaimCoupon | backend/src/coupons/coupon-reward.service.ts:101-112 | flips an AVAILABLE coupon and logs it, both or neither |
| Edits.PriceBindsNextCheckout | backend/src/admin/admin.service.ts:67-81 | a checkout after a price edit charges the new price per unit, is refused when it is not positive, and changes no order placed before |
| Edits.EditBindsNextClaim | backend/src/admin/admin.service.ts:83-96 | after an edit a code is granted to an open order exactly when it is active, within the new dates and below the new limit, or the old one if omitted |
| Edits.UnknownIsLeftAlone | backend/src/admin/admin.service.ts:67-96 | an edit of an unknown product or promotion changes nothing |
| ShopStore.Store.Serve | backend/src/reservations/reservation.service.ts:75-117 | any call on a valid store does and answers as specified, leaves a valid store, and changes nothing when refused, a redemption apart |
| TicketCodes.ProductAt | backend/src/tickets/ticket-code.service.ts:39-46 | the cursor walk yields element `index` of the item list spelled out unit by unit; the fallback only past its end |
| TicketCodes.GeneratedCounts | backend/src/tickets/ticket-code.service.ts:35-67 | an order's tickets carry each product exactly as often as the order buys it |
| TicketCodes.Generated | backend/src/tickets/ticket-code.service.ts:48-67 | as many tickets as units, all of this order, exactly the first ASSIGNED |
| TicketCodes.TicketsNameTheirUnits | backend/src/tickets/ticket-code.service.ts:48-67 | the ticket of each unit names the unit's product, or none for product 0, and carries the code drawn for it |
| Discount.DiscountBounds | backend/src/coupons/coupon.service.ts:191-198 | a discount lies between 0 and the subtotal, and so does what is left to pay |
| Discount.PercentIsFloor | backend/src/coupons/coupon.service.ts:191-198 | PERCENT is the exact share rounded down to a cent, and the whole subtotal from 100 on |
| Discount.FixedIsPerTicket | backend/src/coupons/coupon.service.ts:195-197 | FIXED_AMOUNT is its value for every single ticket of the order, and the whole subtotal where that is less |
| Discount.DiscountIsPositive | backend/src/coupons/coupon.service.ts:191-198 | exactly when a code gives something, so that the `discountCents: 0` guard closes the order |
| StockKept.WonClaimMovesStock | backend/src/reservations/reservation.service.ts:111-114 | in every valid database the stock update after a won claim succeeds for cancel, expire and convert |
| StockKept.CancelUndoesCreate | backend/src/reservations/reservation.service.ts:75-117 | cancelling a new reservation restores the stock row up to its version |
| StockKept.CancelKeepsStock | backend/src/reservations/reservation.service.ts:97-117 | cancel keeps counters exact and is refused only for an unknown reservation |
| StockKept.ConvertKeepsStock | backend/src/reservations/reservation.service.ts:124-148 | convert keeps counters exact and is refused only for an unknown reservation |
| Replies.CreationAnswers | backend/src/reservations/reservation.service.ts:75-94 | the exact reason of each answer to a reservation; a success moves its units from available to reserved and inserts the ACTIVE row |
| Replies.EndingAnswers | backend/src/reservations/reservation.service.ts:97-182 | with exact counters an ACTIVE reservation is always cancelled, expired or converted and its units go back or are sold; any other is left alone |
| Replies.EndingWithoutStock | backend/src/reservations/reservation.service.ts:111-114 | without the units to move, cancel and convert are undone while an expiry stands |
| Replies.BoundKeyIsAnswered | backend/src/orders/order.service.ts:51-52 | a bound key is answered with its order, for any user, reservation and id, and nothing is written |
| Replies.CheckoutAnswers | backend/src/orders/order.service.ts:54-125 | with a new key: the exact reason of each refusal, and the one order and key written, at the price per unit times the quantity reserved |
| Replies.CodeAnswers | backend/src/coupons/coupon.service.ts:86-135 | the exact reason of each refusal of a code, when it is answered as granted before, and when it is granted |
| Replies.GrantIsExact | backend/src/coupons/coupon.service.ts:119-149 | a grant uses the code once and takes what the promotion gives off the order, and writes nothing else |
| Replies.PaymentAnswers | backend/src/payments/payment.service.ts:90-154 | the exact reason of each refusal, a waiting payment is reused, otherwise the order is charged its total |
| Replies.NotificationAnswers | backend/src/payments/payment.service.ts:178-247 | on a valid database the exact reason of each of the five answers to a notification; it gives no other |
| Replies.AcceptedIsAcceptable | backend/src/payments/payment.service.ts:190-231 | a notification is confirmed exactly when its payment is open, its amount absent or right, its event new and no code taken; a success leaves the order PAID |
| Replies.FirstSuccessWrites | backend/src/payments/payment.service.ts:199-238 | the rows the first success of an order writes: payment, order, reservation, stock, coupon, and one ticket per unit, the first for the buyer |
| Replies.RedemptionAnswers | backend/src/coupons/coupon-reward.service.ts:91-119 | a coupon is redeemed exactly while AVAILABLE and not over; every try stored leaves the log row of its outcome |
| Replies.CouponIsGoodUntil | backend/src/coupons/coupon-reward.service.ts:40-52 | a coupon not redeemed yet can be, whatever happened since its issue, exactly until its promotion's hours from the issue are over |
| Settlement.ConfirmIsRows | backend/src/payments/payment.service.ts:178-247 | a notification takes effect exactly when it is accepted, and then writes exactly the rows listed for it |
| ConfirmKept.ConfirmKeeps | backend/src/payments/payment.service.ts:178-247 | any notification, accepted or not, keeps all invariants |
| Kept.PlaceOrderKeeps | backend/src/orders/order.service.ts:55-117 | the checkout transaction, at whatever price it read, keeps all invariants |
| Kept.ClaimDiscountKeeps | backend/src/coupons/coupon.service.ts:121-149 | the discount transaction, with whatever it had read, keeps all invariants |
| Progress.EffectKeepsInv | backend/src/payments/payment.service.ts:199-246 | every transaction keeps all invariants |
| Progress.EffectIsLater | backend/src/reservations/reservation.service.ts:75-182 | every transaction moves rows forward only: ended reservations, PAID payments, keys and a granted discount are final |
| Footprints.EffectIsRows | backend/src/orders/order.service.ts:55-117 | a transaction that goes through is the merge of the rows its statements write |
| Rely.CommitIsEnv | backend/prisma/migrations/0001_init/migration.sql:344-384 | a commit leaves alone every row and unique-index entry that another session has locked |
| Stable.SessionStable | backend/src/reservations/reservation.service.ts:97-117 | what a session knows at any statement survives every commit of the others |
| ConfirmMoves.ConfirmMoveOk | backend/src/payments/payment.service.ts:178-247 | each statement of a confirmation leads to the next one's knowledge, from stale reads and its own writes |
| Concurrency.Run1Ok | backend/src/payments/payment.service.ts:199-246 | every statement of every interleaving keeps the machine's invariant and commits at most one enabled transaction |
| Concurrency.RunIsSerial | backend/src/reservations/reservation.service.ts:75-182 | the committed state of every interleaving is that of its transactions run one at a time in commit order, each of them going through |
| Concurrency.RunStaysLater | backend/src/reservations/reservation.service.ts:75-182 | along every run rows only move forward |
| Linearizable.CallsAreLinearizable | backend/src/reservations/reservation.service.ts:75-117 | a create, cancel, confirm or redeem that ends in an interleaving has done and replies exactly what it does alone on the database its last statement found |
| Linearizable.CheckoutIsPlaceOrder | backend/src/orders/order.service.ts:55-117 | every statement of the checkout transaction that ends the call ends it as the transaction on the current database, at the price it read |
| Linearizable.RecoveryFindsWinner | backend/src/orders/order.service.ts:118-125 | after a unique violation the call answers the order its key is bound to, unless the id drawn for its own order was taken |
| FirstReads.CheckoutReplays | backend/src/orders/order.service.ts:51-52 | in every interleaving a checkout whose key is bound answers that order without a write, and any other goes on to its transaction |
| FirstReads.RetryAnswersTheOrder | backend/src/orders/order.service.ts:51-52 | once a checkout has succeeded, every later call with its key, in whatever interleaving, answers the same order without a write |
| FirstReads.CheckoutReadsThePrice | backend/src/orders/order.service.ts:79-82 | in every interleaving a checkout goes by the price its product has when it reads it, and fails when there is none |
| FirstReads.CodeReadsTheDeal | backend/src/coupons/coupon.service.ts:86-122 | a code call goes by the promotion as it read it first, limit included, and by the order as it found it then |
| Linearizable.DiscountIsCurrentClaim | backend/src/coupons/coupon.service.ts:86-171 | however stale its reads, a code grants the discount the promotion now gives on the order, or leaves no trace |
| Linearizable.SweepIsExpireOne | backend/src/reservations/reservation.service.ts:168-182 | a statement of a sweep changes the database only by expiring one reservation as `expireOne` does alone, and counts exactly these; which ones it goes through is FirstReads.SweepListsTheDue |
| Linearizable.PayIsRecordPayment | backend/src/payments/payment.service.ts:139-151 | the insert of a payment ends as it does alone, at the amount that FirstReads.PayReadsTheTotal says was read |
| FirstReads.PayReadsTheTotal | backend/src/payments/payment.service.ts:94-117 | in every interleaving a payment call refuses an unknown or PAID order or takes up its total as it is, then reuses a payment exactly when one of the order waits |
| FirstReads.DiscountedIsChargedItsTotal | backend/src/payments/payment.service.ts:94-151 | in every interleaving a payment call begun after its order got a discount charges exactly what is left to pay |
| FirstReads.SweepListsTheDue | backend/src/reservations/reservation.service.ts:156-159 | in every interleaving the list of a sweep holds exactly the reservations ACTIVE and due when it is read, each once |
| FirstReads.SweepEndsAllThatWasDue | backend/src/reservations/reservation.service.ts:155-166 | whatever was ACTIVE and due when a sweep read its list is ACTIVE no more once that sweep is done, nor ever after |
| Alone.AloneIsCall | backend/src/orders/order.service.ts:50-125 | however many statements a call has run with nothing in between, it has written nothing, or it is done and has done and replied what its function says |
| Alone.AloneEnds | backend/src/payments/payment.service.ts:90-247 | any call begun while nobody holds a lock, and left alone, comes to its end and has done and replied exactly what its function says |
| SweepAlone.SweepAloneExpiresAll | backend/src/reservations/reservation.service.ts:155-182 | a sweep left alone comes to its end; it has expired exactly what was due, returned exactly their units and counted each |
| Liveness.NeverStuck | backend/src/payments/payment.service.ts:178-247 | an unfinished call always has a next statement, which waits only for a row another session holds |
| Liveness.AnyCallMayAbort | backend/src/payments/payment.service.ts:199-246 | an unfinished call may be rolled back at any statement: its writes and locks are gone, and nothing else changes |
| Liveness.EditsTakeEffect | backend/src/admin/admin.service.ts:67-96 | an administrative edit whose rows nobody has locked takes effect at once between any two statements |
| Theorems.StockIsExact | backend/src/inventory/inventory.service.ts:34-103 | in every reachable state reserved and sold are the sums over ACTIVE and CONVERTED reservations, all counters are non-negative and add up, and reconcile only bumps the version |
| Theorems.WonClaimsMoveStock | backend/src/reservations/reservation.service.ts:111-114 | under interleaving the stock statement after a won claim never fails; the errors after it are dead code |
| Theorems.OrdersAreCoupled | backend/src/orders/order.service.ts:55-117 | no two orders share a reservation, CONVERTED ones have a PAID order, PAID orders' reservations have ended, pending orders' are not CONVERTED |
| Theorems.MoneyAddsUp | backend/src/orders/order.service.ts:81-105 | subtotal is the sum of the lines, the discount lies within it, the total is the difference |
| Theorems.MoneyOnlyFalls | backend/src/coupons/coupon.service.ts:119-149 | along every run totals never rise, a granted discount never changes and a PAID order is fixed but for `paidAt` |
| Theorems.AmountsAreFair | backend/src/payments/payment.service.ts:111-151 | every payment, and every amount about to be inserted, is its order's subtotal or current total, never less than the total |
| Theorems.PaidMeansPaid | backend/src/payments/payment.service.ts:199-231 | an order is PAID exactly when one of its payments is; an event id serves one payment of a provider |
| Theorems.FirstPaymentSettles | backend/src/payments/payment.service.ts:218-238 | the first success issues the tickets and sells the stock exactly when the reservation is ACTIVE; otherwise the order is paid late |
| Theorems.LaterPaymentsChangeNothing | backend/src/payments/payment.service.ts:199-246 | a further success on a PAID order closes its payment, moves `paidAt` and changes nothing else |
| Theorems.EffectsHappenOnce | backend/src/payments/payment.service.ts:178-247 | whatever happens after an order is PAID, its tickets, reservation and PAID payments stay as they are, and it keeps its very coupon, of which only the redemption may come, and gets no other |
| Theorems.ImmediateRedeliveryChangesNothing | backend/src/payments/payment.service.ts:190-216 | a processed notification delivered again at once changes nothing and is called a replay exactly for successes |
| Redelivery.FailureChangesIff | backend/src/payments/payment.service.ts:199-207 | a failure changes the database exactly when its payment is open, its event id is on no other payment of the provider, and it is not the failure noted last; then it changes the payment row only |
| Redelivery.SuccessIsIdempotent | backend/src/payments/payment.service.ts:190-192 | in every run a success once accepted never changes anything again and is answered as a replay |
| Redelivery.FailureIsIdempotentIff | backend/src/payments/payment.service.ts:199-207 | in every run a failure once accepted, delivered again at any later point, changes the database exactly under that condition |
| Theorems.IssuingIsExclusive | backend/src/tickets/ticket-code.service.ts:27-28 | two confirmations are never both between taking an order's row and committing, so neither misses the other's tickets or coupon |
| Theorems.TicketsAreIssuedOnce | backend/src/tickets/ticket-code.service.ts:26-70 | every PAID order has exactly its tickets, every other none, and ticket codes are unique |
| Theorems.CouponsAreIssuedOnce | backend/src/coupons/coupon-reward.service.ts:23-57 | an order has a coupon exactly when it is PAID and its code's promotion issues them, and never two |
| Theorems.TicketsAreAccounted | backend/src/payments/payment.service.ts:199-246 | tickets = paid quantity = sold stock + quantity paid late; they equal sold stock exactly when nothing was paid late |
| Theorems.TicketsFitIff | backend/src/payments/payment.service.ts:219-231 | in every reachable state the tickets fit the initial stock exactly when the quantity paid late is at most what is available or reserved |
| Theorems.PaymentFitsIff | backend/src/payments/payment.service.ts:199-246 | after the first success for an order the tickets fit exactly when those issued before and the quantity of the order together do |
| Theorems.CheckoutIsIdempotent | backend/src/orders/order.service.ts:50-125 | keys and orders correspond one to one and every successful call returned the order of its key |
| Theorems.SameKeySameOrder | backend/src/orders/order.service.ts:50-125 | successful calls with one key return one order |
| Theorems.KeysNeverRebind | backend/src/orders/order.service.ts:107-114 | along every run a key stays with its order |
| Theorems.FailedCheckoutLeavesNothing | backend/src/orders/order.service.ts:55-125 | a checkout statement changes the database only when the call thereby succeeds with its own order |
| Sweep.SweepAccounts | backend/src/reservations/reservation.service.ts:155-166 | expiring a due list in any order expires exactly it and returns exactly its quantities |
| Sweep.NothingLeftDue | backend/src/reservations/reservation.service.ts:155-166 | after a sweep a second one at the same or an earlier time finds nothing, a later one only what was not due |
| Expiry.OnlyDueExpire | backend/src/reservations/reservation.service.ts:155-182 | in every run an EXPIRED reservation was due when it was released |
| Expiry.SweepLeavesNoneActive | backend/src/reservations/reservation.service.ts:160-166 | a finished sweep has left none of the list it read ACTIVE, for good; FirstReads.SweepListsTheDue says what that list holds |
| Ledger.EndingsAreCounted | backend/src/reservations/reservation.service.ts:97-182 | each EXPIRED or CANCELLED reservation was ended by exactly one transaction |
| Ledger.CodeUseIsExact | backend/src/coupons/coupon.service.ts:121-149 | `usedRedemptions` = claims = orders carrying the code + claims an order gave up again |
| Ledger.NothingDisplaced | backend/src/coupons/coupon.service.ts:137-149 | with positive discounts no order ever gives a code up |
| Ledger.RedeemedByOne | backend/src/coupons/coupon-reward.service.ts:91-119 | a coupon is redeemed by exactly one transaction, or by none |
| Ledger.AcceptedNotification | backend/src/payments/payment.service.ts:193-207 | a committed success carried its payment's amount and left it PAID with its event id |
| RunLedger.SweepsAddUp | backend/src/reservations/reservation.service.ts:155-182 | the counts of all sweeps, racing each other and cancels, add up to the reservations that are EXPIRED |
| RunLedger.RedemptionsAddUp | backend/src/coupons/coupon-reward.service.ts:91-119 | successful redeem calls = REDEEMED log rows = 1 if the coupon is REDEEMED, else 0 |
| RunLedger.AcceptedAmountsMatch | backend/src/payments/payment.service.ts:193-207 | in every run each accepted success with an amount carried exactly its payment's amount |
| RunLedger.NothingAfterSuccess | backend/src/payments/payment.service.ts:190-216 | in every run no notification is accepted for a payment after a success |
| Capacity.UseWithinPeak | backend/src/coupons/coupon.service.ts:122-135 | under every interleaving, stale limits included, a code is used at most as often as the largest limit it has had |
| Capacity.LimitKeptIff | backend/src/coupons/coupon.service.ts:122-135 | a transaction keeps `usedRedemptions <= maxRedemptions` exactly unless it is an edit below the use or a claim at a limit already used up |
| Capacity.LimitHoldsThroughout | backend/src/coupons/coupon.service.ts:122-135 | over a whole history the limit holds after every transaction exactly when none of them is such |
| Capacity.CapacityHolds | backend/src/coupons/coupon.service.ts:122-135 | for a code with a non-negative limit, if no edit lowers it, `usedRedemptions <= maxRedemptions` in every run |
| Capacity.UseIsCarriers | backend/src/coupons/coupon.service.ts:119-149 | if every discount is positive, a code is used exactly as often as there are orders carrying it |
| Counterexamples.PaidNeedNotBeConverted | backend/src/payments/payment.service.ts:219-231 | a history of enabled transactions with two paid orders and two tickets for one unit, one reservation EXPIRED |
| Counterexamples.UseMayExceedCarriers | backend/src/coupons/coupon.service.ts:137-149 | a history in which one order uses a worthless code twice |
| Counterexamples.LoweringBreaksTheLimit | backend/src/admin/admin.service.ts:83-96 | a history in which an edit leaves a code used more often than its limit |
| Counterexamples.StaleLimitBreaksTheLimit | backend/src/coupons/coupon.service.ts:122-135 | a history in which the edit stays within the use and a call that had read the old limit exceeds it |
| Counterexamples.TwoPendingPayments | backend/src/payments/payment.service.ts:111-151 | a history in which two calls that both found no pending payment leave an order with two |
| Pending.OnePendingKeptIff | backend/src/payments/payment.service.ts:111-151 | a transaction keeps an order at one pending payment exactly unless it inserts one while the order has one |
| Counterexamples.RedeliveredFailureMayChange | backend/src/payments/payment.service.ts:199-207 | a history of failure e1 and failure e2 after which e1 delivered again changes the row and is answered as processed |
| Calls.IssuedIsCall | backend/src/orders/order.service.ts:50-125 | a transaction that carries what a call reads, and goes through, does what the whole call does |
| Queue.ParsedDecimal | backend/src/queue/queue.service.ts:60 | the number read back from a member is the user who joined |
| Queue.RankFollows | backend/src/queue/queue.service.ts:39-42 | positions follow time, then string order, and no two members share one |
| Queue.ServedByTimeThenString | backend/src/queue/queue.service.ts:39-42 | of two members the earlier is served first; at equal times the one whose string is smaller at the first difference, or ends there |
| Queue.TenBeforeNine | backend/src/queue/queue.service.ts:29-34 | members are strings: of users 9 and 10 with equal times, 10 is served first |
| Queue.DrainIsByPosition | backend/src/queue/queue.service.ts:55-67 | emptying the queue serves everyone once by position: positions are a bijection onto 1..size |
| Queue.RemovalMovesUp | backend/src/queue/queue.service.ts:63-75 | a member leaving moves up exactly those behind it, by one |
| Queue.LatestIsLast | backend/src/queue/queue.service.ts:29-34 | who joins, or joins again, after everyone else is last |
| Queue.JoinOvertakesNobody | backend/src/queue/queue.service.ts:29-34 | a later join overtakes nobody who joined earlier |
| Queue.QueueService.Join | backend/src/queue/queue.service.ts:29-34 | sets the user's time and returns its position, between 1 and the size |
| Queue.QueueService.GetPosition | backend/src/queue/queue.service.ts:39-42 | 0 exactly for who is not queued; smaller exactly for who is served before |
| Queue.QueueService.Size | backend/src/queue/queue.service.ts:47-49 | the number of services it takes to empty the queue |
| Queue.QueueService.Dequeue | backend/src/queue/queue.service.ts:55-67 | undisturbed, serves the user at position 1 with its time and moves everyone else up by one |
| Queue.QueueService.Leave | backend/src/queue/queue.service.ts:72-75 | takes out the user, and says whether it was there |
| QueueRaces.ServedOncePerJoin | backend/src/queue/queue.service.ts:55-67 | however the two commands of dequeues interleave, between two services of a member it joined again |
| QueueRaces.NobodyIsLost | backend/src/queue/queue.service.ts:29-75 | without flushes: entries = services + departures + still waiting |
| QueueRaces.ReportedTimeIff | backend/src/queue/queue.service.ts:55-67 | whatever happens between the two commands, the time a dequeue reports is the one it takes out exactly when the member has not joined since at another time |
| QueueRaces.ServedIsHeadIff | backend/src/queue/queue.service.ts:55-67 | the member a dequeue saw first and serves is still first, unless it joined again, exactly when nobody in the queue has joined ahead of it since |
| QueueRaces.JoinedAtMayBeStale | backend/src/queue/queue.service.ts:55-67 | a run in which a dequeue is about to report a joining time the member no longer has |
| Lockout.FifthFailureLocks | backend/src/auth/auth.service.ts:200-213 | the failure that makes five locks the account for exactly LOCKOUT_MS from then, and none before it does |
| Lockout.User.Login | backend/src/auth/auth.service.ts:73-98 | locked out exactly before the lockout ends, welcomed exactly with a right password otherwise, which clears counter and lockout; answer and counters of the specification, the counter stays below 5 |
| Lockout.RightPasswordForgives | backend/src/auth/auth.service.ts:84-98 | after any logins a right password is welcomed unless the account is locked, and it then takes five new wrong ones to lock it |
| Lockout.GuessesAreBounded | backend/src/auth/auth.service.ts:73-98 | n wrong passwords compared over a span T from counter f: n + f <= 5 * (T / LOCKOUT_MS + 1), and the counter stays below 5 |
| Lockout.BoundIsTight | backend/src/auth/auth.service.ts:200-213 | for every number of lockouts there are guesses that reach the bound |

## Left out

- HTTP controllers, DTO validation, guards, logging and the users table: no state of the purchase. The CHECK on a reservation's quantity is modelled, so quantities below 1 are refused as the database does.
- The gateways: creating a charge returns an arbitrary transaction id or fails before anything is stored; a reused pending payment is answered without a new row.
- Random codes, UUIDs and clocks are values drawn by the call, one reading of the clock per transaction; a code already taken violates its unique index and rolls the transaction back.
- Buyer data, currency, metadata, QR images and trimming of a discount code: carried along, never looked at.
- 32-bit columns: counters and cents are unbounded integers; a value the database would reject for its width rolls back like any other abort.
- Order states other than PAYMENT_PENDING and PAID, and AUTHORIZED and REFUNDED payments: no code modelled here writes them. CANCELLED payments are kept because confirmPayment tests for them.
- Product ids start at 1, as the sequence behind them does; ticket rows write 0 as null.
- Orders without a reservation (a null `reservationId`): createOrder never makes one.
- Deadlock detection, timeouts and lost connections: any session may be aborted at any statement; sessions that wait for each other are not shown to be freed otherwise. A statement waits whenever another session holds a row it wants, also where PostgreSQL would let it pass.
- `convert` outside a confirmation is a method of the Store only; confirmPayment is its one caller, and the machine runs it there statement by statement.
- `TicketCodeService.assign` reads and writes without a guard; tickets keep the status they were issued with.
- `setBuyer`, cart, product catalogue, lists, demo service: easy maps.
- Concurrent failed logins of one user may overwrite each other's count; the lockout bound is for logins one after the other.
- Linearizable.CheckoutIsPlaceOrder: the price is the one read by an earlier statement (FirstReads.CheckoutReadsThePrice), and a loser with the winner's key and reservation is refused with Conflict (`backend/src/orders/order.service.ts:74-77`), so a checkout is not claimed to answer as the whole call does at its end.
- Linearizable.DiscountIsCurrentClaim: the limit is the one read before the transaction; activity and dates are not read again.

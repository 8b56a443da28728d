# Seats, orders and tickets: a verified model

A Dafny model of the ticketing backend's seat ledger and order-settlement protocol.

`ticket_types.quota` counts the seats that remain. Checkout takes seats and places a PENDING
order in one transaction, opens a payment outside any transaction, and then either stamps the
order with its deadline or gives the seats back. Four paths race to settle that order:
checkout's compensation, the provider's notification, the guest's refresh and the expiry
sweep. All meet at one update guarded by `status = 'PENDING'`; the winner may release the
seats, or start the fulfilment that issues tickets, mails them and lets them in at the door.

## How it is built

* **Rows and transactions.** `Schema` holds the tables. `Transactions` gives each transaction
  as a function from the rows it starts on to the rows it commits, with the schema's own
  failures (CHECK, UNIQUE, RESTRICT, column ranges).
* **The interleaved system.** `System` has every process in flight, each with its place and
  its possibly stale local snapshots. A committed transaction is one action; every read
  outside a transaction is an action of its own; a commit may be rolled back, or take effect
  and be reported as an error. A run is any sequence of actions, and a state is reachable if
  some run from an empty database leads to it.
* **The invariant.** `Invariant` states what holds of rows, history and every process;
  `LocalSteps`, `SettleSteps`, `ReserveSteps`, `RowSteps`, `TicketSteps` and `CatalogSteps`
  show that each kind of action keeps it, and `Runs` puts them together. `Guarantees` draws
  the conclusions, and `Ledger` shows that the whole system refines a ledger with no
  processes, snapshots or faults. `History` and `Additions` say what each action may add to
  the history and the tables, and `Placements`, `Winners`, `Fulfilments` and `FulfilmentFaults`
  follow single processes through runs.
* **The services.** `Storage.Store` is the mutable database: committed rows, an open
  transaction's view, and a method per SQL statement, each of which may fail. `PaymentService`,
  `OrderService`, `TicketService`, `NotificationService`, `Door` and `AdminService` are the Go
  methods over it. Each runs as a process of the interleaved system and appends to the ghost
  list `own` exactly the actions that it takes there, one at every commit and at every read
  outside a transaction; its contract says which. `Valid` relates the rows and the fulfilments
  spawned to the run so far (`trace`), so all that holds of runs holds of the services, under
  any interference and any fault. `Store.Yield` stands wherever other processes may act in
  between; its contract permits all their runs, which leave the process in its place
  (`History.OthersLeaveInPlace`). What others would answer is an input: the order numbers and
  ticket codes drawn, the gateway's session, the provider's answer, whether the PDF renders and
  what the mailer does. With nobody else at work (`alone`) and no faults (`reliable`) each method
  is moreover proved to compute a stated function of rows and inputs; `Uncontended` proves
  absorption of answers about those functions, `Sweeps` says exactly when sweeps drain, and
  `BadOrders` what they do when they do not.
* **Kernels.** `Request` (the validator with its 32-bit counters), `ClientForm` (the browser's
  refinement), `ProviderStatus`, `Charge` (money), `PublicService` (payability), `Text`.

`alloc`, `winner`, `owner` and `log` in `System.Facts` are history: seats allocated to each
type, who settled an order, which process fulfils it, and what an observer would have noted.

## What the code does that its comments do not say

* A notification that maps to PAID pays a PENDING order however late it comes
  (`Guarantees.LateAnswerStillPays`).
* A payment whose commit is reported as an error, though it took effect, never gets tickets:
  nothing later starts its fulfilment (`Guarantees.NeverFulfilled`), and
  `Fulfilments.PaidWithoutFulfilment` is a run that ends so. A PAID order has a fulfilment if
  and only if the commit that paid it was reported as successful
  (`Fulfilments.FulfilledIffReported`), and that fulfilment fails if and only if a move of its
  own goes wrong (`FulfilmentFaults.FailsIffFault`, `FulfilmentFaults.PaidIsDelivered`).
* `HandleNotification` reports more than a refused signature as an error: failed reads and
  commits, and, with no fault at all, a cancelling or expiring answer about a PENDING order
  whose seats do not fit their quota column, and no other (`PaymentService.HandleNotification`).
  Until something else changes the rows, each retry is refused in the same way and leaves one
  more audit row (`Uncontended.RetriesAreRefused`).
* Issuing is idempotent only because fulfilment starts at most once: the transaction itself
  would issue a second set (`Transactions.InsertTicketsIff`).
* The retry loop of `createOneTicket` never makes a second attempt.
* The charged lines fall short of the gross amount by the dropped cents
  (`Charge.CreateTransaction`); they sum to it exactly when fewer than 100 cents are dropped.
* `TotalQuantity` may wrap around; the validator is exact all the same
  (`Request.TotalMayWrap`, `Request.Validate`). Its last loop never finds anything.
* The browser accepts repeated ticket-type lines, and then an attendee of a type that nobody
  ordered (`ClientForm.RepeatedLineDiffers`); the server refuses the repeated line. The browser
  counts by the text of an id, so two spellings of one id are two types to it alone
  (`ClientForm.TwoSpellingsDiffer`). On distinct lines nothing else separates
  the two sides' counts (`ClientForm.FormMatchesIff`).
* A release can fail after an absolute quota edit (`Guarantees.ReleaseIff`,
  `Guarantees.ReleaseMayFail`), and such an order stays due (`Sweeps.StuckOrderStaysDue`). That
  one bad order must not strand the rest holds as long as fewer than a hundred due orders are
  bad, that is, have seats of a type whose remaining quota and due seats do not fit the column:
  every other due order is then expired, after at most as many sweeps as orders are due
  (`BadOrders.BadOrdersStrandNone`, `BadOrders.SweepsPassOverBad`). A hundred orders that do
  not fit and are older than all other due ones fill every batch, and no sweep ever expires
  anything again (`Sweeps.SweepsBlocked`); one quota edit can bring that about
  (`BadOrders.EditBlocks`). The bound is exact (`BadOrders.CrowdStrandsIff`). With no bad order
  at all sweeps drain every due order, and only then (`Sweeps.SweepsDrainIff`,
  `BadOrders.NoneBadIff`).
* A PENDING order whose second transaction failed has no deadline, and no sweep ever finds it
  (`Sweeps.Residue`, `PublicService.ShownOrDue`).
* The derived sold count is summed over all items, so a release is never taken off it
  (`AdminService.SoldCountsReleases`).
* A code may be spelled with the long s for an S (`Door.NormalizesIff`).

## Model

| member | source | states |
|---|---|---|
| Guarantees.SeatConservation | backend/internal/event/eventsql/event.sql.go:16-20 | In every reachable state, remaining quota plus the seats of PENDING and PAID orders is the type's allocation, which `History.AllocationOf` pins down action by action |
| History.AllocationOf | backend/internal/event/admin_service.go:169-230 | Whatever the action, a type that exists after it has an allocation: a created type its quota, an edited one exactly as much more or less as the edit adds to or takes from the remaining quota, and any other the one it had |
| History.AllocationKept | backend/internal/order/service.go:69-122 | No action but creating, editing or deleting a type or event changes any allocation |
| Guarantees.NoOverselling | backend/internal/order/service.go:141-218 | In every reachable state, tickets ever issued for a type plus its remaining quota never exceed its allocation, and admissions never exceed tickets |
| Guarantees.SeatsStand | backend/internal/event/eventsql/event.sql.go:16-20 | Over any run with no catalog action on a type, its remaining quota and held seats keep their sum, and the tickets ever issued for it plus the remaining quota stay within what that sum was at the start |
| Guarantees.NeverMoreThanCreated | backend/internal/event/admin_service.go:169-200 | A type created with n seats and not edited since never has more than n tickets and remaining seats together, in any continuation |
| Guarantees.SettledAtMostOnce | backend/internal/order/ordersql/order.sql.go:520-524 | Over any run, each order is settled once if it is not PENDING and never otherwise, and released once exactly if it was settled other than PAID |
| Guarantees.SettledForGood | backend/internal/payment/service.go:362-385 | Whatever actions follow, a settled order keeps its status and items and is not settled again |
| Guarantees.ReleaseIff | backend/internal/payment/service.go:372-381 | Releasing a PENDING order succeeds exactly when no quota would leave its column; a missing ticket type is never the reason |
| Guarantees.ReleaseFits | backend/internal/payment/service.go:372-381 | While no allocation exceeds a 32-bit integer, releasing a PENDING order always succeeds |
| Guarantees.ReleaseMayFail | backend/internal/event/admin_service.go:202-230 | After an edit sets the quota to its maximum, releasing an order with seats of the type fails |
| Guarantees.RestorersAgree | backend/internal/order/service.go:222-239 | What checkout remembers of its reservation equals the order's item rows whenever it comes to compensate, so both restorers return the same seats |
| Guarantees.ReservationIsExact | backend/internal/order/service.go:141-218 | A reservation takes from each ordered type exactly its quantity and from no other, and adds one PENDING order at current prices with the request's attendees and no ticket |
| Guarantees.RestoringUndoesReserving | backend/internal/order/service.go:222-239 | Restoring the reserved lines is the inverse of reserving them |
| Guarantees.CompensationIsExact | backend/internal/order/service.go:222-239 | A compensation that nothing comes between succeeds and leaves every quota as it was before checkout |
| Guarantees.OneTicketPerAttendee | backend/internal/ticket/service.go:71-108 | In every reachable state no two tickets have the same attendee or the same code |
| Guarantees.AllOrNoTickets | backend/internal/ticket/service.go:71-108 | If an order has any ticket then it is PAID and each of its attendees has one |
| Guarantees.FulfilledAtMostOnce | backend/internal/payment/service.go:212-227 | Fulfilment starts at most once for an order, and only for a PAID one |
| Guarantees.PaymentStartsFulfilment | backend/internal/payment/service.go:206-229 | A settling commit that pays starts fulfilment exactly when the commit is reported as successful |
| History.OwnersAndWinners | backend/internal/payment/service.go:362-385 | Winners change exactly by settling a PENDING order, for the process that settles it; owners change exactly when that settling is PAID and starts fulfilment |
| History.StartsAreLogged | backend/internal/payment/service.go:206-229 | An action adds one start of fulfilment to the count of the order it pays by a reported commit, and nothing to any other |
| Fulfilments.FulfilledIffReported | backend/internal/payment/service.go:206-229 | Over any run, one settling action has paid a PAID order, and the order has a fulfilment process if and only if that commit was reported as successful |
| Fulfilments.PaidIsStarted | backend/internal/payment/service.go:212-227 | In every run with no settling commit that takes effect and is reported as an error, each PAID order has a fulfilment process, started exactly once |
| FulfilmentFaults.FailsIffFault | backend/internal/payment/service.go:389-418 | Over any run, a fulfilment that has ended has ended with an error if and only if a move of its own went wrong: it was stopped or a read of its failed, its issuing was rolled back or drew colliding codes, or its email was not delivered or reported as failed |
| FulfilmentFaults.PaidIsDelivered | backend/internal/payment/service.go:389-418 | In every run with no settling commit that takes effect and is reported as an error, each PAID order has a fulfilment, and once that has ended without such a fault the order has one ticket per attendee and an email with all of them was delivered |
| FulfilmentFaults.ReachableAttended | backend/internal/order/dto.go:186-210 | In every reachable state each order has an attendee, so a fulfilment never finds nobody to issue to |
| Fulfilments.PaidWithoutFulfilment | backend/internal/payment/service.go:212-227 | A concrete run, of a checkout and a notification whose commit is reported as an error, ends with a PAID order that never gets an owner or a ticket in any continuation |
| Guarantees.NeverFulfilled | backend/internal/payment/service.go:185-190 | A settled order without a fulfilment process never gets one, nor a ticket, in any continuation |
| Guarantees.EmailsAgree | backend/internal/notification/service.go:61-111 | All emails ever delivered for an order carry the same non-empty list: the codes of its tickets, one per attendee |
| Guarantees.SentMeansDelivered | backend/internal/notification/service.go:86-106 | An order marked email_sent is PAID and fully issued, and an email with exactly its codes was delivered |
| Guarantees.AdmittedAtMostOnce | backend/internal/ticket/ticketsql/ticket.sql.go:197-201 | Over any run a code is admitted once if its ticket is USED and never otherwise, and a code that can still be admitted never was |
| Guarantees.PaidIsRecorded | backend/internal/payment/service.go:172-183 | Every PAID order has a payments row whose answer maps to PAID |
| Guarantees.ReferencesIntact | backend/migrations/000001_init.up.sql:65-92 | In every reachable state all foreign keys hold, whatever was deleted |
| Guarantees.ChangedIsTruthful | backend/internal/payment/service.go:283-328 | A refresh that reports a change reports the final status which it wrote itself and which the order keeps in every continuation |
| Guarantees.ChangedAtMostOnce | backend/internal/payment/service.go:283-328 | Two refreshes that report a change of one order are the same refresh |
| Guarantees.DueRefreshNeverPays | backend/internal/payment/service.go:296-302 | When a refresh that found its order due comes to settle it with the answer it fetched, the order is already settled, and nothing changes |
| Winners.DueRefreshNeverWinsPaid | backend/internal/payment/service.go:296-302 | A refresh whose deadline check finds the order due is, in every continuation, the winner of no order that is not EXPIRED, whatever the provider answers |
| Guarantees.LateAnswerStillPays | backend/internal/payment/service.go:158-229 | An answer that maps to PAID pays a PENDING order, and no deadline is looked at |
| Runs.NextKeeps | backend/internal/payment/service.go:340-385 | Every action of every process keeps the invariant and takes back nothing that was settled, issued, admitted or recorded |
| Runs.RunKeeps | backend/internal/payment/service.go:158-229 | So does every finite run, from any state in which the invariant holds |
| Runs.ReachableInv | backend/internal/order/service.go:69-122 | The invariant holds in every state of every run from an empty database |
| Ledger.EveryActionSimulates | backend/internal/payment/service.go:362-385 | Each action is for the ledger a stutter or its own kind of step: reserving books, settling sells or returns the process's order, compensating returns it, creating and editing a type set that type's free seats alone, and deletions withdraw exactly their types, which nobody ever booked |
| Ledger.EveryRunRefines | backend/internal/order/service.go:69-122 | Every run of the system is, state by state, a run of the ledger |
| Uncontended.AnswersAbsorbed | backend/internal/payment/service.go:158-229 | Of any sequence of answers about a PENDING order only the first effective one decides status, quotas and fulfilment; all others add one audit row each |
| Uncontended.NotifyPending | backend/internal/payment/service.go:158-229 | An answer settles a PENDING order exactly when it maps to a status and its release, if any, fits; otherwise only the audit row is added |
| Uncontended.AnswerMeans | backend/internal/payment/status.go:42-75 | A PENDING order becomes PAID, and its fulfilment starts, exactly if the texts say that money was received; CANCELLED or EXPIRED exactly if they say so and its seats fit |
| Uncontended.DecidedMeans | backend/internal/payment/service.go:158-229 | The same for an answer that is given with its order, as a refresh does; it is recorded in any case, and the order changes exactly if it leaves PENDING |
| Uncontended.RetriesAreRefused | backend/internal/payment/service.go:122-149 | An answer that gives up seats which do not fit is refused again however often it is sent, and leaves one more audit row each time and nothing else |
| Sweeps.TurnsEffect | backend/internal/payment/service.go:340-357 | After any turns each order is as it was, except that the PENDING ones whose seats fitted at a turn of theirs are EXPIRED |
| Sweeps.SweepExpiresOldest | backend/internal/payment/service.go:231-265 | A sweep takes min(100, n) of n due orders, none later than a due order left out, expires exactly those whose seats fit at their turn and touches no other; each type's remaining quota and due seats keep their sum; if those sums fit the column it expires all it takes |
| Sweeps.SweepsDrain | backend/internal/payment/service.go:231-265 | With no bad order, that is, if remaining quota and due seats fit the column for each type, k sweeps leave exactly max(0, n - 100k) of n orders due, and change only orders that were due |
| BadOrders.GoodDrain | backend/internal/payment/service.go:231-265 | With b bad orders due, b less than 100, k sweeps leave at most max(0, g - (100 - b)k) of g other orders due; nothing becomes due or bad |
| BadOrders.BadOrdersStrandNone | backend/internal/payment/service.go:251-263 | With b bad orders due, b less than 100, enough sweeps, at the latest after g/(100 - b), expire every other due order, whatever else is in the tables |
| BadOrders.SweepsPassOverBad | backend/internal/payment/service.go:251-263 | With fewer than 100 bad orders due, at most bad orders remain due after as many sweeps as orders are due |
| BadOrders.NoneBadIff | backend/internal/payment/service.go:231-265 | No due order is bad if and only if remaining quota and due seats fit the column for each type |
| BadOrders.EditBlocks | backend/internal/event/admin_service.go:202-230 | An edit of a type's quota to its maximum lets any 100 due orders with seats of the type, older than all other due ones, block every sweep |
| BadOrders.CrowdStrandsIff | backend/internal/payment/service.go:231-265 | On concrete tables with n bad orders and a later one that fits, that one stays due for ever if and only if n is at least 100 |
| Sweeps.SweepsDrainIff | backend/internal/payment/service.go:231-265 | On any tables, ceil(n / 100) or more sweeps leave no order due if and only if remaining quota and due seats fit the column for each type |
| Sweeps.CanDrainIff | backend/internal/payment/service.go:231-265 | Some number of sweeps leaves no order due under exactly that condition |
| Sweeps.SweepsExist | backend/internal/order/ordersql/order.sql.go:413-421 | From any tables there are runs of any number of sweeps, each with a batch that the query may return |
| Sweeps.Residue | backend/internal/order/ordersql/order.sql.go:413-421 | After any number of sweeps on any tables, an order holds seats exactly if it is PAID, or PENDING and not yet due or without a deadline, or was due and had no turn at which its seats fitted; the served ones are EXPIRED and nothing else changed |
| Sweeps.StuckOrderStaysDue | backend/internal/payment/service.go:251-263 | A due order stays due after its turn exactly when its release does not fit, and then nothing changes |
| Sweeps.SweepsBlocked | backend/internal/payment/service.go:244-265 | Where at least 100 due orders do not fit and are older than every other due order, no number of sweeps changes any row |
| Transactions.FindByNumber | backend/internal/order/ordersql/order.sql.go:159-165 | Finds a row with the number if and only if there is one |
| Transactions.ReserveLinesEffect | backend/internal/order/service.go:160-190 | Each quota is lowered by exactly the quantity of its lines and stays in range; each line is its item at the type's price, on sale |
| Transactions.ReserveLinesIff | backend/internal/order/service.go:160-190 | Reserving succeeds exactly when every type exists, is on sale and covers its quantity |
| Transactions.ExactCounts | backend/internal/order/dto.go:186-210 | For an accepted request each type has as many attendees as reserved seats |
| Transactions.RestoreEffect | backend/internal/event/eventsql/event.sql.go:553-558 | Restoring raises each quota by exactly the quantity of its lines |
| Transactions.RestoreIff | backend/internal/event/repository.go:182-194 | Restoring succeeds exactly when every type exists and no sum leaves the column |
| Transactions.RestoreIgnoresOrder | backend/internal/order/ordersql/order.sql.go:310-314 | The order in which line items are returned does not matter to a release |
| Transactions.InsertTicketsEffect | backend/internal/ticket/service.go:85-93 | Issuing appends one ACTIVE ticket per attendee, in order, and keeps codes distinct |
| Transactions.InsertTicketsIff | backend/internal/ticket/ticketsql/ticket.sql.go:26-30 | Issuing succeeds exactly when the codes are new and differ, so existing tickets of the order do not prevent a second set |
| ProviderStatus.MapProviderStatus | backend/internal/payment/status.go:42-75 | An outcome restores quota exactly when it cancels or expires, is never PENDING, and is handled whenever it has a status |
| ProviderStatus.Meanings | backend/internal/payment/status.go:42-75 | Money received, an order given up and a deadline passed exclude one another and decide the status both ways; seats are released exactly by the last two, and without any of the three the order is left alone |
| ProviderStatus.SpellingIsIrrelevant | backend/internal/payment/status.go:77-79 | Case and surrounding white space of a provider's texts never change the outcome |
| Request.TotalQuantity | backend/internal/order/dto.go:134-140 | The running 32-bit sum is the exact sum wrapped once |
| Request.CheckItems | backend/internal/order/dto.go:162-176 | The per-line loop passes exactly for distinct, non-nil types with positive quantities, and its map then holds each line's quantity |
| Request.CountAttendees | backend/internal/order/dto.go:192-195 | For fewer than 2^31 attendees the map counts each type exactly |
| Request.CompareCounts | backend/internal/order/dto.go:196-209 | The two loops pass exactly when each ordered type has its quantity of attendees and nobody has another type; only the first can fail |
| Request.Validate | backend/internal/order/dto.go:145-213 | Accepts exactly the well-formed requests with exact per-type counts and fewer than 2^31 attendees, although the total may wrap; never reports an unordered type |
| Request.NoRoomForOthers | backend/internal/order/dto.go:204-209 | Matching counts and a matching wrapped total already exclude unordered types |
| Request.TotalMayWrap | backend/internal/order/dto.go:134-140 | The total of some positive, distinct lines is wrong after wrap-around |
| ClientForm.Refine | frontend/lib/schemas.ts:43-72 | The refinement passes exactly when the total and each line's count, by the text of its id, match, and reports a wrong total first |
| ClientForm.FormIsExact | frontend/lib/schemas.ts:43-72 | On distinct lines the browser's two count checks are equivalent to the server's three, which also look for unordered types |
| ClientForm.FormMatchesIff | frontend/lib/schemas.ts:43-72 | On distinct lines the form's counts by text match if and only if the server's counts by id are exact and no id is spelled in two ways |
| ClientForm.ServerAcceptsIff | backend/internal/order/dto.go:145-213 | What is sent is accepted by the server and spells no id in two ways if and only if the server accepts the free texts, the form's counts match, quantities are positive, and lines are distinct, not nil, and of fewer than 2^31 attendees |
| ClientForm.FormsAgree | frontend/lib/schemas.ts:35-72 | A form is accepted by the browser with texts the server accepts, distinct, non-nil lines and fewer than 2^31 attendees if and only if it is accepted by the server with texts the browser accepts and spells no id in two ways |
| ClientForm.RepeatedLineDiffers | frontend/lib/schemas.ts:61-71 | On a repeated line the browser's counts let through an attendee of an unordered type |
| ClientForm.TwoSpellingsDiffer | frontend/lib/schemas.ts:56-65 | A form that spells one id in two ways fails the browser's counts and passes the server's |
| Charge.CreateTransaction | backend/internal/payment/midtrans.go:148-166 | Gross minus the sum of the truncated lines is the dropped cents in whole rupiah: at least zero, at most 99 cents a ticket, and zero exactly when fewer than 100 cents are dropped |
| Charge.AmountSplits | backend/internal/payment/midtrans.go:389-391 | The exact total is the truncated lines in cents plus the dropped cents, which are at most 99 a ticket |
| Charge.WholePricesDropNothing | backend/internal/payment/midtrans.go:149-150 | Whole-rupiah prices drop nothing |
| Charge.LinesMayFallShort | backend/internal/payment/midtrans.go:149-150 | Two tickets at half a rupiah cost one rupiah in all and nothing by line |
| Charge.PublicItems | backend/internal/order/public_service.go:179-192 | Each line is shown with its own subtotal, and the subtotals sum to the amount of the lines |
| Charge.TotalIsDisplayed | backend/internal/order/service.go:178-186 | In every reachable state the stored total is the sum of the displayed subtotals |
| PublicService.InstructionIff | backend/internal/order/public_service.go:114-137 | An instruction with an amount and a deadline is shown exactly for a PENDING order with a payload, that total and that deadline, still to come |
| PublicService.PayloadIff | backend/internal/order/public_service.go:85-102 | The payload served is the order's own, exactly while its instruction is shown |
| PublicService.ShownOrDue | backend/internal/order/public_service.go:114-137 | A PENDING order with a recorded code and deadline either shows its code or is found by the sweep, never both; without a deadline it is neither |
| PublicService.OpenedShownOrDue | backend/internal/order/service.go:69-122 | The order that a checkout opened with a payload and a deadline shows its total and exactly that payload until the deadline, and from then on is due for the sweep |
| PublicService.SettledShowsNoCode | backend/internal/order/public_service.go:92-105 | Once settled, an order never shows an instruction or a code again in any continuation |
| Door.NormalizesIff | backend/internal/ticket/normalize.go:29-31 | An input normalizes to a code exactly if it is that code, character by character in any case, within white space |
| Door.TicketsJoin | backend/internal/ticket/ticketsql/ticket.sql.go:63-71 | With references intact the four-table lookup finds what the one-table lookup finds |
| Door.Validate | backend/internal/ticket/service.go:137-172 | Changes nothing, and says Valid exactly when the guarded update would admit the code and AlreadyUsed exactly when its ticket is USED, for every spelling |
| Door.MarkUsed | backend/internal/ticket/service.go:179-201 | Success means that the ticket is now USED and was admitted exactly once in the run; uncontended and without faults, entry for an ACTIVE ticket, not found for an unknown code, and otherwise a conflict with the ticket's own status |
| AdminService.DeleteEvent | backend/internal/event/admin_service.go:82-118 | The event goes with all its ticket types and nothing else, or nothing goes; without faults refused exactly while an item or attendee refers to one of them, and deleted exactly if it exists and none does |
| AdminService.DeleteTicketType | backend/internal/event/admin_service.go:234-261 | The type goes, alone, exactly if it exists and nothing refers to it; otherwise nothing changes |
| AdminService.UpdateTicketType | backend/internal/event/admin_service.go:206-230 | Invalid exactly for a refused request, zero times among them; otherwise one edit or nothing; without faults it succeeds exactly for a type that exists and a price that fits, and its row then has the request's price, quota and sale window and its old event |
| AdminService.SoldCountsReleases | backend/internal/order/ordersql/order.sql.go:486-491 | In every reachable state the sold count exceeds allocation minus remaining quota by exactly the seats given back, so they agree exactly when nothing of the type was given back |
| AdminService.SoldIsPlaced | backend/internal/order/ordersql/order.sql.go:486-491 | The sum over item rows is the sum over orders of their seats |
| AdminService.SoldCountByTicketType | backend/internal/order/repository.go:373-387 | A type without an entry has sold nothing, and any other has its exact sum |
| AdminService.WithSoldCounts | backend/internal/event/admin_service.go:265-289 | Each view is its row, in order, with that type's sold count |
| OrderService.DeductLine | backend/internal/order/service.go:160-190 | One line is deducted as the reservation says, or fails with its error and changes nothing that commits |
| OrderService.DeductLines | backend/internal/order/service.go:160-190 | The loop's quotas, reserved lines and total are those of the reservation; its error is the first failing line's |
| OrderService.InsertItems | backend/internal/order/service.go:203-207 | Exactly one row per reserved line is appended, in order |
| OrderService.InsertAttendees | backend/internal/order/service.go:209-213 | Exactly one row per attendee is appended, in order, and the loop fails by itself only for a type that does not exist |
| OrderService.ReserveBody | backend/internal/order/service.go:155-215 | The body of the first transaction computes the reservation, and fails by itself exactly with its error |
| OrderService.ReserveTxIff | backend/internal/order/service.go:141-218 | An accepted request is reserved exactly if every line is known, on sale and covered, the total at current prices fits its column, and the number is new |
| OrderService.RefusalHasReason | backend/internal/order/service.go:141-218 | Whatever the error, a refused reservation has a line that is not covered, a total that does not fit, or a number that is taken |
| OrderService.ReserveOnce | backend/internal/order/service.go:141-218 | One attempt is one reservation action with the number drawn or, without a number, none; success is, under any interference, exactly one reservation under that number on the rows of that moment; uncontended, an error that is the rows' own leaves them alone and is the one the reservation gives on them |
| OrderService.Reserve | backend/internal/order/service.go:125-139 | Under any interference, its attempts draw one number after the other and end with the first that is not taken, at the latest after five, and place exactly one order if it succeeds, under the last number drawn, and at most one otherwise; uncontended and without faults it places the order under the first new one of five numbers exactly if the request is covered and its total fits, and answers that the number is taken exactly if only the numbers stand in the way |
| Placements.OneOrderEach | backend/internal/order/service.go:125-139 | Over any run from any state each process places at most one order, and the orders added are as many as the processes that placed one |
| Placements.OrdersAdded | backend/internal/order/service.go:189-213 | A reservation that takes effect adds one order, and no other action adds an order or an attendee |
| OrderService.Compensate | backend/internal/order/service.go:222-246 | Cancels and gives back the remembered lines in one guarded transaction, or does nothing |
| OrderService.Stamp | backend/internal/order/service.go:88-98 | Without an error the order's row holds the payload, or none for an empty one, and the deadline, under any interference, and uncontended nothing else has changed; without faults it fails exactly for a missing order |
| OrderService.Checkout | backend/internal/order/service.go:69-122 | Refuses exactly the requests the validator refuses, before any action; under any interference places one order, or at most one unreported if it was not reserved, and an opened order stands with the number and total answered and the session's payload and deadline; without faults or contention it reserves nothing, opens one order with exactly the gateway's session, or leaves one cancelled order and every quota as it was |
| OrderService.AnswerDecided | backend/internal/order/service.go:69-122 | Which of the three it is follows from the inputs: not reserved exactly if the request is not affordable or all five numbers are taken, cancelled exactly if reservable and the gateway opens no session, opened exactly if reservable and it does |
| OrderService.PayOrCancel | backend/internal/order/service.go:80-122 | Cancelled, with its own lines returned, exactly if the gateway opened no session; otherwise stamped with exactly that session, or the stamp fails; no other action is taken |
| PaymentService.MoveAndRelease | backend/internal/payment/service.go:365-382 | The transaction's body is the guarded update with the release of the order's own lines, or fails exactly when that does |
| PaymentService.ApplyOutcome | backend/internal/payment/service.go:362-385 | Under any interference and fault, one settling action after at most one read of the lines, and nothing else; a fulfilment is then owed exactly if an answer paid by a reported commit; uncontended, exactly the guarded transition with its release |
| PaymentService.ExpireIfDue | backend/internal/payment/service.go:340-357 | One deadline check, and a settling transaction exactly if it finds the order due; uncontended, expires exactly those still PENDING whose seats fit |
| PaymentService.CreatePayment | backend/internal/payment/service.go:172-183 | The audit row is committed before anything is decided, and an error ends the call |
| PaymentService.FulfillAsync | backend/internal/payment/service.go:389-393 | Called only for the fulfilment that the run has just started, and spawns that one once |
| PaymentService.ApplyProviderResult | backend/internal/payment/service.go:158-229 | Under any interference and fault: its own actions are recording, then deciding, then at most one settlement, and no other, and every fulfilment the run starts is spawned exactly once; uncontended, rows, change and fulfilment are those of the answer's decision, and it errs if and only if a release that the answer asks for does not fit |
| PaymentService.HandleNotification | backend/internal/payment/service.go:129-149 | A refused signature takes no action; a verified answer takes its start, the lookup and those of the answer, and ends; uncontended, with exactly the effect the absorption theorem is about, and with an error if and only if the order is PENDING and the answer gives up seats that do not fit |
| PaymentService.RefreshStatus | backend/internal/payment/service.go:283-328 | Takes only its own process's actions; a claimed change is this call's own and the order has the status reported; uncontended, a settled order is answered at once, an overdue one is expired if its seats fit and an error otherwise, and any other has exactly the provider's answer recorded and applied, with its fulfilment if that pays, or an error if the provider gives none or its answer gives up seats that do not fit |
| PaymentService.RefreshPays | backend/internal/payment/service.go:306-328 | In particular a provider that says money was received makes a PENDING order that is not overdue PAID, recorded, and answered as PAID and changed by this call |
| PaymentService.ExpireDueOrders | backend/internal/payment/service.go:244-265 | Takes one batch of the expiry query, each order through the guarded transaction; uncontended, the batch has min(100, n) of n due orders, the rows are those of its turns and the count is exactly how many orders are no longer due, which is the whole batch if the due seats fit |
| PaymentService.Fulfill | backend/internal/payment/service.go:389-418 | Without an error an email with the order's complete ticket list is out; uncontended and without faults it fails exactly if the codes drawn collide, the PDF does not render or the mailer does not accept, issues every ticket unless the codes collide, and marks the order if it succeeds |
| TicketService.CreateOneTicket | backend/internal/ticket/service.go:110-130 | One insert with the code drawn, which is new; an error at once if that is taken, and without faults only then or for an order or attendee that does not exist |
| TicketService.IssueBody | backend/internal/ticket/service.go:85-93 | The loop issues one ticket per attendee with the codes drawn, in order, or fails; without faults exactly when the transaction with these codes does |
| Transactions.IssueTxIff | backend/internal/ticket/service.go:85-93 | Issuing fails exactly for an order or attendee that does not exist, or for codes that are taken or repeat |
| Transactions.StampStores | backend/internal/order/repository.go:155-187 | A stamp fails exactly for a missing order; otherwise the order's row holds the payload, or none for an empty one, and the deadline, and every other field and row is as before |
| Transactions.MarkSentMarks | backend/internal/notification/service.go:99-106 | Marking sets the order's flag and nothing else, and fails exactly for a missing order |
| Transactions.AdmitEffect | backend/internal/ticket/ticketsql/ticket.sql.go:197-201 | The update matches exactly if the code's ticket is ACTIVE, turns that one USED, and leaves every other ticket as it was |
| Transactions.DeleteTypeIff | backend/internal/event/admin_service.go:234-261 | A type is deleted, alone, exactly if it exists and no item or attendee refers to it |
| Transactions.DeleteEventIff | backend/internal/event/admin_service.go:82-118 | An event is deleted, with its types and nothing else, exactly if it exists and no item or attendee refers to any of them |
| Transactions.UpdateTypeIff | backend/internal/event/admin_service.go:206-230 | An edit applies exactly if the type exists and price and quota fit their columns, and replaces price, quota and sale window, not the event, and no other row |
| Transactions.CreateTypeIff | backend/internal/event/admin_service.go:170-200 | A creation applies exactly if the type is new, its event exists and price and quota fit, and adds exactly that row |
| TicketService.GenerateForOrder | backend/internal/ticket/service.go:71-108 | Uncontended and without faults, an order with tickets or without attendees keeps its rows, and any other gets one ticket per attendee with the codes drawn, or fails and keeps its rows exactly if these are taken or repeat |
| TicketService.IssueTicketsForOrder | backend/internal/ticket/service.go:51-63 | The same for all attendees that the order has |
| NotificationService.LoadForDelivery | backend/internal/notification/service.go:62-84 | Uncontended and without faults it fails exactly if the order is missing, not PAID or without tickets, and otherwise finds the codes of all its tickets |
| NotificationService.SendTicketEmail | backend/internal/notification/service.go:61-111 | No error means that a complete email was delivered to a PAID, fully issued order; uncontended and without faults it fails exactly if the order is missing, not PAID or without tickets, the PDF does not render or the mailer does not accept, and then no row changes; otherwise the order's flag is set, and nothing else |
| NotificationService.Resend | backend/internal/notification/service.go:54-61 | A resend takes the same path, succeeds exactly when the first send would, and promises the same |
| Storage.Store.Finish | backend/pkg/db/db.go:63-87 | A failed body commits nothing; otherwise all of it or nothing is committed, and without faults all of it |
| Storage.Store.UpdateStatusIfPending | backend/internal/order/ordersql/order.sql.go:520-524 | Applies exactly to a PENDING order, and changes its status only |
| Storage.Store.InsertOrder | backend/internal/order/repository.go:90-105 | One PENDING row more, unless the number is taken or the total out of range |
| Storage.Store.DeductQuota | backend/internal/event/repository.go:165-177 | Deducts exactly when the remaining quota covers the quantity; otherwise nothing changes |
| Storage.Store.RestoreQuota | backend/internal/event/repository.go:182-194 | Adds the quantity, or fails for a missing type or an overflow |
| Storage.Store.UpdatePaymentDetails | backend/internal/order/repository.go:155-187 | The order's row holds the payload, or none for an empty one, and the deadline, and all else is as before; fails by itself exactly for a missing order |
| Storage.Store.DueForExpiry | backend/internal/order/ordersql/order.sql.go:413-421 | Returns distinct due orders, oldest deadline first, as many as there are up to 100, none later than one left out |
| Storage.Store.DeleteTypes | backend/migrations/000001_init.up.sql:65-79 | Deletes all of the types or, while anything refers to one, none |
| Storage.Store.RemoveEvent | backend/migrations/000001_init.up.sql:36-38 | Refused while a ticket type refers to the event |
| Storage.Store.InsertTicket | backend/internal/ticket/ticketsql/ticket.sql.go:26-30 | One ACTIVE row more with a code nobody has, for an order and an attendee that exist |
| Storage.Store.UpdateTicketUsed | backend/internal/ticket/ticketsql/ticket.sql.go:197-201 | Applies exactly if an ACTIVE ticket has the code |
| Storage.ReleaseLines | backend/internal/payment/service.go:376-380 | The loop restores every line, or fails exactly when the release does |
| History.OthersLeaveInPlace | backend/internal/payment/service.go:206-221 | No run of other processes moves a process or changes what it remembers |
| Storage.Store.Yield | backend/internal/payment/service.go:206-221 | Between two accesses others may act in any way, with actions none of which is the process's own, and leave it where it is |

## Left out

- Identifiers: a row's id is its position in the table, and of UUIDs only distinctness is used; the nil id is number 0.
- Interleaving inside a transaction: its statements run as one step with its commit, on the rows of that moment; row locks, deadlocks and timeouts are failures of the transaction. The line items read on a second connection are their own action, but in `PaymentService.MoveAndRelease` no other commit comes between that read and the settling commit; the interleaved system allows one.
- Storage.Store.Yield: its body does nothing, so the services' proofs rest on its contract alone, which allows any interference.
- Time: the clock stands still within one transaction, so all lines of a reservation are checked against the same instant.
- Crashes, panics, failed reads and expired contexts are the system's `Abort`; a process that stops is not started again.
- Row order: order items, attendees and tickets are read in row order. The source orders attendees by id and tickets by creation and code; items have no order (`Transactions.RestoreIgnoresOrder`).
- Randomness: order numbers and ticket codes are arbitrary texts, an infinite sequence of them for each call, so collisions are always possible.
- The mailer: an email that it accepts is delivered, and one that it does not accept may be delivered all the same; whether the PDF renders does not depend on the order here.
- The gateway: signatures, JSON, HTTP and timestamps; an answer is a verified number, status and fraud text, or none. `transaction_id`, payment type and raw payload of the audit row are not kept.
- Free-text, e-mail and slug checks are given as their verdicts, one of the browser and one of the server for each text of the form, since the two follow different rules; so is the name of a ticket type.
- Unicode case mapping is modelled only as far as it can yield ASCII; white space is complete.
- Money printing and parsing; amounts are integer cents, and a total or price beyond NUMERIC(12, 2) fails its statement.
- ClientForm.Refine: quantities are 32-bit integers, added exactly. The browser takes any integer, rounds beyond 2^53, and leaves a larger quantity to the server's decoder, which refuses it. How a text is read as an id is a parameter.
- AdminService.UpdateTicketType: the sold count attached to its answer is `AdminService.WithSoldCounts`, and is not read again here.
- Creating and editing events, creating ticket types over HTTP, listings, the event of an order page, PDF, QR and SMTP rendering, administrator login, rate limiting, logging and metrics: they decide nothing about seats or tickets, or would add only easy members. Creating events and types are actions of the system.
- REVOKED tickets: no code produces the status, and no reachable state has one.
- Whether an instructed order's code reaches the guest's screen, and the countdown there.

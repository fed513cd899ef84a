# Verification model of the ticket-booking platform

A Dafny model of a cinema booking platform, with proofs. The core is the saga of
three services: booking, payment and ticket. Each has its own store; they talk
only through durable queues. Around it stand the seat allocator, the lock
service, scheduling, the seat map, and two small pieces of arithmetic and text.

`dafny verify dfyconfig.toml` checks everything.

## How it is built

- `SagaTypes` has the rows, the domain events, which queue gets which event, and
  the history of facts (everything published, and everything the provider said).
- `BookingRules`, `BookingStore`, `PaymentRules`, `TicketRules` and
  `SeatValidation` say as functions what each handler does to its row or table
  and what it publishes.
- `BookingService`, `PaymentService`, `TicketService`, `SeatLocks`, `Showtimes`
  and `GatewaySeatMap` have the same operations in the form of the code: objects
  whose fields are updated step by step, with the loops of the code, each method
  proved to do what those functions say.
- `Saga` is the whole system as a state machine: one step for a client command, a
  delivery (acknowledged or redelivered), a loss, a provider callback, sync or
  refund result, one row of a cron pass, a restart, or a tick of the clock. All
  answers of Redis, the provider, the databases and the code generator are
  parameters of the step. A state is reachable if some sequence of steps leads
  to it; no order, fairness or exactly-once delivery is assumed.
- `SagaInvariant` states the invariant booking by booking, `SagaProof`,
  `SagaHandlers`, `SagaPayments` and `SagaTheorem` prove it of every reachable
  state, and `SagaSteps` accounts for what one step consumes and says.
- The results are in `SeatLedger`, `SagaDecisions`, `SagaAnswers`, `HoldDecisions`,
  `SagaSafety`, `SagaProgress`, `SagaRefunds`, `SagaRecovery`, `SagaStranded`,
  `SagaConservation`, `SagaInvoices`, `SagaUnsent`, `SagaReasons`, `SagaOrphans`,
  `SeatView`, `SeatDeadline`, `TwoStepSettlement` and `TwoStepFailures`.
  `SagaWitness` has one concrete purchase from which the counterexamples start.

## Where the code and its documentation disagree

The model follows the code.

- README.md:137 says that status sync and retry crons converge late payments. They
  can exactly while `payment.settled` or `booking.refund.requested` is in flight
  (`SagaStranded.MoneyMovesExactly`). Once neither is, no sync and no cron moves
  the money. Only another PAID callback does.
- The comment at apps/booking-service/src/bookings/bookings.service.ts:724-729
  says that an unreachable Redis has the event requeued. The interceptor nacks
  without requeue, so the settlement is lost (`SagaStranded.OutageStrands`).
- The comment at apps/payment-service/src/payments/payments.service.ts:301-302
  says that no money moved when the catch block runs. The block also covers a
  failing save after the provider took the refund on
  (`SagaConservation.UnsavedRefund`), and a failing publish after the save, which
  can leave the customer with the money and the tickets (`SagaUnsent`).
- README.md:124 says that tickets are voided only after `payment.refunded`. That
  holds (`SagaSafety.TicketsGoAfterRefund`), but they need not be voided then: a
  lost `booking.refunded` leaves them valid for good, as no cron sends it again
  (`SagaRefunds.TicketsGoExactly`).
- apps/booking-service/src/bookings/booking.entity.ts:62-67 says that the
  cancellation reason is null unless the status is CANCELLED. It stays set when
  a cancelled booking becomes REFUNDED (`SagaReasons`).
- The window of 240 minutes is not backed by a limit on the length of a film
  (`Showtimes.WindowExactness`), and moving a showtime to another theater is not
  checked at all (`Showtimes.MoveIsUnchecked`).
- The comment at apps/payment-service/src/payments/payments.service.ts:112 says
  that a live invoice is reused when one exists. If the provider cannot be asked
  about it, a charge opens another while the old one can still be paid, and the
  callback finds the payment for both by the external id they share. Money paid on
  the second while the payment is PAID is neither booked nor refunded
  (`SagaInvoices`).
- The reaper counts a hold as dead after its deadline, everything else from its
  deadline on; `SeatView.AvailableMeansHoldable` has the one instant at which a
  seat shown as available cannot be held, and `SeatDeadline` reaches it.

## Model

| member | source | states |
|---|---|---|
| `SagaTheorem.ReachableInv` | apps/booking-service/src/bookings/bookings.service.ts:54-868 | The inductive invariant of the three services, the queues and the history holds in every state reached by any interleaving of commands, deliveries, redeliveries, losses, provider answers, restarts and cron rows |
| `SeatLedger.StepRefinesLedger` | apps/booking-service/src/bookings/bookings.service.ts:74-258 | Refinement: every step of the whole system is one move of a seat ledger for every seat: free to held for five minutes; held to sold to the same booking, only before the deadline; held to free only past the deadline or when the booking is over; sold to free only when its booking is refunded; never free to sold, never from one booking to another, whatever the lock service answers |
| `SeatLedger.LedgerStartsFree` | apps/booking-service/src/bookings/bookings.service.ts:54-70 | Before anything happened every seat is free, so the refinement covers whole runs |
| `SeatLedger.MovesHaveCauses` | apps/booking-service/src/bookings/bookings.service.ts:74-542 | Only a hold of a new booking takes a free seat, only payment.settled of its booking sells a held one, and only payment.refunded of its booking gives a sold one back |
| `SeatLedger.HoldTakesSeats` | apps/booking-service/src/bookings/bookings.service.ts:74-192 | A successful hold finds every requested seat free in the ledger and leaves it held by the new booking for five minutes |
| `SagaDecisions.LedgerShowsOccupiers` | apps/booking-service/src/bookings/bookings.service.ts:344-387 | In every reachable state a booking either has all of its seats in the ledger, with one entry, or none of them |
| `SagaDecisions.ChargesLiveHoldsOnly` | apps/booking-service/src/bookings/bookings.service.ts:394-430 | A charge context is given exactly to the owner of a live unpaid hold whose lock keys all exist; all its seats are then held for it and the amount is the sum of their prices |
| `SagaDecisions.CancelDecides` | apps/booking-service/src/bookings/bookings.service.ts:268-314 | Cancelling an unpaid booking frees all its seats at once, cancelling a paid one keeps them all sold and asks for exactly its total back; strangers get not found, owners of a booking that is over or going back a conflict, and neither changes anything |
| `SagaDecisions.SettlementSellsAllOrNothing` | apps/booking-service/src/bookings/bookings.service.ts:436-466 | Money for an open hold, decided by the clock, the handle and what Redis answers: in time and alive (handle extended, or no handle and every seat key there) it is paid at the provider's time and sells all of its seats; in time without a handle and Redis unreachable the message is lost and nothing else happens; otherwise the hold is over without seats and exactly that money is asked back |
| `SagaAnswers.SyncSells` | apps/payment-service/src/payments/payments.service.ts:206-236 | A lost PAID callback made up for: the sync that finds the invoice paid and the one message it sends pay the booking at the time of the sync and sell all its seats if the hold is alive, or end it and ask its whole amount back if not; only an unreachable Redis loses the message |
| `SagaDecisions.LaterSettlements` | apps/booking-service/src/bookings/bookings.service.ts:468-488 | A repeated settlement changes no row; it has a booking that waits for tickets confirmed again, a confirmed one left alone, and for every other one exactly that money asked back |
| `SagaDecisions.DeclineDecides` | apps/booking-service/src/bookings/bookings.service.ts:491-507 | payment.failed cancels exactly an unpaid booking, which loses all its seats, and undoes nothing that is paid or over |
| `SagaDecisions.RefundPendingDecides` | apps/booking-service/src/bookings/bookings.service.ts:509-521 | payment.refund_pending moves exactly the paid and not refunded bookings, keeps an earlier request time, and leaves all seats sold |
| `SagaDecisions.IssuanceDecides` | apps/booking-service/src/bookings/bookings.service.ts:573-608 | tickets.issued confirms exactly the paid bookings without a refund, at the time of their payment; for a refunded one it publishes booking.refunded again, and during a refund it does nothing |
| `SagaAnswers.ConfirmationDecides` | apps/ticket-service/src/tickets/booking-events.consumer.ts:26-61 | booking.confirmed leaves one ticket for each of its seats, newly coded exactly if there was none, touches no other booking and is answered with its own content |
| `SagaAnswers.EndDecides` | apps/ticket-service/src/tickets/booking-events.consumer.ts:63-81 | The end of a booking takes all its tickets and no others and is recorded |
| `SagaDecisions.SweepDecides` | apps/booking-service/src/bookings/bookings.service.ts:622-636 | The expiry pass ends exactly the unpaid holds whose deadline is past, and these lose all their seats |
| `SagaDecisions.RetriesDecide` | apps/booking-service/src/bookings/bookings.service.ts:643-693 | The two retry rows act exactly on paid bookings without tickets and on refunds under way whose last attempt is over 30 s old, note the attempt and ask again for the same tickets or the whole amount |
| `SagaDecisions.PrepareDecides` | apps/booking-service/src/bookings/bookings.service.ts:394-420 | Who gets which refusal, and that a booking told it is gone has no seat left unless its money is already on the way back |
| `SagaDecisions.PaidInvoiceIsFinal` | apps/payment-service/src/payments/payments.service.ts:84-160 | Once money came in for a booking, no charge, callback, sync, expiry or refund in any continuation gives its payment another invoice or amount, or makes it open or failed again |
| `SagaDecisions.ChargeDecides` | apps/payment-service/src/payments/payments.service.ts:84-160 | The four answers of a charge, each with its exact condition on the stored payment, the amount and the provider: what is on its way back is refused, a PAID payment or an open invoice is handed out unchanged, and without a reusable invoice the caller gets a fresh one or, if the provider cannot open it, nothing |
| `SagaDecisions.InvoiceDecides` | apps/payment-service/src/payments/payments.service.ts:101-157 | A charge writes nothing but one fresh payment for the amount asked, and exactly if no money is in, no stored invoice may be handed out and the provider opens one |
| `SagaAnswers.CallbackDecides` | apps/payment-service/src/payments/payments.service.ts:167-199 | A PAID callback takes the money of any payment that is not PAID, at the provider's time or else now, and publishes one settlement each time; a failed one closes an open payment and no other; one about an open invoice changes nothing |
| `SagaAnswers.SyncDecides` | apps/payment-service/src/payments/payments.service.ts:206-246 | Exactly an open payment with an invoice is settled now or failed by what the provider says, and the booking service gets that one message; every other payment and every other answer leaves the whole system as it is |
| `SagaAnswers.RefundRequestDecides` | apps/payment-service/src/payments/payments.service.ts:253-314 | Exactly one answer to booking.refund.requested, read off the queue and the history: failed if there is nothing to return, pending while a refund is under way, refunded at its time if it is done, and otherwise what provider, save and publish make of it; a refund under way is never denied or started twice |
| `SagaAnswers.AskingAgainIsHarmless` | apps/payment-service/src/payments/payments.service.ts:270-273 | Asking again for a refund that is under way, as the retry cron does: the request and its answer leave payment, booking and queue as they were |
| `SagaAnswers.ReconcileDecides` | apps/payment-service/src/payments/payments.service.ts:329-373 | A refund under way ends as the provider reports it, with one message to the booking; any other row or report changes nothing |
| `SagaAnswers.ExpiryDecides` | apps/payment-service/src/payments/booking-events.consumer.ts:28-36 | booking.cancelled and booking.expired close exactly an invoice that waits for its money, if the provider answers; all else stays and nothing is said |
| `SagaAnswers.EndClosesInvoice` | apps/booking-service/src/bookings/bookings.service.ts:301-314 | From the booking to the other two services: ending an unpaid booking, by its owner or at its deadline, closes its open invoice if the provider answers and leaves no ticket, by exactly the two messages it sends |
| `SagaInvoices.InvoicesCounted` | apps/payment-service/src/payments/payments.service.ts:112-157 | Over every run a booking has exactly one invoice if it has a payment at all, and one more for every charge that reopened it |
| `SagaInvoices.SecondInvoiceExactly` | apps/payment-service/src/payments/payments.service.ts:112-157 | A booking gets no second invoice in a run if and only if no charge found its payment open or failed, was not told that the old invoice is pending, and got another one from the provider |
| `SagaInvoices.SecondPaymentIsAbsorbed` | apps/payment-service/src/payments/payments.service.ts:379-382 | Once the payment is PAID, a PAID callback on whatever invoice changes no table and starts nothing that could be refunded |
| `SagaInvoices.PaidTwiceReturnedOnce` | apps/payment-service/src/payments/payments.service.ts:179-190 | A concrete run from an empty system in which the customer pays two invoices of one booking; in no continuation without further PAID callbacks and with every refund saved does more than one of the two payments come back |
| `SagaDecisions.FailedInvoiceDecides` | apps/payment-service/src/payments/payments.service.ts:393-411 | A failed invoice from the callback to the booking: an unpaid booking ends cancelled with all its seats free, every other one and every payment that money came in for are left as they are |
| `SagaDecisions.RefundFreesSeats` | apps/booking-service/src/bookings/bookings.service.ts:523-542 | payment.refunded gives all seats back from whatever state, keeps the time of the request if there was one, drops the handle and announces it on every delivery |
| `SagaDecisions.RefusedRefundRestores` | apps/booking-service/src/bookings/bookings.service.ts:544-571 | A refused refund restores a waiting booking to confirmed or to paid-and-confirming with its seats sold throughout, and does nothing to any other booking |
| `SagaSafety.NoDoubleSale` | apps/booking-service/src/bookings/booking-seat.entity.ts:11-13 | In every reachable state, if two bookings both have tickets for one seat of one showtime, one of them is refunded |
| `SagaSafety.TicketsFollowMoney` | apps/ticket-service/src/tickets/tickets.service.ts:25-66 | A booking has no tickets or exactly one per seat it held, none unless paid, and all of them from issuance until it is refunded |
| `SagaSafety.NoVoidWhileLive` | apps/ticket-service/src/tickets/booking-events.consumer.ts:63-81 | No event that voids tickets has ever been published about a live booking |
| `SagaSafety.CodesStable` | apps/ticket-service/src/tickets/tickets.service.ts:24-34 | Until the booking is refunded no step, replay of booking.confirmed included, removes a ticket or changes its code |
| `SagaSafety.TicketsGoAfterRefund` | apps/ticket-service/src/tickets/booking-events.consumer.ts:63-81 | A ticket disappears only if its booking is refunded and payment.refunded was published |
| `SagaSafety.IssueCausality` | apps/ticket-service/src/tickets/booking-events.consumer.ts:26-61 | Behind every tickets.issued stand, in this order, the provider reporting the invoice paid, payment.settled and booking.confirmed, with the same booking, amount and seats |
| `SagaSafety.RefundCausality` | apps/payment-service/src/payments/payments.service.ts:253-373 | Behind every booking.refunded stand, in this order, a settlement, a refund request for the settled amount, the provider taking it on, the provider reporting it done, and payment.refunded |
| `SagaSafety.StatesHaveCauses` | apps/booking-service/src/bookings/bookings.service.ts:436-542 | paidAt, REFUNDED and the existence of tickets are each backed by the history: settlement and provider payment, provider refund, confirmation of exactly those seats |
| `SagaSafety.AmountsAgree` | apps/payment-service/src/payments/payments.service.ts:84-160 | One amount per booking: the sum of its seat prices is its total, its charge contexts, its payment row, and every settlement, refund request and provider refund about it |
| `SagaSafety.LifecycleHolds` | apps/booking-service/src/bookings/bookings.service.ts:491-608 | Status, paidAt, confirmedAt, ticketsIssuedAt and refundRequestedAt of every row fit together, a lock handle is kept only for a PENDING unpaid booking, and a refund in flight has its id |
| `SagaSafety.DeadForever` | apps/booking-service/src/bookings/bookings.service.ts:491-608 | In every continuation EXPIRED, CANCELLED and REFUNDED stay dead, REFUNDED is final, a dead unpaid booking is never paid, and paidAt never changes once set |
| `SagaSafety.DeadBranches` | apps/booking-service/src/bookings/bookings.service.ts:565-607 | The last branch of onRefundFailed and the CANCELLED and EXPIRED branches of onTicketsIssued are never taken |
| `SagaProgress.ConfirmationProgress` | apps/booking-service/src/bookings/bookings.service.ts:643-665 | A paid PENDING booking has booking.confirmed or tickets.issued in flight unless a message was lost; and whatever was lost, the retry cron selects it exactly when the 30 s throttle has passed |
| `SagaProgress.QuiescentAgreement` | apps/booking-service/src/bookings/bookings.service.ts:436-608 | Without loss and with nothing in flight about a booking: not paid-but-PENDING, CONFIRMED has all tickets, dead and open ones none, and (if no PAID callback came after a refund started) payment and booking are REFUNDED together |
| `SagaProgress.LoadFalls` | apps/booking-service/src/bookings/bookings.service.ts:523-608 | On a refunded booking every delivery strictly lowers the weighted sum of its in-flight messages and nothing raises it |
| `SagaRefunds.RefundConverges` | apps/booking-service/src/bookings/bookings.service.ts:523-608 | Once booking and payment are both REFUNDED, and whatever was lost before, an undisturbed run delivers at most that many messages about it; when none is left no ticket is left either, stale confirmations included, exactly if at the start there was no ticket or one of the six messages that lead to voiding was in flight |
| `SagaRefunds.RefundDrains` | apps/booking-service/src/bookings/bookings.service.ts:523-608 | Such a run to an empty queue exists from every refunded state, and the tickets are gone at its end exactly under the same condition |
| `SagaRefunds.TicketsGoExactly` | apps/ticket-service/src/tickets/booking-events.consumer.ts:63-81 | Without a PAID callback the tickets of a refunded booking can go, by any run at all, if and only if there are none or one of those messages is in flight |
| `SagaRefunds.TicketsKept` | apps/booking-service/src/bookings/bookings.service.ts:610-693 | Otherwise they stay, unchanged, through every run, crons included, since nothing publishes booking.refunded again |
| `SagaRefunds.NoLossNoTickets` | apps/booking-service/src/bookings/bookings.service.ts:523-608 | If no message about the booking was ever lost, the condition holds |
| `SagaRefunds.KeptTicketHappens` | packages/shared/src/rmq-ack.interceptor.ts:36-44 | A concrete run in which one lost booking.refunded leaves booking and payment refunded, nothing in flight and a valid ticket |
| `SagaRecovery.ConfirmationRecovers` | apps/booking-service/src/bookings/bookings.service.ts:643-665 | From every reachable state, after any losses, waiting, one cron row and two deliveries confirm a paid booking with one ticket per seat |
| `SagaRecovery.RefundRecovers` | apps/booking-service/src/bookings/bookings.service.ts:667-693 | From every reachable state with a refund under way there is a run, with a cooperating provider, to a refunded booking, a returned payment and no tickets |
| `SagaStranded.MoneyMovesExactly` | apps/payment-service/src/payments/payments.service.ts:206-246 | A PAID payment of a booking that does not own its seats can, without another PAID callback, buy them or come back if and only if payment.settled or booking.refund.requested about it is in flight |
| `SagaStranded.LateMoneyReturnsExactly` | apps/booking-service/src/bookings/bookings.service.ts:436-489 | For a booking that is over, the money can come back without another PAID callback if and only if one of these two messages is in flight |
| `SagaStranded.StrandedWithoutCallback` | apps/payment-service/src/payments/payments.service.ts:206-246 | Without either message the money stays where it is through every run, status syncs, crons and all other callbacks included, that has no PAID callback about it |
| `SagaStranded.CallbackRescues` | apps/payment-service/src/payments/payments.service.ts:375-391 | One more PAID callback frees money stranded on a booking that is over: from there a run refunds booking and payment and leaves no ticket |
| `SagaStranded.LossStrands` | packages/shared/src/rmq-ack.interceptor.ts:36-44 | A concrete run strands money by losing payment.settled once |
| `SagaStranded.OutageStrands` | apps/booking-service/src/bookings/bookings.service.ts:724-745 | Another one without the bus losing anything: booking-service restarts and Redis is down when payment.settled arrives |
| `SagaStranded.RefusalStrands` | apps/booking-service/src/bookings/bookings.service.ts:544-547 | Wherever a refund request is the last message that moves the money of a booking without seats, a refusal by the provider strands it, because onRefundFailed ignores such bookings |
| `SagaStranded.CancelledMoneyStrands` | apps/booking-service/src/bookings/bookings.service.ts:544-547 | And this happens: a concrete run in which the customer cancels, the money arrives late and its refund is refused |
| `SagaStranded.ThrownSettlementStrands` | packages/shared/src/rmq-ack.interceptor.ts:34-45 | A settlement whose handler throws is never made up for: if it was the last message that moves the money, then in no continuation without a PAID callback does the money buy seats or come back |
| `SagaConservation.Conservation` | apps/payment-service/src/payments/payments.service.ts:253-411 | In every reachable state: entries into PAID plus refunds given up minus refunds taken on is 1 if the row is PAID and 0 otherwise, less the refunds taken on whose row was never saved; so the plain law holds exactly for histories in which every refund was saved, and money first comes in at most once |
| `SagaConservation.RefundsOut` | apps/payment-service/src/payments/payments.service.ts:375-391 | Refunds out at the provider are exactly: one if the row says so, plus one for each PAID callback after a refund started, plus one for each unsaved acceptance; so the row is right about them exactly for histories with neither |
| `SagaConservation.AtMostOneRefund` | apps/payment-service/src/payments/payments.service.ts:252-314 | Without those callbacks and unsaved acceptances the provider never has more than one refund of a booking |
| `SagaConservation.SecondRefund` | apps/payment-service/src/payments/payments.service.ts:375-391 | From every state with booking and payment REFUNDED, one more PAID callback leads to a second refund |
| `SagaConservation.SecondRefundHappens` | apps/payment-service/src/payments/payments.service.ts:375-391 | A concrete run to such a second refund, from an empty system |
| `SagaConservation.UnsavedRefund` | apps/payment-service/src/payments/payments.service.ts:283-313 | Wherever a refund of a PAID row is under way, a run has the provider return the money while the row stays PAID, because the catch covers the save |
| `SagaConservation.UnsavedRefundHappens` | apps/payment-service/src/payments/payments.service.ts:283-313 | A concrete run to such a row, from an empty system |
| `SagaUnsent.UnsentKeepsExactly` | apps/payment-service/src/payments/payments.service.ts:283-313 | The catch covers the publish too: after an accepted, saved and unsent refund and the denial that follows, the customer has the money and all tickets, with nothing in flight, if and only if the provider paid at once and the booking owned its seats with its tickets issued |
| `SagaUnsent.UnsentHappens` | apps/payment-service/src/payments/payments.service.ts:283-313 | A concrete run to money back and tickets kept, from an empty system |
| `SagaUnsent.LearnsExactly` | apps/booking-service/src/bookings/bookings.service.ts:667-693 | Without the customer and without a PAID callback, a CONFIRMED booking whose payment is REFUNDED can become REFUNDED if and only if payment.refunded, payment.refund_pending or booking.refund.requested is in flight; no cron looks for it |
| `SagaReasons.ReasonsExactly` | apps/booking-service/src/bookings/booking.entity.ts:62-74 | In every reachable state a booking carries a reason exactly if it was cancelled for it; the rows that carry one without being CANCELLED are exactly the REFUNDED ones whose paidAt is null and that did not expire |
| `SagaReasons.ReasonOutlivesCancellation` | apps/booking-service/src/bookings/bookings.service.ts:523-542 | A concrete run to a REFUNDED booking with reason CUSTOMER: cancelled unpaid, paid late, paid back |
| `SagaOrphans.FailedHoldIsNeverPaid` | apps/booking-service/src/bookings/bookings.service.ts:194-212 | If a failed hold leaves its booking behind, then in every continuation that booking has no seats and no money, and nobody gets a charge context for it |
| `BookingStore.HoldHasShape` | apps/booking-service/src/bookings/bookings.service.ts:74-258 | Whatever call fails, a hold only adds its own booking and seats and deletes seat rows of dead bookings; a failing one adds no seat and no handle |
| `HoldDecisions.HoldDecides` | apps/booking-service/src/bookings/bookings.service.ts:74-220 | Each of the seven answers of a hold with its exact condition on the request, the geometry, the lock, the failing calls and the ledger: a conflict is a requested seat whose booking is alive, or dead and not deleted |
| `HoldDecisions.HoldWrites` | apps/booking-service/src/bookings/bookings.service.ts:131-220 | Every row, seat and handle after a hold of any outcome: a success writes its row, its handle on exactly the requested seats and one snapshot each; a failure leaves no handle, and its row only if deleting it failed; only dead rows on requested seats go |
| `BookingStore.HoldConsistent` | apps/booking-service/src/bookings/bookings.service.ts:146-220 | A hold keeps the foreign key of seat rows, their agreement on the showtime, and lock handles only for payable bookings |
| `BookingStore.HeldAmount` | apps/booking-service/src/bookings/bookings.service.ts:80-148 | For any request with repeats, a held booking snapshots exactly the distinct requested seats, all enabled, at most eight, and its total is the sum of the snapshot prices |
| `BookingStore.ReapSpares` | apps/booking-service/src/bookings/bookings.service.ts:228-258 | Reaping keeps every seat row whose booking is not dead |
| `SeatValidation.ValidateSeatsExact` | apps/booking-service/src/cinema/seat-availability.service.ts:23-46 | Validation passes exactly when every id names an enabled seat, returns those seats once each, and otherwise names a seat that is disabled or missing |
| `SeatValidation.FirstOffender` | apps/booking-service/src/cinema/seat-availability.service.ts:30-44 | A refused request names the first id that is not an enabled seat, as disabled if the showtime has it and as missing if not |
| `SeatValidation.DistinctIds` | apps/booking-service/src/bookings/bookings.service.ts:80-80 | The deduplicated request has the same ids, each once |
| `SeatView.AvailabilityShowsLedger` | apps/booking-service/src/bookings/bookings.service.ts:352-387 | The report shows BOOKED exactly for sold seats and HELD exactly for held seats strictly before their deadline |
| `SeatView.AvailableMeansHoldable` | apps/booking-service/src/bookings/bookings.service.ts:213-258 | With the lock granted and a healthy database, a lone hold succeeds if and only if every requested seat is shown as available through the overlay and none is at the very instant of its owner's deadline |
| `SeatDeadline.DeadlineRefuses` | apps/booking-service/src/bookings/bookings.service.ts:228-258 | That instant is reached: a concrete run to a state in which a seat is shown as available and a lone hold with everything succeeding is refused, and succeeds 1 ms later |
| `SeatView.FailedHoldInvisible` | apps/booking-service/src/bookings/bookings.service.ts:193-220 | A hold that fails anywhere leaves the availability of every showtime unchanged, then and at every later time |
| `BookingCrons.PassIsRowwise` | apps/booking-service/src/bookings/bookings.service.ts:614-693 | A cron pass gives every listed row the reply it would get alone, in any order, and touches no other row or seat |
| `BookingCrons.PassIsRun` | apps/booking-service/src/bookings/bookings.service.ts:614-693 | A cron pass over any of its candidates in any order is a run of the saga, so every result about runs covers it |
| `BookingService.BookingsService.Hold` | apps/booking-service/src/bookings/bookings.service.ts:74-220 | The handler, with its writes one by one, ends with exactly the result and the tables that BookingStore.Hold says and publishes nothing |
| `BookingService.BookingsService.ClaimSeats` | apps/booking-service/src/bookings/bookings.service.ts:146-220 | Save, register the handle, reap, insert, and on failure undo: the outcome for every combination of failing calls |
| `BookingService.BookingsService.DeleteStaleSeatRows` | apps/booking-service/src/bookings/bookings.service.ts:228-258 | Deletes exactly the rows of dead bookings among the keys, or nothing if the call fails |
| `BookingService.BookingsService.InsertSeats` | apps/booking-service/src/bookings/booking-seat.entity.ts:11-13 | Inserts all snapshots, or none and reports the violation exactly when one of the keys is taken |
| `BookingService.BookingsService.Cancel` | apps/booking-service/src/bookings/bookings.service.ts:268-314 | Row, lock handle and events after cancelling, for every status and both kinds of caller |
| `BookingService.BookingsService.PrepareCharge` | apps/booking-service/src/bookings/bookings.service.ts:394-430 | Result, row, handle and events of the pre-flight check, its lazy expiry included |
| `BookingService.BookingsService.IsHoldLive` | apps/booking-service/src/bookings/bookings.service.ts:724-745 | Live exactly when unpaid, before the deadline, and the handle was extended or, without a handle, there are seats whose keys all exist; throws exactly when there is no handle and Redis cannot be asked about those |
| `BookingService.BookingsService.OnPaymentSettled` | apps/booking-service/src/bookings/bookings.service.ts:436-489 | An unpaid hold is paid at the provider's time if in time and alive, expired with its money asked back if not, and untouched exactly if the handler throws; later settlements as in LaterSettlements |
| `BookingService.BookingsService.OnPaymentFailed` | apps/booking-service/src/bookings/bookings.service.ts:491-507 | Cancels an unpaid PENDING booking and says so, and leaves every other alone |
| `BookingService.BookingsService.OnRefundPending` | apps/booking-service/src/bookings/bookings.service.ts:509-521 | Only a paid, not yet refunded booking moves to REFUND_PENDING, keeping an earlier request time |
| `BookingService.BookingsService.OnRefunded` | apps/booking-service/src/bookings/bookings.service.ts:523-542 | Moves any booking to REFUNDED, drops its handle, and publishes booking.refunded on every delivery |
| `BookingService.BookingsService.OnRefundFailed` | apps/booking-service/src/bookings/bookings.service.ts:544-571 | Row and events of every branch of a refused refund |
| `BookingService.BookingsService.OnTicketsIssued` | apps/booking-service/src/bookings/bookings.service.ts:573-608 | Confirms a paid booking; answers for a dead one with the event that voids its tickets |
| `BookingService.BookingsService.ExpireBooking` | apps/booking-service/src/bookings/bookings.service.ts:712-722 | Expires a PENDING booking, drops its handle and publishes once; nothing otherwise |
| `BookingService.BookingsService.ExpireStaleBookings` | apps/booking-service/src/bookings/bookings.service.ts:622-636 | The loop expires exactly the stale bookings, each once, and returns their ids in the order it worked in |
| `BookingService.BookingsService.RetryConfirmations` | apps/booking-service/src/bookings/bookings.service.ts:643-665 | The loop re-confirms exactly the unticketed bookings past the throttle, each once |
| `BookingService.BookingsService.RetryRefunds` | apps/booking-service/src/bookings/bookings.service.ts:668-693 | The loop re-requests exactly the overdue refunds, each once |
| `BookingService.BookingsService.Availability` | apps/booking-service/src/bookings/bookings.service.ts:352-387 | The two nested loops, in any order of bookings and seats, fill the map with the mark of each seat's one owner |
| `BookingService.MarksOfBooking` | apps/booking-service/src/bookings/bookings.service.ts:366-381 | One more booking adds its own entries and, as each seat has one row, overwrites nobody else's |
| `PaymentService.PaymentsService.Charge` | apps/payment-service/src/payments/payments.service.ts:84-160 | Each answer exactly when it is given, and the row it hands out: the stored one if it needs no fresh invoice, otherwise a reset row with the fresh one; nothing is handed out if the provider cannot open it |
| `PaymentService.PaymentsService.Webhook` | apps/payment-service/src/payments/payments.service.ts:167-199 | Row and history after a callback of each kind; unknown payments change nothing |
| `PaymentService.PaymentsService.SyncPaymentStatus` | apps/payment-service/src/payments/payments.service.ts:206-246 | Which answer exactly when; an open payment with an invoice becomes PAID now or FAILED as the provider says, with exactly these facts, and everything else leaves table and history alone |
| `PaymentService.PaymentsService.ApplyPaid` | apps/payment-service/src/payments/payments.service.ts:375-391 | Any row that is not PAID becomes PAID, a refunded one included, and payment.settled is published each time |
| `PaymentService.PaymentsService.ApplyFailed` | apps/payment-service/src/payments/payments.service.ts:393-411 | Only an open row becomes FAILED; payment.failed is published each time |
| `PaymentService.PaymentsService.RequestRefund` | apps/payment-service/src/payments/payments.service.ts:253-281 | Unless the payment is PAID with an invoice nothing changes, and the one event says whether the refund is done, under way or impossible |
| `PaymentService.PaymentsService.StartRefund` | apps/payment-service/src/payments/payments.service.ts:283-313 | One catch for the provider, the row and the event: what is left after each of them fails |
| `PaymentService.PaymentsService.ExpireInvoice` | apps/payment-service/src/payments/payments.service.ts:317-327 | The payment becomes FAILED, all else kept, exactly if it is open with an invoice and the provider answers |
| `PaymentService.PaymentsService.ReconcileRefunds` | apps/payment-service/src/payments/payments.service.ts:331-373 | The loop works through exactly the refunds in flight, each once, and returns the two lists of the pass it made |
| `PaymentService.PassIsRowwise` | apps/payment-service/src/payments/payments.service.ts:341-370 | Each listed payment gets what it would have got alone, in any order, and is reported if and only if its refund ended |
| `PaymentService.ReconciliationReport` | apps/payment-service/src/payments/payments.service.ts:329-373 | A pass returns exactly the money it reports as finalized, reverts exactly what it reports as reverted, and leaves every other payment alone |
| `PaymentService.PassIsRun` | apps/payment-service/src/payments/payments.service.ts:329-373 | A reconciliation pass is a run of the saga |
| `PaymentService.OnBookingEvent` | apps/payment-service/src/payments/booking-events.consumer.ts:22-36 | Refund requests start a refund, cancelled and expired bookings expire the invoice, and no other event changes anything |
| `TicketService.TicketsService.Issue` | apps/ticket-service/src/tickets/tickets.service.ts:24-66 | Read, save, and on a violation re-read, against a writer that comes in between |
| `TicketService.TicketsService.Save` | apps/ticket-service/src/tickets/ticket.entity.ts:9-12 | All rows of a booking or, exactly if one (booking, seat) is taken, none |
| `TicketService.RaceIsHarmless` | apps/ticket-service/src/tickets/tickets.service.ts:51-65 | If two replays race, both return what is stored: one ticket per seat, all from one writer, and no other booking is touched |
| `TicketService.AloneIsIssue` | apps/ticket-service/src/tickets/tickets.service.ts:33-52 | Without a rival the object issues exactly what the saga's ticket step issues |
| `TicketService.TicketsService.OnConfirmed` | apps/ticket-service/src/tickets/booking-events.consumer.ts:26-61 | Issues and then publishes tickets.issued with the same content, or throws before publishing exactly when there is no seat |
| `TicketService.TicketsService.OnEnded` | apps/ticket-service/src/tickets/booking-events.consumer.ts:63-81 | Afterwards the booking has no ticket, every other booking has the tickets it had, and tickets.voided is published |
| `TicketService.VoidThenIssue` | apps/ticket-service/src/tickets/booking-events.consumer.ts:26-81 | A confirmation after the end issues a full set of new tickets, and only another end event takes them away, leaving every other booking as it was |
| `TicketRules.IssueCovers` | apps/ticket-service/src/tickets/tickets.service.ts:24-52 | Issuing is idempotent, covers the given seats exactly, and touches no other booking |
| `TicketRules.VoidClears` | apps/ticket-service/src/tickets/tickets.service.ts:92-95 | Voiding removes all tickets of the booking and no others |
| `SeatLocks.SeatLockService.Hold` | apps/booking-service/src/lock/lock.module.ts:29-49 | Acquires all keys or none, and exactly when all are free |
| `SeatLocks.SeatLockService.Extend` | apps/booking-service/src/lock/lock.module.ts:45-47 | Succeeds exactly if every key still carries the token and has not run out; then, until the new lifetime is over, the token owns all keys and no request that touches one of them would be granted, and nobody else gains or loses a key |
| `SeatLocks.SeatLockService.Release` | apps/booking-service/src/lock/lock.module.ts:38-44 | Never fails; keys the token owned are free for anybody at once, and no key is freed that somebody else's token holds |
| `SeatLocks.GrantIsExclusive` | apps/booking-service/src/lock/lock.module.ts:29-34 | A grant takes exactly its keys and no valid key of anybody else |
| `SeatLocks.TokensProtect` | apps/booking-service/src/lock/lock.module.ts:38-47 | Extending and releasing leave everybody else's keys alone |
| `TwoStepSettlement.SettlementIsSafe` | apps/booking-service/src/bookings/bookings.service.ts:436-466 | In every timely run, with any number of settlements and holds at once, each settlement's booking stays unpaid from its liveness check until its cover ends, with the very seats it had at the check, and writing paidAt then makes it own them |
| `TwoStepSettlement.SettlementsAreApart` | apps/booking-service/src/bookings/bookings.service.ts:436-466 | Two covered settlements at once never have a seat in common |
| `TwoStepSettlement.CoverOfCheck` | apps/booking-service/src/bookings/bookings.service.ts:734-742 | From every state that timely runs reach and through every timely run after it: a check with a handle keeps, for a whole lock lifetime, all seats the booking had, and no hold that asks for one of them is granted its lock |
| `TwoStepSettlement.ReapSparesSettling` | apps/booking-service/src/bookings/bookings.service.ts:228-258 | No reap inside its own lock lifetime touches a seat of the booking being settled |
| `TwoStepFailures.ProbeCoverEnds` | apps/booking-service/src/bookings/bookings.service.ts:744-772 | A concrete timely run in which a settlement checked without a handle has lost its seat 1 ms after the deadline |
| `TwoStepFailures.LateReapBreaks` | apps/booking-service/src/bookings/bookings.service.ts:146-157 | A concrete run in which a hold that stalls past its own lock takes the seat from a well covered settlement |
| `GatewaySeatMap.SeatMap` | apps/gateway/src/cinema/cinema.service.ts:142-166 | The loop and the map together show every seat of the geometry as the report has it, disabled ones as booked, and everything enabled as available if there is no report |
| `GatewaySeatMap.OverlayIsOrderFree` | apps/gateway/src/cinema/cinema.service.ts:148-151 | Any order of the report's lines gives the same map as the report itself |
| `GatewaySeatMap.SeatMapShowsLedger` | apps/gateway/src/cinema/cinema.service.ts:142-166 | What customers see is the ledger: BOOKED exactly for disabled and sold seats, HELD exactly for held ones before their deadline, AVAILABLE for the rest |
| `Showtimes.ShowtimesService.FindOverlap` | apps/cinema-service/src/showtimes/showtimes.service.ts:204-235 | The scan of the candidates finds an overlap exactly if the query's rows hold one other than the excluded |
| `Showtimes.ShowtimesService.Create` | apps/cinema-service/src/showtimes/showtimes.service.ts:89-104 | Answer and schedule after creating, unknown movies and theaters included |
| `Showtimes.ShowtimesService.Update` | apps/cinema-service/src/showtimes/showtimes.service.ts:106-135 | Answer and schedule after updating any subset of the fields; checked only if start or movie is supplied |
| `Showtimes.ShowtimesService.Remove` | apps/cinema-service/src/showtimes/showtimes.service.ts:137-141 | Removes exactly the named showtime, or reports it missing |
| `Showtimes.CreateDecides` | apps/cinema-service/src/showtimes/showtimes.service.ts:89-104 | Each refusal of a create with its exact condition, and otherwise the showtime is stored as given and no other changes |
| `Showtimes.UpdateDecides` | apps/cinema-service/src/showtimes/showtimes.service.ts:106-135 | Each refusal of an update with its exact condition, and otherwise every supplied field is written, every other one kept and no other showtime touched |
| `Showtimes.RemoveDecides` | apps/cinema-service/src/showtimes/showtimes.service.ts:137-141 | Afterwards the showtime is not there and all others are as they were; missing ones are reported |
| `Showtimes.WindowExactness` | apps/cinema-service/src/showtimes/showtimes.service.ts:204-235 | The windowed query equals the scan of the whole schedule on every schedule if and only if no film of the catalog is longer than 240 minutes |
| `Showtimes.WindowMisses` | apps/cinema-service/src/showtimes/showtimes.service.ts:210-221 | For one request: the check wrongly accepts exactly when there are overlaps and all of them start before the window |
| `Showtimes.LongFilmIsMissed` | apps/cinema-service/src/showtimes/showtimes.service.ts:20-39 | Every film longer than 240 minutes has an accepted overlap |
| `Showtimes.SchedulesStayDisjoint` | apps/cinema-service/src/showtimes/showtimes.service.ts:89-141 | With films of at most 240 minutes, every run of creates, removes and updates that do not change the theater alone keeps each theater's showtimes pairwise disjoint |
| `Showtimes.MoveIsUnchecked` | apps/cinema-service/src/showtimes/showtimes.service.ts:112-126 | Changing only the theater is always accepted and keeps schedules disjoint exactly when nothing there overlaps |
| `Showtimes.MoveOverlaps` | apps/cinema-service/src/showtimes/showtimes.service.ts:112-126 | A concrete run of two creates and a move that ends in an overlap |
| `EscapeHtml.EscapeIsSubstitution` | apps/notification-service/src/notifications/resend.service.ts:25-32 | For every string the five ordered replaces equal one substitution per character |
| `EscapeHtml.EscapedIsPlain` | apps/notification-service/src/notifications/resend.service.ts:19-32 | The result has no raw <, >, double quote or apostrophe |
| `EscapeHtml.EscapeRoundTrip` | apps/notification-service/src/notifications/resend.service.ts:25-32 | Decoding the result gives the input back |
| `BenchSlots.SlotsFit` | benchmark/full-flow.js:51-64 | Past the guards every slot lies in the catalog, paid ones below all hold slots; only the guard on paid groups ever stops an iteration |
| `BenchSlots.SlotsNeverCollide` | benchmark/lib.js:183-197 | Two iterations get the same seat exactly if they are the same paid iteration, or hold iterations of the same user |
| `BenchSlots.PaysOncePerRound` | benchmark/full-flow.js:54-56 | Of any PAY_EVERY consecutive iterations a user pays in exactly one |
| `BenchSlots.PaysOncePerBlock` | benchmark/full-flow.js:54-55 | In any one iteration exactly one of any PAY_EVERY consecutive users pays |
| `BenchSlots.SetupFails` | benchmark/full-flow.js:51-53 | The run is refused exactly if PAY_EVERY is not positive or the catalog has not a slot for every user |

## Left out

- Interleaving inside a handler: every handler, command and cron row is one step, and one save of several rows is all or nothing; a crash between a save and its publish is the step followed by a loss. The settlement is the exception, in `TwoStepSettlement`. In particular a charge that overwrites a concurrent settlement of the same payment row is not modelled.
- Several replicas: lock handles are one map, which a restart empties.
- TwoStepSettlement.SettlementIsSafe: assumes that nobody else works on a booking that is being settled, and that every guarded write lands while its lock lives; `LateReapBreaks` and `ProbeCoverEnds` show what happens otherwise. A payment is taken to exist only once its hold has returned.
- SagaProgress.QuiescentAgreement: its last clause excludes PAID callbacks after a refund started, because `applyPaid` accepts them from any status.
- SagaStranded.MoneyMovesExactly: money whose settlement was lost does not return by itself; what is proved is exactly what moves it.
- SagaRefunds.RefundConverges: tickets whose voiding was lost before the refund was complete do not go by themselves; what is proved is exactly when they do.
- Showtimes.SchedulesStayDisjoint: movie durations are fixed, so editing a film after scheduling it is not covered; the code does not re-check there either.
- SeatValidation.ValidateSeatsExact: seat ids of a showtime are taken to be distinct, as primary keys are.
- BenchSlots.SlotsNeverCollide: assumes the seeded catalog has distinct showtimes with equally many distinct seats, and a positive number of users.
- TicketService.RaceIsHarmless: a concurrent writer writes the rows of the same message or nothing.
- A collision of generated ticket codes: it makes the handler throw, which is a lost message here.
- The operator calls that issue or void tickets directly, which bypass the saga and would falsify its causality.
- payment.received, recipients, contacts, titles, row labels, currencies and receipts: carried for display only.
- The hosted checkout URL and the lifetime of an invoice; a payment with an invoice id is taken to have its URL.
- The webhook's token and body parsing: a callback names its booking, which stands for the lookup by invoice id and then by external id, and any invoice.
- The class of provider status strings is one of paid, not paid, open; other spellings are open, as in the code.
- Notification and user services, health checks, telemetry, pagination, genre and theater administration, ticket-code generation: plumbing or easy.
- Redlock's retries and drift: the lock service is all-or-none with tokens and a time to live, and only `TwoStepSettlement` relies on it; the saga takes any answers.

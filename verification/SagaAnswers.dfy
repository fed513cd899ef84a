/** What the payment and the ticket service make of each message, callback and
    call, read off their tables, the queues and the history, and where that takes
    the booking. */
module SagaAnswers {
  import opened SagaTypes
  import opened BookingStore
  import opened TicketRules
  import opened Saga
  import opened SagaInvariant
  import opened SagaTheorem
  import opened SagaSteps
  import opened SagaSafety
  import opened SeatLedger
  import opened SagaRecovery
  import opened SagaDecisions
  import R = BookingRules
  import P = PaymentRules

  /** Nothing but this payment, the queue and the history may have changed. */
  ghost predicate OnlyPayment(s: Sys, t: Sys, id: Id) {
    && t == s.(payments := t.payments, queue := t.queue, log := t.log)
    && forall c :: c != id ==> PaymentOf(t, c) == PaymentOf(s, c)
  }

  /** These facts are recorded, then this one event is published, and it is on its
      way to the booking service behind what was in the queue. */
  predicate Says(s: Sys, t: Sys, queue: seq<Envelope>, quiet: seq<Fact>, e: Event) {
    t.log == s.log + quiet + [Published(e)] && t.queue == queue + [Envelope(ToBooking, e)]
  }

  /** An invoice that is waiting for its money. */
  predicate Awaiting(p: Option<Payment>) {
    p.Some? && p.value.status.Unpaid? && p.value.invoiceId.Some?
  }

  lemma BookSays(s: Sys, queue: seq<Envelope>, id: Id, o: P.Outcome, quiet: seq<Fact>, e: Event)
    requires o.facts == quiet + [Published(e)] && Route(e) == [Envelope(ToBooking, e)]
    requires forall f :: f in quiet ==> !f.Published?
    ensures var t := Book(s.(queue := queue), id, o);
            && OnlyPayment(s, t, id) && Says(s, t, queue, quiet, e)
            && t.payments == if o.payment.Some? then s.payments[id := o.payment.value] else s.payments
  {
    QuietFacts(quiet, e);
    OneMessage(e, Envelope(ToBooking, e));
  }

  lemma SameBook(s: Sys, id: Id)
    requires id in s.payments
    ensures Book(s, id, P.Same(Some(s.payments[id]))) == s
  {
    assert s.payments[id := s.payments[id]] == s.payments;
    assert s.queue + RouteAll([]) == s.queue && s.log + [] == s.log;
  }

  // Invoices.

  /** The money of an invoice is in: a payment that is not PAID becomes PAID at the
      provider's time or else now, whatever it was, and the settlement is published;
      one that is PAID stays as it is and its settlement is published again. */
  ghost predicate MoneyTaken(s: Sys, t: Sys, id: Id, paidAt: Option<Time>)
    requires id in s.payments
  {
    var p, at := s.payments[id], paidAt.Or(s.now);
    if p.status.Paid? then
      && t.payments == s.payments
      && Says(s, t, s.queue, [ProviderPaid(id)], PaymentSettled(id, p.amount, p.paidAt.Or(s.now)))
    else
      && PaymentOf(t, id) == Some(p.(status := PaymentStatus.Paid, paidAt := Some(at)))
      && Says(s, t, s.queue, [ProviderPaid(id), EnteredPaid(id, MoneyIn(Some(p)))], PaymentSettled(id, p.amount, at))
  }

  lemma MoneyStep(s: Sys, id: Id, paidAt: Option<Time>)
    requires id in s.payments
    ensures var t := Book(s, id, P.ApplyPaid(id, s.payments[id], paidAt, s.now));
            OnlyPayment(s, t, id) && MoneyTaken(s, t, id, paidAt)
  {
    var p, o := s.payments[id], P.ApplyPaid(id, s.payments[id], paidAt, s.now);
    assert s.payments[id := p] == s.payments;
    var quiet := if p.status.Paid? then [ProviderPaid(id)] else [ProviderPaid(id), EnteredPaid(id, MoneyIn(Some(p)))];
    var at := if p.status.Paid? then p.paidAt.Or(s.now) else paidAt.Or(s.now);
    BookSays(s, s.queue, id, o, quiet, PaymentSettled(id, p.amount, at));
  }

  /** The invoice will not be paid: an open payment is FAILED, every other one stays
      as it is, and the failure is published. */
  ghost predicate InvoiceFailed(s: Sys, t: Sys, id: Id)
    requires id in s.payments
  {
    var p := s.payments[id];
    && PaymentOf(t, id) == Some(if p.status.Unpaid? then p.(status := PaymentStatus.Failed) else p)
    && Says(s, t, s.queue, [], PaymentFailed(id))
  }

  lemma FailedStep(s: Sys, id: Id)
    requires id in s.payments
    ensures var t := Book(s, id, P.ApplyFailed(id, s.payments[id])); OnlyPayment(s, t, id) && InvoiceFailed(s, t, id)
  {
    BookSays(s, s.queue, id, P.ApplyFailed(id, s.payments[id]), [], PaymentFailed(id));
  }

  /** What each kind of callback does; one about an invoice still open does nothing. */
  lemma CallbackDecides(s: Sys, id: Id, invoice: Id, status: P.InvoiceStatus, paidAt: Option<Time>)
    ensures var t := Next(s, Callback(id, invoice, status, paidAt));
            && (id !in s.payments || status.Open? ==> t == s)
            && OnlyPayment(s, t, id)
            && (id in s.payments && status.Money? ==> MoneyTaken(s, t, id, paidAt))
            && (id in s.payments && status.NoMoney? ==> InvoiceFailed(s, t, id))
  {
    if id in s.payments {
      match status
      case Money => MoneyStep(s, id, paidAt);
      case NoMoney => FailedStep(s, id);
      case Open => SameBook(s, id);
    }
  }

  /** Asking the provider makes up for a lost callback, either way: an open payment
      with an invoice becomes PAID now or FAILED and the booking hears of it; any
      other answer, and any other payment, changes nothing. */
  lemma SyncDecides(s: Sys, id: Id, answer: Option<P.InvoiceStatus>)
    ensures var p, t := PaymentOf(s, id), Next(s, SyncPayment(id, answer));
            && OnlyPayment(s, t, id)
            && (if Awaiting(p) && answer == Some(P.Money) then
                  && PaymentOf(t, id) == Some(p.value.(status := PaymentStatus.Paid, paidAt := Some(s.now)))
                  && Says(s, t, s.queue, [ProviderPaid(id), EnteredPaid(id, false)],
                          PaymentSettled(id, p.value.amount, s.now))
                else if Awaiting(p) && answer == Some(P.NoMoney) then
                  && PaymentOf(t, id) == Some(p.value.(status := PaymentStatus.Failed))
                  && Says(s, t, s.queue, [], PaymentFailed(id))
                else t == s)
  {
    var p := PaymentOf(s, id);
    if Awaiting(p) && answer == Some(P.Money) {
      MoneyStep(s, id, None);
    } else if Awaiting(p) && answer == Some(P.NoMoney) {
      FailedStep(s, id);
    } else if id in s.payments {
      SameBook(s, id);
    }
  }

  // Refunds.

  /** A refund the provider was asked for. It returns the money, has it under way or
      declines; if the row could not be saved, or the outcome not published, the
      booking hears of a failure all the same. */
  ghost predicate RefundTried(s: Sys, t: Sys, queue: seq<Envelope>, id: Id, answer: P.RefundAnswer)
    requires id in s.payments
  {
    var p := s.payments[id];
    match answer
    case Declined => t.payments == s.payments && Says(s, t, queue, [], PaymentRefundFailed(id))
    case Accepted(refundId, succeeded, saved, sent) =>
      var accepted := [RefundAccepted(id, p.amount, saved)] + if succeeded then [RefundSucceeded(id)] else [];
      && (!saved ==> t.payments == s.payments && Says(s, t, queue, accepted, PaymentRefundFailed(id)))
      && (saved && succeeded ==>
            PaymentOf(t, id) == Some(p.(status := Returned, refundId := Some(refundId), refundedAt := Some(s.now))))
      && (saved && !succeeded ==> PaymentOf(t, id) == Some(p.(status := Refunding, refundId := Some(refundId))))
      && (saved && !sent ==> Says(s, t, queue, accepted + [Lost(id)], PaymentRefundFailed(id)))
      && (saved && sent && succeeded ==> Says(s, t, queue, accepted, PaymentRefunded(id, s.now)))
      && (saved && sent && !succeeded ==> Says(s, t, queue, accepted, PaymentRefundPending(id)))
  }

  /** What is recorded before the event, and the event. */
  function QuietOf(id: Id, p: Payment, answer: P.RefundAnswer): seq<Fact>
    requires answer.Accepted?
  {
    [RefundAccepted(id, p.amount, answer.saved)] + (if answer.succeeded then [RefundSucceeded(id)] else []) +
    if answer.saved && !answer.sent then [Lost(id)] else []
  }

  function HeardOf(id: Id, answer: P.RefundAnswer, now: Time): Event
    requires answer.Accepted?
  {
    if !answer.saved || !answer.sent then PaymentRefundFailed(id)
    else if answer.succeeded then PaymentRefunded(id, now)
    else PaymentRefundPending(id)
  }

  lemma AcceptedFacts(id: Id, p: Payment, answer: P.RefundAnswer, now: Time)
    requires p.status.Paid? && p.invoiceId.Some? && answer.Accepted?
    ensures P.RequestRefund(id, Some(p), answer, now).facts ==
              QuietOf(id, p, answer) + [Published(HeardOf(id, answer, now))]
  {
  }

  lemma TriedStep(s: Sys, queue: seq<Envelope>, id: Id, answer: P.RefundAnswer)
    requires id in s.payments && s.payments[id].status.Paid? && s.payments[id].invoiceId.Some?
    ensures var t := Book(s.(queue := queue), id, P.RequestRefund(id, PaymentOf(s, id), answer, s.now));
            OnlyPayment(s, t, id) && RefundTried(s, t, queue, id, answer)
  {
    var p, o := s.payments[id], P.RequestRefund(id, PaymentOf(s, id), answer, s.now);
    assert s.payments[id := p] == s.payments;
    if answer.Declined? {
      BookSays(s, queue, id, o, [], PaymentRefundFailed(id));
    } else {
      AcceptedFacts(id, p, answer, s.now);
      BookSays(s, queue, id, o, QuietOf(id, p, answer), HeardOf(id, answer, s.now));
      QuietParts(id, p, answer);
    }
  }

  lemma QuietParts(id: Id, p: Payment, answer: P.RefundAnswer)
    requires answer.Accepted?
    ensures var accepted := [RefundAccepted(id, p.amount, answer.saved)] +
                            if answer.succeeded then [RefundSucceeded(id)] else [];
            QuietOf(id, p, answer) == if answer.saved && !answer.sent then accepted + [Lost(id)] else accepted
  {
  }

  /** A request that asks the provider for nothing. */
  lemma RepliedStep(s: Sys, queue: seq<Envelope>, id: Id, o: P.Outcome, e: Event)
    requires o == P.Outcome(PaymentOf(s, id), [Published(e)]) && Route(e) == [Envelope(ToBooking, e)]
    ensures var t := Book(s.(queue := queue), id, o);
            OnlyPayment(s, t, id) && t.payments == s.payments && Says(s, t, queue, [], e)
  {
    BookSays(s, queue, id, o, [], e);
    if id in s.payments {
      assert s.payments[id := s.payments[id]] == s.payments;
    }
  }

  /** A request for a refund is answered by exactly one event, by the state of the
      payment alone: nothing to return is a failure, a refund under way is pending,
      one that is done is done at its time, and only for a PAID payment is the
      provider asked. */
  lemma RefundRequestDecides(s: Sys, i: nat, answers: Answers, ack: bool)
    requires i < |s.queue| && s.queue[i].to.ToPayment? && s.queue[i].event.BookingRefundRequested?
    ensures var id, t := s.queue[i].event.booking, Next(s, Deliver(i, answers, ack));
            var p, queue := PaymentOf(s, id), Rest(s, i, ack);
            && OnlyPayment(s, t, id)
            && (if !MoneyIn(p) || (p.value.status.Paid? && p.value.invoiceId.None?) then
                  t.payments == s.payments && Says(s, t, queue, [], PaymentRefundFailed(id))
                else if p.value.status.Refunding? then
                  t.payments == s.payments && Says(s, t, queue, [], PaymentRefundPending(id))
                else if p.value.status.Returned? then
                  t.payments == s.payments && Says(s, t, queue, [], PaymentRefunded(id, p.value.refundedAt.Or(s.now)))
                else RefundTried(s, t, queue, id, answers.refund))
  {
    var id, queue := s.queue[i].event.booking, Rest(s, i, ack);
    var p, o := PaymentOf(s, id), P.RequestRefund(id, PaymentOf(s, id), answers.refund, s.now);
    assert Next(s, Deliver(i, answers, ack)) == Book(s.(queue := queue), id, o);
    if p.Some? && p.value.status.Paid? && p.value.invoiceId.Some? {
      TriedStep(s, queue, id, answers.refund);
    } else {
      RepliedStep(s, queue, id, o, o.facts[0].event);
    }
  }

  /** The provider reports how a refund under way ended: the money is back now, or
      the payment is PAID again without its refund; no other payment is touched. */
  lemma ReconcileDecides(s: Sys, id: Id, status: Option<P.RefundStatus>)
    ensures var p, t := PaymentOf(s, id), Next(s, ReconcileRefund(id, status));
            var asked := p.Some? && p.value.status.Refunding? && p.value.refundId.Some?;
            && OnlyPayment(s, t, id)
            && (if asked && status == Some(P.Succeeded) then
                  && PaymentOf(t, id) == Some(p.value.(status := Returned, refundedAt := Some(s.now)))
                  && Says(s, t, s.queue, [RefundSucceeded(id)], PaymentRefunded(id, s.now))
                else if asked && status == Some(P.Reverted) then
                  && PaymentOf(t, id) == Some(p.value.(status := PaymentStatus.Paid, refundId := None))
                  && Says(s, t, s.queue, [RefundReverted(id)], PaymentRefundFailed(id))
                else t == s)
  {
    var p := PaymentOf(s, id);
    if p.Some? {
      var o := P.Reconcile(id, p.value, status, s.now);
      if p.value.status.Refunding? && p.value.refundId.Some? && status.Some? && !status.value.InFlight? {
        BookSays(s, s.queue, id, o, [o.facts[0]], o.facts[1].event);
      } else {
        SameBook(s, id);
      }
    }
  }

  // Expired invoices.

  /** booking.cancelled and booking.expired close exactly an invoice that waits for
      its money, and only if the provider answers. Nothing is said. */
  lemma ExpiryDecides(s: Sys, i: nat, answers: Answers, ack: bool)
    requires i < |s.queue| && s.queue[i].to.ToPayment?
    requires s.queue[i].event.BookingCancelled? || s.queue[i].event.BookingExpired?
    ensures var id, t := s.queue[i].event.booking, Next(s, Deliver(i, answers, ack));
            && OnlyPayment(s, t, id) && t.log == s.log && t.queue == Rest(s, i, ack)
            && PaymentOf(t, id) ==
                  if Awaiting(PaymentOf(s, id)) && answers.expired
                  then Some(PaymentOf(s, id).value.(status := PaymentStatus.Failed)) else PaymentOf(s, id)
  {
  }

  // Tickets.

  /** The end of a booking takes all its tickets and no others, and says so. */
  lemma EndDecides(s: Sys, i: nat, answers: Answers, ack: bool)
    requires i < |s.queue| && s.queue[i].to.ToTicket?
    requires var e := s.queue[i].event; e.BookingCancelled? || e.BookingExpired? || e.BookingRefunded?
    ensures var id, t := s.queue[i].event.booking, Next(s, Deliver(i, answers, ack));
            && TicketsOf(t.tickets, id) == map[]
            && (forall c :: c != id ==> TicketsOf(t.tickets, c) == TicketsOf(s.tickets, c))
            && t.log == s.log + [Published(TicketsVoided(id))] && t.queue == Rest(s, i, ack)
            && t.store == s.store && t.payments == s.payments
  {
    var id, u := s.queue[i].event.booking, s.(queue := Rest(s, i, ack));
    VoidClears(s.tickets, id);
    assert RouteAll([Published(TicketsVoided(id))]) == [] by {
      assert RouteAll([Published(TicketsVoided(id))]) == [] + RouteAll([Published(TicketsVoided(id))][1..]);
    }
    assert Next(s, Deliver(i, answers, ack)) == VoidTickets(u, id);
  }

  /** A confirmation leaves the booking with a ticket for each of its seats, new ones
      only if it had none, and is answered with its own content. */
  lemma ConfirmationDecides(s: Sys, i: nat, answers: Answers, ack: bool)
    requires Reachable(s) && i < |s.queue| && s.queue[i].event.BookingConfirmed?
    ensures var e, t := s.queue[i].event, Next(s, Deliver(i, answers, ack));
            && TicketsOf(t.tickets, e.booking).Keys == e.seats.Keys != {}
            && (if TicketsOf(s.tickets, e.booking) != map[] then t.tickets == s.tickets
                else TicketsOf(t.tickets, e.booking) == map k | k in e.seats.Keys :: answers.codes(k))
            && (forall c :: c != e.booking ==> TicketsOf(t.tickets, c) == TicketsOf(s.tickets, c))
            && Says(s, t, Rest(s, i, ack), [],
                    TicketsIssued(e.booking, e.showtime, e.seats, e.amount, e.confirmedAt))
            && t.store == s.store && t.payments == s.payments
  {
    var e := s.queue[i].event;
    ConfirmedSeats(s, i, answers);
    IssueCovers(s.tickets, e.booking, e.seats.Keys, answers.codes);
    HasIsNonEmpty(s.tickets, e.booking);
    ConfirmationStep(s, i, answers, ack);
  }

  lemma ConfirmationStep(s: Sys, i: nat, answers: Answers, ack: bool)
    requires i < |s.queue| && s.queue[i].to.ToTicket? && s.queue[i].event.BookingConfirmed?
    requires !Throws(s, s.queue[i], answers)
    ensures var e, t := s.queue[i].event, Next(s, Deliver(i, answers, ack));
            && t.tickets == Issue(s.tickets, e.booking, e.seats.Keys, answers.codes)
            && Says(s, t, Rest(s, i, ack), [],
                    TicketsIssued(e.booking, e.showtime, e.seats, e.amount, e.confirmedAt))
            && t.store == s.store && t.payments == s.payments
  {
    var e, u := s.queue[i].event, s.(queue := Rest(s, i, ack));
    var issued := TicketsIssued(e.booking, e.showtime, e.seats, e.amount, e.confirmedAt);
    OneMessage(issued, Envelope(ToBooking, issued));
    assert Next(s, Deliver(i, answers, ack)) == TicketHandles(u, e, answers);
  }

  lemma ConfirmedSeats(s: Sys, i: nat, answers: Answers)
    requires Reachable(s) && i < |s.queue| && s.queue[i].event.BookingConfirmed?
    ensures s.queue[i].to.ToTicket? && !Throws(s, s.queue[i], answers) && s.queue[i].event.seats.Keys != {}
    ensures var e := s.queue[i].event;
            TicketsOf(s.tickets, e.booking) != map[] ==> TicketsOf(s.tickets, e.booking).Keys == e.seats.Keys
  {
    ReachableInv(s);
    var m := s.queue[i];
    KnownBooking(s, m);
    assert BookingInv(s, m.event.booking);
    assert FactOk(m.event.booking, ViewOf(s, m.event.booking), Published(m.event));
    assert m.event.seats == map[] <==> m.event.seats.Keys == {};
  }

  // From one service to the next.

  /** A booking that ends unpaid, cancelled by its owner or swept at its deadline,
      tells the payment service and then the ticket service. */
  predicate Ends(s: Sys, step: Step, id: Id)
    requires id in s.store.rows
  {
    var row := s.store.rows[id];
    && R.Unpaid(row)
    && (step == CancelBooking(id, row.user) || (step == ExpireStale(id) && row.expiresAt < s.now))
  }

  lemma EndIsSaid(s: Sys, step: Step, id: Id) returns (e: Event)
    requires id in s.store.rows && Ends(s, step, id)
    ensures e.booking == id && (e.BookingCancelled? || e.BookingExpired?)
    ensures Next(s, step).queue == s.queue + [Envelope(ToPayment, e), Envelope(ToTicket, e)]
    ensures Next(s, step).payments == s.payments
  {
    e := if step.CancelBooking? then BookingCancelled(id, Customer) else BookingExpired(id);
    assert Publish([e]) == [Published(e)];
    assert RouteAll([Published(e)]) == Route(e) + RouteAll([Published(e)][1..]) == Route(e);
  }

  /** When an unpaid booking ends, the two messages that this puts into the queue
      close the invoice that still waits for money, if the provider answers, and
      leave no ticket; the payment is otherwise as it was. */
  lemma EndClosesInvoice(s: Sys, step: Step, id: Id, answers: Answers)
    requires id in s.store.rows && Ends(s, step, id)
    ensures var u, n := Next(Next(s, step), Deliver(|s.queue|, answers, true)), |s.queue|;
            && |u.queue| == n + 1 && u.queue[..n] == s.queue
            && PaymentOf(u, id) ==
                  (if Awaiting(PaymentOf(s, id)) && answers.expired
                   then Some(PaymentOf(s, id).value.(status := PaymentStatus.Failed)) else PaymentOf(s, id))
            && var t := Next(u, Deliver(n, answers, true));
            && t.queue == s.queue && TicketsOf(t.tickets, id) == map[] && PaymentOf(t, id) == PaymentOf(u, id)
  {
    var ended, n := Next(s, step), |s.queue|;
    var e := EndIsSaid(s, step, id);
    ExpiryDecides(ended, n, answers, true);
    assert Without(ended.queue, n) == s.queue + [Envelope(ToTicket, e)];
    var u := Next(ended, Deliver(n, answers, true));
    EndDecides(u, n, answers, true);
    assert Without(u.queue, n) == s.queue;
  }

  /** A lost callback made up for: the sync that finds the invoice paid and the one
      message it sends sell all seats of a hold that is still live, at the time of the
      sync; if it is not, the hold is over and the money is asked back; and if Redis
      cannot be asked, the message is lost while the payment stays PAID. */
  lemma SyncSells(s: Sys, id: Id, answers: Answers)
    requires Reachable(s) && id in s.store.rows && R.Unpaid(s.store.rows[id]) && Awaiting(PaymentOf(s, id))
    ensures var row, seats, handle := s.store.rows[id], SnapshotOf(s.store, id), id in s.store.locks;
            var t := Next(Next(s, SyncPayment(id, Some(P.Money))), Deliver(|s.queue|, answers, true));
            var alive := if handle then answers.extended else seats != map[] && answers.probe.AllExist?;
            && PaymentOf(t, id) == Some(s.payments[id].(status := PaymentStatus.Paid, paidAt := Some(s.now)))
            && id in t.store.rows
            && (if s.now < row.expiresAt && !handle && seats != map[] && answers.probe.Unreachable? then
                  t.store == s.store && Lost(id) in t.log
                else if s.now < row.expiresAt && alive then
                  t.store.rows[id].paidAt == Some(s.now) && AllSeats(t, id, Sold(id))
                else
                  && t.store.rows[id].status.Expired? && NoSeats(t, id)
                  && Published(BookingRefundRequested(id, row.totalAmount)) in t.log)
  {
    var step := SyncPayment(id, Some(P.Money));
    var u := Next(s, step);
    SyncDecides(s, id, Some(P.Money));
    AmountsAgree(s, id);
    ReachableNext(s, step);
    assert SnapshotOf(u.store, id) == SnapshotOf(s.store, id);
    SettlementSellsAllOrNothing(u, |s.queue|, answers, true);
    SettlementSparesPayments(u, |s.queue|, answers);
  }

  lemma SettlementSparesPayments(s: Sys, i: nat, answers: Answers)
    requires i < |s.queue| && s.queue[i].to.ToBooking?
    ensures Next(s, Deliver(i, answers, true)).payments == s.payments
  {
  }

  /** The retry cron asks every minute for a refund that is under way, and that is
      harmless: the request and its answer change neither payment nor booking. */
  lemma AskingAgainIsHarmless(s: Sys, i: nat, answers: Answers)
    requires Reachable(s) && i < |s.queue| && s.queue[i].event.BookingRefundRequested?
    requires var id := s.queue[i].event.booking;
             && id in s.payments && s.payments[id].status.Refunding?
             && id in s.store.rows && s.store.rows[id].status.RefundPending?
    ensures var u := Next(s, Deliver(i, answers, true));
            && |u.queue| == |s.queue|
            && var t := Next(u, Deliver(|s.queue| - 1, answers, true));
            && t.store.rows == s.store.rows && t.payments == s.payments && t.queue == Without(s.queue, i)
  {
    var id, n, step := s.queue[i].event.booking, |s.queue| - 1, Deliver(i, answers, true);
    assert s.queue[i].to.ToPayment? && s.store.rows[id].refundRequestedAt.Some? by {
      ReachableInv(s);
      KnownBooking(s, s.queue[i]);
      LifecycleHolds(s, id);
    }
    RefundRequestDecides(s, i, answers, true);
    var u := Next(s, step);
    assert u.queue[n].to.ToBooking? && u.queue[n].event == PaymentRefundPending(id);
    PendingIsQuiet(u, n, answers);
    assert Without(u.queue, n) == Without(s.queue, i);
  }

  /** payment.refund_pending for a booking that already waits for its refund. */
  lemma PendingIsQuiet(s: Sys, i: nat, answers: Answers)
    requires i < |s.queue| && s.queue[i].to.ToBooking? && s.queue[i].event.PaymentRefundPending?
    requires s.queue[i].event.booking in s.store.rows
    requires var row := s.store.rows[s.queue[i].event.booking];
             row.status.RefundPending? && row.refundRequestedAt.Some?
    ensures var t := Next(s, Deliver(i, answers, true));
            t.queue == Without(s.queue, i) && t.store.rows == s.store.rows && t.payments == s.payments
  {
    var id, u := s.queue[i].event.booking, s.(queue := Without(s.queue, i));
    var row := s.store.rows[id];
    HandledReply(s, i, answers, true);
    assert BookingReply(s, s.queue[i].event, answers) == R.Unchanged(row);
    assert RouteAll(Publish([])) == [] && u.queue + [] == u.queue && s.store.rows[id := row] == s.store.rows;
  }
}

/** The payment service as an object: its payments table, updated in place, and
    the history of what the provider said and the service published. */
module PaymentService {
  import opened SagaTypes
  import opened Saga
  import C = BookingCrons
  import P = PaymentRules

  /** What the provider says about the refund of each booking, None if unreachable. */
  type Refunds = Id -> Option<P.RefundStatus>

  predicate InFlight(payments: map<Id, Payment>, id: Id) {
    id in payments && payments[id].status.Refunding?
  }

  function RefundsInFlight(payments: map<Id, Payment>): set<Id> {
    set id | id in payments && InFlight(payments, id)
  }

  /** The table after a pass, what it added to the history, and its report. */
  datatype Pass = Pass(payments: map<Id, Payment>, said: seq<Fact>, finalized: seq<Id>, reverted: seq<Id>)

  /** How the refund of this row is reported to have ended, if it did. */
  function EndOf(p: Payment, status: Option<P.RefundStatus>): Option<P.RefundStatus> {
    if p.refundId.Some? && status != Some(P.InFlight) then status else None
  }

  function PassRow(p: Pass, id: Id, status: Option<P.RefundStatus>, now: Time): Pass {
    if id !in p.payments then p
    else
      var o, end := P.Reconcile(id, p.payments[id], status, now), EndOf(p.payments[id], status);
      Pass(
        p.payments[id := o.payment.Or(p.payments[id])],
        p.said + o.facts,
        if end == Some(P.Succeeded) then p.finalized + [id] else p.finalized,
        if end == Some(P.Reverted) then p.reverted + [id] else p.reverted)
  }

  function PassOver(payments: map<Id, Payment>, order: seq<Id>, refunds: Refunds, now: Time): Pass {
    if order == [] then Pass(payments, [], [], [])
    else PassRow(PassOver(payments, order[..|order| - 1], refunds, now), order[|order| - 1],
                 refunds(order[|order| - 1]), now)
  }

  lemma PassOverSnoc(payments: map<Id, Payment>, order: seq<Id>, id: Id, refunds: Refunds, now: Time)
    ensures PassOver(payments, order + [id], refunds, now) ==
              PassRow(PassOver(payments, order, refunds, now), id, refunds(id), now)
  {
    assert (order + [id])[..|order|] == order;
  }

  /** A missing payment, an open one without an invoice, an unreachable provider, or
      the payment as it now is. */
  datatype SyncResult = NotFound | NoInvoice | ProviderUnavailable | Synced(payment: Payment)

  predicate IsOpen(p: Payment) {
    p.status.Unpaid?
  }

  /** There is a payment whose invoice waits for its money. */
  predicate Awaits(payments: map<Id, Payment>, id: Id) {
    id in payments && IsOpen(payments[id]) && payments[id].invoiceId.Some?
  }

  /** Neither money nor a reusable invoice is there. */
  predicate NeedsInvoice(p: Option<Payment>, answer: P.InvoiceAnswer) {
    p.Some? ==>
      && (p.value.status.Unpaid? || p.value.status.Failed?)
      && !(p.value.invoiceId.Some? && answer.reusable)
  }

  class PaymentsService {
    var payments: map<Id, Payment>
    var history: seq<Fact>

    function Row(id: Id): Option<Payment>
      reads this
    {
      if id in payments then Some(payments[id]) else None
    }

    constructor ()
      ensures payments == map[] && history == []
    {
      payments, history := map[], [];
    }

    /** The state is what this outcome makes of the one before. */
    predicate Became(before: map<Id, Payment>, said: seq<Fact>, id: Id, o: P.Outcome)
      reads this
    {
      && payments == (if o.payment.Some? then before[id := o.payment.value] else before)
      && history == said + o.facts
    }

    method Charge(id: Id, amount: int, answer: P.InvoiceAnswer) returns (result: P.ChargeResult)
      modifies this`payments
      ensures result == P.Charge(old(Row(id)), amount, answer)
      ensures result.BadAmount? <==> amount <= 0
      ensures result.RefundUnderway? <==>
                && amount > 0 && id in old(payments)
                && (old(payments)[id].status.Refunding? || old(payments)[id].status.Returned?)
      ensures result.ProviderDown? <==> amount > 0 && NeedsInvoice(old(Row(id)), answer) && answer.created.None?
      ensures result.Charged? ==>
                result.payment == (if NeedsInvoice(old(Row(id)), answer)
                                   then Payment(amount, PaymentStatus.Unpaid, answer.created, None, None, None)
                                   else old(payments)[id])
      ensures payments == if result.Charged? then old(payments)[id := result.payment] else old(payments)
    {
      if amount <= 0 {
        return P.BadAmount;
      }
      if id in payments {
        var payment := payments[id];
        assert payments[id := payment] == payments;
        if payment.status.Paid? {
          return P.Charged(payment);
        }
        if payment.status.Refunding? || payment.status.Returned? {
          return P.RefundUnderway;
        }
        if payment.invoiceId.Some? && answer.reusable {
          return P.Charged(payment);
        }
      }
      if answer.created.None? {
        return P.ProviderDown;
      }
      var payment := if id in payments then payments[id]
          else Payment(amount, PaymentStatus.Unpaid, None, None, None, None);
      payment := payment.(invoiceId := answer.created, amount := amount, status := PaymentStatus.Unpaid);
      payment := payment.(paidAt := None, refundId := None, refundedAt := None);
      payments := payments[id := payment];
      return P.Charged(payment);
    }

    method ApplyPaid(id: Id, paidAt: Option<Time>, now: Time)
      requires id in payments
      modifies this
      ensures Became(old(payments), old(history), id, P.ApplyPaid(id, old(payments)[id], paidAt, now))
    {
      var payment := payments[id];
      history := history + [ProviderPaid(id)];
      if payment.status.Paid? {
        assert payments[id := payment] == payments;
        history := history + [Published(P.SettledEvent(id, payment, now))];
        return;
      }
      var again := payment.status.Refunding? || payment.status.Returned?;
      payment := payment.(status := PaymentStatus.Paid, paidAt := Some(paidAt.Or(now)));
      payments := payments[id := payment];
      history := history + [EnteredPaid(id, again)];
      history := history + [Published(P.SettledEvent(id, payment, now))];
    }

    method ApplyFailed(id: Id)
      requires id in payments
      modifies this
      ensures Became(old(payments), old(history), id, P.ApplyFailed(id, old(payments)[id]))
    {
      var payment := payments[id];
      assert payments[id := payment] == payments;
      if payment.status.Unpaid? {
        payments := payments[id := payment.(status := PaymentStatus.Failed)];
      }
      history := history + [Published(PaymentFailed(id))];
    }

    method Webhook(id: Id, status: P.InvoiceStatus, paidAt: Option<Time>, now: Time) returns (found: bool)
      modifies this
      ensures found == (id in old(payments))
      ensures found ==> Became(old(payments), old(history), id, P.Webhook(id, old(payments)[id], status, paidAt, now))
      ensures !found ==> payments == old(payments) && history == old(history)
    {
      if id !in payments {
        return false;
      }
      assert payments[id := payments[id]] == payments;
      if status.Money? {
        ApplyPaid(id, paidAt, now);
      } else if status.NoMoney? {
        ApplyFailed(id);
      }
      return true;
    }

    /** Only an open row is looked up at the provider. None is a provider that cannot
        be reached, and like a missing invoice it is an error that changes nothing. */
    method SyncPaymentStatus(id: Id, answer: Option<P.InvoiceStatus>, now: Time) returns (result: SyncResult)
      modifies this
      ensures result.NotFound? <==> id !in old(payments)
      ensures result.NoInvoice? <==>
                id in old(payments) && IsOpen(old(payments)[id]) && old(payments)[id].invoiceId.None?
      ensures result.ProviderUnavailable? <==>
                id in old(payments) && IsOpen(old(payments)[id]) && old(payments)[id].invoiceId.Some? && answer.None?
      ensures result.Synced? ==> id in payments && result.payment == payments[id]
      ensures result.Synced? ==> Became(old(payments), old(history), id, P.Sync(id, old(payments)[id], answer, now))
      ensures Awaits(old(payments), id) && answer == Some(P.Money) ==>
                var p := old(payments)[id];
                && payments == old(payments)[id := p.(status := PaymentStatus.Paid, paidAt := Some(now))]
                && history == old(history) + [ProviderPaid(id), EnteredPaid(id, false),
                                              Published(PaymentSettled(id, p.amount, now))]
      ensures Awaits(old(payments), id) && answer == Some(P.NoMoney) ==>
                && payments == old(payments)[id := old(payments)[id].(status := PaymentStatus.Failed)]
                && history == old(history) + [Published(PaymentFailed(id))]
      ensures !Awaits(old(payments), id) || answer.None? || answer.value.Open? ==>
                payments == old(payments) && history == old(history)
    {
      if id !in payments {
        return NotFound;
      }
      var payment := payments[id];
      assert payments[id := payment] == payments;
      if !IsOpen(payment) {
        return Synced(payment);
      }
      if payment.invoiceId.None? {
        return NoInvoice;
      }
      if answer.None? {
        return ProviderUnavailable;
      }
      if answer.value.Money? {
        ApplyPaid(id, None, now);
      } else if answer.value.NoMoney? {
        ApplyFailed(id);
      }
      return Synced(payments[id]);
    }

    /** Only for a PAID payment is the provider asked. */
    method RequestRefund(id: Id, answer: P.RefundAnswer, now: Time)
      modifies this
      ensures Became(old(payments), old(history), id, P.RequestRefund(id, old(Row(id)), answer, now))
      ensures !(id in old(payments) && old(payments)[id].status.Paid? && old(payments)[id].invoiceId.Some?) ==>
                && payments == old(payments)
                && history == old(history) + [Published(
                     if id in old(payments) && old(payments)[id].status.Returned? then
                       PaymentRefunded(id, old(payments)[id].refundedAt.Or(now))
                     else if id in old(payments) && old(payments)[id].status.Refunding? then PaymentRefundPending(id)
                     else PaymentRefundFailed(id))]
    {
      if id !in payments {
        history := history + [Published(PaymentRefundFailed(id))];
        return;
      }
      var payment := payments[id];
      assert payments[id := payment] == payments;
      if payment.status.Returned? {
        history := history + [Published(P.RefundedEvent(id, payment, now))];
        return;
      }
      if payment.status.Refunding? {
        history := history + [Published(PaymentRefundPending(id))];
        return;
      }
      if !payment.status.Paid? || payment.invoiceId.None? {
        history := history + [Published(PaymentRefundFailed(id))];
        return;
      }
      StartRefund(id, answer, now);
    }

    /** The try block: the provider, the row and the event, and one catch for all three. */
    method StartRefund(id: Id, answer: P.RefundAnswer, now: Time)
      requires id in payments && payments[id].status.Paid? && payments[id].invoiceId.Some?
      modifies this
      ensures Became(old(payments), old(history), id, P.RequestRefund(id, old(Row(id)), answer, now))
    {
      var payment := payments[id];
      assert payments[id := payment] == payments;
      var failed := answer.Declined?;
      if !failed {
        history := history + [RefundAccepted(id, payment.amount, answer.saved)];
        payment := payment.(refundId := Some(answer.refundId));
        if answer.succeeded {
          history := history + [RefundSucceeded(id)];
          payment := payment.(status := Returned, refundedAt := Some(now));
        } else {
          payment := payment.(status := Refunding);
        }
        if answer.saved {
          payments := payments[id := payment];
          var event := if answer.succeeded then P.RefundedEvent(id, payment, now) else PaymentRefundPending(id);
          history := history + [if answer.sent then Published(event) else Lost(id)];
        }
        failed := !answer.saved || !answer.sent;
      }
      if failed {
        history := history + [Published(PaymentRefundFailed(id))];
      }
    }

    method ExpireInvoice(id: Id, answered: bool)
      modifies this`payments
      ensures payments == if Awaits(old(payments), id) && answered
                          then old(payments)[id := old(payments)[id].(status := PaymentStatus.Failed)]
                          else old(payments)
      ensures Row(id) == P.ExpireInvoice(old(Row(id)), answered)
    {
      if id !in payments {
        return;
      }
      var payment := payments[id];
      assert payments[id := payment] == payments;
      if payment.invoiceId.None? || !payment.status.Unpaid? || !answered {
        return;
      }
      payments := payments[id := payment.(status := PaymentStatus.Failed)];
    }

    /** The pass has come this far. */
    predicate Reached(pass: Pass, start: seq<Fact>, finalized: seq<Id>, reverted: seq<Id>)
      reads this
    {
      pass == Pass(payments, pass.said, finalized, reverted) && history == start + pass.said
    }

    method ReconcileRefunds(refunds: Refunds, now: Time)
      returns (finalized: seq<Id>, reverted: seq<Id>, ghost order: seq<Id>)
      modifies this
      ensures C.Lists(order, RefundsInFlight(old(payments)))
      ensures Reached(PassOver(old(payments), order, refunds, now), old(history), finalized, reverted)
    {
      ghost var before, start := payments, history;
      var pending := RefundsInFlight(payments);
      finalized, reverted, order := [], [], [];
      ghost var pass := Pass(payments, [], [], []);
      var rest, done := pending, {};
      while rest != {}
        invariant rest * done == {} && rest + done == pending
        invariant C.Lists(order, done)
        invariant pass == PassOver(before, order, refunds, now) && Reached(pass, start, finalized, reverted)
        decreases |rest|
      {
        var id :| id in rest;
        OneMoreRow(before, order, done, id, refunds, now);
        finalized, reverted := ReconcileNext(id, pass, start, refunds(id), now, finalized, reverted);
        pass := PassRow(pass, id, refunds(id), now);
        rest, done, order := rest - {id}, done + {id}, order + [id];
      }
      assert done == pending;
    }

    method ReconcileNext(id: Id, ghost pass: Pass, ghost start: seq<Fact>, status: Option<P.RefundStatus>, now: Time,
                         finalized: seq<Id>, reverted: seq<Id>) returns (finalized': seq<Id>, reverted': seq<Id>)
      requires Reached(pass, start, finalized, reverted) && InFlight(payments, id)
      modifies this
      ensures Reached(PassRow(pass, id, status, now), start, finalized', reverted')
    {
      var end := ReconcileOne(id, status, now);
      finalized' := if end == Some(P.Succeeded) then finalized + [id] else finalized;
      reverted' := if end == Some(P.Reverted) then reverted + [id] else reverted;
    }

    /** One row of the pass; says how its refund ended, if it did. */
    method ReconcileOne(id: Id, status: Option<P.RefundStatus>, now: Time) returns (end: Option<P.RefundStatus>)
      requires InFlight(payments, id)
      modifies this
      ensures Became(old(payments), old(history), id, P.Reconcile(id, old(payments)[id], status, now))
      ensures end == EndOf(old(payments)[id], status)
    {
      var payment := payments[id];
      assert payments[id := payment] == payments;
      if payment.refundId.None? || status.None? {
        return None;
      }
      match status.value
      case Succeeded =>
        payment := payment.(status := Returned, refundedAt := Some(now));
        payments := payments[id := payment];
        history := history + [RefundSucceeded(id), Published(P.RefundedEvent(id, payment, now))];
        return status;
      case Reverted =>
        payments := payments[id := payment.(status := PaymentStatus.Paid, refundId := None)];
        history := history + [RefundReverted(id), Published(PaymentRefundFailed(id))];
        return status;
      case InFlight => return None;
    }
  }

  // The consumer of booking events.

  method OnBookingEvent(service: PaymentsService, e: Event, answer: P.RefundAnswer, answered: bool, now: Time)
    modifies service
    ensures e.BookingRefundRequested? ==>
              service.Became(old(service.payments), old(service.history), e.booking,
                             P.RequestRefund(e.booking, old(service.Row(e.booking)), answer, now))
    ensures !e.BookingRefundRequested? ==> service.history == old(service.history)
    ensures e.BookingCancelled? || e.BookingExpired? ==>
              var before, id := old(service.payments), e.booking;
              service.payments == if Awaits(before, id) && answered
                                  then before[id := before[id].(status := PaymentStatus.Failed)]
                                  else before
    ensures !e.BookingRefundRequested? && !e.BookingCancelled? && !e.BookingExpired? ==>
              service.payments == old(service.payments)
  {
    match e
    case BookingRefundRequested(id, _) => service.RequestRefund(id, answer, now);
    case BookingCancelled(id, _) => service.ExpireInvoice(id, answered);
    case BookingExpired(id) => service.ExpireInvoice(id, answered);
    case _ =>
  }

  // The pass as a whole.

  lemma {:induction false} PassSparesRest(payments: map<Id, Payment>, order: seq<Id>, refunds: Refunds, now: Time,
                                          id: Id)
    requires id !in order
    ensures id in PassOver(payments, order, refunds, now).payments <==> id in payments
    ensures id in payments ==> PassOver(payments, order, refunds, now).payments[id] == payments[id]
  {
    if order != [] {
      assert order[|order| - 1] in order;
      PassSparesRest(payments, order[..|order| - 1], refunds, now, id);
    }
  }

  /** The next row of a pass is still in flight when it is reached. */
  lemma OneMoreRow(payments: map<Id, Payment>, order: seq<Id>, done: set<Id>, id: Id, refunds: Refunds, now: Time)
    requires C.Lists(order, done) && id !in done && InFlight(payments, id)
    ensures C.Lists(order + [id], done + {id})
    ensures var pass := PassOver(payments, order, refunds, now);
            && InFlight(pass.payments, id)
            && PassOver(payments, order + [id], refunds, now) == PassRow(pass, id, refunds(id), now)
  {
    C.ListsSnoc(order, done, id);
    PassOverSnoc(payments, order, id, refunds, now);
    PassSparesRest(payments, order, refunds, now, id);
  }

  /** Whatever the order: each listed row gets what it would have got alone, and
      is reported if and only if its refund ended. */
  lemma {:induction false} PassIsRowwise(payments: map<Id, Payment>, order: seq<Id>, refunds: Refunds, now: Time,
                                         id: Id)
    requires C.Among(order, payments.Keys) && id in payments
    ensures var pass := PassOver(payments, order, refunds, now);
            && id in pass.payments
            && pass.payments[id] ==
                  (if id in order then P.Reconcile(id, payments[id], refunds(id), now).payment.Or(payments[id])
                                     else payments[id])
            && (id in pass.finalized <==> id in order && EndOf(payments[id], refunds(id)) == Some(P.Succeeded))
            && (id in pass.reverted <==> id in order && EndOf(payments[id], refunds(id)) == Some(P.Reverted))
  {
    if order != [] {
      var front, last := order[..|order| - 1], order[|order| - 1];
      C.AmongFront(order, payments.Keys, payments.Keys);
      PassIsRowwise(payments, front, refunds, now, id);
      PassSparesRest(payments, front, refunds, now, last);
    }
  }

  /** The pass returns the money of exactly the refunds it reports as finalized,
      puts exactly those it reports as reverted back to PAID, and leaves every
      other payment alone. */
  lemma ReconciliationReport(payments: map<Id, Payment>, order: seq<Id>, refunds: Refunds, now: Time, id: Id)
    requires C.Lists(order, RefundsInFlight(payments)) && id in payments
    ensures var pass := PassOver(payments, order, refunds, now);
            && id in pass.payments
            && (id in pass.finalized <==> payments[id].status.Refunding? && pass.payments[id].status.Returned?)
            && (id in pass.reverted <==> payments[id].status.Refunding? && pass.payments[id].status.Paid?)
            && (id !in pass.finalized && id !in pass.reverted ==> pass.payments[id] == payments[id])
  {
    PassIsRowwise(payments, order, refunds, now, id);
  }

  function StepsFor(order: seq<Id>, refunds: Refunds): (run: seq<Step>)
    ensures |run| == |order|
  {
    seq(|order|, i requires 0 <= i < |order| => ReconcileRefund(order[i], refunds(order[i])))
  }

  lemma RowStep(s: Sys, pass: Pass, start: seq<Fact>, id: Id, status: Option<P.RefundStatus>)
    requires s.payments == pass.payments && s.log == start + pass.said
    ensures var t, after := Next(s, ReconcileRefund(id, status)), PassRow(pass, id, status, s.now);
            t.payments == after.payments && t.log == start + after.said && t.now == s.now
  {
    if id in s.payments {
      var o := P.Reconcile(id, s.payments[id], status, s.now);
      assert start + pass.said + o.facts == start + (pass.said + o.facts);
    }
  }

  /** A pass is a run of the saga: what it does and records is what its rows' steps do and record. */
  lemma {:induction false} PassIsRun(s: Sys, order: seq<Id>, refunds: Refunds)
    ensures var t, pass := Exec(s, StepsFor(order, refunds)), PassOver(s.payments, order, refunds, s.now);
            t.payments == pass.payments && t.log == s.log + pass.said && t.now == s.now
  {
    if order != [] {
      var front, last := order[..|order| - 1], order[|order| - 1];
      PassIsRun(s, front, refunds);
      assert StepsFor(order, refunds)[..|front|] == StepsFor(front, refunds);
      RowStep(Exec(s, StepsFor(front, refunds)), PassOver(s.payments, front, refunds, s.now), s.log, last,
              refunds(last));
    }
  }
}

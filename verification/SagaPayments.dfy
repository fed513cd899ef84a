/** Steps of the payment service keep the invariant. */
module SagaPayments {
  import opened SagaTypes
  import opened Saga
  import opened SagaInvariant
  import opened SagaProof
  import opened SagaHandlers
  import R = BookingRules
  import P = PaymentRules

  /** What the rest of the proof needs to know about a payment outcome. */
  ghost predicate GoodOutcome(id: Id, v: View, log: seq<Fact>, o: P.Outcome)
    requires v.row.Some?
  {
    var w := v.(payment := o.payment);
    && (v.payment.Some? ==> o.payment.Some?)
    && (MoneyIn(v.payment) ==> MoneyIn(o.payment))
    && PaymentInv(id, w, log + o.facts)
    && (forall f :: f in o.facts ==> f.About() == id && FactOk(id, w, f))
    && (forall i :: 0 <= i < |o.facts| ==> Justified(o.facts[i], log + o.facts[..i]))
    && (o.payment.Some? ==>
          var n := o.payment.value;
          var same := v.payment.Some? && v.payment.value.status == n.status && v.payment.value.amount == n.amount
                      && v.payment.value.paidAt == n.paidAt && v.payment.value.refundedAt == n.refundedAt;
          && (n.status.Paid? && R.Unpaid(v.row.value) ==>
                same || (n.paidAt.Some? && Published(PaymentSettled(id, n.amount, n.paidAt.value)) in o.facts))
          && (n.status.Returned? ==>
                same || Lost(id) in o.facts ||
                    (n.refundedAt.Some? && Published(PaymentRefunded(id, n.refundedAt.value)) in o.facts))
          && (v.payment.Some? && v.payment.value.status.Returned? && !n.status.Returned? ==>
              EnteredPaid(id, true) in o.facts)
          && (forall at :: Published(PaymentRefunded(id, at)) in o.facts ==> n.status.Returned?))
    && (o.payment.None? ==> forall at :: Published(PaymentRefunded(id, at)) !in o.facts)
  }

  lemma PaymentView(s: Sys, id: Id, p: Option<Payment>, q: seq<Envelope>, log: seq<Fact>)
    requires PaymentOf(s, id).Some? ==> p.Some?
    ensures var t := WithPayment(s, id, p).(queue := q, log := log);
            && ViewOf(t, id) == ViewOf(s, id).(payment := p)
            && forall c :: c != id ==> ViewOf(t, c) == ViewOf(s, c)
  {
    var t := WithPayment(s, id, p).(queue := q, log := log);
    assert t.store == s.store && t.claims == s.claims && t.tickets == s.tickets && t.contexts == s.contexts;
  }

  lemma PublishedRoutes(facts: seq<Fact>, e: Event)
    requires Published(e) in facts
    ensures forall m :: m in Route(e) ==> m in RouteAll(facts)
  {
  }

  lemma BookFlow(id: Id, v: View, log: seq<Fact>, queue: seq<Envelope>, q: seq<Envelope>, gone: Option<Envelope>,
                 o: P.Outcome)
    requires v.row.Some? && GoodOutcome(id, v, log, o) && PaymentInv(id, v, log)
    requires FlowInv(id, v, log, queue) && Minus(q, queue, gone) && (gone.Some? ==> gone.value.to.ToPayment?)
    ensures FlowInv(id, v.(payment := o.payment), log + o.facts, q + RouteAll(o.facts))
  {
    var w, more, after := v.(payment := o.payment), log + o.facts, q + RouteAll(o.facts);
    if Lost(id) !in more {
      assert Lost(id) !in log;
      assert Confirming(id, w, after);
      assert Voiding(id, w, after);
      if o.payment.Some? {
        var n := o.payment.value;
        if n.paidAt.Some? {
          var e := PaymentSettled(id, n.amount, n.paidAt.value);
          if Published(e) in o.facts {
            PublishedRoutes(o.facts, e);
            assert Envelope(ToBooking, e) in Route(e);
          }
        }
        assert Settling(id, w, after);
        if n.refundedAt.Some? {
          var e := PaymentRefunded(id, n.refundedAt.value);
          if Published(e) in o.facts {
            PublishedRoutes(o.facts, e);
            assert Envelope(ToBooking, e) in Route(e);
          }
        }
        assert Returning(id, w, after);
      }
    }
    if EnteredPaid(id, true) !in more && RefundSeen(more, id) {
      var at :| Published(PaymentRefunded(id, at)) in more;
      assert EnteredPaid(id, true) !in log && EnteredPaid(id, true) !in o.facts;
      if Published(PaymentRefunded(id, at)) in log {
        assert RefundSeen(log, id);
      }
    }
  }

  lemma BookFacts(id: Id, v: View, log: seq<Fact>, o: P.Outcome)
    requires v.row.Some? && GoodOutcome(id, v, log, o) && PaymentInv(id, v, log) && LogInv(id, v, log)
    ensures LogInv(id, v.(payment := o.payment), log + o.facts)
  {
  }

  lemma BookViewInv(id: Id, v: View, now: Time, log: seq<Fact>, queue: seq<Envelope>, q: seq<Envelope>,
                    gone: Option<Envelope>, o: P.Outcome)
    requires v.row.Some? && ViewInv(id, v, now, log, queue) && GoodOutcome(id, v, log, o)
    requires Minus(q, queue, gone) && (gone.Some? ==> gone.value.to.ToPayment?)
    ensures ViewInv(id, v.(payment := o.payment), now, log + o.facts, q + RouteAll(o.facts))
  {
    BookFacts(id, v, log, o);
    AnswerQueue(id, log, queue, q, o.facts);
    BookFlow(id, v, log, queue, q, gone, o);
    if RefundSeen(log, id) {
      var at :| Published(PaymentRefunded(id, at)) in log;
      assert Published(PaymentRefunded(id, at)) in log + o.facts;
    }
  }

  lemma BookSelf(s: Sys, id: Id, q: seq<Envelope>, gone: Option<Envelope>, o: P.Outcome)
    requires BookingInv(s, id) && id in s.store.rows && GoodOutcome(id, ViewOf(s, id), s.log, o)
    requires Minus(q, s.queue, gone) && (gone.Some? ==> gone.value.to.ToPayment?)
    ensures BookingInv(Book(s.(queue := q), id, o), id)
  {
    PaymentView(s, id, o.payment, q + RouteAll(o.facts), s.log + o.facts);
    BookViewInv(id, ViewOf(s, id), s.now, s.log, s.queue, q, gone, o);
  }

  lemma BookInv(s: Sys, id: Id, q: seq<Envelope>, gone: Option<Envelope>, o: P.Outcome)
    requires Inv(s) && id in s.store.rows && GoodOutcome(id, ViewOf(s, id), s.log, o)
    requires Minus(q, s.queue, gone) && (gone.Some? ==> gone.value.to.ToPayment? && gone.value.event.booking == id)
    ensures Inv(Book(s.(queue := q), id, o))
  {
    var t := Book(s.(queue := q), id, o);
    PaymentView(s, id, o.payment, t.queue, t.log);
    forall c
      ensures BookingInv(t, c)
    {
      assert BookingInv(s, c);
      if c == id {
        BookSelf(s, id, q, gone, o);
      } else {
        FrameEmit(s, t, id, o.facts, q, gone, c);
      }
    }
    ClosedAppend(s.log, o.facts);
  }

  lemma PaidGood(id: Id, v: View, now: Time, log: seq<Fact>, paidAt: Option<Time>)
    requires Ready(id, v, now, log) && v.payment.Some?
    ensures GoodOutcome(id, v, log, P.ApplyPaid(id, v.payment.value, paidAt, now))
  {
    PaidJustified(id, v.payment.value, paidAt, now, log);
    PaidRecorded(id, v, now, log, paidAt);
  }

  lemma PaidJustified(id: Id, p: Payment, paidAt: Option<Time>, now: Time, log: seq<Fact>)
    ensures var facts := P.ApplyPaid(id, p, paidAt, now).facts;
            forall i :: 0 <= i < |facts| ==> Justified(facts[i], log + facts[..i])
  {
    var facts := P.ApplyPaid(id, p, paidAt, now).facts;
    forall i | 0 <= i < |facts|
      ensures Justified(facts[i], log + facts[..i])
    {
      assert i > 0 ==> facts[..i][0] == ProviderPaid(id);
    }
  }

  lemma PaidRecorded(id: Id, v: View, now: Time, log: seq<Fact>, paidAt: Option<Time>)
    requires Ready(id, v, now, log) && v.payment.Some?
    ensures var o := P.ApplyPaid(id, v.payment.value, paidAt, now);
            PaymentInv(id, v.(payment := o.payment), log + o.facts)
  {
    assert P.ApplyPaid(id, v.payment.value, paidAt, now).facts[0] == ProviderPaid(id);
  }

  lemma NotPaidGood(id: Id, v: View, now: Time, log: seq<Fact>)
    requires Ready(id, v, now, log) && v.payment.Some?
    ensures GoodOutcome(id, v, log, P.ApplyFailed(id, v.payment.value))
  {
  }

  lemma WebhookGood(id: Id, v: View, now: Time, log: seq<Fact>, status: P.InvoiceStatus, paidAt: Option<Time>)
    requires Ready(id, v, now, log) && v.payment.Some?
    ensures GoodOutcome(id, v, log, P.Webhook(id, v.payment.value, status, paidAt, now))
    ensures GoodOutcome(id, v, log, P.Same(v.payment))
  {
    PaidGood(id, v, now, log, paidAt);
    NotPaidGood(id, v, now, log);
    assert log + [] == log;
  }

  lemma RefundGood(id: Id, v: View, now: Time, log: seq<Fact>, amount: int, answer: P.RefundAnswer)
    requires Ready(id, v, now, log) && Heard(id, log, BookingRefundRequested(id, amount))
    ensures GoodOutcome(id, v, log, P.RequestRefund(id, v.payment, answer, now))
  {
    var o := P.RequestRefund(id, v.payment, answer, now);
    assert FactOk(id, v, Published(BookingRefundRequested(id, amount)));
    if o.facts[0].RefundAccepted? {
      RefundStartGood(id, v, now, log, answer);
    } else if v.payment.Some? && v.payment.value.status.Refunding? {
      assert AcceptSeen(log, id);
    }
  }

  lemma RefundJustified(id: Id, p: Payment, now: Time, log: seq<Fact>, answer: P.RefundAnswer)
    requires Published(BookingRefundRequested(id, p.amount)) in log
    requires p.status.Paid? && p.invoiceId.Some? && answer.Accepted?
    ensures var o := P.RequestRefund(id, Some(p), answer, now);
            forall i :: 0 <= i < |o.facts| ==> Justified(o.facts[i], log + o.facts[..i])
  {
    var facts := P.RequestRefund(id, Some(p), answer, now).facts;
    var accepted := RefundAccepted(id, p.amount, answer.saved);
    forall i | 0 <= i < |facts|
      ensures Justified(facts[i], log + facts[..i])
    {
      if i > 0 {
        assert facts[..i][0] == accepted;
        assert AcceptSeen(log + facts[..i], id);
        assert i > 1 && answer.succeeded ==> facts[..i][1] == RefundSucceeded(id);
      }
    }
  }

  /** The three shapes of what is recorded when the provider takes a refund. */
  function RefundFacts(id: Id, p: Payment, now: Time, answer: P.RefundAnswer): seq<Fact>
    requires answer.Accepted?
  {
    var accepted, refused := RefundAccepted(id, p.amount, answer.saved), Published(PaymentRefundFailed(id));
    var said := if answer.succeeded then [accepted, RefundSucceeded(id)] else [accepted];
    said + if !answer.saved then [refused]
           else if !answer.sent then [Lost(id), refused]
           else if answer.succeeded then [Published(PaymentRefunded(id, now))]
           else [Published(PaymentRefundPending(id))]
  }

  lemma RefundFactsRight(id: Id, p: Payment, now: Time, answer: P.RefundAnswer)
    requires p.status.Paid? && p.invoiceId.Some? && answer.Accepted?
    ensures P.RequestRefund(id, Some(p), answer, now).facts == RefundFacts(id, p, now, answer)
  {
  }

  lemma RefundFactsOk(id: Id, v: View, w: View, now: Time, answer: P.RefundAnswer)
    requires v.row.Some? && !R.Unpaid(v.row.value) && v.payment.Some?
    requires v.payment.value.amount == v.row.value.totalAmount
    requires w == v.(payment := w.payment) && MoneyIn(w.payment) && answer.Accepted?
    ensures forall f :: f in RefundFacts(id, v.payment.value, now, answer) ==> f.About() == id && FactOk(id, w, f)
  {
  }

  /** The branch in which the provider took the refund. */
  lemma RefundStartGood(id: Id, v: View, now: Time, log: seq<Fact>, answer: P.RefundAnswer)
    requires Ready(id, v, now, log) && !R.Unpaid(v.row.value)
    requires Published(BookingRefundRequested(id, v.row.value.totalAmount)) in log
    requires v.payment.Some? && v.payment.value.status.Paid? && answer.Accepted?
    ensures GoodOutcome(id, v, log, P.RequestRefund(id, v.payment, answer, now))
  {
    var p := v.payment.value;
    var o := P.RequestRefund(id, v.payment, answer, now);
    var w := v.(payment := o.payment);
    RefundJustified(id, p, now, log, answer);
    RefundFactsRight(id, p, now, answer);
    RefundFactsOk(id, v, w, now, answer);
    RefundRecorded(id, v, now, log, answer);
    assert answer.saved && answer.succeeded && answer.sent ==> o.facts[2] == Published(PaymentRefunded(id, now));
    assert answer.saved && !answer.sent ==> o.facts[|o.facts| - 2] == Lost(id);
  }

  lemma RefundRecorded(id: Id, v: View, now: Time, log: seq<Fact>, answer: P.RefundAnswer)
    requires Ready(id, v, now, log) && v.payment.Some? && v.payment.value.status.Paid? && answer.Accepted?
    ensures var o := P.RequestRefund(id, v.payment, answer, now);
            PaymentInv(id, v.(payment := o.payment), log + o.facts)
  {
    var p, o := v.payment.value, P.RequestRefund(id, v.payment, answer, now);
    RefundFactsRight(id, p, now, answer);
    assert o.facts[0] == RefundAccepted(id, p.amount, answer.saved);
    assert answer.succeeded ==> o.facts[1] == RefundSucceeded(id);
  }

  lemma ReconcileGood(id: Id, v: View, now: Time, log: seq<Fact>, refund: Option<P.RefundStatus>)
    requires Ready(id, v, now, log) && v.payment.Some?
    ensures GoodOutcome(id, v, log, P.Reconcile(id, v.payment.value, refund, now))
  {
    var p := v.payment.value;
    var o := P.Reconcile(id, p, refund, now);
    if o.facts == [] {
      assert log + [] == log;
    } else {
      assert FactOk(id, v, RefundAccepted(id, p.amount, true));
      assert AcceptSeen(log, id);
      assert o.facts[..1] == [o.facts[0]];
      assert log + o.facts[..0] == log;
    }
  }

  /** Expiring an invoice publishes nothing. */
  lemma ExpireInvoiceGood(id: Id, v: View, now: Time, log: seq<Fact>, answered: bool)
    requires Ready(id, v, now, log)
    ensures GoodOutcome(id, v, log, P.Outcome(P.ExpireInvoice(v.payment, answered), []))
  {
    assert log + [] == log;
  }

  lemma ChargeGood(id: Id, v: View, now: Time, log: seq<Fact>, ctx: R.ChargeContext, answer: P.InvoiceAnswer)
    requires Ready(id, v, now, log) && ctx in v.contexts && P.Charge(v.payment, ctx.amount, answer).Charged?
    ensures GoodOutcome(id, v, log, P.Outcome(Some(P.Charge(v.payment, ctx.amount, answer).payment), []))
  {
    assert log + [] == log;
  }
}

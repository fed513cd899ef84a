/** What each operation of the payment service does to the payment row of one
    booking, given what the provider answers, and which facts it leaves behind. */
module PaymentRules {
  import opened SagaTypes

  datatype Outcome = Outcome(payment: Option<Payment>, facts: seq<Fact>)

  function Same(p: Option<Payment>): Outcome {
    Outcome(p, [])
  }

  /** The provider while an invoice is opened: whether a live one may be reused,
      and the id of a fresh one, or None when the call throws. */
  datatype InvoiceAnswer = InvoiceAnswer(reusable: bool, created: Option<Id>)

  datatype ChargeResult = Charged(payment: Payment) | BadAmount | RefundUnderway | ProviderDown

  function Charge(p: Option<Payment>, amount: int, answer: InvoiceAnswer): ChargeResult {
    if amount <= 0 then BadAmount
    else if p.Some? && p.value.status.Paid? then Charged(p.value)
    else if p.Some? && (p.value.status.Refunding? || p.value.status.Returned?) then RefundUnderway
    else if p.Some? && p.value.invoiceId.Some? && answer.reusable then Charged(p.value)
    else if answer.created.None? then ProviderDown
    else Charged(Payment(amount, PaymentStatus.Unpaid, answer.created, None, None, None))
  }

  function SettledEvent(id: Id, p: Payment, now: Time): Event {
    PaymentSettled(id, p.amount, p.paidAt.Or(now))
  }

  function RefundedEvent(id: Id, p: Payment, now: Time): Event {
    PaymentRefunded(id, p.refundedAt.Or(now))
  }

  function ApplyPaid(id: Id, p: Payment, paidAt: Option<Time>, now: Time): Outcome {
    if p.status.Paid? then Outcome(Some(p), [ProviderPaid(id), Published(SettledEvent(id, p, now))])
    else
      var paid := p.(status := PaymentStatus.Paid, paidAt := Some(paidAt.Or(now)));
      Outcome(Some(paid), [ProviderPaid(id), EnteredPaid(id, p.status.Refunding? || p.status.Returned?),
                           Published(SettledEvent(id, paid, now))])
  }

  function ApplyFailed(id: Id, p: Payment): Outcome {
    Outcome(Some(if p.status.Unpaid? then p.(status := PaymentStatus.Failed) else p), [Published(PaymentFailed(id))])
  }

  /** Invoice status groups of the provider's vocabulary: PAID, SETTLED or
      CAPTURED; EXPIRED, FAILED or CANCELLED; anything else. */
  datatype InvoiceStatus = Money | NoMoney | Open

  function Webhook(id: Id, p: Payment, status: InvoiceStatus, paidAt: Option<Time>, now: Time): Outcome {
    match status
    case Money => ApplyPaid(id, p, paidAt, now)
    case NoMoney => ApplyFailed(id, p)
    case Open => Same(Some(p))
  }

  /** None stands for an unreachable provider. */
  function Sync(id: Id, p: Payment, status: Option<InvoiceStatus>, now: Time): Outcome {
    if !p.status.Unpaid? || p.invoiceId.None? || status.None? then Same(Some(p))
    else Webhook(id, p, status.value, None, now)
  }

  /** The provider's answer to a refund request, and whether the row was then
      saved and the outcome published; the catch block covers all three. */
  datatype RefundAnswer =
    | Declined
    | Accepted(refundId: Id, succeeded: bool, saved: bool, sent: bool)

  function RequestRefund(id: Id, p: Option<Payment>, answer: RefundAnswer, now: Time): Outcome {
    if p.None? then Outcome(p, [Published(PaymentRefundFailed(id))])
    else if p.value.status.Returned? then Outcome(p, [Published(RefundedEvent(id, p.value, now))])
    else if p.value.status.Refunding? then Outcome(p, [Published(PaymentRefundPending(id))])
    else if !p.value.status.Paid? || p.value.invoiceId.None? then Outcome(p, [Published(PaymentRefundFailed(id))])
    else if answer.Declined? then Outcome(p, [Published(PaymentRefundFailed(id))])
    else
      var said := [RefundAccepted(id, p.value.amount, answer.saved)] +
          (if answer.succeeded then [RefundSucceeded(id)] else []);
      if !answer.saved then Outcome(p, said + [Published(PaymentRefundFailed(id))])
      else
        var q := if answer.succeeded
                 then p.value.(refundId := Some(answer.refundId), status := Returned, refundedAt := Some(now))
                 else p.value.(refundId := Some(answer.refundId), status := Refunding);
        Outcome(Some(q), said + (if !answer.sent then [Lost(id), Published(PaymentRefundFailed(id))]
                                 else if answer.succeeded then [Published(RefundedEvent(id, q, now))]
                                 else [Published(PaymentRefundPending(id))]))
  }

  /** Best effort: if the provider does not answer, the row stays as it is. */
  function ExpireInvoice(p: Option<Payment>, answered: bool): Option<Payment> {
    if p.None? || p.value.invoiceId.None? || !p.value.status.Unpaid? || !answered then p
    else Some(p.value.(status := PaymentStatus.Failed))
  }

  datatype RefundStatus = Succeeded | Reverted | InFlight

  /** One row of the reconciliation pass; None stands for an unreachable provider. */
  function Reconcile(id: Id, p: Payment, status: Option<RefundStatus>, now: Time): Outcome {
    if !p.status.Refunding? || p.refundId.None? || status.None? || status.value.InFlight? then Same(Some(p))
    else if status.value.Succeeded? then
      var q := p.(status := Returned, refundedAt := Some(now));
      Outcome(Some(q), [RefundSucceeded(id), Published(RefundedEvent(id, q, now))])
    else
      Outcome(Some(p.(status := PaymentStatus.Paid, refundId := None)),
              [RefundReverted(id), Published(PaymentRefundFailed(id))])
  }
}

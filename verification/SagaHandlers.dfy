/** Every handler, command and cron row of the booking service gives a good
    reply from an invariant state. */
module SagaHandlers {
  import opened SagaTypes
  import opened Saga
  import opened SagaInvariant
  import opened SagaProof
  import R = BookingRules

  /** What the invariant gives for a booking that exists. */
  ghost predicate Ready(id: Id, v: View, now: Time, log: seq<Fact>) {
    && LogInv(id, v, log)
    && v.row.Some?
    && Lifecycle(v.row.value)
    && SeatsInv(v, now)
    && PaymentInv(id, v, log)
    && TicketInv(id, v, log)
    && BackingInv(id, v, log)
  }

  /** A settled message was published, so its amount is the booking's. */
  predicate Heard(id: Id, log: seq<Fact>, e: Event) {
    e.booking == id && Published(e) in log
  }

  lemma UnchangedGood(id: Id, v: View, now: Time, log: seq<Fact>)
    requires Ready(id, v, now, log)
    ensures GoodReply(id, v, now, log, None, R.Unchanged(v.row.value))
  {
  }

  lemma SettledGood(id: Id, v: View, now: Time, log: seq<Fact>, amount: int, paidAt: Time, extended: bool,
                    probe: R.Probe, m: Envelope)
    requires Ready(id, v, now, log) && Heard(id, log, PaymentSettled(id, amount, paidAt))
    requires m == Envelope(ToBooking, PaymentSettled(id, amount, paidAt))
    ensures GoodReply(id, v, now, log, Some(m),
                      R.Settled(id, v.row.value, v.held,
                                R.HoldLive(v.row.value, v.locked, v.held, now, extended, probe), now, amount, paidAt))
  {
    var r := v.row.value;
    var live := R.HoldLive(r, v.locked, v.held, now, extended, probe);
    assert FactOk(id, v, Published(PaymentSettled(id, amount, paidAt)));
    assert amount == r.totalAmount && SettleSeen(log, id, amount);
    if R.Unpaid(r) && live {
      FirstSettlementGood(id, v, now, log, amount, paidAt, m);
    } else if r.status.Pending? && r.paidAt.Some? {
      assert v.held == v.claim;
      assert R.Settled(id, r, v.held, live, now, amount, paidAt).out == [Confirmation(id, r, v.claim)];
    }
  }

  lemma FirstSettlementGood(id: Id, v: View, now: Time, log: seq<Fact>, amount: int, paidAt: Time, m: Envelope)
    requires Ready(id, v, now, log) && Heard(id, log, PaymentSettled(id, amount, paidAt))
    requires m == Envelope(ToBooking, PaymentSettled(id, amount, paidAt)) && amount == v.row.value.totalAmount
    requires R.Unpaid(v.row.value) && now < v.row.value.expiresAt && (v.locked || v.held != map[])
    ensures GoodReply(id, v, now, log, Some(m), R.Settled(id, v.row.value, v.held, true, now, amount, paidAt))
  {
    var reply := R.Settled(id, v.row.value, v.held, true, now, amount, paidAt);
    assert v.held == v.claim;
    assert reply.out == [Confirmation(id, reply.row, v.claim)];
  }

  lemma FailedGood(id: Id, v: View, now: Time, log: seq<Fact>, m: Envelope)
    requires Ready(id, v, now, log) && m == Envelope(ToBooking, PaymentFailed(id))
    ensures GoodReply(id, v, now, log, Some(m), R.FailedPayment(id, v.row.value))
  {
  }

  lemma RefundStartedGood(id: Id, v: View, now: Time, log: seq<Fact>, m: Envelope)
    requires Ready(id, v, now, log) && m == Envelope(ToBooking, PaymentRefundPending(id))
    ensures GoodReply(id, v, now, log, Some(m), R.RefundStarted(v.row.value, now))
  {
  }

  lemma RefundDoneGood(id: Id, v: View, now: Time, log: seq<Fact>, refundedAt: Time, m: Envelope)
    requires Ready(id, v, now, log) && Heard(id, log, PaymentRefunded(id, refundedAt))
    requires m == Envelope(ToBooking, PaymentRefunded(id, refundedAt))
    ensures GoodReply(id, v, now, log, Some(m), R.RefundDone(id, v.row.value, refundedAt))
  {
    assert FactOk(id, v, Published(PaymentRefunded(id, refundedAt)));
    assert RefundSeen(log, id);
  }

  lemma RefundRefusedGood(id: Id, v: View, now: Time, log: seq<Fact>, m: Envelope)
    requires Ready(id, v, now, log) && m == Envelope(ToBooking, PaymentRefundFailed(id))
    ensures GoodReply(id, v, now, log, Some(m), R.RefundRefused(id, v.row.value, v.held, now))
  {
    var r := v.row.value;
    var reply := R.RefundRefused(id, r, v.held, now);
    if r.status.RefundPending? && r.ticketsIssuedAt.None? {
      assert v.held == v.claim;
      assert reply.out == [Confirmation(id, reply.row, v.claim)];
    }
  }

  lemma IssuedGood(id: Id, v: View, now: Time, log: seq<Fact>, e: Event, m: Envelope)
    requires Ready(id, v, now, log) && e.TicketsIssued? && Heard(id, log, e) && m == Envelope(ToBooking, e)
    ensures GoodReply(id, v, now, log, Some(m), R.Issued(id, v.row.value, e.confirmedAt, now))
  {
    assert FactOk(id, v, Published(e));
  }

  ghost predicate HeardBy(s: Sys, m: Envelope) {
    && m.event.booking in s.store.rows && Ready(m.event.booking, ViewOf(s, m.event.booking), s.now, s.log)
    && Heard(m.event.booking, s.log, m.event) && m == Envelope(ToBooking, m.event) && m in Route(m.event)
  }

  lemma PaymentReplyGood(s: Sys, m: Envelope, answers: Answers)
    requires HeardBy(s, m) && (m.event.PaymentSettled? || m.event.PaymentFailed?)
    ensures GoodReply(m.event.booking, ViewOf(s, m.event.booking), s.now, s.log, Some(m),
                      BookingReply(s, m.event, answers))
  {
    var id, v := m.event.booking, ViewOf(s, m.event.booking);
    if m.event.PaymentSettled? {
      SettledGood(id, v, s.now, s.log, m.event.amount, m.event.paidAt, answers.extended, answers.probe, m);
    } else {
      FailedGood(id, v, s.now, s.log, m);
    }
  }

  lemma RefundReplyGood(s: Sys, m: Envelope, answers: Answers)
    requires HeardBy(s, m) && !m.event.PaymentSettled? && !m.event.PaymentFailed?
    ensures GoodReply(m.event.booking, ViewOf(s, m.event.booking), s.now, s.log, Some(m),
                      BookingReply(s, m.event, answers))
  {
    var id, e := m.event.booking, m.event;
    var v, now, log := ViewOf(s, id), s.now, s.log;
    if e.PaymentRefundPending? {
      RefundStartedGood(id, v, now, log, m);
    } else if e.PaymentRefunded? {
      RefundDoneGood(id, v, now, log, e.refundedAt, m);
    } else if e.PaymentRefundFailed? || e.TicketsIssued? {
      OutcomeReplyGood(s, m, answers);
    }
  }

  lemma OutcomeReplyGood(s: Sys, m: Envelope, answers: Answers)
    requires HeardBy(s, m) && (m.event.PaymentRefundFailed? || m.event.TicketsIssued?)
    ensures GoodReply(m.event.booking, ViewOf(s, m.event.booking), s.now, s.log, Some(m),
                      BookingReply(s, m.event, answers))
  {
    var id, v := m.event.booking, ViewOf(s, m.event.booking);
    if m.event.PaymentRefundFailed? {
      RefundRefusedGood(id, v, s.now, s.log, m);
    } else {
      IssuedGood(id, v, s.now, s.log, m.event, m);
    }
  }

  /** Any message in the booking queue, handled without throwing. */
  lemma BookingReplyGood(s: Sys, m: Envelope, answers: Answers)
    requires BookingInv(s, m.event.booking) && m in s.queue && m.to.ToBooking? && m.event.booking in s.store.rows
    ensures GoodReply(m.event.booking, ViewOf(s, m.event.booking), s.now, s.log, Some(m),
                      BookingReply(s, m.event, answers))
  {
    assert Published(m.event) in s.log && m in Route(m.event);
    assert HeardBy(s, m);
    if m.event.PaymentSettled? || m.event.PaymentFailed? {
      PaymentReplyGood(s, m, answers);
    } else {
      RefundReplyGood(s, m, answers);
    }
  }

  lemma ExpireGood(id: Id, v: View, now: Time, log: seq<Fact>)
    requires Ready(id, v, now, log) && R.Unpaid(v.row.value)
    ensures GoodReply(id, v, now, log, None, R.Expire(id, v.row.value))
  {
  }

  lemma PrepareGood(id: Id, v: View, now: Time, log: seq<Fact>, user: Id, probe: R.Probe)
    requires Ready(id, v, now, log) && R.PrepareCharge(id, v.row.value, user, v.held, now, probe).Gone?
    ensures GoodReply(id, v, now, log, None, R.PrepareCharge(id, v.row.value, user, v.held, now, probe).reply)
  {
    UnchangedGood(id, v, now, log);
    if R.Unpaid(v.row.value) {
      ExpireGood(id, v, now, log);
    }
  }

  lemma CancelGood(id: Id, v: View, now: Time, log: seq<Fact>, user: Id)
    requires Ready(id, v, now, log) && R.Cancel(id, v.row.value, user, now).Done?
    ensures GoodReply(id, v, now, log, None, R.Cancel(id, v.row.value, user, now).reply)
  {
    var r := v.row.value;
    if r.status.Confirmed? || r.paidAt.Some? {
      GiveBackGood(id, v, now, log);
    }
  }

  lemma GiveBackGood(id: Id, v: View, now: Time, log: seq<Fact>)
    requires Ready(id, v, now, log) && R.Owns(v.row.value) && !v.row.value.status.RefundPending?
    ensures var r := v.row.value;
            GoodReply(id, v, now, log, None,
                      R.Reply(r.(status := RefundPending, refundRequestedAt := Some(now)), true,
                              [BookingRefundRequested(id, r.totalAmount)]))
  {
    assert SettleSeen(log, id, v.row.value.totalAmount);
  }

  lemma ReconfirmGood(id: Id, v: View, now: Time, log: seq<Fact>)
    requires Ready(id, v, now, log) && R.Unticketed(v.row.value, now)
    ensures GoodReply(id, v, now, log, None, R.Reconfirm(id, v.row.value, v.held, now))
  {
    var reply := R.Reconfirm(id, v.row.value, v.held, now);
    assert v.held == v.claim;
    assert reply.out == [Confirmation(id, reply.row, v.claim)];
  }

  lemma RerequestGood(id: Id, v: View, now: Time, log: seq<Fact>)
    requires Ready(id, v, now, log) && R.RefundOverdue(v.row.value, now)
    ensures GoodReply(id, v, now, log, None, R.RerequestRefund(id, v.row.value, now))
  {
    assert SettleSeen(log, id, v.row.value.totalAmount);
  }
}

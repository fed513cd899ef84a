/** Recovery after arbitrary losses: from every reachable state the crons can
    finish a paid booking and a started refund. Where they cannot help is in
    SagaStranded, SagaRefunds and SagaUnsent. */
module SagaRecovery {
  import opened SagaTypes
  import opened BookingStore
  import opened TicketRules
  import opened Saga
  import opened SagaInvariant
  import opened SagaTheorem
  import opened SagaSafety
  import opened SagaProgress
  import R = BookingRules
  import P = PaymentRules

  lemma OneMessage(e: Event, m: Envelope)
    requires Route(e) == [m]
    ensures RouteAll([Published(e)]) == [m]
  {
    assert RouteAll([Published(e)]) == Route(e) + RouteAll([Published(e)][1..]) == Route(e);
  }

  /** Long enough for the retry throttle to open. */
  function Wait(at: Option<Time>, now: Time): nat {
    if at.None? || at.value < now - RETRY_INTERVAL_MS then 0 else at.value - now + RETRY_INTERVAL_MS + 1
  }

  /** A booking step that publishes one event for one consumer. */
  lemma AnswerOne(s: Sys, id: Id, reply: R.Reply, e: Event, m: Envelope)
    requires reply.out == [e] && Route(e) == [m]
    ensures Answer(s, id, reply).queue == s.queue + [m]
    ensures Answer(s, id, reply).store.rows == s.store.rows[id := reply.row]
  {
    assert Publish([e]) == [Published(e)];
    OneMessage(e, m);
  }

  lemma {:induction false} ReachableExec(s: Sys, run: seq<Step>)
    requires Reachable(s)
    ensures Reachable(Exec(s, run))
  {
    if run != [] {
      ReachableExec(s, run[..|run| - 1]);
      ReachableNext(Exec(s, run[..|run| - 1]), run[|run| - 1]);
    }
  }

  lemma Exec1(s: Sys, a: Step)
    ensures Exec(s, [a]) == Next(s, a)
  {
    assert [a][..0] == [];
  }

  lemma ExecThen(s: Sys, run: seq<Step>, a: Step)
    ensures Exec(s, run + [a]) == Next(Exec(s, run), a)
  {
    assert (run + [a])[..|run|] == run;
  }

  lemma Exec2(s: Sys, a: Step, b: Step)
    ensures Exec(s, [a, b]) == Next(Next(s, a), b)
  {
    Exec1(s, a);
    ExecThen(s, [a], b);
    assert [a] + [b] == [a, b];
  }

  // A paid booking always gets its tickets.

  /** Waiting and one cron row put the confirmation at the end of the queue. */
  lemma CronReconfirms(s: Sys, id: Id) returns (run: seq<Step>)
    requires Reachable(s) && id in s.store.rows
    requires s.store.rows[id].status.Pending? && s.store.rows[id].paidAt.Some?
    ensures var t := Exec(s, run);
            && id in t.store.rows && t.store.rows[id].status.Pending? && t.store.rows[id].paidAt.Some?
            && t.queue != [] && t.queue[|t.queue| - 1].to.ToTicket?
            && t.queue[|t.queue| - 1].event.BookingConfirmed? && t.queue[|t.queue| - 1].event.booking == id
  {
    var row := s.store.rows[id];
    var d := Wait(row.confirmationAttemptedAt, s.now);
    var u := Next(s, Tick(d));
    LifecycleHolds(s, id);
    assert R.Unticketed(row, u.now);
    var reply := R.Reconfirm(id, row, SnapshotOf(u.store, id), u.now);
    var e := reply.out[0];
    AnswerOne(u, id, reply, e, Envelope(ToTicket, e));
    run := [Tick(d), RetryConfirmation(id)];
    Exec2(s, Tick(d), RetryConfirmation(id));
    assert Next(u, RetryConfirmation(id)) == Answer(u, id, reply);
  }

  lemma ConfirmationIsHandled(s: Sys, m: Envelope, answers: Answers)
    requires Inv(s) && m in s.queue && m.to.ToTicket? && m.event.BookingConfirmed?
    ensures !Throws(s, m, answers)
  {
    KnownBooking(s, m);
    assert BookingInv(s, m.event.booking);
  }

  lemma DeliverConfirmation(s: Sys, i: nat, answers: Answers)
    requires Inv(s) && i + 1 == |s.queue| && s.queue[i].to.ToTicket? && s.queue[i].event.BookingConfirmed?
    ensures var t, id := Next(s, Deliver(i, answers, true)), s.queue[i].event.booking;
            && t.store == s.store && |t.queue| == |s.queue|
            && t.queue[i].to.ToBooking? && t.queue[i].event.TicketsIssued? && t.queue[i].event.booking == id
  {
    ConfirmationIsHandled(s, s.queue[i], answers);
    ConfirmationIssues(s, i, answers);
  }

  lemma ConfirmationIssues(s: Sys, i: nat, answers: Answers)
    requires i + 1 == |s.queue| && s.queue[i].to.ToTicket? && s.queue[i].event.BookingConfirmed?
    requires !Throws(s, s.queue[i], answers)
    ensures var t, e := Next(s, Deliver(i, answers, true)), s.queue[i].event;
            && t.store == s.store
            && t.queue == s.queue[..i] +
                  [Envelope(ToBooking, TicketsIssued(e.booking, e.showtime, e.seats, e.amount, e.confirmedAt))]
  {
    var e := s.queue[i].event;
    assert Without(s.queue, i) == s.queue[..i];
    var issued := TicketsIssued(e.booking, e.showtime, e.seats, e.amount, e.confirmedAt);
    OneMessage(issued, Envelope(ToBooking, issued));
    IssueQueue(s.(queue := s.queue[..i]), e, answers);
    assert Next(s, Deliver(i, answers, true)) == TicketHandles(s.(queue := s.queue[..i]), e, answers);
  }

  lemma IssueQueue(s: Sys, e: Event, answers: Answers)
    requires e.BookingConfirmed?
    ensures var t := TicketHandles(s, e, answers);
            && t.store == s.store
            && t.queue == s.queue +
                  RouteAll([Published(TicketsIssued(e.booking, e.showtime, e.seats, e.amount, e.confirmedAt))])
  {
  }

  lemma DeliverIssuance(s: Sys, i: nat, answers: Answers)
    requires i < |s.queue| && s.queue[i].to.ToBooking? && s.queue[i].event.TicketsIssued?
    requires s.queue[i].event.booking in s.store.rows
    requires s.store.rows[s.queue[i].event.booking].status.Pending?
    requires s.store.rows[s.queue[i].event.booking].paidAt.Some?
    ensures var t, id := Next(s, Deliver(i, answers, true)), s.queue[i].event.booking;
            id in t.store.rows && t.store.rows[id].status.Confirmed?
  {
  }

  /** From every reachable state, whatever was lost before, waiting, one cron row
      and two deliveries confirm a paid booking with one ticket per seat. */
  lemma ConfirmationRecovers(s: Sys, id: Id, answers: Answers) returns (run: seq<Step>)
    requires Reachable(s) && id in s.store.rows
    requires s.store.rows[id].status.Pending? && s.store.rows[id].paidAt.Some?
    ensures var t := Exec(s, run);
            && Reachable(t) && id in t.store.rows && t.store.rows[id].status.Confirmed?
            && TicketsOf(t.tickets, id).Keys == SeatsOfClaim(t, id) != {}
  {
    run := CronReconfirms(s, id);
    var step := IssuanceSteps(s, run, id, answers);
    TwoMore(s, run, step, step);
    run := run + [step] + [step];
    TicketsFollowMoney(Exec(s, run), id);
    LifecycleHolds(Exec(s, run), id);
  }

  /** Delivering what was published last, twice. */
  lemma IssuanceSteps(s: Sys, run: seq<Step>, id: Id, answers: Answers) returns (step: Step)
    requires Reachable(s)
    requires var u := Exec(s, run);
             && id in u.store.rows && u.store.rows[id].status.Pending? && u.store.rows[id].paidAt.Some?
             && u.queue != [] && u.queue[|u.queue| - 1].to.ToTicket?
             && u.queue[|u.queue| - 1].event.BookingConfirmed? && u.queue[|u.queue| - 1].event.booking == id
    ensures var t := Next(Next(Exec(s, run), step), step); id in t.store.rows && t.store.rows[id].status.Confirmed?
  {
    var u := Exec(s, run);
    assert Inv(u) by {
      ReachableExec(s, run);
      ReachableInv(u);
    }
    var i := |u.queue| - 1;
    step := Deliver(i, answers, true);
    DeliverConfirmation(u, i, answers);
    DeliverIssuance(Next(u, step), i, answers);
  }

  // A started refund can always be finished.

  predicate LastIs(s: Sys, to: Service, id: Id) {
    s.queue != [] && s.queue[|s.queue| - 1].to == to && s.queue[|s.queue| - 1].event.booking == id
  }

  function LastEvent(s: Sys): Event
    requires s.queue != []
  {
    s.queue[|s.queue| - 1].event
  }

  lemma CronRerequests(s: Sys, id: Id) returns (run: seq<Step>)
    requires Reachable(s) && id in s.store.rows && s.store.rows[id].status.RefundPending?
    ensures var t := Exec(s, run);
            && t.payments == s.payments && id in t.store.rows && t.store.rows[id].status.RefundPending?
            && LastIs(t, ToPayment, id) && LastEvent(t).BookingRefundRequested?
    ensures |run| == 2 && run[0].Tick? && run[1].RetryRefund?
  {
    var row := s.store.rows[id];
    var d := Wait(row.refundRequestedAt, s.now);
    var u := Next(s, Tick(d));
    assert R.RefundOverdue(row, u.now);
    var reply := R.RerequestRefund(id, row, u.now);
    var e := reply.out[0];
    AnswerOne(u, id, reply, e, Envelope(ToPayment, e));
    run := [Tick(d), RetryRefund(id)];
    Exec2(s, Tick(d), RetryRefund(id));
    assert Next(u, RetryRefund(id)) == Answer(u, id, reply);
  }

  /** A provider outcome that ends in one event for the booking service. */
  lemma BookOne(s: Sys, id: Id, o: P.Outcome, e: Event)
    requires o.facts != [] && o.facts[|o.facts| - 1] == Published(e) && Route(e) == [Envelope(ToBooking, e)]
    requires e.booking == id
    requires forall f :: f in o.facts[..|o.facts| - 1] ==> !f.Published?
    ensures LastIs(Book(s, id, o), ToBooking, id) && LastEvent(Book(s, id, o)) == e
    ensures Book(s, id, o).store == s.store
  {
    var n := |o.facts| - 1;
    QuietFacts(o.facts[..n], e);
    assert o.facts == o.facts[..n] + [Published(e)];
    OneMessage(e, Envelope(ToBooking, e));
  }

  lemma {:induction false} QuietFacts(facts: seq<Fact>, e: Event)
    requires forall f :: f in facts ==> !f.Published?
    ensures RouteAll(facts + [Published(e)]) == RouteAll([Published(e)])
  {
    if facts == [] {
      assert facts + [Published(e)] == [Published(e)];
    } else {
      assert facts[0] in facts;
      QuietFacts(facts[1..], e);
      assert (facts + [Published(e)])[1..] == facts[1..] + [Published(e)];
    }
  }

  const WILLING := P.Accepted(0, true, true, true)

  /** Everybody willing: locks extended, keys there, refunds granted. */
  const KIND_ANSWERS := Answers(true, R.AllExist, WILLING, true, k => 0)

  lemma WillingOutcome(id: Id, p: Payment, now: Time)
    requires (p.status.Paid? && p.invoiceId.Some?) || p.status.Returned?
    ensures var o := P.RequestRefund(id, Some(p), WILLING, now);
            && o.payment.Some? && o.payment.value.status.Returned?
            && o.facts == (if p.status.Paid? then [RefundAccepted(id, p.amount, true), RefundSucceeded(id)] else [])
                          + [Published(P.RefundedEvent(id, o.payment.value, now))]
  {
  }

  lemma RequestHandled(s: Sys, i: nat, answers: Answers)
    requires i < |s.queue| && s.queue[i].to.ToPayment? && s.queue[i].event.BookingRefundRequested?
    ensures var id := s.queue[i].event.booking;
            Next(s, Deliver(i, answers, true))
            == Book(s.(queue := Without(s.queue, i)), id, P.RequestRefund(id, PaymentOf(s, id), answers.refund, s.now))
  {
  }

  /** A payment has its invoice, and a refund in flight its id. */
  lemma MoneyIsIdentified(s: Sys, id: Id)
    requires Inv(s) && id in s.payments
    ensures s.payments[id].invoiceId.Some? && (s.payments[id].status.Refunding? ==> s.payments[id].refundId.Some?)
  {
    assert BookingInv(s, id);
  }

  lemma RequestSucceeds(s: Sys, id: Id, i: nat, answers: Answers)
    requires Inv(s) && id in s.payments && (s.payments[id].status.Paid? || s.payments[id].status.Returned?)
    requires i + 1 == |s.queue| && LastIs(s, ToPayment, id) && LastEvent(s).BookingRefundRequested?
    requires answers.refund == WILLING
    ensures var t := Next(s, Deliver(i, answers, true));
            && t.store == s.store && id in t.payments && t.payments[id].status.Returned?
            && LastIs(t, ToBooking, id) && LastEvent(t).PaymentRefunded?
  {
    MoneyIsIdentified(s, id);
    var p, u := s.payments[id], s.(queue := Without(s.queue, i));
    var o := P.RequestRefund(id, Some(p), WILLING, s.now);
    WillingOutcome(id, p, s.now);
    BookOne(u, id, o, P.RefundedEvent(id, o.payment.value, s.now));
    RequestHandled(s, i, answers);
  }

  lemma ReconcileSucceeds(s: Sys, id: Id)
    requires Inv(s) && id in s.payments && s.payments[id].status.Refunding?
    ensures var t := Next(s, ReconcileRefund(id, Some(P.Succeeded)));
            && t.store == s.store && id in t.payments && t.payments[id].status.Returned?
            && LastIs(t, ToBooking, id) && LastEvent(t).PaymentRefunded?
  {
    MoneyIsIdentified(s, id);
    var o := P.Reconcile(id, s.payments[id], Some(P.Succeeded), s.now);
    BookOne(s, id, o, P.RefundedEvent(id, o.payment.value, s.now));
  }

  lemma RefundArrives(s: Sys, id: Id, i: nat, answers: Answers)
    requires id in s.store.rows && i + 1 == |s.queue| && LastIs(s, ToBooking, id) && LastEvent(s).PaymentRefunded?
    ensures var t := Next(s, Deliver(i, answers, true));
            && t.payments == s.payments && id in t.store.rows && t.store.rows[id].status.Refunded?
            && LastIs(t, ToTicket, id) && LastEvent(t).BookingRefunded?
  {
    var e := LastEvent(s);
    var reply := R.RefundDone(id, s.store.rows[id], e.refundedAt);
    var u := s.(queue := Without(s.queue, i));
    AnswerOne(u, id, reply, BookingRefunded(id), Envelope(ToTicket, BookingRefunded(id)));
    assert BookingReply(u, e, answers) == reply;
    assert Next(s, Deliver(i, answers, true)) == Answer(u, id, reply);
  }

  lemma VoidArrives(s: Sys, id: Id, i: nat, answers: Answers)
    requires i + 1 == |s.queue| && LastIs(s, ToTicket, id) && LastEvent(s).BookingRefunded?
    ensures var t := Next(s, Deliver(i, answers, true));
            t.payments == s.payments && t.store == s.store && TicketsOf(t.tickets, id) == map[]
  {
    VoidClears(s.tickets, id);
    assert Next(s, Deliver(i, answers, true)) == VoidTickets(s.(queue := Without(s.queue, i)), id);
  }

  /** The payment half: the provider returns the money and says so. */
  lemma MoneyReturns(s: Sys, id: Id, answers: Answers) returns (run: seq<Step>)
    requires Reachable(s) && id in s.store.rows && s.store.rows[id].status.RefundPending?
    requires answers.refund == WILLING
    ensures var t := Exec(s, run);
            && id in t.store.rows && id in t.payments && t.payments[id].status.Returned?
            && LastIs(t, ToBooking, id) && LastEvent(t).PaymentRefunded?
  {
    ReachableInv(s);
    LifecycleHolds(s, id);
    PaidIn(s, id);
    if s.payments[id].status.Refunding? {
      ReconcileSucceeds(s, id);
      run := [ReconcileRefund(id, Some(P.Succeeded))];
      Exec1(s, run[0]);
    } else {
      run := RequestAgain(s, id, answers);
    }
  }

  lemma RequestAgain(s: Sys, id: Id, answers: Answers) returns (run: seq<Step>)
    requires Reachable(s) && id in s.store.rows && s.store.rows[id].status.RefundPending?
    requires id in s.payments && (s.payments[id].status.Paid? || s.payments[id].status.Returned?)
    requires answers.refund == WILLING
    ensures var t := Exec(s, run);
            && id in t.store.rows && id in t.payments && t.payments[id].status.Returned?
            && LastIs(t, ToBooking, id) && LastEvent(t).PaymentRefunded?
  {
    run := CronRerequests(s, id);
    var u := Exec(s, run);
    assert Inv(u) by {
      ReachableExec(s, run);
      ReachableInv(u);
    }
    var step := Deliver(|u.queue| - 1, answers, true);
    RequestSucceeds(u, id, |u.queue| - 1, answers);
    ExecThen(s, run, step);
    run := run + [step];
  }

  lemma LandingSteps(s: Sys, id: Id, answers: Answers) returns (arrive: Step, void: Step)
    requires id in s.store.rows && LastIs(s, ToBooking, id) && LastEvent(s).PaymentRefunded?
    requires id in s.payments && s.payments[id].status.Returned?
    ensures FullyRefunded(Next(Next(s, arrive), void), id) &&
              TicketsOf(Next(Next(s, arrive), void).tickets, id) == map[]
  {
    arrive := Deliver(|s.queue| - 1, answers, true);
    RefundArrives(s, id, |s.queue| - 1, answers);
    void := VoidStep(Next(s, arrive), id, answers);
  }

  lemma VoidStep(s: Sys, id: Id, answers: Answers) returns (void: Step)
    requires FullyRefunded(s, id) && LastIs(s, ToTicket, id) && LastEvent(s).BookingRefunded?
    ensures FullyRefunded(Next(s, void), id) && TicketsOf(Next(s, void).tickets, id) == map[]
  {
    void := Deliver(|s.queue| - 1, answers, true);
    VoidArrives(s, id, |s.queue| - 1, answers);
  }

  lemma TwoMore(s: Sys, run: seq<Step>, a: Step, b: Step)
    requires Reachable(s)
    ensures Exec(s, run + [a] + [b]) == Next(Next(Exec(s, run), a), b)
    ensures Reachable(Exec(s, run + [a] + [b]))
  {
    ExecThen(s, run, a);
    ExecThen(s, run + [a], b);
    ReachableExec(s, run + [a] + [b]);
  }

  /** The booking half: payment.refunded arrives, and then the tickets go. */
  lemma RefundLands(s: Sys, id: Id, before: seq<Step>, answers: Answers) returns (run: seq<Step>)
    requires Reachable(s) && id in s.store.rows
    requires var u := Exec(s, before);
             id in u.payments && u.payments[id].status.Returned? && LastIs(u, ToBooking, id) &&
                 LastEvent(u).PaymentRefunded?
    ensures var t := Exec(s, run);
            Reachable(t) && FullyRefunded(t, id) && TicketsOf(t.tickets, id) == map[]
  {
    DeadForever(s, before, id);
    var arrive, void := LandingSteps(Exec(s, before), id, answers);
    TwoMore(s, before, arrive, void);
    run := before + [arrive] + [void];
  }

  /** Money back: from every reachable state with a refund under way there is a
      run, in which the provider cooperates, to a refunded booking, a returned
      payment and no tickets. */
  lemma RefundRecovers(s: Sys, id: Id, answers: Answers) returns (run: seq<Step>)
    requires Reachable(s) && id in s.store.rows && s.store.rows[id].status.RefundPending?
    requires answers.refund == WILLING
    ensures var t := Exec(s, run);
            Reachable(t) && FullyRefunded(t, id) && TicketsOf(t.tickets, id) == map[]
  {
    run := MoneyReturns(s, id, answers);
    run := RefundLands(s, id, run, answers);
  }

  lemma PaidIn(s: Sys, id: Id)
    requires Inv(s) && id in s.store.rows && s.store.rows[id].paidAt.Some?
    ensures id in s.payments &&
              (s.payments[id].status.Paid? || s.payments[id].status.Refunding? || s.payments[id].status.Returned?)
  {
    assert BookingInv(s, id);
    var row := s.store.rows[id];
    assert FactOk(id, ViewOf(s, id), Published(PaymentSettled(id, row.totalAmount, row.paidAt.value)));
  }
}

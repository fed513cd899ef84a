/** What an accepted refund costs whose row is saved but whose event is not sent:
    booking-service hears that it failed. The customer may end with the money and
    the tickets. */
module SagaUnsent {
  import opened SagaTypes
  import opened BookingStore
  import opened TicketRules
  import opened Saga
  import opened SagaInvariant
  import opened SagaTheorem
  import opened SagaSteps
  import opened SagaSafety
  import opened SagaProgress
  import opened SagaRecovery
  import opened SagaWitness
  import R = BookingRules
  import P = PaymentRules

  /** Money back, tickets valid, and nothing in flight that could tell anybody. */
  predicate KeptForFree(s: Sys, id: Id) {
    && id in s.store.rows && s.store.rows[id].status.Confirmed?
    && TicketsOf(s.tickets, id).Keys == SeatsOfClaim(s, id) != {}
    && id in s.payments && s.payments[id].status.Returned?
    && RefundSucceeded(id) in s.log && Quiet(s, id)
  }

  /** The i-th message asks for this refund, and no other one is about the booking. */
  predicate OnlyRequest(s: Sys, i: nat, id: Id) {
    && i < |s.queue| && s.queue[i].event.BookingRefundRequested? && s.queue[i].event.booking == id
    && forall m :: m in Without(s.queue, i) ==> m.event.booking != id
  }

  predicate Unsent(answer: P.RefundAnswer) {
    answer.Accepted? && answer.saved && !answer.sent
  }

  /** The payment service: the row says what the provider said, the event the opposite. */
  lemma UnsentIsDenied(s: Sys, i: nat, answers: Answers, id: Id)
    requires Inv(s) && OnlyRequest(s, i, id) && id in s.payments && s.payments[id].status.Paid?
    requires Unsent(answers.refund)
    ensures var t := Next(s, Deliver(i, answers, true));
            && t.store == s.store && t.claims == s.claims && t.tickets == s.tickets && t.now == s.now
            && t.queue == Without(s.queue, i) + [Envelope(ToBooking, PaymentRefundFailed(id))]
            && id in t.payments
            && t.payments[id].status == (if answers.refund.succeeded then Returned else Refunding)
            && (answers.refund.succeeded ==> RefundSucceeded(id) in t.log)
  {
    KnownBooking(s, s.queue[i]);
    MoneyIsIdentified(s, id);
    RequestHandled(s, i, answers);
    UnsentQueue(id, s.payments[id], answers.refund, s.now);
    UnsentRow(id, s.payments[id], answers.refund, s.now);
  }

  lemma UnsentRow(id: Id, p: Payment, answer: P.RefundAnswer, now: Time)
    requires p.status.Paid? && p.invoiceId.Some? && Unsent(answer)
    ensures var o := P.RequestRefund(id, Some(p), answer, now);
            && o.payment.Some? && o.payment.value.status == (if answer.succeeded then Returned else Refunding)
            && (answer.succeeded ==> RefundSucceeded(id) in o.facts)
  {
  }

  lemma UnsentQueue(id: Id, p: Payment, answer: P.RefundAnswer, now: Time)
    requires p.status.Paid? && p.invoiceId.Some? && Unsent(answer)
    ensures RouteAll(P.RequestRefund(id, Some(p), answer, now).facts) == [Envelope(ToBooking, PaymentRefundFailed(id))]
  {
    var o, failed := P.RequestRefund(id, Some(p), answer, now), PaymentRefundFailed(id);
    var quiet := o.facts[..|o.facts| - 1];
    assert o.facts == quiet + [Published(failed)];
    QuietFacts(quiet, failed);
    OneMessage(failed, Envelope(ToBooking, failed));
  }

  /** The booking service: what it makes of the denial. */
  lemma DenialIsBelieved(s: Sys, id: Id, queue: seq<Envelope>)
    requires id in s.store.rows && Lifecycle(s.store.rows[id])
    requires s.queue == queue + [Envelope(ToBooking, PaymentRefundFailed(id))]
    requires forall m :: m in queue ==> m.event.booking != id
    ensures var t, row := Next(s, Deliver(|queue|, KIND_ANSWERS, true)), s.store.rows[id];
            && t.payments == s.payments && t.tickets == s.tickets && t.claims == s.claims
            && id in t.store.rows && (forall f :: f in s.log ==> f in t.log)
            && (t.store.rows[id].status.Confirmed? <==>
                  row.status.Confirmed? || (row.status.RefundPending? && row.ticketsIssuedAt.Some?))
            && (t.store.rows[id].status.Confirmed? ==> Quiet(t, id))
  {
    var step := Deliver(|queue|, KIND_ANSWERS, true);
    var row, seats := s.store.rows[id], SnapshotOf(s.store, id);
    var reply := R.RefundRefused(id, row, seats, s.now);
    assert Without(s.queue, |queue|) == queue;
    HandledRow(s, |queue|, KIND_ANSWERS, true);
    assert BookingReply(s, PaymentRefundFailed(id), KIND_ANSWERS) == reply;
    if reply.row.status.Confirmed? {
      assert reply.out == [] && Publish([]) == [] && RouteAll([]) == [];
      assert Next(s, step).queue == queue;
    }
  }

  /** The exact condition. After an accepted, saved and unsent refund, and the
      denial of it, the customer has the money and the tickets if and only if the
      provider paid at once and the booking had its tickets and its seats. */
  lemma UnsentKeepsExactly(s: Sys, i: nat, answers: Answers, id: Id)
    requires Reachable(s) && OnlyRequest(s, i, id) && Unsent(answers.refund)
    requires id in s.store.rows && id in s.payments && s.payments[id].status.Paid?
    ensures var u := Next(s, Deliver(i, answers, true));
            var t := Next(u, Deliver(|Without(s.queue, i)|, KIND_ANSWERS, true));
            && Reachable(t)
            && (KeptForFree(t, id) <==>
                  answers.refund.succeeded && R.Owns(s.store.rows[id]) && s.store.rows[id].ticketsIssuedAt.Some?)
  {
    ReachableInv(s);
    var queue, first := Without(s.queue, i), Deliver(i, answers, true);
    UnsentIsDenied(s, i, answers, id);
    var u := Next(s, first);
    ReachableNext(s, first);
    LifecycleHolds(u, id);
    DenialIsBelieved(u, id, queue);
    var second := Deliver(|queue|, KIND_ANSWERS, true);
    var t := Next(u, second);
    ReachableNext(u, second);
    LifecycleHolds(s, id);
    if t.store.rows[id].status.Confirmed? {
      LifecycleHolds(t, id);
      TicketsFollowMoney(t, id);
    }
  }

  /** And it happens: the ticket of SagaWitness, given back. */
  lemma UnsentHappens() returns (s: Sys)
    ensures Reachable(s) && KeptForFree(s, 1)
  {
    var given := GivenBack();
    var answers := KIND_ANSWERS.(refund := P.Accepted(0, true, true, false));
    OnlyMessage(given);
    assert OnlyRequest(given, 0, 1);
    UnsentKeepsExactly(given, 0, answers, 1);
    s := Next(Next(given, Deliver(0, answers, true)), Deliver(0, KIND_ANSWERS, true));
  }

  // Who finds out.

  /** The messages that tell a confirmed booking about its refund. */
  predicate TellsOfRefund(e: Event) {
    e.PaymentRefunded? || e.PaymentRefundPending? || e.BookingRefundRequested?
  }

  /** Confirmed, although the money is back. */
  predicate Unaware(s: Sys, id: Id) {
    && id in s.store.rows && s.store.rows[id].status.Confirmed?
    && id in s.payments && s.payments[id].status.Returned?
  }

  /** Neither the customer gives the booking back nor the provider calls PAID. */
  predicate Outside(step: Step, id: Id) {
    PaidCallback(step, id) || (step.CancelBooking? && step.id == id)
  }

  ghost predicate Unprompted(run: seq<Step>, id: Id) {
    forall step :: step in run ==> !Outside(step, id)
  }

  lemma ReturnedStays(s: Sys, step: Step, id: Id)
    requires id in s.payments && s.payments[id].status.Returned? && !PaidCallback(step, id)
    ensures id in Next(s, step).payments && Next(s, step).payments[id] == s.payments[id]
  {
    if FromClient(step) {
      ClientSparesReturned(s, step, id);
    } else if FromProvider(step) {
      ProviderSparesReturned(s, step, id);
    } else if FromBus(step) {
      BusSparesReturned(s, step, id);
    }
  }

  lemma UnawareClient(s: Sys, step: Step, id: Id)
    requires Unaware(s, id) && FromClient(step) && !step.HoldSeats? && !Outside(step, id)
    ensures Unsaid(ClientEffect(s, step).facts, id, TellsOfRefund)
    ensures ClientEffect(s, step).reply.Some? ==> ClientEffect(s, step).about != id
  {
  }

  lemma UnawareTime(s: Sys, step: Step, id: Id)
    requires Unaware(s, id) && !FromClient(step) && !FromProvider(step) && !FromBus(step)
    ensures Unsaid(TimeEffect(s, step).facts, id, TellsOfRefund)
    ensures TimeEffect(s, step).reply.Some? ==> TimeEffect(s, step).about != id
  {
  }

  lemma UnawareReply(s: Sys, e: Event, answers: Answers)
    requires e.booking in s.store.rows && Lifecycle(s.store.rows[e.booking])
    requires s.store.rows[e.booking].status.Confirmed?
    requires !TellsOfRefund(e)
    ensures BookingReply(s, e, answers).row.status.Confirmed? && BookingReply(s, e, answers).out == []
  {
  }

  lemma UnawareDelivery(s: Sys, i: nat, answers: Answers, ack: bool, id: Id)
    requires Inv(s) && Unaware(s, id) && i < |s.queue|
    requires s.queue[i].event.booking == id ==> !TellsOfRefund(s.queue[i].event)
    ensures var e := DeliveryOf(s, i, answers, ack);
            && Unsaid(e.facts, id, TellsOfRefund)
            && (e.reply.Some? && e.about == id ==> e.reply.value.row.status.Confirmed?)
  {
    DeliveryAbout(s, i, answers, ack);
    LifecycleNow(s, id);
    if s.queue[i].event.booking == id {
      var e := DeliveryOf(s, i, answers, ack);
      if e.reply.Some? {
        ReplyIsBookings(s, i, answers, ack);
        UnawareReply(s, s.queue[i].event, answers);
        assert Publish([]) == [];
      } else {
        OthersTellNothing(s, i, answers, ack);
      }
    }
  }

  lemma LifecycleNow(s: Sys, id: Id)
    requires Inv(s) && id in s.store.rows
    ensures Lifecycle(s.store.rows[id])
  {
    assert BookingInv(s, id);
  }

  lemma OthersTellNothing(s: Sys, i: nat, answers: Answers, ack: bool)
    requires i < |s.queue| && !s.queue[i].event.BookingRefundRequested? && DeliveryOf(s, i, answers, ack).reply.None?
    ensures Unsaid(DeliveryOf(s, i, answers, ack).facts, s.queue[i].event.booking, TellsOfRefund)
  {
  }

  lemma UnawareProvider(s: Sys, step: Step, id: Id)
    requires Unaware(s, id) && FromProvider(step) && step.id in s.payments && !Outside(step, id)
    ensures Unsaid(OutcomeOf(s, step).facts, id, TellsOfRefund)
  {
    OutcomeAbout(s, step);
  }

  /** One step of an unaware booking that nothing in flight tells. */
  lemma UnawareStep(s: Sys, step: Step, id: Id)
    requires Inv(s) && Unaware(s, id) && !InFlight(s, id, TellsOfRefund) && !Outside(step, id)
    ensures Unaware(Next(s, step), id) && !InFlight(Next(s, step), id, TellsOfRefund)
  {
    ReturnedStays(s, step, id);
    if step.HoldSeats? {
      HoldSilent(s, step);
      HoldSparesRows(s, step, id);
    } else {
      EffectSound(s, step);
      if FromClient(step) {
        UnawareClient(s, step, id);
      } else if FromProvider(step) {
        if step.id in s.payments {
          UnawareProvider(s, step, id);
        }
      } else if FromBus(step) {
        if step.i < |s.queue| && step.Deliver? {
          UnawareDelivery(s, step.i, step.answers, step.ack, id);
        }
      } else {
        UnawareTime(s, step, id);
      }
      NothingNew(s, Next(s, step), EffectOf(s, step), id, TellsOfRefund);
    }
  }

  lemma {:induction false} StaysUnaware(s: Sys, run: seq<Step>, id: Id)
    requires Reachable(s) && Unaware(s, id) && !InFlight(s, id, TellsOfRefund) && Unprompted(run, id)
    ensures Reachable(Exec(s, run)) && Unaware(Exec(s, run), id)
    ensures !InFlight(Exec(s, run), id, TellsOfRefund)
  {
    if run != [] {
      var front, last := run[..|run| - 1], run[|run| - 1];
      assert last in run;
      StaysUnaware(s, front, id);
      ReachableInv(Exec(s, front));
      UnawareStep(Exec(s, front), last, id);
      ReachableNext(Exec(s, front), last);
    }
  }

  lemma ToldRefunded(s: Sys, i: nat, id: Id)
    requires i < |s.queue| && s.queue[i].to.ToBooking? && s.queue[i].event.PaymentRefunded?
    requires s.queue[i].event.booking == id && id in s.store.rows
    ensures var t := Next(s, Deliver(i, KIND_ANSWERS, true)); id in t.store.rows && t.store.rows[id].status.Refunded?
  {
    HandledRow(s, i, KIND_ANSWERS, true);
  }

  lemma RequestAnswered(s: Sys, i: nat, id: Id)
    requires Reachable(s) && i < |s.queue| && s.queue[i].event.BookingRefundRequested? && s.queue[i].event.booking == id
    requires id in s.payments && s.payments[id].status.Returned?
    ensures var t := Next(s, Deliver(i, KIND_ANSWERS, true));
            LastIs(t, ToBooking, id) && LastEvent(t).PaymentRefunded? && id in t.store.rows
  {
    ReachableInv(s);
    KnownBooking(s, s.queue[i]);
    var p, u := s.payments[id], s.(queue := Without(s.queue, i));
    WillingOutcome(id, p, s.now);
    BookOne(u, id, P.RequestRefund(id, Some(p), WILLING, s.now), P.RefundedEvent(id, p, s.now));
    RequestHandled(s, i, KIND_ANSWERS);
  }

  /** A request in flight: the payment service repeats its word, and it arrives. */
  lemma RequestTells(s: Sys, i: nat, id: Id) returns (run: seq<Step>)
    requires Reachable(s) && i < |s.queue| && s.queue[i].event.BookingRefundRequested? && s.queue[i].event.booking == id
    requires id in s.payments && s.payments[id].status.Returned?
    ensures Unprompted(run, id) && id in Exec(s, run).store.rows && Exec(s, run).store.rows[id].status.Refunded?
  {
    var ask := Deliver(i, KIND_ANSWERS, true);
    RequestAnswered(s, i, id);
    var u := Next(s, ask);
    var tell := Deliver(|u.queue| - 1, KIND_ANSWERS, true);
    ToldRefunded(u, |u.queue| - 1, id);
    run := [ask, tell];
    Exec2(s, ask, tell);
  }

  lemma ToldPending(s: Sys, i: nat, id: Id)
    requires Inv(s) && Unaware(s, id) && i < |s.queue|
    requires s.queue[i].event.PaymentRefundPending? && s.queue[i].event.booking == id
    ensures var t := Next(s, Deliver(i, KIND_ANSWERS, true));
            id in t.store.rows && t.store.rows[id].status.RefundPending?
  {
    KnownBooking(s, s.queue[i]);
    LifecycleNow(s, id);
    HandledRow(s, i, KIND_ANSWERS, true);
  }

  lemma {:induction false} ExecConcat(s: Sys, a: seq<Step>, b: seq<Step>)
    ensures Exec(s, a + b) == Exec(Exec(s, a), b)
  {
    if b == [] {
      assert a + b == a;
    } else {
      ExecConcat(s, a, b[..|b| - 1]);
      assert (a + b)[..|a + b| - 1] == a + b[..|b| - 1];
    }
  }

  /** A stale payment.refund_pending has the cron ask again. */
  lemma PendingTells(s: Sys, i: nat, id: Id) returns (run: seq<Step>)
    requires Reachable(s) && Unaware(s, id) && i < |s.queue|
    requires s.queue[i].event.PaymentRefundPending? && s.queue[i].event.booking == id
    ensures Unprompted(run, id) && id in Exec(s, run).store.rows && Exec(s, run).store.rows[id].status.Refunded?
  {
    ReachableInv(s);
    var hear := Deliver(i, KIND_ANSWERS, true);
    ToldPending(s, i, id);
    ReturnedStays(s, hear, id);
    ReachableNext(s, hear);
    var rest := WaitingLearns(Next(s, hear), id);
    run := [hear] + rest;
    Exec1(s, hear);
    ExecConcat(s, [hear], rest);
  }

  lemma WaitingLearns(s: Sys, id: Id) returns (run: seq<Step>)
    requires Reachable(s) && id in s.store.rows && s.store.rows[id].status.RefundPending?
    requires id in s.payments && s.payments[id].status.Returned?
    ensures Unprompted(run, id) && id in Exec(s, run).store.rows && Exec(s, run).store.rows[id].status.Refunded?
  {
    var cron := CronRerequests(s, id);
    ReachableExec(s, cron);
    var rest := LastRequestTells(Exec(s, cron), id);
    run := cron + rest;
    CronIsUnprompted(cron, id);
    ExecConcat(s, cron, rest);
  }

  lemma CronIsUnprompted(run: seq<Step>, id: Id)
    requires |run| == 2 && run[0].Tick? && run[1].RetryRefund?
    ensures Unprompted(run, id)
  {
    assert run == [run[0], run[1]];
  }

  lemma LastRequestTells(s: Sys, id: Id) returns (run: seq<Step>)
    requires Reachable(s) && LastIs(s, ToPayment, id) && LastEvent(s).BookingRefundRequested?
    requires id in s.payments && s.payments[id].status.Returned?
    ensures Unprompted(run, id) && id in Exec(s, run).store.rows && Exec(s, run).store.rows[id].status.Refunded?
  {
    run := RequestTells(s, |s.queue| - 1, id);
  }

  ghost predicate CanLearn(s: Sys, id: Id) {
    exists run: seq<Step> ::
      Unprompted(run, id) && id in Exec(s, run).store.rows && Exec(s, run).store.rows[id].status.Refunded?
  }

  /** The exact condition: without the customer and without a PAID callback, a
      confirmed booking whose money is back becomes refunded if and only if one of
      these messages is in flight. No cron looks for it. */
  lemma LearnsExactly(s: Sys, id: Id)
    requires Reachable(s) && Unaware(s, id)
    ensures CanLearn(s, id) <==> InFlight(s, id, TellsOfRefund)
  {
    if InFlight(s, id, TellsOfRefund) {
      var run := Told(s, id);
    }
    if CanLearn(s, id) && !InFlight(s, id, TellsOfRefund) {
      var run: seq<Step> :| Unprompted(run, id) && id in Exec(s, run).store.rows
                            && Exec(s, run).store.rows[id].status.Refunded?;
      StaysUnaware(s, run, id);
    }
  }

  lemma Told(s: Sys, id: Id) returns (run: seq<Step>)
    requires Reachable(s) && Unaware(s, id) && InFlight(s, id, TellsOfRefund)
    ensures Unprompted(run, id) && id in Exec(s, run).store.rows && Exec(s, run).store.rows[id].status.Refunded?
  {
    var m :| m in s.queue && m.event.booking == id && TellsOfRefund(m.event);
    var i: nat :| i < |s.queue| && s.queue[i] == m;
    if m.event.BookingRefundRequested? {
      run := RequestTells(s, i, id);
    } else if m.event.PaymentRefundPending? {
      run := PendingTells(s, i, id);
    } else {
      ReachableInv(s);
      KnownBooking(s, m);
      ToldRefunded(s, i, id);
      run := [Deliver(i, KIND_ANSWERS, true)];
      Exec1(s, run[0]);
    }
  }
}

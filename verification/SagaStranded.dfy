/** Which money moves. A payment that is PAID for a booking that does not own its
    seats either buys them or comes back, without the provider calling again, if
    and only if payment.settled or booking.refund.requested is in flight. */
module SagaStranded {
  import opened SagaTypes
  import opened BookingStore
  import opened TicketRules
  import opened Saga
  import opened SagaInvariant
  import opened SagaProof
  import opened SagaTheorem
  import opened SagaSteps
  import opened SagaSafety
  import opened SeatLedger
  import opened SagaProgress
  import opened SagaRecovery
  import opened SagaWitness
  import R = BookingRules
  import P = PaymentRules

  /** The two messages that make something happen to money. */
  predicate MovesMoney(e: Event) {
    e.PaymentSettled? || e.BookingRefundRequested?
  }

  /** Money came in for a booking that does not own its seats. */
  predicate Waiting(s: Sys, id: Id) {
    && id in s.store.rows && !R.Owns(s.store.rows[id])
    && id in s.payments && s.payments[id].status.Paid?
  }

  /** And neither message about it is in flight. */
  predicate Stranded(s: Sys, id: Id) {
    Waiting(s, id) && !InFlight(s, id, MovesMoney)
  }

  // Stranded money stays.

  /** The message that only a delivery to the payment service can turn into a refund. */
  predicate HandsRequest(s: Sys, step: Step, id: Id) {
    && step.Deliver? && step.i < |s.queue|
    && s.queue[step.i].event.BookingRefundRequested? && s.queue[step.i].event.booking == id
  }

  lemma ClientSparesPaid(s: Sys, step: Step, id: Id)
    requires FromClient(step) && id in s.payments && s.payments[id].status.Paid?
    ensures id in ClientNext(s, step).payments && ClientNext(s, step).payments[id] == s.payments[id]
  {
  }

  lemma ProviderSparesPaid(s: Sys, step: Step, id: Id)
    requires FromProvider(step) && id in s.payments && s.payments[id].status.Paid?
    ensures id in ProviderNext(s, step).payments && ProviderNext(s, step).payments[id] == s.payments[id]
  {
  }

  lemma HandlesSparePaid(s: Sys, e: Event, answers: Answers, id: Id)
    requires id in s.payments && s.payments[id].status.Paid? && !(e.BookingRefundRequested? && e.booking == id)
    ensures var t := PaymentHandles(s, e, answers); id in t.payments && t.payments[id] == s.payments[id]
  {
  }

  lemma BusSparesPaid(s: Sys, step: Step, id: Id)
    requires FromBus(step) && id in s.payments && s.payments[id].status.Paid? && !HandsRequest(s, step, id)
    ensures id in BusNext(s, step).payments && BusNext(s, step).payments[id] == s.payments[id]
  {
    if step.i < |s.queue| && step.Deliver? {
      HandlesSparePaid(s.(queue := Rest(s, step.i, step.ack)), s.queue[step.i].event, step.answers, id);
    }
  }

  /** Only a refund request changes a payment that is PAID. */
  lemma PaidStays(s: Sys, step: Step, id: Id)
    requires id in s.payments && s.payments[id].status.Paid? && !HandsRequest(s, step, id)
    ensures id in Next(s, step).payments && Next(s, step).payments[id] == s.payments[id]
  {
    if FromClient(step) {
      ClientSparesPaid(s, step, id);
    } else if FromProvider(step) {
      ProviderSparesPaid(s, step, id);
    } else if FromBus(step) {
      BusSparesPaid(s, step, id);
    }
  }

  lemma ClientSays(s: Sys, step: Step, id: Id)
    requires Waiting(s, id) && FromClient(step)
    ensures Unsaid(ClientEffect(s, step).facts, id, MovesMoney)
  {
  }

  lemma ProviderSays(s: Sys, step: Step, id: Id)
    requires Waiting(s, id) && FromProvider(step) && step.id in s.payments && !PaidCallback(step, id)
    ensures Unsaid(OutcomeOf(s, step).facts, id, MovesMoney)
  {
    OutcomeAbout(s, step);
  }

  lemma TimeSays(s: Sys, step: Step, id: Id)
    requires Waiting(s, id) && !FromClient(step) && !FromProvider(step) && !FromBus(step)
    ensures Unsaid(TimeEffect(s, step).facts, id, MovesMoney)
  {
  }

  lemma DeliverySays(s: Sys, i: nat, answers: Answers, ack: bool, id: Id)
    requires i < |s.queue| && (s.queue[i].event.booking == id ==> !MovesMoney(s.queue[i].event))
    ensures Unsaid(DeliveryOf(s, i, answers, ack).facts, id, MovesMoney)
  {
    DeliveryAbout(s, i, answers, ack);
    var m := s.queue[i];
    if m.event.booking == id && m.to.ToBooking? && id in s.store.rows {
      PublishMembers(BookingReply(s, m.event, answers).out);
    }
  }

  lemma StrandedSays(s: Sys, step: Step, id: Id)
    requires Stranded(s, id) && !PaidCallback(step, id) && !step.HoldSeats?
    ensures Unsaid(EffectOf(s, step).facts, id, MovesMoney)
  {
    if FromClient(step) {
      ClientSays(s, step, id);
    } else if FromProvider(step) {
      if step.id in s.payments {
        ProviderSays(s, step, id);
      }
    } else if FromBus(step) {
      if step.i < |s.queue| && step.Deliver? {
        DeliverySays(s, step.i, step.answers, step.ack, id);
      }
    } else {
      TimeSays(s, step, id);
    }
  }

  lemma StrandedRow(s: Sys, step: Step, id: Id)
    requires Inv(s) && Stranded(s, id)
    ensures id in Next(s, step).store.rows && !R.Owns(Next(s, step).store.rows[id])
  {
    if step.HoldSeats? {
      HoldSparesRows(s, step, id);
    } else {
      RowMoves(s, step, id);
      RowCauses(s, step, id);
    }
  }

  lemma StrandedStep(s: Sys, step: Step, id: Id)
    requires Inv(s) && Stranded(s, id) && !PaidCallback(step, id)
    ensures Stranded(Next(s, step), id)
  {
    StrandedRow(s, step, id);
    PaidStays(s, step, id);
    if step.HoldSeats? {
      HoldSilent(s, step);
    } else {
      StrandedSays(s, step, id);
      EffectSound(s, step);
      NothingNew(s, Next(s, step), EffectOf(s, step), id, MovesMoney);
    }
  }

  /** Stranded money stays stranded through any run, syncs and crons included, in
      which the provider does not call back that this invoice is paid. */
  lemma {:induction false} StrandedWithoutCallback(s: Sys, run: seq<Step>, id: Id)
    requires Reachable(s) && Stranded(s, id) && NoPaidCallback(run, id)
    ensures Reachable(Exec(s, run)) && Stranded(Exec(s, run), id)
  {
    if run != [] {
      var front, last := run[..|run| - 1], run[|run| - 1];
      StrandedWithoutCallback(s, front, id);
      assert last in run;
      ReachableInv(Exec(s, front));
      StrandedStep(Exec(s, front), last, id);
      ReachableNext(Exec(s, front), last);
    }
  }

  // Money with a message in flight moves.

  /** The booking owns its seats, or the money is back. */
  predicate Moved(s: Sys, id: Id) {
    || (id in s.store.rows && R.Owns(s.store.rows[id]))
    || (id in s.payments && s.payments[id].status.Returned?)
  }

  lemma RequestGivesBack(s: Sys, i: nat, id: Id)
    requires Inv(s) && id in s.payments && s.payments[id].status.Paid?
    requires i < |s.queue| && s.queue[i].event.BookingRefundRequested? && s.queue[i].event.booking == id
    ensures var t := Next(s, Deliver(i, KIND_ANSWERS, true)); id in t.payments && t.payments[id].status.Returned?
  {
    KnownBooking(s, s.queue[i]);
    MoneyIsIdentified(s, id);
    WillingOutcome(id, s.payments[id], s.now);
    RequestHandled(s, i, KIND_ANSWERS);
  }

  lemma SettlementReply(s: Sys, e: Event)
    requires e.PaymentSettled? && e.booking in s.store.rows && Lifecycle(s.store.rows[e.booking])
    requires !R.Owns(s.store.rows[e.booking])
    ensures var reply := BookingReply(s, e, KIND_ANSWERS);
            R.Owns(reply.row) || BookingRefundRequested(e.booking, e.amount) in reply.out
  {
  }

  predicate Requests(m: Envelope, id: Id) {
    m.event.BookingRefundRequested? && m.event.booking == id
  }

  /** Whatever the booking service says is in flight afterwards. */
  lemma SaidIsQueued(s: Sys, i: nat, e: Event, m: Envelope)
    requires i < |s.queue| && s.queue[i].to.ToBooking? && s.queue[i].event.booking in s.store.rows
    requires !Throws(s, s.queue[i], KIND_ANSWERS) && m in Route(e)
    requires e in BookingReply(s, s.queue[i].event, KIND_ANSWERS).out
    ensures m in Next(s, Deliver(i, KIND_ANSWERS, true)).queue
  {
    HandledRow(s, i, KIND_ANSWERS, true);
    PublishMembers(BookingReply(s, s.queue[i].event, KIND_ANSWERS).out);
  }

  lemma SettlementAsks(s: Sys, i: nat, id: Id)
    requires i < |s.queue| && s.queue[i].to.ToBooking? && s.queue[i].event.PaymentSettled?
    requires s.queue[i].event.booking == id && id in s.store.rows
    requires Lifecycle(s.store.rows[id]) && !R.Owns(s.store.rows[id])
    ensures var t := Next(s, Deliver(i, KIND_ANSWERS, true));
            || (id in t.store.rows && R.Owns(t.store.rows[id]))
            || (exists j: nat :: j < |t.queue| && Requests(t.queue[j], id))
  {
    var e, t := s.queue[i].event, Next(s, Deliver(i, KIND_ANSWERS, true));
    SettlementReply(s, e);
    if R.Owns(BookingReply(s, e, KIND_ANSWERS).row) {
      HandledRow(s, i, KIND_ANSWERS, true);
    } else {
      var asked := BookingRefundRequested(id, e.amount);
      SaidIsQueued(s, i, asked, Envelope(ToPayment, asked));
      var j: nat :| j < |t.queue| && t.queue[j] == Envelope(ToPayment, asked);
      assert Requests(t.queue[j], id);
    }
  }

  lemma SettlementMoves(s: Sys, i: nat, id: Id)
    requires Inv(s) && Waiting(s, id)
    requires i < |s.queue| && s.queue[i].event.PaymentSettled? && s.queue[i].event.booking == id
    ensures var t := Next(s, Deliver(i, KIND_ANSWERS, true));
            || (id in t.store.rows && R.Owns(t.store.rows[id]))
            || (exists j: nat :: j < |t.queue| && Requests(t.queue[j], id))
    ensures var t := Next(s, Deliver(i, KIND_ANSWERS, true)); id in t.payments && t.payments[id] == s.payments[id]
  {
    KnownBooking(s, s.queue[i]);
    assert Lifecycle(s.store.rows[id]) by {
      ReadyNow(s, id);
    }
    SettlementAsks(s, i, id);
    PaidStays(s, Deliver(i, KIND_ANSWERS, true), id);
  }

  lemma MotionMoves(s: Sys, id: Id) returns (run: seq<Step>)
    requires Reachable(s) && Waiting(s, id) && InFlight(s, id, MovesMoney)
    ensures NoPaidCallback(run, id) && Moved(Exec(s, run), id)
  {
    ReachableInv(s);
    var m :| m in s.queue && m.event.booking == id && MovesMoney(m.event);
    var i: nat :| i < |s.queue| && s.queue[i] == m;
    var step := Deliver(i, KIND_ANSWERS, true);
    run := [step];
    Exec1(s, step);
    if m.event.BookingRefundRequested? {
      RequestGivesBack(s, i, id);
    } else {
      SettlementMoves(s, i, id);
      var t := Next(s, step);
      if !(id in t.store.rows && R.Owns(t.store.rows[id])) {
        var j: nat :| j < |t.queue| && Requests(t.queue[j], id);
        ReachableNext(s, step);
        ReachableInv(t);
        RequestGivesBack(t, j, id);
        run := [step, Deliver(j, KIND_ANSWERS, true)];
        Exec2(s, step, Deliver(j, KIND_ANSWERS, true));
      }
    }
  }

  ghost predicate CanMove(s: Sys, id: Id) {
    exists run: seq<Step> :: NoPaidCallback(run, id) && Moved(Exec(s, run), id)
  }

  ghost predicate CanReturn(s: Sys, id: Id) {
    exists run: seq<Step> ::
      NoPaidCallback(run, id) && id in Exec(s, run).payments && Exec(s, run).payments[id].status.Returned?
  }

  /** The exact condition under which money converges without another PAID
      callback: the seats become the customer's or the money comes back. */
  lemma MoneyMovesExactly(s: Sys, id: Id)
    requires Reachable(s) && Waiting(s, id)
    ensures CanMove(s, id) <==> InFlight(s, id, MovesMoney)
  {
    if InFlight(s, id, MovesMoney) {
      var run := MotionMoves(s, id);
    }
    if CanMove(s, id) && !InFlight(s, id, MovesMoney) {
      var run: seq<Step> :| NoPaidCallback(run, id) && Moved(Exec(s, run), id);
      StrandedWithoutCallback(s, run, id);
    }
  }

  /** For a booking that is over only the second can happen: late money comes back
      if and only if one of the two messages is in flight. */
  lemma LateMoneyReturnsExactly(s: Sys, id: Id)
    requires Reachable(s) && Waiting(s, id) && Dead(s.store.rows[id])
    ensures CanReturn(s, id) <==> InFlight(s, id, MovesMoney)
  {
    if InFlight(s, id, MovesMoney) {
      var run := MotionMoves(s, id);
      DeadForever(s, run, id);
      LifecycleHolds(Exec(s, run), id);
    }
    if CanReturn(s, id) && !InFlight(s, id, MovesMoney) {
      var run: seq<Step> :| NoPaidCallback(run, id) && id in Exec(s, run).payments
                            && Exec(s, run).payments[id].status.Returned?;
      StrandedWithoutCallback(s, run, id);
    }
  }

  // The way out: a PAID callback.

  /** A booking that no longer wants the money. */
  predicate Closing(s: Sys, id: Id) {
    id in s.store.rows && (Dead(s.store.rows[id]) || s.store.rows[id].status.RefundPending?)
  }

  lemma SettlementBounces(s: Sys, id: Id, i: nat, answers: Answers)
    requires Closing(s, id) && i + 1 == |s.queue| && LastIs(s, ToBooking, id) && LastEvent(s).PaymentSettled?
    ensures var t := Next(s, Deliver(i, answers, true));
            && t.payments == s.payments && t.store.rows == s.store.rows
            && LastIs(t, ToPayment, id) && LastEvent(t).BookingRefundRequested?
  {
    var e, row := LastEvent(s), s.store.rows[id];
    var out := BookingRefundRequested(id, e.amount);
    var reply := R.Reply(row, false, [out]);
    var u := s.(queue := Without(s.queue, i));
    AnswerOne(u, id, reply, out, Envelope(ToPayment, out));
    assert BookingReply(u, e, answers) == reply;
    assert Next(s, Deliver(i, answers, true)) == Answer(u, id, reply);
  }

  lemma CallbackSettles(s: Sys, id: Id)
    requires id in s.payments
    ensures var t := Next(s, Callback(id, 0, P.Money, None));
            && t.store == s.store && id in t.payments && t.payments[id].status.Paid?
            && LastIs(t, ToBooking, id) && LastEvent(t).PaymentSettled?
            && (s.payments[id].status.Returned? ==> EnteredPaid(id, true) in t.log)
  {
    var o := P.ApplyPaid(id, s.payments[id], None, s.now);
    var settled := P.SettledEvent(id, o.payment.value, s.now);
    PaidSays(id, s.payments[id], s.now);
    BookOne(s, id, o, settled);
    assert Next(s, Callback(id, 0, P.Money, None)) == Book(s, id, o);
  }

  lemma PaidSays(id: Id, p: Payment, now: Time)
    ensures var o := P.ApplyPaid(id, p, None, now);
            && o.payment.Some? && o.payment.value.status.Paid? && o.facts != []
            && o.facts[|o.facts| - 1] == Published(P.SettledEvent(id, o.payment.value, now))
            && (forall f :: f in o.facts[..|o.facts| - 1] ==> !f.Published?)
            && (p.status.Returned? ==> EnteredPaid(id, true) in o.facts)
  {
  }

  lemma BounceRefunds(s: Sys, id: Id, answers: Answers) returns (bounce: Step, give: Step)
    requires Reachable(s) && Closing(s, id) && LastIs(s, ToBooking, id) && LastEvent(s).PaymentSettled?
    requires id in s.payments && s.payments[id].status.Paid? && answers.refund == WILLING
    ensures var t := Next(Next(s, bounce), give);
            && id in t.payments && t.payments[id].status.Returned?
            && LastIs(t, ToBooking, id) && LastEvent(t).PaymentRefunded?
            && forall f :: f in s.log ==> f in t.log
  {
    bounce := Deliver(|s.queue| - 1, answers, true);
    SettlementBounces(s, id, |s.queue| - 1, answers);
    ReachableNext(s, bounce);
    give := Give(Next(s, bounce), id, answers);
    LogGrowsTwice(s, bounce, give);
  }

  lemma Give(s: Sys, id: Id, answers: Answers) returns (give: Step)
    requires Reachable(s) && LastIs(s, ToPayment, id) && LastEvent(s).BookingRefundRequested?
    requires id in s.payments && s.payments[id].status.Paid? && answers.refund == WILLING
    ensures var t := Next(s, give);
            && id in t.payments && t.payments[id].status.Returned?
            && LastIs(t, ToBooking, id) && LastEvent(t).PaymentRefunded?
  {
    ReachableInv(s);
    give := Deliver(|s.queue| - 1, answers, true);
    RequestSucceeds(s, id, |s.queue| - 1, answers);
  }

  lemma LogGrowsTwice(s: Sys, a: Step, b: Step)
    ensures forall f :: f in s.log ==> f in Next(Next(s, a), b).log
  {
    forall f | f in s.log
      ensures f in Next(Next(s, a), b).log
    {
      LogGrows(s, a, f);
      LogGrows(Next(s, a), b, f);
    }
  }

  /** A PAID callback about a booking that no longer wants the money makes the
      provider refund it, whether or not it already did. */
  lemma CallbackRefunds(s: Sys, id: Id, answers: Answers) returns (run: seq<Step>)
    requires Reachable(s) && Closing(s, id) && id in s.payments && answers.refund == WILLING
    ensures var t := Exec(s, run);
            && id in t.payments && t.payments[id].status.Returned?
            && LastIs(t, ToBooking, id) && LastEvent(t).PaymentRefunded?
            && (s.payments[id].status.Returned? ==> EnteredPaid(id, true) in t.log)
  {
    ReachableInv(s);
    var call := Callback(id, 0, P.Money, None);
    CallbackSettles(s, id);
    ReachableNext(s, call);
    var bounce, give := BounceRefunds(Next(s, call), id, answers);
    run := [call] + [bounce] + [give];
    Exec1(s, call);
    ExecThen(s, [call], bounce);
    ExecThen(s, [call] + [bounce], give);
  }

  /** One more PAID callback frees money that is stranded on a booking that is
      over: the refund then runs to its end. */
  lemma CallbackRescues(s: Sys, id: Id, answers: Answers) returns (run: seq<Step>)
    requires Reachable(s) && Stranded(s, id) && Dead(s.store.rows[id]) && answers.refund == WILLING
    ensures var t := Exec(s, run);
            Reachable(t) && FullyRefunded(t, id) && TicketsOf(t.tickets, id) == map[]
  {
    run := CallbackRefunds(s, id, answers);
    run := RefundLands(s, id, run, answers);
  }

  // How money gets stranded.

  /** The only message about the booking that moves money is the i-th. */
  predicate LastHope(s: Sys, i: nat, id: Id) {
    && i < |s.queue| && s.queue[i].event.booking == id
    && forall m :: m in Without(s.queue, i) && m.event.booking == id ==> !MovesMoney(m.event)
  }

  /** A handler that throws loses its message for good, so a settlement that was
      the last hope and throws is never made up for: in no continuation without
      another PAID callback does it buy seats or come back. */
  lemma ThrownSettlementStrands(s: Sys, i: nat, answers: Answers, ack: bool, run: seq<Step>, id: Id)
    requires Reachable(s) && Waiting(s, id) && LastHope(s, i, id) && Throws(s, s.queue[i], answers)
    requires NoPaidCallback(run, id)
    ensures Stranded(Exec(Next(s, Deliver(i, answers, ack)), run), id)
    ensures !Moved(Exec(Next(s, Deliver(i, answers, ack)), run), id)
  {
    var step := Deliver(i, answers, ack);
    assert Next(s, step) == Dropped(s, i);
    ReachableNext(s, step);
    StrandedWithoutCallback(Next(s, step), run, id);
  }

  /** When the provider refuses the refund of a late payment, the booking ignores
      the refusal: if that request was the last hope, the money is stranded. */
  lemma RefusalStrands(s: Sys, i: nat, answers: Answers, id: Id)
    requires Inv(s) && Waiting(s, id) && LastHope(s, i, id) && s.queue[i].event.BookingRefundRequested?
    requires answers.refund.Declined?
    ensures Stranded(Next(s, Deliver(i, answers, true)), id)
    ensures Next(s, Deliver(i, answers, true)).store == s.store
  {
    KnownBooking(s, s.queue[i]);
    var u, refused := s.(queue := Without(s.queue, i)), PaymentRefundFailed(id);
    var o := P.RequestRefund(id, Some(s.payments[id]), answers.refund, s.now);
    assert o == P.Outcome(Some(s.payments[id]), [Published(refused)]);
    RequestHandled(s, i, answers);
    RefusalBooks(u, id, o);
  }

  lemma RefusalBooks(u: Sys, id: Id, o: P.Outcome)
    requires id in u.payments && o == P.Outcome(Some(u.payments[id]), [Published(PaymentRefundFailed(id))])
    ensures Book(u, id, o).payments == u.payments && Book(u, id, o).store == u.store
    ensures Book(u, id, o).queue == u.queue + [Envelope(ToBooking, PaymentRefundFailed(id))]
  {
    OneMessage(PaymentRefundFailed(id), Envelope(ToBooking, PaymentRefundFailed(id)));
    assert u.payments[id := u.payments[id]] == u.payments;
  }

  // One lost message is enough, and the code loses it by itself.

  /** The hold of SagaWitness, paid for, with payment.settled gone. */
  predicate Forgotten(s: Sys) {
    && s.now == 0 && s.queue == [] && s.store.rows == map[1 := HELD_ROW] && s.payments == PaidState().payments
  }

  /** Its deadline passes, and the cron expires it. */
  lemma Lapses(s: Sys) returns (t: Sys)
    requires Reachable(s) && Forgotten(s)
    ensures Reachable(t) && Stranded(t, 1) && t.store.rows[1].status.Expired?
  {
    var run := [Tick(HOLD_TTL_MS + 1), ExpireStale(1)];
    StrandedWithoutCallback(s, run, 1);
    Exec2(s, run[0], run[1]);
    t := Exec(s, run);
    SweptAway(Next(s, run[0]));
  }

  lemma SweptAway(late: Sys)
    requires late.now == HOLD_TTL_MS + 1 && late.store.rows == map[1 := HELD_ROW]
    ensures var t := Next(late, ExpireStale(1)); 1 in t.store.rows && t.store.rows[1].status.Expired?
  {
    assert R.Stale(HELD_ROW, late.now);
    assert Next(late, ExpireStale(1)) == Answer(late, 1, R.Expire(1, HELD_ROW));
  }

  /** The bus loses payment.settled once. */
  lemma LossStrands() returns (s: Sys)
    ensures Reachable(s) && Stranded(s, 1) && s.store.rows[1].status.Expired?
  {
    PurchaseReachable();
    ReachableNext(PaidState(), Drop(0));
    s := Lapses(Next(PaidState(), Drop(0)));
  }

  /** Or the bus loses nothing at all: booking-service has restarted, so it asks
      Redis about the hold, and Redis is down when payment.settled arrives. */
  lemma OutageStrands(answers: Answers) returns (s: Sys)
    requires answers.probe == R.Unreachable
    ensures Reachable(s) && Stranded(s, 1) && s.store.rows[1].status.Expired?
  {
    PurchaseReachable();
    ReachableNext(PaidState(), Restart);
    OutageThrows(answers);
    var u := Next(PaidState(), Restart);
    ReachableNext(u, Deliver(0, answers, true));
    s := Lapses(Next(u, Deliver(0, answers, true)));
  }

  lemma OutageThrows(answers: Answers)
    requires answers.probe == R.Unreachable
    ensures Forgotten(Next(Next(PaidState(), Restart), Deliver(0, answers, true)))
  {
    var u := Next(PaidState(), Restart);
    assert SnapshotOf(u.store, 1) == map[SEAT := 50];
    assert SEAT in SnapshotOf(u.store, 1);
    assert Throws(u, u.queue[0], answers);
    assert Next(u, Deliver(0, answers, true)) == Dropped(u, 0);
  }

  /** Or the customer cancels while the money is on its way, and the provider
      then refuses to give it back. */
  lemma CancelledMoneyStrands(answers: Answers) returns (s: Sys)
    requires answers.refund.Declined?
    ensures Reachable(s) && Stranded(s, 1) && s.store.rows[1].status.Cancelled?
  {
    var late := LateMoney();
    ReachableInv(late);
    RefusalStrands(late, |late.queue| - 1, answers, 1);
    s := Next(late, Deliver(|late.queue| - 1, answers, true));
    ReachableNext(late, Deliver(|late.queue| - 1, answers, true));
  }
}

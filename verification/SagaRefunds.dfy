/** How a refund ends. Once booking and payment are both refunded, every run
    without disturbance delivers a bounded number of messages. The tickets go
    exactly if a message that leads to their voiding was in flight at the start. */
module SagaRefunds {
  import opened SagaTypes
  import opened TicketRules
  import opened Saga
  import opened SagaInvariant
  import opened SagaProof
  import opened SagaTheorem
  import opened SagaSteps
  import opened SagaSafety
  import opened SagaProgress
  import opened SagaRecovery
  import opened SagaWitness
  import R = BookingRules
  import P = PaymentRules

  /** Handling it on a refunded booking voids the tickets or says another such event. */
  predicate LeadsToVoid(e: Event) {
    || e.PaymentSettled? || e.BookingRefundRequested? || e.PaymentRefunded?
    || e.BookingConfirmed? || e.TicketsIssued? || e.BookingRefunded?
  }

  /** The booking has no ticket, or its tickets are on their way out. */
  predicate TicketsGo(s: Sys, id: Id) {
    TicketsOf(s.tickets, id) == map[] || InFlight(s, id, LeadsToVoid)
  }

  /** What a refunded booking has said next about its refund. */
  function NextWord(s: Sys, e: Event): Event
    requires FullyRefunded(s, e.booking) && LeadsToVoid(e)
  {
    match e
    case PaymentSettled(id, amount, _) => BookingRefundRequested(id, amount)
    case BookingRefundRequested(id, _) => P.RefundedEvent(id, s.payments[id], s.now)
    case BookingConfirmed(id, showtime, seats, amount, at) => TicketsIssued(id, showtime, seats, amount, at)
    case _ => BookingRefunded(e.booking)
  }

  lemma NextWordLeads(s: Sys, e: Event)
    requires FullyRefunded(s, e.booking) && LeadsToVoid(e)
    ensures LeadsToVoid(NextWord(s, e)) && NextWord(s, e).booking == e.booking && Route(NextWord(s, e)) != []
  {
  }

  /** Every message that leads there is answered by the next one, but for the last. */
  lemma WordFollows(s: Sys, i: nat, answers: Answers, ack: bool)
    requires Inv(s) && i < |s.queue| && FullyRefunded(s, s.queue[i].event.booking) && LeadsToVoid(s.queue[i].event)
    requires !s.queue[i].event.BookingRefunded?
    ensures Published(NextWord(s, s.queue[i].event)) in DeliveryOf(s, i, answers, ack).facts
  {
    var m := s.queue[i];
    KnownBooking(s, m);
    NeverThrows(s, i, answers);
    if m.to.ToBooking? {
      RefundedReply(s, m.event, answers);
      PublishMembers(BookingReply(s, m.event, answers).out);
    }
  }

  lemma LastWordVoids(s: Sys, i: nat, answers: Answers, ack: bool)
    requires Inv(s) && i < |s.queue| && s.queue[i].event.BookingRefunded?
    ensures TicketsOf(Delivered(s, i, answers, ack).tickets, s.queue[i].event.booking) == map[]
  {
    KnownBooking(s, s.queue[i]);
    VoidClears(s.tickets, s.queue[i].event.booking);
    assert Delivered(s, i, answers, ack) == VoidTickets(s.(queue := Rest(s, i, ack)), s.queue[i].event.booking);
  }

  /** Every other message of a refunded booking leads nowhere. */
  lemma OtherWords(s: Sys, i: nat, answers: Answers, ack: bool)
    requires Inv(s) && i < |s.queue| && FullyRefunded(s, s.queue[i].event.booking) && !LeadsToVoid(s.queue[i].event)
    ensures Unsaid(DeliveryOf(s, i, answers, ack).facts, s.queue[i].event.booking, LeadsToVoid)
  {
    var m := s.queue[i];
    KnownBooking(s, m);
    if m.to.ToBooking? {
      RefundedReply(s, m.event, answers);
      PublishMembers(BookingReply(s, m.event, answers).out);
    }
  }

  /** booking.cancelled and booking.expired are only said of bookings without tickets. */
  lemma NeverTicketed(s: Sys, m: Envelope)
    requires Inv(s) && m in s.queue && (m.event.BookingCancelled? || m.event.BookingExpired?)
    ensures TicketsOf(s.tickets, m.event.booking) == map[]
  {
    KnownBooking(s, m);
    assert BookingInv(s, m.event.booking);
  }

  lemma EndVoids(s: Sys, i: nat, answers: Answers, ack: bool)
    requires i < |s.queue| && s.queue[i].to.ToTicket?
    requires s.queue[i].event.BookingCancelled? || s.queue[i].event.BookingExpired?
    ensures TicketsOf(Delivered(s, i, answers, ack).tickets, s.queue[i].event.booking) == map[]
  {
    var id := s.queue[i].event.booking;
    VoidClears(s.tickets, id);
    assert Delivered(s, i, answers, ack) == VoidTickets(s.(queue := Rest(s, i, ack)), id);
  }

  lemma OtherWordsSpare(s: Sys, i: nat, answers: Answers, ack: bool)
    requires Inv(s) && i < |s.queue| && FullyRefunded(s, s.queue[i].event.booking) && !LeadsToVoid(s.queue[i].event)
    ensures var id := s.queue[i].event.booking;
            TicketsOf(Delivered(s, i, answers, ack).tickets, id) == TicketsOf(s.tickets, id)
  {
    var m := s.queue[i];
    KnownBooking(s, m);
    if m.to.ToTicket? {
      NeverTicketed(s, m);
      EndVoids(s, i, answers, ack);
    } else {
      ElsewhereSpares(s, i, answers, ack);
    }
  }

  lemma ElsewhereSpares(s: Sys, i: nat, answers: Answers, ack: bool)
    requires i < |s.queue| && !s.queue[i].to.ToTicket?
    ensures Delivered(s, i, answers, ack).tickets == s.tickets
  {
    OthersSpareTickets(s, Deliver(i, answers, ack));
    assert Next(s, Deliver(i, answers, ack)) == Delivered(s, i, answers, ack);
  }

  /** Steps about other bookings leave the tickets of this one alone. */
  lemma OthersSpareTicketsOf(s: Sys, step: Step, id: Id)
    requires !Delivers(s, step, id)
    ensures TicketsOf(Next(s, step).tickets, id) == TicketsOf(s.tickets, id)
  {
    if ReachesTickets(s, step) {
      var u, e := s.(queue := Rest(s, step.i, step.ack)), s.queue[step.i].event;
      assert Next(s, step) == TicketHandles(u, e, step.answers);
      HandlesSpareTicketsOf(u, e, step.answers, id);
    } else {
      OthersSpareTickets(s, step);
    }
  }

  lemma HandlesSpareTicketsOf(s: Sys, e: Event, answers: Answers, id: Id)
    requires e.booking != id
    ensures TicketsOf(TicketHandles(s, e, answers).tickets, id) == TicketsOf(s.tickets, id)
  {
    VoidClears(s.tickets, e.booking);
    if e.BookingConfirmed? {
      IssueCovers(s.tickets, e.booking, e.seats.Keys, answers.codes);
    }
  }

  // Undisturbed runs.

  lemma GoDelivered(s: Sys, i: nat, answers: Answers)
    requires Inv(s) && i < |s.queue| && FullyRefunded(s, s.queue[i].event.booking)
    ensures TicketsGo(Delivered(s, i, answers, true), s.queue[i].event.booking) <==>
              TicketsGo(s, s.queue[i].event.booking)
  {
    var e, t, effect := s.queue[i].event, Delivered(s, i, answers, true), DeliveryOf(s, i, answers, true);
    DeliveryAccounts(s, i, answers, true);
    NeverThrows(s, i, answers);
    if e.BookingRefunded? {
      LastWordVoids(s, i, answers, true);
    } else if LeadsToVoid(e) {
      WordFollows(s, i, answers, true);
      NextWordLeads(s, e);
      SaidIsInFlight(s, t, effect, NextWord(s, e), LeadsToVoid);
    } else {
      OtherWords(s, i, answers, true);
      OtherWordsSpare(s, i, answers, true);
      KeptInFlight(s, t, effect, e.booking);
    }
  }

  lemma KeptInFlight(s: Sys, t: Sys, e: Effect, id: Id)
    requires Accounts(s, t, e) && Unsaid(e.facts, id, LeadsToVoid)
    requires e.taken.Some? && e.taken.value < |s.queue| && s.queue[e.taken.value].event.booking == id ==>
               !LeadsToVoid(s.queue[e.taken.value].event)
    ensures InFlight(t, id, LeadsToVoid) <==> InFlight(s, id, LeadsToVoid)
  {
    NothingNew(s, t, e, id, LeadsToVoid);
    if InFlight(s, id, LeadsToVoid) {
      StillInFlight(s, t, e, id, LeadsToVoid);
    }
  }

  lemma GoOthers(s: Sys, step: Step, id: Id)
    requires FullyRefunded(s, id) && Undisturbed(s, step, id) && !Delivers(s, step, id)
    ensures TicketsGo(Next(s, step), id) <==> TicketsGo(s, id)
  {
    OthersSpareTicketsOf(s, step, id);
    if step.HoldSeats? {
      HoldSilent(s, step);
    } else {
      EffectSound(s, step);
      OthersAreSilent(s, step, id);
      KeptInFlight(s, Next(s, step), EffectOf(s, step), id);
    }
  }

  /** Undisturbed steps of a refunded booking keep its tickets going, or keep them. */
  lemma GoStep(s: Sys, step: Step, id: Id)
    requires Inv(s) && FullyRefunded(s, id) && Undisturbed(s, step, id)
    ensures TicketsGo(Next(s, step), id) <==> TicketsGo(s, id)
  {
    if Delivers(s, step, id) {
      GoDelivered(s, step.i, step.answers);
      assert Next(s, step) == Delivered(s, step.i, step.answers, true);
    } else {
      GoOthers(s, step, id);
    }
  }

  /** Refund convergence. Once booking and payment are both refunded, any run
      without provider callbacks for the booking and without loss or redelivery
      of its messages delivers at most Load of them, whatever else goes on, and
      whatever was lost before. When none is left, no ticket of the booking is
      left either, even if stale confirmations re-created some on the way, exactly
      if at the start there was none or one of these messages was in flight. */
  lemma {:induction false} RefundConverges(s: Sys, run: seq<Step>, id: Id)
    requires Reachable(s) && FullyRefunded(s, id) && UndisturbedRun(s, run, id)
    ensures var t := Exec(s, run);
            && Reachable(t) && FullyRefunded(t, id)
            && Deliveries(s, run, id) + Load(t.queue, id) <= Load(s.queue, id)
            && (TicketsGo(t, id) <==> TicketsGo(s, id))
            && (Quiet(t, id) ==> (TicketsOf(t.tickets, id) == map[] <==> TicketsGo(s, id)))
  {
    if run != [] {
      var front, last := run[..|run| - 1], run[|run| - 1];
      RefundConverges(s, front, id);
      LoadFalls(Exec(s, front), last, id);
      ReachableInv(Exec(s, front));
      GoStep(Exec(s, front), last, id);
      ReachableNext(Exec(s, front), last);
    }
  }

  /** Such a run to the end always exists: just keep delivering. */
  lemma {:induction false} RefundDrains(s: Sys, id: Id, answers: Answers) returns (run: seq<Step>)
    requires Reachable(s) && FullyRefunded(s, id)
    ensures UndisturbedRun(s, run, id) && Quiet(Exec(s, run), id)
    ensures TicketsOf(Exec(s, run).tickets, id) == map[] <==> TicketsGo(s, id)
    decreases Load(s.queue, id)
  {
    LoadZero(s.queue, id);
    if Quiet(s, id) {
      run := [];
    } else {
      var i: nat :| i < |s.queue| && s.queue[i].event.booking == id;
      var step := Deliver(i, answers, true);
      LoadFalls(s, step, id);
      ReachableInv(s);
      GoStep(s, step, id);
      ReachableNext(s, step);
      var rest := RefundDrains(Next(s, step), id, answers);
      run := [step] + rest;
      RunFrom(s, step, rest, id);
    }
  }

  lemma {:induction false} RunFrom(s: Sys, step: Step, rest: seq<Step>, id: Id)
    ensures Exec(s, [step] + rest) == Exec(Next(s, step), rest)
    ensures Undisturbed(s, step, id) && UndisturbedRun(Next(s, step), rest, id) ==> UndisturbedRun(s, [step] + rest, id)
  {
    var run := [step] + rest;
    if rest == [] {
      assert run[..0] == [] && run[0] == step;
      assert Exec(s, run[..0]) == s;
    } else {
      RunFrom(s, step, rest[..|rest| - 1], id);
      assert run[..|run| - 1] == [step] + rest[..|rest| - 1];
    }
  }

  /** Without losses about the booking the tickets always go. */
  lemma NoLossNoTickets(s: Sys, id: Id)
    requires Reachable(s) && FullyRefunded(s, id) && Lost(id) !in s.log
    ensures TicketsGo(s, id)
  {
    ReachableInv(s);
    assert BookingInv(s, id);
    var v := ViewOf(s, id);
    if v.tickets != map[] {
      var a, b := Envelope(ToTicket, BookingRefunded(id)), Envelope(ToBooking, Issuance(id, v.row.value, v.claim));
      assert a in s.queue || b in s.queue;
      assert a.event.booking == id && b.event.booking == id;
    }
  }

  // Any run at all, disturbed or not.

  lemma CallbackSays(s: Sys, step: Step, id: Id)
    requires FromProvider(step) && step.id in s.payments && FullyRefunded(s, id) && !PaidCallback(step, id)
    ensures Unsaid(OutcomeOf(s, step).facts, id, LeadsToVoid)
  {
    OutcomeAbout(s, step);
  }

  lemma KeptSays(s: Sys, step: Step, id: Id)
    requires Inv(s) && FullyRefunded(s, id) && !TicketsGo(s, id) && !PaidCallback(step, id) && !step.HoldSeats?
    ensures Unsaid(EffectOf(s, step).facts, id, LeadsToVoid)
  {
    if FromBus(step) {
      if step.i < |s.queue| && step.Deliver? {
        DeliveryAbout(s, step.i, step.answers, step.ack);
        if s.queue[step.i].event.booking == id {
          OtherWords(s, step.i, step.answers, step.ack);
        }
      }
    } else if FromProvider(step) {
      if step.id in s.payments {
        CallbackSays(s, step, id);
      }
    } else if FromClient(step) {
      ClientAbout(s, step);
    } else {
      TimeAbout(s, step);
    }
  }

  lemma KeptStep(s: Sys, step: Step, id: Id)
    requires Inv(s) && FullyRefunded(s, id) && !TicketsGo(s, id) && !PaidCallback(step, id)
    ensures FullyRefunded(Next(s, step), id) && !TicketsGo(Next(s, step), id)
    ensures TicketsOf(Next(s, step).tickets, id) == TicketsOf(s.tickets, id)
  {
    RefundedStays(s, step, id);
    if Delivers(s, step, id) {
      OtherWordsSpare(s, step.i, step.answers, step.ack);
      assert Next(s, step) == Delivered(s, step.i, step.answers, step.ack);
    } else {
      OthersSpareTicketsOf(s, step, id);
    }
    if step.HoldSeats? {
      HoldSilent(s, step);
    } else {
      KeptSays(s, step, id);
      EffectSound(s, step);
      NothingNew(s, Next(s, step), EffectOf(s, step), id, LeadsToVoid);
    }
  }

  /** Tickets of a refunded booking that are not on their way out stay through any
      run, crons included, in which the provider does not call back PAID. */
  lemma {:induction false} TicketsKept(s: Sys, run: seq<Step>, id: Id)
    requires Reachable(s) && FullyRefunded(s, id) && !TicketsGo(s, id) && NoPaidCallback(run, id)
    ensures var t := Exec(s, run);
            Reachable(t) && FullyRefunded(t, id) && !TicketsGo(t, id) &&
                TicketsOf(t.tickets, id) == TicketsOf(s.tickets, id)
  {
    if run != [] {
      var front, last := run[..|run| - 1], run[|run| - 1];
      assert last in run;
      TicketsKept(s, front, id);
      ReachableInv(Exec(s, front));
      KeptStep(Exec(s, front), last, id);
      ReachableNext(Exec(s, front), last);
    }
  }

  lemma {:induction false} UndisturbedHasNoCallback(s: Sys, run: seq<Step>, id: Id)
    requires UndisturbedRun(s, run, id)
    ensures NoPaidCallback(run, id)
  {
    if run != [] {
      UndisturbedHasNoCallback(s, run[..|run| - 1], id);
      assert run == run[..|run| - 1] + [run[|run| - 1]];
    }
  }

  ghost predicate CanLoseTickets(s: Sys, id: Id) {
    exists run: seq<Step> :: NoPaidCallback(run, id) && TicketsOf(Exec(s, run).tickets, id) == map[]
  }

  /** The exact condition: the tickets of a refunded booking can go without a PAID
      callback if and only if there are none, or a message that leads to it is in flight. */
  lemma TicketsGoExactly(s: Sys, id: Id, answers: Answers)
    requires Reachable(s) && FullyRefunded(s, id)
    ensures CanLoseTickets(s, id) <==> TicketsGo(s, id)
  {
    if TicketsGo(s, id) {
      var run := RefundDrains(s, id, answers);
      UndisturbedHasNoCallback(s, run, id);
    }
    if CanLoseTickets(s, id) && !TicketsGo(s, id) {
      var run: seq<Step> :| NoPaidCallback(run, id) && TicketsOf(Exec(s, run).tickets, id) == map[];
      TicketsKept(s, run, id);
    }
  }

  // And tickets are kept.

  const RETURNED: Payment := PAID_FOR.(status := Returned, refundId := Some(0), refundedAt := Some(0))

  /** The ticket of SagaWitness, given back and paid back. */
  lemma PaidBack() returns (s: Sys)
    ensures Reachable(s) && s.store.rows == map[1 := REFUNDING_ROW] && s.payments == map[1 := RETURNED]
    ensures s.queue == [Envelope(ToBooking, PaymentRefunded(1, 0))] && TicketsOf(s.tickets, 1).Keys == {SEAT}
  {
    var given := GivenBack();
    var step, told := Deliver(0, KIND_ANSWERS, true), PaymentRefunded(1, 0);
    s := Next(given, step);
    ReachableNext(given, step);
    OnlyMessage(given);
    RequestHandled(given, 0, KIND_ANSWERS);
    WillingOutcome(1, PAID_FOR, 0);
    var o := P.RequestRefund(1, Some(PAID_FOR), WILLING, 0);
    assert o.payment == Some(RETURNED);
    QuietFacts([RefundAccepted(1, 50, true), RefundSucceeded(1)], told);
    OneMessage(told, Envelope(ToBooking, told));
    assert given.payments[1 := RETURNED] == map[1 := RETURNED];
  }

  /** And the booking hears it. */
  lemma BackAndOver() returns (s: Sys)
    ensures Reachable(s) && FullyRefunded(s, 1)
    ensures s.queue == [Envelope(ToTicket, BookingRefunded(1))] && TicketsOf(s.tickets, 1).Keys == {SEAT}
  {
    var paid := PaidBack();
    var step := Deliver(0, KIND_ANSWERS, true);
    s := Next(paid, step);
    ReachableNext(paid, step);
    RefundHeard(paid);
  }

  lemma RefundHeard(s: Sys)
    requires s.queue == [Envelope(ToBooking, PaymentRefunded(1, 0))] && s.store.rows == map[1 := REFUNDING_ROW]
    ensures var t := Next(s, Deliver(0, KIND_ANSWERS, true));
            && t.queue == [Envelope(ToTicket, BookingRefunded(1))] && t.payments == s.payments && t.tickets == s.tickets
            && 1 in t.store.rows && t.store.rows[1].status.Refunded?
  {
    OnlyMessage(s);
    HandledRow(s, 0, KIND_ANSWERS, true);
    var over := BookingRefunded(1);
    assert BookingReply(s, PaymentRefunded(1, 0), KIND_ANSWERS) == R.RefundDone(1, REFUNDING_ROW, 0);
    assert Publish([over]) == [Published(over)];
    OneMessage(over, Envelope(ToTicket, over));
  }

  /** One loss after the refund: booking and payment are refunded, nothing is in
      flight, and the ticket is valid. */
  lemma KeptTicketHappens() returns (s: Sys)
    ensures Reachable(s) && FullyRefunded(s, 1) && Quiet(s, 1)
    ensures TicketsOf(s.tickets, 1).Keys == {SEAT} && !TicketsGo(s, 1)
  {
    var refunded := BackAndOver();
    s := Next(refunded, Drop(0));
    ReachableNext(refunded, Drop(0));
    OnlyMessage(refunded);
    assert SEAT in TicketsOf(s.tickets, 1);
  }
}

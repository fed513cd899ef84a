/** What the system reaches: confirmation progress, agreement when the queues
    are empty, and the measure that refunds run down. */
module SagaProgress {
  import opened SagaTypes
  import opened TicketRules
  import opened Saga
  import opened SagaInvariant
  import opened SagaProof
  import opened SagaTheorem
  import opened SagaSteps
  import opened SagaSafety
  import R = BookingRules
  import P = PaymentRules

  /** Nothing about the booking is in flight. */
  predicate Quiet(s: Sys, id: Id) {
    forall m :: m in s.queue ==> m.event.booking != id
  }

  /** A paid booking without tickets either has its confirmation in flight or
      has lost a message; and the retry cron picks it up as soon as its throttle
      allows, whatever was lost. */
  lemma ConfirmationProgress(s: Sys, id: Id)
    requires Reachable(s) && id in s.store.rows
    requires s.store.rows[id].status.Pending? && s.store.rows[id].paidAt.Some?
    ensures var row := s.store.rows[id];
            && (Lost(id) !in s.log ==>
                  exists m :: m in s.queue && m.event.booking == id &&
                      (m.event.BookingConfirmed? || m.event.TicketsIssued?))
            && row.ticketsIssuedAt.None?
            && (R.Unticketed(row, s.now) <==> R.Older(row.confirmationAttemptedAt, s.now - RETRY_INTERVAL_MS))
  {
    ReachableInv(s);
    assert BookingInv(s, id);
    var v := ViewOf(s, id);
    var r := v.row.value;
    if Lost(id) !in s.log {
      var a, b := Envelope(ToTicket, Confirmation(id, r, v.claim)), Envelope(ToBooking, Issuance(id, r, v.claim));
      assert a in s.queue || b in s.queue;
    }
  }

  /** Once nothing about a booking is in flight and nothing about it was lost,
      the three services agree on it. The last clause also needs that no PAID
      callback arrived after a refund had started. */
  lemma QuiescentAgreement(s: Sys, id: Id)
    requires Reachable(s) && id in s.store.rows && Quiet(s, id) && Lost(id) !in s.log
    ensures var row, tickets := s.store.rows[id], TicketsOf(s.tickets, id);
            && !(row.status.Pending? && row.paidAt.Some?)
            && (row.status.Confirmed? ==> tickets.Keys == SeatsOfClaim(s, id) != {})
            && (Dead(row) || row.status.Pending? ==> tickets == map[])
            && (id in s.payments && R.Unpaid(row) ==> s.payments[id].status.Unpaid? || s.payments[id].status.Failed?)
            && (EnteredPaid(id, true) !in s.log ==>
                  (row.status.Refunded? <==> id in s.payments && s.payments[id].status.Returned?))
  {
    ReachableInv(s);
    assert BookingInv(s, id);
    var v := ViewOf(s, id);
    var row := v.row.value;
    assert forall to, e: Event :: e.booking == id ==> !Queued(s.queue, to, e);
    QuietTickets(s, id);
    if v.payment.Some? && R.Unpaid(row) {
      QuietUnpaid(id, v, s.now, s.log, s.queue);
    }
    if v.payment.Some? && v.payment.value.status.Returned? {
      assert PaymentRefunded(id, v.payment.value.refundedAt.value).booking == id;
    }
  }

  lemma QuietTickets(s: Sys, id: Id)
    requires Reachable(s) && id in s.store.rows && Quiet(s, id) && Lost(id) !in s.log
    ensures var row, tickets := s.store.rows[id], TicketsOf(s.tickets, id);
            && !(row.status.Pending? && row.paidAt.Some?)
            && (row.status.Confirmed? ==> tickets.Keys == SeatsOfClaim(s, id) != {})
            && (Dead(row) || row.status.Pending? ==> tickets == map[])
  {
    ReachableInv(s);
    assert BookingInv(s, id);
    assert forall to, e: Event :: e.booking == id ==> !Queued(s.queue, to, e);
    TicketsFollowMoney(s, id);
  }

  lemma QuietUnpaid(id: Id, v: View, now: Time, log: seq<Fact>, queue: seq<Envelope>)
    requires ViewInv(id, v, now, log, queue) && v.row.Some? && R.Unpaid(v.row.value) && v.payment.Some?
    requires Lost(id) !in log && forall m :: m in queue ==> m.event.booking != id
    ensures v.payment.value.status.Unpaid? || v.payment.value.status.Failed?
  {
    var p := v.payment.value;
    var settled := PaymentSettled(id, p.amount, p.paidAt.Or(now));
    assert settled.booking == id && !Queued(queue, ToBooking, settled);
    assert RefundAccepted(id, p.amount, true) in log ==> FactOk(id, v, RefundAccepted(id, p.amount, true));
  }

  // Refunds converge.

  /** How many deliveries a message can still cause, itself included. */
  function Weight(e: Event): nat {
    match e
    case PaymentSettled(_, _, _) => 4
    case BookingRefundRequested(_, _) => 3
    case BookingConfirmed(_, _, _, _, _) => 3
    case PaymentRefunded(_, _) => 2
    case TicketsIssued(_, _, _, _, _) => 2
    case _ => 1
  }

  function WeightFor(m: Envelope, id: Id): nat {
    if m.event.booking == id then Weight(m.event) else 0
  }

  function Load(queue: seq<Envelope>, id: Id): nat {
    if queue == [] then 0
    else WeightFor(queue[0], id) + Load(queue[1..], id)
  }

  lemma {:induction false} LoadConcat(a: seq<Envelope>, b: seq<Envelope>, id: Id)
    ensures Load(a + b, id) == Load(a, id) + Load(b, id)
  {
    if a == [] {
      assert a + b == b;
    } else {
      LoadConcat(a[1..], b, id);
      assert (a + b)[1..] == a[1..] + b;
    }
  }

  lemma LoadWithout(queue: seq<Envelope>, i: nat, id: Id)
    requires i < |queue|
    ensures Load(queue, id) == Load(Without(queue, i), id) + WeightFor(queue[i], id)
  {
    LoadConcat(queue[..i], queue[i + 1..], id);
    LoadConcat(queue[..i], queue[i..], id);
    assert queue[..i] + queue[i..] == queue;
    assert queue[i..][1..] == queue[i + 1..];
  }

  lemma {:induction false} LoadZero(queue: seq<Envelope>, id: Id)
    ensures Load(queue, id) == 0 <==> forall m :: m in queue ==> m.event.booking != id
  {
    if queue != [] {
      LoadZero(queue[1..], id);
      assert queue == [queue[0]] + queue[1..];
    }
  }

  lemma {:induction false} LoadOthers(facts: seq<Fact>, id: Id)
    requires forall f :: f in facts ==> f.About() != id
    ensures Load(RouteAll(facts), id) == 0
  {
    LoadZero(RouteAll(facts), id);
    forall m | m in RouteAll(facts)
      ensures m.event.booking != id
    {
      var f :| f in facts && f.Published? && m in Route(f.event);
      RoutesKeepEvent(f.event);
    }
  }

  predicate FullyRefunded(s: Sys, id: Id) {
    && id in s.store.rows && s.store.rows[id].status.Refunded?
    && id in s.payments && s.payments[id].status.Returned?
  }

  predicate Delivers(s: Sys, step: Step, id: Id) {
    step.Deliver? && step.i < |s.queue| && s.queue[step.i].event.booking == id
  }

  /** No provider callback for the booking, and none of its messages lost or redelivered. */
  predicate Undisturbed(s: Sys, step: Step, id: Id) {
    && !(step.Callback? && step.id == id)
    && !(step.Drop? && step.i < |s.queue| && s.queue[step.i].event.booking == id)
    && (Delivers(s, step, id) ==> step.ack)
  }

  lemma OneLoad(e: Event)
    ensures Load(RouteAll([Published(e)]), e.booking) == Load(Route(e), e.booking)
    ensures |Route(e)| == 1 ==> Load(Route(e), e.booking) == Weight(e)
    ensures |Route(e)| == 0 ==> Load(Route(e), e.booking) == 0
  {
    assert RouteAll([Published(e)]) == Route(e) + RouteAll([Published(e)][1..]) == Route(e);
    RoutesKeepEvent(e);
    if |Route(e)| == 1 {
      assert Route(e)[0] in Route(e) && Route(e)[1..] == [];
    }
  }

  /** What the booking service says about a refunded booking. */
  lemma RefundedReply(s: Sys, e: Event, answers: Answers)
    requires e.booking in s.store.rows && s.store.rows[e.booking].status.Refunded?
    ensures BookingReply(s, e, answers).out
         == match e
            case PaymentSettled(_, amount, _) => [BookingRefundRequested(e.booking, amount)]
            case PaymentRefunded(_, _) => [BookingRefunded(e.booking)]
            case TicketsIssued(_, _, _, _, _) => [BookingRefunded(e.booking)]
            case _ => []
  {
  }

  lemma Singleton(e: Event)
    ensures Publish([e]) == [Published(e)] && Publish([]) == []
  {
  }

  lemma BookingLighter(s: Sys, e: Event, answers: Answers)
    requires e.booking in s.store.rows && s.store.rows[e.booking].status.Refunded?
    ensures var facts := Publish(BookingReply(s, e, answers).out);
            Lost(e.booking) !in facts && Load(RouteAll(facts), e.booking) < Weight(e)
  {
    RefundedReply(s, e, answers);
    match e
    case PaymentSettled(_, amount, _) =>
      Singleton(BookingRefundRequested(e.booking, amount));
      OneLoad(BookingRefundRequested(e.booking, amount));
    case PaymentRefunded(_, _) =>
      Singleton(BookingRefunded(e.booking));
      OneLoad(BookingRefunded(e.booking));
    case TicketsIssued(_, _, _, _, _) =>
      Singleton(BookingRefunded(e.booking));
      OneLoad(BookingRefunded(e.booking));
    case _ => Singleton(e);
  }

  lemma PaymentLighter(id: Id, amount: int, p: Payment, refund: P.RefundAnswer, now: Time)
    requires p.status.Returned?
    ensures var facts := P.RequestRefund(id, Some(p), refund, now).facts;
            Lost(id) !in facts && Load(RouteAll(facts), id) < Weight(BookingRefundRequested(id, amount))
  {
    OneLoad(P.RefundedEvent(id, p, now));
  }

  lemma TicketLighter(s: Sys, i: nat, answers: Answers)
    requires i < |s.queue| && s.queue[i].to.ToTicket? && s.queue[i] in Route(s.queue[i].event)
    requires !Throws(s, s.queue[i], answers)
    ensures var id, facts := s.queue[i].event.booking, DeliveryOf(s, i, answers, true).facts;
            Lost(id) !in facts && Load(RouteAll(facts), id) < Weight(s.queue[i].event)
  {
    var e := s.queue[i].event;
    OneLoad(TicketsVoided(e.booking));
    if e.BookingConfirmed? {
      OneLoad(TicketsIssued(e.booking, e.showtime, e.seats, e.amount, e.confirmedAt));
    }
  }

  lemma NeverThrows(s: Sys, i: nat, answers: Answers)
    requires Inv(s) && i < |s.queue| && FullyRefunded(s, s.queue[i].event.booking)
    ensures !Throws(s, s.queue[i], answers)
  {
    KnownBooking(s, s.queue[i]);
    assert BookingInv(s, s.queue[i].event.booking);
  }

  /** On a settled booking every handler says something lighter than what it heard. */
  lemma HandlersAreLighter(s: Sys, i: nat, answers: Answers)
    requires Inv(s) && i < |s.queue| && FullyRefunded(s, s.queue[i].event.booking)
    ensures var id, e := s.queue[i].event.booking, DeliveryOf(s, i, answers, true);
            Lost(id) !in e.facts && Load(RouteAll(e.facts), id) < Weight(s.queue[i].event)
  {
    var m := s.queue[i];
    var id := m.event.booking;
    KnownBooking(s, m);
    NeverThrows(s, i, answers);
    match m.to
    case ToBooking => BookingLighter(s, m.event, answers);
    case ToPayment =>
      if m.event.BookingRefundRequested? {
        PaymentLighter(id, m.event.amount, s.payments[id], answers.refund, s.now);
      }
    case ToTicket => TicketLighter(s, i, answers);
  }

  lemma RestLoad(s: Sys, e: Effect, id: Id)
    requires e.taken.Some? ==> e.taken.value < |s.queue|
    ensures Load(s.queue, id) == Load(Remaining(s, e), id)
              + if e.taken.Some? then WeightFor(s.queue[e.taken.value], id) else 0
  {
    if e.taken.Some? {
      LoadWithout(s.queue, e.taken.value, id);
    }
  }

  /** Any other step says nothing about a settled booking. */
  lemma OthersAreSilent(s: Sys, step: Step, id: Id)
    requires FullyRefunded(s, id) && Undisturbed(s, step, id) && !Delivers(s, step, id)
    ensures forall f :: f in EffectOf(s, step).facts ==> f.About() != id
    ensures EffectOf(s, step).taken.Some? ==>
              EffectOf(s, step).taken.value < |s.queue| && s.queue[EffectOf(s, step).taken.value].event.booking != id
  {
    if FromBus(step) {
      if step.i < |s.queue| && step.Deliver? {
        DeliveryAbout(s, step.i, step.answers, step.ack);
      }
    } else if FromProvider(step) {
      if step.id in s.payments && step.id != id {
        OutcomeAbout(s, step);
      }
    } else if FromClient(step) {
      ClientAbout(s, step);
    } else {
      TimeAbout(s, step);
    }
  }

  lemma DeliveryAbout(s: Sys, i: nat, answers: Answers, ack: bool)
    requires i < |s.queue|
    ensures forall f :: f in DeliveryOf(s, i, answers, ack).facts ==> f.About() == s.queue[i].event.booking
    ensures DeliveryOf(s, i, answers, ack).taken.Some? ==> DeliveryOf(s, i, answers, ack).taken.value == i
  {
  }

  lemma OutcomeAbout(s: Sys, step: Step)
    requires FromProvider(step) && step.id in s.payments
    ensures forall f :: f in OutcomeOf(s, step).facts ==> f.About() == step.id
  {
  }

  lemma ClientAbout(s: Sys, step: Step)
    requires FromClient(step)
    ensures ClientEffect(s, step).taken.None?
    ensures forall f :: f in ClientEffect(s, step).facts ==>
              f.About() in s.store.rows && !s.store.rows[f.About()].status.Refunded?
  {
  }

  lemma TimeAbout(s: Sys, step: Step)
    requires !FromClient(step) && !FromProvider(step) && !FromBus(step)
    ensures TimeEffect(s, step).taken.None?
    ensures forall f :: f in TimeEffect(s, step).facts ==>
              f.About() in s.store.rows && !s.store.rows[f.About()].status.Refunded?
  {
  }

  lemma ClientSparesReturned(s: Sys, step: Step, id: Id)
    requires FromClient(step) && id in s.payments && s.payments[id].status.Returned?
    ensures id in ClientNext(s, step).payments && ClientNext(s, step).payments[id] == s.payments[id]
  {
  }

  lemma ProviderSparesReturned(s: Sys, step: Step, id: Id)
    requires FromProvider(step) && id in s.payments && s.payments[id].status.Returned? && !PaidCallback(step, id)
    ensures id in ProviderNext(s, step).payments && ProviderNext(s, step).payments[id] == s.payments[id]
  {
  }

  lemma PaymentHandlesSpares(s: Sys, e: Event, answers: Answers, id: Id)
    requires id in s.payments && s.payments[id].status.Returned?
    ensures id in PaymentHandles(s, e, answers).payments && PaymentHandles(s, e, answers).payments[id] == s.payments[id]
  {
  }

  lemma BusSparesReturned(s: Sys, step: Step, id: Id)
    requires FromBus(step) && id in s.payments && s.payments[id].status.Returned?
    ensures id in BusNext(s, step).payments && BusNext(s, step).payments[id] == s.payments[id]
  {
    if step.i < |s.queue| && step.Deliver? {
      PaymentHandlesSpares(s.(queue := Rest(s, step.i, step.ack)), s.queue[step.i].event, step.answers, id);
    }
  }

  lemma RefundedStays(s: Sys, step: Step, id: Id)
    requires Inv(s) && FullyRefunded(s, id) && !PaidCallback(step, id)
    ensures FullyRefunded(Next(s, step), id)
  {
    RowMoves(s, step, id);
    if FromClient(step) {
      ClientSparesReturned(s, step, id);
    } else if FromProvider(step) {
      ProviderSparesReturned(s, step, id);
    } else if FromBus(step) {
      BusSparesReturned(s, step, id);
    }
  }

  /** One step of a settled booking: its load never grows, and every delivery of
      one of its messages makes it strictly smaller. */
  lemma LoadFalls(s: Sys, step: Step, id: Id)
    requires Reachable(s) && FullyRefunded(s, id) && Undisturbed(s, step, id)
    ensures var t := Next(s, step);
            && FullyRefunded(t, id)
            && Load(t.queue, id) + (if Delivers(s, step, id) then 1 else 0) <= Load(s.queue, id)
            && (Lost(id) in t.log ==> Lost(id) in s.log)
  {
    ReachableInv(s);
    RefundedStays(s, step, id);
    if step.HoldSeats? {
      HoldSilent(s, step);
    } else if Delivers(s, step, id) {
      DeliveryLightens(s, step, id);
    } else {
      OthersKeepLoad(s, step, id);
    }
  }

  /** The load after a step, from what it takes and says. */
  lemma LoadAfter(s: Sys, t: Sys, e: Effect, id: Id)
    requires Accounts(s, t, e) && (e.taken.Some? ==> e.taken.value < |s.queue|)
    ensures Load(t.queue, id)
              + (if e.taken.Some? then WeightFor(s.queue[e.taken.value], id) else 0)
         == Load(s.queue, id) + Load(RouteAll(e.facts), id)
    ensures Lost(id) in t.log <==> Lost(id) in s.log || Lost(id) in e.facts
  {
    LoadConcat(Remaining(s, e), RouteAll(e.facts), id);
    RestLoad(s, e, id);
  }

  lemma DeliveryLightens(s: Sys, step: Step, id: Id)
    requires Inv(s) && FullyRefunded(s, id) && Delivers(s, step, id) && step.ack
    ensures var t := Next(s, step); Load(t.queue, id) < Load(s.queue, id) && (Lost(id) in t.log ==> Lost(id) in s.log)
  {
    NeverThrows(s, step.i, step.answers);
    HandlersAreLighter(s, step.i, step.answers);
    DeliveryAccounts(s, step.i, step.answers, true);
    LoadAfter(s, Delivered(s, step.i, step.answers, true), DeliveryOf(s, step.i, step.answers, true), id);
    assert Next(s, step) == Delivered(s, step.i, step.answers, true);
  }

  lemma OthersKeepLoad(s: Sys, step: Step, id: Id)
    requires !step.HoldSeats? && FullyRefunded(s, id) && Undisturbed(s, step, id) && !Delivers(s, step, id)
    ensures var t := Next(s, step); Load(t.queue, id) == Load(s.queue, id) && (Lost(id) in t.log ==> Lost(id) in s.log)
  {
    EffectSound(s, step);
    OthersAreSilent(s, step, id);
    LoadOthers(EffectOf(s, step).facts, id);
    LoadAfter(s, Next(s, step), EffectOf(s, step), id);
    assert Lost(id).About() == id;
  }

  predicate UndisturbedRun(s: Sys, run: seq<Step>, id: Id) {
    run == [] ||
    (UndisturbedRun(s, run[..|run| - 1], id) && Undisturbed(Exec(s, run[..|run| - 1]), run[|run| - 1], id))
  }

  /** How many messages about the booking a run delivers. */
  function Deliveries(s: Sys, run: seq<Step>, id: Id): nat {
    if run == [] then 0
    else Deliveries(s, run[..|run| - 1], id) + if Delivers(Exec(s, run[..|run| - 1]), run[|run| - 1], id) then 1 else 0
  }
}

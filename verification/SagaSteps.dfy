/** A uniform account of what one step consumes, replies and records. */
module SagaSteps {
  import opened SagaTypes
  import opened BookingStore
  import opened TicketRules
  import opened Saga
  import opened SagaInvariant
  import opened SagaProof
  import opened SagaHandlers
  import opened SagaTheorem
  import R = BookingRules
  import P = PaymentRules

  /** The message taken off the queue, the booking reply if a row was answered,
      the facts recorded, and the one booking all of these are about. */
  datatype Effect = Effect(about: Id, taken: Option<nat>, reply: Option<R.Reply>, facts: seq<Fact>)

  const SILENT := Effect(0, None, None, [])

  function Replied(id: Id, taken: Option<nat>, reply: R.Reply): Effect {
    Effect(id, taken, Some(reply), Publish(reply.out))
  }

  function DeliveryOf(s: Sys, i: nat, answers: Answers, ack: bool): Effect
    requires i < |s.queue|
  {
    var m := s.queue[i];
    var id, taken := m.event.booking, if ack then Some(i) else None;
    if Throws(s, m, answers) then Effect(id, Some(i), None, [Lost(id)])
    else
      match m.to
      case ToBooking =>
        if id in s.store.rows then Replied(id, taken, BookingReply(s, m.event, answers))
            else Effect(id, taken, None, [])
      case ToPayment =>
        Effect(id, taken, None,
               if m.event.BookingRefundRequested?
                   then P.RequestRefund(id, PaymentOf(s, id), answers.refund, s.now).facts else [])
      case ToTicket =>
        match m.event
        case BookingConfirmed(_, showtime, seats, amount, at) =>
          Effect(id, taken, None, [Published(TicketsIssued(id, showtime, seats, amount, at))])
        case BookingRefunded(_) => Effect(id, taken, None, [Published(TicketsVoided(id))])
        case BookingCancelled(_, _) => Effect(id, taken, None, [Published(TicketsVoided(id))])
        case BookingExpired(_) => Effect(id, taken, None, [Published(TicketsVoided(id))])
        case _ => Effect(id, taken, None, [])
  }

  function ClientEffect(s: Sys, step: Step): Effect
    requires FromClient(step)
  {
    match step
    case CancelBooking(id, user) =>
      if id !in s.store.rows then SILENT
      else
        var c := R.Cancel(id, s.store.rows[id], user, s.now);
        if c.Done? then Replied(id, None, c.reply) else SILENT
    case PrepareCharge(id, user, probe) =>
      if id !in s.store.rows then SILENT
      else
        var c := R.PrepareCharge(id, s.store.rows[id], user, SnapshotOf(s.store, id), s.now, probe);
        if c.Gone? then Replied(id, None, c.reply) else SILENT
    case _ => SILENT
  }

  function OutcomeOf(s: Sys, step: Step): P.Outcome
    requires FromProvider(step) && step.id in s.payments
  {
    match step
    case Callback(id, _, status, paidAt) => P.Webhook(id, s.payments[id], status, paidAt, s.now)
    case SyncPayment(id, answer) => P.Sync(id, s.payments[id], answer, s.now)
    case ReconcileRefund(id, refund) => P.Reconcile(id, s.payments[id], refund, s.now)
  }

  function TimeEffect(s: Sys, step: Step): Effect
    requires !FromClient(step) && !FromProvider(step) && !FromBus(step)
  {
    match step
    case ExpireStale(id) =>
      if id in s.store.rows && R.Stale(s.store.rows[id], s.now) then Replied(id, None, R.Expire(id, s.store.rows[id]))
          else SILENT
    case RetryConfirmation(id) =>
      if id in s.store.rows && R.Unticketed(s.store.rows[id], s.now)
      then Replied(id, None, R.Reconfirm(id, s.store.rows[id], SnapshotOf(s.store, id), s.now)) else SILENT
    case RetryRefund(id) =>
      if id in s.store.rows && R.RefundOverdue(s.store.rows[id], s.now)
      then Replied(id, None, R.RerequestRefund(id, s.store.rows[id], s.now)) else SILENT
    case _ => SILENT
  }

  function DropOf(m: Envelope, i: nat): Effect {
    Effect(m.event.booking, Some(i), None, [Lost(m.event.booking)])
  }

  function EffectOf(s: Sys, step: Step): Effect {
    if FromClient(step) then ClientEffect(s, step)
    else if FromProvider(step) then
      if step.id in s.payments then Effect(step.id, None, None, OutcomeOf(s, step).facts) else SILENT
    else if FromBus(step) then
      if step.i >= |s.queue| then SILENT
      else if step.Drop? then DropOf(s.queue[step.i], step.i)
      else DeliveryOf(s, step.i, step.answers, step.ack)
    else TimeEffect(s, step)
  }

  function Remaining(s: Sys, e: Effect): seq<Envelope> {
    if e.taken.Some? && e.taken.value < |s.queue| then Without(s.queue, e.taken.value) else s.queue
  }

  ghost predicate Accounts(s: Sys, t: Sys, e: Effect) {
    && t.queue == Remaining(s, e) + RouteAll(e.facts)
    && t.log == s.log + e.facts
    && t.store.seats == s.store.seats && t.claims == s.claims
    && t.store.rows == (if e.reply.Some? then s.store.rows[e.about := e.reply.value.row] else s.store.rows)
    && (e.reply.Some? ==> e.about in s.store.rows && e.facts == Publish(e.reply.value.out))
  }

  lemma AnswerAccounts(s: Sys, q: seq<Envelope>, id: Id, taken: Option<nat>, reply: R.Reply)
    requires id in s.store.rows && q == Remaining(s, Replied(id, taken, reply))
    ensures Accounts(s, Answer(s.(queue := q), id, reply), Replied(id, taken, reply))
  {
  }

  lemma BookAccounts(s: Sys, q: seq<Envelope>, id: Id, taken: Option<nat>, o: P.Outcome)
    requires q == Remaining(s, Effect(id, taken, None, o.facts))
    ensures Accounts(s, Book(s.(queue := q), id, o), Effect(id, taken, None, o.facts))
  {
  }

  lemma SilentAccounts(s: Sys, t: Sys, e: Effect)
    requires e.facts == [] && e.reply.None? && t.queue == Remaining(s, e) && t.log == s.log
    requires t.store.seats == s.store.seats && t.claims == s.claims && t.store.rows == s.store.rows
    ensures Accounts(s, t, e)
  {
    assert Remaining(s, e) + [] == Remaining(s, e) && s.log + [] == s.log;
  }

  lemma DropAccounts(s: Sys, i: nat)
    requires i < |s.queue|
    ensures Accounts(s, Dropped(s, i), DropOf(s.queue[i], i))
  {
    var facts := [Lost(s.queue[i].event.booking)];
    assert RouteAll(facts) == [] + RouteAll(facts[1..]) == [];
    assert Without(s.queue, i) + [] == Without(s.queue, i);
  }

  lemma PaymentAccounts(s: Sys, i: nat, answers: Answers, ack: bool)
    requires i < |s.queue| && s.queue[i].to.ToPayment?
    ensures Accounts(s, PaymentHandles(s.(queue := Rest(s, i, ack)), s.queue[i].event, answers),
                     DeliveryOf(s, i, answers, ack))
  {
    var e, id, q := s.queue[i].event, s.queue[i].event.booking, Rest(s, i, ack);
    if e.BookingRefundRequested? {
      var taken := if ack then Some(i) else None;
      BookAccounts(s, q, id, taken, P.RequestRefund(id, PaymentOf(s, id), answers.refund, s.now));
    } else {
      SilentAccounts(s, PaymentHandles(s.(queue := q), e, answers), DeliveryOf(s, i, answers, ack));
    }
  }

  lemma TicketAccounts(s: Sys, i: nat, answers: Answers, ack: bool)
    requires i < |s.queue| && s.queue[i].to.ToTicket? && !Throws(s, s.queue[i], answers)
    ensures Accounts(s, TicketHandles(s.(queue := Rest(s, i, ack)), s.queue[i].event, answers),
                     DeliveryOf(s, i, answers, ack))
  {
    var e, u := s.queue[i].event, s.(queue := Rest(s, i, ack));
    var effect, t := DeliveryOf(s, i, answers, ack), TicketHandles(u, e, answers);
    if effect.facts == [] {
      SilentAccounts(s, t, effect);
    } else {
      var tickets := if e.BookingConfirmed? then Issue(s.tickets, e.booking, e.seats.Keys, answers.codes)
                     else Void(s.tickets, e.booking);
      assert t == Emit(u.(tickets := tickets), effect.facts);
    }
  }

  lemma DeliveryAccounts(s: Sys, i: nat, answers: Answers, ack: bool)
    requires i < |s.queue|
    ensures Accounts(s, Delivered(s, i, answers, ack), DeliveryOf(s, i, answers, ack))
  {
    var m, q := s.queue[i], Rest(s, i, ack);
    if Throws(s, m, answers) {
      DropAccounts(s, i);
    } else {
      match m.to
      case ToBooking =>
        if m.event.booking in s.store.rows {
          AnswerAccounts(s, q, m.event.booking, if ack then Some(i) else None, BookingReply(s, m.event, answers));
        } else {
          SilentAccounts(s, s.(queue := q), DeliveryOf(s, i, answers, ack));
        }
      case ToPayment => PaymentAccounts(s, i, answers, ack);
      case ToTicket => TicketAccounts(s, i, answers, ack);
    }
  }

  lemma CommandAccounts(s: Sys, id: Id, reply: R.Reply)
    requires id in s.store.rows
    ensures Accounts(s, Answer(s, id, reply), Replied(id, None, reply))
  {
  }

  lemma ProviderAccounts(s: Sys, id: Id, o: P.Outcome)
    ensures Accounts(s, Book(s, id, o), Effect(id, None, None, o.facts))
  {
  }

  lemma NothingAccounts(s: Sys)
    ensures Accounts(s, s, SILENT)
  {
    SilentAccounts(s, s, SILENT);
  }

  lemma ClientAccounts(s: Sys, step: Step)
    requires FromClient(step) && !step.HoldSeats?
    ensures Accounts(s, ClientNext(s, step), ClientEffect(s, step))
  {
    var e := ClientEffect(s, step);
    if e.reply.Some? {
      CommandAccounts(s, e.about, e.reply.value);
    } else {
      SilentAccounts(s, ClientNext(s, step), e);
    }
  }

  lemma TimeAccounts(s: Sys, step: Step)
    requires !FromClient(step) && !FromProvider(step) && !FromBus(step)
    ensures Accounts(s, TimeNext(s, step), TimeEffect(s, step))
  {
    var e := TimeEffect(s, step);
    if e.reply.Some? {
      CommandAccounts(s, e.about, e.reply.value);
    } else {
      SilentAccounts(s, TimeNext(s, step), e);
    }
  }

  /** The effect accounts for the queue, the history and the rows of every step but a hold. */
  lemma EffectSound(s: Sys, step: Step)
    requires !step.HoldSeats?
    ensures Accounts(s, Next(s, step), EffectOf(s, step))
  {
    NothingAccounts(s);
    if FromClient(step) {
      ClientAccounts(s, step);
    } else if FromProvider(step) {
      if step.id in s.payments {
        ProviderAccounts(s, step.id, OutcomeOf(s, step));
      }
    } else if FromBus(step) {
      if step.i < |s.queue| {
        if step.Drop? {
          DropAccounts(s, step.i);
        } else {
          DeliveryAccounts(s, step.i, step.answers, step.ack);
        }
      }
    } else {
      TimeAccounts(s, step);
    }
  }

  lemma HoldSilent(s: Sys, step: Step)
    requires step.HoldSeats?
    ensures Next(s, step).queue == s.queue && Next(s, step).log == s.log && EffectOf(s, step) == SILENT
    ensures Next(s, step).payments == s.payments && Next(s, step).tickets == s.tickets
  {
  }

  /** Nothing is ever taken back from the history. */
  lemma LogGrows(s: Sys, step: Step, f: Fact)
    requires f in s.log
    ensures f in Next(s, step).log
  {
    if step.HoldSeats? {
      HoldSilent(s, step);
    } else {
      EffectSound(s, step);
    }
  }

  // Following one kind of message through a step.

  /** A message of this kind about the booking is in flight. */
  predicate InFlight(s: Sys, id: Id, kind: Event -> bool) {
    exists m :: m in s.queue && m.event.booking == id && kind(m.event)
  }

  /** None of these facts publishes an event of this kind about the booking. */
  predicate Unsaid(facts: seq<Fact>, id: Id, kind: Event -> bool) {
    forall f :: f in facts && f.Published? && f.event.booking == id ==> !kind(f.event)
  }

  lemma UnsaidUnrouted(facts: seq<Fact>, id: Id, kind: Event -> bool)
    requires Unsaid(facts, id, kind)
    ensures forall m :: m in RouteAll(facts) && m.event.booking == id ==> !kind(m.event)
  {
    forall m | m in RouteAll(facts) && m.event.booking == id
      ensures !kind(m.event)
    {
      var f :| f in facts && f.Published? && m in Route(f.event);
      RoutesKeepEvent(f.event);
    }
  }

  /** What is not said is not in flight afterwards unless it was before. */
  lemma NothingNew(s: Sys, t: Sys, e: Effect, id: Id, kind: Event -> bool)
    requires Accounts(s, t, e) && Unsaid(e.facts, id, kind)
    ensures InFlight(t, id, kind) ==> InFlight(s, id, kind)
  {
    UnsaidUnrouted(e.facts, id, kind);
    if e.taken.Some? && e.taken.value < |s.queue| {
      WithoutIsMinus(s.queue, e.taken.value);
    }
  }

  /** And it stays in flight unless it is what the step took. */
  lemma StillInFlight(s: Sys, t: Sys, e: Effect, id: Id, kind: Event -> bool)
    requires Accounts(s, t, e) && InFlight(s, id, kind)
    requires e.taken.Some? && e.taken.value < |s.queue| && s.queue[e.taken.value].event.booking == id ==>
               !kind(s.queue[e.taken.value].event)
    ensures InFlight(t, id, kind)
  {
    var m :| m in s.queue && m.event.booking == id && kind(m.event);
    if e.taken.Some? && e.taken.value < |s.queue| {
      WithoutIsMinus(s.queue, e.taken.value);
    }
    assert m in t.queue;
  }

  /** What is said to somebody is in flight. */
  lemma SaidIsInFlight(s: Sys, t: Sys, e: Effect, event: Event, kind: Event -> bool)
    requires Accounts(s, t, e) && Published(event) in e.facts && Route(event) != [] && kind(event)
    ensures InFlight(t, event.booking, kind)
  {
    var m := Route(event)[0];
    RoutesKeepEvent(event);
    assert m in Route(event) && m in RouteAll(e.facts);
  }

  lemma ClientReplyGood(s: Sys, step: Step)
    requires Inv(s) && FromClient(step) && ClientEffect(s, step).reply.Some?
    ensures var e := ClientEffect(s, step);
            e.about in s.store.rows && GoodReply(e.about, ViewOf(s, e.about), s.now, s.log, None, e.reply.value)
  {
    var id := step.id;
    ReadyNow(s, id);
    if step.CancelBooking? {
      CancelGood(id, ViewOf(s, id), s.now, s.log, step.user);
    } else {
      PrepareGood(id, ViewOf(s, id), s.now, s.log, step.user, step.probe);
    }
  }

  lemma TimeReplyGood(s: Sys, step: Step)
    requires Inv(s) && !FromClient(step) && !FromProvider(step) && !FromBus(step) && TimeEffect(s, step).reply.Some?
    ensures var e := TimeEffect(s, step);
            e.about in s.store.rows && GoodReply(e.about, ViewOf(s, e.about), s.now, s.log, None, e.reply.value)
  {
    var id := step.id;
    ReadyNow(s, id);
    if step.ExpireStale? {
      ExpireGood(id, ViewOf(s, id), s.now, s.log);
    } else if step.RetryConfirmation? {
      ReconfirmGood(id, ViewOf(s, id), s.now, s.log);
    } else {
      RerequestGood(id, ViewOf(s, id), s.now, s.log);
    }
  }

  lemma DeliveryReplyGood(s: Sys, i: nat, answers: Answers, ack: bool)
    requires Inv(s) && i < |s.queue| && DeliveryOf(s, i, answers, ack).reply.Some?
    ensures var e := DeliveryOf(s, i, answers, ack);
            && e.about in s.store.rows && e.about == s.queue[i].event.booking
            && GoodReply(e.about, ViewOf(s, e.about), s.now, s.log, Some(s.queue[i]), e.reply.value)
  {
    ReplyIsBookings(s, i, answers, ack);
    assert BookingInv(s, s.queue[i].event.booking);
    BookingReplyGood(s, s.queue[i], answers);
  }

  lemma ReplyIsBookings(s: Sys, i: nat, answers: Answers, ack: bool)
    requires i < |s.queue| && DeliveryOf(s, i, answers, ack).reply.Some?
    ensures var m := s.queue[i];
            && m.to.ToBooking? && m.event.booking in s.store.rows
            && DeliveryOf(s, i, answers, ack) ==
                  Replied(m.event.booking, if ack then Some(i) else None, BookingReply(s, m.event, answers))
  {
  }

  lemma Answered(s: Sys, id: Id, reply: R.Reply)
    requires |reply.out| == 1
    ensures var t := Answer(s, id, reply);
            && t.log == s.log + [Published(reply.out[0])]
            && t.store.rows == s.store.rows[id := reply.row] && t.claims == s.claims && t.now == s.now
  {
    assert Publish(reply.out) == [Published(reply.out[0])];
  }

  lemma HandledReply(s: Sys, i: nat, answers: Answers, ack: bool)
    requires i < |s.queue| && s.queue[i].to.ToBooking? && s.queue[i].event.booking in s.store.rows
    requires !Throws(s, s.queue[i], answers)
    ensures Next(s, Deliver(i, answers, ack))
         == Answer(s.(queue := Rest(s, i, ack)), s.queue[i].event.booking, BookingReply(s, s.queue[i].event, answers))
  {
    assert BookingReply(s.(queue := Rest(s, i, ack)), s.queue[i].event, answers) ==
        BookingReply(s, s.queue[i].event, answers);
  }

  /** A message that the booking service handles changes one row and says its reply. */
  lemma HandledRow(s: Sys, i: nat, answers: Answers, ack: bool)
    requires i < |s.queue| && s.queue[i].to.ToBooking? && s.queue[i].event.booking in s.store.rows
    requires !Throws(s, s.queue[i], answers)
    ensures var id, t := s.queue[i].event.booking, Next(s, Deliver(i, answers, ack));
            var reply := BookingReply(s, s.queue[i].event, answers);
            && t.store.rows == s.store.rows[id := reply.row] && t.store.seats == s.store.seats
            && t.payments == s.payments && t.tickets == s.tickets && t.claims == s.claims && t.now == s.now
            && t.queue == Rest(s, i, ack) + RouteAll(Publish(reply.out)) && t.log == s.log + Publish(reply.out)
  {
    HandledReply(s, i, answers, ack);
  }

  /** How any step moves the row of any booking: never deleted, frozen facts
      frozen, paid only while live, out of the dead states only to REFUNDED. */
  lemma RowMoves(s: Sys, step: Step, id: Id)
    requires Inv(s) && id in s.store.rows
    ensures id in Next(s, step).store.rows
    ensures Moves(s.store.rows[id], Next(s, step).store.rows[id], s.now)
  {
    if step.HoldSeats? {
      HoldSparesRows(s, step, id);
    } else {
      EffectSound(s, step);
      if EffectOf(s, step).reply.Some? {
        ReplyMoves(s, step);
      }
    }
  }

  lemma HoldSparesRows(s: Sys, step: Step, id: Id)
    requires Inv(s) && step.HoldSeats? && id in s.store.rows
    ensures id in Next(s, step).store.rows && Next(s, step).store.rows[id] == s.store.rows[id]
  {
    if step.id !in s.store.rows {
      SeatRowsHaveBookings(s);
      HoldHasShape(s.store, step.id, step.req, step.geometry, step.lock, step.faults, s.now);
    }
  }

  lemma ReplyMoves(s: Sys, step: Step)
    requires Inv(s) && !step.HoldSeats? && EffectOf(s, step).reply.Some?
    ensures var e := EffectOf(s, step);
            e.about in s.store.rows && Moves(s.store.rows[e.about], e.reply.value.row, s.now)
  {
    if FromBus(step) {
      DeliveryReplyGood(s, step.i, step.answers, step.ack);
    } else if FromClient(step) {
      ClientReplyGood(s, step);
    } else {
      TimeReplyGood(s, step);
    }
  }
}

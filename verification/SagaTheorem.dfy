/** Tickets, holds and the environment keep the invariant; with the other steps
    it therefore holds in every reachable state. */
module SagaTheorem {
  import opened SagaTypes
  import opened SeatValidation
  import opened BookingStore
  import opened TicketRules
  import opened Saga
  import opened SagaInvariant
  import opened SagaProof
  import opened SagaHandlers
  import opened SagaPayments
  import R = BookingRules
  import P = PaymentRules

  // Ticket service.

  lemma TicketView(s: Sys, id: Id, tickets: Tickets, q: seq<Envelope>, log: seq<Fact>)
    requires forall c :: c != id ==> TicketsOf(tickets, c) == TicketsOf(s.tickets, c)
    ensures var t := s.(tickets := tickets, queue := q, log := log);
            && ViewOf(t, id) == ViewOf(s, id).(tickets := TicketsOf(tickets, id))
            && forall c :: c != id ==> ViewOf(t, c) == ViewOf(s, c)
  {
  }

  /** A ticket step: one table change for one booking and one event about it. */
  lemma TicketStepInv(s: Sys, id: Id, tickets: Tickets, e: Event, q: seq<Envelope>, gone: Option<Envelope>)
    requires Inv(s) && Minus(q, s.queue, gone) && (gone.Some? ==> gone.value.event.booking == id)
    requires e.booking == id && Justified(Published(e), s.log)
    requires forall c :: c != id ==> TicketsOf(tickets, c) == TicketsOf(s.tickets, c)
    requires var t := Emit(s.(tickets := tickets, queue := q), [Published(e)]); BookingInv(t, id)
    ensures Inv(Emit(s.(tickets := tickets, queue := q), [Published(e)]))
  {
    var t := Emit(s.(tickets := tickets, queue := q), [Published(e)]);
    TicketView(s, id, tickets, t.queue, t.log);
    forall c
      ensures BookingInv(t, c)
    {
      assert BookingInv(s, c);
      if c != id {
        FrameEmit(s, t, id, [Published(e)], q, gone, c);
      }
    }
    ClosedSnoc(s.log, Published(e));
  }

  /** A queue and a history after one event of booking id, one message consumed. */
  lemma OneEvent(log: seq<Fact>, q: seq<Envelope>, e: Event)
    ensures forall m :: m in q + RouteAll([Published(e)]) <==> m in q || m in Route(e)
    ensures forall f :: f in log + [Published(e)] <==> f in log || f == Published(e)
  {
    assert RouteAll([Published(e)]) == Route(e) + RouteAll([Published(e)][1..]) == Route(e);
  }

  lemma IssueFlow(id: Id, v: View, log: seq<Fact>, queue: seq<Envelope>, q: seq<Envelope>, gone: Option<Envelope>,
                  tickets: map<SeatKey, Code>)
    requires v.row.Some? && v.row.value.paidAt.Some? && FlowInv(id, v, log, queue)
    requires Minus(q, queue, gone)
    requires gone.Some? ==> gone.value == Envelope(ToTicket, Confirmation(id, v.row.value, v.claim))
    ensures var e := Issuance(id, v.row.value, v.claim);
            FlowInv(id, v.(tickets := tickets), log + [Published(e)], q + RouteAll([Published(e)]))
  {
    var e := Issuance(id, v.row.value, v.claim);
    var more, after := log + [Published(e)], q + RouteAll([Published(e)]);
    OneEvent(log, q, e);
    assert Envelope(ToBooking, e) in Route(e);
    if RefundSeen(more, id) {
      var at :| Published(PaymentRefunded(id, at)) in more;
      assert Published(PaymentRefunded(id, at)) in log;
    }
    assert Queued(after, ToBooking, e);
  }

  lemma IssueView(id: Id, v: View, now: Time, log: seq<Fact>, queue: seq<Envelope>, q: seq<Envelope>,
                  gone: Option<Envelope>, tickets: map<SeatKey, Code>)
    requires v.row.Some? && v.row.value.paidAt.Some? && ViewInv(id, v, now, log, queue)
    requires Published(Confirmation(id, v.row.value, v.claim)) in log
    requires Minus(q, queue, gone)
    requires gone.Some? ==> gone.value == Envelope(ToTicket, Confirmation(id, v.row.value, v.claim))
    requires tickets.Keys == v.claim.Keys
    ensures var e := Issuance(id, v.row.value, v.claim);
            ViewInv(id, v.(tickets := tickets), now, log + [Published(e)], q + RouteAll([Published(e)]))
  {
    OneEvent(log, q, Issuance(id, v.row.value, v.claim));
    assert tickets != map[];
    IssueFlow(id, v, log, queue, q, gone, tickets);
    IssueFacts(id, v, log, tickets);
    IssueMoney(id, v, log, tickets);
  }

  lemma IssueMoney(id: Id, v: View, log: seq<Fact>, tickets: map<SeatKey, Code>)
    requires v.row.Some? && v.row.value.paidAt.Some? && tickets != map[] && tickets.Keys == v.claim.Keys
    requires PaymentInv(id, v, log) && BackingInv(id, v, log)
    requires Published(Confirmation(id, v.row.value, v.claim)) in log
    ensures var w, more := v.(tickets := tickets), log + [Published(Issuance(id, v.row.value, v.claim))];
            PaymentInv(id, w, more) && TicketInv(id, w, more) && BackingInv(id, w, more)
  {
  }

  lemma IssueSelf(s: Sys, m: Envelope, codes: SeatKey -> Code, q: seq<Envelope>, gone: Option<Envelope>)
    requires m.to.ToTicket? && m.event.BookingConfirmed? && m in s.queue && BookingInv(s, m.event.booking)
    requires Minus(q, s.queue, gone) && (gone.Some? ==> gone.value == m)
    ensures var e := m.event;
            var t := Emit(s.(tickets := Issue(s.tickets, e.booking, e.seats.Keys, codes), queue := q),
                          [Published(TicketsIssued(e.booking, e.showtime, e.seats, e.amount, e.confirmedAt))]);
            BookingInv(t, e.booking)
    ensures Published(m.event) in s.log
  {
    var id, v := m.event.booking, ViewOf(s, m.event.booking);
    assert Published(m.event) in s.log && m in Route(m.event);
    assert FactOk(id, v, Published(m.event));
    var r := v.row.value;
    assert m == Envelope(ToTicket, Confirmation(id, r, v.claim));
    var tickets := Issue(s.tickets, id, v.claim.Keys, codes);
    IssueCovers(s.tickets, id, v.claim.Keys, codes);
    HasIsNonEmpty(s.tickets, id);
    IssueView(id, v, s.now, s.log, s.queue, q, gone, TicketsOf(tickets, id));
    var e := Issuance(id, r, v.claim);
    TicketView(s, id, tickets, q + RouteAll([Published(e)]), s.log + [Published(e)]);
  }

  lemma IssueFacts(id: Id, v: View, log: seq<Fact>, tickets: map<SeatKey, Code>)
    requires v.row.Some? && v.row.value.paidAt.Some? && LogInv(id, v, log) && tickets != map[]
    ensures LogInv(id, v.(tickets := tickets), log + [Published(Issuance(id, v.row.value, v.claim))])
  {
  }

  lemma IssueInv(s: Sys, m: Envelope, answers: Answers, q: seq<Envelope>, gone: Option<Envelope>)
    requires Inv(s) && m.to.ToTicket? && m.event.BookingConfirmed? && m in s.queue
    requires Minus(q, s.queue, gone) && (gone.Some? ==> gone.value == m)
    ensures Inv(TicketHandles(s.(queue := q), m.event, answers))
  {
    var id := m.event.booking;
    assert BookingInv(s, id);
    IssueSelf(s, m, answers.codes, q, gone);
    var e := m.event;
    assert m in Route(e);
    IssueCovers(s.tickets, id, e.seats.Keys, answers.codes);
    TicketStepInv(s, id, Issue(s.tickets, id, e.seats.Keys, answers.codes),
                  TicketsIssued(id, e.showtime, e.seats, e.amount, e.confirmedAt), q, gone);
  }

  lemma VoidFlow(id: Id, v: View, log: seq<Fact>, queue: seq<Envelope>, q: seq<Envelope>, gone: Option<Envelope>)
    requires v.row.Some? && FlowInv(id, v, log, queue) && Minus(q, queue, gone)
    requires v.row.value.status.Refunded? || v.row.value.paidAt.None?
    requires gone.Some? ==> gone.value.to.ToTicket?
    ensures var e := TicketsVoided(id);
            FlowInv(id, v.(tickets := map[]), log + [Published(e)], q + RouteAll([Published(e)]))
  {
    var e := TicketsVoided(id);
    var more := log + [Published(e)];
    OneEvent(log, q, e);
    if RefundSeen(more, id) {
      var at :| Published(PaymentRefunded(id, at)) in more;
      assert Published(PaymentRefunded(id, at)) in log;
    }
  }

  lemma VoidFacts(id: Id, v: View, log: seq<Fact>)
    requires v.row.Some? && LogInv(id, v, log) && Lifecycle(v.row.value)
    requires v.row.value.status.Refunded? || (v.row.value.paidAt.None? && !v.row.value.status.Pending?)
    ensures LogInv(id, v.(tickets := map[]), log + [Published(TicketsVoided(id))])
  {
  }

  lemma VoidView(id: Id, v: View, now: Time, log: seq<Fact>, queue: seq<Envelope>, q: seq<Envelope>,
                 gone: Option<Envelope>)
    requires v.row.Some? && ViewInv(id, v, now, log, queue) && Minus(q, queue, gone)
    requires v.row.value.status.Refunded? || (v.row.value.paidAt.None? && !v.row.value.status.Pending?)
    requires gone.Some? ==> gone.value.to.ToTicket?
    ensures var e := TicketsVoided(id);
            ViewInv(id, v.(tickets := map[]), now, log + [Published(e)], q + RouteAll([Published(e)]))
  {
    OneEvent(log, q, TicketsVoided(id));
    VoidFlow(id, v, log, queue, q, gone);
    VoidFacts(id, v, log);
  }

  lemma VoidSelf(s: Sys, m: Envelope, q: seq<Envelope>, gone: Option<Envelope>)
    requires m.to.ToTicket? && !m.event.BookingConfirmed? && m in s.queue && BookingInv(s, m.event.booking)
    requires Minus(q, s.queue, gone) && (gone.Some? ==> gone.value == m)
    ensures BookingInv(VoidTickets(s.(queue := q), m.event.booking), m.event.booking)
    ensures Justified(Published(TicketsVoided(m.event.booking)), s.log)
  {
    var id, v := m.event.booking, ViewOf(s, m.event.booking);
    assert Published(m.event) in s.log && m in Route(m.event);
    assert FactOk(id, v, Published(m.event));
    assert EndSeen(s.log, id);
    VoidClears(s.tickets, id);
    VoidView(id, v, s.now, s.log, s.queue, q, gone);
    var e := Published(TicketsVoided(id));
    TicketView(s, id, Void(s.tickets, id), q + RouteAll([e]), s.log + [e]);
  }

  lemma VoidInv(s: Sys, m: Envelope, q: seq<Envelope>, gone: Option<Envelope>)
    requires Inv(s) && m.to.ToTicket? && !m.event.BookingConfirmed? && m in s.queue
    requires Minus(q, s.queue, gone) && (gone.Some? ==> gone.value == m)
    ensures Inv(VoidTickets(s.(queue := q), m.event.booking))
  {
    assert BookingInv(s, m.event.booking);
    VoidSelf(s, m, q, gone);
    VoidClears(s.tickets, m.event.booking);
    TicketStepInv(s, m.event.booking, Void(s.tickets, m.event.booking), TicketsVoided(m.event.booking), q, gone);
  }

  // Holds.

  /** Nothing was ever said about a booking that does not exist. */
  lemma Unheard(id: Id, v: View, log: seq<Fact>)
    requires v.row.None? && LogInv(id, v, log)
    ensures forall f :: f in log ==> f.About() != id
    ensures !RefundSeen(log, id)
  {
    forall at
      ensures Published(PaymentRefunded(id, at)) !in log
    {
      assert Published(PaymentRefunded(id, at)).About() == id;
    }
  }

  lemma HeldView(id: Id, v: View, now: Time, log: seq<Fact>, queue: seq<Envelope>, w: View)
    requires v.row.None? && ViewInv(id, v, now, log, queue)
    requires w == v.(row := w.row, claim := w.claim, held := w.claim, locked := w.locked)
    requires w.row.Some? ==>
               && R.Unpaid(w.row.value) && Lifecycle(w.row.value)
               && (forall k :: k in w.claim ==> k.showtime == w.row.value.showtime)
               && (w.claim != map[] ==> w.row.value.totalAmount == Total(w.claim))
               && (w.locked ==> w.claim != map[])
    requires w.row.None? ==> w == v
    ensures ViewInv(id, w, now, log, queue)
  {
    Unheard(id, v, log);
  }

  /** Another booking's seat rows may be reaped, but only if it no longer occupies them. */
  lemma ReapedView(c: Id, v: View, now: Time, log: seq<Fact>, queue: seq<Envelope>, held: Snapshot)
    requires ViewInv(c, v, now, log, queue)
    requires forall k :: k in held ==> k in v.held && held[k] == v.held[k]
    requires held != v.held ==> v.row.Some? && !Occupies(v.row.value, now)
    ensures ViewInv(c, v.(held := held), now, log, queue)
  {
  }

  function NewView(row: Option<Booking>, claim: Snapshot, locked: bool): View {
    View(row, claim, claim, locked, None, map[], {})
  }

  lemma NoSeatRows(store: Store, after: Store, id: Id)
    requires SubMap(after.seats, store.seats) && SnapshotOf(store, id) == map[]
    ensures SnapshotOf(after, id) == map[]
  {
    forall k | k in after.seats
      ensures after.seats[k].booking != id
    {
      assert k !in SnapshotOf(store, id);
    }
  }

  lemma HoldSelfView(s: Sys, id: Id, o: HoldOutcome)
    requires Blank(ViewOf(s, id)) && HoldShape(s.store, id, o, s.now)
    requires o.result.Held? ==> SnapshotOf(o.store, id) == o.result.snapshot
    requires !o.result.Held? ==> SnapshotOf(o.store, id) == map[]
    ensures ViewOf(HoldNext(s, id, o), id)
         == if o.result.Held? then NewView(Some(o.result.booking), o.result.snapshot, id in o.store.locks)
            else NewView(if id in o.store.rows then Some(o.store.rows[id]) else None, map[], false)
  {
  }

  lemma HoldOtherSeats(store: Store, after: Store, id: Id, c: Id, now: Time)
    requires SeatsMove(store, after.seats, id, now) && c != id
    ensures forall k :: k in SnapshotOf(after, c) ==>
              k in SnapshotOf(store, c) && SnapshotOf(after, c)[k] == SnapshotOf(store, c)[k]
    ensures (c in store.rows ==> Occupies(store.rows[c], now)) ==> SnapshotOf(after, c) == SnapshotOf(store, c)
  {
  }

  /** What a hold does to the view of another booking. */
  lemma HoldOtherView(s: Sys, id: Id, o: HoldOutcome, c: Id)
    requires HoldShape(s.store, id, o, s.now) && c != id
    ensures ViewOf(HoldNext(s, id, o), c) == ViewOf(s, c).(held := SnapshotOf(o.store, c))
  {
  }

  /** What the proof uses of a hold's outcome. */
  ghost predicate GoodHold(store: Store, id: Id, o: HoldOutcome, now: Time) {
    && HoldShape(store, id, o, now)
    && (o.result.Held? ==>
          && SnapshotOf(o.store, id) == o.result.snapshot && o.result.snapshot != map[]
          && (forall k :: k in o.result.snapshot ==> k.showtime == o.result.booking.showtime)
          && o.result.booking.totalAmount == Total(o.result.snapshot))
  }

  lemma HoldIsGood(store: Store, id: Id, req: HoldRequest, geometry: Option<Geometry>, lock: LockAnswer, faults: Faults,
                   now: Time)
    requires Consistent(store) && id !in store.rows
    ensures GoodHold(store, id, Hold(store, id, req, geometry, lock, faults, now), now)
  {
    HoldHasShape(store, id, req, geometry, lock, faults, now);
    if Hold(store, id, req, geometry, lock, faults, now).result.Held? {
      HeldAmount(store, id, req, geometry, lock, faults, now);
    }
  }

  lemma HoldSelf(s: Sys, id: Id, o: HoldOutcome)
    requires BookingInv(s, id) && id !in s.store.rows && GoodHold(s.store, id, o, s.now)
    ensures BookingInv(HoldNext(s, id, o), id)
  {
    var v := ViewOf(s, id);
    if o.result.Held? {
      HeldView(id, v, s.now, s.log, s.queue, NewView(Some(o.result.booking), o.result.snapshot, id in o.store.locks));
    } else {
      NoSeatRows(s.store, o.store, id);
      var row := if id in o.store.rows then Some(o.store.rows[id]) else None;
      HeldView(id, v, s.now, s.log, s.queue, NewView(row, map[], false));
    }
    HoldSelfView(s, id, o);
  }

  lemma HoldOther(s: Sys, id: Id, o: HoldOutcome, c: Id)
    requires BookingInv(s, c) && c != id && HoldShape(s.store, id, o, s.now)
    ensures BookingInv(HoldNext(s, id, o), c)
  {
    HoldOtherView(s, id, o, c);
    HoldOtherSeats(s.store, o.store, id, c, s.now);
    ReapedView(c, ViewOf(s, c), s.now, s.log, s.queue, SnapshotOf(o.store, c));
  }

  lemma HoldInv(s: Sys, id: Id, o: HoldOutcome)
    requires Inv(s) && id !in s.store.rows && GoodHold(s.store, id, o, s.now)
    ensures Inv(HoldNext(s, id, o))
  {
    forall c
      ensures BookingInv(HoldNext(s, id, o), c)
    {
      assert BookingInv(s, c);
      if c == id {
        HoldSelf(s, id, o);
      } else {
        HoldOther(s, id, o, c);
      }
    }
  }

  lemma SeatRowsHaveBookings(s: Sys)
    requires Inv(s)
    ensures Consistent(s.store)
  {
    forall k | k in s.store.seats
      ensures s.store.seats[k].booking in s.store.rows && s.store.rows[s.store.seats[k].booking].showtime == k.showtime
    {
      var b := s.store.seats[k].booking;
      assert BookingInv(s, b);
      assert k in ViewOf(s, b).held;
    }
    forall b | b in s.store.locks
      ensures b in s.store.rows && R.Unpaid(s.store.rows[b])
    {
      assert BookingInv(s, b);
    }
  }

  // The clock, restarts, losses and reads.

  lemma DropInv(s: Sys, i: nat)
    requires Inv(s) && i < |s.queue|
    ensures Inv(Dropped(s, i))
  {
    var m, t := s.queue[i], Dropped(s, i);
    var b := m.event.booking;
    WithoutIsMinus(s.queue, i);
    forall c
      ensures BookingInv(t, c)
    {
      assert BookingInv(s, c);
      assert ViewOf(t, c) == ViewOf(s, c);
      if c == b {
        assert Published(m.event) in s.log;
        assert FactOk(b, ViewOf(s, b), Published(m.event));
        DropView(b, ViewOf(s, b), s.now, s.log, s.queue, t.queue);
      } else {
        assert Lost(b).About() == b;
        Frame(s, t, c);
      }
    }
    ClosedSnoc(s.log, Lost(b));
  }

  lemma DropView(id: Id, v: View, now: Time, log: seq<Fact>, queue: seq<Envelope>, q: seq<Envelope>)
    requires v.row.Some? && ViewInv(id, v, now, log, queue)
    requires forall m :: m in q ==> m in queue
    ensures ViewInv(id, v, now, log + [Lost(id)], q)
  {
    var more := log + [Lost(id)];
    if RefundSeen(more, id) {
      var at :| Published(PaymentRefunded(id, at)) in more;
      assert Published(PaymentRefunded(id, at)) in log;
    }
    if RefundSeen(log, id) {
      var at :| Published(PaymentRefunded(id, at)) in log;
      assert Published(PaymentRefunded(id, at)) in more;
    }
    assert Lost(id) in more;
  }

  lemma TickInv(s: Sys, d: nat)
    requires Inv(s)
    ensures Inv(s.(now := s.now + d))
  {
    var t := s.(now := s.now + d);
    forall c
      ensures BookingInv(t, c)
    {
      assert BookingInv(s, c) && ViewOf(t, c) == ViewOf(s, c);
    }
  }

  lemma RestartInv(s: Sys)
    requires Inv(s)
    ensures Inv(s.(store := s.store.(locks := map[])))
  {
    var t := s.(store := s.store.(locks := map[]));
    forall c
      ensures BookingInv(t, c)
    {
      assert BookingInv(s, c) && ViewOf(t, c) == ViewOf(s, c).(locked := false);
    }
  }

  lemma ContextView(id: Id, v: View, now: Time, log: seq<Fact>, queue: seq<Envelope>, ctx: R.ChargeContext)
    requires v.row.Some? && ViewInv(id, v, now, log, queue)
    requires ctx.booking == id && ctx.user == v.row.value.user && ctx.amount == v.row.value.totalAmount
    ensures ViewInv(id, v.(contexts := v.contexts + {ctx}), now, log, queue)
  {
  }

  lemma ContextViews(s: Sys, ctx: R.ChargeContext)
    ensures var t := s.(contexts := s.contexts + {ctx});
            && ViewOf(t, ctx.booking) == ViewOf(s, ctx.booking).(contexts := ViewOf(s, ctx.booking).contexts + {ctx})
            && forall c :: c != ctx.booking ==> ViewOf(t, c) == ViewOf(s, c)
  {
    var t := s.(contexts := s.contexts + {ctx});
    assert ViewOf(t, ctx.booking).contexts == ViewOf(s, ctx.booking).contexts + {ctx};
    forall c | c != ctx.booking
      ensures ViewOf(t, c) == ViewOf(s, c)
    {
      assert ViewOf(t, c).contexts == ViewOf(s, c).contexts;
    }
  }

  lemma ContextInv(s: Sys, id: Id, ctx: R.ChargeContext)
    requires Inv(s) && id in s.store.rows
    requires ctx.booking == id && ctx.user == s.store.rows[id].user && ctx.amount == s.store.rows[id].totalAmount
    ensures Inv(s.(contexts := s.contexts + {ctx}))
  {
    var t := s.(contexts := s.contexts + {ctx});
    ContextViews(s, ctx);
    forall c
      ensures BookingInv(t, c)
    {
      assert BookingInv(s, c);
      if c == id {
        ContextView(id, ViewOf(s, id), s.now, s.log, s.queue, ctx);
      }
    }
  }

  // Every step.

  /** The queue without the delivered message, or with it when the broker redelivers. */
  function Rest(s: Sys, i: nat, ack: bool): seq<Envelope>
    requires i < |s.queue|
  {
    if ack then Without(s.queue, i) else s.queue
  }

  lemma DeliverBookingInv(s: Sys, i: nat, answers: Answers, ack: bool)
    requires Inv(s) && i < |s.queue| && s.queue[i].to.ToBooking? && s.queue[i].event.booking in s.store.rows
    ensures var e := s.queue[i].event;
            Inv(Answer(s.(queue := Rest(s, i, ack)), e.booking, BookingReply(s, e, answers)))
  {
    var m := s.queue[i];
    var id := m.event.booking;
    assert BookingInv(s, id);
    WithoutIsMinus(s.queue, i);
    BookingReplyGood(s, m, answers);
    AnswerInv(s, id, Rest(s, i, ack), if ack then Some(m) else None, BookingReply(s, m.event, answers));
  }

  lemma DeliverRefundInv(s: Sys, m: Envelope, refund: P.RefundAnswer, q: seq<Envelope>, gone: Option<Envelope>)
    requires Inv(s) && m in s.queue && m.to.ToPayment? && m.event.BookingRefundRequested?
    requires Minus(q, s.queue, gone) && (gone.Some? ==> gone.value == m)
    ensures var id := m.event.booking;
            Inv(Book(s.(queue := q), id, P.RequestRefund(id, PaymentOf(s, id), refund, s.now)))
  {
    var id := m.event.booking;
    KnownBooking(s, m);
    ReadyNow(s, id);
    RefundGood(id, ViewOf(s, id), s.now, s.log, m.event.amount, refund);
    BookInv(s, id, q, gone, P.RequestRefund(id, PaymentOf(s, id), refund, s.now));
  }

  lemma DeliverEndInv(s: Sys, m: Envelope, answered: bool, q: seq<Envelope>, gone: Option<Envelope>)
    requires Inv(s) && m in s.queue && m.to.ToPayment?
    requires Minus(q, s.queue, gone) && (gone.Some? ==> gone.value == m)
    ensures Inv(WithPayment(s.(queue := q), m.event.booking, P.ExpireInvoice(PaymentOf(s, m.event.booking), answered)))
    ensures Inv(s.(queue := q))
  {
    var id := m.event.booking;
    KnownBooking(s, m);
    ReadyNow(s, id);
    var o := P.Outcome(P.ExpireInvoice(PaymentOf(s, id), answered), []);
    ExpireInvoiceGood(id, ViewOf(s, id), s.now, s.log, answered);
    BookInv(s, id, q, gone, o);
    SilentBook(s.(queue := q), id, o);
    BookInv(s, id, q, gone, P.Same(PaymentOf(s, id)));
    SilentBook(s.(queue := q), id, P.Same(PaymentOf(s, id)));
    SamePayment(s.(queue := q), id);
  }

  lemma SamePayment(s: Sys, id: Id)
    ensures WithPayment(s, id, PaymentOf(s, id)) == s
  {
  }

  /** A queued message is about a booking that exists. */
  lemma KnownBooking(s: Sys, m: Envelope)
    requires Inv(s) && m in s.queue
    ensures m.event.booking in s.store.rows && Published(m.event) in s.log && m in Route(m.event)
    ensures FactOk(m.event.booking, ViewOf(s, m.event.booking), Published(m.event))
  {
    assert BookingInv(s, m.event.booking);
  }

  lemma DeliverPaymentInv(s: Sys, i: nat, answers: Answers, ack: bool)
    requires Inv(s) && i < |s.queue| && s.queue[i].to.ToPayment?
    ensures Inv(PaymentHandles(s.(queue := Rest(s, i, ack)), s.queue[i].event, answers))
  {
    var m, q := s.queue[i], Rest(s, i, ack);
    WithoutIsMinus(s.queue, i);
    var gone := if ack then Some(m) else None;
    if m.event.BookingRefundRequested? {
      DeliverRefundInv(s, m, answers.refund, q, gone);
    } else {
      DeliverEndInv(s, m, answers.expired, q, gone);
    }
  }

  /** A payment step that says nothing only changes the row. */
  lemma SilentBook(s: Sys, id: Id, o: P.Outcome)
    requires o.facts == []
    ensures Book(s, id, o) == WithPayment(s, id, o.payment)
  {
    assert s.queue + RouteAll([]) == s.queue && s.log + [] == s.log;
  }

  lemma DeliverTicketInv(s: Sys, i: nat, answers: Answers, ack: bool)
    requires Inv(s) && i < |s.queue| && s.queue[i].to.ToTicket?
    ensures Inv(TicketHandles(s.(queue := Rest(s, i, ack)), s.queue[i].event, answers))
  {
    var m, q := s.queue[i], Rest(s, i, ack);
    var gone := if ack then Some(m) else None;
    assert BookingInv(s, m.event.booking);
    assert m in Route(m.event);
    WithoutIsMinus(s.queue, i);
    if m.event.BookingConfirmed? {
      IssueInv(s, m, answers, q, gone);
    } else {
      VoidInv(s, m, q, gone);
      OthersVoid(s.(queue := q), m, answers);
    }
  }

  lemma OthersVoid(s: Sys, m: Envelope, answers: Answers)
    requires m in Route(m.event) && m.to.ToTicket? && !m.event.BookingConfirmed?
    ensures TicketHandles(s, m.event, answers) == VoidTickets(s, m.event.booking)
  {
  }

  lemma DeliverInv(s: Sys, i: nat, answers: Answers, ack: bool)
    requires Inv(s) && i < |s.queue|
    ensures Inv(Delivered(s, i, answers, ack))
  {
    var m := s.queue[i];
    KnownBooking(s, m);
    DropInv(s, i);
    if !Throws(s, m, answers) {
      match m.to
      case ToBooking =>
        DeliverBookingInv(s, i, answers, ack);
        assert BookingReply(s.(queue := Rest(s, i, ack)), m.event, answers) == BookingReply(s, m.event, answers);
      case ToPayment => DeliverPaymentInv(s, i, answers, ack);
      case ToTicket => DeliverTicketInv(s, i, answers, ack);
    }
  }

  /** A command or cron row of the booking service: no message consumed. */
  lemma CommandInv(s: Sys, id: Id, reply: R.Reply)
    requires Inv(s) && id in s.store.rows && GoodReply(id, ViewOf(s, id), s.now, s.log, None, reply)
    ensures Inv(Answer(s, id, reply))
  {
    AnswerInv(s, id, s.queue, None, reply);
    assert s.(queue := s.queue) == s;
  }

  lemma ProviderInv(s: Sys, id: Id, o: P.Outcome)
    requires Inv(s) && id in s.store.rows && GoodOutcome(id, ViewOf(s, id), s.log, o)
    ensures Inv(Book(s, id, o))
  {
    BookInv(s, id, s.queue, None, o);
    assert s.(queue := s.queue) == s;
  }

  lemma ReadyNow(s: Sys, id: Id)
    requires Inv(s)
    ensures id in s.store.rows ==> Ready(id, ViewOf(s, id), s.now, s.log)
    ensures id in s.payments ==> id in s.store.rows
    ensures forall c :: c in s.contexts && c.booking == id ==> id in s.store.rows && c in ViewOf(s, id).contexts
  {
    assert BookingInv(s, id);
    var v := ViewOf(s, id);
    assert forall c :: c in s.contexts && c.booking == id ==> c in v.contexts;
  }

  lemma PrepareInv(s: Sys, id: Id, user: Id, probe: R.Probe)
    requires Inv(s) && id in s.store.rows
    ensures Inv(PrepareNext(s, id, user, probe))
  {
    ReadyNow(s, id);
    var c := R.PrepareCharge(id, s.store.rows[id], user, SnapshotOf(s.store, id), s.now, probe);
    if c.Gone? {
      PrepareGood(id, ViewOf(s, id), s.now, s.log, user, probe);
      CommandInv(s, id, c.reply);
    } else if c.Context? {
      ContextInv(s, id, c.ctx);
    }
  }

  lemma InvoiceInv(s: Sys, ctx: R.ChargeContext, invoice: P.InvoiceAnswer)
    requires Inv(s) && ctx in s.contexts
    ensures Inv(InvoiceNext(s, ctx, invoice))
  {
    var id := ctx.booking;
    ReadyNow(s, id);
    var c := P.Charge(PaymentOf(s, id), ctx.amount, invoice);
    if c.Charged? {
      ChargeGood(id, ViewOf(s, id), s.now, s.log, ctx, invoice);
      SilentInv(s, id, c.payment);
    }
  }

  lemma SilentInv(s: Sys, id: Id, p: Payment)
    requires Inv(s) && id in s.store.rows && GoodOutcome(id, ViewOf(s, id), s.log, P.Outcome(Some(p), []))
    ensures Inv(s.(payments := s.payments[id := p]))
  {
    var o := P.Outcome(Some(p), []);
    ProviderInv(s, id, o);
    SilentBook(s, id, o);
  }

  lemma HoldStepInv(s: Sys, id: Id, req: HoldRequest, geometry: Option<Geometry>, lock: LockAnswer, faults: Faults)
    requires Inv(s) && id !in s.store.rows
    ensures Inv(HoldNext(s, id, Hold(s.store, id, req, geometry, lock, faults, s.now)))
  {
    SeatRowsHaveBookings(s);
    HoldIsGood(s.store, id, req, geometry, lock, faults, s.now);
    HoldInv(s, id, Hold(s.store, id, req, geometry, lock, faults, s.now));
  }

  lemma CancelInv(s: Sys, id: Id, user: Id)
    requires Inv(s) && id in s.store.rows
    ensures Inv(CancelNext(s, id, user))
  {
    ReadyNow(s, id);
    var c := R.Cancel(id, s.store.rows[id], user, s.now);
    if c.Done? {
      CancelGood(id, ViewOf(s, id), s.now, s.log, user);
      CommandInv(s, id, c.reply);
    }
  }

  lemma CallbackInv(s: Sys, id: Id, status: P.InvoiceStatus, paidAt: Option<Time>)
    requires Inv(s) && id in s.payments
    ensures Inv(Book(s, id, P.Webhook(id, s.payments[id], status, paidAt, s.now)))
    ensures Inv(Book(s, id, P.Same(Some(s.payments[id]))))
  {
    ReadyNow(s, id);
    WebhookGood(id, ViewOf(s, id), s.now, s.log, status, paidAt);
    ProviderInv(s, id, P.Webhook(id, s.payments[id], status, paidAt, s.now));
    ProviderInv(s, id, P.Same(Some(s.payments[id])));
  }

  lemma SyncInv(s: Sys, id: Id, answer: Option<P.InvoiceStatus>)
    requires Inv(s) && id in s.payments
    ensures Inv(Book(s, id, P.Sync(id, s.payments[id], answer, s.now)))
  {
    CallbackInv(s, id, if answer.Some? then answer.value else P.Open, None);
  }

  lemma ExpireInv(s: Sys, id: Id)
    requires Inv(s) && id in s.store.rows
    ensures Inv(ExpireNext(s, id))
  {
    ReadyNow(s, id);
    if R.Stale(s.store.rows[id], s.now) {
      ExpireGood(id, ViewOf(s, id), s.now, s.log);
      CommandInv(s, id, R.Expire(id, s.store.rows[id]));
    }
  }

  lemma ReconfirmInv(s: Sys, id: Id)
    requires Inv(s) && id in s.store.rows
    ensures Inv(ReconfirmNext(s, id))
  {
    ReadyNow(s, id);
    if R.Unticketed(s.store.rows[id], s.now) {
      ReconfirmGood(id, ViewOf(s, id), s.now, s.log);
      CommandInv(s, id, R.Reconfirm(id, s.store.rows[id], SnapshotOf(s.store, id), s.now));
    }
  }

  lemma RerequestInv(s: Sys, id: Id)
    requires Inv(s) && id in s.store.rows
    ensures Inv(RerequestNext(s, id))
  {
    ReadyNow(s, id);
    if R.RefundOverdue(s.store.rows[id], s.now) {
      RerequestGood(id, ViewOf(s, id), s.now, s.log);
      CommandInv(s, id, R.RerequestRefund(id, s.store.rows[id], s.now));
    }
  }

  lemma ReconcileInv(s: Sys, id: Id, refund: Option<P.RefundStatus>)
    requires Inv(s) && id in s.payments
    ensures Inv(Book(s, id, P.Reconcile(id, s.payments[id], refund, s.now)))
  {
    ReadyNow(s, id);
    ReconcileGood(id, ViewOf(s, id), s.now, s.log, refund);
    ProviderInv(s, id, P.Reconcile(id, s.payments[id], refund, s.now));
  }

  lemma ClientInv(s: Sys, step: Step)
    requires Inv(s) && FromClient(step)
    ensures Inv(ClientNext(s, step))
  {
    match step
    case HoldSeats(id, req, geometry, lock, faults) =>
      if id !in s.store.rows {
        HoldStepInv(s, id, req, geometry, lock, faults);
      }
    case CancelBooking(id, user) =>
      if id in s.store.rows {
        CancelInv(s, id, user);
      }
    case PrepareCharge(id, user, probe) =>
      if id in s.store.rows {
        PrepareInv(s, id, user, probe);
      }
    case OpenInvoice(ctx, invoice) =>
      if ctx in s.contexts {
        InvoiceInv(s, ctx, invoice);
      }
  }

  lemma ProviderStepInv(s: Sys, step: Step)
    requires Inv(s) && FromProvider(step)
    ensures Inv(ProviderNext(s, step))
  {
    if step.id in s.payments {
      match step
      case Callback(id, _, status, paidAt) => CallbackInv(s, id, status, paidAt);
      case SyncPayment(id, answer) => SyncInv(s, id, answer);
      case ReconcileRefund(id, refund) => ReconcileInv(s, id, refund);
    }
  }

  lemma BusInv(s: Sys, step: Step)
    requires Inv(s) && FromBus(step)
    ensures Inv(BusNext(s, step))
  {
    if step.i < |s.queue| {
      if step.Drop? {
        DropInv(s, step.i);
      } else {
        DeliverInv(s, step.i, step.answers, step.ack);
      }
    }
  }

  lemma TimeInv(s: Sys, step: Step)
    requires Inv(s) && !FromClient(step) && !FromProvider(step) && !FromBus(step)
    ensures Inv(TimeNext(s, step))
  {
    match step
    case Tick(d) => TickInv(s, d);
    case Restart => RestartInv(s);
    case ExpireStale(id) =>
      if id in s.store.rows {
        ExpireInv(s, id);
      }
    case RetryConfirmation(id) =>
      if id in s.store.rows {
        ReconfirmInv(s, id);
      }
    case RetryRefund(id) =>
      if id in s.store.rows {
        RerequestInv(s, id);
      }
  }

  lemma NextInv(s: Sys, step: Step)
    requires Inv(s)
    ensures Inv(Next(s, step))
  {
    if FromClient(step) {
      ClientInv(s, step);
    } else if FromProvider(step) {
      ProviderStepInv(s, step);
    } else if FromBus(step) {
      BusInv(s, step);
    } else {
      TimeInv(s, step);
    }
  }

  lemma InitInv(now: Time)
    ensures Inv(Init(now))
  {
    var s := Init(now);
    forall id
      ensures BookingInv(s, id)
    {
      assert Blank(ViewOf(s, id));
    }
  }

  lemma {:induction false} ExecInv(s: Sys, run: seq<Step>)
    requires Inv(s)
    ensures Inv(Exec(s, run))
  {
    if run != [] {
      ExecInv(s, run[..|run| - 1]);
      NextInv(Exec(s, run[..|run| - 1]), run[|run| - 1]);
    }
  }

  /** The invariant holds after every run of the system, whatever is lost,
      duplicated, reordered or answered by the outside world. */
  lemma ReachableInv(s: Sys)
    requires Reachable(s)
    ensures Inv(s)
  {
    var start: Time, run: seq<Step> :| s == Exec(Init(start), run);
    InitInv(start);
    ExecInv(Init(start), run);
  }
}

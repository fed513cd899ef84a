/** The two-layer seat allocator refines a ledger of seats that are free, held
    until a deadline, or sold. */
module SeatLedger {
  import opened SagaTypes
  import opened BookingStore
  import opened Saga
  import opened SagaInvariant
  import opened SagaProof
  import opened SagaTheorem
  import opened SagaSteps
  import opened SagaSafety
  import R = BookingRules
  import SeatValidation

  datatype Entry = Free | OnHold(booking: Id, deadline: Time) | Sold(booking: Id)

  function EntryFor(id: Id, row: Booking, now: Time): Entry {
    if R.Owns(row) then Sold(id)
    else if R.Unpaid(row) && now <= row.expiresAt then OnHold(id, row.expiresAt)
    else Free
  }

  /** A seat row stands for a claim only while its booking does. */
  function EntryAt(store: Store, now: Time, k: SeatKey): Entry {
    if k in store.seats && store.seats[k].booking in store.rows
    then EntryFor(store.seats[k].booking, store.rows[store.seats[k].booking], now)
    else Free
  }

  function Ledger(s: Sys, k: SeatKey): Entry {
    EntryAt(s.store, s.now, k)
  }

  /** The moves of the ledger, by what has become of the booking in the entry. A
      free seat is only ever held, for five minutes. A held seat is sold to its
      booking before the deadline, or comes back once the deadline is past or the
      booking over. A sold seat comes back only with a refund. */
  predicate LedgerMove(now: Time, later: Time, before: Entry, after: Entry, owner: Option<Booking>) {
    match before
    case Free => after.Free? || (after.OnHold? && after.deadline == now + HOLD_TTL_MS)
    case OnHold(b, d) =>
      || after == before
      || (after == Sold(b) && now < d)
      || (after.Free? && (d < later || (owner.Some? && Dead(owner.value))))
    case Sold(_) => after == before || (after.Free? && owner.Some? && owner.value.status.Refunded?)
  }

  function OwnerIn(s: Sys, e: Entry): Option<Booking> {
    if !e.Free? && e.booking in s.store.rows then Some(s.store.rows[e.booking]) else None
  }

  lemma MovedEntry(id: Id, r: Booking, n: Booking, now: Time, later: Time)
    requires Lifecycle(r) && Lifecycle(n) && Moves(r, n, now) && now <= later
    ensures LedgerMove(now, later, EntryFor(id, r, now), EntryFor(id, n, later), Some(n))
  {
  }

  /** A hold leaves every seat as it is, or takes a free one. */
  lemma HoldMoves(store: Store, id: Id, o: HoldOutcome, now: Time, k: SeatKey)
    requires Consistent(store) && id !in store.rows && HoldShape(store, id, o, now)
    ensures var before, after := EntryAt(store, now, k), EntryAt(o.store, now, k);
            after == before || (before == Free && after == OnHold(id, now + HOLD_TTL_MS))
  {
    if k in store.seats && store.seats[k].booking in store.rows {
      var b := store.seats[k].booking;
      if R.Reapable(store.rows[b], now) {
        assert EntryAt(store, now, k) == Free;
      } else {
        assert k in o.store.seats && o.store.seats[k] == store.seats[k];
      }
    }
  }

  /** A seat whose row stays put follows its booking. */
  lemma SeatFollowsBooking(s: Sys, t: Sys, k: SeatKey)
    requires s.store.seats == t.store.seats && Consistent(s.store) && s.now <= t.now
    requires forall b :: b in s.store.rows ==>
               && Lifecycle(s.store.rows[b]) && b in t.store.rows && Lifecycle(t.store.rows[b])
               && Moves(s.store.rows[b], t.store.rows[b], s.now)
    ensures LedgerMove(s.now, t.now, Ledger(s, k), Ledger(t, k), OwnerIn(t, Ledger(s, k)))
    ensures Ledger(s, k).Free? ==> Ledger(t, k).Free?
    ensures !Ledger(s, k).Free? ==>
              var b := Ledger(s, k).booking;
              b in s.store.rows && b in t.store.rows && Ledger(t, k) == EntryFor(b, t.store.rows[b], t.now)
  {
    if k in s.store.seats {
      var b := s.store.seats[k].booking;
      MovedEntry(b, s.store.rows[b], t.store.rows[b], s.now, t.now);
      assert Ledger(t, k) == EntryFor(b, t.store.rows[b], t.now);
    }
  }

  lemma RowsFollow(s: Sys, step: Step)
    requires Inv(s) && !step.HoldSeats?
    ensures var t := Next(s, step);
            && s.store.seats == t.store.seats
            && forall b :: b in s.store.rows ==>
                 && Lifecycle(s.store.rows[b]) && b in t.store.rows && Lifecycle(t.store.rows[b])
                 && Moves(s.store.rows[b], t.store.rows[b], s.now)
  {
    EffectSound(s, step);
    NextInv(s, step);
    forall b | b in s.store.rows
      ensures Lifecycle(s.store.rows[b])
      ensures b in Next(s, step).store.rows && Lifecycle(Next(s, step).store.rows[b])
      ensures Moves(s.store.rows[b], Next(s, step).store.rows[b], s.now)
    {
      RowMoves(s, step, b);
      assert BookingInv(s, b) && BookingInv(Next(s, step), b);
    }
  }

  lemma ClockRuns(s: Sys, step: Step)
    ensures s.now <= Next(s, step).now
    ensures !step.Tick? ==> s.now == Next(s, step).now
  {
    if FromBus(step) {
      BusKeepsTime(s, step);
    } else {
      assert FromClient(step) ==> ClientNext(s, step).now == s.now;
      assert FromProvider(step) ==> ProviderNext(s, step).now == s.now;
    }
  }

  lemma BusKeepsTime(s: Sys, step: Step)
    requires FromBus(step)
    ensures BusNext(s, step).now == s.now
  {
  }

  lemma HoldStepMoves(s: Sys, step: Step, k: SeatKey)
    requires Inv(s) && step.HoldSeats?
    ensures var before, after := Ledger(s, k), Ledger(Next(s, step), k);
            || after == before
            || (before == Free && after == OnHold(step.id, s.now + HOLD_TTL_MS) && step.id !in s.store.rows)
  {
    if step.id !in s.store.rows {
      SeatRowsHaveBookings(s);
      HoldHasShape(s.store, step.id, step.req, step.geometry, step.lock, step.faults, s.now);
      HoldMoves(s.store, step.id, Hold(s.store, step.id, step.req, step.geometry, step.lock, step.faults, s.now), s.now,
                k);
    }
  }

  lemma OtherStepMoves(s: Sys, step: Step, k: SeatKey)
    requires Inv(s) && !step.HoldSeats?
    ensures var t := Next(s, step);
            && LedgerMove(s.now, t.now, Ledger(s, k), Ledger(t, k), OwnerIn(t, Ledger(s, k)))
            && (Ledger(s, k).Free? ==> Ledger(t, k).Free?)
            && (!Ledger(s, k).Free? ==>
                  var b := Ledger(s, k).booking;
                  b in s.store.rows && b in t.store.rows && Ledger(t, k) == EntryFor(b, t.store.rows[b], t.now))
  {
    SeatRowsHaveBookings(s);
    RowsFollow(s, step);
    ClockRuns(s, step);
    SeatFollowsBooking(s, Next(s, step), k);
  }

  /** Refinement: every step of the whole system is one move of the ledger, for
      every seat and whatever the lock service answers. */
  lemma StepRefinesLedger(s: Sys, step: Step, k: SeatKey)
    requires Reachable(s)
    ensures var t := Next(s, step);
            LedgerMove(s.now, t.now, Ledger(s, k), Ledger(t, k), OwnerIn(t, Ledger(s, k)))
  {
    ReachableInv(s);
    if step.HoldSeats? {
      HoldStepMoves(s, step, k);
    } else {
      OtherStepMoves(s, step, k);
    }
  }

  // Which step makes which move.

  /** The step hands this event about this booking to the booking service. */
  predicate Tells(s: Sys, step: Step, id: Id) {
    step.Deliver? && step.i < |s.queue| && s.queue[step.i].to.ToBooking? && s.queue[step.i].event.booking == id
  }

  lemma RowCauses(s: Sys, step: Step, id: Id)
    requires id in s.store.rows && !step.HoldSeats?
    ensures id in Next(s, step).store.rows
    ensures var r, n := s.store.rows[id], Next(s, step).store.rows[id];
            && (FreshlyPaid(r, n) ==> Tells(s, step, id) && s.queue[step.i].event.PaymentSettled?)
            && (n.status.Refunded? && !r.status.Refunded? ==>
                Tells(s, step, id) && s.queue[step.i].event.PaymentRefunded?)
  {
    EffectSound(s, step);
    var e := EffectOf(s, step);
    if e.reply.Some? && e.about == id {
      if FromBus(step) {
        ReplyIsBookings(s, step.i, step.answers, step.ack);
      } else if FromClient(step) {
        ClientCauses(s, step);
      } else {
        TimeCauses(s, step);
      }
    }
  }

  lemma ClientCauses(s: Sys, step: Step)
    requires FromClient(step) && ClientEffect(s, step).reply.Some?
    ensures var e := ClientEffect(s, step);
            e.about in s.store.rows && e.reply.value.row.paidAt == s.store.rows[e.about].paidAt
            && (e.reply.value.row.status.Refunded? ==> s.store.rows[e.about].status.Refunded?)
  {
  }

  lemma TimeCauses(s: Sys, step: Step)
    requires !FromClient(step) && !FromProvider(step) && !FromBus(step) && TimeEffect(s, step).reply.Some?
    ensures var e := TimeEffect(s, step);
            e.about in s.store.rows && e.reply.value.row.paidAt == s.store.rows[e.about].paidAt
            && (e.reply.value.row.status.Refunded? ==> s.store.rows[e.about].status.Refunded?)
  {
  }

  /** Only a hold of a new booking takes a free seat, only payment.settled sells a
      held one, and only payment.refunded gives a sold one back. */
  lemma MovesHaveCauses(s: Sys, step: Step, k: SeatKey)
    requires Reachable(s)
    ensures var before, after := Ledger(s, k), Ledger(Next(s, step), k);
            && (before.Free? && !after.Free? ==>
                step.HoldSeats? && after.OnHold? && after.booking == step.id && step.id !in s.store.rows)
            && (before.OnHold? && after.Sold? ==>
                Tells(s, step, before.booking) && s.queue[step.i].event.PaymentSettled?)
            && (before.Sold? && after.Free? ==>
                Tells(s, step, before.booking) && s.queue[step.i].event.PaymentRefunded?)
  {
    ReachableInv(s);
    if step.HoldSeats? {
      HoldStepMoves(s, step, k);
    } else {
      OtherStepMoves(s, step, k);
      if !Ledger(s, k).Free? {
        var b := Ledger(s, k).booking;
        RowCauses(s, step, b);
        LifecycleHolds(s, b);
        ReachableNext(s, step);
        LifecycleHolds(Next(s, step), b);
        assert Ledger(s, k) == EntryFor(b, s.store.rows[b], s.now);
      }
    }
  }

  /** The refinement starts with every seat free. */
  lemma LedgerStartsFree(now: Time, k: SeatKey)
    ensures Ledger(Init(now), k) == Free
  {
  }

  lemma TakenSeat(store: Store, id: Id, o: HoldOutcome, now: Time, k: SeatKey)
    requires Consistent(store) && id !in store.rows && HoldShape(store, id, o, now)
    requires o.result.Held? && k in SnapshotOf(o.store, id)
    ensures EntryAt(store, now, k) == Free && EntryAt(o.store, now, k) == OnHold(id, now + HOLD_TTL_MS)
  {
    assert k in store.seats ==> R.Reapable(store.rows[store.seats[k].booking], now);
  }

  /** A successful hold takes every requested seat from free to held by the new booking. */
  lemma HoldTakesSeats(s: Sys, id: Id, req: HoldRequest, geometry: Option<SeatValidation.Geometry>, lock: LockAnswer,
                       faults: Faults, seat: Id)
    requires Reachable(s) && id !in s.store.rows && seat in req.seatIds
    requires Hold(s.store, id, req, geometry, lock, faults, s.now).result.Held?
    ensures var t := Next(s, HoldSeats(id, req, geometry, lock, faults));
            && Ledger(s, SeatKey(req.showtime, seat)) == Free
            && Ledger(t, SeatKey(req.showtime, seat)) == OnHold(id, s.now + HOLD_TTL_MS)
  {
    assert Consistent(s.store) by {
      ReachableInv(s);
      SeatRowsHaveBookings(s);
    }
    HoldTakesSeat(s.store, id, req, geometry, lock, faults, s.now, seat);
  }

  lemma HoldTakesSeat(store: Store, id: Id, req: HoldRequest, geometry: Option<SeatValidation.Geometry>,
                      lock: LockAnswer, faults: Faults,
                      now: Time, seat: Id)
    requires Consistent(store) && id !in store.rows && seat in req.seatIds
    requires Hold(store, id, req, geometry, lock, faults, now).result.Held?
    ensures var after := Hold(store, id, req, geometry, lock, faults, now).store;
            && EntryAt(store, now, SeatKey(req.showtime, seat)) == Free
            && EntryAt(after, now, SeatKey(req.showtime, seat)) == OnHold(id, now + HOLD_TTL_MS)
  {
    var o := Hold(store, id, req, geometry, lock, faults, now);
    HeldAmount(store, id, req, geometry, lock, faults, now);
    HoldHasShape(store, id, req, geometry, lock, faults, now);
    assert SeatKey(req.showtime, seat) in o.result.snapshot;
    TakenSeat(store, id, o, now, SeatKey(req.showtime, seat));
  }
}

/** What the commands and messages decide, seat by seat: not only which ledger
    moves are allowed, but which one happens, and for all seats of a booking at once. */
module SagaDecisions {
  import opened SagaTypes
  import opened SeatValidation
  import opened BookingStore
  import opened Saga
  import opened SagaInvariant
  import opened SagaProof
  import opened SagaTheorem
  import opened SagaSteps
  import opened SagaSafety
  import opened SeatLedger
  import opened SagaRecovery
  import R = BookingRules
  import P = PaymentRules

  /** Every seat the booking once held, and there is one, has this entry. */
  predicate AllSeats(s: Sys, id: Id, e: Entry) {
    SeatsOfClaim(s, id) != {} && forall k :: k in SeatsOfClaim(s, id) ==> Ledger(s, k) == e
  }

  /** The booking has no seat. */
  ghost predicate NoSeats(s: Sys, id: Id) {
    forall k :: Ledger(s, k).Free? || Ledger(s, k).booking != id
  }

  lemma OccupierHasAll(s: Sys, id: Id)
    requires Inv(s) && id in s.store.rows && Occupies(s.store.rows[id], s.now) && SeatsOfClaim(s, id) != {}
    ensures AllSeats(s, id, EntryFor(id, s.store.rows[id], s.now))
  {
    assert BookingInv(s, id);
    forall k | k in SeatsOfClaim(s, id)
      ensures Ledger(s, k) == EntryFor(id, s.store.rows[id], s.now)
    {
      assert k in SnapshotOf(s.store, id);
    }
  }

  /** The ledger shows a booking exactly while it occupies its seats: then on all
      of them, and otherwise on none. */
  lemma LedgerShowsOccupiers(s: Sys, id: Id)
    requires Reachable(s) && id in s.store.rows
    ensures if Occupies(s.store.rows[id], s.now) && SeatsOfClaim(s, id) != {}
            then AllSeats(s, id, EntryFor(id, s.store.rows[id], s.now)) && EntryFor(id, s.store.rows[id], s.now) != Free
            else NoSeats(s, id)
  {
    ReachableInv(s);
    if Occupies(s.store.rows[id], s.now) && SeatsOfClaim(s, id) != {} {
      OccupierHasAll(s, id);
    } else {
      assert BookingInv(s, id);
      forall k
        ensures Ledger(s, k).Free? || Ledger(s, k).booking != id
      {
        assert k in s.store.seats && s.store.seats[k].booking == id ==> k in SnapshotOf(s.store, id);
      }
    }
  }

  /** A customer is sent to pay exactly for a live hold of their own, all of whose
      seats are held for it, and for the sum of their prices. */
  lemma ChargesLiveHoldsOnly(s: Sys, id: Id, user: Id, probe: R.Probe)
    requires Reachable(s) && id in s.store.rows
    ensures var row, seats := s.store.rows[id], SnapshotOf(s.store, id);
            var c := R.PrepareCharge(id, row, user, seats, s.now, probe);
            && (c.Context? <==>
                  row.user == user && R.Unpaid(row) && s.now < row.expiresAt && seats != map[] && probe.AllExist?)
            && (c.Context? ==>
                  && AllSeats(s, id, OnHold(id, row.expiresAt))
                  && c.ctx == R.ChargeContext(id, user, Total(seats), row.expiresAt))
  {
    ReachableInv(s);
    assert BookingInv(s, id);
    var row, seats := s.store.rows[id], SnapshotOf(s.store, id);
    if R.PrepareCharge(id, row, user, seats, s.now, probe).Context? {
      assert ViewOf(s, id).claim == seats;
      OccupierHasAll(s, id);
    }
  }

  /** Cancelling decides by state and owner alone: a booking that was never paid
      gives all its seats back at once, a paid one keeps them all and its money is
      asked back, and every other one is refused: to strangers as not found, to its
      owner as in conflict. */
  lemma CancelDecides(s: Sys, id: Id, user: Id)
    requires Reachable(s) && id in s.store.rows
    ensures var row, t := s.store.rows[id], Next(s, CancelBooking(id, user));
            var c := R.Cancel(id, row, user, s.now);
            && id in t.store.rows && (c.Done? ==> t.store.locks == s.store.locks - {id})
            && (row.user == user && R.Unpaid(row) ==>
                  && t.store.rows ==
                        s.store.rows[id := row.(status := BookingStatus.Cancelled, reason := Some(Customer))]
                  && NoSeats(t, id) && t.log == s.log + [Published(BookingCancelled(id, Customer))])
            && (row.user == user && R.Owns(row) && !row.status.RefundPending? ==>
                  && t.store.rows == s.store.rows[id := row.(status := RefundPending, refundRequestedAt := Some(s.now))]
                  && AllSeats(t, id, Sold(id))
                  && t.log == s.log + [Published(BookingRefundRequested(id, row.totalAmount))])
            && (row.user != user || row.status.RefundPending? || Dead(row) ==> t == s)
            && (c.NotFound? <==> row.user != user)
            && (c.Conflict? <==> row.user == user && (row.status.RefundPending? || Dead(row)))
  {
    var row, step := s.store.rows[id], CancelBooking(id, user);
    CancelSteps(s, id, user);
    if R.Cancel(id, row, user, s.now).Done? {
      ReachableNext(s, step);
      LedgerShowsOccupiers(Next(s, step), id);
      if R.Owns(row) {
        TicketsFollowMoney(s, id);
      }
    }
  }

  lemma CancelSteps(s: Sys, id: Id, user: Id)
    requires Reachable(s) && id in s.store.rows
    ensures var row, t := s.store.rows[id], Next(s, CancelBooking(id, user));
            var c := R.Cancel(id, row, user, s.now);
            && t.claims == s.claims && t.now == s.now && (c.Done? ==> t.store.locks == s.store.locks - {id})
            && (row.user == user && R.Unpaid(row) ==>
                  && t.store.rows ==
                        s.store.rows[id := row.(status := BookingStatus.Cancelled, reason := Some(Customer))]
                  && t.log == s.log + [Published(BookingCancelled(id, Customer))])
            && (row.user == user && R.Owns(row) && !row.status.RefundPending? ==>
                  && t.store.rows == s.store.rows[id := row.(status := RefundPending, refundRequestedAt := Some(s.now))]
                  && t.log == s.log + [Published(BookingRefundRequested(id, row.totalAmount))])
            && (row.user != user || row.status.RefundPending? || Dead(row) ==> t == s)
            && (c.NotFound? <==> row.user != user)
            && (c.Conflict? <==> row.user == user && (row.status.RefundPending? || Dead(row)))
  {
    LifecycleHolds(s, id);
    var c := R.Cancel(id, s.store.rows[id], user, s.now);
    assert Next(s, CancelBooking(id, user)) == CancelNext(s, id, user);
    if c.Done? {
      Answered(s, id, c.reply);
    }
  }

  /** Money for an open hold. With its handle in memory the lock must still extend,
      without one all its keys must still exist; if Redis cannot be asked for those,
      the message is lost and nothing else happens. A hold that is live in this sense
      and before its deadline is paid at the provider's time and sells all of its
      seats; otherwise it is over with none of them, and exactly that money is asked
      back. Either way its handle goes and no other booking changes. */
  lemma SettlementSellsAllOrNothing(s: Sys, i: nat, answers: Answers, ack: bool)
    requires Reachable(s) && i < |s.queue| && s.queue[i].event.PaymentSettled?
    requires s.queue[i].event.booking in s.store.rows && R.Unpaid(s.store.rows[s.queue[i].event.booking])
    ensures var id, e, t := s.queue[i].event.booking, s.queue[i].event, Next(s, Deliver(i, answers, ack));
            var row, seats, handle := s.store.rows[id], SnapshotOf(s.store, id), id in s.store.locks;
            var alive := if handle then answers.extended else seats != map[] && answers.probe.AllExist?;
            if s.now < row.expiresAt && !handle && seats != map[] && answers.probe.Unreachable? then
              t == s.(queue := Without(s.queue, i), log := s.log + [Lost(id)])
            else if s.now < row.expiresAt && alive then
              && t.store.rows ==
                    s.store.rows[id := row.(paidAt := Some(e.paidAt), confirmationAttemptedAt := Some(s.now))]
              && t.store.locks == s.store.locks - {id}
              && AllSeats(s, id, OnHold(id, row.expiresAt)) && AllSeats(t, id, Sold(id))
              && t.log == s.log + [Published(BookingConfirmed(id, row.showtime, seats, row.totalAmount, e.paidAt))]
            else
              && t.store.rows == s.store.rows[id := row.(status := BookingStatus.Expired)]
              && t.store.locks == s.store.locks - {id} && NoSeats(t, id)
              && t.log == s.log + [Published(BookingExpired(id)), Published(BookingRefundRequested(id, e.amount))]
  {
    var id, step := s.queue[i].event.booking, Deliver(i, answers, ack);
    SettlementIsBookings(s, i);
    var t := Next(s, step);
    SettledStep(s, i, answers, ack);
    ReachableNext(s, step);
    if t.store.rows[id].paidAt.Some? {
      HoldIsComplete(s, id);
    }
    LedgerShowsOccupiers(t, id);
  }

  lemma SettlementIsBookings(s: Sys, i: nat)
    requires Reachable(s) && i < |s.queue| && s.queue[i].event.PaymentSettled?
    ensures s.queue[i].to.ToBooking?
  {
    ReachableInv(s);
    KnownBooking(s, s.queue[i]);
  }

  /** A hold before its deadline that has its handle or any seat has all its seats. */
  lemma HoldIsComplete(s: Sys, id: Id)
    requires Reachable(s) && id in s.store.rows && R.Unpaid(s.store.rows[id]) && s.now < s.store.rows[id].expiresAt
    requires id in s.store.locks || SnapshotOf(s.store, id) != map[]
    ensures AllSeats(s, id, OnHold(id, s.store.rows[id].expiresAt))
  {
    ReachableInv(s);
    assert BookingInv(s, id);
    ClaimIsHeld(id, ViewOf(s, id), s.now);
    OccupierHasAll(s, id);
  }

  lemma ClaimIsHeld(id: Id, v: View, now: Time)
    requires v.row.Some? && SeatsInv(v, now) && R.Unpaid(v.row.value) && now < v.row.value.expiresAt
    requires v.locked || v.held != map[]
    ensures v.held == v.claim != map[]
  {
  }

  lemma SettledStep(s: Sys, i: nat, answers: Answers, ack: bool)
    requires i < |s.queue| && s.queue[i].to.ToBooking? && s.queue[i].event.PaymentSettled?
    requires s.queue[i].event.booking in s.store.rows && R.Unpaid(s.store.rows[s.queue[i].event.booking])
    ensures var id, e, t := s.queue[i].event.booking, s.queue[i].event, Next(s, Deliver(i, answers, ack));
            var row, seats, handle := s.store.rows[id], SnapshotOf(s.store, id), id in s.store.locks;
            var alive := if handle then answers.extended else seats != map[] && answers.probe.AllExist?;
            && t.claims == s.claims && t.now == s.now
            && if s.now < row.expiresAt && !handle && seats != map[] && answers.probe.Unreachable? then
                 t == s.(queue := Without(s.queue, i), log := s.log + [Lost(id)])
               else if s.now < row.expiresAt && alive then
                 && t.store.rows ==
                       s.store.rows[id := row.(paidAt := Some(e.paidAt), confirmationAttemptedAt := Some(s.now))]
                 && t.store.locks == s.store.locks - {id}
                 && t.log == s.log + [Published(BookingConfirmed(id, row.showtime, seats, row.totalAmount, e.paidAt))]
               else
                 && t.store.rows == s.store.rows[id := row.(status := BookingStatus.Expired)]
                 && t.store.locks == s.store.locks - {id}
                 && t.log == s.log + [Published(BookingExpired(id)), Published(BookingRefundRequested(id, e.amount))]
  {
    var id, e := s.queue[i].event.booking, s.queue[i].event;
    if !Throws(s, s.queue[i], answers) {
      HandledReply(s, i, answers, ack);
      var reply := BookingReply(s, e, answers);
      if reply.row.status.Expired? {
        assert Publish(reply.out) == [Published(BookingExpired(id)), Published(BookingRefundRequested(id, e.amount))];
      } else {
        assert Publish(reply.out) == [Published(reply.out[0])];
      }
    }
  }

  /** payment.refunded gives all seats of its booking back, whatever its state was,
      and says so every time; the row keeps the time of the request, or takes that of
      the refund if there was none. */
  lemma RefundFreesSeats(s: Sys, i: nat, answers: Answers, ack: bool)
    requires Reachable(s) && i < |s.queue| && s.queue[i].event.PaymentRefunded?
    ensures var id, e, t := s.queue[i].event.booking, s.queue[i].event, Next(s, Deliver(i, answers, ack));
            && id in s.store.rows && id !in t.store.locks && NoSeats(t, id)
            && var row := s.store.rows[id];
            && t.store.rows == (if row.status.Refunded? then s.store.rows
                                else s.store.rows[id := row.(status := Refunded, refundRequestedAt :=
                                                             Some(row.refundRequestedAt.Or(e.refundedAt)))])
            && t.log == s.log + [Published(BookingRefunded(id))]
  {
    ReachableInv(s);
    KnownBooking(s, s.queue[i]);
    var id, e := s.queue[i].event.booking, s.queue[i].event;
    var row, step := s.store.rows[id], Deliver(i, answers, ack);
    assert s.store.rows[id := row] == s.store.rows;
    HandledWith(s, i, answers, ack, R.RefundDone(id, row, e.refundedAt));
    ReachableNext(s, step);
    LedgerShowsOccupiers(Next(s, step), id);
    LifecycleHolds(Next(s, step), id);
  }

  /** From REFUND_PENDING back to CONFIRMED with tickets, and to paid and confirmed
      anew without. */
  predicate Restored(s: Sys, t: Sys, id: Id)
    requires id in s.store.rows
  {
    var row := s.store.rows[id];
    if row.ticketsIssuedAt.Some? then
      && t.store.rows == s.store.rows[id := row.(status := Confirmed, refundRequestedAt := None)]
      && t.log == s.log
    else
      && row.paidAt.Some?
      && t.store.rows == s.store.rows[id := row.(status := BookingStatus.Pending, refundRequestedAt := None,
                                                 confirmationAttemptedAt := Some(s.now))]
      && t.log == s.log + [Published(Confirmation(id, row, SnapshotOf(s.store, id)))]
  }

  /** payment.refund_failed puts a booking that waits for its refund back to what
      it was: confirmed if it has its tickets, paid and confirmed anew if not. It
      touches no other booking, and the seats stay sold throughout. */
  lemma RefusedRefundRestores(s: Sys, i: nat, answers: Answers, ack: bool)
    requires Reachable(s) && i < |s.queue| && s.queue[i].event.PaymentRefundFailed?
    requires s.queue[i].event.booking in s.store.rows
    ensures var id, t := s.queue[i].event.booking, Next(s, Deliver(i, answers, ack));
            var row := s.store.rows[id];
            && (!row.status.RefundPending? ==> t.store == s.store && t.log == s.log)
            && (row.status.RefundPending? ==>
                AllSeats(s, id, Sold(id)) && AllSeats(t, id, Sold(id)) && Restored(s, t, id))
  {
    ReachableInv(s);
    var m, step := s.queue[i], Deliver(i, answers, ack);
    var id := m.event.booking;
    KnownBooking(s, m);
    assert BookingInv(s, id);
    RefusedStep(s, i, answers, ack);
    ReachableNext(s, step);
    LedgerShowsOccupiers(s, id);
    LedgerShowsOccupiers(Next(s, step), id);
    TicketsFollowMoney(s, id);
  }

  lemma RefusedStep(s: Sys, i: nat, answers: Answers, ack: bool)
    requires i < |s.queue| && s.queue[i].to.ToBooking? && s.queue[i].event.PaymentRefundFailed?
    requires s.queue[i].event.booking in s.store.rows
    requires Lifecycle(s.store.rows[s.queue[i].event.booking])
    ensures var id, t := s.queue[i].event.booking, Next(s, Deliver(i, answers, ack));
            var row := s.store.rows[id];
            && t.claims == s.claims && t.now == s.now && id in t.store.rows
            && (!row.status.RefundPending? ==> t.store == s.store && t.log == s.log)
            && (row.status.RefundPending? ==> Restored(s, t, id))
  {
    HandledReply(s, i, answers, ack);
    var id, u := s.queue[i].event.booking, s.(queue := Rest(s, i, ack));
    var row, seats := s.store.rows[id], SnapshotOf(s.store, id);
    assert BookingReply(s, s.queue[i].event, answers) == R.RefundRefused(id, row, seats, s.now);
    RefusedAnswer(u, id, row, R.RefundRefused(id, row, seats, s.now));
  }

  lemma RefusedAnswer(s: Sys, id: Id, row: Booking, reply: R.Reply)
    requires id in s.store.rows && row == s.store.rows[id] && Lifecycle(row)
    requires reply == R.RefundRefused(id, row, SnapshotOf(s.store, id), s.now)
    ensures var t := Answer(s, id, reply);
            && t.claims == s.claims && t.now == s.now && t.store.seats == s.store.seats && id in t.store.rows
            && (!row.status.RefundPending? ==> t.store == s.store && t.log == s.log)
            && (row.status.RefundPending? ==> Restored(s, t, id))
  {
    assert s.store.rows[id := row] == s.store.rows;
    if reply.out == [] {
      assert Publish([]) == [] && s.log + [] == s.log;
    } else {
      Answered(s, id, reply);
    }
  }

  // The remaining messages, commands and cron rows.

  /** A message that the booking service handles with this reply. */
  lemma HandledWith(s: Sys, i: nat, answers: Answers, ack: bool, reply: R.Reply)
    requires i < |s.queue| && s.queue[i].to.ToBooking? && s.queue[i].event.booking in s.store.rows
    requires !Throws(s, s.queue[i], answers)
    requires reply == BookingReply(s, s.queue[i].event, answers) && |reply.out| <= 1
    ensures var id, t := s.queue[i].event.booking, Next(s, Deliver(i, answers, ack));
            && t.store == Put(s.store, id, reply) && t.claims == s.claims && t.now == s.now
            && t.log == (if reply.out == [] then s.log else s.log + [Published(reply.out[0])])
  {
    HandledReply(s, i, answers, ack);
    var id, u := s.queue[i].event.booking, s.(queue := Rest(s, i, ack));
    if reply.out == [] {
      assert Publish([]) == [] && s.log + [] == s.log;
    } else {
      Answered(u, id, reply);
    }
  }

  /** payment.failed ends an unpaid booking, which gives all its seats back, and
      undoes nothing else. */
  lemma DeclineDecides(s: Sys, i: nat, answers: Answers, ack: bool)
    requires Reachable(s) && i < |s.queue| && s.queue[i].event.PaymentFailed?
    ensures var id, t := s.queue[i].event.booking, Next(s, Deliver(i, answers, ack));
            && id in s.store.rows && id in t.store.rows
            && (if R.Unpaid(s.store.rows[id]) then
                  && t.store.rows == s.store.rows[id := s.store.rows[id].(status := BookingStatus.Cancelled,
                                                                         reason := Some(PaymentDeclined))]
                  && t.store.locks == s.store.locks - {id} && NoSeats(t, id)
                  && t.log == s.log + [Published(BookingCancelled(id, PaymentDeclined))]
                else t.store.rows == s.store.rows && t.log == s.log)
  {
    ReachableInv(s);
    KnownBooking(s, s.queue[i]);
    var id, step := s.queue[i].event.booking, Deliver(i, answers, ack);
    HandledWith(s, i, answers, ack, R.FailedPayment(id, s.store.rows[id]));
    ReachableNext(s, step);
    LedgerShowsOccupiers(Next(s, step), id);
  }

  /** payment.refund_pending moves exactly the paid bookings that are not refunded
      yet, keeps the time of an earlier request, and leaves all seats sold. */
  lemma RefundPendingDecides(s: Sys, i: nat, answers: Answers, ack: bool)
    requires Reachable(s) && i < |s.queue| && s.queue[i].event.PaymentRefundPending?
    ensures var id, t := s.queue[i].event.booking, Next(s, Deliver(i, answers, ack));
            && id in s.store.rows && id in t.store.rows && t.log == s.log
            && var row := s.store.rows[id];
            && (if R.Owns(row) then
                  && t.store.rows == s.store.rows[id := row.(status := RefundPending, refundRequestedAt :=
                                                             Some(row.refundRequestedAt.Or(s.now)))]
                  && AllSeats(s, id, Sold(id)) && AllSeats(t, id, Sold(id))
                else t.store.rows == s.store.rows)
  {
    ReachableInv(s);
    KnownBooking(s, s.queue[i]);
    var id, step := s.queue[i].event.booking, Deliver(i, answers, ack);
    LifecycleHolds(s, id);
    HandledWith(s, i, answers, ack, R.RefundStarted(s.store.rows[id], s.now));
    ReachableNext(s, step);
    LedgerShowsOccupiers(s, id);
    LedgerShowsOccupiers(Next(s, step), id);
    TicketsFollowMoney(s, id);
  }

  /** tickets.issued confirms exactly the bookings that own their seats and wait
      for no refund, at the time of their payment; for a refunded one it has the
      tickets voided again; and while a refund is under way it does nothing. */
  lemma IssuanceDecides(s: Sys, i: nat, answers: Answers, ack: bool)
    requires Reachable(s) && i < |s.queue| && s.queue[i].event.TicketsIssued?
    ensures var id, t := s.queue[i].event.booking, Next(s, Deliver(i, answers, ack));
            && id in s.store.rows && id in t.store.rows
            && var row, n := s.store.rows[id], t.store.rows[id];
            && row.paidAt.Some?
            && (row.status.Pending? || row.status.Confirmed? ==>
                  && t.store.rows == s.store.rows[id := n]
                  && n == row.(status := Confirmed, ticketsIssuedAt := Some(s.now),
                               confirmedAt := if row.confirmedAt.Some? then row.confirmedAt else row.paidAt)
                  && AllSeats(t, id, Sold(id)) && t.log == s.log)
            && (row.status.Refunded? ==>
                t.store.rows == s.store.rows && t.log == s.log + [Published(BookingRefunded(id))])
            && (row.status.RefundPending? ==> t.store.rows == s.store.rows && t.log == s.log)
            && !row.status.Expired? && !row.status.Cancelled?
  {
    var id, step := s.queue[i].event.booking, Deliver(i, answers, ack);
    IssuedRow(s, i);
    IssuedStep(s, i, answers, ack);
    ReachableNext(s, step);
    if s.store.rows[id].status.Pending? || s.store.rows[id].status.Confirmed? {
      IssuedSeats(Next(s, step), id);
    }
  }

  /** Tickets are only ever issued for a paid booking, at the time of its payment. */
  lemma IssuedRow(s: Sys, i: nat)
    requires Reachable(s) && i < |s.queue| && s.queue[i].event.TicketsIssued?
    ensures var e := s.queue[i].event;
            && s.queue[i].to.ToBooking? && e.booking in s.store.rows
            && s.store.rows[e.booking].paidAt == Some(e.confirmedAt)
            && !s.store.rows[e.booking].status.Expired? && !s.store.rows[e.booking].status.Cancelled?
  {
    ReachableInv(s);
    KnownBooking(s, s.queue[i]);
    LifecycleHolds(s, s.queue[i].event.booking);
  }

  lemma IssuedStep(s: Sys, i: nat, answers: Answers, ack: bool)
    requires i < |s.queue| && s.queue[i].to.ToBooking? && s.queue[i].event.TicketsIssued?
    requires var e := s.queue[i].event;
             && e.booking in s.store.rows && s.store.rows[e.booking].paidAt == Some(e.confirmedAt)
             && !s.store.rows[e.booking].status.Expired? && !s.store.rows[e.booking].status.Cancelled?
    ensures var id, t := s.queue[i].event.booking, Next(s, Deliver(i, answers, ack));
            var row := s.store.rows[id];
            && (row.status.Pending? || row.status.Confirmed? ==>
                  && t.store.rows == s.store.rows[id := row.(status := Confirmed, ticketsIssuedAt := Some(s.now),
                                                            confirmedAt := if row.confirmedAt.Some?
                                                                           then row.confirmedAt else row.paidAt)]
                  && t.log == s.log)
            && (row.status.Refunded? ==>
                t.store.rows == s.store.rows && t.log == s.log + [Published(BookingRefunded(id))])
            && (row.status.RefundPending? ==> t.store.rows == s.store.rows && t.log == s.log)
  {
    var id, e := s.queue[i].event.booking, s.queue[i].event;
    HandledWith(s, i, answers, ack, R.Issued(id, s.store.rows[id], e.confirmedAt, s.now));
    assert s.store.rows[id := s.store.rows[id]] == s.store.rows;
  }

  lemma IssuedSeats(s: Sys, id: Id)
    requires Reachable(s) && id in s.store.rows && s.store.rows[id].status.Confirmed?
    ensures AllSeats(s, id, Sold(id))
  {
    LedgerShowsOccupiers(s, id);
    TicketsFollowMoney(s, id);
  }

  /** A settlement that is not the first: no row changes, and what is published
      pushes the booking on: its confirmation again while it waits for tickets,
      nothing once it is confirmed, and otherwise a request for that money back. */
  lemma LaterSettlements(s: Sys, i: nat, answers: Answers, ack: bool)
    requires Reachable(s) && i < |s.queue| && s.queue[i].event.PaymentSettled?
    requires s.queue[i].event.booking in s.store.rows
    requires !R.Unpaid(s.store.rows[s.queue[i].event.booking])
    ensures var id, e, t := s.queue[i].event.booking, s.queue[i].event, Next(s, Deliver(i, answers, ack));
            var row := s.store.rows[id];
            && t.store.rows == s.store.rows
            && (row.status.Pending? ==> t.log == s.log + [Published(Confirmation(id, row, SnapshotOf(s.store, id)))])
            && (row.status.Confirmed? ==> t.log == s.log)
            && (Dead(row) || row.status.RefundPending? ==>
                t.log == s.log + [Published(BookingRefundRequested(id, e.amount))])
  {
    ReachableInv(s);
    KnownBooking(s, s.queue[i]);
    var id, e := s.queue[i].event.booking, s.queue[i].event;
    var row, seats := s.store.rows[id], SnapshotOf(s.store, id);
    LifecycleHolds(s, id);
    RepeatedReply(id, row, seats, s.now, e.amount, e.paidAt);
    HandledWith(s, i, answers, ack, R.Settled(id, row, seats, false, s.now, e.amount, e.paidAt));
    assert s.store.rows[id := row] == s.store.rows;
  }

  lemma RepeatedReply(id: Id, row: Booking, seats: Snapshot, now: Time, amount: int, paidAt: Time)
    requires Lifecycle(row) && !R.Unpaid(row)
    ensures R.Settled(id, row, seats, false, now, amount, paidAt)
         == R.Reply(row, false, if row.status.Pending? then [Confirmation(id, row, seats)]
                                else if row.status.Confirmed? then []
                                else [BookingRefundRequested(id, amount)])
  {
  }

  /** The expiry pass ends exactly the unpaid holds past their deadline, which give
      all their seats back. */
  lemma SweepDecides(s: Sys, id: Id)
    requires Reachable(s) && id in s.store.rows
    ensures var row, t := s.store.rows[id], Next(s, ExpireStale(id));
            && id in t.store.rows
            && (if R.Unpaid(row) && row.expiresAt < s.now then
                  && t.store.rows == s.store.rows[id := row.(status := BookingStatus.Expired)]
                  && t.store.locks == s.store.locks - {id} && NoSeats(t, id)
                  && t.log == s.log + [Published(BookingExpired(id))]
                else t == s)
  {
    var row, step := s.store.rows[id], ExpireStale(id);
    if R.Stale(row, s.now) {
      Answered(s, id, R.Expire(id, row));
      assert Next(s, step) == Answer(s, id, R.Expire(id, row));
      ReachableNext(s, step);
      LedgerShowsOccupiers(Next(s, step), id);
    }
  }

  /** The other two passes load exactly the paid bookings without tickets and the
      refunds under way whose last attempt is more than half a minute old, note the
      new attempt, and ask again: for the tickets of the payment as it was made, or
      for the whole amount. */
  lemma RetriesDecide(s: Sys, id: Id)
    requires Reachable(s) && id in s.store.rows
    ensures var row, confirm, refund := s.store.rows[id], Next(s, RetryConfirmation(id)), Next(s, RetryRefund(id));
            var tried, asked := row.confirmationAttemptedAt, row.refundRequestedAt;
            && (if row.status.Pending? && row.paidAt.Some? && (tried.None? || tried.value < s.now - 30_000) then
                  && confirm.store == s.store.(rows := s.store.rows[id := row.(confirmationAttemptedAt := Some(s.now))])
                  && confirm.log == s.log + [Published(Confirmation(id, row, SnapshotOf(s.store, id)))]
                else confirm == s)
            && (if row.status.RefundPending? && (asked.None? || asked.value < s.now - 30_000) then
                  && refund.store == s.store.(rows := s.store.rows[id := row.(refundRequestedAt := Some(s.now))])
                  && refund.log == s.log + [Published(BookingRefundRequested(id, row.totalAmount))]
                else refund == s)
  {
    assert Lifecycle(s.store.rows[id]) by {
      LifecycleHolds(s, id);
    }
    ReconfirmStep(s, id);
    RerequestStep(s, id);
  }

  lemma ReconfirmStep(s: Sys, id: Id)
    requires id in s.store.rows && Lifecycle(s.store.rows[id])
    ensures var row, t := s.store.rows[id], Next(s, RetryConfirmation(id));
            var tried := row.confirmationAttemptedAt;
            if row.status.Pending? && row.paidAt.Some? && (tried.None? || tried.value < s.now - 30_000) then
              && t.store == s.store.(rows := s.store.rows[id := row.(confirmationAttemptedAt := Some(s.now))])
              && t.log == s.log + [Published(Confirmation(id, row, SnapshotOf(s.store, id)))]
            else t == s
  {
    assert Next(s, RetryConfirmation(id)) == ReconfirmNext(s, id);
    Answered(s, id, R.Reconfirm(id, s.store.rows[id], SnapshotOf(s.store, id), s.now));
  }

  lemma RerequestStep(s: Sys, id: Id)
    requires id in s.store.rows
    ensures var row, t := s.store.rows[id], Next(s, RetryRefund(id));
            var asked := row.refundRequestedAt;
            if row.status.RefundPending? && (asked.None? || asked.value < s.now - 30_000) then
              && t.store == s.store.(rows := s.store.rows[id := row.(refundRequestedAt := Some(s.now))])
              && t.log == s.log + [Published(BookingRefundRequested(id, row.totalAmount))]
            else t == s
  {
    assert Next(s, RetryRefund(id)) == RerequestNext(s, id);
    Answered(s, id, R.RerequestRefund(id, s.store.rows[id], s.now));
  }

  /** Every answer of the pre-flight check: who gets which, and that a booking told
      it is gone has no seat left unless its money is already on the way back. */
  lemma PrepareDecides(s: Sys, id: Id, user: Id, probe: R.Probe)
    requires Reachable(s) && id in s.store.rows
    ensures var row, seats, t := s.store.rows[id], SnapshotOf(s.store, id), Next(s, PrepareCharge(id, user, probe));
            var c := R.PrepareCharge(id, row, user, seats, s.now, probe);
            && id in t.store.rows
            && (c.PrepareNotFound? <==> row.user != user)
            && (c.AlreadyPaid? <==> row.user == user && R.Owns(row) && !row.status.RefundPending?)
            && (c.LockUnavailable? <==>
                row.user == user && R.Unpaid(row) && s.now < row.expiresAt && seats != map[] && probe.Unreachable?)
            && (c.Gone? ==> if row.status.RefundPending? then AllSeats(t, id, Sold(id))
                else Dead(t.store.rows[id]) && NoSeats(t, id))
            && (!c.Gone? ==> t.store == s.store && t.log == s.log)
            && t.contexts == s.contexts + (if c.Context? then {c.ctx} else {})
            && (c.Gone? ==> t.store.rows == (if row.status.Pending? then
                                             s.store.rows[id := row.(status := BookingStatus.Expired)]
                                             else s.store.rows))
            && (c.Gone? ==> t.log == if row.status.Pending? then s.log + [Published(BookingExpired(id))] else s.log)
  {
    LifecycleHolds(s, id);
    PrepareSteps(s, id, user, probe);
    var row, step := s.store.rows[id], PrepareCharge(id, user, probe);
    if R.PrepareCharge(id, row, user, SnapshotOf(s.store, id), s.now, probe).Gone? {
      ReachableNext(s, step);
      LedgerShowsOccupiers(Next(s, step), id);
      if row.status.RefundPending? {
        TicketsFollowMoney(s, id);
      }
    }
  }

  lemma PrepareSteps(s: Sys, id: Id, user: Id, probe: R.Probe)
    requires id in s.store.rows
    ensures var row, t := s.store.rows[id], Next(s, PrepareCharge(id, user, probe));
            var c := R.PrepareCharge(id, row, user, SnapshotOf(s.store, id), s.now, probe);
            && t.contexts == s.contexts + (if c.Context? then {c.ctx} else {})
            && (!c.Gone? ==> t.store == s.store && t.log == s.log)
            && (c.Gone? ==>
                  && t.claims == s.claims && t.now == s.now
                  && t.store.rows == (if row.status.Pending? then
                                      s.store.rows[id := row.(status := BookingStatus.Expired)]
                                      else s.store.rows)
                  && t.log == if row.status.Pending? then s.log + [Published(BookingExpired(id))] else s.log)
  {
    assert Next(s, PrepareCharge(id, user, probe)) == PrepareNext(s, id, user, probe);
    var row := s.store.rows[id];
    assert s.store.rows[id := row] == s.store.rows;
    assert Publish([BookingExpired(id)]) == [Published(BookingExpired(id))];
    assert Publish([]) == [] && s.log + [] == s.log;
  }

  // Invoices.

  /** A stored invoice that a charge may hand out again: the provider still has it open. */
  predicate Reusable(p: Option<Payment>, answer: P.InvoiceAnswer) {
    p.Some? && p.value.invoiceId.Some? && answer.reusable
  }

  /** Charging has four answers. Money on its way back is refused. A payment that is
      PAID, or that money never came in for and whose invoice is still open, is
      handed out as it is. Otherwise a fresh invoice for the amount asked replaces
      whatever was there, or, if the provider cannot open one, nothing is handed out. */
  lemma ChargeDecides(p: Option<Payment>, amount: int, answer: P.InvoiceAnswer)
    ensures var c := P.Charge(p, amount, answer);
            var stored := p.Some? && (p.value.status.Paid? || (!MoneyIn(p) && Reusable(p, answer)));
            && (c.BadAmount? <==> amount <= 0)
            && (c.RefundUnderway? <==> amount > 0 && MoneyIn(p) && !p.value.status.Paid?)
            && (c.ProviderDown? <==> amount > 0 && !MoneyIn(p) && !Reusable(p, answer) && answer.created.None?)
            && (c.Charged? <==> amount > 0 && (stored || (!MoneyIn(p) && answer.created.Some?)))
            && (c.Charged? ==>
                c.payment == if stored then p.value
                             else Payment(amount, PaymentStatus.Unpaid, answer.created, None, None, None))
  {
  }

  /** Opening an invoice writes one payment at most, and only a fresh one: exactly if
      no money is in, no stored invoice may be handed out and the provider opens one. */
  lemma InvoiceDecides(s: Sys, ctx: R.ChargeContext, answer: P.InvoiceAnswer)
    requires ctx in s.contexts
    ensures var id, t := ctx.booking, Next(s, OpenInvoice(ctx, answer));
            var p := PaymentOf(s, id);
            t == if ctx.amount > 0 && !MoneyIn(p) && !Reusable(p, answer) && answer.created.Some?
                 then s.(payments := s.payments[id := Payment(ctx.amount, PaymentStatus.Unpaid, answer.created,
                                                              None, None, None)])
                 else s
  {
    var id := ctx.booking;
    if id in s.payments {
      assert s.payments[id := s.payments[id]] == s.payments;
    }
  }

  /** A callback that the invoice failed closes an open payment and never one that
      money came in for; it is passed on either way. */
  lemma FailureCallbackDecides(s: Sys, id: Id, invoice: Id, paidAt: Option<Time>)
    requires id in s.payments
    ensures var p, t := s.payments[id], Next(s, Callback(id, invoice, P.NoMoney, paidAt));
            && id in t.payments && t.log == s.log + [Published(PaymentFailed(id))] && t.store == s.store
            && (if p.status.Unpaid? then t.payments[id] == p.(status := PaymentStatus.Failed) else t.payments[id] == p)
  {
    assert Next(s, Callback(id, invoice, P.NoMoney, paidAt)) == Book(s, id, P.ApplyFailed(id, s.payments[id]));
  }

  /** Money is in, for this amount and through this invoice. */
  predicate PaidThrough(p: Option<Payment>, amount: int, invoice: Option<Id>) {
    MoneyIn(p) && p.value.amount == amount && p.value.invoiceId == invoice
  }

  lemma ClientKeepsInvoice(s: Sys, step: Step, id: Id, amount: int, invoice: Option<Id>)
    requires FromClient(step) && PaidThrough(PaymentOf(s, id), amount, invoice)
    ensures PaidThrough(PaymentOf(ClientNext(s, step), id), amount, invoice)
  {
    if step.OpenInvoice? && step.ctx.booking == id {
      ChargeDecides(PaymentOf(s, id), step.ctx.amount, step.invoice);
    }
  }

  lemma ProviderKeepsInvoice(s: Sys, step: Step, id: Id, amount: int, invoice: Option<Id>)
    requires FromProvider(step) && PaidThrough(PaymentOf(s, id), amount, invoice)
    ensures PaidThrough(PaymentOf(ProviderNext(s, step), id), amount, invoice)
  {
  }

  lemma HandlesKeepInvoice(s: Sys, e: Event, answers: Answers, id: Id, amount: int, invoice: Option<Id>)
    requires PaidThrough(PaymentOf(s, id), amount, invoice)
    ensures PaidThrough(PaymentOf(PaymentHandles(s, e, answers), id), amount, invoice)
  {
  }

  lemma BusKeepsInvoice(s: Sys, step: Step, id: Id, amount: int, invoice: Option<Id>)
    requires FromBus(step) && PaidThrough(PaymentOf(s, id), amount, invoice)
    ensures PaidThrough(PaymentOf(BusNext(s, step), id), amount, invoice)
  {
    if step.Deliver? && step.i < |s.queue| && s.queue[step.i].to.ToPayment? {
      HandlesKeepInvoice(s.(queue := Rest(s, step.i, step.ack)), s.queue[step.i].event, step.answers, id, amount,
                         invoice);
    }
  }

  /** Once money came in for a booking, no charge, callback, sync, expiry or refund in
      any continuation gives its payment another invoice or amount, or makes it open
      or failed again. What was paid on earlier invoices is in SagaInvoices. */
  lemma {:induction false} PaidInvoiceIsFinal(s: Sys, run: seq<Step>, id: Id, amount: int, invoice: Option<Id>)
    requires PaidThrough(PaymentOf(s, id), amount, invoice)
    ensures PaidThrough(PaymentOf(Exec(s, run), id), amount, invoice)
  {
    if run != [] {
      var front, last := run[..|run| - 1], run[|run| - 1];
      PaidInvoiceIsFinal(s, front, id, amount, invoice);
      var u := Exec(s, front);
      if FromClient(last) {
        ClientKeepsInvoice(u, last, id, amount, invoice);
      } else if FromProvider(last) {
        ProviderKeepsInvoice(u, last, id, amount, invoice);
      } else if FromBus(last) {
        BusKeepsInvoice(u, last, id, amount, invoice);
      }
    }
  }

  lemma FailureIsSaid(s: Sys, id: Id, invoice: Id, paidAt: Option<Time>)
    requires id in s.payments
    ensures Next(s, Callback(id, invoice, P.NoMoney, paidAt)).queue ==
              s.queue + [Envelope(ToBooking, PaymentFailed(id))]
  {
    assert Next(s, Callback(id, invoice, P.NoMoney, paidAt)) == Book(s, id, P.ApplyFailed(id, s.payments[id]));
    OneMessage(PaymentFailed(id), Envelope(ToBooking, PaymentFailed(id)));
  }

  /** A failed invoice, from the callback to the booking: an unpaid booking is
      cancelled and its seats are free, every other one is left alone, and so is a
      payment that money came in for. */
  lemma FailedInvoiceDecides(s: Sys, id: Id, invoice: Id, paidAt: Option<Time>, answers: Answers)
    requires Reachable(s) && id in s.payments && id in s.store.rows
    ensures var u := Next(s, Callback(id, invoice, P.NoMoney, paidAt));
            var t := Next(u, Deliver(|s.queue|, answers, true));
            && id in t.store.rows && id in t.payments
            && (if R.Unpaid(s.store.rows[id]) then t.store.rows[id].status.Cancelled? && NoSeats(t, id)
                else t.store.rows == s.store.rows)
            && (MoneyIn(PaymentOf(s, id)) ==> t.payments[id] == s.payments[id])
            && (!MoneyIn(PaymentOf(s, id)) ==> t.payments[id].status.Failed?)
  {
    var call := Callback(id, invoice, P.NoMoney, paidAt);
    var u := Next(s, call);
    FailureCallbackDecides(s, id, invoice, paidAt);
    ReachableNext(s, call);
    FailureIsSaid(s, id, invoice, paidAt);
    DeclineDecides(u, |s.queue|, answers, true);
    DeclineSparesPayments(u, |s.queue|, answers);
  }

  lemma DeclineSparesPayments(s: Sys, i: nat, answers: Answers)
    requires i < |s.queue| && s.queue[i].to.ToBooking? && s.queue[i].event.PaymentFailed?
    ensures Next(s, Deliver(i, answers, true)).payments == s.payments
  {
    if s.queue[i].event.booking in s.store.rows {
      HandledRow(s, i, answers, true);
    }
  }
}

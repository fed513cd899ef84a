/** Safety over whole runs: no seat sold twice, tickets follow the money, every
    effect has its causes, amounts agree, dead bookings stay dead. All of it
    holds under loss, duplication and reordering of messages. */
module SagaSafety {
  import opened SagaTypes
  import opened SeatValidation
  import opened BookingStore
  import opened TicketRules
  import opened Saga
  import opened SagaInvariant
  import opened SagaTheorem
  import opened SagaSteps
  import R = BookingRules

  // No seat is sold twice.

  lemma TicketBehind(s: Sys, id: Id, k: SeatKey)
    requires Inv(s) && TicketKey(id, k) in s.tickets
    ensures id in s.store.rows && s.store.rows[id].paidAt.Some?
    ensures !s.store.rows[id].status.Refunded? ==>
              R.Owns(s.store.rows[id]) && k in s.store.seats && s.store.seats[k].booking == id
  {
    assert BookingInv(s, id);
    assert k in ViewOf(s, id).tickets;
    assert !s.store.rows[id].status.Refunded? ==> k in ViewOf(s, id).held;
  }

  /** Two bookings never both have a valid ticket for one seat of one showtime. */
  lemma NoDoubleSale(s: Sys, b: Id, c: Id, k: SeatKey)
    requires Reachable(s)
    requires b != c && TicketKey(b, k) in s.tickets && TicketKey(c, k) in s.tickets
    ensures b in s.store.rows && c in s.store.rows
    ensures s.store.rows[b].status.Refunded? || s.store.rows[c].status.Refunded?
  {
    ReachableInv(s);
    TicketBehind(s, b, k);
    TicketBehind(s, c, k);
  }

  // Tickets follow the money.

  predicate Live(row: Booking) {
    R.Unpaid(row) || R.Owns(row)
  }

  function SeatsOfClaim(s: Sys, id: Id): set<SeatKey> {
    if id in s.claims then s.claims[id].Keys else {}
  }

  /** A booking has no tickets or exactly one per seat it held; none if it was
      never paid; and all of them from issuance until it is refunded. */
  lemma TicketsFollowMoney(s: Sys, id: Id)
    requires Reachable(s) && id in s.store.rows
    ensures var row, tickets := s.store.rows[id], TicketsOf(s.tickets, id);
            && (tickets == map[] || tickets.Keys == SeatsOfClaim(s, id))
            && (tickets != map[] ==> row.paidAt.Some?)
            && (row.ticketsIssuedAt.Some? && !row.status.Refunded? ==> tickets != map[] && R.Owns(row))
            && (R.Owns(row) ==> SnapshotOf(s.store, id).Keys == SeatsOfClaim(s, id) != {})
  {
    ReachableInv(s);
    assert BookingInv(s, id);
  }

  /** Nothing that voids tickets is ever said about a live booking. */
  lemma NoVoidWhileLive(s: Sys, id: Id, f: Fact)
    requires Reachable(s) && id in s.store.rows && Live(s.store.rows[id])
    requires f in s.log && f.Published? && f.About() == id
    ensures !f.event.BookingRefunded? && !f.event.BookingCancelled? && !f.event.BookingExpired? &&
              !f.event.TicketsVoided?
  {
    ReachableInv(s);
    assert BookingInv(s, id);
    assert FactOk(id, ViewOf(s, id), f);
  }

  predicate ReachesTickets(s: Sys, step: Step) {
    step.Deliver? && step.i < |s.queue| && s.queue[step.i].to.ToTicket? && !Throws(s, s.queue[step.i], step.answers)
  }

  lemma ClientSparesTickets(s: Sys, step: Step)
    requires FromClient(step)
    ensures ClientNext(s, step).tickets == s.tickets
  {
  }

  lemma BusSparesTickets(s: Sys, step: Step)
    requires FromBus(step) && !ReachesTickets(s, step)
    ensures BusNext(s, step).tickets == s.tickets
  {
    if step.i < |s.queue| && step.Deliver? && !Throws(s, s.queue[step.i], step.answers) {
      var u, m := s.(queue := Rest(s, step.i, step.ack)), s.queue[step.i];
      assert BusNext(s, step) == Handle(u, m, step.answers);
      OtherServiceSparesTickets(u, m, step.answers);
    }
  }

  lemma OtherServiceSparesTickets(s: Sys, m: Envelope, answers: Answers)
    requires !m.to.ToTicket?
    ensures Handle(s, m, answers).tickets == s.tickets
  {
  }

  /** Only the ticket service writes tickets. */
  lemma OthersSpareTickets(s: Sys, step: Step)
    requires !ReachesTickets(s, step)
    ensures Next(s, step).tickets == s.tickets
  {
    if FromClient(step) {
      ClientSparesTickets(s, step);
    } else if FromBus(step) {
      BusSparesTickets(s, step);
    }
  }

  lemma TicketServiceKeeps(s: Sys, e: Event, answers: Answers, t: TicketKey)
    requires t in s.tickets
    requires e.booking == t.booking ==> e.BookingConfirmed?
    ensures t in TicketHandles(s, e, answers).tickets && TicketHandles(s, e, answers).tickets[t] == s.tickets[t]
  {
    assert e.booking == t.booking ==> Has(s.tickets, e.booking);
  }

  lemma NoVoidQueued(s: Sys, m: Envelope)
    requires Inv(s) && m in s.queue && m.to.ToTicket? && m.event.booking in s.store.rows
    requires R.Owns(s.store.rows[m.event.booking])
    ensures m.event.BookingConfirmed?
  {
    KnownBooking(s, m);
  }

  /** Until the booking is refunded its ticket codes never change, through any replay. */
  lemma CodesStable(s: Sys, step: Step, t: TicketKey)
    requires Reachable(s) && t in s.tickets
    requires t.booking in s.store.rows && !s.store.rows[t.booking].status.Refunded?
    ensures t in Next(s, step).tickets && Next(s, step).tickets[t] == s.tickets[t]
  {
    ReachableInv(s);
    TicketBehind(s, t.booking, t.seat);
    if ReachesTickets(s, step) {
      var m := s.queue[step.i];
      if m.event.booking == t.booking {
        NoVoidQueued(s, m);
      }
      TicketServiceKeeps(s.(queue := Rest(s, step.i, step.ack)), m.event, step.answers, t);
      assert Next(s, step) == TicketHandles(s.(queue := Rest(s, step.i, step.ack)), m.event, step.answers);
    } else {
      OthersSpareTickets(s, step);
    }
  }

  /** Tickets are voided only after payment.refunded. */
  lemma TicketsGoAfterRefund(s: Sys, step: Step, t: TicketKey)
    requires Reachable(s) && t in s.tickets && t !in Next(s, step).tickets
    ensures t.booking in s.store.rows && s.store.rows[t.booking].status.Refunded? && RefundSeen(s.log, t.booking)
  {
    ReachableInv(s);
    TicketBehind(s, t.booking, t.seat);
    if !s.store.rows[t.booking].status.Refunded? {
      CodesStable(s, step, t);
    }
    StatesHaveCauses(s, t.booking);
  }

  // Causality.

  /** Fact f stands at position i of the history. */
  predicate At(log: seq<Fact>, i: int, f: Fact) {
    0 <= i < |log| && log[i] == f
  }

  lemma EarlierThan(log: seq<Fact>, i: nat, f: Fact) returns (j: nat)
    requires i <= |log| && f in log[..i]
    ensures j < i && At(log, j, f)
  {
    j :| 0 <= j < i && log[..i][j] == f;
  }

  /** Behind every tickets.issued stand, in this order, the provider's word that
      the invoice was paid, payment.settled and booking.confirmed, all for the
      same booking, amount and seats. */
  lemma IssueCausality(s: Sys, i: nat) returns (paid: nat, settled: nat, confirmed: nat)
    requires Reachable(s) && i < |s.log| && s.log[i].Published? && s.log[i].event.TicketsIssued?
    ensures paid < settled < confirmed < i
    ensures var e := s.log[i].event;
            && At(s.log, confirmed,
                  Published(BookingConfirmed(e.booking, e.showtime, e.seats, e.amount, e.confirmedAt)))
            && At(s.log, settled, Published(PaymentSettled(e.booking, e.amount, e.confirmedAt)))
            && At(s.log, paid, ProviderPaid(e.booking))
  {
    ReachableInv(s);
    var log, e := s.log, s.log[i].event;
    confirmed := EarlierThan(log, i,
                             Published(BookingConfirmed(e.booking, e.showtime, e.seats, e.amount, e.confirmedAt)));
    settled := EarlierThan(log, confirmed, Published(PaymentSettled(e.booking, e.amount, e.confirmedAt)));
    paid := EarlierThan(log, settled, ProviderPaid(e.booking));
  }

  /** Behind every booking.refunded stand, in this order, a settlement, a refund
      request for the settled amount, the provider taking that refund, the
      provider reporting it done, and payment.refunded. */
  lemma RefundCausality(s: Sys, i: nat)
    returns (settled: nat, requested: nat, accepted: nat, succeeded: nat, returned: nat)
    requires Reachable(s) && i < |s.log| && s.log[i].Published? && s.log[i].event.BookingRefunded?
    ensures settled < requested < accepted < succeeded < returned < i
    ensures var id := s.log[i].event.booking;
            exists at, since, amount, recorded ::
              && At(s.log, returned, Published(PaymentRefunded(id, at)))
              && At(s.log, succeeded, RefundSucceeded(id))
              && At(s.log, accepted, RefundAccepted(id, amount, recorded))
              && At(s.log, requested, Published(BookingRefundRequested(id, amount)))
              && At(s.log, settled, Published(PaymentSettled(id, amount, since)))
  {
    ReachableInv(s);
    var id := s.log[i].event.booking;
    var at: Time, since: Time, amount: int, recorded: bool;
    returned, at := ReturnedBefore(s.log, i);
    succeeded, accepted, amount, recorded := AcceptedBefore(s.log, returned);
    requested, settled, since := RequestedBefore(s.log, accepted);
  }

  lemma ReturnedBefore(log: seq<Fact>, i: nat) returns (returned: nat, at: Time)
    requires Closed(log) && i < |log| && log[i].Published? && log[i].event.BookingRefunded?
    ensures returned < i && At(log, returned, Published(PaymentRefunded(log[i].event.booking, at)))
  {
    at :| Published(PaymentRefunded(log[i].event.booking, at)) in log[..i];
    returned := EarlierThan(log, i, Published(PaymentRefunded(log[i].event.booking, at)));
  }

  lemma AcceptedBefore(log: seq<Fact>, i: nat) returns (succeeded: nat, accepted: nat, amount: int, recorded: bool)
    requires Closed(log) && i < |log| && log[i].Published? && log[i].event.PaymentRefunded?
    ensures accepted < succeeded < i
    ensures At(log, succeeded, RefundSucceeded(log[i].event.booking))
    ensures At(log, accepted, RefundAccepted(log[i].event.booking, amount, recorded))
  {
    var id := log[i].event.booking;
    succeeded := EarlierThan(log, i, RefundSucceeded(id));
    assert Justified(log[succeeded], log[..succeeded]);
    amount, recorded :| RefundAccepted(id, amount, recorded) in log[..succeeded];
    accepted := EarlierThan(log, succeeded, RefundAccepted(id, amount, recorded));
  }

  lemma RequestedBefore(log: seq<Fact>, i: nat) returns (requested: nat, settled: nat, since: Time)
    requires Closed(log) && i < |log| && log[i].RefundAccepted?
    ensures settled < requested < i
    ensures At(log, requested, Published(BookingRefundRequested(log[i].booking, log[i].amount)))
    ensures At(log, settled, Published(PaymentSettled(log[i].booking, log[i].amount, since)))
  {
    var id, amount := log[i].booking, log[i].amount;
    requested := EarlierThan(log, i, Published(BookingRefundRequested(id, amount)));
    assert Justified(log[requested], log[..requested]);
    since :| Published(PaymentSettled(id, amount, since)) in log[..requested];
    settled := EarlierThan(log, requested, Published(PaymentSettled(id, amount, since)));
  }

  /** The states themselves are backed by the history. */
  lemma StatesHaveCauses(s: Sys, id: Id)
    requires Reachable(s) && id in s.store.rows
    ensures var row := s.store.rows[id];
            && (row.paidAt.Some? ==>
                  Published(PaymentSettled(id, row.totalAmount, row.paidAt.value)) in s.log &&
                      ProviderPaid(id) in s.log)
            && (row.status.Refunded? ==> RefundSeen(s.log, id) && RefundSucceeded(id) in s.log)
            && (TicketsOf(s.tickets, id) != map[] ==>
                  exists e :: Published(e) in s.log && e.BookingConfirmed? && e.booking == id &&
                      e.seats.Keys == TicketsOf(s.tickets, id).Keys)
  {
    ReachableInv(s);
    assert BookingInv(s, id);
    var row, v := s.store.rows[id], ViewOf(s, id);
    if row.paidAt.Some? {
      CauseSeen(s.log, Published(PaymentSettled(id, row.totalAmount, row.paidAt.value)), ProviderPaid(id));
    }
    if row.status.Refunded? {
      var at :| Published(PaymentRefunded(id, at)) in s.log;
      CauseSeen(s.log, Published(PaymentRefunded(id, at)), RefundSucceeded(id));
    }
    if v.tickets != map[] {
      var e := Confirmation(id, row, v.claim);
      assert Published(e) in s.log && e.seats.Keys == v.tickets.Keys;
    }
  }

  lemma CauseSeen(log: seq<Fact>, f: Fact, cause: Fact)
    requires Closed(log) && f in log
    requires forall i :: 0 <= i < |log| && log[i] == f && Justified(f, log[..i]) ==> cause in log[..i]
    ensures cause in log
  {
    var i :| 0 <= i < |log| && log[i] == f;
    assert Justified(log[i], log[..i]);
  }

  // Amounts.

  /** What the history says about amounts. */
  lemma RecordedAmounts(id: Id, v: View, log: seq<Fact>)
    requires v.row.Some? && LogInv(id, v, log)
    ensures var total := v.row.value.totalAmount;
            && (forall amount, at :: Published(PaymentSettled(id, amount, at)) in log ==> amount == total)
            && (forall amount :: Published(BookingRefundRequested(id, amount)) in log ==> amount == total)
            && (forall amount, recorded :: RefundAccepted(id, amount, recorded) in log ==> amount == total)
  {
    forall amount, at | Published(PaymentSettled(id, amount, at)) in log
      ensures amount == v.row.value.totalAmount
    {
      assert Published(PaymentSettled(id, amount, at)).About() == id;
    }
    forall amount | Published(BookingRefundRequested(id, amount)) in log
      ensures amount == v.row.value.totalAmount
    {
      assert Published(BookingRefundRequested(id, amount)).About() == id;
    }
    forall amount, recorded | RefundAccepted(id, amount, recorded) in log
      ensures amount == v.row.value.totalAmount
    {
      assert RefundAccepted(id, amount, recorded).About() == id;
    }
  }

  /** One amount per booking: what its seats cost is what is charged, settled,
      asked back and refunded. */
  lemma AmountsAgree(s: Sys, id: Id)
    requires Reachable(s) && id in s.store.rows
    ensures var total := s.store.rows[id].totalAmount;
            && (id in s.claims && s.claims[id] != map[] ==> total == Total(s.claims[id]))
            && (R.Owns(s.store.rows[id]) ==> total == Total(SnapshotOf(s.store, id)))
            && (id in s.payments ==> s.payments[id].amount == total)
            && (forall c :: c in s.contexts && c.booking == id ==> c.amount == total)
            && (forall amount, at :: Published(PaymentSettled(id, amount, at)) in s.log ==> amount == total)
            && (forall amount :: Published(BookingRefundRequested(id, amount)) in s.log ==> amount == total)
            && (forall amount, recorded :: RefundAccepted(id, amount, recorded) in s.log ==> amount == total)
  {
    ReachableInv(s);
    assert BookingInv(s, id);
    var v := ViewOf(s, id);
    assert forall c :: c in s.contexts && c.booking == id ==> c in v.contexts;
    RecordedAmounts(id, v, s.log);
  }

  // Lifecycle.

  /** Status, payment and ticket stamps of every reachable row fit together, and
      a lock handle is kept only for a booking still waiting for its money. */
  lemma LifecycleHolds(s: Sys, id: Id)
    requires Reachable(s) && id in s.store.rows
    ensures Lifecycle(s.store.rows[id])
    ensures id in s.store.locks ==> R.Unpaid(s.store.rows[id])
    ensures id in s.payments && s.payments[id].status.Refunding? ==> s.payments[id].refundId.Some?
  {
    ReachableInv(s);
    assert BookingInv(s, id);
  }

  predicate Dead(row: Booking) {
    row.status.Expired? || row.status.Cancelled? || row.status.Refunded?
  }

  /** A dead booking never comes back to life, in any continuation; REFUNDED is
      final, and money recorded as paid stays recorded at the same instant. */
  lemma {:induction false} DeadForever(s: Sys, run: seq<Step>, id: Id)
    requires Reachable(s) && id in s.store.rows
    ensures var t := Exec(s, run);
            && Reachable(t) && id in t.store.rows
            && (Dead(s.store.rows[id]) ==> Dead(t.store.rows[id]))
            && (s.store.rows[id].status.Refunded? ==> t.store.rows[id].status.Refunded?)
            && (Dead(s.store.rows[id]) && s.store.rows[id].paidAt.None? ==> t.store.rows[id].paidAt.None?)
            && (s.store.rows[id].paidAt.Some? ==> t.store.rows[id].paidAt == s.store.rows[id].paidAt)
  {
    if run != [] {
      var front, last := run[..|run| - 1], run[|run| - 1];
      DeadForever(s, front, id);
      var m := Exec(s, front);
      ReachableInv(m);
      RowMoves(m, last, id);
      ReachableNext(m, last);
      assert BookingInv(m, id);
    }
  }

  lemma ReachableNext(s: Sys, step: Step)
    requires Reachable(s)
    ensures Reachable(Next(s, step))
  {
    var start: Time, run: seq<Step> :| s == Exec(Init(start), run);
    assert (run + [step])[..|run|] == run;
    assert Exec(Init(start), run + [step]) == Next(s, step);
  }

  /** The last branch of onRefundFailed and the CANCELLED and EXPIRED branches of
      onTicketsIssued are never taken. */
  lemma DeadBranches(s: Sys, i: nat)
    requires Reachable(s) && i < |s.queue| && s.queue[i].to.ToBooking? && s.queue[i].event.booking in s.store.rows
    ensures var row := s.store.rows[s.queue[i].event.booking];
            && (s.queue[i].event.PaymentRefundFailed? && row.status.RefundPending? ==>
                  row.ticketsIssuedAt.Some? || row.paidAt.Some?)
            && (s.queue[i].event.TicketsIssued? ==> !row.status.Cancelled? && !row.status.Expired? && !R.Unpaid(row))
  {
    ReachableInv(s);
    var m := s.queue[i];
    assert BookingInv(s, m.event.booking);
    assert FactOk(m.event.booking, ViewOf(s, m.event.booking), Published(m.event));
  }
}

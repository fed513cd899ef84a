/** Which bookings carry a cancellation reason: those that were cancelled, also
    after a late refund has made them REFUNDED. */
module SagaReasons {
  import opened SagaTypes
  import opened BookingStore
  import opened Saga
  import opened SagaInvariant
  import opened SagaProof
  import opened SagaTheorem
  import opened SagaSteps
  import opened SagaSafety
  import opened SagaProgress
  import opened SagaRecovery
  import opened SagaWitness
  import R = BookingRules

  predicate Cancelled(log: seq<Fact>, id: Id, reason: CancelReason) {
    Published(BookingCancelled(id, reason)) in log
  }

  predicate Lapsed(log: seq<Fact>, id: Id) {
    Published(BookingExpired(id)) in log
  }

  predicate EndedUnpaid(row: Booking) {
    row.paidAt.None? && !row.status.Pending?
  }

  /** The row knows why it was cancelled, and an unpaid end was announced. */
  predicate Explained(id: Id, row: Booking, log: seq<Fact>) {
    && (forall reason: CancelReason :: row.reason == Some(reason) <==> Cancelled(log, id, reason))
    && (EndedUnpaid(row) ==> row.reason.Some? || Lapsed(log, id))
    && (Lapsed(log, id) ==> EndedUnpaid(row) && row.reason.None?)
  }

  predicate Explains(id: Id, row: Booking, reply: R.Reply) {
    var n := reply.row;
    && (forall reason: CancelReason ::
          n.reason == Some(reason) <==> row.reason == Some(reason) || BookingCancelled(id, reason) in reply.out)
    && (EndedUnpaid(n) ==> EndedUnpaid(row) || n.reason.Some? || BookingExpired(id) in reply.out)
    && (EndedUnpaid(row) ==> EndedUnpaid(n) && n.reason == row.reason)
    && (BookingExpired(id) in reply.out ==> EndedUnpaid(n) && n.reason.None?)
  }

  lemma ExplainedAfter(id: Id, row: Booking, log: seq<Fact>, reply: R.Reply)
    requires Explained(id, row, log) && Explains(id, row, reply)
    ensures Explained(id, reply.row, log + Publish(reply.out))
  {
    PublishMembers(reply.out);
    assert forall e: Event :: Published(e) in log + Publish(reply.out) <==> Published(e) in log || e in reply.out;
  }

  lemma SettlementExplains(id: Id, row: Booking, seats: Snapshot, live: bool, now: Time, amount: int, paidAt: Time)
    requires Lifecycle(row) && (live ==> R.Unpaid(row))
    ensures Explains(id, row, R.Settled(id, row, seats, live, now, amount, paidAt))
  {
  }

  lemma BookingExplains(s: Sys, e: Event, answers: Answers)
    requires e.booking in s.store.rows && Lifecycle(s.store.rows[e.booking])
    requires e.PaymentRefunded? ==> !R.Unpaid(s.store.rows[e.booking])
    ensures Explains(e.booking, s.store.rows[e.booking], BookingReply(s, e, answers))
  {
    if e.PaymentSettled? {
      var id := e.booking;
      var row, seats := s.store.rows[id], SnapshotOf(s.store, id);
      var live := R.HoldLive(row, id in s.store.locks, seats, s.now, answers.extended, answers.probe);
      SettlementExplains(id, row, seats, live, s.now, e.amount, e.paidAt);
    }
  }

  lemma ClientExplains(s: Sys, step: Step)
    requires FromClient(step) && ClientEffect(s, step).reply.Some?
    requires ClientEffect(s, step).about in s.store.rows && Lifecycle(s.store.rows[ClientEffect(s, step).about])
    ensures var e := ClientEffect(s, step); Explains(e.about, s.store.rows[e.about], e.reply.value)
  {
  }

  lemma TimeExplains(s: Sys, step: Step)
    requires !FromClient(step) && !FromProvider(step) && !FromBus(step) && TimeEffect(s, step).reply.Some?
    requires TimeEffect(s, step).about in s.store.rows && Lifecycle(s.store.rows[TimeEffect(s, step).about])
    ensures var e := TimeEffect(s, step); Explains(e.about, s.store.rows[e.about], e.reply.value)
  {
  }

  lemma DeliveryExplains(s: Sys, i: nat, answers: Answers, ack: bool)
    requires Inv(s) && i < |s.queue| && DeliveryOf(s, i, answers, ack).reply.Some?
    ensures var e := DeliveryOf(s, i, answers, ack);
            e.about in s.store.rows && Explains(e.about, s.store.rows[e.about], e.reply.value)
  {
    ReplyIsBookings(s, i, answers, ack);
    KnownBooking(s, s.queue[i]);
    ReadyNow(s, s.queue[i].event.booking);
    BookingExplains(s, s.queue[i].event, answers);
  }

  predicate AllExplained(s: Sys, id: Id) {
    id in s.store.rows ==> Explained(id, s.store.rows[id], s.log)
  }

  /** Who does not answer for the booking says nothing of its end. */
  lemma SilentOnEnds(s: Sys, step: Step, id: Id)
    requires !step.HoldSeats? && (EffectOf(s, step).reply.Some? ==> EffectOf(s, step).about != id)
    ensures forall f :: f in EffectOf(s, step).facts && f.Published? && f.event.booking == id ==>
              !f.event.BookingCancelled? && !f.event.BookingExpired?
  {
    if FromBus(step) {
      if step.i < |s.queue| && step.Deliver? {
        DeliveryAbout(s, step.i, step.answers, step.ack);
        if s.queue[step.i].event.booking == id {
          assert DeliveryOf(s, step.i, step.answers, step.ack).about == id;
          DeliverySilent(s, step.i, step.answers, step.ack);
        }
      }
    } else if FromProvider(step) {
      if step.id in s.payments {
        ProviderSilent(s, step);
      }
    } else if FromClient(step) {
      ClientOwn(s, step);
    } else {
      TimeOwn(s, step);
    }
  }

  lemma DeliverySilent(s: Sys, i: nat, answers: Answers, ack: bool)
    requires i < |s.queue| && DeliveryOf(s, i, answers, ack).reply.None?
    ensures forall f :: f in DeliveryOf(s, i, answers, ack).facts && f.Published? ==>
              !f.event.BookingCancelled? && !f.event.BookingExpired?
  {
  }

  lemma ProviderSilent(s: Sys, step: Step)
    requires FromProvider(step) && step.id in s.payments
    ensures forall f :: f in OutcomeOf(s, step).facts && f.Published? ==>
              !f.event.BookingCancelled? && !f.event.BookingExpired?
  {
  }

  lemma ClientOwn(s: Sys, step: Step)
    requires FromClient(step)
    ensures forall f :: f in ClientEffect(s, step).facts ==>
              ClientEffect(s, step).reply.Some? && f.About() == ClientEffect(s, step).about
  {
  }

  lemma TimeOwn(s: Sys, step: Step)
    requires !FromClient(step) && !FromProvider(step) && !FromBus(step)
    ensures forall f :: f in TimeEffect(s, step).facts ==>
              TimeEffect(s, step).reply.Some? && f.About() == TimeEffect(s, step).about
  {
  }

  lemma ReplyExplains(s: Sys, step: Step)
    requires Inv(s) && !step.HoldSeats? && EffectOf(s, step).reply.Some?
    ensures var e := EffectOf(s, step);
            e.about in s.store.rows && Explains(e.about, s.store.rows[e.about], e.reply.value)
  {
    EffectSound(s, step);
    ReadyNow(s, EffectOf(s, step).about);
    if FromBus(step) {
      DeliveryExplains(s, step.i, step.answers, step.ack);
    } else if FromClient(step) {
      ClientExplains(s, step);
    } else {
      TimeExplains(s, step);
    }
  }

  lemma HoldExplains(s: Sys, step: Step, id: Id)
    requires Inv(s) && step.HoldSeats? && AllExplained(s, id)
    ensures AllExplained(Next(s, step), id)
  {
    HoldSilent(s, step);
    if step.id !in s.store.rows {
      assert Consistent(s.store) by {
        SeatRowsHaveBookings(s);
      }
      HoldHasShape(s.store, step.id, step.req, step.geometry, step.lock, step.faults, s.now);
      NothingHeard(s, step.id);
      if id == step.id && id in Next(s, step).store.rows {
        NewbornExplained(id, Next(s, step).store.rows[id], s.now, s.log);
      }
    }
  }

  lemma NothingHeard(s: Sys, id: Id)
    requires Inv(s) && id !in s.store.rows
    ensures forall f :: f in s.log ==> f.About() != id
  {
    assert BookingInv(s, id);
    Unheard(id, ViewOf(s, id), s.log);
  }

  lemma NewbornExplained(id: Id, row: Booking, now: Time, log: seq<Fact>)
    requires Newborn(row, now) && forall f :: f in log ==> f.About() != id
    ensures Explained(id, row, log)
  {
    assert forall reason: CancelReason :: Published(BookingCancelled(id, reason)).About() == id;
    assert Published(BookingExpired(id)).About() == id;
  }

  lemma StepExplains(s: Sys, step: Step, id: Id)
    requires Inv(s) && AllExplained(s, id)
    ensures AllExplained(Next(s, step), id)
  {
    if step.HoldSeats? {
      HoldExplains(s, step, id);
    } else if id in s.store.rows {
      EffectSound(s, step);
      var e := EffectOf(s, step);
      if e.reply.Some? && e.about == id {
        ReplyExplains(s, step);
        ExplainedAfter(id, s.store.rows[id], s.log, e.reply.value);
      } else {
        SilentOnEnds(s, step, id);
      }
    } else {
      EffectSound(s, step);
    }
  }

  lemma {:induction false} RunExplains(start: Time, run: seq<Step>, id: Id)
    ensures AllExplained(Exec(Init(start), run), id)
  {
    if run != [] {
      var front := run[..|run| - 1];
      RunExplains(start, front, id);
      ExecInv(Init(start), front) by {
        InitInv(start);
      }
      StepExplains(Exec(Init(start), front), run[|run| - 1], id);
    }
  }

  /** A booking carries a reason exactly if it was cancelled for it. So the rows
      that carry one without being CANCELLED are exactly the REFUNDED ones that
      ended unpaid, and not by expiring. */
  lemma ReasonsExactly(s: Sys, id: Id)
    requires Reachable(s) && id in s.store.rows
    ensures var row := s.store.rows[id];
            && (forall reason: CancelReason :: row.reason == Some(reason) <==> Cancelled(s.log, id, reason))
            && (row.reason.Some? && !row.status.Cancelled? <==>
                  row.status.Refunded? && row.paidAt.None? && !Lapsed(s.log, id))
  {
    var start: Time, run: seq<Step> :| s == Exec(Init(start), run);
    RunExplains(start, run, id);
    LifecycleHolds(s, id);
    ReachableInv(s);
    assert BookingInv(s, id);
    var row := s.store.rows[id];
    if row.reason.Some? {
      assert Cancelled(s.log, id, row.reason.value);
      assert FactOk(id, ViewOf(s, id), Published(BookingCancelled(id, row.reason.value)));
    }
  }

  /** And such rows there are: cancelled unpaid, paid late, paid back. */
  lemma ReasonOutlivesCancellation() returns (s: Sys)
    ensures Reachable(s) && 1 in s.store.rows
    ensures s.store.rows[1].status.Refunded? && s.store.rows[1].reason == Some(Customer)
  {
    var late := LateMoney();
    ReachableInv(late);
    var step := Deliver(2, KIND_ANSWERS, true);
    RequestSucceeds(late, 1, 2, KIND_ANSWERS);
    Exec1(late, step);
    var run := RefundLands(late, 1, [step], KIND_ANSWERS);
    s := Exec(late, run);
    LogKeeps(late, run, Published(CANCELLATION));
    ReasonsExactly(s, 1);
    assert Cancelled(s.log, 1, Customer);
  }

  lemma {:induction false} LogKeeps(s: Sys, run: seq<Step>, f: Fact)
    requires f in s.log
    ensures f in Exec(s, run).log
  {
    if run != [] {
      LogKeeps(s, run[..|run| - 1], f);
      LogGrows(Exec(s, run[..|run| - 1]), run[|run| - 1], f);
    }
  }
}

/** What is left when a hold fails and even its clean-up fails: a booking
    without seats, which nobody can ever pay for. */
module SagaOrphans {
  import opened SagaTypes
  import opened BookingStore
  import opened Saga
  import opened SagaInvariant
  import opened SagaTheorem
  import opened SagaSteps
  import opened SagaSafety
  import R = BookingRules

  /** A booking without seats, without a charge context and without a payment. */
  predicate Orphan(s: Sys, id: Id) {
    && id in s.store.rows && id !in s.payments
    && (id in s.claims ==> s.claims[id] == map[])
    && forall c :: c in s.contexts ==> c.booking != id
  }

  /** Nothing of an orphan was ever held, locked or paid. */
  lemma OrphanHasNothing(s: Sys, id: Id)
    requires Inv(s) && Orphan(s, id)
    ensures s.store.rows[id].paidAt.None? && id !in s.store.locks && SnapshotOf(s.store, id) == map[]
  {
    assert BookingInv(s, id);
    var v := ViewOf(s, id);
    assert forall k :: k in v.held ==> k in v.claim;
  }

  /** So asking to pay for it expires it, or is refused. */
  lemma OrphanIsNotChargeable(s: Sys, id: Id, user: Id, probe: R.Probe)
    requires Inv(s) && Orphan(s, id)
    ensures var c := R.PrepareCharge(id, s.store.rows[id], user, SnapshotOf(s.store, id), s.now, probe);
            c.PrepareNotFound? || (c.Gone? && !c.reply.row.status.Pending?)
  {
    OrphanHasNothing(s, id);
    assert BookingInv(s, id);
  }

  lemma ClientKeepsOrphan(s: Sys, step: Step, id: Id)
    requires Inv(s) && Orphan(s, id) && FromClient(step)
    ensures var t := ClientNext(s, step);
            && (id in t.claims ==> t.claims[id] == map[])
            && id !in t.payments
            && (forall c :: c in t.contexts ==> c.booking != id)
  {
    if step.PrepareCharge? && step.id == id {
      OrphanIsNotChargeable(s, id, step.user, step.probe);
    }
  }

  lemma DeliveredKeeps(s: Sys, i: nat, answers: Answers, ack: bool, id: Id)
    requires i < |s.queue| && id !in s.payments
    ensures id !in Delivered(s, i, answers, ack).payments && Delivered(s, i, answers, ack).contexts == s.contexts
  {
    var m, u := s.queue[i], s.(queue := Rest(s, i, ack));
    if !Throws(s, m, answers) {
      assert Delivered(s, i, answers, ack) == Handle(u, m, answers);
      match m.to
      case ToBooking =>
      case ToPayment => HandlesKeep(u, m.event, answers, id);
      case ToTicket =>
    }
  }

  lemma HandlesKeep(s: Sys, e: Event, answers: Answers, id: Id)
    requires id !in s.payments
    ensures var t := PaymentHandles(s, e, answers); id !in t.payments && t.contexts == s.contexts
  {
  }

  lemma OrphanStep(s: Sys, step: Step, id: Id)
    requires Reachable(s) && Orphan(s, id)
    ensures Orphan(Next(s, step), id)
  {
    ReachableInv(s);
    assert id in Next(s, step).store.rows by {
      RowMoves(s, step, id);
    }
    if FromClient(step) {
      ClientKeepsOrphan(s, step, id);
    } else {
      EffectSound(s, step);
      if step.Deliver? && step.i < |s.queue| {
        DeliveredKeeps(s, step.i, step.answers, step.ack, id);
      }
    }
  }

  lemma {:induction false} OrphanRun(s: Sys, run: seq<Step>, id: Id)
    requires Reachable(s) && Orphan(s, id)
    ensures Reachable(Exec(s, run)) && Orphan(Exec(s, run), id)
  {
    if run != [] {
      OrphanRun(s, run[..|run| - 1], id);
      OrphanStep(Exec(s, run[..|run| - 1]), run[|run| - 1], id);
      ReachableNext(Exec(s, run[..|run| - 1]), run[|run| - 1]);
    }
  }

  /** If a failed hold leaves its booking row behind, then in every continuation
      that booking has no seats, no payment and no money, and its owner cannot
      get a charge context for it. */
  lemma FailedHoldIsNeverPaid(s: Sys, step: Step, run: seq<Step>, user: Id, probe: R.Probe)
    requires Reachable(s) && step.HoldSeats? && step.id !in s.store.rows
    requires !Hold(s.store, step.id, step.req, step.geometry, step.lock, step.faults, s.now).result.Held?
    requires step.id in Next(s, step).store.rows
    ensures var t, id := Exec(Next(s, step), run), step.id;
            && Orphan(t, id) && t.store.rows[id].paidAt.None? && SnapshotOf(t.store, id) == map[]
            && !R.PrepareCharge(id, t.store.rows[id], user, SnapshotOf(t.store, id), t.now, probe).Context?
  {
    ReachableInv(s);
    var id, u := step.id, Next(s, step);
    assert BookingInv(s, id);
    assert Orphan(u, id) by {
      assert forall c :: c in s.contexts && c.booking == id ==> c in ViewOf(s, id).contexts;
    }
    ReachableNext(s, step);
    OrphanRun(u, run, id);
    ReachableInv(Exec(u, run));
    OrphanHasNothing(Exec(u, run), id);
    OrphanIsNotChargeable(Exec(u, run), id, user, probe);
  }
}

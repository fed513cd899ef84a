/** The conservation law of payments: what went in, what the provider took back
    and what the payment row says always add up. */
module SagaConservation {
  import opened SagaTypes
  import opened Saga
  import opened SagaInvariant
  import opened SagaTheorem
  import opened SagaSteps
  import opened SagaSafety
  import opened SagaProgress
  import opened SagaRecovery
  import opened SagaStranded
  import opened SagaWitness
  import P = PaymentRules

  /** How often a booking's payment entered PAID, for the first time or after a
      refund had started; how many of its refunds the provider took on, took on
      without the row being saved, and gave up again. */
  datatype Tally = Tally(first: nat, again: nat, accepted: nat, unrecorded: nat, reverted: nat) {
    function Plus(t: Tally): Tally {
      Tally(first + t.first, again + t.again, accepted + t.accepted, unrecorded + t.unrecorded, reverted + t.reverted)
    }
  }

  const NOTHING := Tally(0, 0, 0, 0, 0)

  datatype Kind = First | Again | Acceptance | Unrecorded | Reversal

  predicate Is(f: Fact, kind: Kind, id: Id) {
    f.About() == id &&
    match kind
    case First => f.EnteredPaid? && !f.again
    case Again => f.EnteredPaid? && f.again
    case Acceptance => f.RefundAccepted?
    case Unrecorded => f.RefundAccepted? && !f.recorded
    case Reversal => f.RefundReverted?
  }

  function Count(log: seq<Fact>, kind: Kind, id: Id): nat {
    if log == [] then 0 else Bit(Is(log[0], kind, id)) + Count(log[1..], kind, id)
  }

  function TallyOf(log: seq<Fact>, id: Id): Tally {
    Tally(Count(log, First, id), Count(log, Again, id), Count(log, Acceptance, id), Count(log, Unrecorded, id),
          Count(log, Reversal, id))
  }

  function Bit(b: bool): nat {
    if b then 1 else 0
  }

  function PaidBit(p: Option<Payment>): nat {
    Bit(p.Some? && p.value.status.Paid?)
  }

  function ReturningBit(p: Option<Payment>): nat {
    Bit(p.Some? && (p.value.status.Refunding? || p.value.status.Returned?))
  }

  predicate Law(p: Option<Payment>, t: Tally) {
    && t.first == Bit(MoneyIn(p))
    && t.first + t.again + t.reverted + t.unrecorded == t.accepted + PaidBit(p)
  }

  lemma {:induction false} CountConcat(a: seq<Fact>, b: seq<Fact>, kind: Kind, id: Id)
    ensures Count(a + b, kind, id) == Count(a, kind, id) + Count(b, kind, id)
  {
    if a == [] {
      assert a + b == b;
    } else {
      CountConcat(a[1..], b, kind, id);
      assert (a + b)[1..] == a[1..] + b;
    }
  }

  lemma TallyConcat(a: seq<Fact>, b: seq<Fact>, id: Id)
    ensures TallyOf(a + b, id) == TallyOf(a, id).Plus(TallyOf(b, id))
  {
    forall kind
      ensures Count(a + b, kind, id) == Count(a, kind, id) + Count(b, kind, id)
    {
      CountConcat(a, b, kind, id);
    }
    PlusCounts(TallyOf(a, id), TallyOf(b, id), TallyOf(a + b, id));
  }

  lemma PlusCounts(a: Tally, b: Tally, c: Tally)
    requires c.first == a.first + b.first && c.again == a.again + b.again && c.accepted == a.accepted + b.accepted
    requires c.unrecorded == a.unrecorded + b.unrecorded && c.reverted == a.reverted + b.reverted
    ensures c == a.Plus(b)
  {
  }

  function IsAt(facts: seq<Fact>, i: nat, kind: Kind, id: Id): nat {
    if i < |facts| then Bit(Is(facts[i], kind, id)) else 0
  }

  function Sum4(facts: seq<Fact>, kind: Kind, id: Id): nat {
    IsAt(facts, 0, kind, id) + IsAt(facts, 1, kind, id) + IsAt(facts, 2, kind, id) + IsAt(facts, 3, kind, id)
  }

  lemma Unroll(facts: seq<Fact>, kind: Kind, id: Id)
    requires |facts| <= 4
    ensures Count(facts, kind, id) == Sum4(facts, kind, id)
  {
    if |facts| >= 2 {
      Unroll2(facts[1..][1..], kind, id);
      assert Count(facts[1..], kind, id) == IsAt(facts, 1, kind, id) + Count(facts[1..][1..], kind, id);
    }
  }

  lemma Unroll2(facts: seq<Fact>, kind: Kind, id: Id)
    requires |facts| <= 2
    ensures Count(facts, kind, id) == IsAt(facts, 0, kind, id) + IsAt(facts, 1, kind, id)
  {
    assert |facts| == 2 ==> Count(facts[1..], kind, id) == IsAt(facts, 1, kind, id) + Count(facts[1..][1..], kind, id);
  }

  lemma UnrollAll(facts: seq<Fact>, id: Id)
    requires |facts| <= 4
    ensures forall kind :: Count(facts, kind, id) == Sum4(facts, kind, id)
  {
    forall kind
      ensures Count(facts, kind, id) == Sum4(facts, kind, id)
    {
      Unroll(facts, kind, id);
    }
  }

  /** The fact moves no money of this booking. */
  predicate Neutral(f: Fact, id: Id) {
    f.About() == id ==> !f.EnteredPaid? && !f.RefundAccepted? && !f.RefundReverted?
  }

  lemma {:induction false} NoCount(facts: seq<Fact>, kind: Kind, id: Id)
    requires forall f :: f in facts ==> Neutral(f, id)
    ensures Count(facts, kind, id) == 0
  {
    if facts != [] {
      assert Neutral(facts[0], id);
      NoCount(facts[1..], kind, id);
    }
  }

  lemma NothingSaid(facts: seq<Fact>, id: Id)
    requires forall f :: f in facts ==> Neutral(f, id)
    ensures TallyOf(facts, id) == NOTHING
  {
    forall kind
      ensures Count(facts, kind, id) == 0
    {
      NoCount(facts, kind, id);
    }
  }

  ghost predicate Lawful(id: Id, p: Option<Payment>, o: P.Outcome) {
    forall t: Tally :: Law(p, t) ==> Law(o.payment, t.Plus(TallyOf(o.facts, id)))
  }

  lemma WebhookLawful(id: Id, p: Payment, status: P.InvoiceStatus, paidAt: Option<Time>, now: Time)
    ensures Lawful(id, Some(p), P.Webhook(id, p, status, paidAt, now))
    ensures Lawful(id, Some(p), P.Same(Some(p)))
  {
    if status.Money? {
      var o := P.ApplyPaid(id, p, paidAt, now);
      UnrollAll(o.facts, id);
      LawKept(Some(p), o.payment, TallyOf(o.facts, id));
    } else {
      var o := P.Webhook(id, p, status, paidAt, now);
      NothingSaid(o.facts, id);
      LawKept(Some(p), o.payment, NOTHING);
    }
    LawKept(Some(p), Some(p), NOTHING);
  }

  /** Adding this to the tally follows the payment from p to q. */
  lemma LawKept(p: Option<Payment>, q: Option<Payment>, d: Tally)
    requires Bit(MoneyIn(q)) == Bit(MoneyIn(p)) + d.first
    requires d.first + d.again + d.reverted + d.unrecorded + PaidBit(p) == d.accepted + PaidBit(q)
    ensures forall t: Tally :: Law(p, t) ==> Law(q, t.Plus(d))
  {
  }

  lemma RequestLawful(id: Id, p: Option<Payment>, answer: P.RefundAnswer, now: Time)
    ensures Lawful(id, p, P.RequestRefund(id, p, answer, now))
  {
    var o := P.RequestRefund(id, p, answer, now);
    UnrollAll(o.facts, id);
    LawKept(p, o.payment, TallyOf(o.facts, id));
  }

  lemma ReconcileLawful(id: Id, p: Payment, status: Option<P.RefundStatus>, now: Time)
    ensures Lawful(id, Some(p), P.Reconcile(id, p, status, now))
  {
    var o := P.Reconcile(id, p, status, now);
    UnrollAll(o.facts, id);
    LawKept(Some(p), o.payment, TallyOf(o.facts, id));
  }

  lemma OutcomeLawful(s: Sys, step: Step)
    requires FromProvider(step) && step.id in s.payments
    ensures Lawful(step.id, Some(s.payments[step.id]), OutcomeOf(s, step))
  {
    var p := s.payments[step.id];
    match step
    case Callback(id, _, status, paidAt) => WebhookLawful(id, p, status, paidAt, s.now);
    case SyncPayment(id, answer) => WebhookLawful(id, p, answer.Or(P.Open), None, s.now);
    case ReconcileRefund(id, refund) => ReconcileLawful(id, p, refund, s.now);
  }

  /** The step from s to t adds these facts and keeps the law for one booking. */
  ghost predicate Keeps(s: Sys, t: Sys, facts: seq<Fact>, id: Id) {
    t.log == s.log + facts && Lawful(id, PaymentOf(s, id), P.Outcome(PaymentOf(t, id), facts))
  }

  lemma BookKeeps(s: Sys, q: seq<Envelope>, id: Id, o: P.Outcome)
    requires Lawful(id, PaymentOf(s, id), o) && (o.payment.None? ==> PaymentOf(s, id).None?)
    ensures Keeps(s, Book(s.(queue := q), id, o), o.facts, id)
  {
    assert PaymentOf(Book(s.(queue := q), id, o), id) == o.payment;
  }

  lemma FrameKeeps(s: Sys, t: Sys, facts: seq<Fact>, id: Id)
    requires t.log == s.log + facts && forall f :: f in facts ==> Neutral(f, id)
    requires MoneyIn(PaymentOf(s, id)) == MoneyIn(PaymentOf(t, id))
    requires PaidBit(PaymentOf(s, id)) == PaidBit(PaymentOf(t, id))
    ensures Keeps(s, t, facts, id)
  {
    NothingSaid(facts, id);
  }

  lemma ClientMoney(s: Sys, step: Step, id: Id)
    requires FromClient(step)
    ensures var p, q := PaymentOf(s, id), PaymentOf(ClientNext(s, step), id);
            MoneyIn(p) == MoneyIn(q) && PaidBit(p) == PaidBit(q)
    ensures forall f :: f in ClientEffect(s, step).facts ==> f.Published?
  {
  }

  lemma TimeMoney(s: Sys, step: Step, id: Id)
    requires !FromClient(step) && !FromProvider(step) && !FromBus(step)
    ensures PaymentOf(TimeNext(s, step), id) == PaymentOf(s, id)
    ensures forall f :: f in TimeEffect(s, step).facts ==> f.Published?
  {
  }

  lemma ProviderKeeps(s: Sys, step: Step, id: Id)
    requires FromProvider(step) && step.id in s.payments
    ensures Keeps(s, ProviderNext(s, step), OutcomeOf(s, step).facts, id)
  {
    var o := OutcomeOf(s, step);
    var t := Book(s, step.id, o);
    assert ProviderNext(s, step) == t && s.(queue := s.queue) == s;
    if step.id == id {
      OutcomeLawful(s, step);
      BookKeeps(s, s.queue, id, o);
    } else {
      OutcomeAbout(s, step);
      OtherPayment(s, step.id, o, id);
      FrameKeeps(s, t, o.facts, id);
    }
  }

  lemma OtherPayment(s: Sys, id: Id, o: P.Outcome, c: Id)
    requires c != id
    ensures PaymentOf(Book(s, id, o), c) == PaymentOf(s, c) && Book(s, id, o).log == s.log + o.facts
  {
  }

  predicate AsksRefund(s: Sys, step: Step, id: Id) {
    && step.Deliver? && step.i < |s.queue| && s.queue[step.i].to.ToPayment?
    && s.queue[step.i].event.BookingRefundRequested? && s.queue[step.i].event.booking == id
  }

  lemma DeliveredMoney(s: Sys, step: Step, id: Id)
    requires step.Deliver? && step.i < |s.queue| && !AsksRefund(s, step, id)
    ensures var p, q := PaymentOf(s, id), PaymentOf(Delivered(s, step.i, step.answers, step.ack), id);
            MoneyIn(p) == MoneyIn(q) && PaidBit(p) == PaidBit(q)
  {
    var m := s.queue[step.i];
    if m.to.ToPayment? {
      HandledMoney(s.(queue := Rest(s, step.i, step.ack)), m.event, step.answers, id);
    }
  }

  lemma HandledMoney(s: Sys, e: Event, answers: Answers, id: Id)
    requires !(e.BookingRefundRequested? && e.booking == id)
    ensures var p, q := PaymentOf(s, id), PaymentOf(PaymentHandles(s, e, answers), id);
            MoneyIn(p) == MoneyIn(q) && PaidBit(p) == PaidBit(q)
  {
  }

  lemma DeliveredFacts(s: Sys, step: Step, id: Id)
    requires step.Deliver? && step.i < |s.queue| && !AsksRefund(s, step, id)
    ensures forall f :: f in DeliveryOf(s, step.i, step.answers, step.ack).facts ==> Neutral(f, id)
  {
    var e := DeliveryOf(s, step.i, step.answers, step.ack);
    DeliveryAbout(s, step.i, step.answers, step.ack);
    if s.queue[step.i].event.booking == id {
      assert s.queue[step.i].event.BookingRefundRequested? && s.queue[step.i].to.ToBooking? && e.reply.Some? ==>
          e.reply.value.out == [];
    }
  }

  lemma RequestKeeps(s: Sys, step: Step, id: Id)
    requires AsksRefund(s, step, id)
    ensures Keeps(s, BusNext(s, step), DeliveryOf(s, step.i, step.answers, step.ack).facts, id)
  {
    var o := P.RequestRefund(id, PaymentOf(s, id), step.answers.refund, s.now);
    RequestLawful(id, PaymentOf(s, id), step.answers.refund, s.now);
    BookKeeps(s, Rest(s, step.i, step.ack), id, o);
    assert BusNext(s, step) == Book(s.(queue := Rest(s, step.i, step.ack)), id, o);
  }

  lemma DropKeeps(s: Sys, i: nat, id: Id)
    requires i < |s.queue|
    ensures Keeps(s, Dropped(s, i), [Lost(s.queue[i].event.booking)], id)
  {
    FrameKeeps(s, Dropped(s, i), [Lost(s.queue[i].event.booking)], id);
  }

  lemma BusKeeps(s: Sys, step: Step, id: Id)
    requires FromBus(step) && step.i < |s.queue|
    ensures Keeps(s, BusNext(s, step), EffectOf(s, step).facts, id)
  {
    if step.Drop? {
      DropKeeps(s, step.i, id);
    } else if AsksRefund(s, step, id) {
      RequestKeeps(s, step, id);
    } else {
      DeliveryAccounts(s, step.i, step.answers, step.ack);
      DeliveredMoney(s, step, id);
      DeliveredFacts(s, step, id);
      FrameKeeps(s, Delivered(s, step.i, step.answers, step.ack), DeliveryOf(s, step.i, step.answers, step.ack).facts,
                 id);
    }
  }

  lemma ClientKeeps(s: Sys, step: Step, id: Id)
    requires FromClient(step) && !step.HoldSeats?
    ensures Keeps(s, ClientNext(s, step), ClientEffect(s, step).facts, id)
  {
    ClientAccounts(s, step);
    ClientMoney(s, step, id);
    FrameKeeps(s, ClientNext(s, step), ClientEffect(s, step).facts, id);
  }

  lemma TimeKeeps(s: Sys, step: Step, id: Id)
    requires !FromClient(step) && !FromProvider(step) && !FromBus(step)
    ensures Keeps(s, TimeNext(s, step), TimeEffect(s, step).facts, id)
  {
    TimeAccounts(s, step);
    TimeMoney(s, step, id);
    FrameKeeps(s, TimeNext(s, step), TimeEffect(s, step).facts, id);
  }

  lemma StillKeeps(s: Sys, t: Sys, id: Id)
    requires t.log == s.log && t.payments == s.payments
    ensures Keeps(s, t, [], id)
  {
    FrameKeeps(s, t, [], id);
  }

  lemma StepKeeps(s: Sys, step: Step, id: Id)
    ensures Keeps(s, Next(s, step), EffectOf(s, step).facts, id)
  {
    if step.HoldSeats? {
      HoldSilent(s, step);
      StillKeeps(s, Next(s, step), id);
    } else if FromClient(step) {
      ClientKeeps(s, step, id);
    } else if FromProvider(step) {
      if step.id in s.payments {
        ProviderKeeps(s, step, id);
      } else {
        StillKeeps(s, s, id);
      }
    } else if FromBus(step) {
      if step.i < |s.queue| {
        BusKeeps(s, step, id);
      } else {
        StillKeeps(s, s, id);
      }
    } else {
      TimeKeeps(s, step, id);
    }
  }

  predicate Holds(s: Sys, id: Id) {
    Law(PaymentOf(s, id), TallyOf(s.log, id))
  }

  lemma KeepsHolds(s: Sys, t: Sys, facts: seq<Fact>, id: Id)
    requires Holds(s, id) && Keeps(s, t, facts, id)
    ensures Holds(t, id)
  {
    TallyConcat(s.log, facts, id);
  }

  lemma {:induction false} RunHolds(start: Time, run: seq<Step>, id: Id)
    ensures Holds(Exec(Init(start), run), id)
  {
    if run != [] {
      RunHolds(start, run[..|run| - 1], id);
      var s, step := Exec(Init(start), run[..|run| - 1]), run[|run| - 1];
      StepKeeps(s, step, id);
      KeepsHolds(s, Next(s, step), EffectOf(s, step).facts, id);
    }
  }

  /** Every refund the provider took on was saved in the payment row. */
  ghost predicate AllSaved(log: seq<Fact>, id: Id) {
    forall amount :: RefundAccepted(id, amount, false) !in log
  }

  /** Conservation, in every reachable state and for every booking: entries into
      PAID plus refunds given up, less refunds taken on, is one if the payment is
      PAID and zero otherwise, up to refunds the provider took on whose row was
      never saved; and so it is that number exactly in the runs without such a
      refund. Money first comes in at most once. */
  lemma Conservation(s: Sys, id: Id)
    requires Reachable(s)
    ensures var t, p := TallyOf(s.log, id), PaymentOf(s, id);
            && t.first + t.again + t.reverted - t.accepted == PaidBit(p) - t.unrecorded
            && t.first == Bit(MoneyIn(p))
            && (t.first + t.again + t.reverted - t.accepted == PaidBit(p) <==> AllSaved(s.log, id))
  {
    var start: Time, run: seq<Step> :| s == Exec(Init(start), run);
    RunHolds(start, run, id);
    TallySees(s.log, id);
  }

  /** How many refunds are out at the provider: one if the row says so, one more
      for every PAID callback applied after a refund had started, and one more
      for every acceptance whose row was not saved. So the row is right about it
      exactly in the runs without such a callback and such an acceptance. */
  lemma RefundsOut(s: Sys, id: Id)
    requires Reachable(s)
    ensures var t, p := TallyOf(s.log, id), PaymentOf(s, id);
            && t.accepted - t.reverted == ReturningBit(p) + t.again + t.unrecorded
            && (t.accepted - t.reverted == ReturningBit(p) <==> EnteredPaid(id, true) !in s.log && AllSaved(s.log, id))
  {
    Conservation(s, id);
    TallySees(s.log, id);
  }

  lemma {:induction false} CountSees(log: seq<Fact>, kind: Kind, id: Id)
    ensures Count(log, kind, id) > 0 <==> exists f :: f in log && Is(f, kind, id)
  {
    if log != [] {
      CountSees(log[1..], kind, id);
      assert log == [log[0]] + log[1..];
    }
  }

  lemma TallySees(log: seq<Fact>, id: Id)
    ensures TallyOf(log, id).again > 0 <==> EnteredPaid(id, true) in log
    ensures TallyOf(log, id).unrecorded > 0 <==> exists amount :: RefundAccepted(id, amount, false) in log
  {
    CountSees(log, Again, id);
    CountSees(log, Unrecorded, id);
    assert Is(EnteredPaid(id, true), Again, id);
    assert forall amount :: Is(RefundAccepted(id, amount, false), Unrecorded, id);
    assert forall f :: Is(f, Unrecorded, id) ==> f == RefundAccepted(id, f.amount, false);
  }

  /** At most one refund, as long as no PAID callback is applied after a refund
      started and every accepted refund is saved. */
  lemma AtMostOneRefund(s: Sys, id: Id)
    requires Reachable(s)
    requires EnteredPaid(id, true) !in s.log && AllSaved(s.log, id)
    ensures TallyOf(s.log, id).accepted - TallyOf(s.log, id).reverted <= 1
  {
    RefundsOut(s, id);
  }

  /** Without the first condition it fails, and from everywhere: wherever a
      booking is fully refunded, one more PAID callback has the provider take on
      another refund. */
  lemma SecondRefund(s: Sys, id: Id, answers: Answers) returns (run: seq<Step>)
    requires Reachable(s) && FullyRefunded(s, id) && answers.refund == WILLING
    ensures var t := Exec(s, run);
            Reachable(t) && FullyRefunded(t, id) && TallyOf(t.log, id).accepted - TallyOf(t.log, id).reverted >= 2
  {
    run := CallbackRefunds(s, id, answers);
    var t := Exec(s, run);
    ReachableExec(s, run);
    DeadForever(s, run, id);
    RefundsOut(t, id);
    TallySees(t.log, id);
  }

  /** And such a booking there is: the ticket of SagaWitness, given back. */
  lemma SecondRefundHappens() returns (s: Sys)
    ensures Reachable(s) && TallyOf(s.log, 1).accepted - TallyOf(s.log, 1).reverted >= 2
  {
    var given := GivenBack();
    var run := RefundRecovers(given, 1, KIND_ANSWERS);
    var refunded := Exec(given, run);
    run := SecondRefund(refunded, 1, KIND_ANSWERS);
    s := Exec(refunded, run);
  }

  const UNSAVED := P.Accepted(0, true, false, true)

  lemma UnsavedOutcome(s: Sys, i: nat, id: Id, answers: Answers)
    requires i < |s.queue| && s.queue[i].to.ToPayment? && s.queue[i].event.BookingRefundRequested?
    requires s.queue[i].event.booking == id
    requires id in s.payments && s.payments[id].status.Paid? && s.payments[id].invoiceId.Some?
    requires answers.refund == UNSAVED
    ensures var t, amount := Next(s, Deliver(i, answers, true)), s.payments[id].amount;
            && t.payments == s.payments
            && t.log == s.log + [RefundAccepted(id, amount, false), RefundSucceeded(id)] +
                  [Published(PaymentRefundFailed(id))]
  {
    RequestHandled(s, i, answers);
  }

  /** Without the second condition it fails as well. Wherever a refund of a paid
      booking is under way, a run lets the provider return the money while the
      payment row still says PAID, because it could not be saved. */
  lemma UnsavedRefund(s: Sys, id: Id, answers: Answers) returns (run: seq<Step>)
    requires Reachable(s) && id in s.store.rows && s.store.rows[id].status.RefundPending?
    requires id in s.payments && s.payments[id].status.Paid? && answers.refund == UNSAVED
    ensures var t := Exec(s, run);
            && Reachable(t) && id in t.payments && t.payments[id].status.Paid? && RefundSucceeded(id) in t.log
            && TallyOf(t.log, id).first + TallyOf(t.log, id).again +
                  TallyOf(t.log, id).reverted - TallyOf(t.log, id).accepted
               != PaidBit(PaymentOf(t, id))
  {
    var before := CronRerequests(s, id);
    var u := Exec(s, before);
    ReachableExec(s, before);
    ReachableInv(u);
    MoneyIsIdentified(u, id);
    var step := Deliver(|u.queue| - 1, answers, true);
    UnsavedOutcome(u, |u.queue| - 1, id, answers);
    run := before + [step];
    ExecThen(s, before, step);
    var t := Next(u, step);
    ReachableNext(u, step);
    assert RefundAccepted(id, u.payments[id].amount, false) in t.log;
    TallySees(t.log, id);
    Conservation(t, id);
  }

  /** The ticket of SagaWitness, given back, with a provider that pays and a
      database that does not save. */
  lemma UnsavedRefundHappens() returns (s: Sys)
    ensures Reachable(s) && 1 in s.payments && s.payments[1].status.Paid? && RefundSucceeded(1) in s.log
  {
    var given := GivenBack();
    var run := UnsavedRefund(given, 1, KIND_ANSWERS.(refund := UNSAVED));
    s := Exec(given, run);
  }
}

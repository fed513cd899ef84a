/** How many invoices a booking gets, and what becomes of money paid on a second
    one. A charge reuses the old invoice only if the provider can be asked about it;
    otherwise it opens another, while the old one may still be paid. */
module SagaInvoices {
  import opened SagaTypes
  import opened BookingStore
  import opened Saga
  import opened SagaInvariant
  import opened SagaTheorem
  import opened SagaSteps
  import opened SagaSafety
  import opened SagaProgress
  import opened SagaRecovery
  import opened SagaStranded
  import opened SagaConservation
  import opened SagaWitness
  import P = PaymentRules

  function InvoiceOf(s: Sys, id: Id): Option<Id> {
    if id in s.payments then s.payments[id].invoiceId else None
  }

  /** The invoices that a booking had in a run, in order. */
  function Invoices(start: Time, run: seq<Step>, id: Id): seq<Id> {
    if run == [] then []
    else
      var front := run[..|run| - 1];
      var before, after := InvoiceOf(Exec(Init(start), front), id), InvoiceOf(Exec(Init(start), run), id);
      Invoices(start, front, id) + if after.Some? && after != before then [after.value] else []
  }

  /** A charge that finds the payment open or failed, is not told that its invoice
      is still pending, and gets another one from the provider. */
  predicate Reopens(s: Sys, step: Step, id: Id) {
    && step.OpenInvoice? && step.ctx in s.contexts && step.ctx.booking == id && step.ctx.amount > 0
    && id in s.payments && !MoneyIn(PaymentOf(s, id))
    && !step.invoice.reusable && step.invoice.created.Some? && step.invoice.created != s.payments[id].invoiceId
  }

  function Reopenings(start: Time, run: seq<Step>, id: Id): nat {
    if run == [] then 0
    else
      var front := run[..|run| - 1];
      Reopenings(start, front, id) + Bit(Reopens(Exec(Init(start), front), run[|run| - 1], id))
  }

  predicate Charges(s: Sys, step: Step, id: Id) {
    step.OpenInvoice? && step.ctx in s.contexts && step.ctx.booking == id
  }

  lemma ClientKeepsRow(s: Sys, step: Step, id: Id)
    requires FromClient(step) && !Charges(s, step, id)
    ensures PaymentOf(ClientNext(s, step), id) == PaymentOf(s, id)
  {
  }

  lemma ProviderKeepsNumber(s: Sys, step: Step, id: Id)
    requires FromProvider(step)
    ensures InvoiceOf(ProviderNext(s, step), id) == InvoiceOf(s, id)
    ensures id in ProviderNext(s, step).payments <==> id in s.payments
  {
  }

  lemma HandlesKeepNumber(s: Sys, e: Event, answers: Answers, id: Id)
    ensures InvoiceOf(PaymentHandles(s, e, answers), id) == InvoiceOf(s, id)
    ensures id in PaymentHandles(s, e, answers).payments <==> id in s.payments
  {
  }

  lemma BusKeepsNumber(s: Sys, step: Step, id: Id)
    requires FromBus(step)
    ensures InvoiceOf(BusNext(s, step), id) == InvoiceOf(s, id)
    ensures id in BusNext(s, step).payments <==> id in s.payments
  {
    if step.Deliver? && step.i < |s.queue| && s.queue[step.i].to.ToPayment? {
      HandlesKeepNumber(s.(queue := Rest(s, step.i, step.ack)), s.queue[step.i].event, step.answers, id);
    }
  }

  /** Only a charge changes the invoice of a payment. */
  lemma NumberStays(s: Sys, step: Step, id: Id)
    requires !Charges(s, step, id)
    ensures InvoiceOf(Next(s, step), id) == InvoiceOf(s, id)
    ensures id in Next(s, step).payments <==> id in s.payments
  {
    if FromClient(step) {
      ClientKeepsRow(s, step, id);
    } else if FromProvider(step) {
      ProviderKeepsNumber(s, step, id);
    } else if FromBus(step) {
      BusKeepsNumber(s, step, id);
    }
  }

  /** And it does so exactly if it is the first to get one, or a reopening. */
  lemma NumberMoves(s: Sys, step: Step, id: Id)
    requires id in s.payments ==> s.payments[id].invoiceId.Some?
    ensures var t := Next(s, step);
            && (id in t.payments ==> t.payments[id].invoiceId.Some?)
            && Bit(InvoiceOf(t, id).Some? && InvoiceOf(t, id) != InvoiceOf(s, id)) + Bit(id in s.payments)
               == Bit(id in t.payments) + Bit(Reopens(s, step, id))
  {
    if Charges(s, step, id) {
      assert Next(s, step) == InvoiceNext(s, step.ctx, step.invoice);
    } else {
      NumberStays(s, step, id);
    }
  }

  /** The exact number: over any run a booking has one invoice if it has a payment at
      all, and one more for every reopening. */
  lemma {:induction false} InvoicesCounted(start: Time, run: seq<Step>, id: Id)
    ensures var s := Exec(Init(start), run);
            && (id in s.payments ==> s.payments[id].invoiceId.Some?)
            && (Reopenings(start, run, id) > 0 ==> id in s.payments)
            && |Invoices(start, run, id)| == Bit(id in s.payments) + Reopenings(start, run, id)
  {
    if run != [] {
      var front := run[..|run| - 1];
      InvoicesCounted(start, front, id);
      NumberMoves(Exec(Init(start), front), run[|run| - 1], id);
    }
  }

  predicate ReopensAt(start: Time, run: seq<Step>, i: nat, id: Id)
    requires i < |run|
  {
    Reopens(Exec(Init(start), run[..i]), run[i], id)
  }

  /** No charge of the run reopened the payment. */
  predicate NeverReopened(start: Time, run: seq<Step>, id: Id) {
    forall i :: 0 <= i < |run| ==> !ReopensAt(start, run, i, id)
  }

  lemma ReopensBefore(start: Time, run: seq<Step>, i: nat, id: Id)
    requires i + 1 < |run|
    ensures ReopensAt(start, run, i, id) <==> ReopensAt(start, run[..|run| - 1], i, id)
  {
    assert run[..i] == run[..|run| - 1][..i];
  }

  lemma {:induction false} ReopeningsSeen(start: Time, run: seq<Step>, id: Id)
    ensures Reopenings(start, run, id) == 0 <==> NeverReopened(start, run, id)
  {
    if run != [] {
      var n := |run| - 1;
      ReopeningsSeen(start, run[..n], id);
      assert Reopens(Exec(Init(start), run[..n]), run[n], id) == ReopensAt(start, run, n, id);
      forall i | 0 <= i < n
        ensures ReopensAt(start, run, i, id) <==> ReopensAt(start, run[..n], i, id)
      {
        ReopensBefore(start, run, i, id);
      }
    }
  }

  /** A booking has no second invoice in a run if and only if no charge reopened it. */
  lemma SecondInvoiceExactly(start: Time, run: seq<Step>, id: Id)
    ensures |Invoices(start, run, id)| <= 1 <==> NeverReopened(start, run, id)
  {
    InvoicesCounted(start, run, id);
    ReopeningsSeen(start, run, id);
  }

  // Money on a second invoice.

  /** Once money is in, more of it is taken in by nobody: a PAID callback, on whatever
      invoice, changes no table, starts nothing that can be refunded, and only says
      again that the booking is settled. */
  lemma SecondPaymentIsAbsorbed(s: Sys, id: Id, number: Id, paidAt: Option<Time>)
    requires id in s.payments && s.payments[id].status.Paid?
    ensures var t := Next(s, Callback(id, number, P.Money, paidAt));
            && t.store == s.store && t.payments == s.payments && t.tickets == s.tickets
            && TallyOf(t.log, id) == TallyOf(s.log, id) && ProviderPaid(id) in t.log
  {
    var o := P.ApplyPaid(id, s.payments[id], paidAt, s.now);
    assert Next(s, Callback(id, number, P.Money, paidAt)) == Book(s, id, o);
    assert s.payments[id := s.payments[id]] == s.payments;
    TallyConcat(s.log, o.facts, id);
    NothingSaid(o.facts, id);
  }

  lemma AgainNeedsCallback(s: Sys, step: Step, id: Id)
    requires EnteredPaid(id, true) !in s.log && !PaidCallback(step, id)
    ensures EnteredPaid(id, true) !in Next(s, step).log
  {
    if step.HoldSeats? {
      HoldSilent(s, step);
    } else {
      EffectSound(s, step);
      if FromProvider(step) {
        if step.id in s.payments {
          OutcomeEntersOnce(s, step, id);
        }
      } else if FromClient(step) {
        ClientMoney(s, step, id);
      } else if !FromBus(step) {
        TimeMoney(s, step, id);
      } else if step.i < |s.queue| && step.Deliver? {
        DeliveryEntersNothing(s, step.i, step.answers, step.ack);
      }
    }
  }

  lemma OutcomeEntersOnce(s: Sys, step: Step, id: Id)
    requires FromProvider(step) && step.id in s.payments && !PaidCallback(step, id)
    ensures EnteredPaid(id, true) !in OutcomeOf(s, step).facts
  {
    OutcomeAbout(s, step);
  }

  lemma DeliveryEntersNothing(s: Sys, i: nat, answers: Answers, ack: bool)
    requires i < |s.queue|
    ensures forall f :: f in DeliveryOf(s, i, answers, ack).facts ==> !f.EnteredPaid?
  {
  }

  lemma {:induction false} NeverAgain(s: Sys, run: seq<Step>, id: Id)
    requires EnteredPaid(id, true) !in s.log && NoPaidCallback(run, id)
    ensures EnteredPaid(id, true) !in Exec(s, run).log
  {
    if run != [] {
      var front, last := run[..|run| - 1], run[|run| - 1];
      assert last in run;
      NeverAgain(s, front, id);
      AgainNeedsCallback(Exec(s, front), last, id);
    }
  }

  // And it happens.

  const FIRST := OpenInvoice(BILL, P.InvoiceAnswer(false, Some(9)))
  const SECOND := OpenInvoice(BILL, P.InvoiceAnswer(false, Some(10)))
  const PAYS_FIRST := Callback(1, 9, P.Money, Some(0))
  const PAYS_SECOND := Callback(1, 10, P.Money, Some(0))

  /** A run from the empty system to this state, and booking 1's invoices on the way. */
  predicate Leads(run: seq<Step>, s: Sys, numbers: seq<Id>) {
    Exec(Init(0), run) == s && Invoices(0, run, 1) == numbers
  }

  function NewNumber(s: Sys, t: Sys): seq<Id> {
    var before, after := InvoiceOf(s, 1), InvoiceOf(t, 1);
    if after.Some? && after != before then [after.value] else []
  }

  /** One step more. */
  lemma LeadsOn(run: seq<Step>, s: Sys, numbers: seq<Id>, step: Step) returns (longer: seq<Step>)
    requires Leads(run, s, numbers)
    ensures Leads(longer, Next(s, step), numbers + NewNumber(s, Next(s, step)))
    ensures longer == run + [step]
  {
    longer := run + [step];
    assert longer[..|run|] == run;
  }

  function Billed(number: Id): Sys {
    HeldState().(contexts := {BILL}, payments := map[1 := INVOICED.(invoiceId := Some(number))])
  }

  lemma ChargesWork()
    ensures Next(HeldState().(contexts := {BILL}), FIRST) == Billed(9)
    ensures Next(Billed(9), SECOND) == Billed(10)
  {
    assert Billed(9).payments[1 := INVOICED.(invoiceId := Some(10))] == Billed(10).payments;
  }

  lemma AskedOnce() returns (run: seq<Step>)
    ensures Leads(run, HeldState().(contexts := {BILL}), [])
  {
    SeatIsHeld();
    SeatIsPaid();
    run := LeadsOn([], Init(0), [], PURCHASE[0]);
    run := LeadsOn(run, HeldState(), [], PURCHASE[1]);
  }

  /** Hold, ask to pay, and charge twice, the second time while the provider cannot
      be asked about the first invoice. */
  lemma ChargedTwice() returns (run: seq<Step>)
    ensures Leads(run, Billed(10), [9, 10])
  {
    run := AskedOnce();
    ChargesWork();
    run := LeadsOn(run, HeldState().(contexts := {BILL}), [], FIRST);
    run := LeadsOn(run, Billed(9), [9], SECOND);
  }

  function PaidOnce(): Sys {
    Book(Billed(10), 1, P.ApplyPaid(1, INVOICED.(invoiceId := Some(10)), Some(0), 0))
  }

  lemma PaymentsWork()
    ensures Next(Billed(10), PAYS_FIRST) == PaidOnce()
    ensures PaidOnce().payments == map[1 := PAID_FOR.(invoiceId := Some(10))]
    ensures EnteredPaid(1, true) !in PaidOnce().log
  {
    var paid := PAID_FOR.(invoiceId := Some(10));
    assert P.ApplyPaid(1, INVOICED.(invoiceId := Some(10)), Some(0), 0).payment == Some(paid);
    assert Billed(10).payments[1 := paid] == map[1 := paid];
  }

  /** Both invoices are paid, one after the other. */
  lemma PaidTwice() returns (run: seq<Step>, s: Sys)
    ensures Exec(Init(0), run) == s && Invoices(0, run, 1) == [9, 10] && PAYS_FIRST in run && PAYS_SECOND in run
    ensures 1 in s.payments && s.payments[1].status.Paid? && EnteredPaid(1, true) !in s.log
  {
    run := ChargedTwice();
    PaymentsWork();
    run := LeadsOn(run, Billed(10), [9, 10], PAYS_FIRST);
    SecondPaymentIsAbsorbed(PaidOnce(), 1, 10, Some(0));
    SecondEntersNothing();
    run := LeadsOn(run, PaidOnce(), [9, 10], PAYS_SECOND);
    s := Next(PaidOnce(), PAYS_SECOND);
  }

  lemma SecondEntersNothing()
    ensures EnteredPaid(1, true) !in Next(PaidOnce(), PAYS_SECOND).log
  {
    PaymentsWork();
    var paid := PAID_FOR.(invoiceId := Some(10));
    assert Next(PaidOnce(), PAYS_SECOND) == Book(PaidOnce(), 1, P.ApplyPaid(1, paid, Some(0), 0));
  }

  lemma OneComesBack(start: Time, run: seq<Step>, more: seq<Step>, id: Id)
    requires EnteredPaid(id, true) !in Exec(Init(start), run).log && NoPaidCallback(more, id)
    requires AllSaved(Exec(Exec(Init(start), run), more).log, id)
    ensures var t := TallyOf(Exec(Exec(Init(start), run), more).log, id); t.accepted - t.reverted <= 1
  {
    var s := Exec(Init(start), run);
    assert Reachable(s);
    ReachableExec(s, more);
    NeverAgain(s, more, id);
    AtMostOneRefund(Exec(s, more), id);
  }

  /** The customer pays two invoices of one booking, and in no continuation without
      further PAID callbacks, and with every refund saved, does more than one of the
      two come back. */
  lemma PaidTwiceReturnedOnce() returns (run: seq<Step>, s: Sys)
    ensures Exec(Init(0), run) == s && Invoices(0, run, 1) == [9, 10] && PAYS_FIRST in run && PAYS_SECOND in run
    ensures forall more :: NoPaidCallback(more, 1) && AllSaved(Exec(s, more).log, 1) ==>
              TallyOf(Exec(s, more).log, 1).accepted - TallyOf(Exec(s, more).log, 1).reverted <= 1
  {
    run, s := PaidTwice();
    forall more | NoPaidCallback(more, 1) && AllSaved(Exec(s, more).log, 1)
      ensures TallyOf(Exec(s, more).log, 1).accepted - TallyOf(Exec(s, more).log, 1).reverted <= 1
    {
      OneComesBack(0, run, more, 1);
    }
  }
}

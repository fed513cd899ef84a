/** One concrete customer, step by step: the runs that show which states are
    really reached. */
module SagaWitness {
  import opened SagaTypes
  import opened SeatValidation
  import opened BookingStore
  import opened TicketRules
  import opened Saga
  import opened SagaSafety
  import opened SagaRecovery
  import R = BookingRules
  import P = PaymentRules

  const SEAT: SeatKey := SeatKey(3, 4)
  const WANTED: HoldRequest := HoldRequest(2, 3, [4])
  const ROOM: Geometry := SeatMap(50, [ShowtimeSeat(4, false)])
  const NO_FAULTS: Faults := Faults(false, false, false, false)
  const HELD_ROW: Booking := NewBooking(WANTED, 50, 0)
  const BILL: R.ChargeContext := R.ChargeContext(1, 2, 50, HOLD_TTL_MS)
  const INVOICED: Payment := Payment(50, PaymentStatus.Unpaid, Some(9), None, None, None)
  const PAID_FOR: Payment := Payment(50, PaymentStatus.Paid, Some(9), None, Some(0), None)
  const SETTLEMENT: Event := PaymentSettled(1, 50, 0)

  /** Hold a seat, ask to pay, open an invoice, and pay it. */
  const PURCHASE: seq<Step> := [
    HoldSeats(1, WANTED, Some(ROOM), Granted, NO_FAULTS),
    PrepareCharge(1, 2, R.AllExist),
    OpenInvoice(BILL, P.InvoiceAnswer(false, Some(9))),
    Callback(1, 9, P.Money, Some(0))
  ]

  function HeldState(): Sys {
    Init(0).(
      store := Store(map[1 := HELD_ROW], map[SEAT := SeatRow(1, 50)], map[1 := {SEAT}]),
      claims := map[1 := map[SEAT := 50]])
  }

  function PaidState(): Sys {
    HeldState().(
      payments := map[1 := PAID_FOR],
      contexts := {BILL},
      queue := [Envelope(ToBooking, SETTLEMENT)],
      log := [ProviderPaid(1), EnteredPaid(1, false), Published(SETTLEMENT)])
  }

  lemma SeatIsValid()
    ensures Distinct([4]) == [4]
    ensures ValidateSeats(ROOM, [4]) == SeatValidation.Valid([ShowtimeSeat(4, false)])
  {
    assert [4][..0] == [] && Distinct([]) == [];
    var seat := ShowtimeSeat(4, false);
    assert [seat][1..] == [] && Enabled([], IdSet([4])) == [];
    assert 4 in IdSet([4]);
    assert Enabled(ROOM.seats, IdSet([4])) == [seat];
    assert seat in [seat] && 4 in FoundIds([seat]);
    assert [4][1..] == [] && FirstMissing([], FoundIds([seat])) == None;
  }

  lemma SeatIsHeld()
    ensures Next(Init(0), PURCHASE[0]) == HeldState()
  {
    SeatIsValid();
    var seat := ShowtimeSeat(4, false);
    assert Keys(3, [seat]) == {SEAT} by {
      assert seat in [seat];
    }
    var o := Hold(Init(0).store, 1, WANTED, Some(ROOM), Granted, NO_FAULTS, 0);
    assert o.store.seats == map[SEAT := SeatRow(1, 50)];
    assert Priced({SEAT}, 50) == map[SEAT := 50];
    assert o.result == HoldResult.Held(HELD_ROW, map[SEAT := 50]);
    assert o.store == HeldState().store;
  }

  lemma SeatIsPaid()
    ensures var asked := HeldState().(contexts := {BILL});
            var billed := asked.(payments := map[1 := INVOICED]);
            && Next(HeldState(), PURCHASE[1]) == asked
            && Next(asked, PURCHASE[2]) == billed
            && Next(billed, PURCHASE[3]) == PaidState()
  {
    assert SnapshotOf(HeldState().store, 1) == map[SEAT := 50];
    assert SEAT in map[SEAT := 50];
    assert R.PrepareCharge(1, HELD_ROW, 2, map[SEAT := 50], 0, R.AllExist) == R.Context(BILL);
    var asked := HeldState().(contexts := {BILL});
    assert {} + {BILL} == {BILL};
    var billed := asked.(payments := map[1 := INVOICED]);
    var o := P.Webhook(1, INVOICED, P.Money, Some(0), 0);
    assert o == P.Outcome(Some(PAID_FOR), [ProviderPaid(1), EnteredPaid(1, false), Published(SETTLEMENT)]);
    assert RouteAll(o.facts) == [Envelope(ToBooking, SETTLEMENT)] by {
      QuietFacts([ProviderPaid(1), EnteredPaid(1, false)], SETTLEMENT);
      OneMessage(SETTLEMENT, Envelope(ToBooking, SETTLEMENT));
      assert o.facts == [ProviderPaid(1), EnteredPaid(1, false)] + [Published(SETTLEMENT)];
    }
    assert billed.payments[1 := PAID_FOR] == map[1 := PAID_FOR];
  }

  lemma Exec4(s: Sys, a: Step, b: Step, c: Step, d: Step)
    ensures Exec(s, [a, b, c, d]) == Next(Next(Next(Next(s, a), b), c), d)
  {
    Exec2(s, a, b);
    ExecThen(s, [a, b], c);
    ExecThen(s, [a, b, c], d);
    assert [a, b] + [c] == [a, b, c] && [a, b, c] + [d] == [a, b, c, d];
  }

  lemma PurchaseRuns()
    ensures Exec(Init(0), PURCHASE) == PaidState()
  {
    SeatIsHeld();
    SeatIsPaid();
    Exec4(Init(0), PURCHASE[0], PURCHASE[1], PURCHASE[2], PURCHASE[3]);
  }

  lemma PurchaseReachable()
    ensures Reachable(PaidState())
  {
    PurchaseRuns();
    assert Exec(Init(0), PURCHASE) == PaidState();
  }

  // From there to issued tickets, and to a refund request.

  const SNAPSHOT: Snapshot := map[SEAT := 50]
  const PAID_ROW: Booking := HELD_ROW.(paidAt := Some(0), confirmationAttemptedAt := Some(0))
  const CONFIRMED_ROW: Booking :=
    PAID_ROW.(status := Confirmed, confirmedAt := Some(0), ticketsIssuedAt := Some(0))
  const REFUNDING_ROW: Booking := CONFIRMED_ROW.(status := RefundPending, refundRequestedAt := Some(0))
  const CONFIRMATION: Event := BookingConfirmed(1, 3, SNAPSHOT, 50, 0)
  const ISSUANCE: Event := TicketsIssued(1, 3, SNAPSHOT, 50, 0)
  const REQUEST: Event := BookingRefundRequested(1, 50)

  /** The booking has this row and these messages in flight, its money is in. */
  predicate Stands(s: Sys, row: Booking, queue: seq<Envelope>) {
    && s.now == 0 && s.queue == queue && s.store.rows == map[1 := row]
    && s.store.seats == map[SEAT := SeatRow(1, 50)] && s.claims == map[1 := SNAPSHOT]
    && s.payments == map[1 := PAID_FOR]
  }

  lemma OnlyMessage(s: Sys)
    requires |s.queue| == 1
    ensures Without(s.queue, 0) == []
  {
  }

  lemma Settles() returns (s: Sys)
    ensures Reachable(s) && Stands(s, PAID_ROW, [Envelope(ToTicket, CONFIRMATION)]) && s.tickets == map[]
  {
    PurchaseReachable();
    var step := Deliver(0, KIND_ANSWERS, true);
    ReachableNext(PaidState(), step);
    var u := PaidState().(queue := []);
    SettlementHandled(u, step);
    s := Answer(u, 1, R.Reply(PAID_ROW, true, [CONFIRMATION]));
    AnswerOne(u, 1, R.Reply(PAID_ROW, true, [CONFIRMATION]), CONFIRMATION, Envelope(ToTicket, CONFIRMATION));
  }

  lemma SettlementHandled(u: Sys, step: Step)
    requires u == PaidState().(queue := []) && step == Deliver(0, KIND_ANSWERS, true)
    ensures Next(PaidState(), step) == Answer(u, 1, R.Reply(PAID_ROW, true, [CONFIRMATION]))
  {
    OnlyMessage(PaidState());
    assert SnapshotOf(u.store, 1) == SNAPSHOT;
    assert R.Settled(1, HELD_ROW, SNAPSHOT, true, 0, 50, 0) == R.Reply(PAID_ROW, true, [CONFIRMATION]);
  }

  lemma Tickets() returns (s: Sys)
    ensures Reachable(s) && Stands(s, PAID_ROW, [Envelope(ToBooking, ISSUANCE)])
    ensures TicketsOf(s.tickets, 1).Keys == {SEAT}
  {
    var paid := Settles();
    var step := Deliver(0, KIND_ANSWERS, true);
    s := Next(paid, step);
    ReachableNext(paid, step);
    IssueHandled(paid, step);
  }

  lemma IssueHandled(s: Sys, step: Step)
    requires s.queue == [Envelope(ToTicket, CONFIRMATION)] && s.tickets == map[]
    requires step == Deliver(0, KIND_ANSWERS, true)
    ensures var t := Next(s, step);
            && t.queue == [Envelope(ToBooking, ISSUANCE)] && TicketsOf(t.tickets, 1).Keys == {SEAT}
            && t == s.(queue := t.queue, tickets := t.tickets, log := t.log)
  {
    assert SEAT in SNAPSHOT;
    OnlyMessage(s);
    var u := s.(queue := []);
    IssueTicket(u);
    assert Next(s, step) == TicketHandles(u, CONFIRMATION, KIND_ANSWERS);
  }

  lemma IssueTicket(u: Sys)
    requires u.queue == [] && u.tickets == map[]
    ensures var t := TicketHandles(u, CONFIRMATION, KIND_ANSWERS);
            && t.queue == [Envelope(ToBooking, ISSUANCE)] && TicketsOf(t.tickets, 1).Keys == {SEAT}
            && t == u.(queue := t.queue, tickets := t.tickets, log := t.log)
  {
    OneMessage(ISSUANCE, Envelope(ToBooking, ISSUANCE));
    IssueCovers(map[], 1, SNAPSHOT.Keys, KIND_ANSWERS.codes);
    assert SNAPSHOT.Keys == {SEAT};
  }

  /** A confirmed booking with its ticket, and nothing in flight. */
  lemma Bought() returns (s: Sys)
    ensures Reachable(s) && Stands(s, CONFIRMED_ROW, []) && TicketsOf(s.tickets, 1).Keys == {SEAT}
  {
    var issued := Tickets();
    var step := Deliver(0, KIND_ANSWERS, true);
    s := Next(issued, step);
    ReachableNext(issued, step);
    OnlyMessage(issued);
    var u := issued.(queue := []);
    var reply := R.Issued(1, PAID_ROW, 0, 0);
    assert reply == R.Reply(CONFIRMED_ROW, false, []);
    assert BookingReply(u, ISSUANCE, KIND_ANSWERS) == reply;
    assert s == Answer(u, 1, reply);
    assert Publish([]) == [] && RouteAll([]) == [];
  }

  /** The customer has given it back. */
  lemma GivenBack() returns (s: Sys)
    ensures Reachable(s) && Stands(s, REFUNDING_ROW, [Envelope(ToPayment, REQUEST)])
    ensures TicketsOf(s.tickets, 1).Keys == {SEAT}
  {
    var bought := Bought();
    s := Next(bought, CancelBooking(1, 2));
    ReachableNext(bought, CancelBooking(1, 2));
    var reply := R.Reply(REFUNDING_ROW, true, [REQUEST]);
    assert R.Cancel(1, CONFIRMED_ROW, 2, 0) == R.Done(reply);
    AnswerOne(bought, 1, reply, REQUEST, Envelope(ToPayment, REQUEST));
    assert s == Answer(bought, 1, reply);
  }

  // Cancelled while the money is on its way.

  const CANCELLED_ROW: Booking := HELD_ROW.(status := BookingStatus.Cancelled, reason := Some(Customer))
  const CANCELLATION: Event := BookingCancelled(1, Customer)

  lemma CancelledUnpaid() returns (s: Sys)
    ensures Reachable(s) && Published(CANCELLATION) in s.log
    ensures Stands(s, CANCELLED_ROW,
                   [Envelope(ToBooking, SETTLEMENT), Envelope(ToPayment, CANCELLATION),
                    Envelope(ToTicket, CANCELLATION)])
  {
    PurchaseReachable();
    s := Next(PaidState(), CancelBooking(1, 2));
    ReachableNext(PaidState(), CancelBooking(1, 2));
    var reply := R.Reply(CANCELLED_ROW, true, [CANCELLATION]);
    assert R.Cancel(1, HELD_ROW, 2, 0) == R.Done(reply);
    assert s == Answer(PaidState(), 1, reply);
    assert Publish([CANCELLATION]) == [Published(CANCELLATION)];
    assert RouteAll([Published(CANCELLATION)]) == Route(CANCELLATION) + RouteAll([Published(CANCELLATION)][1..]) ==
        Route(CANCELLATION);
  }

  /** And then it arrives: the refund is asked for. */
  lemma LateMoney() returns (s: Sys)
    ensures Reachable(s) && Published(CANCELLATION) in s.log
    ensures Stands(s, CANCELLED_ROW,
                   [Envelope(ToPayment, CANCELLATION), Envelope(ToTicket, CANCELLATION), Envelope(ToPayment, REQUEST)])
  {
    var before := CancelledUnpaid();
    var step := Deliver(0, KIND_ANSWERS, true);
    s := Next(before, step);
    ReachableNext(before, step);
    var u := before.(queue := Without(before.queue, 0));
    var reply := R.Reply(CANCELLED_ROW, false, [REQUEST]);
    AnswerOne(u, 1, reply, REQUEST, Envelope(ToPayment, REQUEST));
    assert BookingReply(u, SETTLEMENT, KIND_ANSWERS) == reply;
    assert s == Answer(u, 1, reply);
  }
}

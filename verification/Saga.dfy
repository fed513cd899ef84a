/** The whole system: three services with their own stores, the queues between
    them, the clock, and everything the outside world may answer. Every handler,
    command and cron row is one step; a run is any sequence of steps. */
module Saga {
  import opened SagaTypes
  import opened SeatValidation
  import opened BookingStore
  import opened TicketRules
  import R = BookingRules
  import P = PaymentRules

  datatype Sys = Sys(
    now: Time,
    store: Store,
    claims: map<Id, Snapshot>,
    payments: map<Id, Payment>,
    tickets: Tickets,
    contexts: set<R.ChargeContext>,
    queue: seq<Envelope>,
    log: seq<Fact>)

  /** What Redis, the provider and the code generator answer while a message is handled. */
  datatype Answers = Answers(extended: bool, probe: R.Probe, refund: P.RefundAnswer, expired: bool,
                             codes: SeatKey -> Code)

  datatype Step =
    | Tick(d: nat)
    | Restart
    | HoldSeats(id: Id, req: HoldRequest, geometry: Option<Geometry>, lock: LockAnswer, faults: Faults)
    | CancelBooking(id: Id, user: Id)
    | PrepareCharge(id: Id, user: Id, probe: R.Probe)
    | OpenInvoice(ctx: R.ChargeContext, invoice: P.InvoiceAnswer)
    | Callback(id: Id, number: Id, status: P.InvoiceStatus, paidAt: Option<Time>)
    | SyncPayment(id: Id, answer: Option<P.InvoiceStatus>)
    | Deliver(i: nat, answers: Answers, ack: bool)
    | Drop(i: nat)
    | ExpireStale(id: Id)
    | RetryConfirmation(id: Id)
    | RetryRefund(id: Id)
    | ReconcileRefund(id: Id, refund: Option<P.RefundStatus>)

  function Init(now: Time): Sys {
    Sys(now, Store(map[], map[], map[]), map[], map[], map[], {}, [], [])
  }

  function Emit(s: Sys, facts: seq<Fact>): Sys {
    s.(queue := s.queue + RouteAll(facts), log := s.log + facts)
  }

  function Without(q: seq<Envelope>, i: nat): seq<Envelope>
    requires i < |q|
  {
    q[..i] + q[i + 1..]
  }

  function PaymentOf(s: Sys, id: Id): Option<Payment> {
    if id in s.payments then Some(s.payments[id]) else None
  }

  function WithPayment(s: Sys, id: Id, p: Option<Payment>): Sys {
    if p.Some? then s.(payments := s.payments[id := p.value]) else s
  }

  function Answer(s: Sys, id: Id, reply: R.Reply): Sys {
    Emit(s.(store := Put(s.store, id, reply)), Publish(reply.out))
  }

  function Book(s: Sys, id: Id, outcome: P.Outcome): Sys {
    Emit(WithPayment(s, id, outcome.payment), outcome.facts)
  }

  function Dropped(s: Sys, i: nat): Sys
    requires i < |s.queue|
  {
    s.(queue := Without(s.queue, i), log := s.log + [Lost(s.queue[i].event.booking)])
  }

  /** A handler that throws has its message nacked without requeue. */
  predicate Throws(s: Sys, m: Envelope, answers: Answers) {
    var id := m.event.booking;
    || (m.to.ToBooking? && m.event.PaymentSettled? && id in s.store.rows
        && R.SettleThrows(s.store.rows[id], id in s.store.locks, SnapshotOf(s.store, id), s.now, answers.probe))
    || (m.to.ToTicket? && m.event.BookingConfirmed? && m.event.seats == map[])
  }

  function BookingReply(s: Sys, e: Event, answers: Answers): R.Reply
    requires e.booking in s.store.rows
  {
    var id, row := e.booking, s.store.rows[e.booking];
    var seats := SnapshotOf(s.store, id);
    match e
    case PaymentSettled(_, amount, paidAt) =>
      R.Settled(id, row, seats, R.HoldLive(row, id in s.store.locks, seats, s.now, answers.extended, answers.probe),
                s.now, amount, paidAt)
    case PaymentFailed(_) => R.FailedPayment(id, row)
    case PaymentRefundPending(_) => R.RefundStarted(row, s.now)
    case PaymentRefunded(_, refundedAt) => R.RefundDone(id, row, refundedAt)
    case PaymentRefundFailed(_) => R.RefundRefused(id, row, seats, s.now)
    case TicketsIssued(_, _, _, _, confirmedAt) => R.Issued(id, row, confirmedAt, s.now)
    case _ => R.Unchanged(row)
  }

  function PaymentHandles(s: Sys, e: Event, answers: Answers): Sys {
    match e
    case BookingRefundRequested(id, _) => Book(s, id, P.RequestRefund(id, PaymentOf(s, id), answers.refund, s.now))
    case BookingCancelled(id, _) => WithPayment(s, id, P.ExpireInvoice(PaymentOf(s, id), answers.expired))
    case BookingExpired(id) => WithPayment(s, id, P.ExpireInvoice(PaymentOf(s, id), answers.expired))
    case _ => s
  }

  function VoidTickets(s: Sys, id: Id): Sys {
    Emit(s.(tickets := Void(s.tickets, id)), [Published(TicketsVoided(id))])
  }

  function TicketHandles(s: Sys, e: Event, answers: Answers): Sys {
    match e
    case BookingConfirmed(id, showtime, seats, amount, at) =>
      Emit(s.(tickets := Issue(s.tickets, id, seats.Keys, answers.codes)),
           [Published(TicketsIssued(id, showtime, seats, amount, at))])
    case BookingRefunded(id) => VoidTickets(s, id)
    case BookingCancelled(id, _) => VoidTickets(s, id)
    case BookingExpired(id) => VoidTickets(s, id)
    case _ => s
  }

  function Handle(s: Sys, m: Envelope, answers: Answers): Sys {
    match m.to
    case ToBooking =>
      if m.event.booking in s.store.rows then Answer(s, m.event.booking, BookingReply(s, m.event, answers)) else s
    case ToPayment => PaymentHandles(s, m.event, answers)
    case ToTicket => TicketHandles(s, m.event, answers)
  }

  function Delivered(s: Sys, i: nat, answers: Answers, ack: bool): Sys
    requires i < |s.queue|
  {
    var m := s.queue[i];
    if Throws(s, m, answers) then Dropped(s, i)
    else Handle(if ack then s.(queue := Without(s.queue, i)) else s, m, answers)
  }

  function HoldNext(s: Sys, id: Id, o: HoldOutcome): Sys {
    s.(store := o.store, claims := if o.result.Held? then s.claims[id := o.result.snapshot] else s.claims)
  }

  function CancelNext(s: Sys, id: Id, user: Id): Sys
    requires id in s.store.rows
  {
    var c := R.Cancel(id, s.store.rows[id], user, s.now);
    if c.Done? then Answer(s, id, c.reply) else s
  }

  function PrepareNext(s: Sys, id: Id, user: Id, probe: R.Probe): Sys
    requires id in s.store.rows
  {
    var c := R.PrepareCharge(id, s.store.rows[id], user, SnapshotOf(s.store, id), s.now, probe);
    if c.Gone? then Answer(s, id, c.reply)
    else if c.Context? then s.(contexts := s.contexts + {c.ctx})
    else s
  }

  function InvoiceNext(s: Sys, ctx: R.ChargeContext, invoice: P.InvoiceAnswer): Sys {
    var c := P.Charge(PaymentOf(s, ctx.booking), ctx.amount, invoice);
    if c.Charged? then s.(payments := s.payments[ctx.booking := c.payment]) else s
  }

  /** One row of each of the booking service's cron passes. */
  function ExpireNext(s: Sys, id: Id): Sys
    requires id in s.store.rows
  {
    if R.Stale(s.store.rows[id], s.now) then Answer(s, id, R.Expire(id, s.store.rows[id])) else s
  }

  function ReconfirmNext(s: Sys, id: Id): Sys
    requires id in s.store.rows
  {
    if R.Unticketed(s.store.rows[id], s.now)
    then Answer(s, id, R.Reconfirm(id, s.store.rows[id], SnapshotOf(s.store, id), s.now)) else s
  }

  function RerequestNext(s: Sys, id: Id): Sys
    requires id in s.store.rows
  {
    if R.RefundOverdue(s.store.rows[id], s.now)
    then Answer(s, id, R.RerequestRefund(id, s.store.rows[id], s.now)) else s
  }

  predicate FromClient(step: Step) {
    step.HoldSeats? || step.CancelBooking? || step.PrepareCharge? || step.OpenInvoice?
  }

  predicate FromProvider(step: Step) {
    step.Callback? || step.SyncPayment? || step.ReconcileRefund?
  }

  predicate FromBus(step: Step) {
    step.Deliver? || step.Drop?
  }

  /** The provider calls back that the invoice of this booking is paid. */
  predicate PaidCallback(step: Step, id: Id) {
    step.Callback? && step.id == id && step.status.Money?
  }

  ghost predicate NoPaidCallback(run: seq<Step>, id: Id) {
    forall step :: step in run ==> !PaidCallback(step, id)
  }

  function ClientNext(s: Sys, step: Step): Sys
    requires FromClient(step)
  {
    match step
    case HoldSeats(id, req, geometry, lock, faults) =>
      if id in s.store.rows then s else HoldNext(s, id, Hold(s.store, id, req, geometry, lock, faults, s.now))
    case CancelBooking(id, user) =>
      if id in s.store.rows then CancelNext(s, id, user) else s
    case PrepareCharge(id, user, probe) =>
      if id in s.store.rows then PrepareNext(s, id, user, probe) else s
    case OpenInvoice(ctx, invoice) =>
      if ctx in s.contexts then InvoiceNext(s, ctx, invoice) else s
  }

  function ProviderNext(s: Sys, step: Step): Sys
    requires FromProvider(step)
  {
    if step.id !in s.payments then s
    else
      match step
      case Callback(id, _, status, paidAt) => Book(s, id, P.Webhook(id, s.payments[id], status, paidAt, s.now))
      case SyncPayment(id, answer) => Book(s, id, P.Sync(id, s.payments[id], answer, s.now))
      case ReconcileRefund(id, refund) => Book(s, id, P.Reconcile(id, s.payments[id], refund, s.now))
  }

  function BusNext(s: Sys, step: Step): Sys
    requires FromBus(step)
  {
    if step.i >= |s.queue| then s
    else if step.Drop? then Dropped(s, step.i)
    else Delivered(s, step.i, step.answers, step.ack)
  }

  /** The clock, restarts and the booking service's cron. */
  function TimeNext(s: Sys, step: Step): Sys
    requires !FromClient(step) && !FromProvider(step) && !FromBus(step)
  {
    match step
    case Tick(d) => s.(now := s.now + d)
    case Restart => s.(store := s.store.(locks := map[]))
    case ExpireStale(id) => if id in s.store.rows then ExpireNext(s, id) else s
    case RetryConfirmation(id) => if id in s.store.rows then ReconfirmNext(s, id) else s
    case RetryRefund(id) => if id in s.store.rows then RerequestNext(s, id) else s
  }

  function Next(s: Sys, step: Step): Sys {
    if FromClient(step) then ClientNext(s, step)
    else if FromProvider(step) then ProviderNext(s, step)
    else if FromBus(step) then BusNext(s, step)
    else TimeNext(s, step)
  }

  function Exec(s: Sys, run: seq<Step>): Sys {
    if run == [] then s else Next(Exec(s, run[..|run| - 1]), run[|run| - 1])
  }

  ghost predicate Reachable(s: Sys) {
    exists start: Time, run: seq<Step> :: s == Exec(Init(start), run)
  }
}

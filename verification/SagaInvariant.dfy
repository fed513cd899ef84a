/** The inductive invariant of the saga, stated booking by booking over what the
    three services, the queues and the history hold about that booking. */
module SagaInvariant {
  import opened SagaTypes
  import opened SeatValidation
  import opened BookingStore
  import opened TicketRules
  import opened Saga
  import R = BookingRules

  /** Everything the three stores hold about one booking. */
  datatype View = View(
    row: Option<Booking>,
    claim: Snapshot,
    held: Snapshot,
    locked: bool,
    payment: Option<Payment>,
    tickets: map<SeatKey, Code>,
    contexts: set<R.ChargeContext>)

  function ViewOf(s: Sys, id: Id): View {
    View(
      if id in s.store.rows then Some(s.store.rows[id]) else None,
      if id in s.claims then s.claims[id] else map[],
      SnapshotOf(s.store, id),
      id in s.store.locks,
      PaymentOf(s, id),
      TicketsOf(s.tickets, id),
      set c | c in s.contexts && c.booking == id)
  }

  // Booking row.

  /** What every booking row satisfies whatever messages arrive in whatever order. */
  predicate Lifecycle(r: Booking) {
    && (r.status.Confirmed? || r.status.RefundPending? ==> r.paidAt.Some?)
    && (r.status.Expired? || r.status.Cancelled? ==> r.paidAt.None?)
    && (r.paidAt.None? ==> r.confirmedAt.None?)
    && (r.confirmedAt.Some? <==> r.ticketsIssuedAt.Some?)
    && (r.status.Confirmed? ==> r.ticketsIssuedAt.Some?)
    && (r.status.Pending? ==> r.ticketsIssuedAt.None?)
    && (r.status.RefundPending? ==> r.refundRequestedAt.Some?)
    && (r.status.Cancelled? ==> r.reason.Some?)
    && (r.reason.Some? ==> r.status.Cancelled? || r.status.Refunded?)
  }

  /** The booking keeps other holds off its seats. */
  predicate Occupies(r: Booking, now: Time) {
    R.Owns(r) || (R.Unpaid(r) && now <= r.expiresAt)
  }

  predicate Fits(held: Snapshot, claim: Snapshot) {
    forall k :: k in held ==> k in claim && held[k] == claim[k]
  }

  ghost predicate SeatsInv(v: View, now: Time)
    requires v.row.Some?
  {
    var r := v.row.value;
    && Fits(v.held, v.claim)
    && (Occupies(r, now) ==> v.held == v.claim)
    && (r.paidAt.Some? ==> v.claim != map[])
    && (v.locked ==> R.Unpaid(r) && v.claim != map[])
    && (forall k :: k in v.claim ==> k.showtime == r.showtime)
    && (v.claim != map[] ==> r.totalAmount == Total(v.claim))
  }

  predicate Blank(v: View) {
    v == View(None, map[], map[], false, None, map[], {})
  }

  // History.

  function Confirmation(id: Id, r: Booking, claim: Snapshot): Event
    requires r.paidAt.Some?
  {
    BookingConfirmed(id, r.showtime, claim, r.totalAmount, r.paidAt.value)
  }

  function Issuance(id: Id, r: Booking, claim: Snapshot): Event
    requires r.paidAt.Some?
  {
    TicketsIssued(id, r.showtime, claim, r.totalAmount, r.paidAt.value)
  }

  ghost predicate SettleSeen(log: seq<Fact>, id: Id, amount: int) {
    exists at :: Published(PaymentSettled(id, amount, at)) in log
  }

  ghost predicate AcceptSeen(log: seq<Fact>, id: Id) {
    exists amount, recorded :: RefundAccepted(id, amount, recorded) in log
  }

  ghost predicate RefundSeen(log: seq<Fact>, id: Id) {
    exists at :: Published(PaymentRefunded(id, at)) in log
  }

  ghost predicate EndSeen(log: seq<Fact>, id: Id) {
    || Published(BookingRefunded(id)) in log
    || Published(BookingExpired(id)) in log
    || exists reason :: Published(BookingCancelled(id, reason)) in log
  }

  /** The cause that must already be in the history when a fact is added to it. */
  ghost predicate Justified(f: Fact, log: seq<Fact>) {
    match f
    case Published(PaymentSettled(id, _, _)) => ProviderPaid(id) in log
    case Published(BookingConfirmed(id, _, _, amount, at)) => Published(PaymentSettled(id, amount, at)) in log
    case Published(TicketsIssued(id, showtime, seats, amount, at)) =>
      Published(BookingConfirmed(id, showtime, seats, amount, at)) in log
    case Published(BookingRefundRequested(id, amount)) => SettleSeen(log, id, amount)
    case Published(PaymentRefundPending(id)) => AcceptSeen(log, id)
    case Published(PaymentRefunded(id, _)) => RefundSucceeded(id) in log
    case Published(BookingRefunded(id)) => RefundSeen(log, id)
    case Published(TicketsVoided(id)) => EndSeen(log, id)
    case RefundAccepted(id, amount, _) => Published(BookingRefundRequested(id, amount)) in log
    case RefundSucceeded(id) => AcceptSeen(log, id)
    case RefundReverted(id) => AcceptSeen(log, id)
    case _ => true
  }

  ghost predicate Closed(log: seq<Fact>) {
    forall i :: 0 <= i < |log| ==> Justified(log[i], log[..i])
  }

  /** Money was taken for the booking at some time. */
  predicate MoneyIn(p: Option<Payment>) {
    p.Some? && (p.value.status.Paid? || p.value.status.Refunding? || p.value.status.Returned?)
  }

  /** What a fact about a booking says about its state, then and ever after. */
  predicate FactOk(id: Id, v: View, f: Fact) {
    v.row.Some? &&
    var r := v.row.value;
    match f
    case Published(PaymentSettled(_, amount, _)) => MoneyIn(v.payment) && amount == r.totalAmount
    case Published(PaymentFailed(_)) => v.payment.Some?
    case Published(PaymentRefundPending(_)) => MoneyIn(v.payment) && !R.Unpaid(r)
    case Published(PaymentRefunded(_, _)) => MoneyIn(v.payment) && !R.Unpaid(r)
    case Published(PaymentRefundFailed(_)) => !R.Unpaid(r)
    case Published(BookingConfirmed(_, _, _, _, _)) => r.paidAt.Some? && f.event == Confirmation(id, r, v.claim)
    case Published(BookingCancelled(_, _)) => r.paidAt.None? && (r.status.Cancelled? || r.status.Refunded?)
    case Published(BookingExpired(_)) => r.paidAt.None? && (r.status.Expired? || r.status.Refunded?)
    case Published(BookingRefundRequested(_, amount)) => !R.Unpaid(r) && amount == r.totalAmount
    case Published(BookingRefunded(_)) => r.status.Refunded?
    case Published(TicketsIssued(_, _, _, _, _)) =>
      r.paidAt.Some? && f.event == Issuance(id, r, v.claim) && (r.status.Refunded? || v.tickets != map[])
    case Published(TicketsVoided(_)) => r.status.Refunded? || (r.paidAt.None? && !r.status.Pending?)
    case ProviderPaid(_) => MoneyIn(v.payment)
    case EnteredPaid(_, _) => MoneyIn(v.payment)
    case RefundAccepted(_, amount, _) => MoneyIn(v.payment) && amount == r.totalAmount && !R.Unpaid(r)
    case RefundSucceeded(_) => MoneyIn(v.payment) && !R.Unpaid(r)
    case RefundReverted(_) => MoneyIn(v.payment) && !R.Unpaid(r)
    case Lost(_) => true
  }

  predicate LogInv(id: Id, v: View, log: seq<Fact>) {
    forall f :: f in log && f.About() == id ==> FactOk(id, v, f)
  }

  predicate QueueInv(id: Id, log: seq<Fact>, queue: seq<Envelope>) {
    forall m :: m in queue && m.event.booking == id ==> Published(m.event) in log && m in Route(m.event)
  }

  // Money, tickets and their history.

  predicate PaymentInv(id: Id, v: View, log: seq<Fact>)
    requires v.row.Some?
  {
    && (forall c :: c in v.contexts ==>
        c.booking == id && c.amount == v.row.value.totalAmount && c.user == v.row.value.user)
    && (v.payment.Some? ==>
          var p := v.payment.value;
          && p.amount == v.row.value.totalAmount
          && p.invoiceId.Some?
          && (p.status.Paid? || p.status.Refunding? || p.status.Returned? ==> p.paidAt.Some? && ProviderPaid(id) in log)
          && (p.status.Refunding? || p.status.Returned? ==> RefundAccepted(id, p.amount, true) in log)
          && (p.status.Refunding? ==> p.refundId.Some?)
          && (p.status.Returned? ==> p.refundedAt.Some? && RefundSucceeded(id) in log))
  }

  predicate TicketInv(id: Id, v: View, log: seq<Fact>)
    requires v.row.Some?
  {
    var r := v.row.value;
    && (v.tickets != map[] ==>
          r.paidAt.Some? && v.tickets.Keys == v.claim.Keys && Published(Confirmation(id, r, v.claim)) in log)
    && (r.ticketsIssuedAt.Some? && !r.status.Refunded? ==> v.tickets != map[])
  }

  ghost predicate BackingInv(id: Id, v: View, log: seq<Fact>)
    requires v.row.Some?
  {
    var r := v.row.value;
    && (r.paidAt.Some? ==> Published(PaymentSettled(id, r.totalAmount, r.paidAt.value)) in log)
    && (r.status.Refunded? ==> RefundSeen(log, id))
  }

  // What a run without losses for this booking adds.

  predicate Queued(queue: seq<Envelope>, to: Service, e: Event) {
    Envelope(to, e) in queue
  }

  /** A paid booking without tickets is on its way to them. */
  predicate Confirming(id: Id, v: View, queue: seq<Envelope>) {
    v.row.Some? && v.row.value.status.Pending? && v.row.value.paidAt.Some? ==>
      var r := v.row.value;
      Queued(queue, ToTicket, Confirmation(id, r, v.claim)) || Queued(queue, ToBooking, Issuance(id, r, v.claim))
  }

  /** Tickets of a refunded booking are on their way to be voided. */
  predicate Voiding(id: Id, v: View, queue: seq<Envelope>) {
    v.row.Some? && v.row.value.status.Refunded? && v.row.value.paidAt.Some? && v.tickets != map[] ==>
      var r := v.row.value;
      Queued(queue, ToTicket, BookingRefunded(id)) || Queued(queue, ToBooking, Issuance(id, r, v.claim))
  }

  /** Money on a booking that is still open is on its way to it. */
  predicate Settling(id: Id, v: View, queue: seq<Envelope>) {
    v.row.Some? && R.Unpaid(v.row.value) && v.payment.Some? && v.payment.value.status.Paid? &&
        v.payment.value.paidAt.Some? ==>
      Queued(queue, ToBooking, PaymentSettled(id, v.payment.value.amount, v.payment.value.paidAt.value))
  }

  /** A returned payment is on its way to its booking. */
  predicate Returning(id: Id, v: View, queue: seq<Envelope>) {
    v.row.Some? && v.payment.Some? && v.payment.value.status.Returned? && v.payment.value.refundedAt.Some? ==>
      v.row.value.status.Refunded? || Queued(queue, ToBooking, PaymentRefunded(id, v.payment.value.refundedAt.value))
  }

  ghost predicate FlowInv(id: Id, v: View, log: seq<Fact>, queue: seq<Envelope>) {
    && (Lost(id) !in log ==>
          Confirming(id, v, queue) && Voiding(id, v, queue) && Settling(id, v, queue) && Returning(id, v, queue))
    && (EnteredPaid(id, true) !in log && RefundSeen(log, id) ==> v.payment.Some? && v.payment.value.status.Returned?)
  }

  ghost predicate ViewInv(id: Id, v: View, now: Time, log: seq<Fact>, queue: seq<Envelope>) {
    && LogInv(id, v, log)
    && QueueInv(id, log, queue)
    && (v.row.None? ==> Blank(v))
    && (v.row.Some? ==>
          && Lifecycle(v.row.value)
          && SeatsInv(v, now)
          && PaymentInv(id, v, log)
          && TicketInv(id, v, log)
          && BackingInv(id, v, log))
    && FlowInv(id, v, log, queue)
  }

  ghost predicate BookingInv(s: Sys, id: Id) {
    ViewInv(id, ViewOf(s, id), s.now, s.log, s.queue)
  }

  ghost predicate Inv(s: Sys) {
    && (forall id :: BookingInv(s, id))
    && Closed(s.log)
  }
}

/** Vocabulary of the booking, payment and ticket saga: rows, domain events,
    queue routing and the history of facts that the causality results speak about. */
module SagaTypes {
  type Id = nat
  type Time = int
  type Code = nat

  /** How long a hold claims its seats, and the retry throttle, in milliseconds. */
  const HOLD_TTL_MS: nat := 300_000
  const RETRY_INTERVAL_MS: nat := 30_000
  const MAX_SEATS_PER_HOLD: nat := 8

  datatype Option<+T> = None | Some(value: T) {
    function Or(other: T): T {
      if Some? then value else other
    }
  }

  /** One seat of one showtime: the columns of the unique index of booking_seats. */
  datatype SeatKey = SeatKey(showtime: Id, seat: Id)

  /** The seats of one booking with the price frozen when they were held. */
  type Snapshot = map<SeatKey, int>

  datatype BookingStatus = Pending | Confirmed | Expired | Cancelled | RefundPending | Refunded
  datatype CancelReason = Customer | PaymentDeclined

  datatype Booking = Booking(
    user: Id,
    showtime: Id,
    totalAmount: int,
    status: BookingStatus,
    reason: Option<CancelReason>,
    expiresAt: Time,
    paidAt: Option<Time>,
    confirmedAt: Option<Time>,
    ticketsIssuedAt: Option<Time>,
    confirmationAttemptedAt: Option<Time>,
    refundRequestedAt: Option<Time>)

  /** A seat snapshot. The table is keyed by its unique index, see BookingStore. */
  datatype SeatRow = SeatRow(booking: Id, price: int)

  datatype PaymentStatus = Unpaid | Paid | Failed | Refunding | Returned

  /** The payment row. Unpaid, Refunding and Returned stand for the source's
      PENDING, REFUND_PENDING and REFUNDED. */
  datatype Payment = Payment(
    amount: int,
    status: PaymentStatus,
    invoiceId: Option<Id>,
    refundId: Option<Id>,
    paidAt: Option<Time>,
    refundedAt: Option<Time>)

  datatype TicketKey = TicketKey(booking: Id, seat: SeatKey)

  datatype Event =
    | PaymentSettled(booking: Id, amount: int, paidAt: Time)
    | PaymentFailed(booking: Id)
    | PaymentRefundPending(booking: Id)
    | PaymentRefunded(booking: Id, refundedAt: Time)
    | PaymentRefundFailed(booking: Id)
    | BookingConfirmed(booking: Id, showtime: Id, seats: Snapshot, amount: int, confirmedAt: Time)
    | BookingCancelled(booking: Id, reason: CancelReason)
    | BookingExpired(booking: Id)
    | BookingRefundRequested(booking: Id, amount: int)
    | BookingRefunded(booking: Id)
    | TicketsIssued(booking: Id, showtime: Id, seats: Snapshot, amount: int, confirmedAt: Time)
    | TicketsVoided(booking: Id)

  datatype Service = ToBooking | ToPayment | ToTicket

  /** One copy of an event in the durable queue of one consumer. */
  datatype Envelope = Envelope(to: Service, event: Event)

  /** The handlers bound to each routing key. Nobody consumes tickets.voided. */
  function Route(e: Event): seq<Envelope> {
    match e
    case PaymentSettled(_, _, _) => [Envelope(ToBooking, e)]
    case PaymentFailed(_) => [Envelope(ToBooking, e)]
    case PaymentRefundPending(_) => [Envelope(ToBooking, e)]
    case PaymentRefunded(_, _) => [Envelope(ToBooking, e)]
    case PaymentRefundFailed(_) => [Envelope(ToBooking, e)]
    case BookingConfirmed(_, _, _, _, _) => [Envelope(ToTicket, e)]
    case BookingCancelled(_, _) => [Envelope(ToPayment, e), Envelope(ToTicket, e)]
    case BookingExpired(_) => [Envelope(ToPayment, e), Envelope(ToTicket, e)]
    case BookingRefundRequested(_, _) => [Envelope(ToPayment, e)]
    case BookingRefunded(_) => [Envelope(ToTicket, e)]
    case TicketsIssued(_, _, _, _, _) => [Envelope(ToBooking, e)]
    case TicketsVoided(_) => []
  }

  /** What happened, in order. Apart from Published, every entry is something the
      payment provider said, or a message that was lost. */
  datatype Fact =
    | Published(event: Event)
    | ProviderPaid(booking: Id)
    | EnteredPaid(booking: Id, again: bool)
    | RefundAccepted(booking: Id, amount: int, recorded: bool)
    | RefundSucceeded(booking: Id)
    | RefundReverted(booking: Id)
    | Lost(booking: Id)
  {
    function About(): Id {
      if Published? then event.booking else booking
    }
  }

  function Publish(events: seq<Event>): (facts: seq<Fact>)
    ensures |facts| == |events|
    ensures forall i :: 0 <= i < |events| ==> facts[i] == Published(events[i])
  {
    seq(|events|, i requires 0 <= i < |events| => Published(events[i]))
  }

  /** The messages that a run of facts puts into the queues. */
  function RouteAll(facts: seq<Fact>): (q: seq<Envelope>)
    ensures forall m :: m in q <==> exists f :: f in facts && f.Published? && m in Route(f.event)
  {
    if facts == [] then []
    else (if facts[0].Published? then Route(facts[0].event) else []) + RouteAll(facts[1..])
  }
}

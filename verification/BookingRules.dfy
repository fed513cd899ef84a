/** What each handler of the booking service does to the row it has loaded and
    which events it publishes. The class in BookingService.dfy is proved to do
    exactly this; the results about the saga are proved of these functions. */
module BookingRules {
  import opened SagaTypes

  /** The new row, whether the handler drops the booking's lock handle, and what it publishes. */
  datatype Reply = Reply(row: Booking, release: bool, out: seq<Event>)

  function Unchanged(row: Booking): Reply {
    Reply(row, false, [])
  }

  /** The booking owns its seats for money: paid and not yet refunded. */
  predicate Owns(row: Booking) {
    row.status.Confirmed? || row.status.RefundPending? || (row.status.Pending? && row.paidAt.Some?)
  }

  predicate Unpaid(row: Booking) {
    row.status.Pending? && row.paidAt.None?
  }

  /** The four kinds of dead booking whose seat rows a new hold may delete. */
  predicate Reapable(row: Booking, now: Time) {
    || row.status.Cancelled?
    || row.status.Expired?
    || row.status.Refunded?
    || (Unpaid(row) && row.expiresAt < now)
  }

  function ConfirmedEvent(id: Id, row: Booking, seats: Snapshot, now: Time): Event {
    BookingConfirmed(id, row.showtime, seats, row.totalAmount, row.paidAt.Or(now))
  }

  function Expire(id: Id, row: Booking): Reply {
    if !row.status.Pending? then Unchanged(row)
    else Reply(row.(status := BookingStatus.Expired), true, [BookingExpired(id)])
  }

  datatype CancelResult = NotFound | Conflict | Done(reply: Reply)

  function Cancel(id: Id, row: Booking, user: Id, now: Time): CancelResult {
    if row.user != user then NotFound
    else if row.status.RefundPending? || row.status.Refunded? then Conflict
    else if row.status.Expired? || row.status.Cancelled? then Conflict
    else if row.status.Confirmed? || row.paidAt.Some? then
      Done(Reply(row.(status := RefundPending, refundRequestedAt := Some(now)), true,
                 [BookingRefundRequested(id, row.totalAmount)]))
    else
      Done(Reply(row.(status := BookingStatus.Cancelled, reason := Some(Customer)), true,
                 [BookingCancelled(id, Customer)]))
  }

  /** Answers of Redis to EXISTS over all seat keys of a booking. */
  datatype Probe = AllExist | SomeMissing | Unreachable

  datatype ChargeContext = ChargeContext(booking: Id, user: Id, amount: int, expiresAt: Time)
  datatype PrepareResult =
    | Context(ctx: ChargeContext)
    | PrepareNotFound
    | AlreadyPaid
    | Gone(reply: Reply)
    | LockUnavailable

  function PrepareCharge(id: Id, row: Booking, user: Id, seats: Snapshot, now: Time, probe: Probe): PrepareResult {
    if row.user != user then PrepareNotFound
    else if row.status.Confirmed? then AlreadyPaid
    else if !row.status.Pending? then Gone(Unchanged(row))
    else if row.paidAt.Some? then AlreadyPaid
    else if row.expiresAt <= now then Gone(Expire(id, row))
    else if seats != map[] && probe.Unreachable? then LockUnavailable
    else if seats == map[] || probe.SomeMissing? then Gone(Expire(id, row))
    else Context(ChargeContext(id, row.user, row.totalAmount, row.expiresAt))
  }

  /** isHoldLive. With a handle in memory it extends that lock, otherwise it asks
      Redis for the seat keys; Unreachable makes the handler throw, see Settled. */
  predicate HoldLive(row: Booking, handle: bool, seats: Snapshot, now: Time, extended: bool, probe: Probe) {
    Unpaid(row) && now < row.expiresAt && (if handle then extended else seats != map[] && probe.AllExist?)
  }

  predicate SettleThrows(row: Booking, handle: bool, seats: Snapshot, now: Time, probe: Probe) {
    Unpaid(row) && now < row.expiresAt && !handle && seats != map[] && probe.Unreachable?
  }

  function Settled(id: Id, row: Booking, seats: Snapshot, live: bool, now: Time, amount: int, paidAt: Time): Reply {
    if Unpaid(row) then
      if !live then
        var r := Expire(id, row);
        r.(out := r.out + [BookingRefundRequested(id, amount)])
      else
        var paid := row.(paidAt := Some(paidAt), confirmationAttemptedAt := Some(now));
        Reply(paid, true, [ConfirmedEvent(id, paid, seats, now)])
    else if row.status.Pending? then
      Reply(row, false, [ConfirmedEvent(id, row, seats, now)])
    else if row.status.RefundPending? || row.status.Refunded? then
      Reply(row, false, [BookingRefundRequested(id, amount)])
    else if row.status.Expired? || row.status.Cancelled? then
      Reply(row, false, [BookingRefundRequested(id, amount)])
    else Unchanged(row)
  }

  function FailedPayment(id: Id, row: Booking): Reply {
    if !Unpaid(row) then Unchanged(row)
    else Reply(row.(status := BookingStatus.Cancelled, reason := Some(PaymentDeclined)), true,
               [BookingCancelled(id, PaymentDeclined)])
  }

  function RefundStarted(row: Booking, now: Time): Reply {
    if row.status.Refunded? then Unchanged(row)
    else if row.status.RefundPending? && row.refundRequestedAt.Some? then Unchanged(row)
    else if row.paidAt.None? then Unchanged(row)
    else Reply(row.(status := RefundPending, refundRequestedAt := Some(row.refundRequestedAt.Or(now))), false, [])
  }

  function RefundDone(id: Id, row: Booking, refundedAt: Time): Reply {
    if row.status.Refunded? then Reply(row, false, [BookingRefunded(id)])
    else Reply(row.(status := Refunded, refundRequestedAt := Some(row.refundRequestedAt.Or(refundedAt))), true,
               [BookingRefunded(id)])
  }

  function RefundRefused(id: Id, row: Booking, seats: Snapshot, now: Time): Reply {
    if !row.status.RefundPending? then Unchanged(row)
    else if row.ticketsIssuedAt.Some? || row.confirmedAt.Some? then
      Reply(row.(status := Confirmed, refundRequestedAt := None), false, [])
    else if row.paidAt.Some? then
      var again := row.(status := BookingStatus.Pending, refundRequestedAt := None,
                        confirmationAttemptedAt := Some(now));
      Reply(again, false, [ConfirmedEvent(id, again, seats, now)])
    else
      Reply(row.(status := BookingStatus.Cancelled, reason := Some(PaymentDeclined), refundRequestedAt := None), false,
            [])
  }

  function Issued(id: Id, row: Booking, confirmedAt: Time, now: Time): Reply {
    if row.status.Pending? || row.status.Confirmed? then
      if Unpaid(row) then Unchanged(row)
      else Reply(row.(status := Confirmed, confirmedAt := Some(row.confirmedAt.Or(confirmedAt)),
                      ticketsIssuedAt := Some(now)), false, [])
    else if row.status.Refunded? then Reply(row, false, [BookingRefunded(id)])
    else if row.status.Cancelled? then Reply(row, false, [BookingCancelled(id, row.reason.Or(Customer))])
    else if row.status.Expired? then Reply(row, false, [BookingExpired(id)])
    else Unchanged(row)
  }

  // Cron passes: which rows they load, and what they do to each of them.

  predicate Stale(row: Booking, now: Time) {
    Unpaid(row) && row.expiresAt < now
  }

  predicate Older(at: Option<Time>, cutoff: Time) {
    at.None? || at.value < cutoff
  }

  predicate Unticketed(row: Booking, now: Time) {
    && row.status.Pending? && row.paidAt.Some? && row.ticketsIssuedAt.None?
    && Older(row.confirmationAttemptedAt, now - RETRY_INTERVAL_MS)
  }

  predicate RefundOverdue(row: Booking, now: Time) {
    row.status.RefundPending? && Older(row.refundRequestedAt, now - RETRY_INTERVAL_MS)
  }

  function Reconfirm(id: Id, row: Booking, seats: Snapshot, now: Time): Reply {
    var touched := row.(confirmationAttemptedAt := Some(now));
    Reply(touched, false, [ConfirmedEvent(id, touched, seats, now)])
  }

  function RerequestRefund(id: Id, row: Booking, now: Time): Reply {
    Reply(row.(refundRequestedAt := Some(now)), false, [BookingRefundRequested(id, row.totalAmount)])
  }
}

/** The booking service as an object: its tables and lock handles as fields,
    each handler updating them step by step, and each proved to do to them what
    the functions of BookingStore and BookingRules say. */
module BookingService {
  import opened SagaTypes
  import opened SeatValidation
  import opened BookingStore
  import opened BookingCrons
  import opened SeatView
  import R = BookingRules

  class BookingsService {
    var rows: map<Id, Booking>
    var seats: map<SeatKey, SeatRow>
    var activeLocks: map<Id, set<SeatKey>>
    var published: seq<Event>

    function Contents(): Store
      reads this
    {
      Store(rows, seats, activeLocks)
    }

    constructor ()
      ensures Contents() == Store(map[], map[], map[]) && published == []
    {
      rows, seats, activeLocks, published := map[], map[], map[], [];
    }

    /** The state is what this reply makes of the one before. */
    predicate Answered(before: Store, said: seq<Event>, id: Id, reply: R.Reply)
      reads this
    {
      Contents() == Put(before, id, reply) && published == said + reply.out
    }

    predicate Silent(before: Store, said: seq<Event>)
      reads this
    {
      Contents() == before && published == said
    }

    // Holding seats.

    /** Best effort: a failing delete leaves the rows for the insert to trip over. */
    method DeleteStaleSeatRows(keys: set<SeatKey>, now: Time, fails: bool)
      modifies this`seats
      ensures seats == if fails then old(seats) else Reaped(old(Contents()), keys, now)
    {
      if fails {
        return;
      }
      var before := Contents();
      var rest := keys;
      while rest != {}
        invariant rest <= keys && rows == before.rows && activeLocks == before.locks
        invariant seats == Reaped(before, keys - rest, now)
        decreases |rest|
      {
        var k :| k in rest;
        rest := rest - {k};
        if k in seats && seats[k].booking in rows && R.Reapable(rows[seats[k].booking], now) {
          seats := seats - {k};
        }
        assert keys - rest == keys - (rest + {k}) + {k};
      }
      assert keys - rest == keys;
    }

    /** One transaction: all snapshots or, on a unique violation, none. */
    method InsertSeats(id: Id, keys: set<SeatKey>, price: int) returns (violation: bool)
      modifies this`seats
      ensures violation == (old(seats).Keys * keys != {})
      ensures seats == if violation then old(seats) else old(seats) + NewSeats(id, keys, price)
    {
      var inserted := seats;
      violation, inserted := Inserted(id, keys, price);
      if !violation {
        seats := inserted;
      }
    }

    /** The rows of the transaction before it commits. */
    method Inserted(id: Id, keys: set<SeatKey>, price: int) returns (violation: bool, inserted: map<SeatKey, SeatRow>)
      ensures violation == (seats.Keys * keys != {})
      ensures !violation ==> inserted == seats + NewSeats(id, keys, price)
    {
      inserted := seats;
      var rest, done := keys, {};
      while rest != {}
        invariant rest * done == {} && rest + done == keys
        invariant forall k :: k in done ==> k !in seats
        invariant inserted == seats + NewSeats(id, done, price)
        decreases |rest|
      {
        var k :| k in rest;
        if k in seats {
          assert k in seats.Keys * keys;
          return true, inserted;
        }
        OneMoreSeat(seats, id, done, k, price);
        inserted := inserted[k := SeatRow(id, price)];
        rest, done := rest - {k}, done + {k};
      }
      assert done == keys;
      return false, inserted;
    }

    /** id is the uuid the database picks, geometry what cinema-service answers. */
    method Hold(id: Id, req: HoldRequest, geometry: Option<Geometry>, lock: LockAnswer, faults: Faults, now: Time)
      returns (result: HoldResult)
      requires id !in rows
      modifies this
      ensures HoldOutcome(result, Contents()) ==
                BookingStore.Hold(old(Contents()), id, req, geometry, lock, faults, now)
      ensures published == old(published)
    {
      if req.seatIds == [] {
        return BadRequest;
      }
      var seatIds := Distinct(req.seatIds);
      if |seatIds| > MAX_SEATS_PER_HOLD {
        return BadRequest;
      }
      if geometry.None? {
        return SeatsUnavailable;
      }
      var valid := ValidateSeats(geometry.value, seatIds);
      if !valid.Valid? {
        return SeatsUnavailable;
      }
      if !lock.Granted? {
        return if lock.Down? then LockDown else LockTaken;
      }
      result := ClaimSeats(id, req, geometry.value.price, valid.seats, faults, now);
    }

    method ClaimSeats(id: Id, req: HoldRequest, price: int, found: seq<ShowtimeSeat>, faults: Faults, now: Time)
      returns (result: HoldResult)
      requires id !in rows
      modifies this
      ensures HoldOutcome(result, Contents()) == Claim(old(Contents()), id, req, price, found, faults, now)
      ensures published == old(published)
    {
      if faults.save {
        return StorageError;
      }
      var before := Contents();
      var keys := Keys(req.showtime, found);
      var booking := NewBooking(req, |found| * price, now);
      rows := rows[id := booking];
      activeLocks := activeLocks[id := keys];
      DeleteStaleSeatRows(keys, now, faults.reap);
      ghost var swept := seats;
      var clash := false;
      if faults.insert {
        clash := seats.Keys * keys != {};
      } else {
        clash := InsertSeats(id, keys, price);
      }
      if clash || faults.insert {
        activeLocks := activeLocks - {id};
        if !faults.cleanup {
          rows := rows - {id};
        }
        AddedAndGone(before.rows, id, booking);
        AddedAndGone(before.locks, id, keys);
        return if clash then SeatConflict else StorageError;
      }
      return HoldResult.Held(booking, Priced(keys, price));
    }

    // Commands of the owner.

    method ReleaseLocks(id: Id)
      modifies this`activeLocks
      ensures activeLocks == old(activeLocks) - {id}
    {
      if id in activeLocks {
        activeLocks := activeLocks - {id};
      }
    }

    method ExpireBooking(id: Id)
      requires id in rows
      modifies this
      ensures Answered(old(Contents()), old(published), id, R.Expire(id, old(rows)[id]))
    {
      var booking := rows[id];
      if !booking.status.Pending? {
        assert rows[id := booking] == rows;
        return;
      }
      rows := rows[id := booking.(status := BookingStatus.Expired)];
      ReleaseLocks(id);
      published := published + [BookingExpired(id)];
    }

    method Cancel(id: Id, user: Id, now: Time) returns (result: R.CancelResult)
      modifies this
      ensures result == if id in old(rows) then R.Cancel(id, old(rows)[id], user, now) else R.NotFound
      ensures if result.Done? then Answered(old(Contents()), old(published), id, result.reply)
              else Silent(old(Contents()), old(published))
    {
      if id !in rows || rows[id].user != user {
        return R.NotFound;
      }
      var booking := rows[id];
      if booking.status.RefundPending? || booking.status.Refunded? || booking.status.Expired? ||
          booking.status.Cancelled? {
        return R.Conflict;
      }
      var event;
      if booking.status.Confirmed? || booking.paidAt.Some? {
        booking := booking.(status := RefundPending, refundRequestedAt := Some(now));
        event := BookingRefundRequested(id, booking.totalAmount);
      } else {
        booking := booking.(status := BookingStatus.Cancelled, reason := Some(Customer));
        event := BookingCancelled(id, Customer);
      }
      rows := rows[id := booking];
      ReleaseLocks(id);
      published := published + [event];
      return R.Done(R.Reply(booking, true, [event]));
    }

    /** None when Redis cannot be asked. */
    method HasLiveSeatLocks(id: Id, probe: R.Probe) returns (live: Option<bool>)
      ensures live == if SnapshotOf(Contents(), id) == map[] then Some(false)
                      else if probe.Unreachable? then None else Some(probe.AllExist?)
    {
      if SnapshotOf(Contents(), id) == map[] {
        return Some(false);
      }
      return match probe case Unreachable => None case AllExist => Some(true) case SomeMissing => Some(false);
    }

    method PrepareCharge(id: Id, user: Id, now: Time, probe: R.Probe) returns (result: R.PrepareResult)
      modifies this
      ensures result == if id in old(rows)
                then R.PrepareCharge(id, old(rows)[id], user, SnapshotOf(old(Contents()), id), now, probe)
                        else R.PrepareNotFound
      ensures if result.Gone? then Answered(old(Contents()), old(published), id, result.reply)
              else Silent(old(Contents()), old(published))
    {
      if id !in rows || rows[id].user != user {
        return R.PrepareNotFound;
      }
      var booking := rows[id];
      if booking.status.Confirmed? {
        return R.AlreadyPaid;
      }
      if !booking.status.Pending? {
        assert rows[id := booking] == rows;
        return R.Gone(R.Unchanged(booking));
      }
      if booking.paidAt.Some? {
        return R.AlreadyPaid;
      }
      var live: Option<bool> := Some(false);
      if booking.expiresAt > now {
        live := HasLiveSeatLocks(id, probe);
        if live.None? {
          return R.LockUnavailable;
        }
      }
      if !live.value {
        ExpireBooking(id);
        return R.Gone(R.Expire(id, booking));
      }
      return R.Context(R.ChargeContext(id, booking.user, booking.totalAmount, booking.expiresAt));
    }

    // Events.

    /** extended is what extending the handle's lock answers. With a handle in memory
        that answer decides, without one the keys of all seats must exist, and None
        is a throw because Redis could not be asked for them. */
    method IsHoldLive(id: Id, now: Time, extended: bool, probe: R.Probe) returns (live: Option<bool>)
      requires id in rows
      ensures var row, handle, seats := rows[id], id in activeLocks, SnapshotOf(Contents(), id);
              var open := row.status.Pending? && row.paidAt.None? && now < row.expiresAt;
              && (live == None <==> open && !handle && seats != map[] && probe.Unreachable?)
              && (live == Some(true) <==> open && if handle then extended else seats != map[] && probe.AllExist?)
      ensures live.None? <==> R.SettleThrows(rows[id], id in activeLocks, SnapshotOf(Contents(), id), now, probe)
      ensures live.Some? ==>
                live.value == R.HoldLive(rows[id], id in activeLocks, SnapshotOf(Contents(), id), now, extended, probe)
    {
      var booking := rows[id];
      if !booking.status.Pending? || booking.paidAt.Some? || booking.expiresAt <= now {
        return Some(false);
      }
      if id in activeLocks {
        return Some(extended);
      }
      live := HasLiveSeatLocks(id, probe);
    }

    /** The booking is alive at the lock service: its handle was extended, or, with no
        handle in memory, it has seats and all their keys exist. */
    predicate Alive(id: Id, extended: bool, probe: R.Probe)
      reads this
    {
      if id in activeLocks then extended else SnapshotOf(Contents(), id) != map[] && probe.AllExist?
    }

    /** The settlement of an unpaid hold throws exactly if it is in time, has no handle
        and Redis cannot be asked about its seats. If it is in time and alive it is
        paid and confirmed, otherwise expired and its money asked back. */
    method OnPaymentSettled(id: Id, amount: int, paidAt: Time, now: Time, extended: bool, probe: R.Probe)
      returns (thrown: bool)
      modifies this
      ensures thrown <==>
                && id in old(rows) && R.Unpaid(old(rows)[id]) && now < old(rows)[id].expiresAt
                && id !in old(activeLocks) && SnapshotOf(old(Contents()), id) != map[] && probe.Unreachable?
      ensures id in old(rows) && R.Unpaid(old(rows)[id]) && !thrown ==>
                var row := old(rows)[id];
                && activeLocks == old(activeLocks) - {id}
                && if now < row.expiresAt && old(Alive(id, extended, probe)) then
                     && rows == old(rows)[id := row.(paidAt := Some(paidAt), confirmationAttemptedAt := Some(now))]
                     && published == old(published) + [BookingConfirmed(id, row.showtime,
                                                       SnapshotOf(old(Contents()), id), row.totalAmount, paidAt)]
                   else
                     && rows == old(rows)[id := row.(status := BookingStatus.Expired)]
                     && published == old(published) + [BookingExpired(id), BookingRefundRequested(id, amount)]
      ensures thrown == (id in old(rows) &&
                         R.SettleThrows(old(rows)[id], id in old(activeLocks), SnapshotOf(old(Contents()), id), now,
                                        probe))
      ensures thrown || id !in old(rows) ==> Silent(old(Contents()), old(published))
      ensures !thrown && id in old(rows) ==>
                var row, seats := old(rows)[id], SnapshotOf(old(Contents()), id);
                var live := R.HoldLive(row, id in old(activeLocks), seats, now, extended, probe);
                Answered(old(Contents()), old(published), id, R.Settled(id, row, seats, live, now, amount, paidAt))
    {
      if id !in rows {
        return false;
      }
      var booking := rows[id];
      var snapshot := SnapshotOf(Contents(), id);
      assert rows[id := booking] == rows;
      if booking.status.Pending? && booking.paidAt.None? {
        var live := IsHoldLive(id, now, extended, probe);
        if live.None? {
          return true;
        }
        if !live.value {
          ExpireBooking(id);
          published := published + [BookingRefundRequested(id, amount)];
          return false;
        }
        booking := booking.(paidAt := Some(paidAt), confirmationAttemptedAt := Some(now));
        rows := rows[id := booking];
        ReleaseLocks(id);
        published := published + [R.ConfirmedEvent(id, booking, snapshot, now)];
        return false;
      }
      if booking.status.Pending? {
        published := published + [R.ConfirmedEvent(id, booking, snapshot, now)];
      } else if !booking.status.Confirmed? {
        published := published + [BookingRefundRequested(id, amount)];
      }
      return false;
    }

    method OnPaymentFailed(id: Id)
      modifies this
      ensures if id in old(rows) then Answered(old(Contents()), old(published), id, R.FailedPayment(id, old(rows)[id]))
              else Silent(old(Contents()), old(published))
    {
      if id !in rows {
        return;
      }
      var booking := rows[id];
      if !booking.status.Pending? || booking.paidAt.Some? {
        assert rows[id := booking] == rows;
        return;
      }
      rows := rows[id := booking.(status := BookingStatus.Cancelled, reason := Some(PaymentDeclined))];
      ReleaseLocks(id);
      published := published + [BookingCancelled(id, PaymentDeclined)];
    }

    method OnRefundPending(id: Id, now: Time)
      modifies this
      ensures if id in old(rows) then Answered(old(Contents()), old(published), id, R.RefundStarted(old(rows)[id], now))
              else Silent(old(Contents()), old(published))
    {
      if id !in rows {
        return;
      }
      var booking := rows[id];
      assert rows[id := booking] == rows;
      if booking.status.Refunded? || (booking.status.RefundPending? && booking.refundRequestedAt.Some?) ||
          booking.paidAt.None? {
        return;
      }
      rows := rows[id := booking.(status := RefundPending,
                                  refundRequestedAt := Some(booking.refundRequestedAt.Or(now)))];
    }

    method OnRefunded(id: Id, refundedAt: Time)
      modifies this
      ensures if id in old(rows)
                then Answered(old(Contents()), old(published), id, R.RefundDone(id, old(rows)[id], refundedAt))
              else Silent(old(Contents()), old(published))
    {
      if id !in rows {
        return;
      }
      var booking := rows[id];
      if booking.status.Refunded? {
        assert rows[id := booking] == rows;
        published := published + [BookingRefunded(id)];
        return;
      }
      rows := rows[id := booking.(status := Refunded,
                                  refundRequestedAt := Some(booking.refundRequestedAt.Or(refundedAt)))];
      ReleaseLocks(id);
      published := published + [BookingRefunded(id)];
    }

    method OnRefundFailed(id: Id, now: Time)
      modifies this
      ensures if id in old(rows)
              then Answered(old(Contents()), old(published), id,
                            R.RefundRefused(id, old(rows)[id], SnapshotOf(old(Contents()), id), now))
              else Silent(old(Contents()), old(published))
    {
      if id !in rows {
        return;
      }
      var booking := rows[id];
      if !booking.status.RefundPending? {
        assert rows[id := booking] == rows;
        return;
      }
      var snapshot := SnapshotOf(Contents(), id);
      booking := booking.(refundRequestedAt := None);
      if booking.ticketsIssuedAt.Some? || booking.confirmedAt.Some? {
        rows := rows[id := booking.(status := Confirmed)];
        return;
      }
      if booking.paidAt.Some? {
        booking := booking.(status := BookingStatus.Pending, confirmationAttemptedAt := Some(now));
        rows := rows[id := booking];
        published := published + [R.ConfirmedEvent(id, booking, snapshot, now)];
        return;
      }
      rows := rows[id := booking.(status := BookingStatus.Cancelled, reason := Some(PaymentDeclined))];
    }

    method OnTicketsIssued(id: Id, confirmedAt: Time, now: Time)
      modifies this
      ensures if id in old(rows)
                then Answered(old(Contents()), old(published), id, R.Issued(id, old(rows)[id], confirmedAt, now))
              else Silent(old(Contents()), old(published))
    {
      if id !in rows {
        return;
      }
      var booking := rows[id];
      assert rows[id := booking] == rows;
      if booking.status.Pending? || booking.status.Confirmed? {
        if booking.status.Pending? && booking.paidAt.None? {
          return;
        }
        rows := rows[id := booking.(status := Confirmed,
                                    confirmedAt := Some(booking.confirmedAt.Or(confirmedAt)),
                                    ticketsIssuedAt := Some(now))];
        return;
      }
      if booking.status.Refunded? {
        published := published + [BookingRefunded(id)];
      } else if booking.status.Cancelled? {
        published := published + [BookingCancelled(id, booking.reason.Or(Customer))];
      } else if booking.status.Expired? {
        published := published + [BookingExpired(id)];
      }
    }

    // Reconciliation.

    /** The rows of a query, in whatever order the database has them. */
    method Listed(ids: set<Id>) returns (order: seq<Id>)
      ensures Lists(order, ids)
    {
      order := [];
      var rest, done := ids, {};
      while rest != {}
        invariant rest * done == {} && rest + done == ids && Lists(order, done)
        decreases |rest|
      {
        var id :| id in rest;
        ListsSnoc(order, done, id);
        rest, done, order := rest - {id}, done + {id}, order + [id];
      }
      assert done == ids;
    }

    method ExpireRow(id: Id, ghost before: Store, ghost said: seq<Event>, ghost order: seq<Id>, now: Time)
      requires id in before.rows && Passed(ExpireHolds, before, said, order, now, Contents(), published)
      modifies this
      ensures Passed(ExpireHolds, before, said, order + [id], now, Contents(), published)
    {
      PassedSnoc(ExpireHolds, before, said, order, now, Contents(), published, id);
      ExpireBooking(id);
    }

    method ExpireStaleBookings(now: Time) returns (expired: seq<Id>)
      modifies this
      ensures Lists(expired, Candidates(ExpireHolds, old(Contents()), now))
      ensures Passed(ExpireHolds, old(Contents()), old(published), expired, now, Contents(), published)
    {
      ghost var before, said := Contents(), published;
      var stale := Listed(Candidates(ExpireHolds, Contents(), now));
      expired := [];
      for i := 0 to |stale|
        invariant expired == stale[..i]
        invariant Passed(ExpireHolds, before, said, expired, now, Contents(), published)
      {
        assert stale[i] in stale;
        ExpireRow(stale[i], before, said, expired, now);
        expired := expired + [stale[i]];
      }
    }

    method ReconfirmRow(id: Id, ghost before: Store, ghost said: seq<Event>, ghost order: seq<Id>, now: Time)
      requires id in before.rows && Passed(Cron.RetryConfirmations, before, said, order, now, Contents(), published)
      modifies this
      ensures Passed(Cron.RetryConfirmations, before, said, order + [id], now, Contents(), published)
    {
      PassedSnoc(Cron.RetryConfirmations, before, said, order, now, Contents(), published, id);
      var booking := rows[id].(confirmationAttemptedAt := Some(now));
      var snapshot := SnapshotOf(Contents(), id);
      rows := rows[id := booking];
      published := published + [R.ConfirmedEvent(id, booking, snapshot, now)];
    }

    method RetryConfirmations(now: Time) returns (retried: seq<Id>)
      modifies this
      ensures Lists(retried, Candidates(Cron.RetryConfirmations, old(Contents()), now))
      ensures Passed(Cron.RetryConfirmations, old(Contents()), old(published), retried, now, Contents(), published)
    {
      ghost var before, said := Contents(), published;
      var candidates := Listed(Candidates(Cron.RetryConfirmations, Contents(), now));
      retried := [];
      for i := 0 to |candidates|
        invariant retried == candidates[..i]
        invariant Passed(Cron.RetryConfirmations, before, said, retried, now, Contents(), published)
      {
        assert candidates[i] in candidates;
        ReconfirmRow(candidates[i], before, said, retried, now);
        retried := retried + [candidates[i]];
      }
    }

    method RerequestRow(id: Id, ghost before: Store, ghost said: seq<Event>, ghost order: seq<Id>, now: Time)
      requires id in before.rows && Passed(Cron.RetryRefunds, before, said, order, now, Contents(), published)
      modifies this
      ensures Passed(Cron.RetryRefunds, before, said, order + [id], now, Contents(), published)
    {
      PassedSnoc(Cron.RetryRefunds, before, said, order, now, Contents(), published, id);
      var booking := rows[id].(refundRequestedAt := Some(now));
      rows := rows[id := booking];
      published := published + [BookingRefundRequested(id, booking.totalAmount)];
    }

    method RetryRefunds(now: Time) returns (retried: seq<Id>)
      modifies this
      ensures Lists(retried, Candidates(Cron.RetryRefunds, old(Contents()), now))
      ensures Passed(Cron.RetryRefunds, old(Contents()), old(published), retried, now, Contents(), published)
    {
      ghost var before, said := Contents(), published;
      var candidates := Listed(Candidates(Cron.RetryRefunds, Contents(), now));
      retried := [];
      for i := 0 to |candidates|
        invariant retried == candidates[..i]
        invariant Passed(Cron.RetryRefunds, before, said, retried, now, Contents(), published)
      {
        assert candidates[i] in candidates;
        RerequestRow(candidates[i], before, said, retried, now);
        retried := retried + [candidates[i]];
      }
    }

    // Availability.

    /** The bookings arrive in any order, and so do the seats of each. */
    method Availability(showtime: Id, now: Time) returns (occupied: map<Id, Occupied>)
      requires Consistent(Contents())
      ensures occupied == SeatView.Availability(Contents(), showtime, now)
    {
      var bookings := set id | id in rows && rows[id].showtime == showtime
                               && (rows[id].status.Confirmed? || rows[id].status.RefundPending? ||
                                   rows[id].status.Pending?);
      occupied := map[];
      var rest, done := bookings, {};
      while rest != {}
        invariant rest * done == {} && rest + done == bookings
        invariant occupied == OccupiedBy(Contents(), showtime, now, done)
        decreases |rest|
      {
        var id :| id in rest;
        occupied := MarkBooking(id, showtime, now, occupied, done);
        rest, done := rest - {id}, done + {id};
      }
      AllMarked(Contents(), showtime, now, done);
    }

    method MarkBooking(id: Id, showtime: Id, now: Time, before: map<Id, Occupied>, done: set<Id>)
      returns (occupied: map<Id, Occupied>)
      requires Consistent(Contents()) && id in rows && rows[id].showtime == showtime && id !in done
      requires rows[id].status.Confirmed? || rows[id].status.RefundPending? || rows[id].status.Pending?
      requires before == OccupiedBy(Contents(), showtime, now, done)
      ensures occupied == OccupiedBy(Contents(), showtime, now, done + {id})
    {
      MarksOfBooking(Contents(), showtime, now, done, id);
      var status := None;
      if rows[id].status.Confirmed? || rows[id].status.RefundPending? {
        status := Some(Booked);
      } else if rows[id].paidAt.Some? {
        status := Some(Booked);
      } else if rows[id].expiresAt > now {
        status := Some(Holding);
      }
      occupied := before;
      if status.Some? {
        occupied := MarkSeats(id, status.value, before);
      }
    }

    method MarkSeats(id: Id, status: Occupied, before: map<Id, Occupied>) returns (occupied: map<Id, Occupied>)
      ensures occupied == before + Marks(Contents(), id, status)
    {
      var own := SnapshotOf(Contents(), id).Keys;
      occupied := before;
      var rest, done := own, {};
      while rest != {}
        invariant rest * done == {} && rest + done == own
        invariant occupied == before + MarkedAs(done, status)
        decreases |rest|
      {
        var k :| k in rest;
        occupied := occupied[k.seat := status];
        OneMoreMark(before, done, k, status);
        rest, done := rest - {k}, done + {k};
      }
      assert done == own;
    }
  }

  lemma AddedAndGone<K, V>(m: map<K, V>, k: K, v: V)
    ensures m[k := v] - {k} == m - {k}
  {
  }

  lemma OneMoreSeat(before: map<SeatKey, SeatRow>, id: Id, done: set<SeatKey>, k: SeatKey, price: int)
    ensures (before + NewSeats(id, done, price))[k := SeatRow(id, price)] == before + NewSeats(id, done + {k}, price)
  {
  }

  function MarkedAs(keys: set<SeatKey>, status: Occupied): map<Id, Occupied> {
    map k | k in keys :: k.seat := status
  }

  lemma OneMoreMark(before: map<Id, Occupied>, done: set<SeatKey>, k: SeatKey, status: Occupied)
    ensures (before + MarkedAs(done, status))[k.seat := status] == before + MarkedAs(done + {k}, status)
  {
    assert k in done + {k};
  }

  /** The entries one booking adds to the report. */
  function Marks(store: Store, id: Id, status: Occupied): map<Id, Occupied> {
    MarkedAs(SnapshotOf(store, id).Keys, status)
  }

  /** The report restricted to some of the bookings. */
  function OccupiedBy(store: Store, showtime: Id, now: Time, ids: set<Id>): map<Id, Occupied> {
    map k | k in store.seats && k.showtime == showtime && store.seats[k].booking in ids &&
        OwnerMark(store, now, k).Some? ::
      k.seat := OwnerMark(store, now, k).value
  }

  lemma OccupiedAt(store: Store, showtime: Id, now: Time, ids: set<Id>, seat: Id)
    ensures var occupied, k := OccupiedBy(store, showtime, now, ids), SeatKey(showtime, seat);
            && (seat in occupied <==>
                k in store.seats && store.seats[k].booking in ids && OwnerMark(store, now, k).Some?)
            && (seat in occupied ==> occupied[seat] == OwnerMark(store, now, k).value)
  {
    assert SeatKey(showtime, seat).seat == seat;
  }

  lemma MarksAt(store: Store, id: Id, status: Occupied, seat: Id)
    requires Consistent(store) && id in store.rows
    ensures var marks, k := Marks(store, id, status), SeatKey(store.rows[id].showtime, seat);
            && (seat in marks <==> k in store.seats && store.seats[k].booking == id)
            && (seat in marks ==> marks[seat] == status)
  {
    var k := SeatKey(store.rows[id].showtime, seat);
    assert k.seat == seat;
    assert k in SnapshotOf(store, id).Keys <==> k in store.seats && store.seats[k].booking == id;
  }

  /** One more booking adds its own entries and, because each seat has one row,
      touches nobody else's. */
  lemma MarksOfBooking(store: Store, showtime: Id, now: Time, ids: set<Id>, id: Id)
    requires Consistent(store) && id in store.rows && store.rows[id].showtime == showtime && id !in ids
    ensures OccupiedBy(store, showtime, now, ids + {id})
         == OccupiedBy(store, showtime, now, ids)
            + if MarkOf(store.rows[id], now).Some? then Marks(store, id, MarkOf(store.rows[id], now).value) else map[]
  {
    var mark := MarkOf(store.rows[id], now);
    var wide, narrow := OccupiedBy(store, showtime, now, ids + {id}), OccupiedBy(store, showtime, now, ids);
    var own := if mark.Some? then Marks(store, id, mark.value) else map[];
    forall seat: Id
      ensures seat in wide <==> seat in narrow + own
      ensures seat in wide ==> wide[seat] == (narrow + own)[seat]
    {
      OccupiedAt(store, showtime, now, ids + {id}, seat);
      OccupiedAt(store, showtime, now, ids, seat);
      MarksAt(store, id, mark.Or(Booked), seat);
    }
  }

  lemma AllMarked(store: Store, showtime: Id, now: Time, ids: set<Id>)
    requires Consistent(store)
    requires forall id ::
               id in store.rows && store.rows[id].showtime == showtime && MarkOf(store.rows[id], now).Some? ==>
                   id in ids
    ensures OccupiedBy(store, showtime, now, ids) == SeatView.Availability(store, showtime, now)
  {
  }
}

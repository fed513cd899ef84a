/** What a hold decides and what it writes: every refusal with its exact condition,
    and every row, seat and handle of every way it can end. */
module HoldDecisions {
  import opened SagaTypes
  import opened SeatValidation
  import opened BookingStore
  import opened SeatLedger
  import opened SeatView

  function WantedKeys(req: HoldRequest): set<SeatKey> {
    set s | s in req.seatIds :: SeatKey(req.showtime, s)
  }

  /** Every requested seat is an enabled seat of the showtime. */
  predicate AllEnabled(req: HoldRequest, geometry: Option<Geometry>) {
    geometry.Some? && forall s :: s in req.seatIds ==> ShowtimeSeat(s, false) in geometry.value.seats
  }

  /** The seat has a row that this hold cannot delete: its booking is alive, or the
      delete of dead rows failed. */
  predicate Stands(store: Store, now: Time, reapFails: bool, k: SeatKey) {
    k in store.seats && (reapFails || EntryAt(store, now, k) != Free)
  }

  predicate Clashes(store: Store, req: HoldRequest, now: Time, reapFails: bool) {
    exists k :: k in WantedKeys(req) && Stands(store, now, reapFails, k)
  }

  /** The request goes as far as the database. */
  predicate Attempted(req: HoldRequest, geometry: Option<Geometry>, lock: LockAnswer) {
    SmallRequest(req) && AllEnabled(req, geometry) && lock.Granted?
  }

  /** Validation and the claim, in terms of what was asked. */
  lemma HoldIsClaim(store: Store, id: Id, req: HoldRequest, geometry: Option<Geometry>, lock: LockAnswer,
                    faults: Faults, now: Time)
    ensures var o := Hold(store, id, req, geometry, lock, faults, now);
            if !SmallRequest(req) then o == HoldOutcome(BadRequest, store)
            else if !AllEnabled(req, geometry) then o == HoldOutcome(SeatsUnavailable, store)
            else if lock.Down? then o == HoldOutcome(LockDown, store)
            else if lock.Taken? then o == HoldOutcome(LockTaken, store)
            else
              var valid := ValidateSeats(geometry.value, Distinct(req.seatIds));
              && valid.Valid?
              && Keys(req.showtime, valid.seats) == WantedKeys(req) && |valid.seats| == |IdSet(req.seatIds)|
              && o == Claim(store, id, req, geometry.value.price, valid.seats, faults, now)
  {
    DistinctIds(req.seatIds);
    if geometry.Some? {
      ValidKeys(req, geometry.value);
      ValidateSeatsExact(geometry.value, Distinct(req.seatIds));
    }
  }

  /** The claim's clash is a seat that still stands after the reap. */
  lemma ClaimClashes(store: Store, id: Id, req: HoldRequest, price: int, found: seq<ShowtimeSeat>, faults: Faults,
                     now: Time)
    requires Consistent(store) && id !in store.rows && Keys(req.showtime, found) == WantedKeys(req)
    ensures var r := Claim(store, id, req, price, found, faults, now).result;
            && (r.Held? <==> !faults.save && !Clashes(store, req, now, faults.reap) && !faults.insert)
            && (r.SeatConflict? <==> !faults.save && Clashes(store, req, now, faults.reap))
            && (r.StorageError? <==>
                faults.save || (faults.insert && !Clashes(store, req, now, faults.reap)))
  {
    if !faults.save {
      var keys := WantedKeys(req);
      var saved := store.(rows := store.rows[id := NewBooking(req, |found| * price, now)],
                          locks := store.locks[id := keys]);
      var seats := if faults.reap then store.seats else Reaped(saved, keys, now);
      forall k | k in keys
        ensures k in seats <==> Stands(store, now, faults.reap, k)
      {
        assert k in store.seats ==> store.seats[k].booking in store.rows;
      }
      assert seats.Keys * keys != {} <==> exists k :: k in keys && k in seats by {
        if k :| k in keys && k in seats {
          assert k in seats.Keys * keys;
        }
      }
      assert Claim(store, id, req, price, found, faults, now).result.Held? <==>
          seats.Keys * keys == {} && !faults.insert;
    }
  }

  /** Every answer of a hold, and exactly when it is given. */
  lemma HoldDecides(store: Store, id: Id, req: HoldRequest, geometry: Option<Geometry>, lock: LockAnswer,
                    faults: Faults, now: Time)
    requires Consistent(store) && id !in store.rows
    ensures var r := Hold(store, id, req, geometry, lock, faults, now).result;
            var known := SmallRequest(req) && AllEnabled(req, geometry);
            var tried, clash := Attempted(req, geometry, lock) && !faults.save, Clashes(store, req, now, faults.reap);
            && (r.BadRequest? <==> !SmallRequest(req))
            && (r.SeatsUnavailable? <==> SmallRequest(req) && !AllEnabled(req, geometry))
            && (r.LockDown? <==> known && lock.Down?)
            && (r.LockTaken? <==> known && lock.Taken?)
            && (r.SeatConflict? <==> tried && clash)
            && (r.Held? <==> tried && !clash && !faults.insert)
            && (r.StorageError? <==>
                Attempted(req, geometry, lock) && (faults.save || (!clash && faults.insert)))
  {
    HoldIsClaim(store, id, req, geometry, lock, faults, now);
    if Attempted(req, geometry, lock) {
      var found := ValidateSeats(geometry.value, Distinct(req.seatIds)).seats;
      ClaimClashes(store, id, req, geometry.value.price, found, faults, now);
    }
  }

  /** The booking a hold writes: open for five minutes, with nothing paid, for so
      many seats at this price. */
  predicate Opened(row: Booking, req: HoldRequest, price: int, now: Time) {
    row == Booking(req.user, req.showtime, |IdSet(req.seatIds)| * price, BookingStatus.Pending, None, now + 300_000,
                   None, None, None, None, None)
  }

  /** Among the requested seats the rows of dead bookings are gone, unless the
      delete failed; every other row is as it was. */
  ghost predicate Swept(store: Store, seats: map<SeatKey, SeatRow>, req: HoldRequest, now: Time, reapFails: bool) {
    forall k ::
      && (k in seats <==> k in store.seats && (k in WantedKeys(req) ==> Stands(store, now, reapFails, k)))
      && (k in seats ==> seats[k] == store.seats[k])
  }

  lemma ReapSweeps(store: Store, rows: map<Id, Booking>, locks: map<Id, set<SeatKey>>, req: HoldRequest, now: Time)
    requires Consistent(store) && forall c :: c in store.rows ==> c in rows && rows[c] == store.rows[c]
    ensures Swept(store, Reaped(Store(rows, store.seats, locks), WantedKeys(req), now), req, now, false)
  {
  }

  /** What a hold leaves in the tables. A success has its row, its handle on exactly
      the requested seats and one row for each of them at the price of the showtime.
      A failure leaves no handle, and a row only if deleting it failed too. In
      either case the only other rows to go are those of dead bookings on requested
      seats. */
  lemma HoldWrites(store: Store, id: Id, req: HoldRequest, geometry: Option<Geometry>, lock: LockAnswer,
                   faults: Faults, now: Time)
    requires Consistent(store) && id !in store.rows
    ensures var o := Hold(store, id, req, geometry, lock, faults, now);
            if o.result.Held? then
              && Opened(o.result.booking, req, geometry.value.price, now)
              && o.store.rows == store.rows[id := o.result.booking]
              && o.store.locks == store.locks[id := WantedKeys(req)]
              && o.result.snapshot == (map k | k in WantedKeys(req) :: geometry.value.price)
              && o.store.seats == store.seats + map k | k in WantedKeys(req) :: SeatRow(id, geometry.value.price)
            else if Attempted(req, geometry, lock) && !faults.save then
              && o.store.locks == store.locks && Swept(store, o.store.seats, req, now, faults.reap)
              && (if faults.cleanup then
                    && id in o.store.rows && Opened(o.store.rows[id], req, geometry.value.price, now)
                    && o.store.rows == store.rows[id := o.store.rows[id]]
                  else o.store.rows == store.rows)
            else o.store == store
  {
    HoldIsClaim(store, id, req, geometry, lock, faults, now);
    if Attempted(req, geometry, lock) {
      var found := ValidateSeats(geometry.value, Distinct(req.seatIds)).seats;
      ClaimWrites(store, id, req, geometry.value.price, found, faults, now);
    }
  }

  lemma ClaimWrites(store: Store, id: Id, req: HoldRequest, price: int, found: seq<ShowtimeSeat>, faults: Faults,
                    now: Time)
    requires Consistent(store) && id !in store.rows
    requires Keys(req.showtime, found) == WantedKeys(req) && |found| == |IdSet(req.seatIds)|
    ensures var o := Claim(store, id, req, price, found, faults, now);
            if o.result.Held? then
              && Opened(o.result.booking, req, price, now)
              && o.store.rows == store.rows[id := o.result.booking]
              && o.store.locks == store.locks[id := WantedKeys(req)]
              && o.result.snapshot == (map k | k in WantedKeys(req) :: price)
              && o.store.seats == store.seats + map k | k in WantedKeys(req) :: SeatRow(id, price)
            else if !faults.save then
              && o.store.locks == store.locks && Swept(store, o.store.seats, req, now, faults.reap)
              && (if faults.cleanup then
                    && id in o.store.rows && Opened(o.store.rows[id], req, price, now)
                    && o.store.rows == store.rows[id := o.store.rows[id]]
                  else o.store.rows == store.rows)
            else o.store == store
  {
    if !faults.save {
      var keys, booking := WantedKeys(req), NewBooking(req, |found| * price, now);
      var saved := Store(store.rows[id := booking], store.seats, store.locks[id := keys]);
      var seats := if faults.reap then store.seats else Reaped(saved, keys, now);
      assert Swept(store, seats, req, now, faults.reap) by {
        ReapSweeps(store, saved.rows, saved.locks, req, now);
      }
      if seats.Keys * keys == {} {
        UnsoldRows(store, seats, req, now, faults.reap);
        assert seats + NewSeats(id, keys, price) == store.seats + map k | k in keys :: SeatRow(id, price);
      }
    }
  }

  /** If nothing stands in the way, only requested seats lost a row. */
  lemma UnsoldRows(store: Store, seats: map<SeatKey, SeatRow>, req: HoldRequest, now: Time, reapFails: bool)
    requires Swept(store, seats, req, now, reapFails) && seats.Keys * WantedKeys(req) == {}
    ensures seats == store.seats - WantedKeys(req)
  {
    forall k | k in WantedKeys(req)
      ensures k !in seats
    {
      assert k in seats ==> k in seats.Keys * WantedKeys(req);
    }
  }
}

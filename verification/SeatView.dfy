/** What customers see of the seats: the availability report, the gateway's
    overlay of it on the seat map, and what a seat shown as available is worth. */
module SeatView {
  import opened SagaTypes
  import opened SeatValidation
  import opened BookingStore
  import opened SeatLedger
  import R = BookingRules

  datatype Occupied = Holding | Booked

  /** How a booking marks its seats, None if it does not count. */
  function MarkOf(row: Booking, now: Time): Option<Occupied> {
    match row.status
    case Confirmed => Some(Booked)
    case RefundPending => Some(Booked)
    case Pending => if row.paidAt.Some? then Some(Booked) else if row.expiresAt > now then Some(Holding) else None
    case _ => None
  }

  function OwnerMark(store: Store, now: Time, k: SeatKey): Option<Occupied> {
    if k in store.seats && store.seats[k].booking in store.rows then MarkOf(store.rows[store.seats[k].booking], now)
        else None
  }

  /** The simple definition: the mark of the one booking whose row holds the seat. */
  function Availability(store: Store, showtime: Id, now: Time): map<Id, Occupied> {
    map k | k in store.seats && k.showtime == showtime && OwnerMark(store, now, k).Some? ::
        k.seat := OwnerMark(store, now, k).value
  }

  datatype Display = Available | ShownHeld | ShownBooked

  function Overlaid(seat: ShowtimeSeat, occupied: map<Id, Occupied>): Display {
    if seat.isDisabled then ShownBooked
    else if seat.id !in occupied then Available
    else if occupied[seat.id].Booked? then ShownBooked
    else ShownHeld
  }

  predicate ShownAvailable(seats: seq<ShowtimeSeat>, occupied: map<Id, Occupied>, seat: Id) {
    exists s :: s in seats && s.id == seat && Overlaid(s, occupied).Available?
  }

  lemma AvailabilityAt(store: Store, showtime: Id, now: Time, seat: Id)
    ensures seat in Availability(store, showtime, now) <==> OwnerMark(store, now, SeatKey(showtime, seat)).Some?
    ensures seat in Availability(store, showtime, now) ==>
              Availability(store, showtime, now)[seat] == OwnerMark(store, now, SeatKey(showtime, seat)).value
  {
    var k := SeatKey(showtime, seat);
    assert k.seat == seat;
  }

  /** The report shows BOOKED exactly for sold seats, and HELD exactly for held
      ones whose deadline has not come yet. */
  lemma AvailabilityShowsLedger(store: Store, showtime: Id, now: Time, seat: Id)
    ensures var occupied, e := Availability(store, showtime, now), EntryAt(store, now, SeatKey(showtime, seat));
            && (seat in occupied && occupied[seat].Booked? <==> e.Sold?)
            && (seat in occupied && occupied[seat].Holding? <==> e.OnHold? && now < e.deadline)
  {
    AvailabilityAt(store, showtime, now, seat);
  }

  // What AVAILABLE is worth to a lone hold.

  const HEALTHY: Faults := Faults(false, false, false, false)

  /** The instant at which a hold counts as over for everyone but the reaper. */
  predicate AtDeadline(store: Store, now: Time, k: SeatKey) {
    && k in store.seats && store.seats[k].booking in store.rows
    && R.Unpaid(store.rows[store.seats[k].booking]) && store.rows[store.seats[k].booking].expiresAt == now
  }

  lemma ReapedOrFree(store: Store, saved: Store, keys: set<SeatKey>, now: Time, k: SeatKey)
    requires Consistent(store) && k in keys && saved.seats == store.seats
    requires forall c :: c in store.rows ==> c in saved.rows && saved.rows[c] == store.rows[c]
    ensures k !in Reaped(saved, keys, now) <==> OwnerMark(store, now, k).None? && !AtDeadline(store, now, k)
  {
  }

  lemma ClaimWorks(store: Store, id: Id, req: HoldRequest, price: int, found: seq<ShowtimeSeat>, now: Time)
    requires Consistent(store) && id !in store.rows
    ensures Claim(store, id, req, price, found, HEALTHY, now).result.Held?
       <==> forall k :: k in Keys(req.showtime, found) ==> OwnerMark(store, now, k).None? && !AtDeadline(store, now, k)
  {
    var keys := Keys(req.showtime, found);
    var saved := store.(rows := store.rows[id := NewBooking(req, |found| * price, now)],
                        locks := store.locks[id := keys]);
    forall k | k in keys
      ensures k !in Reaped(saved, keys, now) <==> OwnerMark(store, now, k).None? && !AtDeadline(store, now, k)
    {
      ReapedOrFree(store, saved, keys, now, k);
    }
    if k :| k in keys && k in Reaped(saved, keys, now) {
      assert k in Reaped(saved, keys, now).Keys * keys;
    }
  }

  predicate SmallRequest(req: HoldRequest) {
    req.seatIds != [] && |IdSet(req.seatIds)| <= MAX_SEATS_PER_HOLD
  }

  lemma ShownIsUnmarked(store: Store, showtime: Id, geometry: Geometry, now: Time, seat: Id)
    ensures ShownAvailable(geometry.seats, Availability(store, showtime, now), seat)
       <==> ShowtimeSeat(seat, false) in geometry.seats && OwnerMark(store, now, SeatKey(showtime, seat)).None?
  {
    var occupied := Availability(store, showtime, now);
    AvailabilityAt(store, showtime, now, seat);
    if ShownAvailable(geometry.seats, occupied, seat) {
      var s :| s in geometry.seats && s.id == seat && Overlaid(s, occupied).Available?;
      assert s == ShowtimeSeat(seat, false);
    }
  }

  /** The healthy path of a hold: it is validation and then the claim. */
  lemma HealthyHold(store: Store, id: Id, req: HoldRequest, geometry: Geometry, now: Time)
    requires SmallRequest(req)
    ensures var o, valid := Hold(store, id, req, Some(geometry), Granted, HEALTHY, now),
              ValidateSeats(geometry, Distinct(req.seatIds));
            if valid.Valid? then o == Claim(store, id, req, geometry.price, valid.seats, HEALTHY, now)
                else !o.result.Held?
  {
    DistinctIds(req.seatIds);
  }

  lemma ValidKeys(req: HoldRequest, geometry: Geometry)
    ensures var valid := ValidateSeats(geometry, Distinct(req.seatIds));
            && (valid.Valid? <==> forall seat :: seat in req.seatIds ==> ShowtimeSeat(seat, false) in geometry.seats)
            && (valid.Valid? ==>
                  Keys(req.showtime, valid.seats) == set seat | seat in req.seatIds :: SeatKey(req.showtime, seat))
  {
    var seatIds := Distinct(req.seatIds);
    DistinctIds(req.seatIds);
    ValidateSeatsExact(geometry, seatIds);
    forall seat
      ensures seat in req.seatIds <==> seat in seatIds
    {
      assert seat in IdSet(seatIds) <==> seat in IdSet(req.seatIds);
    }
    var valid := ValidateSeats(geometry, seatIds);
    if valid.Valid? {
      FoundKeys(req.showtime, req.seatIds, valid.seats);
    }
  }

  /** With the lock granted and a healthy database, a lone hold succeeds exactly
      when every seat it asks for is shown as available and none of them is at
      the very instant of its owner's deadline. */
  lemma AvailableMeansHoldable(store: Store, id: Id, req: HoldRequest, geometry: Geometry, now: Time)
    requires Consistent(store) && id !in store.rows && SmallRequest(req)
    ensures Hold(store, id, req, Some(geometry), Granted, HEALTHY, now).result.Held?
       <==> forall seat :: seat in req.seatIds ==>
              && ShownAvailable(geometry.seats, Availability(store, req.showtime, now), seat)
              && !AtDeadline(store, now, SeatKey(req.showtime, seat))
  {
    HealthyHold(store, id, req, geometry, now);
    ValidKeys(req, geometry);
    forall seat | seat in req.seatIds
      ensures ShownAvailable(geometry.seats, Availability(store, req.showtime, now), seat)
         <==> ShowtimeSeat(seat, false) in geometry.seats && OwnerMark(store, now, SeatKey(req.showtime, seat)).None?
    {
      ShownIsUnmarked(store, req.showtime, geometry, now, seat);
    }
    var valid := ValidateSeats(geometry, Distinct(req.seatIds));
    if valid.Valid? {
      ClaimWorks(store, id, req, geometry.price, valid.seats, now);
      forall seat | seat in req.seatIds
        ensures SeatKey(req.showtime, seat) in Keys(req.showtime, valid.seats)
      {
      }
    }
  }

  // Failed holds.

  lemma OwnerStays(store: Store, id: Id, o: HoldOutcome, now: Time, later: Time, k: SeatKey)
    requires Consistent(store) && id !in store.rows && HoldShape(store, id, o, now) && !o.result.Held? && now <= later
    ensures OwnerMark(o.store, later, k) == OwnerMark(store, later, k)
  {
  }

  /** A hold that fails, wherever it fails, changes nothing anyone can see, now or later. */
  lemma FailedHoldInvisible(store: Store, id: Id, req: HoldRequest, geometry: Option<Geometry>, lock: LockAnswer,
                            faults: Faults,
                            now: Time, later: Time, showtime: Id)
    requires Consistent(store) && id !in store.rows && now <= later
    requires !Hold(store, id, req, geometry, lock, faults, now).result.Held?
    ensures Availability(Hold(store, id, req, geometry, lock, faults, now).store, showtime, later) ==
              Availability(store, showtime, later)
  {
    HoldHasShape(store, id, req, geometry, lock, faults, now);
    var o := Hold(store, id, req, geometry, lock, faults, now);
    forall seat: Id
      ensures seat in Availability(o.store, showtime, later) <==> seat in Availability(store, showtime, later)
      ensures seat in Availability(store, showtime, later) ==>
                Availability(o.store, showtime, later)[seat] == Availability(store, showtime, later)[seat]
    {
      AvailabilityAt(store, showtime, later, seat);
      AvailabilityAt(o.store, showtime, later, seat);
      OwnerStays(store, id, o, now, later, SeatKey(showtime, seat));
    }
  }
}

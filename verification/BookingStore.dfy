/** The booking service's own state and the outcome of holding seats in it. */
module BookingStore {
  import opened SagaTypes
  import opened SeatValidation
  import R = BookingRules

  /** The bookings table, the booking_seats table keyed by its UNIQUE
      (showtime, seat) index, and the in-memory lock handles of this replica. */
  datatype Store = Store(rows: map<Id, Booking>, seats: map<SeatKey, SeatRow>, locks: map<Id, set<SeatKey>>)

  function SnapshotOf(store: Store, id: Id): Snapshot {
    map k | k in store.seats && store.seats[k].booking == id :: store.seats[k].price
  }

  /** A handler's reply written back: the row saved and the handle dropped if released. */
  function Put(store: Store, id: Id, reply: R.Reply): Store {
    Store(store.rows[id := reply.row], store.seats, if reply.release then store.locks - {id} else store.locks)
  }

  datatype HoldRequest = HoldRequest(user: Id, showtime: Id, seatIds: seq<Id>)
  datatype LockAnswer = Granted | Taken | Down

  /** Which database calls of a hold fail. */
  datatype Faults = Faults(save: bool, reap: bool, insert: bool, cleanup: bool)

  datatype HoldResult =
    | Held(booking: Booking, snapshot: Snapshot)
    | BadRequest
    | SeatsUnavailable
    | LockTaken
    | LockDown
    | SeatConflict
    | StorageError

  datatype HoldOutcome = HoldOutcome(result: HoldResult, store: Store)

  /** deleteStaleSeatRows: drop the seat rows of dead bookings among these keys. */
  function Reaped(store: Store, keys: set<SeatKey>, now: Time): map<SeatKey, SeatRow> {
    map k | k in store.seats && !(k in keys && store.seats[k].booking in store.rows
                                  && R.Reapable(store.rows[store.seats[k].booking], now)) :: store.seats[k]
  }

  function NewBooking(req: HoldRequest, amount: int, now: Time): Booking {
    var expiresAt := now + HOLD_TTL_MS;
    Booking(req.user, req.showtime, amount, BookingStatus.Pending, None, expiresAt, None, None, None, None, None)
  }

  function NewSeats(id: Id, keys: set<SeatKey>, price: int): map<SeatKey, SeatRow> {
    map k | k in keys :: SeatRow(id, price)
  }

  function Priced(keys: set<SeatKey>, price: int): Snapshot {
    map k | k in keys :: price
  }

  /** The database part of a hold, after Redis granted the lock. */
  function Claim(store: Store, id: Id, req: HoldRequest, price: int, found: seq<ShowtimeSeat>, faults: Faults,
                 now: Time): HoldOutcome {
    if faults.save then HoldOutcome(StorageError, store)
    else
      var keys := Keys(req.showtime, found);
      var booking := NewBooking(req, |found| * price, now);
      var saved := store.(rows := store.rows[id := booking], locks := store.locks[id := keys]);
      var reaped := saved.(seats := if faults.reap then store.seats else Reaped(saved, keys, now));
      var clash := reaped.seats.Keys * keys != {};
      if clash || faults.insert then
        HoldOutcome(
          if clash then SeatConflict else StorageError,
          reaped.(rows := if faults.cleanup then reaped.rows else store.rows - {id}, locks := store.locks - {id}))
      else
        HoldOutcome(Held(booking, Priced(keys, price)), reaped.(seats := reaped.seats + NewSeats(id, keys, price)))
  }

  /** A None geometry stands for an unreachable cinema service, and id for the uuid the database would pick. */
  function Hold(store: Store, id: Id, req: HoldRequest, geometry: Option<Geometry>, lock: LockAnswer, faults: Faults,
                now: Time): HoldOutcome {
    if req.seatIds == [] then HoldOutcome(BadRequest, store)
    else
      var seatIds := Distinct(req.seatIds);
      if |seatIds| > MAX_SEATS_PER_HOLD then HoldOutcome(BadRequest, store)
      else if geometry.None? then HoldOutcome(SeatsUnavailable, store)
      else
        var valid := ValidateSeats(geometry.value, seatIds);
        if !valid.Valid? then HoldOutcome(SeatsUnavailable, store)
        else if lock.Down? then HoldOutcome(LockDown, store)
        else if lock.Taken? then HoldOutcome(LockTaken, store)
        else Claim(store, id, req, geometry.value.price, valid.seats, faults, now)
  }

  // What a store built by the handlers below always satisfies.

  /** Seat rows have a booking of the same showtime (foreign key), and a handle
      is kept only for a booking that can still be paid. */
  predicate Consistent(store: Store) {
    && (forall k :: k in store.seats ==>
        store.seats[k].booking in store.rows && store.rows[store.seats[k].booking].showtime == k.showtime)
    && (forall id :: id in store.locks ==> id in store.rows && R.Unpaid(store.rows[id]))
  }

  ghost predicate SameElsewhere(store: Store, after: Store, id: Id) {
    && (forall c :: c in store.rows ==> c in after.rows && after.rows[c] == store.rows[c])
    && (forall c :: c in after.rows ==> c in store.rows || c == id)
    && (forall c :: c != id ==> (c in after.locks <==> c in store.locks))
  }

  /** Seat rows only come from this hold and only go if their booking is dead. */
  predicate SeatsMove(store: Store, seats: map<SeatKey, SeatRow>, id: Id, now: Time) {
    && (forall k :: k in seats ==> seats[k].booking == id || (k in store.seats && seats[k] == store.seats[k]))
    && (forall k :: k in store.seats ==>
          || (k in seats && seats[k] == store.seats[k])
          || (store.seats[k].booking in store.rows && R.Reapable(store.rows[store.seats[k].booking], now)))
  }

  predicate SubMap(small: map<SeatKey, SeatRow>, large: map<SeatKey, SeatRow>) {
    forall k :: k in small ==> k in large && small[k] == large[k]
  }

  predicate Newborn(r: Booking, now: Time) {
    R.Unpaid(r) && r.reason.None? && r.confirmedAt.None? && r.ticketsIssuedAt.None? && r.expiresAt == now + HOLD_TTL_MS
  }

  /** Everything a hold can do to the store, whatever fails: add its own booking,
      and its own seats if it succeeds, and delete seat rows of dead bookings. */
  ghost predicate HoldShape(store: Store, id: Id, o: HoldOutcome, now: Time) {
    && SameElsewhere(store, o.store, id)
    && SeatsMove(store, o.store.seats, id, now)
    && (id in o.store.rows ==> Newborn(o.store.rows[id], now))
    && (o.result.Held? ==> id in o.store.rows && o.store.rows[id] == o.result.booking)
    && (!o.result.Held? ==> (id in o.store.locks ==> id in store.locks) && SubMap(o.store.seats, store.seats))
  }

  lemma ReapedMoves(store: Store, rows: map<Id, Booking>, id: Id, keys: set<SeatKey>, now: Time)
    requires Consistent(store) && id !in store.rows
    requires forall c :: c in store.rows ==> c in rows && rows[c] == store.rows[c]
    ensures SeatsMove(store, Reaped(store.(rows := rows), keys, now), id, now)
    ensures SubMap(Reaped(store.(rows := rows), keys, now), store.seats)
  {
  }

  lemma InsertMoves(store: Store, seats: map<SeatKey, SeatRow>, id: Id, keys: set<SeatKey>, price: int, now: Time)
    requires SeatsMove(store, seats, id, now) && SubMap(seats, store.seats) && seats.Keys * keys == {}
    ensures SeatsMove(store, seats + NewSeats(id, keys, price), id, now)
  {
    forall k | k in store.seats && k in keys
      ensures k !in seats
    {
      assert k in seats ==> k in seats.Keys * keys;
    }
  }

  lemma ClaimHasShape(store: Store, id: Id, req: HoldRequest, price: int, found: seq<ShowtimeSeat>, faults: Faults,
                      now: Time)
    requires Consistent(store) && id !in store.rows
    ensures HoldShape(store, id, Claim(store, id, req, price, found, faults, now), now)
  {
    if !faults.save {
      var keys := Keys(req.showtime, found);
      var rows := store.rows[id := NewBooking(req, |found| * price, now)];
      var saved := store.(rows := rows, locks := store.locks[id := keys]);
      ReapedMoves(store, rows, id, keys, now);
      assert Reaped(saved, keys, now) == Reaped(store.(rows := rows), keys, now);
      var seats := if faults.reap then store.seats else Reaped(saved, keys, now);
      if seats.Keys * keys == {} {
        InsertMoves(store, seats, id, keys, price, now);
      }
    }
  }

  lemma HoldHasShape(store: Store, id: Id, req: HoldRequest, geometry: Option<Geometry>, lock: LockAnswer,
                     faults: Faults, now: Time)
    requires Consistent(store) && id !in store.rows
    ensures HoldShape(store, id, Hold(store, id, req, geometry, lock, faults, now), now)
  {
    if geometry.Some? {
      var valid := ValidateSeats(geometry.value, Distinct(req.seatIds));
      if valid.Valid? {
        ClaimHasShape(store, id, req, geometry.value.price, valid.seats, faults, now);
      }
    }
  }

  lemma HoldConsistent(store: Store, id: Id, req: HoldRequest, geometry: Option<Geometry>, lock: LockAnswer,
                       faults: Faults, now: Time)
    requires Consistent(store) && id !in store.rows
    ensures Consistent(Hold(store, id, req, geometry, lock, faults, now).store)
  {
    if geometry.Some? && ValidateSeats(geometry.value, Distinct(req.seatIds)).Valid? {
      ClaimConsistent(store, id, req, geometry.value.price, ValidateSeats(geometry.value, Distinct(req.seatIds)).seats,
                      faults, now);
    }
  }

  lemma ClaimConsistent(store: Store, id: Id, req: HoldRequest, price: int, found: seq<ShowtimeSeat>, faults: Faults,
                        now: Time)
    requires Consistent(store) && id !in store.rows
    ensures Consistent(Claim(store, id, req, price, found, faults, now).store)
  {
  }

  /** Reaping touches only the seat rows of dead bookings. */
  lemma ReapSpares(store: Store, keys: set<SeatKey>, now: Time, k: SeatKey)
    requires k in store.seats && store.seats[k].booking in store.rows
    requires !R.Reapable(store.rows[store.seats[k].booking], now)
    ensures k in Reaped(store, keys, now) && Reaped(store, keys, now)[k] == store.seats[k]
  {
  }

  lemma FreshSnapshot(store: Store, id: Id, keys: set<SeatKey>, price: int)
    requires forall k :: k in store.seats ==> store.seats[k].booking != id
    ensures SnapshotOf(store.(seats := store.seats + NewSeats(id, keys, price)), id) == Priced(keys, price)
  {
  }

  lemma ClaimHeld(store: Store, id: Id, req: HoldRequest, price: int, found: seq<ShowtimeSeat>, faults: Faults,
                  now: Time)
    requires Consistent(store) && id !in store.rows && UniqueSeats(found)
    requires Claim(store, id, req, price, found, faults, now).result.Held?
    ensures var o := Claim(store, id, req, price, found, faults, now);
            && o.store.rows == store.rows[id := o.result.booking]
            && SnapshotOf(o.store, id) == o.result.snapshot == Priced(Keys(req.showtime, found), price)
            && o.result.booking.totalAmount == Total(o.result.snapshot)
            && |o.result.snapshot| == |found|
  {
    PricedTotal(req.showtime, found, price);
    ClaimSnapshot(store, id, req, price, found, faults, now);
  }

  lemma PricedTotal(showtime: Id, found: seq<ShowtimeSeat>, price: int)
    requires UniqueSeats(found)
    ensures var snapshot := Priced(Keys(showtime, found), price);
            |snapshot| == |found| && Total(snapshot) == |found| * price
  {
    var keys := Keys(showtime, found);
    KeyCount(showtime, found);
    FlatTotal(Priced(keys, price), price);
    assert Priced(keys, price).Keys == keys;
  }

  lemma ClaimSnapshot(store: Store, id: Id, req: HoldRequest, price: int, found: seq<ShowtimeSeat>, faults: Faults,
                      now: Time)
    requires Consistent(store) && id !in store.rows
    requires Claim(store, id, req, price, found, faults, now).result.Held?
    ensures var o := Claim(store, id, req, price, found, faults, now);
            && o.store.rows == store.rows[id := o.result.booking] && o.result.booking.totalAmount == |found| * price
            && SnapshotOf(o.store, id) == o.result.snapshot == Priced(Keys(req.showtime, found), price)
  {
    var o := Claim(store, id, req, price, found, faults, now);
    var keys := Keys(req.showtime, found);
    var before := if faults.reap then store.seats
        else Reaped(store.(rows := o.store.rows, locks := o.store.locks), keys, now);
    FreshSnapshot(o.store.(seats := before), id, keys, price);
  }

  lemma FoundKeys(showtime: Id, ids: seq<Id>, found: seq<ShowtimeSeat>)
    requires FoundIds(found) == IdSet(ids)
    ensures Keys(showtime, found) == set s | s in ids :: SeatKey(showtime, s)
  {
    forall s | s in ids
      ensures SeatKey(showtime, s) in Keys(showtime, found)
    {
      assert s in IdSet(ids);
      var seat :| seat in found && seat.id == s;
    }
    forall seat | seat in found
      ensures seat.id in ids
    {
      assert seat.id in FoundIds(found);
    }
  }

  /** A held booking is charged for exactly the distinct seats it asked for. */
  lemma HeldAmount(store: Store, id: Id, req: HoldRequest, geometry: Option<Geometry>, lock: LockAnswer, faults: Faults,
                   now: Time)
    requires Consistent(store) && id !in store.rows
    requires Hold(store, id, req, geometry, lock, faults, now).result.Held?
    ensures var o := Hold(store, id, req, geometry, lock, faults, now);
            && o.store.rows == store.rows[id := o.result.booking]
            && SnapshotOf(o.store, id) == o.result.snapshot
            && o.result.snapshot.Keys == (set s | s in req.seatIds :: SeatKey(req.showtime, s))
            && (forall s :: s in req.seatIds ==> ShowtimeSeat(s, false) in geometry.value.seats)
            && o.result.booking.totalAmount == Total(o.result.snapshot)
            && 0 < |o.result.snapshot| <= MAX_SEATS_PER_HOLD
  {
    var seatIds := Distinct(req.seatIds);
    DistinctIds(req.seatIds);
    ValidateSeatsExact(geometry.value, seatIds);
    var found := ValidateSeats(geometry.value, seatIds).seats;
    ClaimHeld(store, id, req, geometry.value.price, found, faults, now);
    FoundKeys(req.showtime, req.seatIds, found);
    assert req.seatIds[0] in IdSet(req.seatIds);
    forall s | s in req.seatIds
      ensures s in seatIds
    {
      assert s in IdSet(seatIds);
    }
  }
}

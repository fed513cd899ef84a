/** The one instant at which a seat that is shown as available cannot be held. */
module SeatDeadline {
  import opened SagaTypes
  import opened SeatValidation
  import opened BookingStore
  import opened Saga
  import opened SagaSafety
  import opened SagaWitness
  import V = SeatView

  const OTHER: HoldRequest := HoldRequest(5, 3, [4])

  lemma ShownAtDeadline(store: Store, now: Time)
    requires store == HeldState().store && now == HOLD_TTL_MS
    ensures V.AtDeadline(store, now, SEAT) && V.ShownAvailable(ROOM.seats, V.Availability(store, 3, now), 4)
  {
    V.ShownIsUnmarked(store, 3, ROOM, now, 4);
    assert ShowtimeSeat(4, false) in ROOM.seats;
  }

  /** It is reached: SagaWitness's customer has held the seat for exactly five minutes.
      Another one sees it as available, is granted the lock, and is refused although
      nothing fails; one millisecond later the same hold succeeds. */
  lemma DeadlineRefuses() returns (s: Sys)
    ensures Reachable(s) && 2 !in s.store.rows
    ensures V.ShownAvailable(ROOM.seats, V.Availability(s.store, OTHER.showtime, s.now), 4)
    ensures !Hold(s.store, 2, OTHER, Some(ROOM), Granted, V.HEALTHY, s.now).result.Held?
    ensures Hold(s.store, 2, OTHER, Some(ROOM), Granted, V.HEALTHY, s.now + 1).result.Held?
  {
    s := FiveMinutesLater();
    ShownAtDeadline(s.store, s.now);
    HoldableOrNot(s.store, s.now);
    HoldableOrNot(s.store, s.now + 1);
    ShownAfterDeadline(s.store, s.now + 1);
  }

  lemma FiveMinutesLater() returns (s: Sys)
    ensures Reachable(s) && s.store == HeldState().store && s.now == HOLD_TTL_MS
  {
    SeatIsHeld();
    var start := Init(0);
    assert Exec(start, []) == start;
    ReachableNext(start, PURCHASE[0]);
    ReachableNext(HeldState(), Tick(HOLD_TTL_MS));
    s := Next(HeldState(), Tick(HOLD_TTL_MS));
  }

  lemma ShownAfterDeadline(store: Store, now: Time)
    requires store == HeldState().store && now == HOLD_TTL_MS + 1
    ensures !V.AtDeadline(store, now, SEAT) && V.ShownAvailable(ROOM.seats, V.Availability(store, 3, now), 4)
  {
    V.ShownIsUnmarked(store, 3, ROOM, now, 4);
    assert ShowtimeSeat(4, false) in ROOM.seats;
  }

  /** For this request everything hangs on the one seat. */
  lemma HoldableOrNot(store: Store, now: Time)
    requires store == HeldState().store
    ensures Hold(store, 2, OTHER, Some(ROOM), Granted, V.HEALTHY, now).result.Held?
       <==> V.ShownAvailable(ROOM.seats, V.Availability(store, 3, now), 4) && !V.AtDeadline(store, now, SEAT)
  {
    assert IdSet([4]) == {4};
    V.AvailableMeansHoldable(store, 2, OTHER, ROOM, now);
    assert 4 in OTHER.seatIds;
  }
}

/** The gateway's seat map: geometry overlaid with the availability report. */
module GatewaySeatMap {
  import opened SagaTypes
  import opened SeatValidation
  import opened BookingStore
  import opened SeatLedger
  import opened SeatView

  datatype Line = Line(seat: Id, status: Occupied)

  /** The report lists each occupied seat once, in any order. */
  predicate Lists(report: seq<Line>, occupied: map<Id, Occupied>) {
    && (forall i, j :: 0 <= i < j < |report| ==> report[i].seat != report[j].seat)
    && (forall line :: line in report ==> line.seat in occupied && occupied[line.seat] == line.status)
    && (forall seat :: seat in occupied ==> Line(seat, occupied[seat]) in report)
  }

  /** Later lines of a report overwrite earlier ones. */
  function StatusBySeat(report: seq<Line>): map<Id, Occupied> {
    if report == [] then map[]
    else StatusBySeat(report[..|report| - 1])[report[|report| - 1].seat := report[|report| - 1].status]
  }

  /** None if booking-service cannot be reached: the map is then drawn without it. */
  method SeatMap(seats: seq<ShowtimeSeat>, availability: Option<seq<Line>>) returns (shown: seq<Display>)
    ensures |shown| == |seats|
    ensures forall i :: 0 <= i < |seats| ==> shown[i] == Overlaid(seats[i], StatusBySeat(availability.Or([])))
  {
    var report := availability.Or([]);
    var statusBySeat: map<Id, Occupied> := map[];
    for i := 0 to |report|
      invariant statusBySeat == StatusBySeat(report[..i])
    {
      statusBySeat := statusBySeat[report[i].seat := report[i].status];
      assert report[..i + 1][..i] == report[..i];
    }
    assert report[..|report|] == report;
    shown := seq(|seats|, i requires 0 <= i < |seats| => Overlaid(seats[i], statusBySeat));
  }

  lemma {:induction false} LinesOf(report: seq<Line>)
    requires forall i, j :: 0 <= i < j < |report| ==> report[i].seat != report[j].seat
    ensures forall line :: line in report ==>
              line.seat in StatusBySeat(report) && StatusBySeat(report)[line.seat] == line.status
    ensures forall seat :: seat in StatusBySeat(report) ==> Line(seat, StatusBySeat(report)[seat]) in report
  {
    if report != [] {
      var n := |report| - 1;
      LinesOf(report[..n]);
      assert report == report[..n] + [report[n]];
      assert forall line :: line in report[..n] ==> line.seat != report[n].seat;
    }
  }

  /** Whatever the order of the report, the map shows each seat as its owner has
      it, a disabled seat as booked, and everything as available if the report is
      missing. */
  lemma OverlayIsOrderFree(report: seq<Line>, occupied: map<Id, Occupied>)
    requires Lists(report, occupied)
    ensures StatusBySeat(report) == occupied
  {
    LinesOf(report);
    forall seat: Id
      ensures seat in StatusBySeat(report) <==> seat in occupied
      ensures seat in occupied ==> StatusBySeat(report)[seat] == occupied[seat]
    {
      assert seat in occupied ==> Line(seat, occupied[seat]).seat == seat;
    }
  }

  /** What customers are shown is the ledger: a seat is BOOKED exactly if it is
      disabled or sold, HELD exactly if it is held and its deadline has not come,
      and AVAILABLE otherwise. */
  lemma SeatMapShowsLedger(seat: ShowtimeSeat, report: seq<Line>, store: Store, showtime: Id, now: Time)
    requires Lists(report, Availability(store, showtime, now))
    ensures var shown := Overlaid(seat, StatusBySeat(report));
            var e := EntryAt(store, now, SeatKey(showtime, seat.id));
            && (shown.ShownBooked? <==> seat.isDisabled || e.Sold?)
            && (shown.ShownHeld? <==> !seat.isDisabled && e.OnHold? && now < e.deadline)
            && (shown.Available? <==> !seat.isDisabled && (e.Free? || (e.OnHold? && e.deadline <= now)))
  {
    OverlayIsOrderFree(report, Availability(store, showtime, now));
    AvailabilityShowsLedger(store, showtime, now, seat.id);
  }
}

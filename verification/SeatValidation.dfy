/** Which seats a hold request really asks for: distinct ids, checked against
    the showtime's geometry, priced per seat. */
module SeatValidation {
  import opened SagaTypes

  datatype ShowtimeSeat = ShowtimeSeat(id: Id, isDisabled: bool)
  datatype SeatMap = SeatMap(price: int, seats: seq<ShowtimeSeat>)
  datatype Validated = Valid(seats: seq<ShowtimeSeat>) | Disabled(seat: Id) | Missing(seat: Id)

  predicate UniqueSeats(seats: seq<ShowtimeSeat>) {
    forall i, j :: 0 <= i < j < |seats| ==> seats[i].id != seats[j].id
  }

  /** Seat ids are primary keys of the seats table. */
  type Geometry = m: SeatMap | UniqueSeats(m.seats) witness SeatMap(0, [])

  function IdSet(ids: seq<Id>): set<Id> {
    set s | s in ids
  }

  function FoundIds(seats: seq<ShowtimeSeat>): set<Id> {
    set s | s in seats :: s.id
  }

  /** The insertion-ordered distinct ids of a request. */
  function Distinct(ids: seq<Id>): seq<Id> {
    if ids == [] then []
    else
      var front := Distinct(ids[..|ids| - 1]);
      if ids[|ids| - 1] in front then front else front + [ids[|ids| - 1]]
  }

  function Enabled(seats: seq<ShowtimeSeat>, requested: set<Id>): seq<ShowtimeSeat> {
    if seats == [] then []
    else (if !seats[0].isDisabled && seats[0].id in requested then [seats[0]] else []) + Enabled(seats[1..], requested)
  }

  function FirstMissing(ids: seq<Id>, found: set<Id>): Option<Id> {
    if ids == [] then None
    else if ids[0] !in found then Some(ids[0])
    else FirstMissing(ids[1..], found)
  }

  function ValidateSeats(seatMap: SeatMap, ids: seq<Id>): Validated {
    var found := Enabled(seatMap.seats, IdSet(ids));
    match FirstMissing(ids, FoundIds(found))
    case None => Valid(found)
    case Some(sid) => if ShowtimeSeat(sid, true) in seatMap.seats then Disabled(sid) else Missing(sid)
  }

  function Keys(showtime: Id, seats: seq<ShowtimeSeat>): set<SeatKey> {
    set s | s in seats :: SeatKey(showtime, s.id)
  }

  ghost function Pick(snapshot: Snapshot): SeatKey
    requires snapshot != map[]
    ensures Pick(snapshot) in snapshot
  {
    var k :| k in snapshot;
    k
  }

  /** The sum of the prices in a snapshot, in any order. */
  ghost function Total(snapshot: Snapshot): int {
    if snapshot == map[] then 0
    else snapshot[Pick(snapshot)] + Total(snapshot - {Pick(snapshot)})
  }

  lemma {:induction false} DistinctIds(ids: seq<Id>)
    ensures IdSet(Distinct(ids)) == IdSet(ids)
    ensures |Distinct(ids)| == |IdSet(ids)|
    ensures forall i, j :: 0 <= i < j < |Distinct(ids)| ==> Distinct(ids)[i] != Distinct(ids)[j]
  {
    if ids != [] {
      var front, last := ids[..|ids| - 1], ids[|ids| - 1];
      DistinctIds(front);
      assert ids == front + [last];
      assert IdSet(ids) == IdSet(front) + {last};
      assert last in Distinct(front) <==> last in IdSet(Distinct(front));
      if last !in Distinct(front) {
        assert IdSet(Distinct(ids)) == IdSet(Distinct(front)) + {last};
      }
    }
  }

  lemma {:induction false} EnabledMembers(seats: seq<ShowtimeSeat>, requested: set<Id>)
    ensures forall s :: s in Enabled(seats, requested) <==> s in seats && !s.isDisabled && s.id in requested
    ensures UniqueSeats(seats) ==> UniqueSeats(Enabled(seats, requested))
  {
    if seats != [] {
      EnabledMembers(seats[1..], requested);
      assert seats == [seats[0]] + seats[1..];
      assert UniqueSeats(seats) ==> UniqueSeats(seats[1..]);
      assert UniqueSeats(seats) ==> forall s :: s in seats[1..] ==> s.id != seats[0].id;
    }
  }

  lemma {:induction false} FirstMissingFinds(ids: seq<Id>, found: set<Id>)
    ensures FirstMissing(ids, found).None? <==> forall i :: i in ids ==> i in found
    ensures FirstMissing(ids, found).Some? ==>
              FirstMissing(ids, found).value in ids && FirstMissing(ids, found).value !in found
  {
    if ids != [] {
      FirstMissingFinds(ids[1..], found);
      assert ids == [ids[0]] + ids[1..];
    }
  }

  lemma {:induction false} UniqueCount(seats: seq<ShowtimeSeat>)
    requires UniqueSeats(seats)
    ensures |FoundIds(seats)| == |seats|
  {
    if seats != [] {
      var front, last := seats[..|seats| - 1], seats[|seats| - 1];
      UniqueCount(front);
      assert seats == front + [last];
      assert FoundIds(seats) == FoundIds(front) + {last.id};
      assert last.id !in FoundIds(front);
    }
  }

  /** A request passes exactly when every id names an enabled seat of the
      showtime, and then the answer is those seats and no others, each once. */
  lemma ValidateSeatsExact(seatMap: SeatMap, ids: seq<Id>)
    requires UniqueSeats(seatMap.seats)
    ensures ValidateSeats(seatMap, ids).Valid? <==> forall i :: i in ids ==> ShowtimeSeat(i, false) in seatMap.seats
    ensures ValidateSeats(seatMap, ids).Valid? ==>
              var found := ValidateSeats(seatMap, ids).seats;
              UniqueSeats(found) && FoundIds(found) == IdSet(ids) && |found| == |IdSet(ids)|
    ensures ValidateSeats(seatMap, ids).Disabled? ==>
              ShowtimeSeat(ValidateSeats(seatMap, ids).seat, true) in seatMap.seats
    ensures ValidateSeats(seatMap, ids).Missing? ==>
              ValidateSeats(seatMap, ids).seat in ids && ValidateSeats(seatMap, ids).seat !in FoundIds(seatMap.seats)
  {
    var found := Enabled(seatMap.seats, IdSet(ids));
    EnabledMembers(seatMap.seats, IdSet(ids));
    FirstMissingFinds(ids, FoundIds(found));
    UniqueCount(found);
    forall i | i in ids
      ensures i in FoundIds(found) <==> ShowtimeSeat(i, false) in seatMap.seats
    {
      if i in FoundIds(found) {
        var s :| s in found && s.id == i;
        assert s == ShowtimeSeat(i, false);
      }
    }
    if ValidateSeats(seatMap, ids).Valid? {
      assert FoundIds(found) == IdSet(ids);
    } else {
      var sid := FirstMissing(ids, FoundIds(found)).value;
      if sid in FoundIds(seatMap.seats) {
        var s :| s in seatMap.seats && s.id == sid;
        assert s.isDisabled;
        assert s == ShowtimeSeat(sid, true);
      }
    }
  }

  /** The answer blames the first id of the request that names no enabled seat. */
  predicate Blames(seatMap: SeatMap, ids: seq<Id>, seat: Id) {
    exists j :: 0 <= j < |ids| && ids[j] == seat && ShowtimeSeat(seat, false) !in seatMap.seats
                && forall i :: 0 <= i < j ==> ShowtimeSeat(ids[i], false) in seatMap.seats
  }

  /** A request that does not pass names its first offender: as disabled if the
      showtime has it, and otherwise as missing. */
  lemma FirstOffender(seatMap: SeatMap, ids: seq<Id>)
    requires UniqueSeats(seatMap.seats) && !ValidateSeats(seatMap, ids).Valid?
    ensures var answer := ValidateSeats(seatMap, ids);
            && Blames(seatMap, ids, answer.seat)
            && (answer.Disabled? <==> answer.seat in FoundIds(seatMap.seats))
  {
    var found := Enabled(seatMap.seats, IdSet(ids));
    EnabledMembers(seatMap.seats, IdSet(ids));
    forall i | i in ids
      ensures i in FoundIds(found) <==> ShowtimeSeat(i, false) in seatMap.seats
    {
      if i in FoundIds(found) {
        var s :| s in found && s.id == i;
        assert s == ShowtimeSeat(i, false);
      }
    }
    FirstMissingIsFirst(ids, FoundIds(found));
    var seat := FirstMissing(ids, FoundIds(found)).value;
    if seat in FoundIds(seatMap.seats) {
      var s :| s in seatMap.seats && s.id == seat;
      assert s == ShowtimeSeat(seat, true) || s == ShowtimeSeat(seat, false);
    }
  }

  lemma {:induction false} FirstMissingIsFirst(ids: seq<Id>, found: set<Id>)
    requires FirstMissing(ids, found).Some?
    ensures exists j :: 0 <= j < |ids| && ids[j] == FirstMissing(ids, found).value && ids[j] !in found
                        && forall i :: 0 <= i < j ==> ids[i] in found
  {
    if ids[0] in found {
      FirstMissingIsFirst(ids[1..], found);
      var j :| 0 <= j < |ids[1..]| && ids[1..][j] == FirstMissing(ids, found).value && ids[1..][j] !in found
               && forall i :: 0 <= i < j ==> ids[1..][i] in found;
      assert forall i :: 0 < i < j + 1 ==> ids[i] == ids[1..][i - 1];
      assert ids[j + 1] == ids[1..][j];
    } else {
      assert ids[0] == FirstMissing(ids, found).value;
    }
  }

  lemma {:induction false} FlatTotal(snapshot: Snapshot, price: int)
    requires forall k :: k in snapshot ==> snapshot[k] == price
    ensures Total(snapshot) == |snapshot| * price
  {
    if snapshot != map[] {
      var k := Pick(snapshot);
      var rest := snapshot - {k};
      FlatTotal(rest, price);
      assert snapshot == rest[k := price];
      assert |snapshot| == |rest| + 1;
    }
  }

  lemma {:induction false} KeyCount(showtime: Id, seats: seq<ShowtimeSeat>)
    requires UniqueSeats(seats)
    ensures |Keys(showtime, seats)| == |seats|
  {
    if seats != [] {
      var front, last := seats[..|seats| - 1], seats[|seats| - 1];
      KeyCount(showtime, front);
      assert seats == front + [last];
      assert Keys(showtime, seats) == Keys(showtime, front) + {SeatKey(showtime, last.id)};
    }
  }
}

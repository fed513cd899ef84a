/** Both conditions of a safe settlement matter: concrete runs of two steps in which
    a lock lifetime or the deadline of a hold is overstepped. */
module TwoStepFailures {
  import opened SagaTypes
  import opened BookingStore
  import opened SeatLocks
  import opened TwoStepSettlement
  import R = BookingRules

  const SPOT: SeatKey := SeatKey(1, 1)

  function Hopeful(expiresAt: Time): Booking {
    Booking(1, 1, 50, BookingStatus.Pending, None, expiresAt, None, None, None, None, None)
  }

  lemma Then(w: World, run: seq<Step>, step: Step)
    ensures Exec(w, run + [step]) == Next(Exec(w, run), step)
    ensures TimelyRun(w, run + [step]) <==> TimelyRun(w, run) && Timely(Exec(w, run), step)
  {
    assert (run + [step])[..|run|] == run;
  }

  predicate Reaches(run: seq<Step>, w: World) {
    TimelyRun(Start(0), run) && Exec(Start(0), run) == w
  }

  /** Appends a timely step to a timely run. */
  lemma Extended(run: seq<Step>, w: World, step: Step) returns (longer: seq<Step>)
    requires Reaches(run, w) && Timely(w, step)
    ensures Reaches(longer, Next(w, step))
  {
    Then(Start(0), run, step);
    longer := run + [step];
  }

  lemma ExtendedTwice(run: seq<Step>, w: World, a: Step, b: Step) returns (longer: seq<Step>)
    requires Reaches(run, w) && Timely(w, a) && Timely(Next(w, a), b)
    ensures Reaches(longer, Next(Next(w, a), b))
  {
    longer := Extended(run, w, a);
    longer := Extended(longer, Next(w, a), b);
  }

  /** Granted the seat at this time, with its booking saved. */
  function Saved(now: Time, token: Token, id: Id, expiresAt: Time): World {
    World(now, map[SPOT := Lock(token, now + HOLD_TTL_MS)],
          Store(map[id := Hopeful(expiresAt)], map[], map[]),
          map[token := Attempt({SPOT}, now + HOLD_TTL_MS, Some(id), false)], map[])
  }

  lemma SavedRun(token: Token, id: Id, expiresAt: Time) returns (run: seq<Step>)
    ensures Reaches(run, Saved(0, token, id, expiresAt))
  {
    var start := Start(0);
    run := Extended([], start, Acquire(token, {SPOT}));
    var w := Next(start, Acquire(token, {SPOT}));
    assert w.table == map[SPOT := Lock(token, HOLD_TTL_MS)];
    run := Extended(run, w, Save(token, id, Hopeful(expiresAt)));
    assert Next(w, Save(token, id, Hopeful(expiresAt))) == Saved(0, token, id, expiresAt);
  }

  /** Booking 1 held the seat at time 0, and the process restarted before its expiry. */
  function Restarted(): World {
    World(HOLD_TTL_MS - 1, map[SPOT := Lock(8, HOLD_TTL_MS)],
          Store(map[1 := Hopeful(HOLD_TTL_MS)], map[SPOT := SeatRow(1, 50)], map[]), map[], map[])
  }

  lemma RestartedRun() returns (run: seq<Step>)
    ensures Reaches(run, Restarted())
  {
    run := SavedRun(8, 1, HOLD_TTL_MS);
    var w := Saved(0, 8, 1, HOLD_TTL_MS);
    assert w.store.seats.Keys * {SPOT} == {};
    run := Extended(run, w, Insert(8, 50));
    w := Next(w, Insert(8, 50));
    assert w.store.seats == map[SPOT := SeatRow(1, 50)];
    run := Extended(run, w, Restart);
    run := Extended(run, Next(w, Restart), Tick(HOLD_TTL_MS - 1));
    assert Next(Next(w, Restart), Tick(HOLD_TTL_MS - 1)) == Restarted();
  }

  /** The settlement found the keys in Redis; its deadline has just come, and
      somebody else has been granted the seat. */
  function Probed(): World {
    World(HOLD_TTL_MS + 1, map[SPOT := Lock(9, 2 * HOLD_TTL_MS + 1)], Restarted().store,
          map[9 := Attempt({SPOT}, 2 * HOLD_TTL_MS + 1, None, false)],
          map[1 := Settling(None, map[SPOT := 50], HOLD_TTL_MS + 1)])
  }

  /** The settlement right after its check. */
  function Checked(): World {
    Restarted().(settling := map[1 := Settling(None, map[SPOT := 50], HOLD_TTL_MS + 1)])
  }

  lemma ProbeChecks()
    ensures Next(Restarted(), CheckByProbe(1)) == Checked()
    ensures Next(Next(Checked(), Tick(2)), Acquire(9, {SPOT})) == Probed()
  {
    assert SnapshotOf(Restarted().store, 1) == map[SPOT := 50];
    assert SPOT in SnapshotOf(Restarted().store, 1);
  }

  lemma ProbedRun() returns (run: seq<Step>)
    ensures Reaches(run, Probed())
  {
    ProbeChecks();
    run := RestartedRun();
    run := Extended(run, Restarted(), CheckByProbe(1));
    run := ExtendedTwice(run, Checked(), Tick(2), Acquire(9, {SPOT}));
  }

  /** Without a handle the check covers less than a lock lifetime. A timely run
      reaches a settlement whose booking has lost its seat 1 ms after its expiry,
      so writing paidAt then makes a paid booking without seats. */
  lemma ProbeCoverEnds() returns (run: seq<Step>, w: World)
    ensures Reaches(run, w)
    ensures 1 in w.settling && w.settling[1].seats != map[] && w.now == w.settling[1].deadline
    ensures SnapshotOf(w.store, 1) == map[]
  {
    run := ProbedRun();
    var other := Save(9, 2, Hopeful(2 * HOLD_TTL_MS + 1));
    run := Extended(run, Probed(), other);
    w := Next(Probed(), other);
    run := Extended(run, w, Reap(9));
    w := Next(w, Reap(9));
    assert SPOT !in w.store.seats;
    assert SPOT in w.settling[1].seats;
  }

  /** A hold stalls after saving booking 2; then its lock runs out, and another
      customer is granted the seat for booking 1. */
  function Overtaken(): World {
    World(HOLD_TTL_MS, map[SPOT := Lock(8, 2 * HOLD_TTL_MS)],
          Store(map[1 := Hopeful(2 * HOLD_TTL_MS), 2 := Hopeful(HOLD_TTL_MS)], map[SPOT := SeatRow(1, 50)], map[]),
          map[7 := Attempt({SPOT}, HOLD_TTL_MS, Some(2), false), 8 := Attempt({SPOT}, 2 * HOLD_TTL_MS, Some(1), true)],
              map[])
  }

  function Granted(): World {
    World(HOLD_TTL_MS, map[SPOT := Lock(8, 2 * HOLD_TTL_MS)], Store(map[2 := Hopeful(HOLD_TTL_MS)], map[], map[]),
          map[7 := Attempt({SPOT}, HOLD_TTL_MS, Some(2), false), 8 := Attempt({SPOT}, 2 * HOLD_TTL_MS, None, false)],
              map[])
  }

  lemma GrantedSteps()
    ensures Next(Next(Saved(0, 7, 2, HOLD_TTL_MS), Tick(HOLD_TTL_MS)), Acquire(8, {SPOT})) == Granted()
  {
  }

  lemma OvertakenSteps()
    ensures Next(Next(Granted(), Save(8, 1, Hopeful(2 * HOLD_TTL_MS))), Insert(8, 50)) == Overtaken()
  {
    var w := Next(Granted(), Save(8, 1, Hopeful(2 * HOLD_TTL_MS)));
    assert w.store.rows == Overtaken().store.rows && w.store.seats == map[];
    assert w.attempts[8] == Attempt({SPOT}, 2 * HOLD_TTL_MS, Some(1), false);
    assert w.store.seats.Keys * {SPOT} == {};
  }

  lemma OvertakenRun() returns (run: seq<Step>)
    ensures Reaches(run, Overtaken())
  {
    GrantedSteps();
    OvertakenSteps();
    run := SavedRun(7, 2, HOLD_TTL_MS);
    run := ExtendedTwice(run, Saved(0, 7, 2, HOLD_TTL_MS), Tick(HOLD_TTL_MS), Acquire(8, {SPOT}));
    run := ExtendedTwice(run, Granted(), Save(8, 1, Hopeful(2 * HOLD_TTL_MS)), Insert(8, 50));
  }

  /** Booking 1 is being settled, well covered, 1 ms after its expiry. */
  function Protected(): World {
    Overtaken().(
      now := 2 * HOLD_TTL_MS + 1,
      table := map[SPOT := Lock(8, 3 * HOLD_TTL_MS - 1)],
      attempts := Overtaken().attempts[8 := Attempt({SPOT}, 3 * HOLD_TTL_MS - 1, Some(1), true)],
      settling := map[1 := Settling(Some(8), map[SPOT := 50], 3 * HOLD_TTL_MS - 1)])
  }

  lemma ProtectedSteps()
    ensures var late := Overtaken().(now := 2 * HOLD_TTL_MS - 1);
            && Next(Overtaken(), Tick(HOLD_TTL_MS - 1)) == late
            && Next(Next(late, CheckByHandle(1, 8)), Tick(2)) == Protected()
  {
    var late := Overtaken().(now := 2 * HOLD_TTL_MS - 1);
    assert SnapshotOf(late.store, 1) == map[SPOT := 50];
    assert OwnsAll(late.table, {SPOT}, 8, late.now);
  }

  lemma ProtectedRun() returns (run: seq<Step>)
    ensures Reaches(run, Protected())
  {
    ProtectedSteps();
    run := OvertakenRun();
    run := Extended(run, Overtaken(), Tick(HOLD_TTL_MS - 1));
    run := ExtendedTwice(run, Overtaken().(now := 2 * HOLD_TTL_MS - 1), CheckByHandle(1, 8), Tick(2));
  }

  /** A hold that stalls past its own lock and then reaps takes the seat from
      under a settlement that did everything right. */
  lemma LateReapBreaks(paidAt: Time) returns (run: seq<Step>, w: World)
    ensures Reaches(run, w)
    ensures var t := Next(Next(w, Reap(7)), WritePaid(1, paidAt));
            && 1 in w.settling && w.now < w.settling[1].deadline
            && !Timely(w, Reap(7)) && Timely(Next(w, Reap(7)), WritePaid(1, paidAt))
            && 1 in t.store.rows && R.Owns(t.store.rows[1]) && SnapshotOf(t.store, 1) == map[]
  {
    run := ProtectedRun();
    w := Protected();
    assert SPOT !in Next(w, Reap(7)).store.seats;
  }
}

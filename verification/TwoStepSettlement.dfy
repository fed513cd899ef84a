/** Settling a payment is two steps, checking that the hold is live and writing
    paidAt, and other holds and other settlements run in between. This machine has
    the locks, the clock and the three writes of every hold as separate steps. */
module TwoStepSettlement {
  import opened SagaTypes
  import opened BookingStore
  import opened SeatLocks
  import R = BookingRules

  /** One call of hold that was granted its keys: the booking it saved, if it
      got that far, and whether its seat rows are in. */
  datatype Attempt = Attempt(keys: set<SeatKey>, until: Time, booking: Option<Id>, done: bool)

  /** A settlement between its two steps: the lock it extended, if it had a
      handle, the seats it then had, and the instant at which its cover ends. */
  datatype Settling = Settling(token: Option<Token>, seats: Snapshot, deadline: Time)

  datatype World = World(
    now: Time,
    table: LockTable,
    store: Store,
    attempts: map<Token, Attempt>,
    settling: map<Id, Settling>)

  datatype Step =
    | Tick(d: nat)
    | Acquire(token: Token, keys: set<SeatKey>)
    | Save(token: Token, id: Id, row: Booking)
    | Reap(token: Token)
    | Insert(token: Token, price: int)
    | Abandon(token: Token)
    | Restart
    | Rewrite(id: Id, row: Booking)
    | CheckByHandle(id: Id, token: Token)
    | CheckByProbe(id: Id)
    | WritePaid(id: Id, paidAt: Time)

  function AcquireNext(w: World, token: Token, keys: set<SeatKey>): World {
    if token in w.attempts || !AllFree(w.table, keys, w.now) then w
    else w.(table := Locked(w.table, keys, token, w.now + HOLD_TTL_MS),
            attempts := w.attempts[token := Attempt(keys, w.now + HOLD_TTL_MS, None, false)])
  }

  function SaveNext(w: World, token: Token, id: Id, row: Booking): World
    requires token in w.attempts
  {
    var a := w.attempts[token];
    if a.booking.Some? || id in w.store.rows || !R.Unpaid(row) then w
    else w.(store := w.store.(rows := w.store.rows[id := row]),
            attempts := w.attempts[token := a.(booking := Some(id))])
  }

  function ReapNext(w: World, token: Token): World
    requires token in w.attempts
  {
    var a := w.attempts[token];
    if a.booking.None? || a.done then w
    else w.(store := w.store.(seats := Reaped(w.store, a.keys, w.now)))
  }

  function InsertNext(w: World, token: Token, price: int): World
    requires token in w.attempts
  {
    var a := w.attempts[token];
    if a.booking.None? || a.done || w.store.seats.Keys * a.keys != {} then w
    else w.(store := w.store.(seats := w.store.seats + NewSeats(a.booking.value, a.keys, price)),
            attempts := w.attempts[token := a.(done := true)])
  }

  /** A failed hold, or a handler that is finished with the booking, lets go. */
  function AbandonNext(w: World, token: Token): World
    requires token in w.attempts
  {
    w.(table := Unlocked(w.table, w.attempts[token].keys, token), attempts := w.attempts - {token})
  }

  predicate Checkable(w: World, id: Id) {
    id !in w.settling && id in w.store.rows && R.Unpaid(w.store.rows[id]) && w.now < w.store.rows[id].expiresAt
  }

  /** This replica has a lock handle for the booking in memory. */
  predicate Handled(w: World, id: Id) {
    exists t :: t in w.attempts && w.attempts[t].booking == Some(id)
  }

  /** isHoldLive with the handle in memory: extend it, and go on if that worked. */
  function HandleNext(w: World, id: Id, token: Token): World
    requires token in w.attempts
  {
    var a, until := w.attempts[token], w.now + HOLD_TTL_MS;
    if !Checkable(w, id) || a.booking != Some(id) || !a.done || !OwnsAll(w.table, a.keys, token, w.now) then w
    else w.(table := Locked(w.table, a.keys, token, until),
            attempts := w.attempts[token := a.(until := until)],
            settling := w.settling[id := Settling(Some(token), SnapshotOf(w.store, id), until)])
  }

  /** isHoldLive without one, after a restart: all seat keys exist, whoever they belong to. */
  function ProbeNext(w: World, id: Id): World {
    var seats := SnapshotOf(w.store, id);
    if !Checkable(w, id) || Handled(w, id) || seats == map[] || exists k ::
        k in seats && FreeAt(w.table, k, w.now) then w
    else w.(settling := w.settling[id := Settling(None, seats, w.store.rows[id].expiresAt + 1)])
  }

  function PaidNext(w: World, id: Id, paidAt: Time): World
    requires id in w.settling && id in w.store.rows
  {
    w.(store := w.store.(rows := w.store.rows[id := w.store.rows[id].(paidAt := Some(paidAt))]),
       settling := w.settling - {id})
  }

  predicate ByAttempt(step: Step) {
    step.Save? || step.Reap? || step.Insert? || step.Abandon? || step.CheckByHandle?
  }

  function AttemptNext(w: World, step: Step): World
    requires ByAttempt(step) && step.token in w.attempts
  {
    match step
    case Save(token, id, row) => SaveNext(w, token, id, row)
    case Reap(token) => ReapNext(w, token)
    case Insert(token, price) => InsertNext(w, token, price)
    case Abandon(token) => AbandonNext(w, token)
    case CheckByHandle(id, token) => HandleNext(w, id, token)
  }

  function Next(w: World, step: Step): World {
    if ByAttempt(step) then if step.token in w.attempts then AttemptNext(w, step) else w
    else
      match step
      case Tick(d) => w.(now := w.now + d)
      case Restart => w.(attempts := map[], settling := map[])
      case Acquire(token, keys) => AcquireNext(w, token, keys)
      case Rewrite(id, row) =>
        if id in w.store.rows then w.(store := w.store.(rows := w.store.rows[id := row])) else w
      case CheckByProbe(id) => ProbeNext(w, id)
      case WritePaid(id, paidAt) =>
        if id in w.settling && id in w.store.rows then PaidNext(w, id, paidAt) else w
  }

  /** What the code takes for granted: nobody else works on a booking that is being
      settled, and every guarded write lands while its lock is still good. */
  predicate Timely(w: World, step: Step) {
    match step
    case Rewrite(id, _) => id !in w.settling
    case Abandon(token) => forall id :: id in w.settling ==> w.settling[id].token != Some(token)
    case Reap(token) => token in w.attempts ==> w.now < w.attempts[token].until
    case WritePaid(id, _) => id in w.settling ==> w.now < w.settling[id].deadline
    case _ => true
  }

  function Start(now: Time): World {
    World(now, map[], Store(map[], map[], map[]), map[], map[])
  }

  function Exec(w: World, run: seq<Step>): World {
    if run == [] then w else Next(Exec(w, run[..|run| - 1]), run[|run| - 1])
  }

  predicate TimelyRun(w: World, run: seq<Step>) {
    run == [] || (TimelyRun(w, run[..|run| - 1]) && Timely(Exec(w, run[..|run| - 1]), run[|run| - 1]))
  }

  // The invariant.

  /** Lock mutual exclusion: while an attempt is in time, its keys carry its token. */
  predicate LocksInv(w: World) {
    forall t, k :: t in w.attempts && k in w.attempts[t].keys && w.now < w.attempts[t].until ==>
      k in w.table && w.table[k] == Lock(t, w.attempts[t].until)
  }

  function Owner(w: World, k: SeatKey): Option<Id>
    requires k in w.store.seats
  {
    Some(w.store.seats[k].booking)
  }

  predicate SeatsBelong(w: World) {
    && (forall k :: k in w.store.seats ==> w.store.seats[k].booking in w.store.rows)
    && (forall t :: t in w.attempts && w.attempts[t].booking.Some? ==> w.attempts[t].booking.value in w.store.rows)
    && (forall t, k :: t in w.attempts && k in w.store.seats && Owner(w, k) == w.attempts[t].booking ==>
          k in w.attempts[t].keys)
  }

  predicate OneAttemptEach(w: World) {
    forall t, u :: t in w.attempts && u in w.attempts && w.attempts[t].booking == w.attempts[u].booking ==>
      t == u || w.attempts[t].booking.None?
  }

  /** A settlement in flight: its booking is unpaid, its lock is its own, and as long
      as it is covered it has the seats it had at the check. */
  predicate Covered(w: World, id: Id)
    requires id in w.settling
  {
    var s := w.settling[id];
    && id in w.store.rows && R.Unpaid(w.store.rows[id])
    && (s.token.None? ==> s.deadline == w.store.rows[id].expiresAt + 1 && !Handled(w, id))
    && (s.token.Some? ==>
          && s.token.value in w.attempts && w.attempts[s.token.value].done
          && w.attempts[s.token.value].booking == Some(id)
          && w.attempts[s.token.value].until == s.deadline
          && s.seats.Keys <= w.attempts[s.token.value].keys)
    && (w.now < s.deadline ==> SnapshotOf(w.store, id) == s.seats)
  }

  predicate Tables(w: World) {
    LocksInv(w) && SeatsBelong(w) && OneAttemptEach(w)
  }

  predicate Inv(w: World) {
    Tables(w) && forall id :: id in w.settling ==> Covered(w, id)
  }

  // Tables.

  lemma InsertTables(w: World, token: Token, price: int)
    requires Tables(w) && token in w.attempts
    ensures Tables(InsertNext(w, token, price))
  {
    InsertBelongs(w, token, price);
    var n := InsertNext(w, token, price);
    assert forall t :: t in n.attempts ==>
             t in w.attempts && n.attempts[t] == w.attempts[t].(done := n.attempts[t].done);
  }

  lemma InsertBelongs(w: World, token: Token, price: int)
    requires SeatsBelong(w) && OneAttemptEach(w) && token in w.attempts
    ensures SeatsBelong(InsertNext(w, token, price))
  {
  }

  lemma HandleTables(w: World, id: Id, token: Token)
    requires Tables(w) && token in w.attempts
    ensures Tables(HandleNext(w, id, token))
  {
  }

  lemma AbandonTables(w: World, token: Token)
    requires Tables(w) && token in w.attempts
    ensures Tables(AbandonNext(w, token))
  {
    var n, keys := AbandonNext(w, token), w.attempts[token].keys;
    forall t, k | t in n.attempts && k in n.attempts[t].keys && n.now < n.attempts[t].until
      ensures k in n.table && n.table[k] == Lock(t, n.attempts[t].until)
    {
      assert w.table[k].token == t;
    }
  }

  lemma AttemptTables(w: World, step: Step)
    requires Tables(w) && ByAttempt(step) && step.token in w.attempts
    ensures Tables(AttemptNext(w, step))
  {
    match step
    case Save(token, id, row) =>
    case Reap(token) =>
    case Insert(token, price) => InsertTables(w, token, price);
    case Abandon(token) => AbandonTables(w, token);
    case CheckByHandle(id, token) => HandleTables(w, id, token);
  }

  lemma StepTables(w: World, step: Step)
    requires Tables(w)
    ensures Tables(Next(w, step))
  {
    if ByAttempt(step) {
      if step.token in w.attempts {
        AttemptTables(w, step);
      }
    } else if step.Acquire? {
      AcquireTables(w, step.token, step.keys);
    }
  }

  lemma AcquireTables(w: World, token: Token, keys: set<SeatKey>)
    requires Tables(w)
    ensures Tables(AcquireNext(w, token, keys))
  {
  }

  // Settlements in flight, one by one.

  /** No timely reap of anybody touches a seat of a booking being settled. */
  lemma ReapSparesSettling(w: World, token: Token, id: Id)
    requires Tables(w) && token in w.attempts && !w.attempts[token].done && w.now < w.attempts[token].until
    requires id in w.settling && Covered(w, id) && w.now < w.settling[id].deadline
    ensures SnapshotOf(ReapNext(w, token).store, id) == w.settling[id].seats
  {
    var s, a, after := w.settling[id], w.attempts[token], ReapNext(w, token).store;
    forall k | k in SnapshotOf(w.store, id)
      ensures k in after.seats && after.seats[k] == w.store.seats[k]
    {
      assert k in a.keys ==> k in w.table && w.table[k].token == token;
      assert s.token.Some? ==> k in s.seats.Keys && w.table[k].token == s.token.value != token;
    }
    assert SnapshotOf(after, id) == SnapshotOf(w.store, id);
  }

  lemma ReapCovered(w: World, token: Token, id: Id)
    requires Tables(w) && token in w.attempts && w.now < w.attempts[token].until
    requires id in w.settling && Covered(w, id)
    ensures Covered(ReapNext(w, token), id)
  {
    if ReapNext(w, token) != w && w.now < w.settling[id].deadline {
      ReapSparesSettling(w, token, id);
    }
  }

  lemma SaveCovered(w: World, token: Token, newborn: Id, row: Booking, id: Id)
    requires token in w.attempts && id in w.settling && Covered(w, id)
    ensures Covered(SaveNext(w, token, newborn, row), id)
  {
    assert SnapshotOf(SaveNext(w, token, newborn, row).store, id) == SnapshotOf(w.store, id);
  }

  lemma InsertSparesOthers(w: World, token: Token, price: int, id: Id)
    requires token in w.attempts && w.attempts[token].booking != Some(id)
    ensures SnapshotOf(InsertNext(w, token, price).store, id) == SnapshotOf(w.store, id)
  {
    var n, a := InsertNext(w, token, price), w.attempts[token];
    if n != w {
      assert forall k :: k in a.keys && k in w.store.seats ==> k in w.store.seats.Keys * a.keys;
    }
  }

  lemma InsertCovered(w: World, token: Token, price: int, id: Id)
    requires OneAttemptEach(w) && token in w.attempts && id in w.settling && Covered(w, id)
    ensures Covered(InsertNext(w, token, price), id)
  {
    if InsertNext(w, token, price) != w {
      assert w.attempts[token].booking != Some(id);
      InsertSparesOthers(w, token, price, id);
    }
  }

  lemma AbandonCovered(w: World, token: Token, id: Id)
    requires token in w.attempts && id in w.settling && Covered(w, id) && w.settling[id].token != Some(token)
    ensures Covered(AbandonNext(w, token), id)
  {
  }

  lemma HandleCovered(w: World, other: Id, token: Token, id: Id)
    requires Tables(w) && token in w.attempts && id in HandleNext(w, other, token).settling
    requires id in w.settling ==> Covered(w, id)
    ensures Covered(HandleNext(w, other, token), id)
  {
    assert w.attempts[token].booking == Some(id) ==> SnapshotOf(w.store, id).Keys <= w.attempts[token].keys;
  }

  lemma AttemptCovered(w: World, step: Step, id: Id)
    requires Inv(w) && Timely(w, step) && ByAttempt(step) && step.token in w.attempts
    requires id in AttemptNext(w, step).settling
    ensures Covered(AttemptNext(w, step), id)
  {
    match step
    case Save(token, newborn, row) => SaveCovered(w, token, newborn, row, id);
    case Reap(token) => ReapCovered(w, token, id);
    case Insert(token, price) => InsertCovered(w, token, price, id);
    case Abandon(token) => AbandonCovered(w, token, id);
    case CheckByHandle(other, token) => HandleCovered(w, other, token, id);
  }

  lemma StepInv(w: World, step: Step)
    requires Inv(w) && Timely(w, step)
    ensures Inv(Next(w, step))
  {
    StepTables(w, step);
    forall id | id in Next(w, step).settling
      ensures Covered(Next(w, step), id)
    {
      if ByAttempt(step) {
        if step.token in w.attempts {
          AttemptCovered(w, step, id);
        }
      } else {
        OtherCovered(w, step, id);
      }
    }
  }

  lemma OtherCovered(w: World, step: Step, id: Id)
    requires Inv(w) && Timely(w, step) && !ByAttempt(step) && id in Next(w, step).settling
    ensures Covered(Next(w, step), id)
  {
    assert id in w.settling ==> Covered(w, id);
    if step.CheckByProbe? {
      ProbeCovered(w, step.id, id);
    } else {
      assert SnapshotOf(Next(w, step).store, id) == SnapshotOf(w.store, id);
    }
  }

  lemma ProbeCovered(w: World, other: Id, id: Id)
    requires id in ProbeNext(w, other).settling && (id in w.settling ==> Covered(w, id))
    ensures Covered(ProbeNext(w, other), id)
  {
  }

  lemma {:induction false} RunInv(now: Time, run: seq<Step>)
    requires TimelyRun(Start(now), run)
    ensures Inv(Exec(Start(now), run))
  {
    if run != [] {
      RunInv(now, run[..|run| - 1]);
      StepInv(Exec(Start(now), run[..|run| - 1]), run[|run| - 1]);
    }
  }

  /** Some timely run leads here. */
  ghost predicate Timed(w: World) {
    exists now: Time, run: seq<Step> :: TimelyRun(Start(now), run) && w == Exec(Start(now), run)
  }

  lemma TimedInv(w: World)
    requires Timed(w)
    ensures Inv(w)
  {
    var now: Time, run: seq<Step> :| TimelyRun(Start(now), run) && w == Exec(Start(now), run);
    RunInv(now, run);
  }

  /** From its check until its deadline, however long the run and whatever the other
      holds and settlements do, a settlement's booking is unpaid and keeps the very
      seats it had at the check; and writing paidAt then makes it own them. */
  lemma SettlementIsSafe(w: World, id: Id, paidAt: Time)
    requires Timed(w) && id in w.settling && w.now < w.settling[id].deadline
    ensures id in w.store.rows && R.Unpaid(w.store.rows[id]) && SnapshotOf(w.store, id) == w.settling[id].seats
    ensures var t := Next(w, WritePaid(id, paidAt));
            && id in t.store.rows && R.Owns(t.store.rows[id])
            && SnapshotOf(t.store, id) == w.settling[id].seats
  {
    TimedInv(w);
    assert Covered(w, id);
  }

  /** Two covered settlements at once never have a seat in common. */
  lemma SettlementsAreApart(w: World, a: Id, b: Id)
    requires Timed(w) && a != b && a in w.settling && b in w.settling
    requires w.now < w.settling[a].deadline && w.now < w.settling[b].deadline
    ensures w.settling[a].seats.Keys * w.settling[b].seats.Keys == {}
  {
    TimedInv(w);
    assert Covered(w, a) && Covered(w, b);
  }

  /** Neither the settlement's own write nor a crash. */
  predicate LeavesOpen(run: seq<Step>, id: Id) {
    forall i :: 0 <= i < |run| ==> !run[i].Restart? && !(run[i].WritePaid? && run[i].id == id)
  }

  lemma {:induction false} StaysOpen(w: World, run: seq<Step>, id: Id)
    requires Inv(w) && id in w.settling && TimelyRun(w, run) && LeavesOpen(run, id)
    ensures Inv(Exec(w, run)) && id in Exec(w, run).settling && Exec(w, run).settling[id] == w.settling[id]
  {
    if run != [] {
      StaysOpen(w, run[..|run| - 1], id);
      StepInv(Exec(w, run[..|run| - 1]), run[|run| - 1]);
    }
  }

  /** The handle is there, the lock can be extended: the check says yes. */
  predicate Passes(w: World, id: Id, token: Token) {
    id !in w.settling && id in Next(w, CheckByHandle(id, token)).settling
  }

  /** What a check with a handle is worth, from any state that timely runs reach and
      through any timely run after it: for a whole lock lifetime the booking keeps
      all the seats it had, and no hold that asks for one of them gets its lock. */
  lemma CoverOfCheck(w: World, id: Id, token: Token, run: seq<Step>, keys: set<SeatKey>)
    requires Timed(w) && Passes(w, id, token)
    requires TimelyRun(Next(w, CheckByHandle(id, token)), run) && LeavesOpen(run, id)
    ensures var u := Exec(Next(w, CheckByHandle(id, token)), run);
            u.now < w.now + HOLD_TTL_MS ==>
              && SnapshotOf(u.store, id) == SnapshotOf(w.store, id)
              && (SnapshotOf(w.store, id).Keys * keys != {} ==> !AllFree(u.table, keys, u.now))
  {
    TimedInv(w);
    var t := Next(w, CheckByHandle(id, token));
    StepInv(w, CheckByHandle(id, token));
    assert t.settling[id] == Settling(Some(token), SnapshotOf(w.store, id), w.now + HOLD_TTL_MS);
    StaysOpen(t, run, id);
    KeepsOut(Exec(t, run), id, keys);
  }

  lemma KeepsOut(w: World, id: Id, keys: set<SeatKey>)
    requires Inv(w) && id in w.settling && w.settling[id].token.Some?
    ensures w.now < w.settling[id].deadline ==> SnapshotOf(w.store, id) == w.settling[id].seats
    ensures w.now < w.settling[id].deadline && w.settling[id].seats.Keys * keys != {} ==> !AllFree(w.table, keys, w.now)
  {
    assert Covered(w, id);
    if w.now < w.settling[id].deadline && w.settling[id].seats.Keys * keys != {} {
      var k :| k in w.settling[id].seats.Keys * keys;
      assert w.table[k] == Lock(w.settling[id].token.value, w.settling[id].deadline);
      assert !FreeAt(w.table, k, w.now);
    }
  }
}

/** Scheduling: a windowed query that stands in for a scan of the whole
    schedule, and the overlaps it is meant to keep out. */
module Showtimes {
  import opened SagaTypes

  const OVERLAP_WINDOW_MIN: int := 240
  const MINUTE: nat := 60_000

  datatype Showtime = Showtime(theater: Id, movie: Id, startsAt: Time, price: int)
  type Schedule = map<Id, Showtime>

  /** Movie durations in minutes, and the theaters that exist. */
  datatype Catalog = Catalog(durations: map<Id, int>, theaters: set<Id>)

  function EndOf(start: Time, minutes: int): Time {
    start + minutes * MINUTE
  }

  /** Half-open intervals. */
  predicate Overlaps(aStart: Time, aEnd: Time, bStart: Time, bEnd: Time) {
    aStart < bEnd && bStart < aEnd
  }

  predicate KnownMovies(cat: Catalog, schedule: Schedule) {
    forall id :: id in schedule ==> schedule[id].movie in cat.durations
  }

  function End(cat: Catalog, s: Showtime): Time
    requires s.movie in cat.durations
  {
    EndOf(s.startsAt, cat.durations[s.movie])
  }

  predicate Clash(cat: Catalog, a: Showtime, b: Showtime)
    requires a.movie in cat.durations && b.movie in cat.durations
  {
    a.theater == b.theater && Overlaps(a.startsAt, End(cat, a), b.startsAt, End(cat, b))
  }

  /** Some other showtime of the theater overlaps s: the scan of everything. */
  predicate Blocked(cat: Catalog, schedule: Schedule, exclude: Option<Id>, s: Showtime)
    requires KnownMovies(cat, schedule) && s.movie in cat.durations
  {
    exists c :: c in schedule && Some(c) != exclude && Clash(cat, s, schedule[c])
  }

  /** The rows the query returns: those starting at most 240 minutes earlier. */
  function Candidates(cat: Catalog, schedule: Schedule, s: Showtime): set<Id>
    requires s.movie in cat.durations
  {
    set c | c in schedule && schedule[c].theater == s.theater
            && EndOf(s.startsAt, -OVERLAP_WINDOW_MIN) <= schedule[c].startsAt <= End(cat, s)
  }

  predicate Rejected(cat: Catalog, schedule: Schedule, exclude: Option<Id>, s: Showtime)
    requires KnownMovies(cat, schedule) && s.movie in cat.durations
  {
    exists c :: c in Candidates(cat, schedule, s) && Some(c) != exclude
                && Overlaps(s.startsAt, End(cat, s), schedule[c].startsAt, End(cat, schedule[c]))
  }

  // The three commands.

  datatype Change = Change(movie: Option<Id>, theater: Option<Id>, startsAt: Option<Time>, price: Option<int>)

  datatype Command =
    | Create(id: Id, showtime: Showtime)
    | Update(id: Id, change: Change)
    | Remove(id: Id)

  datatype Answer = Saved | MovieNotFound | ShowtimeNotFound | Overlapping | StorageError
  datatype Outcome = Outcome(answer: Answer, schedule: Schedule)

  function Changed(s: Showtime, c: Change): Showtime {
    Showtime(c.theater.Or(s.theater), c.movie.Or(s.movie), c.startsAt.Or(s.startsAt), c.price.Or(s.price))
  }

  /** The commands that run the overlap check. */
  predicate Checks(c: Command) {
    c.Create? || (c.Update? && (c.change.startsAt.Some? || c.change.movie.Some?))
  }

  /** The database refuses a theater that does not exist. */
  function Store(cat: Catalog, schedule: Schedule, id: Id, s: Showtime): Outcome {
    if s.theater !in cat.theaters then Outcome(StorageError, schedule) else Outcome(Saved, schedule[id := s])
  }

  function Run(cat: Catalog, schedule: Schedule, c: Command): Outcome
    requires KnownMovies(cat, schedule)
  {
    match c
    case Create(id, s) =>
      if s.movie !in cat.durations then Outcome(MovieNotFound, schedule)
      else if Rejected(cat, schedule, None, s) then Outcome(Overlapping, schedule)
      else Store(cat, schedule, id, s)
    case Update(id, change) =>
      if id !in schedule then Outcome(ShowtimeNotFound, schedule)
      else
        var s := Changed(schedule[id], change);
        if s.movie !in cat.durations then Outcome(MovieNotFound, schedule)
        else if Checks(c) && Rejected(cat, schedule, Some(id), s) then Outcome(Overlapping, schedule)
        else Store(cat, schedule, id, s)
    case Remove(id) =>
      if id !in schedule then Outcome(ShowtimeNotFound, schedule) else Outcome(Saved, schedule - {id})
  }

  class ShowtimesService {
    const cat: Catalog
    var schedule: Schedule

    ghost predicate Valid()
      reads this
    {
      KnownMovies(cat, schedule)
    }

    constructor (catalog: Catalog)
      ensures Valid() && cat == catalog && schedule == map[]
    {
      cat, schedule := catalog, map[];
    }

    method FindOverlap(exclude: Option<Id>, s: Showtime) returns (found: bool)
      requires Valid() && s.movie in cat.durations
      ensures found == Rejected(cat, schedule, exclude, s)
    {
      var newEnd := End(cat, s);
      var candidates := Candidates(cat, schedule, s);
      found := false;
      var rest := candidates;
      while rest != {} && !found
        invariant rest <= candidates
        invariant found ==> Rejected(cat, schedule, exclude, s)
        invariant !found ==> forall c :: c in candidates - rest && Some(c) != exclude ==>
                               !Overlaps(s.startsAt, newEnd, schedule[c].startsAt, End(cat, schedule[c]))
        decreases |rest|
      {
        var c :| c in rest;
        rest := rest - {c};
        if Some(c) != exclude {
          found := Overlaps(s.startsAt, newEnd, schedule[c].startsAt, End(cat, schedule[c]));
        }
      }
    }

    method Save(id: Id, s: Showtime) returns (answer: Answer)
      requires Valid() && s.movie in cat.durations
      modifies this
      ensures Valid() && Outcome(answer, schedule) == Store(cat, old(schedule), id, s)
    {
      if s.theater !in cat.theaters {
        return StorageError;
      }
      schedule := schedule[id := s];
      return Saved;
    }

    method Create(id: Id, s: Showtime) returns (answer: Answer)
      requires Valid()
      modifies this
      ensures Valid() && Outcome(answer, schedule) == Run(cat, old(schedule), Command.Create(id, s))
    {
      if s.movie !in cat.durations {
        return MovieNotFound;
      }
      var overlap := FindOverlap(None, s);
      if overlap {
        return Overlapping;
      }
      answer := Save(id, s);
    }

    method Update(id: Id, change: Change) returns (answer: Answer)
      requires Valid()
      modifies this
      ensures Valid() && Outcome(answer, schedule) == Run(cat, old(schedule), Command.Update(id, change))
    {
      if id !in schedule {
        return ShowtimeNotFound;
      }
      var showtime := schedule[id];
      var movie := change.movie.Or(showtime.movie);
      if movie !in cat.durations {
        return MovieNotFound;
      }
      if change.startsAt.Some? || change.movie.Some? {
        var wanted := Showtime(change.theater.Or(showtime.theater), movie, change.startsAt.Or(showtime.startsAt),
                               showtime.price);
        var overlap := FindOverlap(Some(id), wanted);
        PriceIsIrrelevant(cat, schedule, Some(id), wanted, Changed(showtime, change));
        if overlap {
          return Overlapping;
        }
      }
      if change.movie.Some? { showtime := showtime.(movie := change.movie.value); }
      if change.theater.Some? { showtime := showtime.(theater := change.theater.value); }
      if change.startsAt.Some? { showtime := showtime.(startsAt := change.startsAt.value); }
      if change.price.Some? { showtime := showtime.(price := change.price.value); }
      answer := Save(id, showtime);
    }

    method Remove(id: Id) returns (answer: Answer)
      requires Valid()
      modifies this
      ensures Valid() && Outcome(answer, schedule) == Run(cat, old(schedule), Command.Remove(id))
    {
      if id !in schedule {
        return ShowtimeNotFound;
      }
      schedule := schedule - {id};
      return Saved;
    }
  }

  lemma PriceIsIrrelevant(cat: Catalog, schedule: Schedule, exclude: Option<Id>, a: Showtime, b: Showtime)
    requires KnownMovies(cat, schedule) && a.movie in cat.durations && b == a.(price := b.price)
    ensures Rejected(cat, schedule, exclude, a) <==> Rejected(cat, schedule, exclude, b)
  {
    assert Candidates(cat, schedule, a) == Candidates(cat, schedule, b);
  }

  // What each command does to the schedule, and exactly when it is refused.

  /** No other showtime changes. */
  predicate SameBut(before: Schedule, after: Schedule, id: Id) {
    after - {id} == before - {id}
  }

  /** Each supplied field is written, each other one kept. */
  predicate Amended(before: Showtime, c: Change, after: Showtime) {
    && after.theater == (if c.theater.Some? then c.theater.value else before.theater)
    && after.movie == (if c.movie.Some? then c.movie.value else before.movie)
    && after.startsAt == (if c.startsAt.Some? then c.startsAt.value else before.startsAt)
    && after.price == (if c.price.Some? then c.price.value else before.price)
  }

  /** Another showtime of the theater that starts at most four hours earlier overlaps s. */
  predicate Occupied(cat: Catalog, schedule: Schedule, exclude: Option<Id>, s: Showtime)
    requires KnownMovies(cat, schedule) && s.movie in cat.durations
  {
    exists c :: c in schedule && Some(c) != exclude && schedule[c].startsAt >= s.startsAt - 4 * 60 * MINUTE
                && Clash(cat, s, schedule[c])
  }

  lemma RejectedIsOccupied(cat: Catalog, schedule: Schedule, exclude: Option<Id>, s: Showtime)
    requires KnownMovies(cat, schedule) && s.movie in cat.durations
    ensures Rejected(cat, schedule, exclude, s) <==> Occupied(cat, schedule, exclude, s)
  {
    forall c | c in schedule && Clash(cat, s, schedule[c])
      ensures c in Candidates(cat, schedule, s) <==> schedule[c].startsAt >= s.startsAt - 4 * 60 * MINUTE
    {
    }
  }

  /** Creating stores the showtime as given, unless its movie is unknown, its time is
      taken or its theater does not exist, in this order. */
  lemma CreateDecides(cat: Catalog, schedule: Schedule, id: Id, s: Showtime)
    requires KnownMovies(cat, schedule)
    ensures var o, known := Run(cat, schedule, Create(id, s)), s.movie in cat.durations;
            && (o.answer.MovieNotFound? <==> !known)
            && (o.answer.Overlapping? <==> known && Occupied(cat, schedule, None, s))
            && (o.answer.StorageError? <==>
                known && !Occupied(cat, schedule, None, s) && s.theater !in cat.theaters)
            && !o.answer.ShowtimeNotFound?
            && (if o.answer.Saved? then
                  id in o.schedule && o.schedule[id] == s && SameBut(schedule, o.schedule, id)
                else o.schedule == schedule)
  {
    if s.movie in cat.durations {
      RejectedIsOccupied(cat, schedule, None, s);
    }
  }

  /** Updating writes each supplied field of the one showtime and nothing else. The
      showtime as it would become, n, must have a known movie and an existing theater;
      whether its time is taken is asked only if its start or its movie is supplied. */
  lemma UpdateDecides(cat: Catalog, schedule: Schedule, id: Id, change: Change, n: Showtime)
    requires KnownMovies(cat, schedule) && (id in schedule ==> Amended(schedule[id], change, n))
    ensures var o, known := Run(cat, schedule, Update(id, change)), id in schedule && n.movie in cat.durations;
            var taken := known && (change.startsAt.Some? || change.movie.Some?) &&
                         Occupied(cat, schedule, Some(id), n);
            && (o.answer.ShowtimeNotFound? <==> id !in schedule)
            && (o.answer.MovieNotFound? <==> id in schedule && n.movie !in cat.durations)
            && (o.answer.Overlapping? <==> taken)
            && (o.answer.StorageError? <==> known && !taken && n.theater !in cat.theaters)
            && (if o.answer.Saved? then
                  id in o.schedule && o.schedule[id] == n && SameBut(schedule, o.schedule, id)
                else o.schedule == schedule)
  {
    if id in schedule && n.movie in cat.durations {
      RejectedIsOccupied(cat, schedule, Some(id), n);
      assert Changed(schedule[id], change) == n;
    }
  }

  /** After removing a showtime it is gone and all others are as they were. */
  lemma RemoveDecides(cat: Catalog, schedule: Schedule, id: Id)
    requires KnownMovies(cat, schedule)
    ensures var o := Run(cat, schedule, Remove(id));
            && id !in o.schedule && SameBut(schedule, o.schedule, id)
            && o.answer == if id in schedule then Saved else ShowtimeNotFound
  {
  }

  // The window against the full scan.

  predicate ShortFilms(cat: Catalog) {
    forall m :: m in cat.durations ==> cat.durations[m] <= OVERLAP_WINDOW_MIN
  }

  /** The query finds exactly the clashes that start inside its window; it wrongly
      accepts exactly when every clash starts before it. */
  lemma WindowMisses(cat: Catalog, schedule: Schedule, exclude: Option<Id>, s: Showtime)
    requires KnownMovies(cat, schedule) && s.movie in cat.durations
    ensures Rejected(cat, schedule, exclude, s) ==> Blocked(cat, schedule, exclude, s)
    ensures Blocked(cat, schedule, exclude, s) && !Rejected(cat, schedule, exclude, s)
       <==> Blocked(cat, schedule, exclude, s)
            && forall c :: c in schedule && Some(c) != exclude && Clash(cat, s, schedule[c]) ==>
                 schedule[c].startsAt < EndOf(s.startsAt, -OVERLAP_WINDOW_MIN)
  {
    forall c | c in schedule && Some(c) != exclude && Clash(cat, s, schedule[c])
      ensures c in Candidates(cat, schedule, s) <==> EndOf(s.startsAt, -OVERLAP_WINDOW_MIN) <= schedule[c].startsAt
    {
    }
  }

  lemma WindowSuffices(cat: Catalog, schedule: Schedule, exclude: Option<Id>, s: Showtime)
    requires KnownMovies(cat, schedule) && s.movie in cat.durations && ShortFilms(cat)
    ensures Rejected(cat, schedule, exclude, s) <==> Blocked(cat, schedule, exclude, s)
  {
    WindowMisses(cat, schedule, exclude, s);
  }

  /** The instant just before the window of a showtime at time 0. */
  const TOO_EARLY: Time := EndOf(0, -OVERLAP_WINDOW_MIN) - 1

  /** A film longer than the window: its showing runs into time 0 unseen. */
  lemma LongFilmIsMissed(cat: Catalog, film: Id)
    requires film in cat.durations && cat.durations[film] > OVERLAP_WINDOW_MIN
    ensures var schedule, s := map[1 := Showtime(1, film, TOO_EARLY, 0)], Showtime(1, film, 0, 0);
            KnownMovies(cat, schedule) && Blocked(cat, schedule, None, s) && !Rejected(cat, schedule, None, s)
  {
    var schedule, s := map[1 := Showtime(1, film, TOO_EARLY, 0)], Showtime(1, film, 0, 0);
    assert 1 in schedule && Clash(cat, s, schedule[1]);
  }

  ghost predicate WindowIsExact(cat: Catalog) {
    forall schedule: Schedule, exclude: Option<Id>, s: Showtime ::
        KnownMovies(cat, schedule) && s.movie in cat.durations ==>
      (Rejected(cat, schedule, exclude, s) <==> Blocked(cat, schedule, exclude, s))
  }

  /** The windowed query equals the full scan on every schedule exactly when no
      film in the catalog lasts longer than 240 minutes. */
  lemma WindowExactness(cat: Catalog)
    ensures WindowIsExact(cat) <==> ShortFilms(cat)
  {
    if ShortFilms(cat) {
      forall schedule: Schedule, exclude: Option<Id>, s: Showtime
        | KnownMovies(cat, schedule) && s.movie in cat.durations
        ensures Rejected(cat, schedule, exclude, s) <==> Blocked(cat, schedule, exclude, s)
      {
        WindowSuffices(cat, schedule, exclude, s);
      }
    } else {
      var film :| film in cat.durations && cat.durations[film] > OVERLAP_WINDOW_MIN;
      LongFilmIsMissed(cat, film);
    }
  }

  // Schedules over whole runs.

  predicate Disjoint(cat: Catalog, schedule: Schedule)
    requires KnownMovies(cat, schedule)
  {
    forall a, b :: a in schedule && b in schedule && a != b ==> !Clash(cat, schedule[a], schedule[b])
  }

  /** Whatever the command, an accepted one leaves a disjoint schedule disjoint
      exactly when the showtime it wrote clashes with no other. */
  lemma AcceptedExactly(cat: Catalog, schedule: Schedule, c: Command)
    requires KnownMovies(cat, schedule) && Disjoint(cat, schedule)
    requires c.Create? ==> c.id !in schedule
    ensures var after := Run(cat, schedule, c).schedule;
            && KnownMovies(cat, after)
            && (Disjoint(cat, after) <==>
                  Run(cat, schedule, c).answer.Saved? && !c.Remove? ==>
                      !Blocked(cat, schedule, Some(c.id), after[c.id]))
  {
    var after := Run(cat, schedule, c).schedule;
    if Run(cat, schedule, c).answer.Saved? && !c.Remove? {
      var s := after[c.id];
      assert after == schedule[c.id := s];
      if Blocked(cat, schedule, Some(c.id), s) {
        var b :| b in schedule && Some(b) != Some(c.id) && Clash(cat, s, schedule[b]);
        assert Clash(cat, after[c.id], after[b]);
      }
    }
  }

  function Exec(cat: Catalog, commands: seq<Command>): (schedule: Schedule)
    ensures KnownMovies(cat, schedule)
  {
    if commands == [] then map[]
    else Run(cat, Exec(cat, commands[..|commands| - 1]), commands[|commands| - 1]).schedule
  }

  /** Fresh ids for new showtimes, and no change of theater alone. */
  predicate Orderly(cat: Catalog, commands: seq<Command>) {
    commands == [] ||
    var front, last := commands[..|commands| - 1], commands[|commands| - 1];
    && Orderly(cat, front)
    && (last.Create? ==> last.id !in Exec(cat, front))
    && (last.Update? && last.change.theater.Some? ==> Checks(last))
  }

  lemma StepDisjoint(cat: Catalog, schedule: Schedule, c: Command)
    requires KnownMovies(cat, schedule) && Disjoint(cat, schedule) && ShortFilms(cat)
    requires c.Create? ==> c.id !in schedule
    requires c.Update? && c.change.theater.Some? ==> Checks(c)
    ensures var after := Run(cat, schedule, c).schedule; KnownMovies(cat, after) && Disjoint(cat, after)
  {
    AcceptedExactly(cat, schedule, c);
    var after := Run(cat, schedule, c).schedule;
    if Run(cat, schedule, c).answer.Saved? && !c.Remove? {
      if c.Create? {
        WindowSuffices(cat, schedule, None, c.showtime);
      } else if Checks(c) {
        WindowSuffices(cat, schedule, Some(c.id), after[c.id]);
      } else {
        assert after[c.id] == schedule[c.id].(price := after[c.id].price);
        assert forall b :: b in schedule && b != c.id ==> !Clash(cat, schedule[c.id], schedule[b]);
      }
    }
  }

  /** With films of at most 240 minutes, creating, removing and rescheduling in
      any order never puts two showtimes of a theater on top of each other. */
  lemma {:induction false} SchedulesStayDisjoint(cat: Catalog, commands: seq<Command>)
    requires ShortFilms(cat) && Orderly(cat, commands)
    ensures Disjoint(cat, Exec(cat, commands))
  {
    if commands != [] {
      SchedulesStayDisjoint(cat, commands[..|commands| - 1]);
      StepDisjoint(cat, Exec(cat, commands[..|commands| - 1]), commands[|commands| - 1]);
    }
  }

  /** Moving a showtime to another theater is not checked: it is always saved,
      also on top of one that plays there. */
  lemma MoveIsUnchecked(cat: Catalog, schedule: Schedule, id: Id, theater: Id)
    requires KnownMovies(cat, schedule) && Disjoint(cat, schedule) && id in schedule && theater in cat.theaters
    ensures var o := Run(cat, schedule, Update(id, Change(None, Some(theater), None, None)));
            && o.answer.Saved? && KnownMovies(cat, o.schedule) && o.schedule[id] == schedule[id].(theater := theater)
            && (Disjoint(cat, o.schedule) <==> !Blocked(cat, schedule, Some(id), schedule[id].(theater := theater)))
  {
    AcceptedExactly(cat, schedule, Update(id, Change(None, Some(theater), None, None)));
  }

  const TWO_HOURS: Catalog := Catalog(map[1 := 120], {1, 2})

  lemma MoveOverlaps()
    ensures var commands := [Create(1, Showtime(1, 1, 0, 0)), Create(2, Showtime(2, 1, 0, 0)),
                             Update(2, Change(None, Some(1), None, None))];
            ShortFilms(TWO_HOURS) && !Disjoint(TWO_HOURS, Exec(TWO_HOURS, commands))
  {
    var a, b, c := Create(1, Showtime(1, 1, 0, 0)), Create(2, Showtime(2, 1, 0, 0)),
        Update(2, Change(None, Some(1), None, None));
    assert [a, b, c][..2] == [a, b] && [a, b][..1] == [a] && [a][..0] == [];
    assert Exec(TWO_HOURS, []) == map[];
    var one := Exec(TWO_HOURS, [a]);
    assert one == Run(TWO_HOURS, map[], a).schedule;
    assert one == map[1 := Showtime(1, 1, 0, 0)];
    var two := Exec(TWO_HOURS, [a, b]);
    assert two == one[2 := Showtime(2, 1, 0, 0)];
    var after := Exec(TWO_HOURS, [a, b, c]);
    assert after == two[2 := Showtime(1, 1, 0, 0)];
    assert 1 in after && 2 in after && Clash(TWO_HOURS, after[1], after[2]);
  }
}

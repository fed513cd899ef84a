/** The ticket service as an object: its table, the read, write and re-read of
    issuing against a concurrent writer, and its consumer of booking events. */
module TicketService {
  import opened SagaTypes
  import opened TicketRules

  datatype IssueResult = Issued(rows: map<SeatKey, Code>) | SeatsRequired | IssueFailed
  datatype IssueOutcome = IssueOutcome(result: IssueResult, tickets: Tickets)

  function Written(id: Id, rows: map<SeatKey, Code>): Tickets {
    map k | k in rows :: TicketKey(id, k) := rows[k]
  }

  function Coded(seats: set<SeatKey>, codes: SeatKey -> Code): map<SeatKey, Code> {
    map k | k in seats :: codes(k)
  }

  predicate Violates(tickets: Tickets, id: Id, seats: set<SeatKey>) {
    exists k :: k in seats && TicketKey(id, k) in tickets
  }

  /** Issuing while another replay of the same message may write its rows between
      the read and the save; rival is what it writes, empty if there is none. */
  function IssueAgainst(tickets: Tickets, id: Id, seats: set<SeatKey>, codes: SeatKey -> Code,
                        rival: map<SeatKey, Code>): IssueOutcome {
    if seats == {} then IssueOutcome(SeatsRequired, tickets)
    else if Has(tickets, id) then IssueOutcome(Issued(TicketsOf(tickets, id)), tickets)
    else
      var raced := tickets + Written(id, rival);
      if Violates(raced, id, seats) then IssueOutcome(Issued(TicketsOf(raced, id)), raced)
      else
        var saved := raced + Fresh(id, seats, codes);
        IssueOutcome(Issued(Coded(seats, codes)), saved)
  }

  /** What the consumer says when the tickets of this confirmation are there. */
  function Said(e: Event): Event
    requires e.BookingConfirmed?
  {
    TicketsIssued(e.booking, e.showtime, e.seats, e.amount, e.confirmedAt)
  }

  class TicketsService {
    var tickets: Tickets
    var published: seq<Event>

    constructor ()
      ensures tickets == map[] && published == []
    {
      tickets, published := map[], [];
    }

    method FindByBooking(id: Id) returns (rows: map<SeatKey, Code>)
      ensures rows == TicketsOf(tickets, id)
    {
      rows := TicketsOf(tickets, id);
    }

    /** The transaction of one save: all rows, or none and a violation of UNIQUE (booking, seat). */
    method Save(id: Id, seats: set<SeatKey>, codes: SeatKey -> Code) returns (violation: bool)
      modifies this`tickets
      ensures violation == Violates(old(tickets), id, seats)
      ensures tickets == if violation then old(tickets) else old(tickets) + Fresh(id, seats, codes)
    {
      var before := tickets;
      var rows := tickets;
      var rest, done := seats, {};
      while rest != {}
        invariant rest * done == {} && rest + done == seats && tickets == before
        invariant forall k :: k in done ==> TicketKey(id, k) !in before
        invariant rows == before + Fresh(id, done, codes)
        decreases |rest|
      {
        var k :| k in rest;
        if TicketKey(id, k) in before {
          return true;
        }
        OneMoreTicket(before, id, done, k, codes);
        rows := rows[TicketKey(id, k) := codes(k)];
        rest, done := rest - {k}, done + {k};
      }
      assert done == seats;
      tickets := rows;
      return false;
    }

    method Issue(id: Id, seats: set<SeatKey>, codes: SeatKey -> Code, rival: map<SeatKey, Code>)
      returns (result: IssueResult)
      modifies this`tickets
      ensures IssueOutcome(result, tickets) == IssueAgainst(old(tickets), id, seats, codes, rival)
    {
      if seats == {} {
        return SeatsRequired;
      }
      var existing := FindByBooking(id);
      HasIsNonEmpty(tickets, id);
      if existing != map[] {
        return Issued(existing);
      }
      tickets := tickets + Written(id, rival);
      var violation := Save(id, seats, codes);
      if violation {
        var raced := FindByBooking(id);
        RivalSeen(tickets, id, seats);
        return if raced != map[] then Issued(raced) else IssueFailed;
      }
      return Issued(Coded(seats, codes));
    }

    method Void(id: Id)
      modifies this`tickets
      ensures tickets == TicketRules.Void(old(tickets), id)
    {
      tickets := TicketRules.Void(tickets, id);
    }

    /** booking.confirmed: issue, then say so; an error is thrown before anything is said. */
    method OnConfirmed(e: Event, codes: SeatKey -> Code, rival: map<SeatKey, Code>) returns (thrown: bool)
      requires e.BookingConfirmed?
      modifies this
      ensures thrown == (e.seats == map[])
      ensures tickets == IssueAgainst(old(tickets), e.booking, e.seats.Keys, codes, rival).tickets
      ensures published == old(published) + if thrown then [] else [Said(e)]
    {
      assert e.seats == map[] <==> e.seats.Keys == {};
      var result := Issue(e.booking, e.seats.Keys, codes, rival);
      if !result.Issued? {
        return true;
      }
      published := published + [Said(e)];
      return false;
    }

    /** booking.refunded, booking.cancelled and booking.expired. */
    method OnEnded(id: Id)
      modifies this
      ensures TicketsOf(tickets, id) == map[]
      ensures forall c :: c != id ==> TicketsOf(tickets, c) == TicketsOf(old(tickets), c)
      ensures tickets == TicketRules.Void(old(tickets), id) && published == old(published) + [TicketsVoided(id)]
    {
      VoidClears(tickets, id);
      Void(id);
      published := published + [TicketsVoided(id)];
    }
  }

  lemma OneMoreTicket(before: Tickets, id: Id, done: set<SeatKey>, k: SeatKey, codes: SeatKey -> Code)
    ensures (before + Fresh(id, done, codes))[TicketKey(id, k) := codes(k)] == before + Fresh(id, done + {k}, codes)
  {
  }

  /** A violation means that somebody's rows are there to be returned. */
  lemma RivalSeen(tickets: Tickets, id: Id, seats: set<SeatKey>)
    requires Violates(tickets, id, seats)
    ensures TicketsOf(tickets, id) != map[]
  {
    var k :| k in seats && TicketKey(id, k) in tickets;
    assert TicketKey(id, k).seat in TicketsOf(tickets, id);
  }

  /** booking.confirmed after the end of the booking: it finds no ticket to return, so
      it issues a full set of new ones, which only another end event takes away. */
  lemma VoidThenIssue(tickets: Tickets, id: Id, seats: set<SeatKey>, codes: SeatKey -> Code)
    requires seats != {}
    ensures var o := IssueAgainst(Void(tickets, id), id, seats, codes, map[]);
            && o.result == Issued(Coded(seats, codes)) && TicketsOf(o.tickets, id) == Coded(seats, codes)
            && TicketsOf(Void(o.tickets, id), id) == map[]
            && forall c :: c != id ==> TicketsOf(Void(o.tickets, id), c) == TicketsOf(tickets, c)
  {
    var voided := Void(tickets, id);
    var o := IssueAgainst(voided, id, seats, codes, map[]);
    VoidClears(tickets, id);
    HasIsNonEmpty(voided, id);
    RaceIsHarmless(voided, id, seats, codes, map[]);
    NoRival(voided, id, seats, codes);
    VoidClears(o.tickets, id);
  }

  /** Without a rival this is the issuing of TicketRules. */
  lemma AloneIsIssue(tickets: Tickets, id: Id, seats: set<SeatKey>, codes: SeatKey -> Code)
    requires seats != {}
    ensures IssueAgainst(tickets, id, seats, codes, map[]).tickets == Issue(tickets, id, seats, codes)
  {
    assert tickets + Written(id, map[]) == tickets;
  }

  lemma NoRival(tickets: Tickets, id: Id, seats: set<SeatKey>, codes: SeatKey -> Code)
    requires seats != {} && !Has(tickets, id)
    ensures IssueAgainst(tickets, id, seats, codes, map[])
         == IssueOutcome(Issued(Coded(seats, codes)), tickets + Written(id, Coded(seats, codes)))
  {
    assert tickets + Written(id, map[]) == tickets;
    assert Fresh(id, seats, codes) == Written(id, Coded(seats, codes));
    assert !Violates(tickets, id, seats);
  }

  lemma RivalWins(tickets: Tickets, id: Id, seats: set<SeatKey>, codes: SeatKey -> Code, rival: map<SeatKey, Code>)
    requires seats != {} && rival.Keys == seats && !Has(tickets, id)
    ensures IssueAgainst(tickets, id, seats, codes, rival)
         == IssueOutcome(Issued(TicketsOf(tickets + Written(id, rival), id)), tickets + Written(id, rival))
  {
    var k :| k in seats;
    assert TicketKey(id, k) in tickets + Written(id, rival);
  }

  /** The race is harmless. If the other replay writes the rows of the same
      seats, the one that loses returns the winner's tickets; either way what is
      returned is what is stored, one ticket per seat, all from one writer. */
  lemma RaceIsHarmless(tickets: Tickets, id: Id, seats: set<SeatKey>, codes: SeatKey -> Code, rival: map<SeatKey, Code>)
    requires seats != {} && (rival == map[] || rival.Keys == seats)
    ensures var o := IssueAgainst(tickets, id, seats, codes, rival);
            && o.result == Issued(TicketsOf(o.tickets, id))
            && (Has(tickets, id) ==> o.tickets == tickets)
            && (!Has(tickets, id) ==> TicketsOf(o.tickets, id) == if rival == map[] then Coded(seats, codes) else rival)
            && forall c :: c != id ==> TicketsOf(o.tickets, c) == TicketsOf(tickets, c)
  {
    if !Has(tickets, id) {
      if rival == map[] {
        NoRival(tickets, id, seats, codes);
        NewRows(tickets, id, Coded(seats, codes));
      } else {
        RivalWins(tickets, id, seats, codes, rival);
        NewRows(tickets, id, rival);
      }
    }
  }

  lemma NewRows(tickets: Tickets, id: Id, rows: map<SeatKey, Code>)
    requires !Has(tickets, id)
    ensures TicketsOf(tickets + Written(id, rows), id) == rows
    ensures forall c :: c != id ==> TicketsOf(tickets + Written(id, rows), c) == TicketsOf(tickets, c)
  {
    OwnRows(tickets, id, rows);
    forall c | c != id
      ensures TicketsOf(tickets + Written(id, rows), c) == TicketsOf(tickets, c)
    {
      OthersRows(tickets, id, rows, c);
    }
  }

  lemma OwnRows(tickets: Tickets, id: Id, rows: map<SeatKey, Code>)
    requires !Has(tickets, id)
    ensures TicketsOf(tickets + Written(id, rows), id) == rows
  {
    var after := tickets + Written(id, rows);
    forall k
      ensures TicketKey(id, k) in after <==> k in rows
      ensures k in rows ==> after[TicketKey(id, k)] == rows[k]
    {
      assert TicketKey(id, k) in tickets ==> Has(tickets, id);
    }
  }

  lemma OthersRows(tickets: Tickets, id: Id, rows: map<SeatKey, Code>, c: Id)
    requires c != id
    ensures TicketsOf(tickets + Written(id, rows), c) == TicketsOf(tickets, c)
  {
    var after := tickets + Written(id, rows);
    forall k
      ensures TicketKey(c, k) in after <==> TicketKey(c, k) in tickets
      ensures TicketKey(c, k) in tickets ==> after[TicketKey(c, k)] == tickets[TicketKey(c, k)]
    {
    }
  }
}

/** The tickets table, keyed by its UNIQUE (booking, seat) index, and what
    issuing and voiding do to it. */
module TicketRules {
  import opened SagaTypes

  type Tickets = map<TicketKey, Code>

  /** The tickets of one booking: seat to code. */
  function TicketsOf(tickets: Tickets, id: Id): map<SeatKey, Code> {
    map t | t in tickets && t.booking == id :: t.seat := tickets[t]
  }

  predicate Has(tickets: Tickets, id: Id) {
    exists t :: t in tickets && t.booking == id
  }

  function Fresh(id: Id, seats: set<SeatKey>, codes: SeatKey -> Code): Tickets {
    map k | k in seats :: TicketKey(id, k) := codes(k)
  }

  /** Issue for a non-empty seat list, without a concurrent writer. */
  function Issue(tickets: Tickets, id: Id, seats: set<SeatKey>, codes: SeatKey -> Code): Tickets {
    if Has(tickets, id) then tickets else tickets + Fresh(id, seats, codes)
  }

  function Void(tickets: Tickets, id: Id): Tickets {
    map t | t in tickets && t.booking != id :: tickets[t]
  }

  lemma IssueCovers(tickets: Tickets, id: Id, seats: set<SeatKey>, codes: SeatKey -> Code)
    ensures Has(tickets, id) ==> Issue(tickets, id, seats, codes) == tickets
    ensures !Has(tickets, id) ==> TicketsOf(Issue(tickets, id, seats, codes), id) == map k | k in seats :: codes(k)
    ensures forall c :: c != id ==> TicketsOf(Issue(tickets, id, seats, codes), c) == TicketsOf(tickets, c)
  {
    var after := Issue(tickets, id, seats, codes);
    if !Has(tickets, id) {
      forall k | k in seats
        ensures k in TicketsOf(after, id)
      {
        assert TicketKey(id, k) in after;
      }
    }
    forall c | c != id
      ensures TicketsOf(after, c) == TicketsOf(tickets, c)
    {
      forall k | k in TicketsOf(tickets, c)
        ensures k in TicketsOf(after, c) && TicketsOf(after, c)[k] == TicketsOf(tickets, c)[k]
      {
        assert TicketKey(c, k) in tickets && TicketKey(c, k) in after;
      }
    }
  }

  lemma VoidClears(tickets: Tickets, id: Id)
    ensures TicketsOf(Void(tickets, id), id) == map[]
    ensures forall c :: c != id ==> TicketsOf(Void(tickets, id), c) == TicketsOf(tickets, c)
  {
    forall c | c != id
      ensures TicketsOf(Void(tickets, id), c) == TicketsOf(tickets, c)
    {
      forall k | k in TicketsOf(tickets, c)
        ensures k in TicketsOf(Void(tickets, id), c) && TicketsOf(Void(tickets, id), c)[k] == TicketsOf(tickets, c)[k]
      {
        assert TicketKey(c, k) in Void(tickets, id);
      }
    }
  }

  lemma HasIsNonEmpty(tickets: Tickets, id: Id)
    ensures Has(tickets, id) <==> TicketsOf(tickets, id) != map[]
  {
    forall t | t in tickets && t.booking == id
      ensures t.seat in TicketsOf(tickets, id)
    {
    }
    if TicketsOf(tickets, id) != map[] {
      var k :| k in TicketsOf(tickets, id);
      assert TicketKey(id, k) in tickets;
    }
  }
}

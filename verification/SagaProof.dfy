/** The invariant holds in every reachable state. A step changes the state of
    one booking and appends facts about that booking only, so each step is
    proved for its own booking and framed away from all others. */
module SagaProof {
  import opened SagaTypes
  import opened BookingStore
  import opened Saga
  import opened SagaInvariant
  import R = BookingRules

  // Queues and histories.

  lemma RoutesKeepEvent(e: Event)
    ensures forall m :: m in Route(e) ==> m.event == e
  {
  }

  lemma RoutedAbout(facts: seq<Fact>, id: Id)
    requires forall f :: f in facts ==> f.About() == id
    ensures forall m :: m in RouteAll(facts) ==>
              m.event.booking == id && Published(m.event) in facts && m in Route(m.event)
  {
    forall m | m in RouteAll(facts)
      ensures m.event.booking == id && Published(m.event) in facts && m in Route(m.event)
    {
      var f :| f in facts && f.Published? && m in Route(f.event);
      RoutesKeepEvent(f.event);
    }
  }

  /** Removing one message from a queue. */
  predicate Minus(q: seq<Envelope>, queue: seq<Envelope>, gone: Option<Envelope>) {
    && (forall m :: m in q ==> m in queue)
    && (forall m :: m in queue ==> m in q || gone == Some(m))
  }

  lemma WithoutIsMinus(queue: seq<Envelope>, i: nat)
    requires i < |queue|
    ensures Minus(Without(queue, i), queue, Some(queue[i]))
  {
    forall m | m in queue
      ensures m in Without(queue, i) || m == queue[i]
    {
      var j :| 0 <= j < |queue| && queue[j] == m;
      if j < i {
        assert Without(queue, i)[j] == m;
      } else if j > i {
        assert Without(queue, i)[j - 1] == m;
      }
    }
  }

  lemma JustifiedLater(f: Fact, log: seq<Fact>, more: seq<Fact>)
    requires Justified(f, log)
    requires forall g :: g in log ==> g in more
    ensures Justified(f, more)
  {
  }

  lemma ClosedSnoc(log: seq<Fact>, f: Fact)
    requires Closed(log) && Justified(f, log)
    ensures Closed(log + [f])
  {
    forall i | 0 <= i < |log| + 1
      ensures Justified((log + [f])[i], (log + [f])[..i])
    {
      assert (log + [f])[..i] == if i < |log| then log[..i] else log;
    }
  }

  lemma {:induction false} ClosedAppend(log: seq<Fact>, facts: seq<Fact>)
    requires Closed(log)
    requires forall i :: 0 <= i < |facts| ==> Justified(facts[i], log + facts[..i])
    ensures Closed(log + facts)
  {
    if facts == [] {
      assert log + facts == log;
    } else {
      var n := |facts| - 1;
      FrontJustified(log, facts);
      ClosedAppend(log, facts[..n]);
      ClosedSnoc(log + facts[..n], facts[n]);
      assert log + facts == (log + facts[..n]) + [facts[n]];
    }
  }

  lemma FrontJustified(log: seq<Fact>, facts: seq<Fact>)
    requires facts != [] && forall i :: 0 <= i < |facts| ==> Justified(facts[i], log + facts[..i])
    ensures var front := facts[..|facts| - 1]; forall i :: 0 <= i < |front| ==> Justified(front[i], log + front[..i])
  {
    var front := facts[..|facts| - 1];
    forall i | 0 <= i < |front|
      ensures Justified(front[i], log + front[..i])
    {
      assert front[..i] == facts[..i] && front[i] == facts[i];
    }
  }

  // Bookings a step does not touch.

  lemma FrameFlow(c: Id, v: View, log: seq<Fact>, more: seq<Fact>, queue: seq<Envelope>, q: seq<Envelope>)
    requires FlowInv(c, v, log, queue)
    requires forall f :: f in log ==> f in more
    requires forall f :: f in more && f.About() == c ==> f in log
    requires forall m: Envelope :: m.event.booking == c ==> (m in q <==> m in queue)
    ensures FlowInv(c, v, more, q)
  {
    if RefundSeen(more, c) {
      var at :| Published(PaymentRefunded(c, at)) in more;
      assert Published(PaymentRefunded(c, at)).About() == c;
    }
    assert Lost(c).About() == c && EnteredPaid(c, true).About() == c;
  }

  lemma FrameView(c: Id, v: View, now: Time, log: seq<Fact>, more: seq<Fact>, queue: seq<Envelope>, q: seq<Envelope>)
    requires ViewInv(c, v, now, log, queue)
    requires forall f :: f in log ==> f in more
    requires forall f :: f in more && f.About() == c ==> f in log
    requires forall m: Envelope :: m.event.booking == c ==> (m in q <==> m in queue)
    ensures ViewInv(c, v, now, more, q)
  {
    FrameFlow(c, v, log, more, queue, q);
    if v.row.Some? {
      if RefundSeen(log, c) {
        var at :| Published(PaymentRefunded(c, at)) in log;
        assert Published(PaymentRefunded(c, at)) in more;
      }
    }
  }

  lemma Frame(s: Sys, t: Sys, c: Id)
    requires BookingInv(s, c) && ViewOf(t, c) == ViewOf(s, c) && t.now == s.now
    requires forall f :: f in s.log ==> f in t.log
    requires forall f :: f in t.log && f.About() == c ==> f in s.log
    requires forall m: Envelope :: m.event.booking == c ==> (m in t.queue <==> m in s.queue)
    ensures BookingInv(t, c)
  {
    FrameView(c, ViewOf(s, c), s.now, s.log, t.log, s.queue, t.queue);
  }

  /** A step about booking b: facts about b appended, at most one message of b consumed. */
  lemma FrameEmit(s: Sys, t: Sys, b: Id, facts: seq<Fact>, q: seq<Envelope>, gone: Option<Envelope>, c: Id)
    requires BookingInv(s, c) && c != b && ViewOf(t, c) == ViewOf(s, c) && t.now == s.now
    requires forall f :: f in facts ==> f.About() == b
    requires Minus(q, s.queue, gone) && (gone.Some? ==> gone.value.event.booking == b)
    requires t.log == s.log + facts && t.queue == q + RouteAll(facts)
    ensures BookingInv(t, c)
  {
    RoutedAbout(facts, b);
    Frame(s, t, c);
  }

  // Steps of the booking service.

  predicate FreshlyPaid(r: Booking, n: Booking) {
    r.paidAt.None? && n.paidAt.Some?
  }

  function After(v: View, reply: R.Reply): View {
    v.(row := Some(reply.row), locked := v.locked && !reply.release)
  }

  /** How a handler may move a row. */
  predicate Moves(r: Booking, n: Booking, now: Time) {
    && n.user == r.user && n.showtime == r.showtime && n.totalAmount == r.totalAmount && n.expiresAt == r.expiresAt
    && (r.paidAt.Some? ==> n.paidAt == r.paidAt)
    && (FreshlyPaid(r, n) ==> R.Unpaid(r) && now < r.expiresAt && R.Owns(n))
    && (R.Unpaid(n) ==> R.Unpaid(r))
    && (R.Owns(n) ==> R.Owns(r) || FreshlyPaid(r, n))
    && (r.status.Refunded? ==> n.status.Refunded?)
    && (R.Owns(r) ==> R.Owns(n) || n.status.Refunded?)
    && (r.status.Expired? ==> n.status.Expired? || n.status.Refunded?)
    && (r.status.Cancelled? ==> n.status.Cancelled? || n.status.Refunded?)
  }

  /** What the rest of the proof needs to know about a reply; gone is the message it consumed. */
  ghost predicate GoodReply(id: Id, v: View, now: Time, log: seq<Fact>, gone: Option<Envelope>, reply: R.Reply)
    requires v.row.Some?
  {
    var r, n := v.row.value, reply.row;
    && Lifecycle(n)
    && Moves(r, n, now)
    && (FreshlyPaid(r, n) ==> v.claim != map[] && Published(PaymentSettled(id, n.totalAmount, n.paidAt.value)) in log)
    && (v.locked && !reply.release ==> R.Unpaid(n))
    && (n.ticketsIssuedAt.Some? && r.ticketsIssuedAt.None? ==> n.status.Refunded? || v.tickets != map[])
    && (n.status.Refunded? ==> RefundSeen(log, id))
    && (forall e :: e in reply.out ==>
        e.booking == id && !e.PaymentRefunded? && FactOk(id, After(v, reply), Published(e)) &&
            Justified(Published(e), log))
    && (n.status.Pending? && n.paidAt.Some? && !(r.status.Pending? && r.paidAt.Some?) ==>
        Confirmation(id, n, v.claim) in reply.out)
    && (n.status.Refunded? && !r.status.Refunded? ==> BookingRefunded(id) in reply.out)
    && (gone.Some? ==>
          && gone.value.to.ToBooking?
          && (gone.value.event.TicketsIssued? ==>
                !(n.status.Pending? && n.paidAt.Some?) && (n.status.Refunded? ==> BookingRefunded(id) in reply.out))
          && (gone.value.event.PaymentSettled? ==> !R.Unpaid(n))
          && (gone.value.event.PaymentRefunded? ==> n.status.Refunded?))
  }

  lemma PublishMembers(out: seq<Event>)
    ensures forall e :: e in out ==> Published(e) in Publish(out)
    ensures forall f :: f in Publish(out) ==> f.Published? && f.event in out
    ensures forall e, m :: e in out && m in Route(e) ==> m in RouteAll(Publish(out))
  {
    forall e | e in out
      ensures Published(e) in Publish(out)
    {
      var i :| 0 <= i < |out| && out[i] == e;
      assert Publish(out)[i] == Published(e);
    }
    forall e, m | e in out && m in Route(e)
      ensures m in RouteAll(Publish(out))
    {
      assert Published(e) in Publish(out);
    }
  }

  lemma AnswerView(s: Sys, id: Id, reply: R.Reply)
    requires id in s.store.rows
    ensures ViewOf(Answer(s, id, reply), id) == After(ViewOf(s, id), reply)
    ensures forall c :: c != id ==> ViewOf(Answer(s, id, reply), c) == ViewOf(s, c)
  {
    var t := Answer(s, id, reply);
    assert t.store.seats == s.store.seats;
    forall c
      ensures SnapshotOf(t.store, c) == SnapshotOf(s.store, c)
    {
    }
  }

  /** Facts about a booking stay true of it when its row moves. */
  lemma FactsOutlive(id: Id, v: View, now: Time, reply: R.Reply, f: Fact)
    requires v.row.Some? && FactOk(id, v, f)
    requires Lifecycle(v.row.value) && Lifecycle(reply.row) && Moves(v.row.value, reply.row, now)
    ensures FactOk(id, After(v, reply), f)
  {
  }

  lemma AnswerConfirming(id: Id, v: View, now: Time, log: seq<Fact>, queue: seq<Envelope>, q: seq<Envelope>,
                         gone: Option<Envelope>, reply: R.Reply)
    requires v.row.Some? && GoodReply(id, v, now, log, gone, reply) && Minus(q, queue, gone)
    requires Confirming(id, v, queue)
    ensures Confirming(id, After(v, reply), q + RouteAll(Publish(reply.out)))
  {
    PublishMembers(reply.out);
    var r, n := v.row.value, reply.row;
    if n.status.Pending? && n.paidAt.Some? {
      var e := Confirmation(id, n, v.claim);
      assert Envelope(ToTicket, e) in Route(e);
      if r.status.Pending? && r.paidAt.Some? {
        assert e == Confirmation(id, r, v.claim) && Issuance(id, n, v.claim) == Issuance(id, r, v.claim);
      }
    }
  }

  lemma AnswerVoiding(id: Id, v: View, now: Time, log: seq<Fact>, queue: seq<Envelope>, q: seq<Envelope>,
                      gone: Option<Envelope>, reply: R.Reply)
    requires v.row.Some? && GoodReply(id, v, now, log, gone, reply) && Minus(q, queue, gone)
    requires Voiding(id, v, queue) && TicketInv(id, v, log)
    ensures Voiding(id, After(v, reply), q + RouteAll(Publish(reply.out)))
  {
    PublishMembers(reply.out);
    var r, n := v.row.value, reply.row;
    if n.status.Refunded? && n.paidAt.Some? && v.tickets != map[] {
      assert Issuance(id, n, v.claim) == Issuance(id, r, v.claim);
      assert Envelope(ToTicket, BookingRefunded(id)) in Route(BookingRefunded(id));
    }
  }

  lemma AnswerPaying(id: Id, v: View, now: Time, log: seq<Fact>, queue: seq<Envelope>, q: seq<Envelope>,
                     gone: Option<Envelope>, reply: R.Reply)
    requires v.row.Some? && GoodReply(id, v, now, log, gone, reply) && Minus(q, queue, gone)
    ensures Settling(id, v, queue) ==> Settling(id, After(v, reply), q + RouteAll(Publish(reply.out)))
    ensures Returning(id, v, queue) ==> Returning(id, After(v, reply), q + RouteAll(Publish(reply.out)))
  {
  }

  lemma AnswerFlow(id: Id, v: View, now: Time, log: seq<Fact>, queue: seq<Envelope>, q: seq<Envelope>,
                   gone: Option<Envelope>, reply: R.Reply)
    requires v.row.Some? && GoodReply(id, v, now, log, gone, reply)
    requires TicketInv(id, v, log) && FlowInv(id, v, log, queue) && Minus(q, queue, gone)
    ensures FlowInv(id, After(v, reply), log + Publish(reply.out), q + RouteAll(Publish(reply.out)))
  {
    PublishMembers(reply.out);
    var more := log + Publish(reply.out);
    if Lost(id) !in more {
      assert Lost(id) !in log;
      AnswerConfirming(id, v, now, log, queue, q, gone, reply);
      AnswerVoiding(id, v, now, log, queue, q, gone, reply);
      AnswerPaying(id, v, now, log, queue, q, gone, reply);
    }
    if RefundSeen(more, id) {
      var at :| Published(PaymentRefunded(id, at)) in more;
      assert PaymentRefunded(id, at) !in reply.out;
    }
  }

  lemma AnswerFacts(id: Id, v: View, now: Time, log: seq<Fact>, gone: Option<Envelope>, reply: R.Reply)
    requires v.row.Some? && GoodReply(id, v, now, log, gone, reply)
    requires LogInv(id, v, log) && Lifecycle(v.row.value)
    ensures LogInv(id, After(v, reply), log + Publish(reply.out))
  {
    PublishMembers(reply.out);
    forall f | f in log + Publish(reply.out) && f.About() == id
      ensures FactOk(id, After(v, reply), f)
    {
      if f in log {
        FactsOutlive(id, v, now, reply, f);
      }
    }
  }

  lemma AnswerQueue(id: Id, log: seq<Fact>, queue: seq<Envelope>, q: seq<Envelope>, facts: seq<Fact>)
    requires QueueInv(id, log, queue)
    requires forall m :: m in q ==> m in queue
    requires forall f :: f in facts ==> f.About() == id
    ensures QueueInv(id, log + facts, q + RouteAll(facts))
  {
    RoutedAbout(facts, id);
  }

  lemma AnswerViewInv(id: Id, v: View, now: Time, log: seq<Fact>, queue: seq<Envelope>, q: seq<Envelope>,
                      gone: Option<Envelope>, reply: R.Reply)
    requires v.row.Some? && ViewInv(id, v, now, log, queue)
    requires GoodReply(id, v, now, log, gone, reply) && Minus(q, queue, gone)
    ensures ViewInv(id, After(v, reply), now, log + Publish(reply.out), q + RouteAll(Publish(reply.out)))
  {
    AnswerFacts(id, v, now, log, gone, reply);
    PublishMembers(reply.out);
    AnswerQueue(id, log, queue, q, Publish(reply.out));
    AnswerFlow(id, v, now, log, queue, q, gone, reply);
    var r, n := v.row.value, reply.row;
    assert r.paidAt.Some? ==> Confirmation(id, n, v.claim) == Confirmation(id, r, v.claim);
    if RefundSeen(log, id) {
      var at :| Published(PaymentRefunded(id, at)) in log;
      assert Published(PaymentRefunded(id, at)) in log + Publish(reply.out);
    }
  }

  lemma AnswerSelf(s: Sys, id: Id, q: seq<Envelope>, gone: Option<Envelope>, reply: R.Reply)
    requires BookingInv(s, id) && id in s.store.rows
    requires GoodReply(id, ViewOf(s, id), s.now, s.log, gone, reply) && Minus(q, s.queue, gone)
    ensures BookingInv(Answer(s.(queue := q), id, reply), id)
  {
    assert ViewOf(s.(queue := q), id) == ViewOf(s, id);
    AnswerView(s.(queue := q), id, reply);
    AnswerViewInv(id, ViewOf(s, id), s.now, s.log, s.queue, q, gone, reply);
  }

  lemma PublishClosed(log: seq<Fact>, out: seq<Event>)
    requires Closed(log)
    requires forall e :: e in out ==> Justified(Published(e), log)
    ensures Closed(log + Publish(out))
  {
    var facts := Publish(out);
    forall i | 0 <= i < |facts|
      ensures Justified(facts[i], log + facts[..i])
    {
      assert out[i] in out;
      JustifiedLater(facts[i], log, log + facts[..i]);
    }
    ClosedAppend(log, facts);
  }

  lemma AnswerOther(s: Sys, id: Id, q: seq<Envelope>, gone: Option<Envelope>, reply: R.Reply, c: Id)
    requires BookingInv(s, c) && c != id && id in s.store.rows && (gone.Some? ==> gone.value.event.booking == id)
    requires forall e :: e in reply.out ==> e.booking == id
    requires Minus(q, s.queue, gone)
    ensures BookingInv(Answer(s.(queue := q), id, reply), c)
  {
    AnswerView(s.(queue := q), id, reply);
    PublishMembers(reply.out);
    assert ViewOf(s.(queue := q), c) == ViewOf(s, c);
    FrameEmit(s, Answer(s.(queue := q), id, reply), id, Publish(reply.out), q, gone, c);
  }

  lemma AnswerInv(s: Sys, id: Id, q: seq<Envelope>, gone: Option<Envelope>, reply: R.Reply)
    requires Inv(s) && id in s.store.rows && (gone.Some? ==> gone.value.event.booking == id)
    requires GoodReply(id, ViewOf(s, id), s.now, s.log, gone, reply) && Minus(q, s.queue, gone)
    ensures Inv(Answer(s.(queue := q), id, reply))
  {
    forall c
      ensures BookingInv(Answer(s.(queue := q), id, reply), c)
    {
      assert BookingInv(s, c);
      if c == id {
        AnswerSelf(s, id, q, gone, reply);
      } else {
        AnswerOther(s, id, q, gone, reply, c);
      }
    }
    PublishClosed(s.log, reply.out);
  }
}

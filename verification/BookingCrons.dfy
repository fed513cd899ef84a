/** The three passes of the reconciliation cron, row after row in whatever order
    the database returns them. */
module BookingCrons {
  import opened SagaTypes
  import opened BookingStore
  import opened Saga
  import R = BookingRules

  datatype Cron = ExpireHolds | RetryConfirmations | RetryRefunds

  predicate Selected(cron: Cron, row: Booking, now: Time) {
    match cron
    case ExpireHolds => R.Stale(row, now)
    case RetryConfirmations => R.Unticketed(row, now)
    case RetryRefunds => R.RefundOverdue(row, now)
  }

  function Candidates(cron: Cron, store: Store, now: Time): set<Id> {
    set id | id in store.rows && Selected(cron, store.rows[id], now)
  }

  function ReplyFor(cron: Cron, store: Store, id: Id, now: Time): R.Reply
    requires id in store.rows
  {
    match cron
    case ExpireHolds => R.Expire(id, store.rows[id])
    case RetryConfirmations => R.Reconfirm(id, store.rows[id], SnapshotOf(store, id), now)
    case RetryRefunds => R.RerequestRefund(id, store.rows[id], now)
  }

  /** Some of these rows, each once. */
  predicate Among(order: seq<Id>, ids: set<Id>) {
    && (forall i, j :: 0 <= i < j < |order| ==> order[i] != order[j])
    && (forall id :: id in order ==> id in ids)
  }

  /** These rows, each once. */
  predicate Lists(order: seq<Id>, ids: set<Id>) {
    Among(order, ids) && forall id :: id in ids ==> id in order
  }

  predicate Known(order: seq<Id>, store: Store) {
    forall id :: id in order ==> id in store.rows
  }

  lemma AmongFront(order: seq<Id>, ids: set<Id>, wider: set<Id>)
    requires Among(order, ids) && order != [] && ids <= wider
    ensures var front, last := order[..|order| - 1], order[|order| - 1];
            Among(front, ids) && Among(front, wider) && last in ids && last !in front && order == front + [last]
  {
  }

  lemma ListsSnoc(order: seq<Id>, ids: set<Id>, id: Id)
    requires Lists(order, ids) && id !in ids
    ensures Lists(order + [id], ids + {id})
  {
  }

  function AfterPass(cron: Cron, store: Store, order: seq<Id>, now: Time): (after: Store)
    requires Known(order, store)
    ensures after.rows.Keys == store.rows.Keys
  {
    if order == [] then store
    else
      var before := AfterPass(cron, store, order[..|order| - 1], now);
      Put(before, order[|order| - 1], ReplyFor(cron, before, order[|order| - 1], now))
  }

  function SaidInPass(cron: Cron, store: Store, order: seq<Id>, now: Time): seq<Event>
    requires Known(order, store)
  {
    if order == [] then []
    else
      var before := AfterPass(cron, store, order[..|order| - 1], now);
      SaidInPass(cron, store, order[..|order| - 1], now) + ReplyFor(cron, before, order[|order| - 1], now).out
  }

  /** One row more. */
  lemma PassSnoc(cron: Cron, store: Store, order: seq<Id>, id: Id, now: Time)
    requires Known(order + [id], store)
    ensures Known(order, store)
    ensures var before := AfterPass(cron, store, order, now);
            && AfterPass(cron, store, order + [id], now) == Put(before, id, ReplyFor(cron, before, id, now))
            && SaidInPass(cron, store, order + [id], now) ==
                  SaidInPass(cron, store, order, now) + ReplyFor(cron, before, id, now).out
  {
    assert (order + [id])[..|order|] == order;
  }

  /** These rows of a pass are done: the tables and what was published say so. */
  predicate Passed(cron: Cron, before: Store, said: seq<Event>, order: seq<Id>, now: Time, store: Store,
                   published: seq<Event>) {
    && Known(order, before)
    && store == AfterPass(cron, before, order, now)
    && published == said + SaidInPass(cron, before, order, now)
  }

  lemma PassedSnoc(cron: Cron, before: Store, said: seq<Event>, order: seq<Id>, now: Time, store: Store,
                   published: seq<Event>, id: Id)
    requires Passed(cron, before, said, order, now, store, published) && id in before.rows
    ensures var reply := ReplyFor(cron, store, id, now);
            Passed(cron, before, said, order + [id], now, Put(store, id, reply), published + reply.out)
  {
    PassSnoc(cron, before, order, id, now);
  }

  /** The order does not matter: every listed row gets the reply it would have
      got alone, no other row or seat changes, and exactly the handles of expired
      bookings go. */
  lemma {:induction false} PassIsRowwise(cron: Cron, store: Store, order: seq<Id>, now: Time)
    requires Among(order, store.rows.Keys)
    ensures var after := AfterPass(cron, store, order, now);
            && (forall id :: id in store.rows ==>
                  after.rows[id] == if id in order then ReplyFor(cron, store, id, now).row else store.rows[id])
            && after.seats == store.seats
            && (forall id :: id in after.locks <==>
                id in store.locks && !(id in order && ReplyFor(cron, store, id, now).release))
            && (forall id :: id in after.locks ==> after.locks[id] == store.locks[id])
  {
    if order != [] {
      var front, last := order[..|order| - 1], order[|order| - 1];
      assert order == front + [last];
      PassIsRowwise(cron, store, front, now);
      assert last !in front;
      var before := AfterPass(cron, store, front, now);
      assert ReplyFor(cron, before, last, now) == ReplyFor(cron, store, last, now);
    }
  }

  function StepFor(cron: Cron, id: Id): Step {
    match cron
    case ExpireHolds => ExpireStale(id)
    case RetryConfirmations => RetryConfirmation(id)
    case RetryRefunds => RetryRefund(id)
  }

  function StepsFor(cron: Cron, order: seq<Id>): (run: seq<Step>)
    ensures |run| == |order|
  {
    seq(|order|, i requires 0 <= i < |order| => StepFor(cron, order[i]))
  }

  lemma {:induction false} PublishConcat(a: seq<Event>, b: seq<Event>)
    ensures Publish(a + b) == Publish(a) + Publish(b)
  {
  }

  /** A pass is a run of the saga: what it does and says is what its rows' steps do and say. */
  lemma {:induction false} PassIsRun(cron: Cron, s: Sys, order: seq<Id>)
    requires Among(order, Candidates(cron, s.store, s.now))
    ensures var t := Exec(s, StepsFor(cron, order));
            && t.store == AfterPass(cron, s.store, order, s.now)
            && t.log == s.log + Publish(SaidInPass(cron, s.store, order, s.now))
            && t.now == s.now
  {
    if order == [] {
      assert Publish([]) == [] && s.log + [] == s.log;
    } else {
      var front, last := order[..|order| - 1], order[|order| - 1];
      AmongFront(order, Candidates(cron, s.store, s.now), s.store.rows.Keys);
      PassIsRun(cron, s, front);
      RunSnoc(cron, s, order);
      PassStep(cron, s, Exec(s, StepsFor(cron, front)), front, last);
    }
  }

  lemma RunSnoc(cron: Cron, s: Sys, order: seq<Id>)
    requires order != []
    ensures Exec(s, StepsFor(cron, order))
         == Next(Exec(s, StepsFor(cron, order[..|order| - 1])), StepFor(cron, order[|order| - 1]))
  {
    assert StepsFor(cron, order)[..|order| - 1] == StepsFor(cron, order[..|order| - 1]);
  }

  lemma PassStep(cron: Cron, s: Sys, t: Sys, front: seq<Id>, last: Id)
    requires Among(front, s.store.rows.Keys) && last !in front && last in Candidates(cron, s.store, s.now)
    requires t.store == AfterPass(cron, s.store, front, s.now) && t.now == s.now
    requires t.log == s.log + Publish(SaidInPass(cron, s.store, front, s.now))
    ensures var u := Next(t, StepFor(cron, last));
            && u.store == AfterPass(cron, s.store, front + [last], s.now)
            && u.log == s.log + Publish(SaidInPass(cron, s.store, front + [last], s.now))
            && u.now == s.now
  {
    assert last in t.store.rows && t.store.rows[last] == s.store.rows[last] by {
      PassIsRowwise(cron, s.store, front, s.now);
    }
    RowStep(cron, t, last);
    PassSnoc(cron, s.store, front, last, s.now);
    var said, reply := SaidInPass(cron, s.store, front, s.now), ReplyFor(cron, t.store, last, s.now);
    PublishConcat(said, reply.out);
    assert s.log + Publish(said) + Publish(reply.out) == s.log + (Publish(said) + Publish(reply.out));
  }

  lemma RowStep(cron: Cron, s: Sys, id: Id)
    requires id in s.store.rows && Selected(cron, s.store.rows[id], s.now)
    ensures Next(s, StepFor(cron, id)) == Answer(s, id, ReplyFor(cron, s.store, id, s.now))
  {
  }
}

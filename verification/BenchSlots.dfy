/** The benchmark's slot arithmetic: which seat each iteration of each virtual
    user buys or holds, chosen so that no two of them collide. */
module BenchSlots {
  import opened SagaTypes

  datatype Entry = Entry(showtime: Id, seatIds: seq<Id>)

  /** A seeded catalog: distinct showtimes, distinct seats, as many everywhere as in the first. */
  predicate Seeded(catalog: seq<Entry>) {
    && (forall i, j :: 0 <= i < j < |catalog| ==> catalog[i].showtime != catalog[j].showtime)
    && (forall i :: 0 <= i < |catalog| ==> |catalog[i].seatIds| == |catalog[0].seatIds|)
    && (forall i, j, k :: 0 <= i < |catalog| && 0 <= j < k < |catalog[i].seatIds| ==>
        catalog[i].seatIds[j] != catalog[i].seatIds[k])
  }

  function SeatsPerShowtime(catalog: seq<Entry>): nat {
    if catalog == [] then 0 else |catalog[0].seatIds|
  }

  function TotalSlots(catalog: seq<Entry>): nat {
    |catalog| * SeatsPerShowtime(catalog)
  }

  lemma MultiplesApart(a: int, b: int, q: nat)
    requires a < b
    ensures a * q + q <= b * q
  {
    var d := b - a - 1;
    assert d * q >= 0;
    assert b * q == a * q + q + d * q;
  }

  lemma DivUnique(slot: nat, q: nat, a: nat, b: nat)
    requires slot == a * q + b && b < q
    ensures slot / q == a && slot % q == b
  {
    if a < slot / q {
      MultiplesApart(a, slot / q, q);
    } else if a > slot / q {
      MultiplesApart(slot / q, a, q);
    }
  }

  lemma SlotInCatalog(catalog: seq<Entry>, slot: nat)
    requires slot < TotalSlots(catalog)
    ensures catalog != [] && SeatsPerShowtime(catalog) > 0
    ensures slot / SeatsPerShowtime(catalog) < |catalog|
  {
    var q := SeatsPerShowtime(catalog);
    if slot / q >= |catalog| {
      MultiplesApart(|catalog| - 1, slot / q, q);
    }
  }

  datatype Pick = Exhausted | Seat(key: SeatKey)

  function SeatAt(catalog: seq<Entry>, slot: nat): SeatKey
    requires Seeded(catalog) && slot < TotalSlots(catalog)
  {
    SlotInCatalog(catalog, slot);
    var q := SeatsPerShowtime(catalog);
    var entry := catalog[slot / q];
    SeatKey(entry.showtime, entry.seatIds[slot % q])
  }

  /** getSeatSlot for one virtual user, counted from 1. */
  function GetSeatSlot(catalog: seq<Entry>, vu: nat, iteration: nat, maxVus: nat, offset: nat): Pick
    requires Seeded(catalog) && vu >= 1
  {
    var slot := offset + (vu - 1) + iteration * maxVus;
    if slot >= TotalSlots(catalog) then Exhausted else Seat(SeatAt(catalog, slot))
  }

  /** TARGET_VUS and PAY_EVERY. */
  datatype Config = Config(vus: nat, payEvery: int)

  function HoldSlot(catalog: seq<Entry>, cfg: Config): int
    requires cfg.vus >= 1
  {
    (TotalSlots(catalog) / cfg.vus - 1) * cfg.vus
  }

  datatype Choice = BadSetup | RanOut | Chosen(pay: bool, seat: SeatKey)

  function Phase(cfg: Config, vu: nat): nat
    requires cfg.payEvery >= 1 && vu >= 1
  {
    (vu - 1) % cfg.payEvery
  }

  predicate Pays(cfg: Config, vu: nat, iter: nat)
    requires cfg.payEvery >= 1 && vu >= 1
  {
    (iter + Phase(cfg, vu)) % cfg.payEvery == 0
  }

  function Group(cfg: Config, vu: nat, iter: nat): nat
    requires cfg.payEvery >= 1 && vu >= 1
  {
    (iter + Phase(cfg, vu)) / cfg.payEvery
  }

  /** One iteration of the default function, up to the hold. */
  function Choose(catalog: seq<Entry>, cfg: Config, vu: nat, iter: nat): Choice
    requires Seeded(catalog) && cfg.vus >= 1 && 1 <= vu <= cfg.vus
  {
    if cfg.payEvery < 1 || HoldSlot(catalog, cfg) < 0 then BadSetup
    else
      var pay := Pays(cfg, vu, iter);
      var paid := Group(cfg, vu, iter) * cfg.vus;
      if pay && paid >= HoldSlot(catalog, cfg) then RanOut
      else
        var pick := GetSeatSlot(catalog, vu, 0, cfg.vus, if pay then paid else HoldSlot(catalog, cfg));
        if pick.Exhausted? then RanOut else Chosen(pay, pick.key)
  }

  /** The slot an iteration uses if it is not stopped by a guard. */
  function SlotOf(catalog: seq<Entry>, cfg: Config, vu: nat, iter: nat): int
    requires cfg.vus >= 1 && cfg.payEvery >= 1 && vu >= 1
  {
    (if Pays(cfg, vu, iter) then Group(cfg, vu, iter) * cfg.vus else HoldSlot(catalog, cfg)) + vu - 1
  }

  lemma MultipleBelow(a: nat, b: int, n: nat)
    requires n >= 1 && a * n < b * n
    ensures a * n + n <= b * n
  {
    if b < a {
      MultiplesApart(b, a, n);
    } else if a < b {
      MultiplesApart(a, b, n);
    }
  }

  /** Past the guards every slot is in the catalog, so only the guard on paid
      groups can ever stop an iteration; paid slots lie below all hold slots. */
  lemma SlotsFit(catalog: seq<Entry>, cfg: Config, vu: nat, iter: nat)
    requires Seeded(catalog) && cfg.vus >= 1 && 1 <= vu <= cfg.vus && cfg.payEvery >= 1 && HoldSlot(catalog, cfg) >= 0
    ensures var c, slot, hold := Choose(catalog, cfg, vu, iter), SlotOf(catalog, cfg, vu, iter), HoldSlot(catalog, cfg);
            && (c.RanOut? <==> Pays(cfg, vu, iter) && Group(cfg, vu, iter) * cfg.vus >= hold)
            && (!c.RanOut? ==>
                  && 0 <= slot < TotalSlots(catalog) && c == Chosen(Pays(cfg, vu, iter), SeatAt(catalog, slot))
                  && (if c.pay then slot < hold else hold <= slot))
  {
    var groups := TotalSlots(catalog) / cfg.vus;
    assert groups * cfg.vus <= TotalSlots(catalog);
    assert HoldSlot(catalog, cfg) + cfg.vus == groups * cfg.vus;
    if Pays(cfg, vu, iter) && Group(cfg, vu, iter) * cfg.vus < HoldSlot(catalog, cfg) {
      MultipleBelow(Group(cfg, vu, iter), groups - 1, cfg.vus);
    }
  }

  /** Different slots are different seats. */
  lemma SeatAtInjective(catalog: seq<Entry>, a: nat, b: nat)
    requires Seeded(catalog) && a < TotalSlots(catalog) && b < TotalSlots(catalog) && a != b
    ensures SeatAt(catalog, a) != SeatAt(catalog, b)
  {
    var i, x := SlotParts(catalog, a);
    var j, y := SlotParts(catalog, b);
    EntriesDiffer(catalog, i, x, j, y);
  }

  lemma SlotParts(catalog: seq<Entry>, slot: nat) returns (i: nat, x: nat)
    requires Seeded(catalog) && slot < TotalSlots(catalog)
    ensures i < |catalog| && x < |catalog[i].seatIds| && slot == i * SeatsPerShowtime(catalog) + x
    ensures SeatAt(catalog, slot) == SeatKey(catalog[i].showtime, catalog[i].seatIds[x])
  {
    SlotInCatalog(catalog, slot);
    var q := SeatsPerShowtime(catalog);
    i, x := slot / q, slot % q;
  }

  lemma EntriesDiffer(catalog: seq<Entry>, i: nat, x: nat, j: nat, y: nat)
    requires Seeded(catalog) && i < |catalog| && j < |catalog|
    requires x < |catalog[i].seatIds| && y < |catalog[j].seatIds| && (i != j || x != y)
    ensures SeatKey(catalog[i].showtime, catalog[i].seatIds[x]) != SeatKey(catalog[j].showtime, catalog[j].seatIds[y])
  {
    if i == j {
      DistinctSeats(catalog[i].seatIds, x, y);
    }
  }

  lemma DistinctSeats(ids: seq<Id>, j: nat, k: nat)
    requires j < |ids| && k < |ids| && j != k
    requires forall j, k :: 0 <= j < k < |ids| ==> ids[j] != ids[k]
    ensures ids[j] != ids[k]
  {
  }

  lemma PaidSlotDetermines(cfg: Config, vu: nat, iter: nat, u: nat, jter: nat)
    requires cfg.vus >= 1 && cfg.payEvery >= 1 && 1 <= vu <= cfg.vus && 1 <= u <= cfg.vus
    requires Pays(cfg, vu, iter) && Pays(cfg, u, jter)
    requires Group(cfg, vu, iter) * cfg.vus + vu - 1 == Group(cfg, u, jter) * cfg.vus + u - 1
    ensures vu == u && iter == jter
  {
    SameParts(Group(cfg, vu, iter), vu - 1, Group(cfg, u, jter), u - 1, cfg.vus);
    SameMultiple(iter + Phase(cfg, vu), jter + Phase(cfg, vu), cfg.payEvery);
  }

  lemma SameParts(a: nat, v: nat, b: nat, u: nat, n: nat)
    requires v < n && u < n && a * n + v == b * n + u
    ensures a == b && v == u
  {
    DivUnique(a * n + v, n, a, v);
    DivUnique(a * n + v, n, b, u);
  }

  lemma SameMultiple(a: nat, b: nat, p: nat)
    requires p >= 1 && a % p == 0 && b % p == 0 && a / p == b / p
    ensures a == b
  {
    assert a == (a / p) * p && b == (b / p) * p;
  }

  /** No seat is bought twice, no seat is both bought and held, and two users
      never hold the same seat. */
  lemma SlotsNeverCollide(catalog: seq<Entry>, cfg: Config, vu: nat, iter: nat, u: nat, jter: nat)
    requires Seeded(catalog) && cfg.vus >= 1 && 1 <= vu <= cfg.vus && 1 <= u <= cfg.vus
    ensures var a, b := Choose(catalog, cfg, vu, iter), Choose(catalog, cfg, u, jter);
            a.Chosen? && b.Chosen? ==>
              (a.seat == b.seat <==> a.pay == b.pay && vu == u && (a.pay ==> iter == jter))
  {
    if Choose(catalog, cfg, vu, iter).Chosen? && Choose(catalog, cfg, u, jter).Chosen? {
      SlotsFit(catalog, cfg, vu, iter);
      SlotsFit(catalog, cfg, u, jter);
      var m, n := SlotOf(catalog, cfg, vu, iter), SlotOf(catalog, cfg, u, jter);
      if m != n {
        SeatAtInjective(catalog, m, n);
      } else if Pays(cfg, vu, iter) && Pays(cfg, u, jter) {
        PaidSlotDetermines(cfg, vu, iter, u, jter);
      }
    }
  }

  /** Of any PAY_EVERY iterations in a row a user pays in exactly one. */
  lemma PaysOncePerRound(cfg: Config, vu: nat, from: nat) returns (paid: nat)
    requires cfg.payEvery >= 1 && vu >= 1
    ensures from <= paid < from + cfg.payEvery && Pays(cfg, vu, paid)
    ensures forall i: nat :: from <= i < from + cfg.payEvery && Pays(cfg, vu, i) ==> i == paid
  {
    var p, phase := cfg.payEvery, Phase(cfg, vu);
    var r := (from + phase) % p;
    paid := if r == 0 then from else from + p - r;
    DivUnique(paid + phase, p, (from + phase) / p + (if r == 0 then 0 else 1), 0);
    forall i: nat | from <= i < from + p && Pays(cfg, vu, i)
      ensures i == paid
    {
      OneMultiple(i + phase, paid + phase, p);
    }
  }

  /** The phases spread the payments: in any one iteration, exactly one of any
      PAY_EVERY consecutive users pays. */
  lemma PaysOncePerBlock(cfg: Config, from: nat, iter: nat) returns (payer: nat)
    requires cfg.payEvery >= 1 && from >= 1
    ensures from <= payer < from + cfg.payEvery && Pays(cfg, payer, iter)
    ensures forall u: nat :: from <= u < from + cfg.payEvery && Pays(cfg, u, iter) ==> u == payer
  {
    var p := cfg.payEvery;
    var r := (iter + from - 1) % p;
    payer := if r == 0 then from else from + p - r;
    DivUnique(iter + payer - 1, p, (iter + from - 1) / p + (if r == 0 then 0 else 1), 0);
    PhaseFree(cfg, payer, iter);
    forall u: nat | from <= u < from + p && Pays(cfg, u, iter)
      ensures u == payer
    {
      PhaseFree(cfg, u, iter);
      OneMultiple(iter + u - 1, iter + payer - 1, p);
    }
  }

  lemma PhaseFree(cfg: Config, vu: nat, iter: nat)
    requires cfg.payEvery >= 1 && vu >= 1
    ensures Pays(cfg, vu, iter) <==> (iter + vu - 1) % cfg.payEvery == 0
  {
    var p := cfg.payEvery;
    var q, r := (iter + Phase(cfg, vu)) / p, (iter + Phase(cfg, vu)) % p;
    assert iter + vu - 1 == ((vu - 1) / p + q) * p + r;
    DivUnique(iter + vu - 1, p, (vu - 1) / p + q, r);
  }

  /** The setup is refused exactly if PAY_EVERY is not positive or there is not a seat
      for every user. */
  lemma SetupFails(catalog: seq<Entry>, cfg: Config, vu: nat, iter: nat)
    requires Seeded(catalog) && cfg.vus >= 1 && 1 <= vu <= cfg.vus
    ensures Choose(catalog, cfg, vu, iter).BadSetup? <==> cfg.payEvery < 1 || TotalSlots(catalog) < cfg.vus
  {
    var total: int, n: int := TotalSlots(catalog), cfg.vus;
    if total < n {
      DivUnique(total, n, 0, total);
      assert HoldSlot(catalog, cfg) == -n;
    } else {
      assert total / n >= 1;
      assert (total / n - 1) * n >= 0;
    }
  }

  lemma OneMultiple(a: nat, b: nat, p: nat)
    requires p >= 1 && a % p == 0 && b % p == 0 && a < b + p && b < a + p
    ensures a == b
  {
    assert a == (a / p) * p && b == (b / p) * p;
    if a / p > b / p {
      MultiplesApart(b / p, a / p, p);
    } else if a / p < b / p {
      MultiplesApart(a / p, b / p, p);
    }
  }
}

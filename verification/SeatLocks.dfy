/** The seat locks in Redis: all keys of a request or none, a token that only
    its owner knows, and a time to live. */
module SeatLocks {
  import opened SagaTypes

  type Token = nat
  datatype Lock = Lock(token: Token, until: Time)
  type LockTable = map<SeatKey, Lock>

  predicate FreeAt(table: LockTable, k: SeatKey, now: Time) {
    k !in table || table[k].until <= now
  }

  predicate AllFree(table: LockTable, keys: set<SeatKey>, now: Time) {
    forall k :: k in keys ==> FreeAt(table, k, now)
  }

  predicate OwnsAll(table: LockTable, keys: set<SeatKey>, token: Token, now: Time) {
    forall k :: k in keys ==> k in table && table[k].token == token && now < table[k].until
  }

  function Locked(table: LockTable, keys: set<SeatKey>, token: Token, until: Time): LockTable {
    table + map k | k in keys :: Lock(token, until)
  }

  function Unlocked(table: LockTable, keys: set<SeatKey>, token: Token): LockTable {
    map k | k in table && !(k in keys && table[k].token == token) :: table[k]
  }

  /** The keys on which a token's word counts at this time. */
  function HeldBy(table: LockTable, token: Token, now: Time): set<SeatKey> {
    set k | k in table && table[k].token == token && now < table[k].until
  }

  /** The lock service of booking-service. The clock is a parameter of every call. */
  class SeatLockService {
    var table: LockTable

    constructor ()
      ensures table == map[]
    {
      table := map[];
    }

    /** Acquires all the keys together, or none of them. */
    method Hold(keys: set<SeatKey>, token: Token, now: Time, ttl: nat) returns (granted: bool)
      modifies this
      ensures granted == old(AllFree(table, keys, now))
      ensures granted ==> table == Locked(old(table), keys, token, now + ttl)
      ensures !granted ==> table == old(table)
    {
      var waiting := keys;
      granted := true;
      while waiting != {} && granted
        invariant waiting <= keys
        invariant granted <==> forall k :: k in keys - waiting ==> FreeAt(table, k, now)
        invariant table == old(table)
        decreases |waiting|, granted
      {
        var k :| k in waiting;
        waiting := waiting - {k};
        granted := FreeAt(table, k, now);
      }
      if granted {
        assert keys - waiting == keys;
        table := Locked(table, keys, token, now + ttl);
      }
    }

    /** Fails if any of the keys has run out or gone to somebody else. */
    method Extend(keys: set<SeatKey>, token: Token, now: Time, ttl: nat) returns (extended: bool)
      modifies this
      ensures extended == old(OwnsAll(table, keys, token, now))
      ensures table == if extended then Locked(old(table), keys, token, now + ttl) else old(table)
      ensures extended ==> forall later :: now <= later < now + ttl ==> OwnsAll(table, keys, token, later)
      ensures extended ==> forall wanted: set<SeatKey>, later :: wanted * keys != {} && later < now + ttl ==>
                !AllFree(table, wanted, later)
      ensures forall other :: other != token ==> HeldBy(table, other, now) == HeldBy(old(table), other, now)
    {
      extended := OwnsAll(table, keys, token, now);
      if extended {
        KeepsOthersOut(table, keys, token, now + ttl);
        table := Locked(table, keys, token, now + ttl);
      }
    }

    /** Removes only what still carries the token; never fails. */
    method Release(keys: set<SeatKey>, token: Token)
      modifies this
      ensures table == Unlocked(old(table), keys, token)
      ensures forall now :: OwnsAll(old(table), keys, token, now) ==> AllFree(table, keys, now)
      ensures forall now, k :: !FreeAt(old(table), k, now) && FreeAt(table, k, now) ==>
                k in keys && old(table)[k].token == token
    {
      table := Unlocked(table, keys, token);
    }
  }

  /** Whoever asks for one of these keys before the lock runs out is refused. */
  lemma KeepsOthersOut(table: LockTable, keys: set<SeatKey>, token: Token, until: Time)
    ensures forall wanted: set<SeatKey>, later :: wanted * keys != {} && later < until ==>
              !AllFree(Locked(table, keys, token, until), wanted, later)
  {
    forall wanted: set<SeatKey>, later | wanted * keys != {} && later < until
      ensures !AllFree(Locked(table, keys, token, until), wanted, later)
    {
      var k :| k in wanted * keys;
      assert !FreeAt(Locked(table, keys, token, until), k, later);
    }
  }

  /** A grant takes exactly its keys, and no key of anybody else. */
  lemma GrantIsExclusive(table: LockTable, keys: set<SeatKey>, token: Token, other: Token, now: Time, until: Time)
    requires AllFree(table, keys, now) && now < until && other != token
    ensures HeldBy(Locked(table, keys, token, until), token, now) == HeldBy(table, token, now) + keys
    ensures HeldBy(Locked(table, keys, token, until), other, now) == HeldBy(table, other, now)
  {
  }

  /** Extending and releasing one's own keys leaves everybody else's alone. */
  lemma TokensProtect(table: LockTable, keys: set<SeatKey>, token: Token, other: Token, now: Time, until: Time)
    requires other != token
    ensures OwnsAll(table, keys, token, now) ==>
              HeldBy(Locked(table, keys, token, until), other, now) == HeldBy(table, other, now)
    ensures HeldBy(Unlocked(table, keys, token), other, now) == HeldBy(table, other, now)
    ensures HeldBy(Unlocked(table, keys, token), token, now) == HeldBy(table, token, now) - keys
  {
  }
}

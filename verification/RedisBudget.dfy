/** The three scripts command by command on one store, proved to be the atomic steps of TokenBudget. */
module RedisBudget {
  import opened Common
  import opened TokenBudget

  class Store {
    var now: int
    var counters: map<CounterKey, Counter>
    var markers: map<ReservationId, Marker>
    var settled: map<ReservationId, Settlement>

    function State(): Redis
      reads this
    {
      Redis(now, counters, markers, settled)
    }

    constructor (now: int)
      ensures State() == Init(now)
    {
      this.now, counters, markers, settled := now, map[], map[], map[];
    }

    /** GET of a counter, an absent key reading as zero. */
    method GetCounter(k: CounterKey) returns (value: int)
      ensures value == Value(State(), k)
    {
      if k !in counters {
        return 0;
      }
      return counters[k].value;
    }

    /** INCRBY creates an absent key at zero, without an expiry, and keeps the expiry of a present one. */
    method IncrBy(k: CounterKey, amount: int)
      modifies this`counters
      ensures counters == Overwrite(old(counters), k, Value(old(State()), k) + amount)
    {
      var value := GetCounter(k);
      counters := counters[k := Counter(value + amount, if k in counters then counters[k].expires else None)];
    }

    /** EXPIRE does nothing on an absent key. */
    method Expire(k: CounterKey, ttl: int)
      modifies this`counters
      ensures counters == if k in old(counters)
                          then old(counters)[k := old(counters)[k].(expires := Some(now + ttl))]
                          else old(counters)
    {
      if k in counters {
        counters := counters[k := counters[k].(expires := Some(now + ttl))];
      }
    }

    method SetKeepTtl(k: CounterKey, value: int)
      modifies this`counters
      ensures counters == Overwrite(old(counters), k, value)
    {
      counters := counters[k := Counter(value, if k in counters then counters[k].expires else None)];
    }

    method ReserveTenant(c: Config, r: Reservation) returns (outcome: ReserveOutcome)
      modifies this`counters, this`markers
      ensures (State(), outcome) == Reserve(c, old(State()), r)
    {
      if r.amount <= 0 {
        return BadAmount;
      }
      if r.id in markers {
        if markers[r.id].identity == r {
          return Replayed;
        }
        return IdentityConflict;
      }
      var userCurrent := GetCounter(r.User());
      var organizationCurrent := GetCounter(r.Organization());
      if userCurrent + r.amount > c.userLimit {
        return OverBudget;
      }
      if organizationCurrent + r.amount > c.organizationLimit {
        return OverBudget;
      }
      IncrBy(r.User(), r.amount);
      IncrBy(r.Organization(), r.amount);
      markers := markers[r.id := Marker(r, now + c.ttl)];
      Expire(r.User(), c.ttl);
      Expire(r.Organization(), c.ttl);
      assert counters == Reserve(c, old(State()), r).0.counters;
      return Reserved;
    }

    /** A caller whose reservation was only a replay leaves it to the one that made it. */
    method ReleaseTenant(r: Reservation, replayed: bool) returns (released: bool)
      modifies this`counters, this`markers
      ensures (State(), released) == if replayed then (old(State()), false) else Release(old(State()), r)
    {
      if replayed {
        return false;
      }
      if r.id !in markers || markers[r.id].identity != r {
        return false;
      }
      var userCurrent := GetCounter(r.User());
      var organizationCurrent := GetCounter(r.Organization());
      SetKeepTtl(r.User(), Max(0, userCurrent - r.amount));
      SetKeepTtl(r.Organization(), Max(0, organizationCurrent - r.amount));
      markers := markers - {r.id};
      return true;
    }

    method SettleTenant(r: Reservation, actual: int) returns (outcome: SettleOutcome)
      modifies this`counters, this`settled
      ensures (State(), outcome) == Settle(old(State()), r, actual)
    {
      if actual < 0 {
        return BadActual;
      }
      if r.id !in markers || markers[r.id].identity != r {
        return SettleConflict;
      }
      if r.id in settled {
        if settled[r.id].actual == actual {
          return AlreadySettled;
        }
        return SettleConflict;
      }
      var ttl := markers[r.id].expires - now;
      if ttl <= 0 {
        return SettleConflict;
      }
      var delta := actual - r.amount;
      IncrBy(r.User(), delta);
      IncrBy(r.Organization(), delta);
      settled := settled[r.id := Settlement(actual, now + ttl)];
      return Settled;
    }

    method Advance(elapsed: nat)
      modifies this
      ensures State() == Tick(old(State()), elapsed)
    {
      var t := Tick(State(), elapsed);
      now, counters, markers, settled := t.now, t.counters, t.markers, t.settled;
    }
  }
}

/** What each budget script answers, what it changes and leaves, and when the whole budget is free again. */
module BudgetAnswers {
  import opened Common
  import opened TokenBudget
  import opened BudgetTheorems

  /** Everything but the two counters of a reservation, its marker and its settlement. */
  ghost predicate SameElsewhere(s: Redis, t: Redis, r: Reservation) {
    && t.now == s.now
    && (forall k | k != r.User() && k != r.Organization() ::
          (k in t.counters <==> k in s.counters) && (k in s.counters ==> t.counters[k] == s.counters[k]))
    && (forall id | id != r.id :: (id in t.markers <==> id in s.markers))
    && (forall id | id != r.id && id in s.markers :: id in t.markers && t.markers[id] == s.markers[id])
    && (forall id | id != r.id :: (id in t.settled <==> id in s.settled))
    && (forall id | id != r.id && id in s.settled :: id in t.settled && t.settled[id] == s.settled[id])
  }

  /**
   A new reservation is accepted exactly when its amount is positive and fits under both limits; it then raises
   both counters by its amount, and counters and marker live for one more time to live.
  */
  lemma ReservationIsDecided(c: Config, s: Redis, r: Reservation)
    ensures var (t, outcome) := Reserve(c, s, r);
      && (outcome == BadAmount <==> r.amount <= 0)
      && (outcome == Replayed <==> r.amount > 0 && r.id in s.markers && s.markers[r.id].identity == r)
      && (outcome == IdentityConflict <==> r.amount > 0 && r.id in s.markers && s.markers[r.id].identity != r)
      && (outcome == Reserved <==>
            && r.amount > 0 && r.id !in s.markers
            && Value(s, UserKey(r.id.organization, r.user)) + r.amount <= c.userLimit
            && Value(s, OrganizationKey(r.id.organization)) + r.amount <= c.organizationLimit)
      && (outcome != Reserved ==> t == s)
      && (outcome == Reserved ==>
            && SameElsewhere(s, t, r) && t.settled == s.settled
            && r.id in t.markers && t.markers[r.id] == Marker(r, s.now + c.ttl)
            && forall k | k == UserKey(r.id.organization, r.user) || k == OrganizationKey(r.id.organization) ::
                 k in t.counters && t.counters[k] == Counter(Value(s, k) + r.amount, Some(s.now + c.ttl)))
  {
  }

  /** A release succeeds exactly on the caller's own marker, and removes it and nothing but its own traces. */
  lemma ReleaseIsDecided(s: Redis, r: Reservation)
    ensures var (t, released) := Release(s, r);
      && (released <==> r.id in s.markers && s.markers[r.id].identity == r)
      && (!released ==> t == s)
      && (released ==> SameElsewhere(s, t, r) && r.id !in t.markers && t.settled == s.settled)
  {
  }

  /** A settlement is accepted exactly once per marker, while the marker has time left, and lives as long as it. */
  lemma SettlementIsDecided(s: Redis, r: Reservation, actual: int)
    ensures var (t, outcome) := Settle(s, r, actual);
      var held := r.id in s.markers && s.markers[r.id].identity == r;
      && (outcome == BadActual <==> actual < 0)
      && (outcome == AlreadySettled <==> actual >= 0 && held && r.id in s.settled && s.settled[r.id].actual == actual)
      && (outcome == Settled <==> actual >= 0 && held && r.id !in s.settled && s.markers[r.id].expires > s.now)
      && (outcome != Settled ==> t == s)
      && (outcome == Settled ==>
            && SameElsewhere(s, t, r) && t.markers == s.markers
            && r.id in t.settled && t.settled[r.id] == Settlement(actual, s.markers[r.id].expires))
  {
  }

  /** Time only removes keys, and exactly those whose expiry has passed. */
  lemma TimeRemovesTheExpired(s: Redis, elapsed: nat)
    ensures var t := Tick(s, elapsed);
      && t.now == s.now + elapsed
      && (forall k :: k in t.counters <==>
            k in s.counters && (s.counters[k].expires.None? || s.counters[k].expires.value >= t.now))
      && (forall k | k in t.counters :: t.counters[k] == s.counters[k])
      && (forall id :: id in t.markers <==> id in s.markers && s.markers[id].expires >= t.now)
      && (forall id | id in t.markers :: t.markers[id] == s.markers[id])
      && (forall id :: id in t.settled <==> id in s.settled && s.settled[id].expires >= t.now)
      && (forall id | id in t.settled :: t.settled[id] == s.settled[id])
  {
  }

  /** After any allowed run, once a full time to live has passed nothing is left of it. */
  lemma BudgetIsFreedInTime(c: Config, now: int, events: seq<Event>, elapsed: nat)
    requires c.Valid() && AllowedRun(c, Init(now), events) && elapsed > c.ttl
    ensures Tick(Run(c, Init(now), events), elapsed) == Init(Run(c, Init(now), events).now + elapsed)
  {
    var s := Run(c, Init(now), events);
    InitInv(c, now);
    RunKeepsInv(c, Init(now), events);
    var t := Tick(s, elapsed);
    forall k ensures k !in t.counters {
      assert k in s.counters ==> CounterOk(c, s, k);
    }
    forall id ensures id !in t.markers {
      assert id in s.markers ==> MarkerOk(c, s, id);
    }
    forall id ensures id !in t.settled {
      if id in s.settled {
        assert SettlementOk(s, id) && MarkerOk(c, s, id);
      }
    }
    assert t.counters == map[] && t.markers == map[] && t.settled == map[];
  }

  /** So any reservation within the limits is accepted then: no run, however it ended, keeps the budget for ever. */
  lemma ReservationsComeBack(c: Config, now: int, events: seq<Event>, elapsed: nat, r: Reservation)
    requires c.Valid() && AllowedRun(c, Init(now), events) && elapsed > c.ttl
    requires 0 < r.amount <= Min(c.userLimit, c.organizationLimit)
    ensures Reserve(c, Tick(Run(c, Init(now), events), elapsed), r).1 == Reserved
  {
    BudgetIsFreedInTime(c, now, events, elapsed);
  }
}

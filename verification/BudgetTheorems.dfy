/** Conservation, hierarchy, bounds and replay of the distributed token budget over whole runs. */
module BudgetTheorems {
  import opened Common
  import opened Sums
  import opened TokenBudget

  // ---------------------------------------------------------------- the invariant

  predicate Charges(r: Reservation, k: CounterKey) {
    r.User() == k || r.Organization() == k
  }

  /** What a live reservation costs: its actual usage once settled, the reserved amount before. */
  function Cost(s: Redis, id: ReservationId): int
    requires id in s.markers
  {
    if id in s.settled then s.settled[id].actual else s.markers[id].identity.amount
  }

  function LiveCharges(s: Redis, k: CounterKey): map<ReservationId, int> {
    map id | id in s.markers && Charges(s.markers[id].identity, k) :: Cost(s, id)
  }

  function UserValues(counters: map<CounterKey, Counter>, organization: int): map<CounterKey, int> {
    map k | k in counters && k.UserKey? && k.organization == organization :: counters[k].value
  }

  /** The counter exists, will expire, and not before `t`. */
  predicate LivesUntil(counters: map<CounterKey, Counter>, k: CounterKey, t: int) {
    k in counters && counters[k].expires.Some? && t <= counters[k].expires.value
  }

  predicate CounterOk(c: Config, s: Redis, k: CounterKey)
    requires k in s.counters
  {
    && LivesUntil(s.counters, k, s.now)
    && s.counters[k].expires.value <= s.now + c.ttl
    && 0 <= s.counters[k].value
    && (k.UserKey? ==> LivesUntil(s.counters, OrganizationKey(k.organization), s.counters[k].expires.value))
  }

  predicate MarkerOk(c: Config, s: Redis, id: ReservationId)
    requires id in s.markers
  {
    var m := s.markers[id];
    && m.identity.id == id && m.identity.amount > 0
    && s.now <= m.expires <= s.now + c.ttl
    && LivesUntil(s.counters, m.identity.User(), m.expires)
    && LivesUntil(s.counters, m.identity.Organization(), m.expires)
  }

  predicate SettlementOk(s: Redis, id: ReservationId)
    requires id in s.settled
  {
    id in s.markers && s.settled[id].expires == s.markers[id].expires && 0 <= s.settled[id].actual
  }

  ghost predicate Covered(s: Redis, k: CounterKey) {
    Sum(LiveCharges(s, k)) <= Value(s, k)
  }

  ghost predicate Nested(s: Redis, organization: int) {
    Sum(UserValues(s.counters, organization)) <= Value(s, OrganizationKey(organization))
  }

  ghost predicate Shape(c: Config, s: Redis) {
    && (forall k {:trigger CounterOk(c, s, k)} | k in s.counters :: CounterOk(c, s, k))
    && (forall id {:trigger MarkerOk(c, s, id)} | id in s.markers :: MarkerOk(c, s, id))
    && (forall id {:trigger SettlementOk(s, id)} | id in s.settled :: SettlementOk(s, id))
  }

  ghost predicate Inv(c: Config, s: Redis) {
    && Shape(c, s)
    && (forall k {:trigger Covered(s, k)} :: Covered(s, k))
    && (forall organization {:trigger Nested(s, organization)} :: Nested(s, organization))
  }

  lemma CostIsNatural(c: Config, s: Redis, id: ReservationId)
    requires Shape(c, s) && id in s.markers
    ensures 0 <= Cost(s, id)
  {
    assert MarkerOk(c, s, id);
    assert id in s.settled ==> SettlementOk(s, id);
  }

  /** A live charge is within every counter it is charged to. */
  lemma ChargeIsCovered(c: Config, s: Redis, id: ReservationId, k: CounterKey)
    requires Shape(c, s) && Covered(s, k) && id in s.markers && Charges(s.markers[id].identity, k)
    ensures 0 <= Cost(s, id) <= Value(s, k)
  {
    var all := LiveCharges(s, k);
    forall i <- all ensures 0 <= all[i] {
      CostIsNatural(c, s, i);
    }
    SumRemove(all, id);
    SumSubset(all - {id}, all);
    CostIsNatural(c, s, id);
  }

  // ---------------------------------------------------------------- one counter pair moves

  /** Both counters of a reservation move by the same amount; nothing else about the counters changes. */
  ghost predicate MovesBoth(s: Redis, t: Redis, r: Reservation, delta: int) {
    && t.counters.Keys == s.counters.Keys + {r.User(), r.Organization()}
    && Value(t, r.User()) == Value(s, r.User()) + delta
    && Value(t, r.Organization()) == Value(s, r.Organization()) + delta
    && forall k <- s.counters :: !Charges(r, k) ==> t.counters[k] == s.counters[k]
  }

  lemma MoveKeepsNested(s: Redis, t: Redis, r: Reservation, delta: int, organization: int)
    requires MovesBoth(s, t, r, delta) && Nested(s, organization)
    ensures Nested(t, organization)
  {
    var before, after := UserValues(s.counters, organization), UserValues(t.counters, organization);
    if organization == r.id.organization {
      assert after == before[r.User() := Value(t, r.User())];
      if r.User() in before {
        SumUpdate(before, r.User(), Value(t, r.User()));
      } else {
        SumInsert(before, r.User(), Value(t, r.User()));
      }
    } else {
      assert after == before;
    }
  }

  // ---------------------------------------------------------------- reserve

  lemma ReserveKeepsShape(c: Config, s: Redis, r: Reservation)
    requires c.Valid() && Shape(c, s) && Reserve(c, s, r).1.Reserved?
    ensures Shape(c, Reserve(c, s, r).0)
  {
    var s' := Reserve(c, s, r).0;
    assert r.User() in s.counters ==> CounterOk(c, s, r.User());
    assert r.Organization() in s.counters ==> CounterOk(c, s, r.Organization());
    forall k | k in s'.counters ensures CounterOk(c, s', k) {
      assert k in s.counters ==> CounterOk(c, s, k);
      var o := OrganizationKey(k.organization);
      assert o in s.counters ==> CounterOk(c, s, o);
    }
    forall id | id in s'.markers ensures MarkerOk(c, s', id) {
      if id in s.markers {
        assert MarkerOk(c, s, id);
        var m := s.markers[id].identity;
        assert CounterOk(c, s, m.User()) && CounterOk(c, s, m.Organization());
      }
    }
    forall id | id in s'.settled ensures SettlementOk(s', id) {
      assert SettlementOk(s, id);
    }
  }

  lemma ReserveKeepsCovered(c: Config, s: Redis, r: Reservation, k: CounterKey)
    requires Shape(c, s) && Covered(s, k) && Reserve(c, s, r).1.Reserved?
    ensures Covered(Reserve(c, s, r).0, k)
  {
    var s' := Reserve(c, s, r).0;
    assert r.id in s.settled ==> SettlementOk(s, r.id);
    if Charges(r, k) {
      assert LiveCharges(s', k) == LiveCharges(s, k)[r.id := r.amount];
      SumInsert(LiveCharges(s, k), r.id, r.amount);
    } else {
      assert LiveCharges(s', k) == LiveCharges(s, k);
    }
  }

  lemma ReserveKeepsInv(c: Config, s: Redis, r: Reservation)
    requires c.Valid() && Inv(c, s)
    ensures Inv(c, Reserve(c, s, r).0)
  {
    var (s', outcome) := Reserve(c, s, r);
    if outcome.Reserved? {
      ReserveKeepsShape(c, s, r);
      forall k ensures Covered(s', k) {
        ReserveKeepsCovered(c, s, r, k);
      }
      forall organization ensures Nested(s', organization) {
        MoveKeepsNested(s, s', r, r.amount, organization);
      }
    }
  }

  // ---------------------------------------------------------------- release and settle

  /**
   Release takes exactly the reserved amount off both counters and keeps their expiry: the clamp at
   zero never bites and no counter is written back without an expiry.
  */
  lemma ReleaseIsExact(c: Config, s: Redis, r: Reservation)
    requires Inv(c, s) && IsHeld(s, r) && r.id !in s.settled
    ensures r.User() in s.counters && r.Organization() in s.counters
    ensures Release(s, r).0.counters ==
              s.counters[r.User() := s.counters[r.User()].(value := s.counters[r.User()].value - r.amount)]
                        [r.Organization() :=
                           s.counters[r.Organization()].(value := s.counters[r.Organization()].value - r.amount)]
    ensures MovesBoth(s, Release(s, r).0, r, -r.amount)
  {
    assert MarkerOk(c, s, r.id);
    assert Covered(s, r.User()) && Covered(s, r.Organization());
    ChargeIsCovered(c, s, r.id, r.User());
    ChargeIsCovered(c, s, r.id, r.Organization());
  }

  /** Settlement replaces the reserved amount by the actual one on two counters that both still exist. */
  lemma SettleIsExact(c: Config, s: Redis, r: Reservation, actual: int)
    requires Inv(c, s) && Settle(s, r, actual).1.Settled?
    ensures r.User() in s.counters && r.Organization() in s.counters
    ensures Settle(s, r, actual).0.counters ==
              s.counters[r.User() := s.counters[r.User()].(value := s.counters[r.User()].value + actual - r.amount)]
                        [r.Organization() := s.counters[r.Organization()].(
                           value := s.counters[r.Organization()].value + actual - r.amount)]
    ensures MovesBoth(s, Settle(s, r, actual).0, r, actual - r.amount)
    ensures r.amount <= Value(s, r.User()) && r.amount <= Value(s, r.Organization())
  {
    assert MarkerOk(c, s, r.id);
    assert Covered(s, r.User()) && Covered(s, r.Organization());
    ChargeIsCovered(c, s, r.id, r.User());
    ChargeIsCovered(c, s, r.id, r.Organization());
  }

  /** New values at least zero on the same keys with the same expiries keep every counter well formed. */
  lemma RevaluedCounters(c: Config, s: Redis, t: Redis)
    requires Shape(c, s) && t.now == s.now && t.counters.Keys == s.counters.Keys
    requires forall k <- s.counters :: t.counters[k].expires == s.counters[k].expires && 0 <= t.counters[k].value
    ensures forall k {:trigger CounterOk(c, t, k)} | k in t.counters :: CounterOk(c, t, k)
    ensures forall id | id in s.markers && id in t.markers && t.markers[id] == s.markers[id] :: MarkerOk(c, t, id)
  {
    forall k | k in t.counters ensures CounterOk(c, t, k) {
      assert CounterOk(c, s, k);
    }
    forall id | id in s.markers && id in t.markers && t.markers[id] == s.markers[id]
      ensures MarkerOk(c, t, id)
    {
      assert MarkerOk(c, s, id);
    }
  }

  lemma ReleaseKeepsShape(c: Config, s: Redis, r: Reservation)
    requires Inv(c, s) && IsHeld(s, r) && r.id !in s.settled
    ensures Shape(c, Release(s, r).0)
  {
    var s' := Release(s, r).0;
    ReleaseIsExact(c, s, r);
    ChargeIsCovered(c, s, r.id, r.User());
    ChargeIsCovered(c, s, r.id, r.Organization());
    forall k <- s.counters ensures 0 <= s'.counters[k].value {
      assert CounterOk(c, s, k);
    }
    RevaluedCounters(c, s, s');
    forall id | id in s'.settled ensures SettlementOk(s', id) {
      assert SettlementOk(s, id);
    }
  }

  lemma ReleaseKeepsCovered(c: Config, s: Redis, r: Reservation, k: CounterKey)
    requires IsHeld(s, r) && r.id !in s.settled && MovesBoth(s, Release(s, r).0, r, -r.amount) && Covered(s, k)
    ensures Covered(Release(s, r).0, k)
  {
    var s' := Release(s, r).0;
    if Charges(r, k) {
      SumRemove(LiveCharges(s, k), r.id);
      assert LiveCharges(s', k) == LiveCharges(s, k) - {r.id};
    } else {
      assert LiveCharges(s', k) == LiveCharges(s, k);
    }
  }

  lemma ReleaseKeepsInv(c: Config, s: Redis, r: Reservation)
    requires Inv(c, s) && Allowed(s, ReleaseEvent(r))
    ensures Inv(c, Release(s, r).0)
  {
    if IsHeld(s, r) {
      var s' := Release(s, r).0;
      ReleaseIsExact(c, s, r);
      ReleaseKeepsShape(c, s, r);
      forall k ensures Covered(s', k) {
        ReleaseKeepsCovered(c, s, r, k);
      }
      forall organization ensures Nested(s', organization) {
        MoveKeepsNested(s, s', r, -r.amount, organization);
      }
    }
  }

  lemma SettleKeepsShape(c: Config, s: Redis, r: Reservation, actual: int)
    requires Inv(c, s) && Settle(s, r, actual).1.Settled?
    ensures Shape(c, Settle(s, r, actual).0)
  {
    var s' := Settle(s, r, actual).0;
    SettleIsExact(c, s, r, actual);
    forall k <- s.counters ensures 0 <= s'.counters[k].value {
      assert CounterOk(c, s, k);
    }
    RevaluedCounters(c, s, s');
    forall id | id in s'.settled ensures SettlementOk(s', id) {
      assert id in s.settled ==> SettlementOk(s, id);
    }
  }

  lemma SettleKeepsCovered(s: Redis, r: Reservation, actual: int, k: CounterKey)
    requires Settle(s, r, actual).1.Settled? && MovesBoth(s, Settle(s, r, actual).0, r, actual - r.amount)
    requires Covered(s, k)
    ensures Covered(Settle(s, r, actual).0, k)
  {
    var s' := Settle(s, r, actual).0;
    if Charges(r, k) {
      assert LiveCharges(s', k) == LiveCharges(s, k)[r.id := actual];
      SumUpdate(LiveCharges(s, k), r.id, actual);
    } else {
      assert LiveCharges(s', k) == LiveCharges(s, k);
    }
  }

  lemma SettleKeepsInv(c: Config, s: Redis, r: Reservation, actual: int)
    requires Inv(c, s)
    ensures Inv(c, Settle(s, r, actual).0)
  {
    var (s', outcome) := Settle(s, r, actual);
    if outcome.Settled? {
      SettleIsExact(c, s, r, actual);
      SettleKeepsShape(c, s, r, actual);
      forall k ensures Covered(s', k) {
        SettleKeepsCovered(s, r, actual, k);
      }
      forall organization ensures Nested(s', organization) {
        MoveKeepsNested(s, s', r, actual - r.amount, organization);
      }
    }
  }

  // ---------------------------------------------------------------- expiry

  lemma TickKeepsShape(c: Config, s: Redis, elapsed: nat)
    requires Shape(c, s)
    ensures Shape(c, Tick(s, elapsed))
  {
    var t := Tick(s, elapsed);
    forall k | k in t.counters ensures CounterOk(c, t, k) {
      assert CounterOk(c, s, k);
    }
    forall id | id in t.markers ensures MarkerOk(c, t, id) {
      assert MarkerOk(c, s, id);
    }
    forall id | id in t.settled ensures SettlementOk(t, id) {
      assert SettlementOk(s, id);
    }
  }

  /** Markers take their settlement with them and never outlive a counter they are charged to. */
  lemma TickKeepsCovered(c: Config, s: Redis, elapsed: nat, k: CounterKey)
    requires Shape(c, s) && Covered(s, k)
    ensures Covered(Tick(s, elapsed), k)
  {
    var t := Tick(s, elapsed);
    var before, after := LiveCharges(s, k), LiveCharges(t, k);
    forall id <- before ensures 0 <= before[id] {
      CostIsNatural(c, s, id);
    }
    forall id <- after ensures id in before && after[id] == before[id] && k in t.counters {
      assert MarkerOk(c, s, id);
      assert id in s.settled ==> SettlementOk(s, id);
    }
    if k in t.counters {
      SumSubset(after, before);
    } else {
      assert after == map[];
    }
  }

  lemma TickKeepsNested(c: Config, s: Redis, elapsed: nat, organization: int)
    requires Shape(c, s) && Nested(s, organization)
    ensures Nested(Tick(s, elapsed), organization)
  {
    var t := Tick(s, elapsed);
    var before, after := UserValues(s.counters, organization), UserValues(t.counters, organization);
    forall k <- before ensures 0 <= before[k] {
      assert CounterOk(c, s, k);
    }
    forall k <- after ensures OrganizationKey(organization) in t.counters {
      assert CounterOk(c, s, k);
    }
    if OrganizationKey(organization) in t.counters {
      SumSubset(after, before);
    } else {
      assert after == map[];
    }
  }

  lemma StepKeepsInv(c: Config, s: Redis, ev: Event)
    requires c.Valid() && Inv(c, s) && Allowed(s, ev)
    ensures Inv(c, Step(c, s, ev))
  {
    match ev
    case ReserveEvent(r) => ReserveKeepsInv(c, s, r);
    case ReleaseEvent(r) => ReleaseKeepsInv(c, s, r);
    case SettleEvent(r, actual) => SettleKeepsInv(c, s, r, actual);
    case TickEvent(elapsed) =>
      TickKeepsShape(c, s, elapsed);
      forall k ensures Covered(Tick(s, elapsed), k) {
        TickKeepsCovered(c, s, elapsed, k);
      }
      forall organization ensures Nested(Tick(s, elapsed), organization) {
        TickKeepsNested(c, s, elapsed, organization);
      }
  }

  lemma InitInv(c: Config, now: int)
    ensures Inv(c, Init(now))
  {
    forall k ensures Covered(Init(now), k) {
      assert LiveCharges(Init(now), k) == map[];
    }
    forall organization ensures Nested(Init(now), organization) {
      assert UserValues(Init(now).counters, organization) == map[];
    }
  }

  lemma {:induction false} RunKeepsInv(c: Config, s: Redis, events: seq<Event>)
    requires c.Valid() && Inv(c, s) && AllowedRun(c, s, events)
    ensures Inv(c, Run(c, s, events))
    decreases |events|
  {
    if events != [] {
      StepKeepsInv(c, s, events[0]);
      RunKeepsInv(c, Step(c, s, events[0]), events[1..]);
    }
  }

  // ---------------------------------------------------------------- whole runs

  /**
   Conservation: in every reachable state each counter will expire, but not before any reservation
   charged to it, and it covers the total of the live charges; and what the users of an organization
   hold together never exceeds what the organization holds.
  */
  lemma BudgetIsConserved(c: Config, now: int, events: seq<Event>)
    requires c.Valid() && AllowedRun(c, Init(now), events)
    ensures var s := Run(c, Init(now), events);
      && (forall k <- s.counters :: s.counters[k].expires.Some?)
      && (forall id, k | id in s.markers && Charges(s.markers[id].identity, k) ::
            LivesUntil(s.counters, k, s.markers[id].expires))
      && (forall k :: Sum(LiveCharges(s, k)) <= Value(s, k))
      && (forall organization ::
            Sum(UserValues(s.counters, organization)) <= Value(s, OrganizationKey(organization)))
  {
    var s := Run(c, Init(now), events);
    InitInv(c, now);
    RunKeepsInv(c, Init(now), events);
    forall k <- s.counters ensures s.counters[k].expires.Some? {
      assert CounterOk(c, s, k);
    }
    forall id, k | id in s.markers && Charges(s.markers[id].identity, k)
      ensures LivesUntil(s.counters, k, s.markers[id].expires)
    {
      assert MarkerOk(c, s, id);
    }
    forall k ensures Sum(LiveCharges(s, k)) <= Value(s, k) {
      assert Covered(s, k);
    }
    forall organization
      ensures Sum(UserValues(s.counters, organization)) <= Value(s, OrganizationKey(organization))
    {
      assert Nested(s, organization);
    }
  }

  /** Usage settled above its reservation on a counter since the counter last accepted a reservation. */
  function Overshoot(c: Config, s: Redis, ev: Event, k: CounterKey, over: nat): nat {
    match ev
    case ReserveEvent(r) => if Charges(r, k) && Reserve(c, s, r).1.Reserved? then 0 else over
    case SettleEvent(r, actual) =>
      if Charges(r, k) && Settle(s, r, actual).1.Settled? then over + Max(0, actual - r.amount) else over
    case _ => over
  }

  function TotalOvershoot(c: Config, s: Redis, events: seq<Event>, k: CounterKey, over: nat): nat
    decreases |events|
  {
    if events == [] then over
    else TotalOvershoot(c, Step(c, s, events[0]), events[1..], k, Overshoot(c, s, events[0], k, over))
  }

  lemma StepKeepsBound(c: Config, s: Redis, ev: Event, k: CounterKey, over: nat)
    requires c.Valid() && Inv(c, s) && Allowed(s, ev) && Value(s, k) <= Limit(c, k) + over
    ensures Value(Step(c, s, ev), k) <= Limit(c, k) + Overshoot(c, s, ev, k, over)
  {
    match ev
    case ReserveEvent(r) =>
    case ReleaseEvent(r) =>
      if IsHeld(s, r) {
        ReleaseIsExact(c, s, r);
        assert MarkerOk(c, s, r.id);
      }
    case SettleEvent(r, actual) =>
      if Settle(s, r, actual).1.Settled? {
        SettleIsExact(c, s, r, actual);
      }
    case TickEvent(elapsed) =>
  }

  /** No counter ever exceeds its limit by more than what settlements added above their reservations. */
  lemma {:induction false} CountersAreBounded(c: Config, s: Redis, events: seq<Event>, k: CounterKey, over: nat)
    requires c.Valid() && Inv(c, s) && AllowedRun(c, s, events) && Value(s, k) <= Limit(c, k) + over
    ensures Value(Run(c, s, events), k) <= Limit(c, k) + TotalOvershoot(c, s, events, k, over)
    decreases |events|
  {
    if events != [] {
      StepKeepsBound(c, s, events[0], k, over);
      StepKeepsInv(c, s, events[0]);
      CountersAreBounded(c, Step(c, s, events[0]), events[1..], k, Overshoot(c, s, events[0], k, over));
    }
  }

  // ---------------------------------------------------------------- replay

  lemma {:induction false} RunAppend(c: Config, s: Redis, a: seq<Event>, b: seq<Event>)
    ensures Run(c, s, a + b) == Run(c, Run(c, s, a), b)
    decreases |a|
  {
    if a == [] {
      assert a + b == b;
    } else {
      assert (a + b)[1..] == a[1..] + b;
      RunAppend(c, Step(c, s, a[0]), a[1..], b);
    }
  }

  /** The reservation is live and, if `actual` is given, settled at that amount. */
  predicate Stands(s: Redis, r: Reservation, expires: int, actual: Option<int>) {
    && s.now <= expires
    && r.id in s.markers && s.markers[r.id] == Marker(r, expires)
    && (actual.Some? ==> r.id in s.settled && s.settled[r.id] == Settlement(actual.value, expires))
  }

  lemma {:induction false} ReservationStands(c: Config, s: Redis, events: seq<Event>, r: Reservation, expires: int,
                                             actual: Option<int>)
    requires Stands(s, r, expires, actual) && ReleaseEvent(r) !in events
    requires Run(c, s, events).now <= expires
    ensures Stands(Run(c, s, events), r, expires, actual)
    decreases |events|
  {
    if events != [] {
      var s' := Step(c, s, events[0]);
      ClockAdvances(c, s', events[1..]);
      ReservationStands(c, s', events[1..], r, expires, actual);
    }
  }

  lemma {:induction false} ClockAdvances(c: Config, s: Redis, events: seq<Event>)
    ensures s.now <= Run(c, s, events).now
    decreases |events|
  {
    if events != [] {
      ClockAdvances(c, Step(c, s, events[0]), events[1..]);
    }
  }

  /** The event is accepted and the reservation it leaves behind expires at `expires`. */
  predicate Accepted(c: Config, s: Redis, ev: Event, expires: int) {
    match ev
    case ReserveEvent(r) => Reserve(c, s, r).1.Reserved? && expires == s.now + c.ttl
    case SettleEvent(r, actual) => Settle(s, r, actual).1.Settled? && expires == s.markers[r.id].expires
    case _ => false
  }

  /** A second copy of an accepted reserve or settle while its reservation is neither released nor expired. */
  predicate IsRepeat(c: Config, s: Redis, events: seq<Event>, i: nat, j: nat, expires: int) {
    && i < j < |events| && events[i] == events[j]
    && Accepted(c, Run(c, s, events[..i]), events[i], expires)
    && ReleaseEvent(events[i].reservation) !in events[i + 1..j]
    && Run(c, s, events[..j]).now <= expires
  }

  /** A repeat changes nothing. */
  lemma RepeatIsIdle(c: Config, s: Redis, events: seq<Event>, i: nat, j: nat, expires: int)
    requires c.Valid() && IsRepeat(c, s, events, i, j, expires)
    ensures Step(c, Run(c, s, events[..j]), events[j]) == Run(c, s, events[..j])
  {
    var si := Run(c, s, events[..i]);
    var ev, between := events[i], events[i + 1..j];
    var actual := if ev.SettleEvent? then Some(ev.actual) else None;
    assert events[..j] == events[..i] + ([ev] + between);
    RunAppend(c, s, events[..i], [ev] + between);
    assert ([ev] + between)[1..] == between;
    ReservationStands(c, Step(c, si, ev), between, ev.reservation, expires, actual);
  }

  /** The events whose positions are not dropped, in order. */
  function Without(events: seq<Event>, drop: set<nat>): seq<Event> {
    if events == [] then []
    else
      var last := |events| - 1;
      Without(events[..last], drop) + if last in drop then [] else [events[last]]
  }

  lemma RunOfOne(c: Config, s: Redis, events: seq<Event>, ev: Event)
    ensures Run(c, s, events + [ev]) == Step(c, Run(c, s, events), ev)
  {
    RunAppend(c, s, events, [ev]);
    assert [ev][1..] == [];
    assert Run(c, Run(c, s, events), [ev]) == Run(c, Step(c, Run(c, s, events), ev), []);
  }

  lemma {:induction false} IdleEventsCanBeDropped(c: Config, s: Redis, events: seq<Event>, drop: set<nat>)
    requires forall j | j in drop && j < |events| ::
               Step(c, Run(c, s, events[..j]), events[j]) == Run(c, s, events[..j])
    ensures Run(c, s, Without(events, drop)) == Run(c, s, events)
  {
    if events != [] {
      var last := |events| - 1;
      var front := events[..last];
      forall j | j in drop && j < |front| ensures front[..j] == events[..j] {}
      IdleEventsCanBeDropped(c, s, front, drop);
      assert events == front + [events[last]];
      RunOfOne(c, s, front, events[last]);
      if last in drop {
        assert Without(events, drop) == Without(front, drop);
      } else {
        RunOfOne(c, s, Without(front, drop), events[last]);
      }
    }
  }

  /** Replay refinement: a run and the run without any of its repeats, all of them included, end in the same state. */
  lemma RepeatsCanBeRemoved(c: Config, s: Redis, events: seq<Event>, repeats: set<nat>)
    requires c.Valid()
    requires forall j | j in repeats :: j < |events| && exists i, expires :: IsRepeat(c, s, events, i, j, expires)
    ensures Run(c, s, Without(events, repeats)) == Run(c, s, events)
  {
    forall j | j in repeats && j < |events|
      ensures Step(c, Run(c, s, events[..j]), events[j]) == Run(c, s, events[..j])
    {
      var i, expires :| IsRepeat(c, s, events, i, j, expires);
      RepeatIsIdle(c, s, events, i, j, expires);
    }
    IdleEventsCanBeDropped(c, s, events, repeats);
  }

  /** While a reservation stands, another identity or another actual amount under its id changes nothing. */
  lemma ConflictsChangeNothing(c: Config, s: Redis, events: seq<Event>, r: Reservation, expires: int,
                               actual: Option<int>, other: Reservation, amount: int)
    requires Stands(s, r, expires, actual) && ReleaseEvent(r) !in events
    requires Run(c, s, events).now <= expires
    requires other.id == r.id && (other != r || (actual.Some? && amount != actual.value))
    ensures var t := Run(c, s, events);
      && Settle(t, other, amount).0 == t && !Settle(t, other, amount).1.Settled?
      && (other != r ==> Reserve(c, t, other).0 == t && Release(t, other).0 == t
                         && !Reserve(c, t, other).1.Reserved? && !Reserve(c, t, other).1.Replayed?)
  {
    ReservationStands(c, s, events, r, expires, actual);
  }

  /** Both counters of a reservation give back exactly what it costs. */
  predicate Refunds(s: Redis, t: Redis, r: Reservation)
    requires r.id in s.markers
  {
    && Value(t, r.User()) == Value(s, r.User()) - Cost(s, r.id)
    && Value(t, r.Organization()) == Value(s, r.Organization()) - Cost(s, r.id)
  }

  /**
   Releasing gives back exactly what the reservation costs if it has not been settled, and otherwise
   only if it was settled at the reserved amount or is all that both counters hold, where the clamp helps.
  */
  lemma ReleaseRefundsUnsettled(c: Config, s: Redis, r: Reservation)
    requires Inv(c, s) && IsHeld(s, r)
    ensures Refunds(s, Release(s, r).0, r) <==>
              r.id in s.settled ==>
                var actual := s.settled[r.id].actual;
                actual == r.amount
                || (actual < r.amount && Value(s, r.User()) == actual && Value(s, r.Organization()) == actual)
  {
    assert Covered(s, r.User()) && Covered(s, r.Organization());
    ChargeIsCovered(c, s, r.id, r.User());
    ChargeIsCovered(c, s, r.id, r.Organization());
    assert MarkerOk(c, s, r.id);
  }

  /**
   Why a settled reservation must not be released: the script subtracts the reserved amount again and
   the clamp then swallows usage that another live reservation still accounts for.
  */
  lemma ReleaseAfterSettleLosesCharges() returns (c: Config, events: seq<Event>, other: Reservation)
    ensures c.Valid()
    ensures var s := Run(c, Init(0), events);
      IsHeld(s, other) && other.id !in s.settled && Value(s, other.Organization()) < other.amount
  {
    c := Config(100, 100, 60);
    var r := Reservation(ReservationId(1, "a"), 1, 10);
    other := Reservation(ReservationId(1, "b"), 2, 5);
    events := [ReserveEvent(r), ReserveEvent(other), SettleEvent(r, 2), ReleaseEvent(r)];
    var s1 := Reserve(c, Init(0), r).0;
    var s2 := Reserve(c, s1, other).0;
    var s3 := Settle(s2, r, 2).0;
    var s4 := Release(s3, r).0;
    assert events[1..][1..][1..][1..] == [] && Run(c, s4, []) == s4;
    assert events[1..][1..][1..][0] == ReleaseEvent(r) && Run(c, s3, events[1..][1..][1..]) == s4;
    assert events[1..][1..][0] == SettleEvent(r, 2) && Run(c, s2, events[1..][1..]) == s4;
    assert events[1..][0] == ReserveEvent(other) && Run(c, s1, events[1..]) == s4;
    assert Run(c, Init(0), events) == s4;
  }

  /**
   Two callers that each release only before and settle only after persisting can still do so together.
   The first reserves and outlives its marker; the second reserves the same identity afresh; the first
   settles on the second's marker; the second fails before it persists and releases.
  */
  lemma CallersTogetherReleaseSettled() returns (c: Config, r: Reservation, other: Reservation, events: seq<Event>)
    ensures c.Valid() && events == [ReserveEvent(r), TickEvent(c.ttl + 1), ReserveEvent(r), ReserveEvent(other),
                                    SettleEvent(r, 2), ReleaseEvent(r)]
    ensures Reserve(c, Init(0), r).1.Reserved? && Reserve(c, Run(c, Init(0), events[..2]), r).1.Reserved?
    ensures Settle(Run(c, Init(0), events[..4]), r, 2).1.Settled?
    ensures !Allowed(Run(c, Init(0), events[..5]), events[5])
    ensures var s := Run(c, Init(0), events);
      IsHeld(s, other) && other.id !in s.settled && Value(s, other.Organization()) < other.amount
  {
    c := Config(100, 100, 60);
    r, other := Reservation(ReservationId(1, "a"), 1, 10), Reservation(ReservationId(1, "b"), 2, 5);
    events := [ReserveEvent(r), TickEvent(61), ReserveEvent(r), ReserveEvent(other),
               SettleEvent(r, 2), ReleaseEvent(r)];
    SettledOnANewMarker(c, r, other);
    RunPrefixes(c, Init(0), events);
  }

  /** The states those six events pass through. */
  lemma SettledOnANewMarker(c: Config, r: Reservation, other: Reservation)
    requires c == Config(100, 100, 60)
    requires r == Reservation(ReservationId(1, "a"), 1, 10) && other == Reservation(ReservationId(1, "b"), 2, 5)
    ensures Reserve(c, Init(0), r).1.Reserved?
    ensures var s2 := Tick(Reserve(c, Init(0), r).0, 61);
      && Reserve(c, s2, r).1.Reserved?
      && var s4 := Reserve(c, Reserve(c, s2, r).0, other).0;
      && Settle(s4, r, 2).1.Settled? && r.id in Settle(s4, r, 2).0.settled
      && var s6 := Release(Settle(s4, r, 2).0, r).0;
      && IsHeld(s6, other) && other.id !in s6.settled && Value(s6, other.Organization()) < other.amount
  {
    var s2 := Tick(Reserve(c, Init(0), r).0, 61);
    assert s2 == Redis(61, map[], map[], map[]);
  }

  lemma RunPrefixes(c: Config, s: Redis, events: seq<Event>)
    requires |events| == 6
    ensures Run(c, s, events[..2]) == Step(c, Step(c, s, events[0]), events[1])
    ensures Run(c, s, events[..4]) == Step(c, Step(c, Run(c, s, events[..2]), events[2]), events[3])
    ensures Run(c, s, events[..5]) == Step(c, Run(c, s, events[..4]), events[4])
    ensures Run(c, s, events) == Step(c, Run(c, s, events[..5]), events[5])
  {
    RunOfOne(c, s, [], events[0]);
    RunOfOne(c, s, events[..1], events[1]);
    RunOfOne(c, s, events[..2], events[2]);
    RunOfOne(c, s, events[..3], events[3]);
    RunOfOne(c, s, events[..4], events[4]);
    RunOfOne(c, s, events[..5], events[5]);
    assert events[..1] == [] + [events[0]] && events[..2] == events[..1] + [events[1]];
    assert events[..3] == events[..2] + [events[2]] && events[..4] == events[..3] + [events[3]];
    assert events[..5] == events[..4] + [events[4]] && events == events[..5] + [events[5]];
  }
}

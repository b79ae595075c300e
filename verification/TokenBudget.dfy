/**
 The distributed token budget: three scripts, each atomic over a user counter, an organization
 counter, a reservation marker and a settlement key. A key is readable up to its expiry instant;
 a tick removes the keys whose expiry has passed.
*/
module TokenBudget {
  import opened Common

  /** One time to live and one pair of limits, all positive. */
  datatype Config = Config(userLimit: int, organizationLimit: int, ttl: int)
  {
    predicate Valid() {
      userLimit > 0 && organizationLimit > 0 && ttl > 0
    }
  }

  datatype CounterKey = UserKey(organization: int, user: int) | OrganizationKey(organization: int)

  /** A counter without an expiry would live for ever. */
  datatype Counter = Counter(value: int, expires: Option<int>)

  /** Marker keys are scoped by organization. */
  datatype ReservationId = ReservationId(organization: int, name: string)

  datatype Reservation = Reservation(id: ReservationId, user: int, amount: int)
  {
    function User(): CounterKey {
      UserKey(id.organization, user)
    }

    function Organization(): CounterKey {
      OrganizationKey(id.organization)
    }
  }

  /** The marker's value is the identity of the reservation that wrote it. */
  datatype Marker = Marker(identity: Reservation, expires: int)
  datatype Settlement = Settlement(actual: int, expires: int)

  datatype Redis = Redis(now: int, counters: map<CounterKey, Counter>, markers: map<ReservationId, Marker>,
                         settled: map<ReservationId, Settlement>)

  function Value(s: Redis, k: CounterKey): int {
    if k in s.counters then s.counters[k].value else 0
  }

  function Limit(c: Config, k: CounterKey): int {
    if k.UserKey? then c.userLimit else c.organizationLimit
  }

  predicate IsHeld(s: Redis, r: Reservation) {
    r.id in s.markers && s.markers[r.id].identity == r
  }

  datatype ReserveOutcome = Reserved | Replayed | OverBudget | IdentityConflict | BadAmount

  function Reserve(c: Config, s: Redis, r: Reservation): (Redis, ReserveOutcome) {
    if r.amount <= 0 then (s, BadAmount)
    else if r.id in s.markers then (s, if IsHeld(s, r) then Replayed else IdentityConflict)
    else if Value(s, r.User()) + r.amount > c.userLimit then (s, OverBudget)
    else if Value(s, r.Organization()) + r.amount > c.organizationLimit then (s, OverBudget)
    else
      var expires := s.now + c.ttl;
      (s.(counters := s.counters[r.User() := Counter(Value(s, r.User()) + r.amount, Some(expires))]
                                [r.Organization() := Counter(Value(s, r.Organization()) + r.amount, Some(expires))],
          markers := s.markers[r.id := Marker(r, expires)]),
       Reserved)
  }

  /** SET with KEEPTTL: a key that is not there comes back without an expiry. */
  function Overwrite(counters: map<CounterKey, Counter>, k: CounterKey, value: int): map<CounterKey, Counter> {
    counters[k := Counter(value, if k in counters then counters[k].expires else None)]
  }

  function Release(s: Redis, r: Reservation): (Redis, bool) {
    if !IsHeld(s, r) then (s, false)
    else
      var counters := Overwrite(s.counters, r.User(), Max(0, Value(s, r.User()) - r.amount));
      (s.(counters := Overwrite(counters, r.Organization(), Max(0, Value(s, r.Organization()) - r.amount)),
          markers := s.markers - {r.id}),
       true)
  }

  datatype SettleOutcome = Settled | AlreadySettled | SettleConflict | BadActual

  function Settle(s: Redis, r: Reservation, actual: int): (Redis, SettleOutcome) {
    if actual < 0 then (s, BadActual)
    else if !IsHeld(s, r) then (s, SettleConflict)
    else if r.id in s.settled then
      (s, if s.settled[r.id].actual == actual then AlreadySettled else SettleConflict)
    else if s.markers[r.id].expires - s.now <= 0 then (s, SettleConflict)
    else
      var counters := Overwrite(s.counters, r.User(), Value(s, r.User()) + actual - r.amount);
      (s.(counters := Overwrite(counters, r.Organization(), Value(s, r.Organization()) + actual - r.amount),
          settled := s.settled[r.id := Settlement(actual, s.markers[r.id].expires)]),
       Settled)
  }

  /** Time passes and expired keys disappear. */
  function Tick(s: Redis, elapsed: nat): Redis {
    var now := s.now + elapsed;
    Redis(now,
          map k | k in s.counters && (s.counters[k].expires.None? || now <= s.counters[k].expires.value) ::
            s.counters[k],
          map id | id in s.markers && now <= s.markers[id].expires :: s.markers[id],
          map id | id in s.settled && now <= s.settled[id].expires :: s.settled[id])
  }

  datatype Event =
    | ReserveEvent(reservation: Reservation)
    | ReleaseEvent(reservation: Reservation)
    | SettleEvent(reservation: Reservation, actual: int)
    | TickEvent(elapsed: nat)

  function Step(c: Config, s: Redis, ev: Event): Redis {
    match ev
    case ReserveEvent(r) => Reserve(c, s, r).0
    case ReleaseEvent(r) => Release(s, r).0
    case SettleEvent(r, actual) => Settle(s, r, actual).0
    case TickEvent(elapsed) => Tick(s, elapsed)
  }

  /** Callers release only what they have not settled. */
  predicate Allowed(s: Redis, ev: Event) {
    ev.ReleaseEvent? ==> ev.reservation.id !in s.settled
  }

  function Run(c: Config, s: Redis, events: seq<Event>): Redis
    decreases |events|
  {
    if events == [] then s else Run(c, Step(c, s, events[0]), events[1..])
  }

  predicate AllowedRun(c: Config, s: Redis, events: seq<Event>)
    decreases |events|
  {
    events == [] || (Allowed(s, events[0]) && AllowedRun(c, Step(c, s, events[0]), events[1..]))
  }

  function Init(now: int): Redis {
    Redis(now, map[], map[], map[])
  }
}

/** Streaming: provider chunks, heartbeats, disconnects and lease loss multiplexed into one event sequence. */
module StreamLifecycle {
  import opened Common

  /** What one read of the provider's stream gives. */
  datatype Reply = Chunk(text: string) | Stop | Raised

  /** A provider's stream: its chunks, then its end or a failure; a finished stream stays finished. */
  datatype Provider = Provider(chunks: seq<string>, fails: bool)
  {
    function Read(k: nat): Reply {
      if k < |chunks| then Chunk(chunks[k])
      else if k == |chunks| && fails then Raised
      else Stop
    }
  }

  datatype Config = Config(heartbeat: real, timeout: real, leased: bool)

  /** A read under way: which read of the stream it is, its deadline, and whether it has finished. */
  datatype Task = Task(read: nat, deadline: real, finished: bool)

  datatype Pump = Pump(begun: nat, task: Option<Task>, disconnected: bool, leaseLost: bool, closed: bool,
                       streamCloses: nat)
  {
    /** Reads whose reply has been taken by the caller. */
    function Taken(): int {
      if task.Some? then begun - 1 else begun
    }
  }

  const IDLE := Pump(0, None, false, false, false, 0)

  datatype Event = Token(text: string) | Heartbeat | End | Disconnected | LeaseLost | Timeout | Failure

  /**
   One wait, as the event loop decides it: the clock when a read is started, when the timer is armed
   and after the wait, and which of the waited-for tasks are done.
  */
  datatype Wake = Wake(started: real, armed: real, woken: real, chunk: bool, disconnect: bool, lease: bool, timer: bool)

  function Armed(config: Config, p: Pump, w: Wake): Task {
    if p.task.Some? then p.task.value else Task(p.begun, w.started + config.timeout, false)
  }

  function Remaining(config: Config, p: Pump, w: Wake): real {
    var left := Armed(config, p, w).deadline - w.armed;
    if left < 0.0 then 0.0 else left
  }

  function Sleep(config: Config, p: Pump, w: Wake): real {
    if config.heartbeat <= Remaining(config, p, w) then config.heartbeat else Remaining(config, p, w)
  }

  /** What the event loop guarantees: something is done, done stays done, the timer takes its time. */
  predicate Possible(config: Config, p: Pump, now: real, w: Wake) {
    && now <= w.started <= w.armed <= w.woken
    && (w.chunk || w.disconnect || w.lease || w.timer)
    && (w.lease ==> config.leased)
    && (p.disconnected ==> w.disconnect)
    && (p.leaseLost ==> w.lease)
    && (p.task.Some? && p.task.value.finished ==> w.chunk)
    && (w.timer ==> w.armed + Sleep(config, p, w) <= w.woken)
  }

  function Taking(reply: Reply): Event {
    match reply
    case Chunk(text) => Token(text)
    case Stop => End
    case Raised => Failure
  }

  /** One call for the next event. */
  function Next(config: Config, provider: Provider, p: Pump, w: Wake): (Pump, Event) {
    if p.closed then (p, End)
    else
      var task := Armed(config, p, w);
      var q := p.(begun := if p.task.Some? then p.begun else p.begun + 1, task := Some(task.(finished := w.chunk)),
                  disconnected := w.disconnect, leaseLost := w.lease);
      if w.disconnect then (q, Disconnected)
      else if w.lease then (q, LeaseLost)
      else if w.chunk then (q.(task := None), Taking(provider.Read(task.read)))
      else if w.woken >= task.deadline then (q, Timeout)
      else (q, Heartbeat)
  }

  function Close(p: Pump): Pump {
    if p.closed then p else p.(closed := true, streamCloses := p.streamCloses + 1)
  }

  // ---------------------------------------------------------------- runs

  datatype Call = Pull(wake: Wake) | Shut

  function Step(config: Config, provider: Provider, p: Pump, c: Call): (Pump, seq<Event>) {
    match c
    case Pull(w) => var (q, e) := Next(config, provider, p, w); (q, [e])
    case Shut => (Close(p), [])
  }

  function Clock(p: Pump, now: real, c: Call): real {
    if c.Pull? && !p.closed then c.wake.woken else now
  }

  ghost predicate Allowed(config: Config, provider: Provider, p: Pump, now: real, calls: seq<Call>)
    decreases |calls|
  {
    calls != [] ==>
      && (calls[0].Pull? && !p.closed ==> Possible(config, p, now, calls[0].wake))
      && Allowed(config, provider, Step(config, provider, p, calls[0]).0, Clock(p, now, calls[0]), calls[1..])
  }

  function Run(config: Config, provider: Provider, p: Pump, calls: seq<Call>): Pump
    decreases |calls|
  {
    if calls == [] then p else Run(config, provider, Step(config, provider, p, calls[0]).0, calls[1..])
  }

  function Events(config: Config, provider: Provider, p: Pump, calls: seq<Call>): seq<Event>
    decreases |calls|
  {
    if calls == [] then []
    else
      var (q, es) := Step(config, provider, p, calls[0]);
      es + Events(config, provider, q, calls[1..])
  }

  function Texts(events: seq<Event>): seq<string> {
    if events == [] then []
    else (if events[0].Token? then [events[0].text] else []) + Texts(events[1..])
  }

  lemma {:induction false} TextsAppend(a: seq<Event>, b: seq<Event>)
    ensures Texts(a + b) == Texts(a) + Texts(b)
  {
    if a == [] {
      assert a + b == b;
    } else {
      assert (a + b)[1..] == a[1..] + b;
      TextsAppend(a[1..], b);
    }
  }

  // ---------------------------------------------------------------- delivery

  /** At most one read is under way, and it is the latest. */
  predicate Valid(p: Pump) {
    && (p.task.Some? ==> 0 < p.begun && p.task.value.read == p.begun - 1)
    && p.streamCloses == (if p.closed then 1 else 0)
  }

  /** The chunks among the first `taken` replies. */
  function Handed(provider: Provider, taken: int): seq<string> {
    provider.chunks[..Max(0, Min(taken, |provider.chunks|))]
  }

  /** A step hands over at most the next chunk of the stream. */
  lemma StepDelivers(config: Config, provider: Provider, p: Pump, c: Call)
    requires Valid(p)
    ensures var (q, es) := Step(config, provider, p, c);
      && Valid(q)
      && Handed(provider, q.Taken()) == Handed(provider, p.Taken()) + Texts(es)
      && (es == [End] && !p.closed ==> Handed(provider, q.Taken()) == provider.chunks)
  {
    var (q, es) := Step(config, provider, p, c);
    if es != [] {
      assert es[1..] == [];
    }
  }

  /**
   In every run the chunks delivered are a prefix of the provider's stream, in order, nothing lost and
   nothing twice whatever heartbeats, disconnects and timeouts come between.
  */
  lemma {:induction false} DeliveredIsPrefix(config: Config, provider: Provider, p: Pump, calls: seq<Call>)
    requires Valid(p)
    ensures var q := Run(config, provider, p, calls);
      && Valid(q)
      && Handed(provider, q.Taken()) == Handed(provider, p.Taken()) + Texts(Events(config, provider, p, calls))
    decreases |calls|
  {
    if calls != [] {
      var (q, es) := Step(config, provider, p, calls[0]);
      StepDelivers(config, provider, p, calls[0]);
      DeliveredIsPrefix(config, provider, q, calls[1..]);
      TextsAppend(es, Events(config, provider, q, calls[1..]));
    }
  }

  /** An open pump reports the end only when the whole stream has been delivered. */
  lemma EndIsComplete(config: Config, provider: Provider, calls: seq<Call>, w: Wake)
    requires var p := Run(config, provider, IDLE, calls); !p.closed && Next(config, provider, p, w).1 == End
    ensures Texts(Events(config, provider, IDLE, calls)) == provider.chunks
  {
    var p := Run(config, provider, IDLE, calls);
    DeliveredIsPrefix(config, provider, IDLE, calls);
    StepDelivers(config, provider, p, Pull(w));
    assert Texts([End]) == Texts([]) == [];
  }

  // ---------------------------------------------------------------- what an event means

  /** The read that a call of an open pump waits for: the one under way, or a new one. */
  function WaitsFor(p: Pump): nat {
    if p.task.Some? then p.task.value.read else p.begun
  }

  /**
   Each event of an open pump exactly when it is due: a disconnect first, then a lost lease, then a reply,
   which is the stream's next chunk, its failure or its end, and with only the timer a timeout or a heartbeat.
  */
  lemma EventsAreExact(config: Config, provider: Provider, p: Pump, w: Wake)
    requires !p.closed
    ensures var event := Next(config, provider, p, w).1;
      var read := WaitsFor(p);
      var replied := w.chunk && !w.disconnect && !w.lease;
      var silent := !w.chunk && !w.disconnect && !w.lease;
      && (event == Disconnected <==> w.disconnect)
      && (event == LeaseLost <==> w.lease && !w.disconnect)
      && (event.Token? <==> replied && read < |provider.chunks|)
      && (event.Token? ==> event.text == provider.chunks[read])
      && (event == Failure <==> replied && read == |provider.chunks| && provider.fails)
      && (event == End <==> replied && |provider.chunks| <= read && !(read == |provider.chunks| && provider.fails))
      && (event == Timeout <==> silent && Armed(config, p, w).deadline <= w.woken)
      && (event == Heartbeat <==> silent && w.woken < Armed(config, p, w).deadline)
  {
  }

  /** A failing provider's stream is past its end only after the failure was reported. */
  lemma {:induction false} FailureIsReported(config: Config, provider: Provider, p: Pump, calls: seq<Call>)
    requires Valid(p) && provider.fails && p.Taken() <= |provider.chunks|
    requires Run(config, provider, p, calls).Taken() > |provider.chunks|
    ensures Failure in Events(config, provider, p, calls)
    decreases |calls|
  {
    if calls != [] {
      var (q, es) := Step(config, provider, p, calls[0]);
      StepDelivers(config, provider, p, calls[0]);
      if q.Taken() <= |provider.chunks| {
        FailureIsReported(config, provider, q, calls[1..]);
      } else {
        assert es == [Failure];
      }
    }
  }

  /** A provider that failed is never reported as merely ended: the end of a failing stream follows its failure. */
  lemma FailedStreamDoesNotEnd(config: Config, provider: Provider, calls: seq<Call>, w: Wake)
    requires var p := Run(config, provider, IDLE, calls); !p.closed && Next(config, provider, p, w).1 == End
    requires Failure !in Events(config, provider, IDLE, calls)
    ensures !provider.fails
  {
    var p := Run(config, provider, IDLE, calls);
    DeliveredIsPrefix(config, provider, IDLE, calls);
    if provider.fails && p.Taken() > |provider.chunks| {
      FailureIsReported(config, provider, IDLE, calls);
    }
  }

  /** A failure is the provider's, and comes after its last chunk. */
  lemma FailureIsTheProviders(config: Config, provider: Provider, calls: seq<Call>, w: Wake)
    requires var p := Run(config, provider, IDLE, calls); !p.closed && Next(config, provider, p, w).1 == Failure
    ensures provider.fails && Texts(Events(config, provider, IDLE, calls)) == provider.chunks
  {
    var p := Run(config, provider, IDLE, calls);
    DeliveredIsPrefix(config, provider, IDLE, calls);
    assert [] + Texts(Events(config, provider, IDLE, calls)) == Texts(Events(config, provider, IDLE, calls));
  }

  // ---------------------------------------------------------------- deadlines

  /** No read's deadline is further away than one timeout. */
  predicate Punctual(config: Config, p: Pump, now: real) {
    p.task.Some? ==> p.task.value.deadline <= now + config.timeout
  }

  lemma {:induction false} RunsArePunctual(config: Config, provider: Provider, p: Pump, now: real, calls: seq<Call>,
                                           rest: seq<Call>)
    returns (end: real)
    requires config.timeout >= 0.0 && Punctual(config, p, now) && Allowed(config, provider, p, now, calls + rest)
    ensures now <= end && Punctual(config, Run(config, provider, p, calls), end)
    ensures Allowed(config, provider, Run(config, provider, p, calls), end, rest)
    decreases |calls|
  {
    end := now;
    if calls == [] {
      assert calls + rest == rest;
    } else {
      assert (calls + rest)[1..] == calls[1..] + rest;
      end := RunsArePunctual(config, provider, Step(config, provider, p, calls[0]).0, Clock(p, now, calls[0]),
                             calls[1..], rest);
    }
  }

  predicate AllHeartbeats(config: Config, provider: Provider, p: Pump, calls: seq<Call>)
    decreases |calls|
  {
    calls != [] ==>
      && calls[0].Pull?
      && Next(config, provider, p, calls[0].wake).1 == Heartbeat
      && AllHeartbeats(config, provider, Next(config, provider, p, calls[0].wake).0, calls[1..])
  }

  /** A heartbeat leaves the deadline where it is and comes a whole heartbeat after the call, before the deadline. */
  lemma HeartbeatIsLate(config: Config, provider: Provider, p: Pump, now: real, w: Wake)
    requires !p.closed && Possible(config, p, now, w) && Next(config, provider, p, w).1 == Heartbeat
    ensures w.started + config.heartbeat <= w.woken < Armed(config, p, w).deadline
    ensures var q := Next(config, provider, p, w).0;
      q.task == Some(Armed(config, p, w)) && !q.closed && (p.task.Some? ==> q.begun == p.begun)
  {
  }

  lemma {:induction false} HeartbeatsApproachDeadline(config: Config, provider: Provider, p: Pump, now: real,
                                                      beats: seq<Call>)
    requires p.task.Some? && !p.closed && now <= p.task.value.deadline
    requires beats == [] || now < p.task.value.deadline
    requires Allowed(config, provider, p, now, beats) && AllHeartbeats(config, provider, p, beats)
    ensures beats != [] ==> now + Times(|beats|, config.heartbeat) < p.task.value.deadline
    ensures Run(config, provider, p, beats).task == p.task && Run(config, provider, p, beats).begun == p.begun
    decreases |beats|
  {
    if beats != [] {
      var w := beats[0].wake;
      HeartbeatIsLate(config, provider, p, now, w);
      HeartbeatsApproachDeadline(config, provider, Next(config, provider, p, w).0, w.woken, beats[1..]);
    }
  }

  function Times(n: nat, x: real): real {
    if n == 0 then 0.0 else x + Times(n - 1, x)
  }

  lemma {:induction false} TimesIsProduct(n: nat, x: real)
    ensures Times(n, x) == n as real * x
  {
    if n == 0 {
      assert 0.0 * x == 0.0;
    } else {
      TimesIsProduct(n - 1, x);
      OneMore((n - 1) as real, x);
    }
  }

  lemma OneMore(a: real, x: real)
    ensures (a + 1.0) * x == a * x + x
  {
  }

  /** In every run, fewer than timeout / heartbeat heartbeats follow one another. */
  lemma HeartbeatsAreBounded(config: Config, provider: Provider, calls: seq<Call>, beats: seq<Call>)
    requires config.timeout >= 0.0 && beats != []
    requires Allowed(config, provider, IDLE, 0.0, calls + beats)
    requires AllHeartbeats(config, provider, Run(config, provider, IDLE, calls), beats)
    ensures |beats| as real * config.heartbeat < config.timeout
  {
    var now := RunsArePunctual(config, provider, IDLE, 0.0, calls, beats);
    HeartbeatsFit(config, provider, Run(config, provider, IDLE, calls), now, beats);
  }

  /** The first heartbeat may be the one that starts the read. */
  lemma HeartbeatsFit(config: Config, provider: Provider, p: Pump, now: real, beats: seq<Call>)
    requires beats != [] && Punctual(config, p, now)
    requires Allowed(config, provider, p, now, beats) && AllHeartbeats(config, provider, p, beats)
    ensures |beats| as real * config.heartbeat < config.timeout
  {
    var w := beats[0].wake;
    assert !p.closed;
    HeartbeatIsLate(config, provider, p, now, w);
    HeartbeatsApproachDeadline(config, provider, Next(config, provider, p, w).0, w.woken, beats[1..]);
    TimesOfAll(beats, config.heartbeat);
  }

  lemma TimesOfAll(beats: seq<Call>, x: real)
    requires beats != []
    ensures x + Times(|beats[1..]|, x) == |beats| as real * x
  {
    TimesIsProduct(|beats|, x);
  }

  predicate OnlyPulls(calls: seq<Call>) {
    forall i | 0 <= i < |calls| :: calls[i].Pull?
  }

  lemma {:induction false} TakenGrows(config: Config, provider: Provider, p: Pump, calls: seq<Call>)
    ensures p.Taken() <= Run(config, provider, p, calls).Taken()
    decreases |calls|
  {
    if calls != [] {
      TakenGrows(config, provider, Step(config, provider, p, calls[0]).0, calls[1..]);
    }
  }

  /** While no reply is taken the read under way keeps its deadline. */
  lemma {:induction false} SilenceKeepsDeadline(config: Config, provider: Provider, p: Pump, calls: seq<Call>)
    requires p.task.Some? && !p.closed && OnlyPulls(calls)
    requires Run(config, provider, p, calls).Taken() == p.Taken()
    ensures var q := Run(config, provider, p, calls);
      q.task.Some? && q.task.value.deadline == p.task.value.deadline && !q.closed
    decreases |calls|
  {
    if calls != [] {
      var q := Next(config, provider, p, calls[0].wake).0;
      TakenGrows(config, provider, q, calls[1..]);
      SilenceKeepsDeadline(config, provider, q, calls[1..]);
    }
  }

  /** A timeout comes exactly when a wait brings only the timer and its read is a whole timeout old. */
  lemma TimeoutIsOnTime(config: Config, provider: Provider, p: Pump, first: Wake, calls: seq<Call>, last: Wake)
    requires p.task.None? && !p.closed && OnlyPulls(calls)
    requires Run(config, provider, p, [Pull(first)] + calls).Taken() == p.Taken()
    ensures Next(config, provider, Run(config, provider, p, [Pull(first)] + calls), last).1 == Timeout <==>
              !last.disconnect && !last.lease && !last.chunk && first.started + config.timeout <= last.woken
  {
    var q := Next(config, provider, p, first).0;
    assert ([Pull(first)] + calls)[1..] == calls;
    TakenGrows(config, provider, q, calls);
    SilenceKeepsDeadline(config, provider, q, calls);
  }

  // ---------------------------------------------------------------- disconnects and closing

  /** Once the client is gone every event before closing says so, and nothing more is delivered. */
  lemma {:induction false} DisconnectedIsSticky(config: Config, provider: Provider, p: Pump, now: real,
                                                calls: seq<Call>)
    requires p.disconnected && !p.closed && Allowed(config, provider, p, now, calls)
    requires OnlyPulls(calls)
    ensures forall e | e in Events(config, provider, p, calls) :: e == Disconnected
    decreases |calls|
  {
    if calls != [] {
      var q := Next(config, provider, p, calls[0].wake).0;
      DisconnectedIsSticky(config, provider, q, calls[0].wake.woken, calls[1..]);
    }
  }

  /** A lost lease is reported until closing unless the client goes too; nothing more is delivered. */
  lemma {:induction false} LostLeaseIsSticky(config: Config, provider: Provider, p: Pump, now: real, calls: seq<Call>)
    requires p.leaseLost && !p.closed && Allowed(config, provider, p, now, calls)
    requires OnlyPulls(calls)
    ensures forall e | e in Events(config, provider, p, calls) :: e == LeaseLost || e == Disconnected
    decreases |calls|
  {
    if calls != [] {
      LostLeaseIsSticky(config, provider, Next(config, provider, p, calls[0].wake).0, calls[0].wake.woken, calls[1..]);
    }
  }

  /** After closing there are only ends, no read is started and the stream is not closed again. */
  lemma {:induction false} ClosedStaysClosed(config: Config, provider: Provider, p: Pump, calls: seq<Call>)
    requires p.closed
    ensures Run(config, provider, p, calls) == p
    ensures forall e | e in Events(config, provider, p, calls) :: e == End
    decreases |calls|
  {
    if calls != [] {
      ClosedStaysClosed(config, provider, Step(config, provider, p, calls[0]).0, calls[1..]);
    }
  }
}

/** The pump and the finalizer as objects, and the response generator that drives them. */
module StreamServer {
  import opened Common
  import opened StreamLifecycle

  class StreamPump {
    const config: Config
    const provider: Provider
    var chunkTask: Option<Task>
    var disconnectDone: bool
    var leaseDone: bool
    var closed: bool
    var begun: nat
    var streamCloses: nat

    function State(): Pump
      reads this
    {
      Pump(begun, chunkTask, disconnectDone, leaseDone, closed, streamCloses)
    }

    constructor (config: Config, provider: Provider)
      ensures this.config == config && this.provider == provider && State() == IDLE
    {
      this.config, this.provider := config, provider;
      chunkTask, disconnectDone, leaseDone, closed, begun, streamCloses := None, false, false, false, 0, 0;
    }

    /** `wake` is what the event loop decides during this call. */
    method NextEvent(wake: Wake) returns (event: Event)
      modifies this
      ensures (State(), event) == Next(config, provider, old(State()), wake)
    {
      if closed {
        return End;
      }
      if chunkTask.None? {
        chunkTask := Some(Task(begun, wake.started + config.timeout, false));
        begun := begun + 1;
      }
      var deadline := chunkTask.value.deadline;
      chunkTask := Some(chunkTask.value.(finished := wake.chunk));
      disconnectDone, leaseDone := wake.disconnect, wake.lease;
      if disconnectDone {
        return Disconnected;
      }
      if leaseDone {
        return LeaseLost;
      }
      if wake.chunk {
        var reply := provider.Read(chunkTask.value.read);
        chunkTask := None;
        return Taking(reply);
      }
      if wake.woken >= deadline {
        return Timeout;
      }
      return Heartbeat;
    }

    method AClose()
      modifies this
      ensures State() == Close(old(State()))
    {
      if !closed {
        closed := true;
        streamCloses := streamCloses + 1;
      }
    }
  }

  datatype Terminal = Completed | Failed | Cancelled

  /** The side effect applied, with the terminal and the content it was given. */
  datatype Applied = Applied(terminal: Terminal, content: string)

  datatype Finalized = Done | AlreadyFinal | SideEffectRaised

  class StreamFinalizer {
    var terminal: Option<Terminal>
    ghost var log: seq<Applied>

    /** The side effect ran at most once, for the terminal that is claimed. */
    ghost predicate Valid()
      reads this
    {
      match terminal
      case None => log == []
      case Some(t) => |log| == 1 && log[0].terminal == t
    }

    constructor ()
      ensures Valid() && terminal.None?
    {
      terminal, log := None, [];
    }

    /** `raises`: whether applying the side effect fails. The claim is made before and stays either way. */
    method Finalize(chosen: Terminal, content: string, raises: bool) returns (outcome: Finalized)
      requires Valid()
      modifies this
      ensures Valid()
      ensures old(terminal).Some? ==> outcome == AlreadyFinal && terminal == old(terminal) && log == old(log)
      ensures old(terminal).None? ==>
                && outcome == (if raises then SideEffectRaised else Done)
                && terminal == Some(chosen) && log == [Applied(chosen, content)]
    {
      if terminal.Some? {
        return AlreadyFinal;
      }
      terminal := Some(chosen);
      log := log + [Applied(chosen, content)];
      return if raises then SideEffectRaised else Done;
    }
  }

  function Concat(texts: seq<string>): string {
    if texts == [] then "" else Concat(texts[..|texts| - 1]) + texts[|texts| - 1]
  }

  /**
   How a part of the response generator ends: it goes on, an exception ends it (a cancellation or
   another one), or its consumer closes it while it is suspended at a yield.
  */
  datatype Exit = Finished | Threw(cancelled: bool) | ClosedAtYield

  /** What is heard from the pump, and how many events the generator has yielded by then. */
  datatype Heard = Heard(pump: Pump, texts: seq<string>, exit: Exit, shown: nat)

  /**
   What the generator hears from the pump until the stream ends or something goes wrong. When the
   script of wakes runs out the generator itself is being cancelled. `closes(k)`: the consumer
   closes the generator at its yield number k.
  */
  function Listen(config: Config, provider: Provider, p: Pump, wakes: seq<Wake>, closes: nat -> bool, shown: nat): Heard
    decreases |wakes|
  {
    if wakes == [] then Heard(p, [], Threw(true), shown)
    else
      var (q, event) := Next(config, provider, p, wakes[0]);
      match StopAfter(event, closes(shown))
      case Some(exit) => Heard(q, TextOf(event), exit, shown)
      case None =>
        var rest := Listen(config, provider, q, wakes[1..], closes, shown + 1);
        rest.(texts := TextOf(event) + rest.texts)
  }

  function TextOf(event: Event): seq<string> {
    if event.Token? then [event.text] else []
  }

  /** A chunk or a heartbeat is yielded and the generator goes on unless it is closed there. */
  function StopAfter(event: Event, closing: bool): Option<Exit> {
    match event
    case Token(_) => if closing then Some(ClosedAtYield) else None
    case Heartbeat => if closing then Some(ClosedAtYield) else None
    case End => Some(Finished)
    case Disconnected => Some(Threw(true))
    case _ => Some(Threw(false))
  }

  /** What is heard is the next part of the provider's stream, all that is left of it when the loop finishes. */
  lemma {:induction false} ListenHearsPrefix(config: Config, provider: Provider, p: Pump, wakes: seq<Wake>,
                                             closes: nat -> bool, shown: nat)
    requires Valid(p) && !p.closed
    ensures var heard := Listen(config, provider, p, wakes, closes, shown);
      && !heard.pump.closed && Valid(heard.pump)
      && Handed(provider, heard.pump.Taken()) == Handed(provider, p.Taken()) + heard.texts
      && (heard.exit == Finished ==> Handed(provider, p.Taken()) + heard.texts == provider.chunks)
    decreases |wakes|
  {
    if wakes != [] {
      var (q, event) := Next(config, provider, p, wakes[0]);
      NextIsHeard(config, provider, p, wakes[0]);
      if StopAfter(event, closes(shown)).None? {
        ListenHearsPrefix(config, provider, q, wakes[1..], closes, shown + 1);
        ConcatAssociates(Handed(provider, p.Taken()), TextOf(event),
                         Listen(config, provider, q, wakes[1..], closes, shown + 1).texts);
      }
    }
  }

  lemma NextIsHeard(config: Config, provider: Provider, p: Pump, w: Wake)
    requires Valid(p) && !p.closed
    ensures var (q, event) := Next(config, provider, p, w);
      && !q.closed && Valid(q)
      && Handed(provider, q.Taken()) == Handed(provider, p.Taken()) + TextOf(event)
      && (event == End ==> Handed(provider, p.Taken()) == provider.chunks)
  {
    var (q, event) := Next(config, provider, p, w);
    StepDelivers(config, provider, p, Pull(w));
    assert [event][1..] == [];
  }

  const NEVER := (k: nat) => false

  /** The consumer closes the generator at one of these yields. */
  predicate ClosesIn(closes: nat -> bool, first: nat, end: nat) {
    exists k :: first <= k < end && closes(k)
  }

  lemma ClosesSplit(closes: nat -> bool, first: nat, end: nat)
    requires first < end
    ensures ClosesIn(closes, first, end) <==> closes(first) || ClosesIn(closes, first + 1, end)
  {
    if ClosesIn(closes, first, end) && !closes(first) {
      var k :| first <= k < end && closes(k);
      assert first + 1 <= k < end;
    }
  }

  lemma ClosesJoin(closes: nat -> bool, first: nat, mid: nat, end: nat)
    requires first <= mid <= end
    ensures ClosesIn(closes, first, end) <==> ClosesIn(closes, first, mid) || ClosesIn(closes, mid, end)
  {
    if ClosesIn(closes, first, end) && !ClosesIn(closes, first, mid) {
      var k :| first <= k < end && closes(k);
      assert mid <= k < end;
    }
  }

  /** Closing interrupts the uninterrupted run at the first of its yields that is closed, and only there. */
  lemma {:induction false} ListenIsInterrupted(config: Config, provider: Provider, p: Pump, wakes: seq<Wake>,
                                               closes: nat -> bool, shown: nat)
    ensures var free := Listen(config, provider, p, wakes, NEVER, shown);
      && shown <= free.shown && free.exit != ClosedAtYield
      && var heard := Listen(config, provider, p, wakes, closes, shown);
      && (heard.exit == ClosedAtYield <==> ClosesIn(closes, shown, free.shown))
      && (heard.exit != ClosedAtYield ==> heard == free)
    decreases |wakes|
  {
    if wakes != [] {
      var (q, event) := Next(config, provider, p, wakes[0]);
      if event.Token? || event == Heartbeat {
        ListenIsInterrupted(config, provider, q, wakes[1..], closes, shown + 1);
        ClosesSplit(closes, shown, Listen(config, provider, q, wakes[1..], NEVER, shown + 1).shown);
      }
    }
  }

  lemma {:induction false} ConcatAppend(texts: seq<string>, text: string)
    ensures Concat(texts + [text]) == Concat(texts) + text
  {
    assert (texts + [text])[..|texts|] == texts;
  }

  /** One event: its chunk is accumulated, and `stop` says how the loop ends here, if it does. */
  method HearOne(pump: StreamPump, wake: Wake, accumulated: string, closing: bool, ghost texts: seq<string>)
    returns (content: string, stop: Option<Exit>)
    requires accumulated == Concat(texts)
    modifies pump
    ensures var (q, event) := Next(pump.config, pump.provider, old(pump.State()), wake);
      pump.State() == q && content == Concat(texts + TextOf(event)) && stop == StopAfter(event, closing)
  {
    var event := pump.NextEvent(wake);
    content := accumulated;
    assert texts + [] == texts;
    match event
    case Token(text) =>
      ConcatAppend(texts, text);
      content := content + text;
      stop := if closing then Some(ClosedAtYield) else None;
    case Heartbeat =>
      stop := if closing then Some(ClosedAtYield) else None;
    case End =>
      stop := Some(Finished);
    case Disconnected =>
      stop := Some(Threw(true));
    case _ =>
      stop := Some(Threw(false));
  }

  /** The event loop of the generator. */
  method Forward(pump: StreamPump, wakes: seq<Wake>, closes: nat -> bool)
    returns (accumulated: string, exit: Exit, shown: nat)
    requires pump.State() == IDLE
    modifies pump
    ensures var heard := Listen(pump.config, pump.provider, IDLE, wakes, closes, 1);
      pump.State() == heard.pump && accumulated == Concat(heard.texts) && exit == heard.exit && shown == heard.shown
  {
    accumulated, shown := "", 1;
    ghost var texts: seq<string> := [];
    ghost var all := Listen(pump.config, pump.provider, IDLE, wakes, closes, 1);
    for i := 0 to |wakes|
      invariant accumulated == Concat(texts)
      invariant var rest := Listen(pump.config, pump.provider, pump.State(), wakes[i..], closes, shown);
        all == rest.(texts := texts + rest.texts)
    {
      ghost var rest := Listen(pump.config, pump.provider, pump.State(), wakes[i..], closes, shown);
      ghost var event := Next(pump.config, pump.provider, pump.State(), wakes[i]).1;
      assert wakes[i..][0] == wakes[i] && wakes[i..][1..] == wakes[i + 1..];
      var stop;
      accumulated, stop := HearOne(pump, wakes[i], accumulated, closes(shown), texts);
      if stop.Some? {
        return accumulated, stop.value, shown;
      }
      ConcatAssociates(texts, TextOf(event), rest.texts[|TextOf(event)|..]);
      texts := texts + TextOf(event);
      shown := shown + 1;
    }
    assert texts + [] == texts;
    return accumulated, Threw(true), shown;
  }

  // ---------------------------------------------------------------- verification

  /** One heartbeat interval without a verdict, and what the generator finds after it. */
  datatype Round = Waiting | ClientGone | LeaseGone | WaitCancelled

  datatype Verification = Verification(rounds: seq<Round>, answer: string)

  function Await(rounds: seq<Round>, closes: nat -> bool, shown: nat): (Exit, nat)
    decreases |rounds|
  {
    if rounds == [] then (Finished, shown)
    else
      match rounds[0]
      case Waiting => if closes(shown) then (ClosedAtYield, shown) else Await(rounds[1..], closes, shown + 1)
      case LeaseGone => (Threw(false), shown)
      case _ => (Threw(true), shown)
  }

  lemma {:induction false} AwaitIsInterrupted(rounds: seq<Round>, closes: nat -> bool, shown: nat)
    ensures var (exit, last) := Await(rounds, NEVER, shown);
      && shown <= last && exit != ClosedAtYield
      && (Await(rounds, closes, shown).0 == ClosedAtYield <==> ClosesIn(closes, shown, last))
      && (Await(rounds, closes, shown).0 != ClosedAtYield ==> Await(rounds, closes, shown) == (exit, last))
    decreases |rounds|
  {
    if rounds != [] && rounds[0] == Waiting {
      AwaitIsInterrupted(rounds[1..], closes, shown + 1);
      ClosesSplit(closes, shown, Await(rounds, NEVER, shown).1);
    }
  }

  method AwaitVerdict(rounds: seq<Round>, closes: nat -> bool, before: nat) returns (exit: Exit, shown: nat)
    ensures (exit, shown) == Await(rounds, closes, before)
  {
    shown := before;
    for i := 0 to |rounds|
      invariant Await(rounds[i..], closes, shown) == Await(rounds, closes, before)
    {
      assert rounds[i..][0] == rounds[i] && rounds[i..][1..] == rounds[i + 1..];
      match rounds[i]
      case Waiting =>
        if closes(shown) {
          return ClosedAtYield, shown;
        }
        shown := shown + 1;
      case LeaseGone =>
        return Threw(false), shown;
      case _ =>
        return Threw(true), shown;
    }
    return Finished, shown;
  }

  // ---------------------------------------------------------------- the generator

  /** Whether the execution could be marked as streaming. */
  datatype Marking = Marked | NotMarked | MarkingThrew(cancelled: bool)

  /** Whether closing the stream and settling the reported usage went well. */
  datatype Settling = Settled | SettlingThrew(cancelled: bool)

  /** `leaseLost`: the heartbeat has lost the lease by the end; `raises`: applying the terminal fails. */
  datatype Script = Script(marking: Marking, wakes: seq<Wake>, settling: Settling, verification: Option<Verification>,
                           leaseLost: bool, raises: bool)

  /** How the generator's body ends before any terminal is claimed, and with which content. */
  datatype Ended = Ended(exit: Exit, content: string, shown: nat)

  function Ending(config: Config, provider: Provider, script: Script, closes: nat -> bool): Ended {
    match script.marking
    case NotMarked => Ended(Threw(false), "", 0)
    case MarkingThrew(cancelled) => Ended(Threw(cancelled), "", 0)
    case Marked =>
      if closes(0) then Ended(ClosedAtYield, "", 0)
      else
        var heard := Listen(config, provider, IDLE, script.wakes, closes, 1);
        if heard.exit != Finished then Ended(heard.exit, Concat(heard.texts), heard.shown)
        else AfterStream(script, Concat(heard.texts), closes, heard.shown)
  }

  function AfterStream(script: Script, content: string, closes: nat -> bool, shown: nat): Ended {
    if script.settling.SettlingThrew? then Ended(Threw(script.settling.cancelled), content, shown)
    else
      match script.verification
      case None => BeforeClaim(script, content, shown)
      case Some(v) =>
        var (exit, last) := Await(v.rounds, closes, shown);
        if exit != Finished then Ended(exit, content, last)
        else if closes(last) then Ended(ClosedAtYield, v.answer, last)
        else BeforeClaim(script, v.answer, last + 1)
  }

  function BeforeClaim(script: Script, content: string, shown: nat): Ended {
    Ended(if script.leaseLost then Threw(false) else Finished, content, shown)
  }

  /** The terminal to apply: none when the generator is closed at a yield, for no handler sees that. */
  function Claim(ended: Ended): seq<Applied> {
    match ended.exit
    case ClosedAtYield => []
    case Finished => [Applied(Completed, ended.content)]
    case Threw(cancelled) => [Applied(if cancelled then Cancelled else Failed, ended.content)]
  }

  lemma AfterStreamIsInterrupted(script: Script, content: string, closes: nat -> bool, shown: nat)
    ensures var free := AfterStream(script, content, NEVER, shown);
      && shown <= free.shown && free.exit != ClosedAtYield
      && var ended := AfterStream(script, content, closes, shown);
      && (ended.exit == ClosedAtYield <==> ClosesIn(closes, shown, free.shown))
      && (ended.exit != ClosedAtYield ==> ended == free)
  {
    if script.settling.Settled? && script.verification.Some? {
      AwaitIsInterrupted(script.verification.value.rounds, closes, shown);
      var last := Await(script.verification.value.rounds, NEVER, shown).1;
      ClosesJoin(closes, shown, last, last + 1);
    }
  }

  /**
   No terminal is claimed exactly when the consumer closes the generator at one of the yields that the
   uninterrupted run makes before its claim; otherwise the terminal is the uninterrupted run's.
  */
  lemma TerminalUnlessClosed(config: Config, provider: Provider, script: Script, closes: nat -> bool)
    ensures var free := Ending(config, provider, script, NEVER);
      && |Claim(free)| == 1 && |Claim(Ending(config, provider, script, closes))| <= 1
      && (Claim(Ending(config, provider, script, closes)) == [] <==> ClosesIn(closes, 0, free.shown))
      && (Claim(Ending(config, provider, script, closes)) != [] ==> Ending(config, provider, script, closes) == free)
  {
    if script.marking.Marked? {
      ListenIsInterrupted(config, provider, IDLE, script.wakes, closes, 1);
      var heard := Listen(config, provider, IDLE, script.wakes, NEVER, 1);
      AfterStreamIsInterrupted(script, Concat(heard.texts), closes, heard.shown);
      var free := Ending(config, provider, script, NEVER);
      ClosesJoin(closes, 1, heard.shown, free.shown);
      ClosesSplit(closes, 0, free.shown);
    }
  }

  /** A consumer that leaves after the first chunk: it was delivered, and no terminal is ever claimed. */
  lemma ClosedAfterFirstChunk(config: Config) returns (provider: Provider, script: Script, closes: nat -> bool)
    requires config.timeout > 0.0
    ensures Listen(config, provider, IDLE, script.wakes, closes, 1).texts == ["a"]
    ensures Claim(Ending(config, provider, script, closes)) == []
  {
    provider := Provider(["a"], false);
    var wake := Wake(0.0, 0.0, 0.0, true, false, false, false);
    assert Possible(config, IDLE, 0.0, wake);
    script := Script(Marked, [wake], Settled, None, false, false);
    closes := k => k == 1;
    assert Next(config, provider, IDLE, wake).1 == Token("a");
  }

  /** The loop finishes only at the end of a stream that did not fail. */
  lemma {:induction false} FinishedStreamDidNotFail(config: Config, provider: Provider, p: Pump, wakes: seq<Wake>,
                                                    closes: nat -> bool, shown: nat)
    requires Valid(p) && !p.closed && p.Taken() <= |provider.chunks|
    requires Listen(config, provider, p, wakes, closes, shown).exit == Finished
    ensures !provider.fails
    decreases |wakes|
  {
    var (q, event) := Next(config, provider, p, wakes[0]);
    EventsAreExact(config, provider, p, wakes[0]);
    StepDelivers(config, provider, p, Pull(wakes[0]));
    if StopAfter(event, closes(shown)).None? {
      FinishedStreamDidNotFail(config, provider, q, wakes[1..], closes, shown + 1);
    }
  }

  /** A reply is never completed from a provider that failed. */
  lemma CompletedStreamDidNotFail(config: Config, provider: Provider, script: Script, closes: nat -> bool)
    requires Claim(Ending(config, provider, script, closes)) != []
    requires Claim(Ending(config, provider, script, closes))[0].terminal.Completed?
    ensures !provider.fails
  {
    FinishedStreamDidNotFail(config, provider, IDLE, script.wakes, closes, 1);
  }

  /**
   How the event loop ends says why: a client that left cancels it, a lease that was lost fails it, and it
   finishes with neither. Without a disconnect it is cancelled only when every wake has been yielded.
  */
  lemma {:induction false} LoopEndsForAReason(config: Config, provider: Provider, p: Pump, wakes: seq<Wake>,
                                              closes: nat -> bool, shown: nat)
    requires !p.closed && !p.disconnected && !p.leaseLost
    ensures var heard := Listen(config, provider, p, wakes, closes, shown);
      && (heard.pump.disconnected ==> heard.exit == Threw(true))
      && (heard.pump.leaseLost && !heard.pump.disconnected ==> heard.exit == Threw(false))
      && (heard.exit == Threw(true) && !heard.pump.disconnected ==> heard.shown == shown + |wakes|)
      && (heard.exit == Finished ==> !heard.pump.disconnected && !heard.pump.leaseLost)
    decreases |wakes|
  {
    if wakes != [] {
      var (q, event) := Next(config, provider, p, wakes[0]);
      EventsAreExact(config, provider, p, wakes[0]);
      if StopAfter(event, closes(shown)).None? {
        LoopEndsForAReason(config, provider, q, wakes[1..], closes, shown + 1);
      }
    }
  }

  /** The first round that does not just wait. */
  function Trouble(rounds: seq<Round>): Option<Round> {
    if rounds == [] then None else if rounds[0] != Waiting then Some(rounds[0]) else Trouble(rounds[1..])
  }

  lemma {:induction false} AwaitEndsInTrouble(rounds: seq<Round>, shown: nat)
    ensures var exit := Await(rounds, NEVER, shown).0;
      && (exit == Finished <==> Trouble(rounds) == None)
      && (exit == Threw(false) <==> Trouble(rounds) == Some(LeaseGone))
      && (exit == Threw(true) <==> Trouble(rounds) == Some(ClientGone) || Trouble(rounds) == Some(WaitCancelled))
    decreases |rounds|
  {
    if rounds != [] && rounds[0] == Waiting {
      AwaitEndsInTrouble(rounds[1..], shown + 1);
    }
  }

  /** What happens between the end of the stream and the claim, without a closing consumer. */
  lemma AfterStreamTellsWhy(script: Script, content: string, shown: nat)
    ensures var exit := AfterStream(script, content, NEVER, shown).exit;
      && (exit == Finished <==> script.settling == Settled && Interruption(script) == None && !script.leaseLost)
      && (exit == Threw(true) <==>
            || script.settling == SettlingThrew(true)
            || (script.settling == Settled && IsCancelling(Interruption(script))))
  {
    match script.verification
    case None =>
    case Some(v) => AwaitEndsInTrouble(v.rounds, shown);
  }

  function Interruption(script: Script): Option<Round> {
    if script.verification.Some? then Trouble(script.verification.value.rounds) else None
  }

  predicate IsCancelling(trouble: Option<Round>) {
    trouble == Some(ClientGone) || trouble == Some(WaitCancelled)
  }

  /**
   Which terminal an uninterrupted generator claims: completed exactly when everything goes well to the
   end, cancelled exactly when a cancellation or the client's leaving is what ends it.
  */
  lemma ClaimTellsWhy(config: Config, provider: Provider, script: Script)
    ensures var heard := Listen(config, provider, IDLE, script.wakes, NEVER, 1);
      var claim := Claim(Ending(config, provider, script, NEVER));
      var streamed := script.marking == Marked && heard.exit == Finished;
      && |claim| == 1
      && (claim[0].terminal == Completed <==>
            streamed && script.settling == Settled && Interruption(script) == None && !script.leaseLost)
      && (claim[0].terminal == Cancelled <==>
            || script.marking == MarkingThrew(true)
            || (script.marking == Marked && heard.exit == Threw(true))
            || (streamed && script.settling == SettlingThrew(true))
            || (streamed && script.settling == Settled && IsCancelling(Interruption(script))))
  {
    var heard := Listen(config, provider, IDLE, script.wakes, NEVER, 1);
    ListenIsInterrupted(config, provider, IDLE, script.wakes, NEVER, 1);
    AfterStreamTellsWhy(script, Concat(heard.texts), heard.shown);
    AfterStreamIsInterrupted(script, Concat(heard.texts), NEVER, heard.shown);
  }

  /** The text of a prefix of the provider's stream. */
  predicate IsPartial(provider: Provider, content: string) {
    exists k :: 0 <= k <= |provider.chunks| && content == Concat(provider.chunks[..k])
  }

  lemma HeardIsPartial(config: Config, provider: Provider, wakes: seq<Wake>, closes: nat -> bool)
    ensures var heard := Listen(config, provider, IDLE, wakes, closes, 1);
      && IsPartial(provider, Concat(heard.texts))
      && (heard.exit == Finished ==> heard.texts == provider.chunks)
  {
    var heard := Listen(config, provider, IDLE, wakes, closes, 1);
    ListenHearsPrefix(config, provider, IDLE, wakes, closes, 1);
    assert Handed(provider, IDLE.Taken()) == [];
    assert [] + heard.texts == heard.texts;
    assert heard.texts == provider.chunks[..|heard.texts|];
  }

  /**
   A reply is completed only after the whole stream was forwarded and with the lease still held, and
   then it is the whole stream's text unless a verifier replaced it; any other terminal carries the
   text of a prefix of the stream, unless the lease was lost after verification.
  */
  lemma CompletedReplyIsWholeStream(config: Config, provider: Provider, script: Script, closes: nat -> bool)
    requires Claim(Ending(config, provider, script, closes)) != []
    ensures var applied := Claim(Ending(config, provider, script, closes))[0];
      var verdict := script.verification;
      if applied.terminal.Completed? then
        && script.marking.Marked? && script.settling.Settled? && !script.leaseLost
        && applied.content == (if verdict.Some? then verdict.value.answer else Concat(provider.chunks))
      else
        || IsPartial(provider, applied.content)
        || (verdict.Some? && script.leaseLost && applied.content == verdict.value.answer)
  {
    HeardIsPartial(config, provider, script.wakes, closes);
    assert provider.chunks[..0] == [] && Concat(provider.chunks[..0]) == "";
  }

  /** From the end of the stream to the claim: settle, verify if asked to, look at the lease. */
  method Conclude(script: Script, streamed: string, closes: nat -> bool, before: nat)
    returns (exit: Exit, content: string, ghost shown: nat)
    ensures Ended(exit, content, shown) == AfterStream(script, streamed, closes, before)
  {
    content, shown := streamed, before;
    if script.settling.SettlingThrew? {
      return Threw(script.settling.cancelled), content, shown;
    }
    if script.verification.Some? {
      var verdict, last := AwaitVerdict(script.verification.value.rounds, closes, before);
      shown := last;
      if verdict != Finished {
        return verdict, content, shown;
      }
      content := script.verification.value.answer;
      if closes(last) {
        return ClosedAtYield, content, shown;
      }
      shown := last + 1;
    }
    exit := if script.leaseLost then Threw(false) else Finished;
  }

  /**
   The response generator. However it ends, at most one terminal is claimed and applied, even when
   applying it fails, and a stream that was opened is closed exactly once.
  */
  method Respond(config: Config, provider: Provider, script: Script, closes: nat -> bool)
    returns (finalizer: StreamFinalizer, pump: StreamPump?)
    ensures finalizer.Valid()
    ensures finalizer.log == Claim(Ending(config, provider, script, closes))
    ensures pump != null <==> script.marking.Marked? && !closes(0)
    ensures pump != null ==> pump.closed && pump.streamCloses == 1
  {
    finalizer := new StreamFinalizer();
    pump := null;
    var content, exit := "", Threw(script.marking.MarkingThrew? && script.marking.cancelled);
    if script.marking.Marked? {
      if closes(0) {
        return;
      }
      pump := new StreamPump(config, provider);
      var shown;
      content, exit, shown := Forward(pump, script.wakes, closes);
      ListenHearsPrefix(config, provider, IDLE, script.wakes, closes, 1);
      if exit == Finished {
        pump.AClose();
        ghost var last;
        exit, content, last := Conclude(script, content, closes, shown);
      }
    }
    if exit == Finished {
      var outcome := finalizer.Finalize(Completed, content, script.raises);
      exit := if outcome.SideEffectRaised? then Threw(false) else Finished;
    }
    if exit.Threw? {
      var _ := finalizer.Finalize(if exit.cancelled then Cancelled else Failed, content, script.raises);
    }
    if pump != null {
      pump.AClose();
    }
  }
}

/** What each transaction answers and writes, stated about the rows and not about how they are found. */
module ChatAnswers {
  import opened Common
  import opened ChatModel
  import opened ChatProtocol
  import opened ChatTheorems
  import ChatClients

  // ---------------------------------------------------------------- begin

  predicate AnsweredAndExpired(r: IdemRecord, now: int) {
    r.status.Completed? && r.expiresAt < now
  }

  /** A lease that has not run out. */
  predicate Leased(r: IdemRecord, now: int) {
    r.leaseUntil.Some? && now <= r.leaseUntil.value
  }

  lemma NextRecordIsNew(db: Db)
    requires RecordsOk(db)
    ensures db.nextRecord !in db.records
  {
    forall id <- db.records ensures id != db.nextRecord {
      assert RecordOk(db, id);
    }
  }

  /** A key nobody has used is granted on a new record. */
  lemma UnusedKeyIsGranted(db: Db, slot: Slot, digest: string)
    requires forall id <- db.records :: db.records[id].slot != slot
    ensures Begin(db, slot, digest).1 == Granted(db.nextToken, db.nextRecord, false)
  {
  }

  /** What a begin answers when the key has a record: each answer exactly when its condition holds. */
  lemma UsedKeyIsAnswered(w: World, slot: Slot, digest: string, id: RecordId)
    requires Reachable(w) && id in w.db.records && w.db.records[id].slot == slot
    ensures var r := w.db.records[id];
      var same := r.digest == digest;
      var outcome := Begin(w.db, slot, digest).1;
      && (outcome == Retry <==> AnsweredAndExpired(r, w.db.now))
      && (outcome == KeyReused <==> !same && !AnsweredAndExpired(r, w.db.now))
      && (outcome == Replay(id) <==> same && r.status.Completed? && w.db.now <= r.expiresAt)
      && (outcome == InProgress <==> same && r.status.Processing? && Leased(r, w.db.now))
      && (outcome == Granted(w.db.nextToken, id, true) <==>
            same && (r.status.Failed? || (r.status.Processing? && !Leased(r, w.db.now))))
  {
    ReachableInv(w);
    assert FindRecord(w.db.records, slot) == Some(id);
    assert RecordOk(w.db, id);
    if w.db.records[id].status.Completed? {
      var e :| CompletedFor(w.db.executions, e, id);
      assert BindingOk(w.db.records, w.prepared, w.db.executions[e]);
    }
  }

  /**
   A reused key: while a record with one payload's digest is there, and unless it is answered and
   expired, another payload changes nothing and is neither granted the lease nor replayed the reply.
  */
  lemma OtherPayloadIsRefused(w: World, slot: Slot, digest: string, id: RecordId)
    requires Reachable(w) && id in w.db.records && w.db.records[id].slot == slot
    requires w.db.records[id].digest != digest && !AnsweredAndExpired(w.db.records[id], w.db.now)
    ensures Begin(w.db, slot, digest).0 == w.db
    ensures !Begin(w.db, slot, digest).1.Granted? && !Begin(w.db, slot, digest).1.Replay?
  {
    UsedKeyIsAnswered(w, slot, digest, id);
    ReachableInv(w);
    assert FindRecord(w.db.records, slot) == Some(id);
  }

  /** A grant leases the record for the whole lease under a fresh token, for this payload, and touches nothing else. */
  lemma GrantIsALease(w: World, slot: Slot, digest: string)
    requires Reachable(w) && Begin(w.db, slot, digest).1.Granted?
    ensures var (after, outcome) := Begin(w.db, slot, digest);
      var id := outcome.record;
      && outcome.token == w.db.nextToken < after.nextToken
      && HoldsLease(after, id, outcome.token, w.db.now)
      && after.records[id].slot == slot && after.records[id].digest == digest
      && after.records.Keys == w.db.records.Keys + {id}
      && (outcome.recovery <==> id in w.db.records)
      && (forall k <- w.db.records :: k != id ==> after.records[k] == w.db.records[k])
      && after.executions == w.db.executions && after.messages == w.db.messages && after.ledger == w.db.ledger
      && after.decisions == w.db.decisions
  {
    ReachableInv(w);
    if id :| id in w.db.records && w.db.records[id].slot == slot {
      assert FindRecord(w.db.records, slot) == Some(id);
      assert RecordOk(w.db, id);
    } else {
      NextRecordIsNew(w.db);
    }
  }

  /** A new or reopened record lives for the whole time to live without an answer; a reclaimed one keeps its expiry. */
  lemma GrantSetsExpiry(w: World, slot: Slot, digest: string)
    requires Reachable(w) && Begin(w.db, slot, digest).1.Granted?
    ensures var (after, outcome) := Begin(w.db, slot, digest);
      var id := outcome.record;
      if id in w.db.records && w.db.records[id].status.Processing?
      then id in after.records && after.records[id].expiresAt == w.db.records[id].expiresAt
      else
        && id in after.records && after.records[id].expiresAt == w.db.now + DEFAULT_TTL_SECONDS
        && after.records[id].responseStatus.None? && after.records[id].reference.None?
  {
    ReachableInv(w);
    if id :| id in w.db.records && w.db.records[id].slot == slot {
      assert FindRecord(w.db.records, slot) == Some(id);
      assert RecordOk(w.db, id);
    } else {
      NextRecordIsNew(w.db);
    }
  }

  // ---------------------------------------------------------------- records along a run

  /** Same key and same payload. */
  predicate SameRequest(a: IdemRecord, b: IdemRecord) {
    a.slot == b.slot && a.digest == b.digest
  }

  /** The event inserts a record for its own key and payload. */
  predicate Inserts(ev: Event, r: IdemRecord) {
    ev.BeginEvent? && ev.slot == r.slot && ev.digest == r.digest
  }

  lemma BeginKeepsRequests(db: Db, slot: Slot, digest: string, id: RecordId)
    requires RecordsOk(db) && id in Begin(db, slot, digest).0.records
    ensures var r := Begin(db, slot, digest).0.records[id];
      if id in db.records then SameRequest(db.records[id], r) else r.slot == slot && r.digest == digest
  {
    NextRecordIsNew(db);
  }

  /** Every record was there before, for the same request. */
  ghost predicate SameRequests(a: Db, b: Db) {
    forall id <- b.records :: id in a.records && SameRequest(a.records[id], b.records[id])
  }

  lemma FinalizeKeepsRequests(db: Db, f: FinalizeRequest)
    ensures SameRequests(db, Finalize(db, f).0)
  {
  }

  lemma RecoverKeepsRequests(db: Db, e: ExecutionId, record: RecordId, token: Option<Token>)
    ensures SameRequests(db, AssertRecoveryAllowed(db, e, record, token).0)
  {
  }

  lemma OtherEventsKeepRequests(w: World, ev: Event)
    requires !ev.BeginEvent? && !ev.PrepareEvent? && !ev.FinalizeEvent? && !ev.RecoverEvent?
    ensures SameRequests(w.db, Step(w, ev).db)
  {
  }

  lemma StepKeepsRequests(w: World, ev: Event, id: RecordId)
    requires Inv(w) && id in Step(w, ev).db.records
    ensures var r := Step(w, ev).db.records[id];
      if id in w.db.records then SameRequest(w.db.records[id], r) else Inserts(ev, r)
  {
    match ev
    case BeginEvent(slot, digest) => BeginKeepsRequests(w.db, slot, digest, id);
    case PrepareEvent(p) => assert Prepare(w.db, p).0.records == w.db.records;
    case FinalizeEvent(f) => FinalizeKeepsRequests(w.db, f);
    case RecoverEvent(e, record, token) => RecoverKeepsRequests(w.db, e, record, token);
    case _ => OtherEventsKeepRequests(w, ev);
  }

  /** A record is always for the key and payload of the begin that inserted it. */
  lemma {:induction false} RecordsKeepTheirRequest(w: World, events: seq<Event>, id: RecordId)
    requires Inv(w) && AllowedRun(w, events) && id in Run(w, events).db.records
    ensures var r := Run(w, events).db.records[id];
      (id in w.db.records && SameRequest(w.db.records[id], r)) || (exists ev :: ev in events && Inserts(ev, r))
    decreases |events|
  {
    if events != [] {
      StepKeepsInv(w, events[0]);
      RecordsKeepTheirRequest(Step(w, events[0]), events[1..], id);
      var r := Run(w, events).db.records[id];
      if id in Step(w, events[0]).db.records && SameRequest(Step(w, events[0]).db.records[id], r) {
        StepKeepsRequests(w, events[0], id);
        assert events[0] in events;
      } else {
        var ev :| ev in events[1..] && Inserts(ev, r);
        assert ev in events;
      }
    }
  }

  // ---------------------------------------------------------------- renewal, release and cleanup

  /** A renewal succeeds exactly for the token of the key's processing record, and leases it anew from now. */
  lemma RenewalIsALease(w: World, slot: Slot, token: Token)
    requires Reachable(w)
    ensures Renew(w.db, slot, token).1 <==>
              exists id :: id in w.db.records && w.db.records[id].slot == slot
                           && w.db.records[id].status.Processing? && w.db.records[id].token == token
    ensures !Renew(w.db, slot, token).1 ==> Renew(w.db, slot, token).0 == w.db
    ensures forall id <- w.db.records | w.db.records[id].slot == slot ::
              Renew(w.db, slot, token).1 ==> HoldsLease(Renew(w.db, slot, token).0, id, token, w.db.now)
  {
    ReachableInv(w);
    if id :| id in w.db.records && w.db.records[id].slot == slot {
      assert FindRecord(w.db.records, slot) == Some(id);
    }
  }

  /**
   A release succeeds exactly for the token of the key's record while any lease of it is unexpired; it
   stores the answer, gives the lease up, and decides between completed and failed by the status.
  */
  lemma ReleaseIsAnswered(w: World, slot: Slot, status: int, reference: string, token: Token, id: RecordId)
    requires Reachable(w) && id in w.db.records && w.db.records[id].slot == slot
    ensures var (after, done) := Complete(w.db, slot, status, reference, token);
      var r := w.db.records[id];
      && (done <==> r.token == token && (r.status.Processing? ==> Leased(r, w.db.now)))
      && (!done ==> after == w.db)
      && (done ==>
            && id in after.records && after.records[id].slot == slot && after.records[id].digest == r.digest
            && (after.records[id].status.Completed? <==> 200 <= status < 300)
            && (after.records[id].status.Failed? <==> !(200 <= status < 300))
            && after.records[id].responseStatus == Some(status) && after.records[id].reference == Some(reference)
            && after.records[id].leaseUntil.None?)
  {
    ReachableInv(w);
    assert FindRecord(w.db.records, slot) == Some(id);
    assert RecordOk(w.db, id);
  }

  /** Cleanup deletes exactly the expired records that are not being processed, and leaves the others as they are. */
  lemma CleanupSparesTheRest(db: Db, id: RecordId)
    requires id in db.records
    ensures id !in Cleanup(db).records <==> db.records[id].expiresAt < db.now && !db.records[id].status.Processing?
    ensures id in Cleanup(db).records ==> Cleanup(db).records[id] == db.records[id]
    ensures Cleanup(db).records.Keys <= db.records.Keys
    ensures forall e <- db.executions :: db.executions[e].record == Some(id) ==>
              e in Cleanup(db).executions &&
              Cleanup(db).executions[e].record == if id in Cleanup(db).records then Some(id) else None
  {
  }

  // ---------------------------------------------------------------- handlers read only their own reply

  /** A handler that was told of an answer, or has read it, is one for the record's key and payload. */
  predicate ReadsItsOwn(db: Db, c: ChatClients.Client) {
    c.phase.Cached? || c.phase.Replaying? ==>
      && c.profile.key.Some? && c.phase.id < db.nextRecord
      && (c.phase.id in db.records ==>
            && db.records[c.phase.id].digest == c.profile.digest
            && db.records[c.phase.id].slot == Slot(c.profile.tenant, c.profile.key.value))
  }

  lemma StepKeepsReading(w: World, ev: Event, c: ChatClients.Client)
    requires Inv(w) && ReadsItsOwn(w.db, c)
    ensures ReadsItsOwn(Step(w, ev).db, c)
  {
    StepAdvancesTokens(w, ev);
    if (c.phase.Cached? || c.phase.Replaying?) && c.phase.id in Step(w, ev).db.records {
      StepKeepsRequests(w, ev, c.phase.id);
    }
  }

  lemma MoveKeepsReading(w: World, c: ChatClients.Client, m: ChatClients.Move)
    requires Inv(w) && ReadsItsOwn(w.db, c)
    ensures var (ev, phase) := ChatClients.Next(w.db, c, m);
      ReadsItsOwn(if ev.Some? then Step(w, ev.value).db else w.db, c.(phase := phase))
  {
    var (ev, phase) := ChatClients.Next(w.db, c, m);
    if phase == c.phase {
      if ev.Some? {
        StepKeepsReading(w, ev.value, c);
      }
    } else if c.phase.Cleared? && m.Reserve? && c.profile.key.Some? {
      var slot := Slot(c.profile.tenant, c.profile.key.value);
      if Begin(w.db, slot, c.profile.digest).1.Replay? {
        assert RecordOk(w.db, Begin(w.db, slot, c.profile.digest).1.record);
      }
    }
  }

  ghost predicate AllReadTheirOwn(s: ChatClients.System) {
    forall i {:trigger s.clients[i]} | i in s.clients :: ReadsItsOwn(s.world.db, s.clients[i])
  }

  lemma ActionKeepsReading(s: ChatClients.System, a: ChatClients.Action)
    requires ChatClients.SystemInv(s) && AllReadTheirOwn(s)
    ensures AllReadTheirOwn(ChatClients.After(s, a))
  {
    var t := ChatClients.After(s, a);
    var ev := ChatClients.EventOf(s, a);
    forall i | i in t.clients ensures ReadsItsOwn(t.world.db, t.clients[i]) {
      if a.Act? && a.id == i {
        MoveKeepsReading(s.world, s.clients[i], a.move);
      } else if ev.Some? {
        StepKeepsReading(s.world, ev.value, s.clients[i]);
      }
    }
  }

  /** However requests interleave, a handler never replays the reply to another key or payload. */
  lemma {:induction false} HandlersReadTheirOwnReply(s: ChatClients.System, actions: seq<ChatClients.Action>)
    requires ChatClients.SystemInv(s) && AllReadTheirOwn(s)
    ensures AllReadTheirOwn(ChatClients.AfterAll(s, actions))
    decreases |actions|
  {
    if actions != [] {
      ActionKeepsReading(s, actions[0]);
      ChatClients.SystemRunsAreAllowed(s, [actions[0]]);
      assert [actions[0]][1..] == [];
      assert ChatClients.AfterAll(s, [actions[0]]) == ChatClients.AfterAll(ChatClients.After(s, actions[0]), []);
      HandlersReadTheirOwnReply(ChatClients.After(s, actions[0]), actions[1..]);
    }
  }
}

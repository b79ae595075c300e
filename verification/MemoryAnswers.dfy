/** What each memory operation answers and writes, and what is found over whole runs. */
module MemoryAnswers {
  import opened Common
  import opened MemoryRuntime

  /** An item is found exactly when it is there, not deleted, of the caller's organization and in his scope. */
  lemma FoundIffVisible(s: Store, id: nat, org: nat, user: nat)
    ensures var found := Get(s, id, org, user);
      && (found.Some? <==>
            && id in s.records && s.records[id].org == org && !s.records[id].deleted
            && (s.records[id].scope == Organization || s.records[id].scope == Personal(user)))
      && (found.Some? ==> found.value == s.records[id])
  {
  }

  /** A completed message of the organization, and for a personal record one of the actor's own conversations. */
  predicate IsUsableMessage(s: Store, r: Request, id: nat) {
    && id in s.messages && s.messages[id].completed && s.messages[id].org == r.org
    && (r.scope == User ==> s.messages[id].owner == r.actor)
  }

  /** When an item is created, and why not. */
  lemma CreationIsDecided(s: Store, hash: string -> string, r: Request)
    ensures var (t, outcome) := Create(s, hash, r);
      var proper := r.durable && (r.scope == User || r.scope == Shared) && |r.content| > 0 && r.rawLength <= 20000
                    && r.hasProvenance && r.hasReason;
      && (outcome.Item? <==>
            && proper && (r.scope == Shared ==> r.isAdmin) && r.encodable
            && (r.message.Some? ==> IsUsableMessage(s, r, r.message.value))
            && (r.memory.Some? ==> Get(s, r.memory.value, r.org, r.actor).Some?))
      && (outcome == PermissionDenied <==> proper && r.scope == Shared && !r.isAdmin)
      && (!outcome.Item? ==> t == s)
  {
  }

  /** What is written: one new record with what was asked for, found from then on by its actor. */
  lemma CreatedIsFound(s: Store, hash: string -> string, r: Request)
    requires Create(s, hash, r).1.Item? && s.next !in s.records
    ensures var (t, outcome) := Create(s, hash, r);
      && outcome.id == s.next && t.next == s.next + 1 && t.messages == s.messages
      && (forall id | id in s.records :: id in t.records && t.records[id] == s.records[id])
      && t.records.Keys == s.records.Keys + {s.next}
      && var found := Get(t, outcome.id, r.org, r.actor);
      && found.Some?
      && found.value.content == r.content && found.value.actor == r.actor && found.value.org == r.org
      && found.value.scope == (if r.scope == User then Personal(r.actor) else Organization)
      && found.value.sourceMessage == r.message && found.value.sourceMemory == r.memory
      && found.value.digests.content == Some(hash(r.content))
      && (r.message.Some? ==> found.value.digests.source == Some(hash(s.messages[r.message.value].content)))
      && (r.message.None? && r.memory.Some? ==>
            found.value.digests.source == Some(hash(s.records[r.memory.value].content)))
      && (r.message.None? && r.memory.None? ==> found.value.digests.source == None)
  {
  }

  /** When an item is deleted, and why not; only its mark changes. */
  lemma DeletionIsDecided(s: Store, id: nat, org: nat, user: nat, isAdmin: bool)
    ensures var (t, outcome) := Delete(s, id, org, user, isAdmin);
      && (outcome == NotFound <==> Get(s, id, org, user) == None)
      && (outcome == Gone <==>
            Get(s, id, org, user).Some? && (s.records[id].scope == Organization ==> isAdmin))
      && (outcome != Gone ==> t == s)
      && (outcome == Gone ==> t == s.(records := t.records) && t.records == s.records[id := t.records[id]]
                              && t.records[id] == s.records[id].(deleted := true))
  {
  }

  /** What was deleted is not found again, by anyone and whatever happens afterwards. */
  lemma DeletedStaysGone(s: Store, hash: string -> string, id: nat, org: nat, user: nat, isAdmin: bool, ops: seq<Op>,
                         otherOrg: nat, otherUser: nat)
    requires forall i | i in s.records :: i < s.next
    requires Delete(s, id, org, user, isAdmin).1 == Gone
    ensures Get(Run(Delete(s, id, org, user, isAdmin).0, hash, ops), id, otherOrg, otherUser) == None
  {
    RecordsAreForever(Delete(s, id, org, user, isAdmin).0, hash, ops, id);
  }

  /** What was found stays found, unchanged, until it is deleted itself. */
  lemma {:induction false} UndeletedStaysFound(s: Store, hash: string -> string, ops: seq<Op>, id: nat, org: nat,
                                               user: nat)
    requires forall i | i in s.records :: i < s.next
    requires Get(s, id, org, user).Some?
    requires forall op | op in ops :: op.Deleting? ==> op.id != id
    ensures Get(Run(s, hash, ops), id, org, user) == Get(s, id, org, user)
    decreases |ops|
  {
    if ops != [] {
      assert ops[0] in ops;
      UndeletedStaysFound(Step(s, hash, ops[0]), hash, ops[1..], id, org, user);
    }
  }
}

/** Durable, tenant-bound memory: records are created and soft-deleted, their content never changes. */
module MemoryRuntime {
  import opened Common

  datatype Scope = Personal(owner: nat) | Organization

  /** What a record's provenance text holds for later checks; nothing if it cannot be decoded. */
  datatype Digests = Digests(content: Option<string>, source: Option<string>)

  datatype Record = Record(org: nat, scope: Scope, actor: nat, content: string, digests: Digests,
                           sourceMessage: Option<nat>, sourceMemory: Option<nat>, deleted: bool)
  {
    /** The caller's organization and scope. */
    predicate VisibleTo(org: nat, user: nat) {
      this.org == org && (scope == Organization || scope == Personal(user))
    }
  }

  datatype Message = Message(org: nat, owner: nat, completed: bool, content: string)

  /** Item identities are never issued twice: they count up. */
  datatype Store = Store(records: map<nat, Record>, messages: map<nat, Message>, next: nat)

  datatype RequestedScope = User | Shared | Unspecified

  /**
   `content` is the stripped text and `rawLength` the length before stripping; the flags say whether
   the class is durable, a provenance mapping and a reason are given, and the mapping can be encoded.
  */
  datatype Request = Request(org: nat, actor: nat, isAdmin: bool, durable: bool, scope: RequestedScope,
                             content: string, rawLength: nat, hasProvenance: bool, hasReason: bool, encodable: bool,
                             message: Option<nat>, memory: Option<nat>)
  {
    predicate Valid() {
      durable && scope != Unspecified && content != "" && rawLength <= 20000 && hasProvenance && hasReason
    }

    function NewScope(): Scope {
      if scope == User then Personal(actor) else Organization
    }
  }

  datatype Created = Item(id: nat) | BoundaryError | PermissionDenied

  datatype Deleted = Gone | NotFound | NotPermitted

  function Get(s: Store, id: nat, org: nat, user: nat): Option<Record> {
    if id in s.records && s.records[id].VisibleTo(org, user) && !s.records[id].deleted
    then Some(s.records[id]) else None
  }

  /** The message a record of this scope may be bound to. */
  function MessageSource(s: Store, r: Request): Option<Message>
    requires r.message.Some?
  {
    var id := r.message.value;
    if id in s.messages && s.messages[id].org == r.org && s.messages[id].completed
       && (r.scope == User ==> s.messages[id].owner == r.actor)
    then Some(s.messages[id]) else None
  }

  /** The source digest recorded at creation: the message's when both kinds of source are named. */
  function SourceDigest(s: Store, hash: string -> string, r: Request): Option<string> {
    if r.message.Some? && MessageSource(s, r).Some? then Some(hash(MessageSource(s, r).value.content))
    else if r.memory.Some? && Get(s, r.memory.value, r.org, r.actor).Some?
    then Some(hash(Get(s, r.memory.value, r.org, r.actor).value.content))
    else None
  }

  function NewRecord(s: Store, hash: string -> string, r: Request): Record {
    Record(r.org, r.NewScope(), r.actor, r.content,
           Digests(Some(hash(r.content)), SourceDigest(s, hash, r)), r.message, r.memory, false)
  }

  function Create(s: Store, hash: string -> string, r: Request): (Store, Created) {
    if !r.Valid() then (s, BoundaryError)
    else if r.scope == Shared && !r.isAdmin then (s, PermissionDenied)
    else if r.message.Some? && MessageSource(s, r).None? then (s, BoundaryError)
    else if r.memory.Some? && Get(s, r.memory.value, r.org, r.actor).None? then (s, BoundaryError)
    else if !r.encodable then (s, BoundaryError)
    else (s.(records := s.records[s.next := NewRecord(s, hash, r)], next := s.next + 1), Item(s.next))
  }

  function Delete(s: Store, id: nat, org: nat, user: nat, isAdmin: bool): (Store, Deleted) {
    if Get(s, id, org, user).None? then (s, NotFound)
    else if s.records[id].scope == Organization && !isAdmin then (s, NotPermitted)
    else (s.(records := s.records[id := s.records[id].(deleted := true)]), Gone)
  }

  // ---------------------------------------------------------------- reachable stores

  /** The rest of the system may do anything to the messages. */
  datatype Op = Creating(request: Request) | Deleting(id: nat, org: nat, user: nat, isAdmin: bool)
              | MessagesBecome(messages: map<nat, Message>)

  function Step(s: Store, hash: string -> string, op: Op): Store {
    match op
    case Creating(r) => Create(s, hash, r).0
    case Deleting(id, org, user, isAdmin) => Delete(s, id, org, user, isAdmin).0
    case MessagesBecome(messages) => s.(messages := messages)
  }

  /** A creation names at most one source, or two whose contents have the same digest. */
  predicate NamesOneSource(s: Store, hash: string -> string, r: Request) {
    r.message.Some? && MessageSource(s, r).Some? && r.memory.Some? && Get(s, r.memory.value, r.org, r.actor).Some? ==>
      hash(MessageSource(s, r).value.content) == hash(Get(s, r.memory.value, r.org, r.actor).value.content)
  }

  predicate Disciplined(s: Store, hash: string -> string, ops: seq<Op>)
    decreases |ops|
  {
    ops != [] ==>
      && (ops[0].Creating? ==> NamesOneSource(s, hash, ops[0].request))
      && Disciplined(Step(s, hash, ops[0]), hash, ops[1..])
  }

  function Run(s: Store, hash: string -> string, ops: seq<Op>): Store
    decreases |ops|
  {
    if ops == [] then s else Run(Step(s, hash, ops[0]), hash, ops[1..])
  }

  const EMPTY := Store(map[], map[], 0)

  /** A record's own digest holds, and its source is an older record of its organization with the digest recorded. */
  predicate Sound(records: map<nat, Record>, hash: string -> string, id: nat)
    requires id in records
  {
    var r := records[id];
    && r.digests.content == Some(hash(r.content))
    && (r.sourceMemory.Some? ==>
          && r.sourceMemory.value < id && r.sourceMemory.value in records
          && records[r.sourceMemory.value].org == r.org
          && r.digests.source == Some(hash(records[r.sourceMemory.value].content)))
  }

  predicate Inv(s: Store, hash: string -> string) {
    forall id {:trigger Sound(s.records, hash, id)} | id in s.records :: id < s.next && Sound(s.records, hash, id)
  }

  lemma StepKeepsInv(s: Store, hash: string -> string, op: Op)
    requires Inv(s, hash) && (op.Creating? ==> NamesOneSource(s, hash, op.request))
    ensures Inv(Step(s, hash, op), hash)
  {
    var t := Step(s, hash, op);
    forall id | id in t.records ensures id < t.next && Sound(t.records, hash, id) {
      if id in s.records {
        assert Sound(s.records, hash, id);
      } else {
        var r := op.request;
        if r.memory.Some? {
          assert Sound(s.records, hash, r.memory.value);
        }
      }
    }
  }

  lemma {:induction false} RunKeepsInv(s: Store, hash: string -> string, ops: seq<Op>)
    requires Inv(s, hash) && Disciplined(s, hash, ops)
    ensures Inv(Run(s, hash, ops), hash)
    decreases |ops|
  {
    if ops != [] {
      StepKeepsInv(s, hash, ops[0]);
      RunKeepsInv(Step(s, hash, ops[0]), hash, ops[1..]);
    }
  }

  /** A record once created keeps everything but its deletion mark, and the mark is never taken back. */
  lemma {:induction false} RecordsAreForever(s: Store, hash: string -> string, ops: seq<Op>, id: nat)
    requires forall i | i in s.records :: i < s.next
    requires id in s.records
    ensures var t := Run(s, hash, ops);
      && id in t.records && t.records[id] == s.records[id].(deleted := t.records[id].deleted)
      && (s.records[id].deleted ==> t.records[id].deleted)
    decreases |ops|
  {
    if ops != [] {
      RecordsAreForever(Step(s, hash, ops[0]), hash, ops[1..], id);
    }
  }

  class DurableMemoryStore {
    const hash: string -> string
    var records: map<nat, Record>
    var messages: map<nat, Message>
    var next: nat

    function State(): Store
      reads this
    {
      Store(records, messages, next)
    }

    constructor (hash: string -> string)
      ensures this.hash == hash && State() == EMPTY
    {
      this.hash := hash;
      records, messages, next := map[], map[], 0;
    }

    method CreateItem(r: Request) returns (outcome: Created)
      modifies this
      ensures (State(), outcome) == Create(old(State()), hash, r)
    {
      if !r.Valid() {
        return BoundaryError;
      }
      if r.scope == Shared && !r.isAdmin {
        return PermissionDenied;
      }
      var sourceDigest: Option<string> := None;
      var sourceMessage: Option<Message> := None;
      if r.message.Some? {
        sourceMessage := MessageSource(State(), r);
        if sourceMessage.None? {
          return BoundaryError;
        }
      }
      if r.memory.Some? {
        var source := GetItem(r.memory.value, r.org, r.actor);
        if source.None? {
          return BoundaryError;
        }
        sourceDigest := Some(hash(source.value.content));
      }
      if sourceMessage.Some? {
        sourceDigest := Some(hash(sourceMessage.value.content));
      }
      if !r.encodable {
        return BoundaryError;
      }
      records := records[next := Record(r.org, r.NewScope(), r.actor, r.content,
                                        Digests(Some(hash(r.content)), sourceDigest), r.message, r.memory, false)];
      next := next + 1;
      return Item(next - 1);
    }

    method GetItem(id: nat, org: nat, user: nat) returns (r: Option<Record>)
      ensures r == Get(State(), id, org, user)
    {
      return if id in records && records[id].VisibleTo(org, user) && !records[id].deleted
        then Some(records[id]) else None;
    }

    method DeleteItem(id: nat, org: nat, user: nat, isAdmin: bool) returns (outcome: Deleted)
      modifies this`records
      ensures (State(), outcome) == Delete(old(State()), id, org, user, isAdmin)
    {
      var record := GetItem(id, org, user);
      if record.None? {
        return NotFound;
      }
      if record.value.scope == Organization && !isAdmin {
        return NotPermitted;
      }
      records := records[id := record.value.(deleted := true)];
      return Gone;
    }
  }
}

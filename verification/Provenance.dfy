/** Tracing where a memory came from: a bounded walk over recorded sources. */
module Provenance {
  import opened Common
  import opened MemoryRuntime

  datatype Node = MemoryNode(id: nat, digest: string, verified: bool, deleted: bool)
                | HiddenMemory | HiddenMessage
                | MismatchedSource(id: nat)
                | MessageNode(id: nat, digest: string, verified: bool)

  datatype Termination = Cycle | Unavailable | IntegrityFailure | SourceMessage | Declared | DepthLimit

  datatype Trace = Trace(nodes: seq<Node>, termination: Termination)
  {
    predicate Complete() {
      termination == SourceMessage || termination == Declared
    }
  }

  /** Who asks. */
  datatype Caller = Caller(org: nat, user: nat)

  predicate Visible(s: Store, c: Caller, id: nat) {
    id in s.records && s.records[id].VisibleTo(c.org, c.user)
  }

  function NodeOf(s: Store, hash: string -> string, id: nat): Node
    requires id in s.records
  {
    var r := s.records[id];
    MemoryNode(id, hash(r.content), r.digests.content == Some(hash(r.content)), r.deleted)
  }

  /** What closes the trace after the record: nothing, or one node for its source. */
  function Closing(s: Store, hash: string -> string, c: Caller, id: nat): Trace
    requires id in s.records
  {
    var r := s.records[id];
    if r.sourceMemory.Some? then
      if Visible(s, c, r.sourceMemory.value) then Trace([MismatchedSource(r.sourceMemory.value)], IntegrityFailure)
      else Trace([HiddenMemory], Unavailable)
    else if r.sourceMessage.Some? then
      var m := r.sourceMessage.value;
      if m in s.messages && s.messages[m].org == c.org then
        var digest := hash(s.messages[m].content);
        Trace([MessageNode(m, digest, r.digests.source == Some(digest))], SourceMessage)
      else Trace([HiddenMessage], Unavailable)
    else Trace([], Declared)
  }

  /** The record's source is a memory the caller may see, with the content it was recorded with. */
  predicate CanFollow(s: Store, hash: string -> string, c: Caller, id: nat)
    requires id in s.records
  {
    var r := s.records[id];
    && r.sourceMemory.Some? && Visible(s, c, r.sourceMemory.value)
    && r.digests.source == Some(hash(s.records[r.sourceMemory.value].content))
  }

  function Lineage(s: Store, hash: string -> string, c: Caller, id: nat, seen: set<nat>, depth: nat): Trace
    requires id in s.records
    decreases depth
  {
    if depth == 0 then Trace([], DepthLimit)
    else if id in seen then Trace([], Cycle)
    else
      var rest :=
        if CanFollow(s, hash, c, id)
        then Lineage(s, hash, c, s.records[id].sourceMemory.value, seen + {id}, depth - 1)
        else Closing(s, hash, c, id);
      Trace([NodeOf(s, hash, id)] + rest.nodes, rest.termination)
  }

  class ProvenanceResolver {
    const hash: string -> string
    const maxDepth: nat

    constructor (hash: string -> string, maxDepth: nat)
      requires 0 < maxDepth <= 100
      ensures this.hash == hash && this.maxDepth == maxDepth
    {
      this.hash, this.maxDepth := hash, maxDepth;
    }

    /** None stands for ProvenanceNotFound. */
    method Resolve(s: Store, id: nat, c: Caller) returns (trace: Option<Trace>)
      requires maxDepth > 0
      ensures trace == if Get(s, id, c.org, c.user).None? then None else Some(Lineage(s, hash, c, id, {}, maxDepth))
    {
      if Get(s, id, c.org, c.user).None? {
        return None;
      }
      var nodes: seq<Node>, seen: set<nat>, current := [], {}, id;
      ghost var whole := Lineage(s, hash, c, id, {}, maxDepth);
      for i := 0 to maxDepth
        invariant current in s.records
        invariant var rest := Lineage(s, hash, c, current, seen, maxDepth - i);
          nodes + rest.nodes == whole.nodes && rest.termination == whole.termination
      {
        ghost var rest := Lineage(s, hash, c, current, seen, maxDepth - i);
        if current in seen {
          assert nodes + [] == nodes;
          return Some(Trace(nodes, Cycle));
        }
        seen := seen + {current};
        var record := s.records[current];
        var actual := hash(record.content);
        ghost var before := nodes;
        nodes := nodes + [MemoryNode(current, actual, record.digests.content == Some(actual), record.deleted)];
        assert before + rest.nodes == nodes + rest.nodes[1..];
        if record.sourceMemory.Some? {
          var source := record.sourceMemory.value;
          if source !in s.records || !s.records[source].VisibleTo(c.org, c.user) {
            return Some(Trace(nodes + [HiddenMemory], Unavailable));
          }
          if record.digests.source != Some(hash(s.records[source].content)) {
            return Some(Trace(nodes + [MismatchedSource(source)], IntegrityFailure));
          }
          current := source;
        } else if record.sourceMessage.Some? {
          var m := record.sourceMessage.value;
          if m !in s.messages || s.messages[m].org != c.org {
            return Some(Trace(nodes + [HiddenMessage], Unavailable));
          }
          var digest := hash(s.messages[m].content);
          return Some(Trace(nodes + [MessageNode(m, digest, record.digests.source == Some(digest))], SourceMessage));
        } else {
          assert nodes + [] == nodes;
          return Some(Trace(nodes, Declared));
        }
      }
      assert nodes + [] == nodes;
      return Some(Trace(nodes, DepthLimit));
    }
  }

  // ---------------------------------------------------------------- every store

  predicate AllKnown(s: Store, chain: seq<nat>) {
    forall id | id in chain :: id in s.records
  }

  function NodesOf(s: Store, hash: string -> string, chain: seq<nat>): seq<Node>
    requires AllKnown(s, chain)
  {
    if chain == [] then []
    else
      assert chain[0] in chain;
      [NodeOf(s, hash, chain[0])] + NodesOf(s, hash, chain[1..])
  }

  /** Distinct records the caller may see, each the source of the one before with the content recorded for it. */
  predicate IsChain(s: Store, hash: string -> string, c: Caller, chain: seq<nat>) {
    chain != [] ==>
      && Visible(s, c, chain[0])
      && chain[0] !in chain[1..]
      && (|chain| > 1 ==> CanFollow(s, hash, c, chain[0]) && s.records[chain[0]].sourceMemory == Some(chain[1]))
      && IsChain(s, hash, c, chain[1..])
  }

  /** Where and why the walk stopped after its last record; `seen` were visited before. */
  predicate StopsAt(s: Store, hash: string -> string, c: Caller, last: nat, visited: set<nat>, exhausted: bool,
                    tail: seq<Node>, termination: Termination)
    requires last in s.records
  {
    if CanFollow(s, hash, c, last) then
      && tail == []
      && termination == (if exhausted then DepthLimit else Cycle)
      && (!exhausted ==> s.records[last].sourceMemory.value in visited)
    else Trace(tail, termination) == Closing(s, hash, c, last)
  }

  lemma {:induction false} LineageIsChain(s: Store, hash: string -> string, c: Caller, id: nat, seen: set<nat>,
                                          depth: nat)
    returns (chain: seq<nat>, tail: seq<Node>)
    requires Visible(s, c, id) && depth > 0 && id !in seen
    ensures chain != [] && chain[0] == id && |chain| <= depth && IsChain(s, hash, c, chain)
    ensures Elements(chain) !! seen && AllKnown(s, chain)
    ensures Lineage(s, hash, c, id, seen, depth).nodes == NodesOf(s, hash, chain) + tail
    ensures StopsAt(s, hash, c, chain[|chain| - 1], seen + Elements(chain), |chain| == depth, tail,
                    Lineage(s, hash, c, id, seen, depth).termination)
    decreases depth
  {
    var next := s.records[id].sourceMemory;
    if CanFollow(s, hash, c, id) && depth > 1 && next.value !in seen + {id} {
      var rest;
      rest, tail := LineageIsChain(s, hash, c, next.value, seen + {id}, depth - 1);
      chain := [id] + rest;
      ChainGrows(s, hash, c, id, rest, seen);
      assert NodesOf(s, hash, chain) + tail == [NodeOf(s, hash, id)] + (NodesOf(s, hash, rest) + tail);
    } else {
      chain := [id];
      assert Elements(chain) == {id};
      assert NodesOf(s, hash, chain) == [NodeOf(s, hash, id)];
      tail := if CanFollow(s, hash, c, id) then [] else Closing(s, hash, c, id).nodes;
    }
  }

  lemma ChainGrows(s: Store, hash: string -> string, c: Caller, id: nat, rest: seq<nat>, seen: set<nat>)
    requires Visible(s, c, id) && id !in seen && CanFollow(s, hash, c, id)
    requires rest != [] && Some(rest[0]) == s.records[id].sourceMemory
    requires IsChain(s, hash, c, rest) && Elements(rest) !! seen + {id} && AllKnown(s, rest)
    ensures IsChain(s, hash, c, [id] + rest) && Elements([id] + rest) !! seen && AllKnown(s, [id] + rest)
    ensures seen + {id} + Elements(rest) == seen + Elements([id] + rest)
    ensures NodesOf(s, hash, [id] + rest) == [NodeOf(s, hash, id)] + NodesOf(s, hash, rest)
  {
    assert ([id] + rest)[1..] == rest;
    assert id !in rest by {
      assert id !in Elements(rest);
    }
  }

  function Elements(chain: seq<nat>): set<nat> {
    set i | i in chain
  }

  /**
   Every trace. Its nodes are a chain of at most `maxDepth` distinct records from the root, all in the
   caller's scope and each hop matching the recorded digest, and then at most one more node. It is
   complete exactly when the chain's last record has no memory source and a message source, if it
   has one, is in the caller's organization.
  */
  lemma TraceIsChain(s: Store, hash: string -> string, c: Caller, id: nat, maxDepth: nat)
    returns (chain: seq<nat>, tail: seq<Node>)
    requires maxDepth > 0 && Get(s, id, c.org, c.user).Some?
    ensures var trace := Lineage(s, hash, c, id, {}, maxDepth);
      && chain != [] && chain[0] == id && |chain| <= maxDepth && IsChain(s, hash, c, chain) && AllKnown(s, chain)
      && trace.nodes == NodesOf(s, hash, chain) + tail
      && StopsAt(s, hash, c, chain[|chain| - 1], Elements(chain), |chain| == maxDepth, tail, trace.termination)
      && |tail| <= 1 && |trace.nodes| <= maxDepth + 1
    ensures Lineage(s, hash, c, id, {}, maxDepth).Complete() <==>
              var last := s.records[chain[|chain| - 1]];
              last.sourceMemory.None? &&
              (last.sourceMessage.Some? ==>
                 last.sourceMessage.value in s.messages && s.messages[last.sourceMessage.value].org == c.org)
  {
    chain, tail := LineageIsChain(s, hash, c, id, {}, maxDepth);
    assert {} + Elements(chain) == Elements(chain);
    NodesAreMany(s, hash, chain);
  }

  lemma {:induction false} ChainAt(s: Store, hash: string -> string, c: Caller, chain: seq<nat>, k: nat)
    requires IsChain(s, hash, c, chain) && AllKnown(s, chain) && k < |chain|
    ensures Visible(s, c, chain[k]) && chain[k] !in chain[..k]
    ensures |NodesOf(s, hash, chain)| == |chain| && NodesOf(s, hash, chain)[k] == NodeOf(s, hash, chain[k])
    ensures k + 1 < |chain| ==>
              CanFollow(s, hash, c, chain[k]) && s.records[chain[k]].sourceMemory == Some(chain[k + 1])
  {
    NodesAreMany(s, hash, chain);
    if k > 0 {
      ChainAt(s, hash, c, chain[1..], k - 1);
      assert chain[k] == chain[1..][k - 1] && chain[k] in chain[1..];
      assert forall i | i in chain[..k] :: i == chain[0] || i in chain[1..][..k - 1];
    }
  }

  /** A record of the caller's organization, shared or his own. */
  predicate InScope(s: Store, c: Caller, id: nat) {
    && id in s.records && s.records[id].org == c.org
    && (s.records[id].scope == Organization || s.records[id].scope == Personal(c.user))
  }

  /**
   Every node of a trace, field by field. The k-th one is the k-th record of the chain with the digest of its
   content, verified exactly when that is the digest its provenance holds; each record names the next one as its
   source, in the caller's scope and with the digest recorded for it.
  */
  lemma TraceNodesAreTheChains(s: Store, hash: string -> string, c: Caller, id: nat, maxDepth: nat, k: nat)
    returns (chain: seq<nat>, tail: seq<Node>)
    requires maxDepth > 0 && Get(s, id, c.org, c.user).Some?
    ensures var trace := Lineage(s, hash, c, id, {}, maxDepth);
      && 0 < |chain| <= maxDepth && chain[0] == id && |trace.nodes| == |chain| + |tail|
      && trace.nodes[|chain|..] == tail
      && (k < |chain| ==>
            && InScope(s, c, chain[k]) && chain[k] !in chain[..k]
            && var r := s.records[chain[k]];
            trace.nodes[k] ==
              MemoryNode(chain[k], hash(r.content), r.digests.content == Some(hash(r.content)), r.deleted))
      && (k + 1 < |chain| ==>
            && InScope(s, c, chain[k + 1])
            && s.records[chain[k]].sourceMemory == Some(chain[k + 1])
            && s.records[chain[k]].digests.source == Some(hash(s.records[chain[k + 1]].content)))
    ensures chain[|chain| - 1] in s.records
    ensures EndTellsWhy(s, hash, c, chain, maxDepth, tail, Lineage(s, hash, c, id, {}, maxDepth).termination)
  {
    chain, tail := TraceIsChain(s, hash, c, id, maxDepth);
    NodesAreMany(s, hash, chain);
    if k < |chain| {
      ChainAt(s, hash, c, chain, k);
    }
    assert chain[|chain| - 1] in chain;
  }

  /** The node after the last record, and the termination: each has its one reason. */
  predicate EndTellsWhy(s: Store, hash: string -> string, c: Caller, chain: seq<nat>, maxDepth: nat, tail: seq<Node>,
                        termination: Termination)
    requires chain != [] && chain[|chain| - 1] in s.records
  {
    var last := s.records[chain[|chain| - 1]];
    if last.sourceMemory.Some? then
      var source := last.sourceMemory.value;
      if !InScope(s, c, source) then tail == [HiddenMemory] && termination == Unavailable
      else if last.digests.source != Some(hash(s.records[source].content)) then
        tail == [MismatchedSource(source)] && termination == IntegrityFailure
      else tail == [] && if |chain| == maxDepth then termination == DepthLimit
                         else termination == Cycle && source in chain
    else if last.sourceMessage.Some? then
      var m := last.sourceMessage.value;
      if m !in s.messages || s.messages[m].org != c.org then tail == [HiddenMessage] && termination == Unavailable
      else
        && termination == SourceMessage
        && tail == [MessageNode(m, hash(s.messages[m].content),
                                last.digests.source == Some(hash(s.messages[m].content)))]
    else tail == [] && termination == Declared
  }

  /** The record reached from `id` by following `hops` sources, none of the records met twice. */
  function Walk(s: Store, hash: string -> string, c: Caller, id: nat, seen: set<nat>, hops: nat): Option<nat>
    requires id in s.records
    decreases hops
  {
    if id in seen then None
    else if hops == 0 then Some(id)
    else if CanFollow(s, hash, c, id) then
      Walk(s, hash, c, s.records[id].sourceMemory.value, seen + {id}, hops - 1)
    else None
  }

  /** The record is traced no further although it names a source. */
  predicate EndsAtSource(s: Store, hash: string -> string, c: Caller, id: nat) {
    && id in s.records && !CanFollow(s, hash, c, id)
    && (s.records[id].sourceMemory.Some? || s.records[id].sourceMessage.Some?)
  }

  lemma {:induction false} LineageExceedsDepth(s: Store, hash: string -> string, c: Caller, id: nat, seen: set<nat>,
                                               depth: nat)
    requires id in s.records && depth > 0
    ensures var nodes := Lineage(s, hash, c, id, seen, depth).nodes;
      var last := Walk(s, hash, c, id, seen, depth - 1);
      && |nodes| <= depth + 1
      && (|nodes| > depth <==> last.Some? && EndsAtSource(s, hash, c, last.value))
    decreases depth
  {
    if id !in seen && depth > 1 && CanFollow(s, hash, c, id) {
      LineageExceedsDepth(s, hash, c, s.records[id].sourceMemory.value, seen + {id}, depth - 1);
    }
  }

  /**
   The documented bound of `maxDepth` nodes fails, by one node, exactly when the record `maxDepth - 1`
   hops away exists, names a source and cannot be followed to it.
  */
  lemma DepthBoundIsOffByOne(s: Store, hash: string -> string, c: Caller, id: nat, maxDepth: nat)
    requires maxDepth > 0 && Get(s, id, c.org, c.user).Some?
    ensures var nodes := Lineage(s, hash, c, id, {}, maxDepth).nodes;
      var last := Walk(s, hash, c, id, {}, maxDepth - 1);
      && |nodes| <= maxDepth + 1
      && (|nodes| > maxDepth <==> last.Some? && EndsAtSource(s, hash, c, last.value))
  {
    LineageExceedsDepth(s, hash, c, id, {}, maxDepth);
  }

  lemma {:induction false} NodesAreMany(s: Store, hash: string -> string, chain: seq<nat>)
    requires AllKnown(s, chain)
    ensures |NodesOf(s, hash, chain)| == |chain|
  {
    if chain != [] {
      NodesAreMany(s, hash, chain[1..]);
    }
  }

  /** An ordinary request of an administrator for a shared memory. */
  function SharedRequest(content: string, message: Option<nat>, memory: Option<nat>): Request {
    Request(1, 1, true, true, Shared, content, |content|, true, true, true, message, memory)
  }

  lemma RunOfTwo(s: Store, hash: string -> string, a: Op, b: Op)
    ensures Run(s, hash, [a, b]) == Step(Step(s, hash, a), hash, b)
    ensures Disciplined(s, hash, [a, b]) <==>
              && (a.Creating? ==> NamesOneSource(s, hash, a.request))
              && (b.Creating? ==> NamesOneSource(Step(s, hash, a), hash, b.request))
  {
    assert [a, b][1..] == [b] && [b][1..] == [];
    assert Run(Step(s, hash, a), hash, [b]) == Run(Step(Step(s, hash, a), hash, b), hash, []);
    assert Disciplined(Step(s, hash, a), hash, [b]) <==>
             (b.Creating? ==> NamesOneSource(Step(s, hash, a), hash, b.request));
  }

  /** On a reachable store, with a depth of one, a record bound to a message is traced with two nodes. */
  lemma TwoNodesAtDepthOne(hash: string -> string) returns (ops: seq<Op>)
    ensures Disciplined(EMPTY, hash, ops) && Get(Run(EMPTY, hash, ops), 0, 1, 1).Some?
    ensures |Lineage(Run(EMPTY, hash, ops), hash, Caller(1, 1), 0, {}, 1).nodes| == 2
  {
    var write := MessagesBecome(map[5 := Message(1, 1, true, "y")]);
    var create := Creating(SharedRequest("x", Some(5), None));
    ops := [write, create];
    var s := Step(Step(EMPTY, hash, write), hash, create);
    RunOfTwo(EMPTY, hash, write, create);
    DepthBoundIsOffByOne(s, hash, Caller(1, 1), 0, 1);
  }

  // ---------------------------------------------------------------- reachable stores

  /** On a sound store links go to older records, so nothing is visited twice and every hop matches. */
  lemma {:induction false} SoundLineage(s: Store, hash: string -> string, c: Caller, id: nat, seen: set<nat>,
                                        depth: nat)
    requires Inv(s, hash) && Visible(s, c, id) && (forall i | i in seen :: id < i)
    ensures var trace := Lineage(s, hash, c, id, seen, depth);
      && trace.termination != Cycle && trace.termination != IntegrityFailure
      && (forall n | n in trace.nodes && n.MemoryNode? :: n.verified)
      && (forall n | n in trace.nodes :: !n.MismatchedSource?)
    decreases depth
  {
    assert Sound(s.records, hash, id);
    if depth > 0 && CanFollow(s, hash, c, id) {
      SoundLineage(s, hash, c, s.records[id].sourceMemory.value, seen + {id}, depth - 1);
    }
  }

  /**
   On every store reached by disciplined creations, deletions and any change of the messages, every
   memory visited is verified and a trace ends neither in a cycle nor in an integrity failure.
  */
  lemma ReachableTracesAreSound(hash: string -> string, ops: seq<Op>, c: Caller, id: nat, maxDepth: nat)
    requires Disciplined(EMPTY, hash, ops)
    requires Get(Run(EMPTY, hash, ops), id, c.org, c.user).Some?
    ensures var trace := Lineage(Run(EMPTY, hash, ops), hash, c, id, {}, maxDepth);
      && trace.termination != Cycle && trace.termination != IntegrityFailure
      && (forall n | n in trace.nodes && n.MemoryNode? :: n.verified)
  {
    RunKeepsInv(EMPTY, hash, ops);
    SoundLineage(Run(EMPTY, hash, ops), hash, c, id, {}, maxDepth);
  }

  /** A source is unavailable only because it is another user's own memory: records are never removed. */
  lemma UnavailableIsSomeoneElses(s: Store, hash: string -> string, c: Caller, id: nat)
    requires Inv(s, hash) && Visible(s, c, id) && s.records[id].sourceMemory.Some?
    ensures s.records[id].sourceMemory.value in s.records
    ensures CanFollow(s, hash, c, id) <==>
              s.records[s.records[id].sourceMemory.value].scope in {Organization, Personal(c.user)}
  {
    assert Sound(s.records, hash, id);
  }

  /** Naming both sources lets the message's digest stand for the memory's: tracing fails unless they agree. */
  lemma TwoSourcesBreakIntegrity(s: Store, hash: string -> string, r: Request, maxDepth: nat)
    requires Inv(s, hash) && maxDepth > 0 && Create(s, hash, r).1.Item?
    ensures var trace := Lineage(Create(s, hash, r).0, hash, Caller(r.org, r.actor), s.next, {}, maxDepth);
      (trace.termination == IntegrityFailure) <==> !NamesOneSource(s, hash, r)
  {
    var t := Create(s, hash, r).0;
    var c := Caller(r.org, r.actor);
    if NamesOneSource(s, hash, r) {
      StepKeepsInv(s, hash, Creating(r));
      SoundLineage(t, hash, c, s.next, {}, maxDepth);
    } else {
      assert Sound(s.records, hash, r.memory.value);
      assert Visible(t, c, r.memory.value) && !CanFollow(t, hash, c, s.next);
    }
  }

  /** A reachable store on which a creation naming two sources succeeds and cannot be traced afterwards. */
  lemma TwoSourcesInstance(hash: string -> string) returns (ops: seq<Op>, r: Request)
    requires hash("a") != hash("b")
    ensures Disciplined(EMPTY, hash, ops)
    ensures var s := Run(EMPTY, hash, ops);
      && Create(s, hash, r).1 == Item(s.next)
      && Lineage(Create(s, hash, r).0, hash, Caller(r.org, r.actor), s.next, {}, 20).termination == IntegrityFailure
  {
    var write := MessagesBecome(map[5 := Message(1, 1, true, "b")]);
    var create := Creating(SharedRequest("a", None, None));
    ops, r := [write, create], SharedRequest("c", Some(5), Some(0));
    var s := Step(Step(EMPTY, hash, write), hash, create);
    RunOfTwo(EMPTY, hash, write, create);
    RunKeepsInv(EMPTY, hash, ops);
    assert MessageSource(s, r).Some? && Get(s, 0, 1, 1).Some?;
    TwoSourcesBreakIntegrity(s, hash, r, 20);
  }

  // ---------------------------------------------------------------- stability

  function Undeleted(nodes: seq<Node>): seq<Node> {
    if nodes == [] then []
    else [if nodes[0].MemoryNode? then nodes[0].(deleted := false) else nodes[0]] + Undeleted(nodes[1..])
  }

  /** Later creations and deletions change nothing in a trace but deletion marks. */
  predicate Later(s: Store, t: Store) {
    && t.messages == s.messages
    && forall id {:trigger s.records[id]} {:trigger t.records[id]} | id in s.records ::
         id in t.records && t.records[id] == s.records[id].(deleted := t.records[id].deleted)
  }

  lemma HopIsStable(s: Store, t: Store, hash: string -> string, c: Caller, id: nat)
    requires Inv(s, hash) && Later(s, t) && Visible(s, c, id)
    ensures Visible(t, c, id)
    ensures CanFollow(t, hash, c, id) == CanFollow(s, hash, c, id)
    ensures Closing(t, hash, c, id) == Closing(s, hash, c, id)
    ensures var n := NodeOf(s, hash, id);
      n.MemoryNode? && NodeOf(t, hash, id) == n.(deleted := t.records[id].deleted)
  {
    assert Sound(s.records, hash, id);
    assert t.records[id] == s.records[id].(deleted := t.records[id].deleted);
    var source := s.records[id].sourceMemory;
    if source.Some? {
      assert t.records[source.value] == s.records[source.value].(deleted := t.records[source.value].deleted);
    }
  }

  lemma UndeletedHead(a: Node, b: Node, rest: seq<Node>, rest': seq<Node>)
    requires a.MemoryNode? && b.MemoryNode? && a.(deleted := false) == b.(deleted := false)
    requires Undeleted(rest) == Undeleted(rest')
    ensures Undeleted([a] + rest) == Undeleted([b] + rest')
  {
    assert ([a] + rest)[1..] == rest && ([b] + rest')[1..] == rest';
  }

  lemma {:induction false} LineageIsStable(s: Store, t: Store, hash: string -> string, c: Caller, id: nat,
                                           seen: set<nat>, depth: nat)
    requires Inv(s, hash) && Later(s, t) && Visible(s, c, id)
    ensures Visible(t, c, id)
    ensures Lineage(t, hash, c, id, seen, depth).termination == Lineage(s, hash, c, id, seen, depth).termination
    ensures Undeleted(Lineage(t, hash, c, id, seen, depth).nodes) ==
              Undeleted(Lineage(s, hash, c, id, seen, depth).nodes)
    decreases depth
  {
    HopIsStable(s, t, hash, c, id);
    if depth > 0 && id !in seen {
      var rest, rest' := Closing(s, hash, c, id), Closing(t, hash, c, id);
      if CanFollow(s, hash, c, id) {
        var next := s.records[id].sourceMemory.value;
        assert t.records[id].sourceMemory.value == next;
        LineageIsStable(s, t, hash, c, next, seen + {id}, depth - 1);
        rest := Lineage(s, hash, c, next, seen + {id}, depth - 1);
        rest' := Lineage(t, hash, c, next, seen + {id}, depth - 1);
      }
      UndeletedHead(NodeOf(t, hash, id), NodeOf(s, hash, id), rest'.nodes, rest.nodes);
    }
  }

  /** Whatever is created or deleted later, a record's trace stays the same but for deletion marks. */
  lemma TraceSurvivesDeletion(s: Store, hash: string -> string, ops: seq<Op>, c: Caller, id: nat, maxDepth: nat)
    requires Inv(s, hash) && Visible(s, c, id)
    requires forall op | op in ops :: !op.MessagesBecome?
    ensures Visible(Run(s, hash, ops), c, id)
    ensures var before := Lineage(s, hash, c, id, {}, maxDepth);
      var after := Lineage(Run(s, hash, ops), hash, c, id, {}, maxDepth);
      after.termination == before.termination && Undeleted(after.nodes) == Undeleted(before.nodes)
  {
    MessagesStay(s, hash, ops);
    forall i | i in s.records
      ensures i in Run(s, hash, ops).records &&
              Run(s, hash, ops).records[i] == s.records[i].(deleted := Run(s, hash, ops).records[i].deleted)
    {
      forall j | j in s.records ensures j < s.next {
        assert Sound(s.records, hash, j);
      }
      RecordsAreForever(s, hash, ops, i);
    }
    LineageIsStable(s, Run(s, hash, ops), hash, c, id, {}, maxDepth);
  }

  lemma {:induction false} MessagesStay(s: Store, hash: string -> string, ops: seq<Op>)
    requires forall op | op in ops :: !op.MessagesBecome?
    ensures Run(s, hash, ops).messages == s.messages
    decreases |ops|
  {
    if ops != [] {
      MessagesStay(Step(s, hash, ops[0]), hash, ops[1..]);
    }
  }
}

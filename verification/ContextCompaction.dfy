/** The compactor: a bounded, attributable extract standing for older conversation history. */
module ContextCompaction {
  import opened Common
  import opened TokenMath

  datatype Role = User | Assistant

  /** A stored message; `role` is absent for any other role, `content` is its stripped text or absent. */
  datatype Item = Item(id: Option<int>, role: Option<Role>, completed: bool, content: Option<string>)
  {
    function Text(): string {
      if content.Some? then content.value else ""
    }

    /** What the compactor accepts. */
    predicate IsSource() {
      role.Some? && Text() != ""
    }

    /** What the builder accepts. */
    predicate IsEligible() {
      IsSource() && completed
    }

    function Line(): string {
      (if role == Some(User) then "[user] " else "[assistant] ") + Text()
    }
  }

  datatype Artifact = Artifact(content: string, sourceIds: seq<int>, digest: string, tokens: int)

  /** The envelope's texts; the hash function and the notion of white space are the platform's. */
  datatype Compactor = Compactor(prefix: string, digestTag: string, suffix: string, marker: string,
                                 hash: string -> string, isSpace: char -> bool)
  {
    /** What is left when the white space at the end is gone. */
    function TrimEnd(s: string): (t: string)
      ensures t <= s && (t == "" || !isSpace(t[|t| - 1])) && forall k | |t| <= k < |s| :: isSpace(s[k])
    {
      if s != "" && isSpace(s[|s| - 1]) then TrimEnd(s[..|s| - 1]) else s
    }
  }

  function DeterministicCompactor(hash: string -> string, isSpace: char -> bool): Compactor {
    Compactor("<conversation_compaction untrusted=\"true\">\n", "source_sha256=",
              "\n</conversation_compaction>", "\n[older context truncated]", hash, isSpace)
  }

  function Sources(history: seq<Item>): seq<Item> {
    if history == [] then []
    else
      var front := Sources(history[..|history| - 1]);
      var last := history[|history| - 1];
      if last.IsSource() then front + [last] else front
  }

  /** The lines of these messages, joined by newlines. */
  function Payload(items: seq<Item>): string {
    if items == [] then ""
    else if |items| == 1 then items[0].Line()
    else Payload(items[..|items| - 1]) + "\n" + items[|items| - 1].Line()
  }

  function Ids(items: seq<Item>): seq<int> {
    if items == [] then []
    else
      var front := Ids(items[..|items| - 1]);
      var last := items[|items| - 1];
      if last.id.Some? then front + [last.id.value] else front
  }

  function Header(compactor: Compactor, payload: string): string {
    compactor.prefix + (compactor.digestTag + compactor.hash(payload) + "\n")
  }

  /** The payload as it is if it fits the capacity, else cut down to end with a truncation marker, if it can be. */
  function Fit(compactor: Compactor, payload: string, capacity: int): (r: Option<string>)
    ensures r.Some? ==> |r.value| <= capacity
  {
    if capacity <= 0 then None
    else if |payload| <= capacity then Some(payload)
    else if capacity <= |compactor.marker| then None
    else Some(compactor.TrimEnd(payload[..capacity - |compactor.marker|]) + compactor.marker)
  }

  function Compaction(compactor: Compactor, history: seq<Item>, tokenBudget: int, charsPerToken: int)
    : Option<Artifact>
  {
    if tokenBudget <= 0 || charsPerToken <= 0 || Sources(history) == [] then None
    else
      var payload := Payload(Sources(history));
      var header := Header(compactor, payload);
      match Fit(compactor, payload, tokenBudget * charsPerToken - |header| - |compactor.suffix|)
      case None => None
      case Some(fitted) =>
        var content := header + fitted + compactor.suffix;
        Some(Artifact(content, Ids(Sources(history)), compactor.hash(payload), Tokens(|content|, charsPerToken)))
  }

  /** The text without the white space at its end. */
  predicate IsTrimmed(compactor: Compactor, text: string, cut: string) {
    && cut <= text
    && (cut == "" || !compactor.isSpace(cut[|cut| - 1]))
    && forall k | |cut| <= k < |text| :: compactor.isSpace(text[k])
  }

  /**
   An artifact stays in its token budget, envelope and truncation included. Between the envelope's texts
   is the whole payload if there is room for it, and else as much of it as leaves room for the marker,
   trimmed at the end, and the marker.
  */
  lemma CompactionFits(compactor: Compactor, history: seq<Item>, tokenBudget: int, charsPerToken: int)
    returns (body: string)
    requires Compaction(compactor, history, tokenBudget, charsPerToken).Some?
    ensures var r := Compaction(compactor, history, tokenBudget, charsPerToken).value;
      var payload := Payload(Sources(history));
      var digest := compactor.hash(payload);
      var opening := compactor.prefix + (compactor.digestTag + digest + "\n");
      var room := tokenBudget * charsPerToken - |opening| - |compactor.suffix|;
      && r.tokens == Tokens(|r.content|, charsPerToken) <= tokenBudget
      && r.content == opening + body + compactor.suffix
      && (|payload| <= room ==> body == payload)
      && (|payload| > room ==>
            && 0 <= room - |compactor.marker| <= |payload|
            && exists cut :: IsTrimmed(compactor, payload[..room - |compactor.marker|], cut)
                             && body == cut + compactor.marker)
      && r.digest == digest
      && r.sourceIds == Ids(Sources(history))
  {
    var r := Compaction(compactor, history, tokenBudget, charsPerToken).value;
    var payload := Payload(Sources(history));
    var capacity := tokenBudget * charsPerToken - |Header(compactor, payload)| - |compactor.suffix|;
    body := Fit(compactor, payload, capacity).value;
    TokensFit(|r.content|, charsPerToken, tokenBudget);
    if |payload| > capacity {
      var cut := compactor.TrimEnd(payload[..capacity - |compactor.marker|]);
      assert IsTrimmed(compactor, payload[..capacity - |compactor.marker|], cut) && body == cut + compactor.marker;
    }
  }

  /**
   With a 64-character digest the envelope takes 149 characters and the marker 26: there is an artifact
   exactly when there is something to compact and room for all of it or for a cut and the marker.
  */
  lemma CompactionNeedsRoom(hash: string -> string, isSpace: char -> bool, history: seq<Item>, tokenBudget: int,
                            charsPerToken: int)
    requires |hash(Payload(Sources(history)))| == 64
    ensures Compaction(DeterministicCompactor(hash, isSpace), history, tokenBudget, charsPerToken).Some? <==>
              && tokenBudget > 0 && charsPerToken > 0 && Sources(history) != []
              && var room := tokenBudget * charsPerToken - 149;
              && room > 0 && (|Payload(Sources(history))| <= room || room > 26)
  {
    var compactor := DeterministicCompactor(hash, isSpace);
    assert |compactor.prefix| == 43 && |compactor.digestTag| == 14;
    assert |compactor.suffix| == 27 && |compactor.marker| == 26;
    assert |Header(compactor, Payload(Sources(history)))| == 122;
  }

  /** The compactor as it runs: one pass over the history, then the envelope. */
  method Compact(compactor: Compactor, history: seq<Item>, tokenBudget: int, charsPerToken: int)
    returns (r: Option<Artifact>)
    ensures r == Compaction(compactor, history, tokenBudget, charsPerToken)
  {
    if history == [] || tokenBudget <= 0 || charsPerToken <= 0 {
      return None;
    }
    var payload, sources, sourceIds := "", 0, [];
    for i := 0 to |history|
      invariant sources == |Sources(history[..i])|
      invariant payload == Payload(Sources(history[..i]))
      invariant sourceIds == Ids(Sources(history[..i]))
    {
      var item := history[i];
      assert history[..i + 1][..i] == history[..i];
      if item.IsSource() {
        ghost var before := Sources(history[..i]);
        assert Sources(history[..i + 1]) == before + [item];
        assert (before + [item])[..|before|] == before;
        if item.id.Some? {
          sourceIds := sourceIds + [item.id.value];
        }
        payload := if sources == 0 then item.Line() else payload + "\n" + item.Line();
        sources := sources + 1;
      }
    }
    assert history[..|history|] == history;
    if sources == 0 {
      return None;
    }
    var digest := compactor.hash(payload);
    var header := compactor.prefix + (compactor.digestTag + digest + "\n");
    var payloadCapacity := tokenBudget * charsPerToken - |header| - |compactor.suffix|;
    if payloadCapacity <= 0 {
      return None;
    }
    if |payload| > payloadCapacity {
      if payloadCapacity <= |compactor.marker| {
        return None;
      }
      payload := compactor.TrimEnd(payload[..payloadCapacity - |compactor.marker|]) + compactor.marker;
    }
    var content := header + payload + compactor.suffix;
    var tokens := CeilDiv(|content|, charsPerToken);
    return Some(Artifact(content, sourceIds, digest, tokens));
  }
}

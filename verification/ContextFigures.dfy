/** What is kept, sent and compacted, in the policy's own figures and message by message. */
module ContextFigures {
  import opened Common
  import opened ContextBuilder
  import opened ContextCompaction
  import opened ContextTheorems
  import opened TokenMath

  // ---------------------------------------------------------------- the history that is looked at

  /** Messages are looked at one by one and keep their order. */
  lemma {:induction false} EligibleSplits(a: seq<Item>, b: seq<Item>)
    ensures Eligible(a + b) == Eligible(a) + Eligible(b)
  {
    if b == [] {
      assert a + b == a;
    } else {
      assert (a + b)[..|a + b| - 1] == a + b[..|b| - 1];
      EligibleSplits(a, b[..|b| - 1]);
    }
  }

  /** Eligible are exactly completed, non-empty messages of the user or the assistant. */
  lemma EligibleOne(item: Item)
    ensures Eligible([item]) ==
              if item.completed && (item.role == Some(User) || item.role == Some(Assistant))
                 && item.content.Some? && item.content.value != "" then [item] else []
  {
    assert [item][..0] == [];
    if item.role.Some? {
      assert item.role.value.User? || item.role.value.Assistant?;
    }
  }

  /** Only the newest messages up to the source window matter, and all of those do. */
  lemma SourceWindow(p: Policy, history: seq<Item>)
    requires p.Valid()
    ensures |history| <= p.maxSourceMessages ==> Turns(p, history) == Eligible(history)
    ensures |history| > p.maxSourceMessages ==> Turns(p, history) == Eligible(history[..p.maxSourceMessages])
  {
    if |history| <= p.maxSourceMessages {
      assert history[..|history|] == history;
    }
  }

  lemma {:induction false} ReverseAt(turns: seq<Item>, k: nat)
    requires k < |turns|
    ensures |Reverse(turns)| == |turns| && Reverse(turns)[k] == turns[|turns| - 1 - k]
  {
    if k > 0 {
      ReverseAt(turns[..|turns| - 1], k - 1);
    } else {
      ReverseIsSameSize(turns, 1);
    }
  }

  // ---------------------------------------------------------------- what is kept

  /** A build is refused exactly when the prompt is empty or does not fit the input window with the system prompt. */
  lemma RefusalIsExact(p: Policy, compactor: Compactor, history: seq<Item>, prompt: string, system: Option<string>)
    requires p.Valid()
    ensures Build(p, compactor, history, prompt, system).None? <==>
              || prompt == ""
              || Tokens(|prompt|, p.charsPerToken) + Tokens(if system.Some? then |system.value| else 0, p.charsPerToken)
                 > p.contextWindow - p.reservedOutput
  {
  }

  /** `history` tokens, with the prompt's and the system prompt's, exceed one of the policy's limits. */
  predicate Exceeds(p: Policy, history: int, prompt: string, system: Option<string>)
    requires p.Valid()
  {
    || history > p.maxHistoryTokens
    || history + Tokens(|prompt|, p.charsPerToken) + Tokens(if system.Some? then |system.value| else 0, p.charsPerToken)
       > p.contextWindow - p.reservedOutput
  }

  /**
   Maximality. `prefix` is what is not kept and its last message the newest of that. With fewer messages
   kept than the policy allows, keeping one more would exceed a limit of the policy; when there is a
   compaction, together with the room the policy gives it. What is kept and the compaction exceed none.
  */
  predicate KeepsTheMost(p: Policy, prefix: seq<Item>, kept: seq<Item>, artifact: Option<Artifact>, prompt: string,
                         system: Option<string>)
    requires p.Valid()
  {
    var tokens := Total(kept, p.charsPerToken);
    && |kept| <= p.maxHistoryMessages
    && (prefix != [] && |kept| < p.maxHistoryMessages ==>
          var next := tokens + Size(prefix[|prefix| - 1], p.charsPerToken);
          Exceeds(p, next + if artifact.Some? then p.maxCompactionTokens else 0, prompt, system))
    && !Exceeds(p, tokens + if artifact.Some? then artifact.value.tokens else 0, prompt, system)
    && (artifact.Some? ==> artifact.value.tokens <= p.maxCompactionTokens)
  }

  lemma KeptTokens(turns: seq<Item>, kept: nat, gap: seq<Item>, selected: seq<Item>, charsPerToken: int)
    requires charsPerToken > 0 && kept <= |turns| && Reverse(turns[..kept]) == gap + selected
    ensures Total(gap + selected, charsPerToken) == Total(turns[..kept], charsPerToken) && |gap + selected| == kept
  {
    ReverseIsSameSize(turns[..kept], charsPerToken);
  }

  lemma NewestDropped(turns: seq<Item>, kept: nat, charsPerToken: int)
    requires charsPerToken > 0 && kept <= |turns|
    ensures |Reverse(turns[kept..])| == |turns| - kept
    ensures kept < |turns| ==>
              Total(turns[..kept + 1], charsPerToken) == Total(turns[..kept], charsPerToken)
                + Size(Reverse(turns[kept..])[|turns| - kept - 1], charsPerToken)
  {
    ReverseIsSameSize(turns[kept..], charsPerToken);
    if kept < |turns| {
      ReverseAt(turns[kept..], |turns| - kept - 1);
      TotalOfPrefix(turns, kept, charsPerToken);
    }
  }

  /** The split of the eligible history with its figures: every build keeps the most it may. */
  lemma HistoryIsMaximal(p: Policy, compactor: Compactor, history: seq<Item>, prompt: string, system: Option<string>)
    returns (prefix: seq<Item>, gap: seq<Item>, selected: seq<Item>, artifact: Option<Artifact>)
    requires p.Valid() && Accepts(p, prompt, system)
    ensures Reverse(Turns(p, history)) == prefix + gap + selected
    ensures HasShape(p, compactor, Turns(p, history), HistoryBudget(p, prompt, system), prompt,
                     Build(p, compactor, history, prompt, system).value, prefix, gap, selected, artifact)
    ensures KeepsTheMost(p, prefix, gap + selected, artifact, prompt, system)
  {
    var kept;
    kept, artifact := BuildIsAChoice(p, compactor, history, prompt, system);
    var turns := Turns(p, history);
    EligibleAreEligible(history[..Min(|history|, p.maxSourceMessages)]);
    var budget := HistoryBudget(p, prompt, system);
    prefix, gap := AssembledShape(p, compactor, turns, budget, kept, artifact, prompt, system);
    selected := Selected(turns, kept);
    ChoiceKeepsTheMost(p, compactor, turns, kept, artifact, prompt, system, gap, selected);
  }

  lemma ChoiceKeepsTheMost(p: Policy, compactor: Compactor, turns: seq<Item>, kept: nat, artifact: Option<Artifact>,
                           prompt: string, system: Option<string>, gap: seq<Item>, selected: seq<Item>)
    requires p.Valid() && Accepts(p, prompt, system) && kept <= |turns|
    requires IsChoice(p, compactor, turns, HistoryBudget(p, prompt, system), kept, artifact)
    requires Reverse(turns[..kept]) == gap + selected
    ensures KeepsTheMost(p, Reverse(turns[kept..]), gap + selected, artifact, prompt, system)
  {
    KeptTokens(turns, kept, gap, selected, p.charsPerToken);
    NewestDropped(turns, kept, p.charsPerToken);
  }

  // ---------------------------------------------------------------- what is sent

  lemma {:induction false} MessagesAreTurns(turns: seq<Item>, k: nat)
    requires k < |turns| && AllEligible(turns)
    ensures |AsMessages(turns)| == |turns| && turns[k].role.Some? && turns[k].content.Some?
    ensures AsMessages(turns)[k] == ChatMessage(turns[k].role.value, turns[k].content.value)
  {
    assert turns[|turns| - 1] in turns && turns[|turns| - 1].IsEligible();
    if |turns| > 1 {
      MessagesAreTurns(turns[..|turns| - 1], if k < |turns| - 1 then k else 0);
    }
  }

  lemma {:induction false} IdsSplit(a: seq<Item>, b: seq<Item>)
    ensures Ids(a + b) == Ids(a) + Ids(b)
  {
    if b == [] {
      assert a + b == a;
    } else {
      assert (a + b)[..|a + b| - 1] == a + b[..|b| - 1];
      IdsSplit(a, b[..|b| - 1]);
    }
  }

  lemma IdsOne(item: Item)
    ensures Ids([item]) == if item.id.Some? then [item.id.value] else []
  {
    assert [item][..0] == [];
  }

  // ---------------------------------------------------------------- what is compacted

  /** One line per message, its role in brackets, joined by newlines. */
  lemma {:induction false} PayloadSplits(a: seq<Item>, b: seq<Item>)
    requires a != [] && b != []
    ensures Payload(a + b) == Payload(a) + "\n" + Payload(b)
  {
    assert (a + b)[..|a + b| - 1] == a + b[..|b| - 1];
    if |b| == 1 {
      assert a + b[..0] == a;
    } else {
      PayloadSplits(a, b[..|b| - 1]);
    }
  }

  lemma PayloadOne(item: Item)
    requires item.IsEligible()
    ensures item.role == Some(User) ==> Payload([item]) == "[user] " + item.content.value
    ensures item.role == Some(Assistant) ==> Payload([item]) == "[assistant] " + item.content.value
  {
  }

  /** The shipped compactor's artifact, text for text. */
  lemma ShippedArtifact(hash: string -> string, isSpace: char -> bool, history: seq<Item>, tokenBudget: int,
                        charsPerToken: int) returns (body: string)
    requires Compaction(DeterministicCompactor(hash, isSpace), history, tokenBudget, charsPerToken).Some?
    ensures Compaction(DeterministicCompactor(hash, isSpace), history, tokenBudget, charsPerToken).value.content ==
              "<conversation_compaction untrusted=\"true\">\n"
              + ("source_sha256=" + hash(Payload(Sources(history))) + "\n") + body + "\n</conversation_compaction>"
  {
    body := CompactionFits(DeterministicCompactor(hash, isSpace), history, tokenBudget, charsPerToken);
  }

  lemma ArtifactMeansCompacted(p: Policy, compactor: Compactor, turns: seq<Item>, budget: nat)
    requires p.Valid()
    ensures var raw := Run(p, turns, Max(0, budget - p.maxCompactionTokens));
      Choose(p, compactor, turns, budget).1.Some? <==>
        && Run(p, turns, budget) < |turns| && p.maxCompactionTokens > 0
        && Compaction(compactor, Reverse(turns[raw..]),
                      Min(p.maxCompactionTokens, budget - Total(turns[..raw], p.charsPerToken)), p.charsPerToken).Some?
  {
  }

  /** The shipped compactor has room for the envelope and all of the text, or for a cut of it and the marker. */
  predicate HasRoom(omitted: seq<Item>, tokens: int, charsPerToken: int) {
    && omitted != [] && tokens > 0 && charsPerToken > 0
    && tokens * charsPerToken > 149
    && (|Payload(omitted)| <= tokens * charsPerToken - 149 || tokens * charsPerToken - 149 > 26)
  }

  lemma OmittedIsCompacted(hash: string -> string, isSpace: char -> bool, turns: seq<Item>, tokens: int,
                           charsPerToken: int)
    requires AllEligible(turns) && |hash(Payload(Reverse(turns)))| == 64
    ensures Compaction(DeterministicCompactor(hash, isSpace), Reverse(turns), tokens, charsPerToken).Some? <==>
              HasRoom(Reverse(turns), tokens, charsPerToken)
  {
    ReverseIsSameSize(turns, 1);
    EligibleAreSources(Reverse(turns));
    CompactionNeedsRoom(hash, isSpace, Reverse(turns), tokens, charsPerToken);
  }

  /**
   Compaction is tried exactly when something is omitted at the full budget and the policy gives it room;
   it succeeds exactly when the shipped envelope fits what is left.
  */
  lemma CompactionIsTried(p: Policy, hash: string -> string, isSpace: char -> bool, turns: seq<Item>, budget: nat)
    requires p.Valid() && AllEligible(turns) && forall text :: |hash(text)| == 64
    ensures var raw := Run(p, turns, Max(0, budget - p.maxCompactionTokens));
      var tokens := Min(p.maxCompactionTokens, budget - Total(turns[..raw], p.charsPerToken));
      Choose(p, DeterministicCompactor(hash, isSpace), turns, budget).1.Some? <==>
        && Run(p, turns, budget) < |turns| && p.maxCompactionTokens > 0
        && HasRoom(Reverse(turns[raw..]), tokens, p.charsPerToken)
  {
    var raw := Run(p, turns, Max(0, budget - p.maxCompactionTokens));
    var tokens := Min(p.maxCompactionTokens, budget - Total(turns[..raw], p.charsPerToken));
    ArtifactMeansCompacted(p, DeterministicCompactor(hash, isSpace), turns, budget);
    OmittedIsCompacted(hash, isSpace, turns[raw..], tokens, p.charsPerToken);
  }
}

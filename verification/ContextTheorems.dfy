/** What every built conversation context satisfies. */
module ContextTheorems {
  import opened Common
  import opened ContextBuilder
  import opened ContextCompaction
  import opened TokenMath

  /** A built context is an assembled choice. */
  lemma BuildIsAChoice(p: Policy, compactor: Compactor, history: seq<Item>, prompt: string, system: Option<string>)
    returns (kept: nat, artifact: Option<Artifact>)
    requires p.Valid() && Accepts(p, prompt, system)
    ensures kept <= |Turns(p, history)|
    ensures IsChoice(p, compactor, Turns(p, history), HistoryBudget(p, prompt, system), kept, artifact)
    ensures Build(p, compactor, history, prompt, system) ==
              Some(Assemble(p, |Turns(p, history)|, Selected(Turns(p, history), kept), artifact, prompt, system))
    ensures artifact.None? <==> Build(p, compactor, history, prompt, system).value.compactionDigest.None?
  {
    EligibleAreEligible(history[..Min(|history|, p.maxSourceMessages)]);
    ChooseIsChoice(p, compactor, Turns(p, history), HistoryBudget(p, prompt, system));
    kept, artifact := Choose(p, compactor, Turns(p, history), HistoryBudget(p, prompt, system)).0,
                      Choose(p, compactor, Turns(p, history), HistoryBudget(p, prompt, system)).1;
  }

  /** The kept turns, oldest first, split at the first question. */
  lemma KeptTurnsStartWithGap(turns: seq<Item>, kept: nat) returns (gap: seq<Item>)
    requires kept <= |turns| && AllEligible(turns)
    ensures Reverse(turns[..kept]) == gap + Selected(turns, kept)
    ensures |gap| + |Selected(turns, kept)| == kept
    ensures forall t | t in gap :: t.role == Some(Assistant)
    ensures Selected(turns, kept) == [] || Selected(turns, kept)[0].role == Some(User)
  {
    var recent := Reverse(turns[..kept]);
    ReverseIsSameSize(turns[..kept], 1);
    LeadingAreAssistants(recent);
    gap := recent[..Leading(recent)];
  }

  /** The eligible history, oldest first, splits at the kept turns and again at the first question. */
  lemma KeptTurnsSplit(turns: seq<Item>, kept: nat) returns (prefix: seq<Item>, gap: seq<Item>)
    requires kept <= |turns| && AllEligible(turns)
    ensures Reverse(turns) == prefix + gap + Selected(turns, kept)
    ensures prefix == Reverse(turns[kept..]) && Reverse(turns[..kept]) == gap + Selected(turns, kept)
    ensures |gap| + |Selected(turns, kept)| == kept
    ensures forall t | t in gap :: t.role == Some(Assistant)
    ensures Selected(turns, kept) == [] || Selected(turns, kept)[0].role == Some(User)
  {
    prefix := Reverse(turns[kept..]);
    gap := KeptTurnsStartWithGap(turns, kept);
    SplitReverses(turns, kept);
    ConcatAssociates(prefix, gap, Selected(turns, kept));
  }

  lemma SplitReverses(turns: seq<Item>, kept: nat)
    requires kept <= |turns|
    ensures Reverse(turns) == Reverse(turns[kept..]) + Reverse(turns[..kept])
  {
    ReverseSwaps(turns, turns[..kept], turns[kept..]);
  }

  /**
   Shape. The eligible history, oldest first, is a prefix that was compacted or dropped, then a gap of
   assistant turns only, then the selected turns. The selected turns never start with the assistant
   and are what is sent between the compaction and the prompt; they and the gap are the longest
   newest run within the message count and the token budget that applied. A compaction stands for
   the whole, non-empty prefix: it names its messages and the digest is that of their text.
  */
  predicate HasShape(p: Policy, compactor: Compactor, turns: seq<Item>, budget: nat, prompt: string, c: Context,
                     prefix: seq<Item>, gap: seq<Item>, selected: seq<Item>, artifact: Option<Artifact>)
    requires p.Valid()
  {
    && Reverse(turns) == prefix + gap + selected
    && (forall t | t in gap :: t.role == Some(Assistant))
    && (selected == [] || selected[0].role == Some(User))
    && IsLongestRun(turns, p.maxHistoryMessages,
                    if artifact.Some? then RawBudget(p, budget) else budget,
                    p.charsPerToken, |gap| + |selected|)
    && c.messages == Head(artifact) + AsMessages(selected) + [ChatMessage(User, prompt)]
    && c.truncated == |prefix| + |gap|
    && c.selectedIds == Ids(selected)
    && c.compactionIds == (if artifact.Some? then Ids(prefix) else [])
    && c.compactionDigest == (if artifact.Some? then Some(compactor.hash(Payload(prefix))) else None)
    && (artifact.Some? ==> prefix != [])
  }

  lemma AssembledShape(p: Policy, compactor: Compactor, turns: seq<Item>, budget: nat, kept: nat,
                       artifact: Option<Artifact>, prompt: string, system: Option<string>)
    returns (prefix: seq<Item>, gap: seq<Item>)
    requires p.Valid() && AllEligible(turns) && kept <= |turns| && IsChoice(p, compactor, turns, budget, kept, artifact)
    ensures HasShape(p, compactor, turns, budget, prompt,
                     Assemble(p, |turns|, Selected(turns, kept), artifact, prompt, system),
                     prefix, gap, Selected(turns, kept), artifact)
    ensures prefix == Reverse(turns[kept..]) && Reverse(turns[..kept]) == gap + Selected(turns, kept)
  {
    prefix, gap := KeptTurnsSplit(turns, kept);
    ReverseIsSameSize(turns[kept..], 1);
  }

  lemma ContextShape(p: Policy, compactor: Compactor, history: seq<Item>, prompt: string, system: Option<string>)
    returns (prefix: seq<Item>, gap: seq<Item>, selected: seq<Item>, artifact: Option<Artifact>)
    requires p.Valid() && Accepts(p, prompt, system)
    ensures Build(p, compactor, history, prompt, system).Some?
    ensures HasShape(p, compactor, Turns(p, history), HistoryBudget(p, prompt, system), prompt,
                     Build(p, compactor, history, prompt, system).value, prefix, gap, selected, artifact)
  {
    var kept;
    kept, artifact := BuildIsAChoice(p, compactor, history, prompt, system);
    selected := Selected(Turns(p, history), kept);
    EligibleAreEligible(history[..Min(|history|, p.maxSourceMessages)]);
    prefix, gap := AssembledShape(p, compactor, Turns(p, history), HistoryBudget(p, prompt, system), kept, artifact,
                                  prompt, system);
  }

  // ---------------------------------------------------------------- arithmetic

  function MessageTokens(messages: seq<ChatMessage>, charsPerToken: int): nat
    requires charsPerToken > 0
  {
    if messages == [] then 0
    else MessageTokens(messages[..|messages| - 1], charsPerToken)
         + Tokens(|messages[|messages| - 1].content|, charsPerToken)
  }

  lemma MessageTokensAppend(messages: seq<ChatMessage>, message: ChatMessage, charsPerToken: int)
    requires charsPerToken > 0
    ensures MessageTokens(messages + [message], charsPerToken) ==
              MessageTokens(messages, charsPerToken) + Tokens(|message.content|, charsPerToken)
  {
    assert (messages + [message])[..|messages|] == messages;
  }

  lemma {:induction false} TurnsAsMessages(head: seq<ChatMessage>, turns: seq<Item>, charsPerToken: int)
    requires charsPerToken > 0
    ensures MessageTokens(head + AsMessages(turns), charsPerToken) ==
              MessageTokens(head, charsPerToken) + Total(turns, charsPerToken)
  {
    if turns == [] {
      assert head + AsMessages(turns) == head;
    } else {
      var front, last := AsMessages(turns[..|turns| - 1]), AsMessages(turns)[|AsMessages(turns)| - 1];
      assert head + AsMessages(turns) == (head + front) + [last];
      MessageTokensAppend(head + front, last, charsPerToken);
      TurnsAsMessages(head, turns[..|turns| - 1], charsPerToken);
    }
  }

  /** What is assembled weighs what its parts weigh. */
  lemma AssembledTokens(p: Policy, selected: seq<Item>, artifact: Option<Artifact>, prompt: string)
    requires p.Valid()
    requires artifact.Some? ==> artifact.value.tokens == Tokens(|artifact.value.content|, p.charsPerToken)
    ensures MessageTokens(Head(artifact) + AsMessages(selected) + [ChatMessage(User, prompt)], p.charsPerToken) ==
              ArtifactTokens(artifact) + Total(selected, p.charsPerToken) + Tokens(|prompt|, p.charsPerToken)
  {
    MessageTokensAppend(Head(artifact) + AsMessages(selected), ChatMessage(User, prompt), p.charsPerToken);
    TurnsAsMessages(Head(artifact), selected, p.charsPerToken);
    if artifact.Some? {
      MessageTokensAppend([], ChatMessage(User, artifact.value.content), p.charsPerToken);
      assert [] + [ChatMessage(User, artifact.value.content)] == Head(artifact);
    }
  }

  lemma RestWeighsLess(turns: seq<Item>, n: nat, charsPerToken: int)
    requires charsPerToken > 0 && n <= |turns|
    ensures Total(turns[n..], charsPerToken) <= Total(turns, charsPerToken)
  {
    TotalSplit(turns[..n], turns[n..], charsPerToken);
    assert turns[..n] + turns[n..] == turns;
  }

  /** What is selected weighs no more than what was kept. */
  lemma SelectedWeighsLess(turns: seq<Item>, kept: nat, charsPerToken: int)
    requires charsPerToken > 0 && kept <= |turns|
    ensures Total(Selected(turns, kept), charsPerToken) <= Total(turns[..kept], charsPerToken)
  {
    ReverseIsSameSize(turns[..kept], charsPerToken);
    RestWeighsLess(Reverse(turns[..kept]), Leading(Reverse(turns[..kept])), charsPerToken);
  }

  /**
   The reported estimate is exactly the tokens of every message sent plus the system prompt's. It
   stays in the window less the reserved output, and the history, compaction included, in its limit.
  */
  lemma EstimateIsExactAndBounded(p: Policy, compactor: Compactor, history: seq<Item>, prompt: string,
                                  system: Option<string>)
    requires p.Valid() && Accepts(p, prompt, system)
    ensures Build(p, compactor, history, prompt, system).Some?
    ensures var c := Build(p, compactor, history, prompt, system).value;
      && c.system == system
      && c.estimatedInput == MessageTokens(c.messages, p.charsPerToken) + Tokens(Length(system), p.charsPerToken)
      && c.estimatedInput <= c.inputBudget == p.contextWindow - p.reservedOutput
      && c.historyTokens <= p.maxHistoryTokens
  {
    var kept, artifact := BuildIsAChoice(p, compactor, history, prompt, system);
    AssembledTokens(p, Selected(Turns(p, history), kept), artifact, prompt);
    SelectedWeighsLess(Turns(p, history), kept, p.charsPerToken);
  }

  function WithoutCompaction(p: Policy): Policy {
    p.(maxCompactionTokens := 0)
  }

  lemma NoArtifactIsFullRun(p: Policy, compactor: Compactor, turns: seq<Item>, budget: nat)
    requires p.Valid() && Choose(p, compactor, turns, budget).1.None?
    ensures Choose(WithoutCompaction(p), compactor, turns, budget) == Choose(p, compactor, turns, budget)
  {
    assert Choose(p, compactor, turns, budget) == (Run(p, turns, budget), None);
  }

  /** Without an artifact the compaction limit plays no part in what is assembled. */
  lemma FinishIgnoresLimit(p: Policy, turns: seq<Item>, choice: (nat, Option<Artifact>), prompt: string,
                           system: Option<string>)
    requires p.Valid() && choice.0 <= |turns|
    ensures Finish(WithoutCompaction(p), turns, choice, prompt, system) == Finish(p, turns, choice, prompt, system)
    ensures Finish(p, turns, choice, prompt, system).compactionDigest.None? <==> choice.1.None?
  {
  }

  lemma EmptyCompactionAccepted(p: Policy, compactor: Compactor, turns: seq<Item>, budget: nat, prompt: string,
                                system: Option<string>)
    requires p.Valid() && BuildAccepted(p, compactor, turns, budget, prompt, system).compactionDigest.None?
    ensures BuildAccepted(WithoutCompaction(p), compactor, turns, budget, prompt, system) ==
              BuildAccepted(p, compactor, turns, budget, prompt, system)
  {
    FinishIgnoresLimit(p, turns, Choose(p, compactor, turns, budget), prompt, system);
    NoArtifactIsFullRun(p, compactor, turns, budget);
  }

  /** When compaction yields nothing, the context is the one built with compaction off. */
  lemma EmptyCompactionIsNone(p: Policy, compactor: Compactor, history: seq<Item>, prompt: string,
                              system: Option<string>)
    requires p.Valid() && Accepts(p, prompt, system)
    requires Build(p, compactor, history, prompt, system).value.compactionDigest.None?
    ensures Build(p, compactor, history, prompt, system) ==
              Build(WithoutCompaction(p), compactor, history, prompt, system)
  {
    EmptyCompactionAccepted(p, compactor, Turns(p, history), HistoryBudget(p, prompt, system), prompt, system);
  }

  // ---------------------------------------------------------------- the accountant's charge

  function MessageChars(messages: seq<ChatMessage>): nat {
    if messages == [] then 0
    else MessageChars(messages[..|messages| - 1]) + |messages[|messages| - 1].content|
  }

  /** Input tokens the accountant charges: one rounding over all characters. */
  function Charge(messages: seq<ChatMessage>, system: Option<string>, charsPerToken: int): nat
    requires charsPerToken > 0
  {
    Tokens(Length(system) + MessageChars(messages), charsPerToken)
  }

  lemma {:induction false} RoundingOnceIsLess(messages: seq<ChatMessage>, extra: nat, charsPerToken: int)
    requires charsPerToken > 0
    ensures Tokens(extra + MessageChars(messages), charsPerToken) <=
              Tokens(extra, charsPerToken) + MessageTokens(messages, charsPerToken)
  {
    if messages != [] {
      var front, last := messages[..|messages| - 1], messages[|messages| - 1];
      RoundingOnceIsLess(front, extra, charsPerToken);
      TokensSubadditive(extra + MessageChars(front), |last.content|, charsPerToken);
    }
  }

  lemma ExactEstimateCoversCharge(c: Context, charsPerToken: int)
    requires charsPerToken > 0
    requires c.estimatedInput == MessageTokens(c.messages, charsPerToken) + Tokens(Length(c.system), charsPerToken)
    ensures Charge(c.messages, c.system, charsPerToken) <= c.estimatedInput
  {
    RoundingOnceIsLess(c.messages, Length(c.system), charsPerToken);
  }

  /** With the same ratio the accountant never charges more input than the builder estimated and allowed. */
  lemma ChargeIsWithinEstimate(p: Policy, compactor: Compactor, history: seq<Item>, prompt: string,
                               system: Option<string>) returns (c: Context)
    requires p.Valid() && Accepts(p, prompt, system)
    ensures Build(p, compactor, history, prompt, system) == Some(c)
    ensures Charge(c.messages, c.system, p.charsPerToken) <= c.estimatedInput <= c.inputBudget
  {
    c := Build(p, compactor, history, prompt, system).value;
    EstimateIsExactAndBounded(p, compactor, history, prompt, system);
    ExactEstimateCoversCharge(c, p.charsPerToken);
  }
}

/** Deterministic conversation context: history selection, compaction and token budgets. */
module ContextBuilder {
  import opened Common
  import opened ContextCompaction
  import opened TokenMath

  datatype Policy = Policy(contextWindow: int, reservedOutput: int, maxHistoryTokens: int,
                           maxHistoryMessages: int, maxSourceMessages: int, maxCompactionTokens: int,
                           charsPerToken: int)
  {
    /** What the policy's constructor accepts. */
    predicate Valid() {
      && contextWindow > 0 && charsPerToken > 0
      && reservedOutput >= 0 && maxHistoryTokens >= 0 && maxHistoryMessages >= 0 && maxCompactionTokens >= 0
      && maxSourceMessages >= maxHistoryMessages && maxSourceMessages > 0
      && reservedOutput < contextWindow
    }

    function InputBudget(): int {
      contextWindow - reservedOutput
    }
  }

  /** What goes to the provider. */
  datatype ChatMessage = ChatMessage(role: Role, content: string)

  datatype Context = Context(
    messages: seq<ChatMessage>, system: Option<string>, estimatedInput: int, historyTokens: int,
    inputBudget: int, selectedIds: seq<int>, truncated: int, compactionIds: seq<int>,
    compactionDigest: Option<string>)

  // ---------------------------------------------------------------- eligible history

  /** The eligible messages in their order. */
  function Eligible(history: seq<Item>): seq<Item> {
    if history == [] then []
    else
      var front := Eligible(history[..|history| - 1]);
      var last := history[|history| - 1];
      if last.IsEligible() then front + [last] else front
  }

  predicate AllEligible(turns: seq<Item>) {
    forall t | t in turns :: t.IsEligible()
  }

  lemma {:induction false} EligibleAreEligible(history: seq<Item>)
    ensures AllEligible(Eligible(history))
  {
    if history != [] {
      EligibleAreEligible(history[..|history| - 1]);
    }
  }

  /** The compactor takes every eligible message as a source. */
  lemma {:induction false} EligibleAreSources(turns: seq<Item>)
    requires AllEligible(turns)
    ensures Sources(turns) == turns
  {
    if turns != [] {
      EligibleAreSources(turns[..|turns| - 1]);
      assert turns[|turns| - 1] in turns;
    }
  }

  method Filter(history: seq<Item>) returns (eligible: seq<Item>)
    ensures eligible == Eligible(history)
  {
    eligible := [];
    for i := 0 to |history|
      invariant eligible == Eligible(history[..i])
    {
      assert history[..i + 1][..i] == history[..i];
      if history[i].IsEligible() {
        eligible := eligible + [history[i]];
      }
    }
    assert history[..|history|] == history;
  }

  // ---------------------------------------------------------------- sizes

  function Size(turn: Item, charsPerToken: int): nat
    requires charsPerToken > 0
  {
    Tokens(|turn.Text()|, charsPerToken)
  }

  function Total(turns: seq<Item>, charsPerToken: int): nat
    requires charsPerToken > 0
  {
    if turns == [] then 0
    else Total(turns[..|turns| - 1], charsPerToken) + Size(turns[|turns| - 1], charsPerToken)
  }

  lemma TotalAppend(turns: seq<Item>, turn: Item, charsPerToken: int)
    requires charsPerToken > 0
    ensures Total(turns + [turn], charsPerToken) == Total(turns, charsPerToken) + Size(turn, charsPerToken)
  {
    assert (turns + [turn])[..|turns|] == turns;
  }

  lemma TotalOfPrefix(turns: seq<Item>, n: nat, charsPerToken: int)
    requires charsPerToken > 0 && n < |turns|
    ensures Total(turns[..n + 1], charsPerToken) == Total(turns[..n], charsPerToken) + Size(turns[n], charsPerToken)
  {
    assert turns[..n + 1] == turns[..n] + [turns[n]];
    TotalAppend(turns[..n], turns[n], charsPerToken);
  }

  lemma {:induction false} TotalGrows(turns: seq<Item>, m: nat, n: nat, charsPerToken: int)
    requires charsPerToken > 0 && m <= n <= |turns|
    ensures Total(turns[..m], charsPerToken) <= Total(turns[..n], charsPerToken)
    decreases n
  {
    if m < n {
      assert turns[..n][..n - 1] == turns[..n - 1];
      TotalGrows(turns, m, n - 1, charsPerToken);
    }
  }

  lemma {:induction false} TotalSplit(a: seq<Item>, b: seq<Item>, charsPerToken: int)
    requires charsPerToken > 0
    ensures Total(a + b, charsPerToken) == Total(a, charsPerToken) + Total(b, charsPerToken)
  {
    if b == [] {
      assert a + b == a;
    } else {
      assert (a + b)[..|a + b| - 1] == a + b[..|b| - 1];
      TotalSplit(a, b[..|b| - 1], charsPerToken);
    }
  }

  lemma TotalOfRest(turns: seq<Item>, charsPerToken: int)
    requires charsPerToken > 0 && turns != []
    ensures Total(turns, charsPerToken) == Size(turns[0], charsPerToken) + Total(turns[1..], charsPerToken)
  {
    TotalSplit([turns[0]], turns[1..], charsPerToken);
    TotalAppend([], turns[0], charsPerToken);
    assert [] + [turns[0]] == [turns[0]];
    assert turns == [turns[0]] + turns[1..];
  }

  // ---------------------------------------------------------------- selection

  /** `n` newest turns fit, and no more do: the longest newest-first run within count and budget. */
  predicate IsLongestRun(turns: seq<Item>, maxMessages: int, budget: int, charsPerToken: int, n: nat)
    requires charsPerToken > 0
  {
    && n <= |turns| && n <= maxMessages
    && Total(turns[..n], charsPerToken) <= budget
    && (n == |turns| || n == maxMessages || Total(turns[..n + 1], charsPerToken) > budget)
  }

  /** A longest run contains exactly the runs that fit; so there is only one. */
  lemma LongestRunIsMaximal(turns: seq<Item>, maxMessages: int, budget: int, charsPerToken: int, n: nat, m: nat)
    requires charsPerToken > 0 && IsLongestRun(turns, maxMessages, budget, charsPerToken, n)
    ensures m <= n <==> m <= |turns| && m <= maxMessages && Total(turns[..m], charsPerToken) <= budget
  {
    if m <= n {
      TotalGrows(turns, m, n, charsPerToken);
    } else if m <= |turns| && m <= maxMessages {
      TotalGrows(turns, n + 1, m, charsPerToken);
    }
  }

  /** Reselection under a smaller budget keeps a prefix of what the larger budget kept. */
  lemma SmallerBudgetSelectsPrefix(turns: seq<Item>, maxMessages: int, small: int, large: int, charsPerToken: int,
                                   n: nat, m: nat)
    requires charsPerToken > 0 && small <= large
    requires IsLongestRun(turns, maxMessages, small, charsPerToken, n)
    requires IsLongestRun(turns, maxMessages, large, charsPerToken, m)
    ensures n <= m && turns[..n] <= turns[..m]
  {
    LongestRunIsMaximal(turns, maxMessages, large, charsPerToken, m, n);
  }

  /** How many newest turns are selected, `n` of them already taken. */
  function RunFrom(turns: seq<Item>, maxMessages: int, budget: int, charsPerToken: int, n: nat): (r: nat)
    requires charsPerToken > 0 && n <= |turns|
    ensures n <= r <= |turns|
    decreases |turns| - n
  {
    if n < |turns| && n < maxMessages && Total(turns[..n + 1], charsPerToken) <= budget
    then RunFrom(turns, maxMessages, budget, charsPerToken, n + 1)
    else n
  }

  lemma {:induction false} RunFromIsLongest(turns: seq<Item>, maxMessages: int, budget: int, charsPerToken: int, n: nat)
    requires charsPerToken > 0 && n <= |turns| && n <= maxMessages && Total(turns[..n], charsPerToken) <= budget
    ensures IsLongestRun(turns, maxMessages, budget, charsPerToken,
                         RunFrom(turns, maxMessages, budget, charsPerToken, n))
    decreases |turns| - n
  {
    if n < |turns| && n < maxMessages && Total(turns[..n + 1], charsPerToken) <= budget {
      RunFromIsLongest(turns, maxMessages, budget, charsPerToken, n + 1);
    }
  }

  function Run(p: Policy, turns: seq<Item>, budget: nat): (r: nat)
    requires p.Valid()
    ensures r <= |turns|
  {
    RunFrom(turns, p.maxHistoryMessages, budget, p.charsPerToken, 0)
  }

  lemma RunIsLongest(p: Policy, turns: seq<Item>, budget: nat)
    requires p.Valid()
    ensures IsLongestRun(turns, p.maxHistoryMessages, budget, p.charsPerToken, Run(p, turns, budget))
  {
    assert Total(turns[..0], p.charsPerToken) == 0;
    RunFromIsLongest(turns, p.maxHistoryMessages, budget, p.charsPerToken, 0);
  }

  /** The selection loop. */
  method Select(p: Policy, turns: seq<Item>, budget: nat) returns (n: nat, used: nat)
    requires p.Valid()
    ensures n == Run(p, turns, budget)
    ensures IsLongestRun(turns, p.maxHistoryMessages, budget, p.charsPerToken, n)
    ensures used == Total(turns[..n], p.charsPerToken)
  {
    n, used := 0, 0;
    RunIsLongest(p, turns, budget);
    while n < |turns| && n < p.maxHistoryMessages
      invariant n <= |turns| && n <= p.maxHistoryMessages
      invariant used == Total(turns[..n], p.charsPerToken) <= budget
      invariant RunFrom(turns, p.maxHistoryMessages, budget, p.charsPerToken, n) == Run(p, turns, budget)
    {
      var size := CeilDiv(|turns[n].Text()|, p.charsPerToken);
      TotalOfPrefix(turns, n, p.charsPerToken);
      if used + size > budget {
        return;
      }
      used := used + size;
      n := n + 1;
    }
  }

  // ---------------------------------------------------------------- raw turns and compaction

  function Reverse(turns: seq<Item>): seq<Item> {
    if turns == [] then [] else [turns[|turns| - 1]] + Reverse(turns[..|turns| - 1])
  }

  lemma {:induction false} ReverseIsSameSize(turns: seq<Item>, charsPerToken: int)
    requires charsPerToken > 0
    ensures |Reverse(turns)| == |turns|
    ensures Total(Reverse(turns), charsPerToken) == Total(turns, charsPerToken)
    ensures AllEligible(turns) ==> AllEligible(Reverse(turns))
  {
    if turns != [] {
      var front, last := turns[..|turns| - 1], turns[|turns| - 1];
      ReverseIsSameSize(front, charsPerToken);
      TotalSplit([last], Reverse(front), charsPerToken);
      TotalAppend([], last, charsPerToken);
      assert turns == front + [last];
      assert [] + [last] == [last];
    }
  }

  lemma ReverseIsLastFirst(turns: seq<Item>, front: seq<Item>, last: Item)
    requires turns == front + [last]
    ensures Reverse(turns) == [last] + Reverse(front)
  {
    assert turns[..|turns| - 1] == front;
  }

  lemma {:induction false} ReverseSwaps(whole: seq<Item>, a: seq<Item>, b: seq<Item>)
    requires whole == a + b
    ensures Reverse(whole) == Reverse(b) + Reverse(a)
    decreases |b|
  {
    if b == [] {
      assert whole == a;
      assert Reverse(b) + Reverse(a) == Reverse(a);
    } else {
      var last, front := b[|b| - 1], b[..|b| - 1];
      var init := a + front;
      ReverseSwaps(init, a, front);
      ReverseIsLastFirst(b, front, last);
      ReverseIsLastFirst(whole, init, last);
      ConcatAssociates([last], Reverse(front), Reverse(a));
    }
  }

  /** The limits of the selection that leaves room for a compaction. */
  function RawBudget(p: Policy, budget: nat): nat {
    Max(0, budget - p.maxCompactionTokens)
  }

  function CompactionBudget(p: Policy, turns: seq<Item>, budget: nat, raw: nat): int
    requires p.Valid() && raw <= |turns|
  {
    Min(p.maxCompactionTokens, budget - Total(turns[..raw], p.charsPerToken))
  }

  /** How many of the newest turns are kept raw, and what stands for the rest. */
  function Choose(p: Policy, compactor: Compactor, turns: seq<Item>, budget: nat): (c: (nat, Option<Artifact>))
    requires p.Valid()
    ensures c.0 <= |turns|
  {
    if Run(p, turns, budget) == |turns| || p.maxCompactionTokens == 0 then (Run(p, turns, budget), None)
    else
      var raw := Run(p, turns, RawBudget(p, budget));
      match Compaction(compactor, Reverse(turns[raw..]), CompactionBudget(p, turns, budget, raw), p.charsPerToken)
      case None => (Run(p, turns, budget), None)
      case Some(artifact) => (raw, Some(artifact))
  }

  /** What any choice satisfies, whichever way it was made. */
  predicate IsChoice(p: Policy, compactor: Compactor, turns: seq<Item>, budget: nat, kept: nat,
                     artifact: Option<Artifact>)
    requires p.Valid()
  {
    match artifact
    case None =>
      IsLongestRun(turns, p.maxHistoryMessages, budget, p.charsPerToken, kept)
    case Some(a) =>
      && IsLongestRun(turns, p.maxHistoryMessages, RawBudget(p, budget), p.charsPerToken, kept)
      && kept < |turns|
      && Total(turns[..kept], p.charsPerToken) + a.tokens <= budget
      && a.tokens == Tokens(|a.content|, p.charsPerToken) <= p.maxCompactionTokens
      && a.sourceIds == Ids(Reverse(turns[kept..]))
      && a.digest == compactor.hash(Payload(Reverse(turns[kept..])))
  }

  lemma ChooseIsChoice(p: Policy, compactor: Compactor, turns: seq<Item>, budget: nat)
    requires p.Valid() && AllEligible(turns)
    ensures var (kept, artifact) := Choose(p, compactor, turns, budget);
      IsChoice(p, compactor, turns, budget, kept, artifact)
  {
    RunIsLongest(p, turns, budget);
    if Choose(p, compactor, turns, budget).1.Some? {
      CompactionIsChoice(p, compactor, turns, budget);
    }
  }

  lemma CompactionIsChoice(p: Policy, compactor: Compactor, turns: seq<Item>, budget: nat)
    requires p.Valid() && AllEligible(turns) && Run(p, turns, budget) < |turns| && p.maxCompactionTokens > 0
    ensures var raw := Run(p, turns, RawBudget(p, budget));
      var artifact := Compaction(compactor, Reverse(turns[raw..]), CompactionBudget(p, turns, budget, raw),
                                 p.charsPerToken);
      artifact.Some? ==> IsChoice(p, compactor, turns, budget, raw, artifact)
  {
    var raw := Run(p, turns, RawBudget(p, budget));
    var tokens := CompactionBudget(p, turns, budget, raw);
    RunIsLongest(p, turns, budget);
    RunIsLongest(p, turns, RawBudget(p, budget));
    SmallerBudgetSelectsPrefix(turns, p.maxHistoryMessages, RawBudget(p, budget), budget, p.charsPerToken, raw,
                               Run(p, turns, budget));
    ReverseIsSameSize(turns[raw..], p.charsPerToken);
    EligibleAreSources(Reverse(turns[raw..]));
    ArtifactFits(compactor, Reverse(turns[raw..]), tokens, p.charsPerToken);
  }

  lemma ArtifactFits(compactor: Compactor, history: seq<Item>, tokenBudget: int, charsPerToken: int)
    ensures var r := Compaction(compactor, history, tokenBudget, charsPerToken);
      r.Some? ==> charsPerToken > 0 && r.value.tokens == Tokens(|r.value.content|, charsPerToken) <= tokenBudget
                  && r.value.sourceIds == Ids(Sources(history))
                  && r.value.digest == compactor.hash(Payload(Sources(history)))
  {
    if Compaction(compactor, history, tokenBudget, charsPerToken).Some? {
      var _ := CompactionFits(compactor, history, tokenBudget, charsPerToken);
    }
  }

  /** The smaller selection and the compaction of the rest. */
  method SelectAndCompact(p: Policy, compactor: Compactor, turns: seq<Item>, budget: nat)
    returns (raw: nat, used: nat, artifact: Option<Artifact>)
    requires p.Valid()
    ensures raw == Run(p, turns, RawBudget(p, budget)) && used == Total(turns[..raw], p.charsPerToken)
    ensures artifact == Compaction(compactor, Reverse(turns[raw..]), CompactionBudget(p, turns, budget, raw),
                                   p.charsPerToken)
  {
    raw, used := Select(p, turns, RawBudget(p, budget));
    var omitted := Reverse(turns[raw..]);
    artifact := Compact(compactor, omitted, Min(p.maxCompactionTokens, budget - used), p.charsPerToken);
  }

  /** Select, and when something was omitted compact it within a smaller selection, or fall back. */
  method ChooseTurns(p: Policy, compactor: Compactor, turns: seq<Item>, budget: nat)
    returns (kept: nat, used: nat, artifact: Option<Artifact>)
    requires p.Valid()
    ensures (kept, artifact) == Choose(p, compactor, turns, budget)
    ensures used == Total(turns[..kept], p.charsPerToken)
  {
    kept, used := Select(p, turns, budget);
    artifact := None;
    if kept < |turns| && p.maxCompactionTokens != 0 {
      var raw, rawUsed;
      raw, rawUsed, artifact := SelectAndCompact(p, compactor, turns, budget);
      if artifact.Some? {
        kept, used := raw, rawUsed;
      }
    }
  }

  // ---------------------------------------------------------------- leading assistants

  /** How many turns precede the first one that is not the assistant's. */
  function Leading(turns: seq<Item>): (n: nat)
    ensures n <= |turns|
  {
    if turns == [] || turns[0].role != Some(Assistant) then 0 else 1 + Leading(turns[1..])
  }

  lemma {:induction false} LeadingAreAssistants(turns: seq<Item>)
    requires AllEligible(turns)
    ensures forall t | t in turns[..Leading(turns)] :: t.role == Some(Assistant)
    ensures Leading(turns) == |turns| || turns[Leading(turns)].role == Some(User)
  {
    if turns == [] || turns[0].role != Some(Assistant) {
      if turns != [] {
        assert turns[0] in turns && turns[0].IsEligible();
        assert turns[0].role.value.User?;
      }
    } else {
      LeadingAreAssistants(turns[1..]);
      assert turns[..Leading(turns)] == [turns[0]] + turns[1..][..Leading(turns[1..])];
    }
  }

  method DropLeading(p: Policy, turns: seq<Item>, total: nat) returns (selected: seq<Item>, used: nat)
    requires p.Valid() && total == Total(turns, p.charsPerToken)
    ensures selected == turns[Leading(turns)..]
    ensures used == Total(selected, p.charsPerToken)
  {
    selected, used := turns, total;
    while selected != [] && selected[0].role == Some(Assistant)
      invariant used == Total(selected, p.charsPerToken)
      invariant |selected| <= |turns| && selected == turns[|turns| - |selected|..]
      invariant |turns| - |selected| + Leading(selected) == Leading(turns)
    {
      TotalOfRest(selected, p.charsPerToken);
      var size := CeilDiv(|selected[0].Text()|, p.charsPerToken);
      used := used - size;
      selected := selected[1..];
    }
  }

  /** The kept turns oldest first, from the first one that is not the assistant's. */
  function Selected(turns: seq<Item>, kept: nat): seq<Item>
    requires kept <= |turns|
  {
    var recent := Reverse(turns[..kept]);
    recent[Leading(recent)..]
  }

  method ReverseAndDrop(p: Policy, turns: seq<Item>, kept: nat, total: nat) returns (selected: seq<Item>, used: nat)
    requires p.Valid() && kept <= |turns| && total == Total(turns[..kept], p.charsPerToken)
    ensures selected == Selected(turns, kept)
    ensures used == Total(selected, p.charsPerToken)
  {
    ReverseIsSameSize(turns[..kept], p.charsPerToken);
    selected, used := DropLeading(p, Reverse(turns[..kept]), total);
  }

  // ---------------------------------------------------------------- the build

  function AsMessages(turns: seq<Item>): seq<ChatMessage> {
    if turns == [] then []
    else
      var last := turns[|turns| - 1];
      AsMessages(turns[..|turns| - 1]) + [ChatMessage(if last.role.Some? then last.role.value else User, last.Text())]
  }

  function Head(artifact: Option<Artifact>): seq<ChatMessage> {
    if artifact.Some? then [ChatMessage(User, artifact.value.content)] else []
  }

  function ArtifactTokens(artifact: Option<Artifact>): int {
    if artifact.Some? then artifact.value.tokens else 0
  }

  function Length(content: Option<string>): nat {
    if content.Some? then |content.value| else 0
  }

  function Mandatory(p: Policy, prompt: string, system: Option<string>): nat
    requires p.Valid()
  {
    Tokens(|prompt|, p.charsPerToken) + Tokens(Length(system), p.charsPerToken)
  }

  function Assemble(p: Policy, eligible: nat, selected: seq<Item>, artifact: Option<Artifact>, prompt: string,
                    system: Option<string>): Context
    requires p.Valid()
  {
    var used := Total(selected, p.charsPerToken) + ArtifactTokens(artifact);
    Context(
      Head(artifact) + AsMessages(selected) + [ChatMessage(User, prompt)],
      system, Mandatory(p, prompt, system) + used, used, p.InputBudget(), Ids(selected),
      eligible - |selected|,
      if artifact.Some? then artifact.value.sourceIds else [],
      if artifact.Some? then Some(artifact.value.digest) else None)
  }

  function Turns(p: Policy, history: seq<Item>): seq<Item>
    requires p.Valid()
  {
    Eligible(history[..Min(|history|, p.maxSourceMessages)])
  }

  /** None stands for ContextBudgetExceeded: an empty prompt, or mandatory text beyond the input budget. */
  predicate Accepts(p: Policy, prompt: string, system: Option<string>)
    requires p.Valid()
  {
    prompt != "" && Mandatory(p, prompt, system) <= p.InputBudget()
  }

  function HistoryBudget(p: Policy, prompt: string, system: Option<string>): nat
    requires p.Valid() && Accepts(p, prompt, system)
  {
    Min(p.maxHistoryTokens, p.InputBudget() - Mandatory(p, prompt, system))
  }

  /** The context around a choice. */
  function Finish(p: Policy, turns: seq<Item>, choice: (nat, Option<Artifact>), prompt: string, system: Option<string>)
    : Context
    requires p.Valid() && choice.0 <= |turns|
  {
    Assemble(p, |turns|, Selected(turns, choice.0), choice.1, prompt, system)
  }

  function BuildAccepted(p: Policy, compactor: Compactor, turns: seq<Item>, budget: nat, prompt: string,
                         system: Option<string>): Context
    requires p.Valid()
  {
    Finish(p, turns, Choose(p, compactor, turns, budget), prompt, system)
  }

  function Build(p: Policy, compactor: Compactor, history: seq<Item>, prompt: string, system: Option<string>)
    : Option<Context>
    requires p.Valid()
  {
    if !Accepts(p, prompt, system) then None
    else Some(BuildAccepted(p, compactor, Turns(p, history), HistoryBudget(p, prompt, system), prompt, system))
  }

  /** The result is put together from what the loops computed. */
  method AssembleContext(p: Policy, eligible: nat, selected: seq<Item>, used: nat, artifact: Option<Artifact>,
                         prompt: string, system: Option<string>, mandatory: nat) returns (context: Context)
    requires p.Valid() && used == Total(selected, p.charsPerToken) && mandatory == Mandatory(p, prompt, system)
    ensures context == Assemble(p, eligible, selected, artifact, prompt, system)
  {
    var history := used + ArtifactTokens(artifact);
    context := Context(
      Head(artifact) + AsMessages(selected) + [ChatMessage(User, prompt)],
      system, mandatory + history, history, p.InputBudget(), Ids(selected), eligible - |selected|,
      if artifact.Some? then artifact.value.sourceIds else [],
      if artifact.Some? then Some(artifact.value.digest) else None);
  }

  /** Choose, reverse, drop leading assistants, assemble. */
  method BuildFromEligible(p: Policy, compactor: Compactor, eligible: seq<Item>, budget: nat, prompt: string,
                           system: Option<string>, mandatory: nat) returns (context: Context)
    requires p.Valid() && mandatory == Mandatory(p, prompt, system)
    ensures context == BuildAccepted(p, compactor, eligible, budget, prompt, system)
  {
    var kept, used, artifact := ChooseTurns(p, compactor, eligible, budget);
    var selected, selectedTokens := ReverseAndDrop(p, eligible, kept, used);
    context := AssembleContext(p, |eligible|, selected, selectedTokens, artifact, prompt, system, mandatory);
  }

  method SourceTurns(p: Policy, history: seq<Item>) returns (eligible: seq<Item>)
    requires p.Valid()
    ensures eligible == Turns(p, history)
  {
    eligible := Filter(history[..Min(|history|, p.maxSourceMessages)]);
  }

  method CountMandatory(p: Policy, prompt: string, system: Option<string>) returns (mandatory: nat)
    requires p.Valid()
    ensures mandatory == Mandatory(p, prompt, system)
  {
    var promptTokens := CeilDiv(|prompt|, p.charsPerToken);
    var systemTokens := CeilDiv(Length(system), p.charsPerToken);
    mandatory := promptTokens + systemTokens;
  }

  method BuildWithin(p: Policy, compactor: Compactor, history: seq<Item>, prompt: string, system: Option<string>,
                     mandatory: nat) returns (context: Context)
    requires p.Valid() && mandatory == Mandatory(p, prompt, system) && Accepts(p, prompt, system)
    ensures context == BuildAccepted(p, compactor, Turns(p, history), HistoryBudget(p, prompt, system), prompt, system)
  {
    var historyBudget := Min(p.maxHistoryTokens, p.InputBudget() - mandatory);
    var eligible := SourceTurns(p, history);
    context := BuildFromEligible(p, compactor, eligible, historyBudget, prompt, system, mandatory);
  }

  /** The builder as it runs. */
  method BuildContext(p: Policy, compactor: Compactor, history: seq<Item>, prompt: string, system: Option<string>)
    returns (context: Option<Context>)
    requires p.Valid()
    ensures context == Build(p, compactor, history, prompt, system)
  {
    var mandatory := CountMandatory(p, prompt, system);
    if prompt == "" || mandatory > p.InputBudget() {
      return None;
    }
    var built := BuildWithin(p, compactor, history, prompt, system, mandatory);
    return Some(built);
  }
}

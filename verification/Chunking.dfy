/** Paragraph chunking with overlapping windows for long paragraphs. */
module Chunking {
  import opened Common

  /** A run of short paragraphs that share a chunk, or a long paragraph cut into windows. */
  datatype Segment = Group(paragraphs: seq<string>) | Windowed(paragraph: string)

  function Join(paragraphs: seq<string>): string {
    if paragraphs == [] then ""
    else if |paragraphs| == 1 then paragraphs[0]
    else Join(paragraphs[..|paragraphs| - 1]) + "\n" + paragraphs[|paragraphs| - 1]
  }

  function StepOf(size: int, overlap: int): (step: int)
    requires size >= 1
    ensures step >= 1 && (step <= size <==> overlap >= 0)
  {
    Max(size - overlap, 1)
  }

  /** The windows of a paragraph from position `from` on, one every `step` characters. */
  function Windows(paragraph: string, size: int, step: int, from: nat): seq<string>
    requires size >= 1 && step >= 1
    decreases |paragraph| - from
  {
    if from >= |paragraph| then []
    else [paragraph[from..Min(from + size, |paragraph|)]] + Windows(paragraph, size, step, from + step)
  }

  /** What one paragraph does: the segments it completes, and what is being gathered after it. */
  function Take(size: int, current: seq<string>, para: string): (seq<Segment>, seq<string>) {
    if |Join(current)| + |para| + 1 <= size then ([], current + [para])
    else if |para| > size then (Flush(current) + [Windowed(para)], [])
    else (Flush(current), [para])
  }

  /** How what is left is grouped, `current` being gathered. */
  function Segments(paragraphs: seq<string>, size: int, current: seq<string>): seq<Segment>
    decreases |paragraphs|
  {
    if paragraphs == [] then Flush(current)
    else
      var (completed, gathered) := Take(size, current, paragraphs[0]);
      completed + Segments(paragraphs[1..], size, gathered)
  }

  function Flush(current: seq<string>): seq<Segment> {
    if current == [] then [] else [Group(current)]
  }

  function ChunksOf(segment: Segment, size: int, step: int): seq<string>
    requires size >= 1 && step >= 1
  {
    match segment
    case Group(paragraphs) => [Join(paragraphs)]
    case Windowed(paragraph) => Windows(paragraph, size, step, 0)
  }

  function Chunks(segments: seq<Segment>, size: int, step: int): seq<string>
    requires size >= 1 && step >= 1
  {
    if segments == [] then [] else ChunksOf(segments[0], size, step) + Chunks(segments[1..], size, step)
  }

  lemma {:induction false} ChunksAppend(a: seq<Segment>, b: seq<Segment>, size: int, step: int)
    requires size >= 1 && step >= 1
    ensures Chunks(a + b, size, step) == Chunks(a, size, step) + Chunks(b, size, step)
  {
    if a == [] {
      assert a + b == b;
    } else {
      assert (a + b)[1..] == a[1..] + b;
      ChunksAppend(a[1..], b, size, step);
    }
  }

  lemma ChunksOfOne(segment: Segment, size: int, step: int)
    requires size >= 1 && step >= 1
    ensures Chunks([segment], size, step) == ChunksOf(segment, size, step)
  {
    assert Chunks([segment][1..], size, step) == [];
  }

  // ---------------------------------------------------------------- the algorithm

  predicate NonEmpty(paragraphs: seq<string>) {
    forall i | 0 <= i < |paragraphs| :: paragraphs[i] != ""
  }

  lemma JoinIsEmpty(paragraphs: seq<string>)
    requires NonEmpty(paragraphs)
    ensures Join(paragraphs) == "" <==> paragraphs == []
  {
  }

  method CutWindows(chunks: seq<string>, paragraph: string, size: int, step: int) returns (r: seq<string>)
    requires size >= 1 && step >= 1
    ensures r == chunks + Windows(paragraph, size, step, 0)
  {
    r := chunks;
    var i := 0;
    while i < |paragraph|
      invariant 0 <= i
      invariant r + Windows(paragraph, size, step, i) == chunks + Windows(paragraph, size, step, 0)
    {
      ghost var before := r;
      r := r + [paragraph[i..Min(i + size, |paragraph|)]];
      assert before + Windows(paragraph, size, step, i) == r + Windows(paragraph, size, step, i + step);
      i := i + step;
    }
    assert r + [] == r;
  }

  lemma ChunksOfFlush(current: seq<string>, size: int, step: int)
    requires size >= 1 && step >= 1
    ensures Chunks(Flush(current), size, step) == if current == [] then [] else [Join(current)]
  {
    if current != [] {
      ChunksOfOne(Group(current), size, step);
    }
  }

  /** One round of the loop. */
  method AddParagraph(chunks: seq<string>, currentChunk: string, para: string, size: int, step: int,
                      ghost current: seq<string>)
    returns (r: seq<string>, nextChunk: string)
    requires size >= 1 && step >= 1 && NonEmpty(current) && currentChunk == Join(current)
    ensures r == chunks + Chunks(Take(size, current, para).0, size, step)
    ensures nextChunk == Join(Take(size, current, para).1)
  {
    JoinIsEmpty(current);
    r := chunks;
    if |currentChunk| + |para| + 1 <= size {
      assert (current + [para])[..|current|] == current;
      nextChunk := if currentChunk != "" then currentChunk + "\n" + para else para;
      assert r == r + [];
    } else {
      ChunksOfFlush(current, size, step);
      if currentChunk != "" {
        r := r + [currentChunk];
      }
      assert r == chunks + Chunks(Flush(current), size, step);
      if |para| > size {
        ChunksOfOne(Windowed(para), size, step);
        ChunksAppend(Flush(current), [Windowed(para)], size, step);
        r := CutWindows(r, para, size, step);
        nextChunk := "";
      } else {
        nextChunk := para;
      }
    }
  }

  lemma RoundKeepsChunks(chunks: seq<string>, paragraphs: seq<string>, size: int, step: int, current: seq<string>)
    requires size >= 1 && step >= 1 && paragraphs != [] && NonEmpty(paragraphs) && NonEmpty(current)
    ensures var (completed, gathered) := Take(size, current, paragraphs[0]);
      && NonEmpty(gathered)
      && chunks + Chunks(completed, size, step) + Chunks(Segments(paragraphs[1..], size, gathered), size, step)
         == chunks + Chunks(Segments(paragraphs, size, current), size, step)
  {
    var (completed, gathered) := Take(size, current, paragraphs[0]);
    var rest := Segments(paragraphs[1..], size, gathered);
    ChunksAppend(completed, rest, size, step);
    ConcatAssociates(chunks, Chunks(completed, size, step), Chunks(rest, size, step));
  }

  /** The stripped, non-empty paragraphs of a text become chunks. */
  method IntelligentChunking(paragraphs: seq<string>, size: int, overlap: int) returns (chunks: seq<string>)
    requires NonEmpty(paragraphs) && size >= 1
    ensures chunks == Chunks(Segments(paragraphs, size, []), size, StepOf(size, overlap))
  {
    chunks := [];
    var currentChunk := "";
    var step := StepOf(size, overlap);
    ghost var current: seq<string> := [];
    ghost var all := Chunks(Segments(paragraphs, size, []), size, step);
    for k := 0 to |paragraphs|
      invariant NonEmpty(current) && currentChunk == Join(current)
      invariant chunks + Chunks(Segments(paragraphs[k..], size, current), size, step) == all
    {
      RoundKeepsChunks(chunks, paragraphs[k..], size, step, current);
      assert paragraphs[k..][1..] == paragraphs[k + 1..];
      chunks, currentChunk := AddParagraph(chunks, currentChunk, paragraphs[k], size, step, current);
      current := Take(size, current, paragraphs[k]).1;
    }
    JoinIsEmpty(current);
    ChunksOfFlush(current, size, step);
    assert chunks + [] == chunks;
    if currentChunk != "" {
      chunks := chunks + [currentChunk];
    }
  }

  // ---------------------------------------------------------------- segmentation

  function Paragraphs(segments: seq<Segment>): seq<string> {
    if segments == [] then []
    else
      (match segments[0]
       case Group(paragraphs) => paragraphs
       case Windowed(paragraph) => [paragraph])
      + Paragraphs(segments[1..])
  }

  /** A group is not empty and its chunk fits; only what cannot fit is windowed. */
  predicate Fits(segment: Segment, size: int) {
    match segment
    case Group(paragraphs) => paragraphs != [] && NonEmpty(paragraphs) && |Join(paragraphs)| <= size
    case Windowed(paragraph) => |paragraph| > size
  }

  predicate AllFit(segments: seq<Segment>, size: int) {
    forall i | 0 <= i < |segments| :: Fits(segments[i], size)
  }

  /** No group could have taken the paragraph that follows it. */
  predicate Greedy(segments: seq<Segment>, size: int) {
    |segments| > 1 ==>
      && (segments[0].Group? && segments[1].Group? && segments[1].paragraphs != [] ==>
            |Join(segments[0].paragraphs)| + |segments[1].paragraphs[0]| + 1 > size)
      && Greedy(segments[1..], size)
  }

  /** What `current` grows into comes first. */
  predicate StartsWith(segments: seq<Segment>, current: seq<string>) {
    current != [] ==> segments != [] && segments[0].Group? && current <= segments[0].paragraphs
  }

  /** Well cut: the paragraphs in order, each segment fitting, each group as long as it can be. */
  predicate IsPartition(segments: seq<Segment>, paragraphs: seq<string>, size: int) {
    Paragraphs(segments) == paragraphs && AllFit(segments, size) && Greedy(segments, size)
  }

  /**
   Every paragraph lies in exactly one segment, in order: short ones whole, in groups whose chunk
   fits and which are as long as they can be; those longer than a chunk on their own.
  */
  lemma {:induction false} SegmentsPartition(paragraphs: seq<string>, size: int, current: seq<string>)
    requires NonEmpty(paragraphs) && NonEmpty(current) && size >= 1 && |Join(current)| <= size
    ensures IsPartition(Segments(paragraphs, size, current), current + paragraphs, size)
    ensures StartsWith(Segments(paragraphs, size, current), current)
    decreases |paragraphs|
  {
    if paragraphs == [] {
      PrependFlush(current, [], size);
      assert Flush(current) + [] == Flush(current);
    } else {
      var (_, gathered) := Take(size, current, paragraphs[0]);
      assert NonEmpty(gathered) && |Join(gathered)| <= size by {
        JoinOfAppend(current, paragraphs[0]);
      }
      SegmentsPartition(paragraphs[1..], size, gathered);
      TakeKeepsPartition(paragraphs, size, current, Segments(paragraphs[1..], size, gathered));
    }
  }

  lemma JoinOfAppend(current: seq<string>, para: string)
    ensures |Join(current + [para])| <= |Join(current)| + |para| + 1
    ensures Join([para]) == para
  {
    assert (current + [para])[..|current|] == current;
  }

  lemma TakeKeepsPartition(paragraphs: seq<string>, size: int, current: seq<string>, rest: seq<Segment>)
    requires paragraphs != [] && NonEmpty(paragraphs) && NonEmpty(current) && |Join(current)| <= size
    requires var (_, gathered) := Take(size, current, paragraphs[0]);
      IsPartition(rest, gathered + paragraphs[1..], size) && StartsWith(rest, gathered)
    ensures var (completed, _) := Take(size, current, paragraphs[0]);
      IsPartition(completed + rest, current + paragraphs, size) && StartsWith(completed + rest, current)
  {
    var para, later := paragraphs[0], paragraphs[1..];
    assert paragraphs == [para] + later;
    if |Join(current)| + |para| + 1 <= size {
      ConcatAssociates(current, [para], later);
      assert [] + rest == rest;
    } else if |para| > size {
      assert [] + later == later;
      WindowKeepsPartition(para, later, size, current, rest);
    } else {
      PrependFlush(current, rest, size);
    }
  }

  lemma WindowKeepsPartition(para: string, later: seq<string>, size: int, current: seq<string>, rest: seq<Segment>)
    requires |para| > size && NonEmpty(current) && |Join(current)| <= size && IsPartition(rest, later, size)
    ensures IsPartition(Flush(current) + [Windowed(para)] + rest, current + ([para] + later), size)
    ensures StartsWith(Flush(current) + [Windowed(para)] + rest, current)
  {
    Prepend(Windowed(para), rest, size);
    PrependFlush(current, [Windowed(para)] + rest, size);
    ConcatAssociates(Flush(current), [Windowed(para)], rest);
  }

  lemma Prepend(first: Segment, segments: seq<Segment>, size: int)
    requires Fits(first, size) && AllFit(segments, size) && Greedy(segments, size)
    requires first.Group? && segments != [] && segments[0].Group? ==>
      |Join(first.paragraphs)| + |segments[0].paragraphs[0]| + 1 > size
    ensures AllFit([first] + segments, size) && Greedy([first] + segments, size)
    ensures Paragraphs([first] + segments) ==
              (if first.Group? then first.paragraphs else [first.paragraph]) + Paragraphs(segments)
  {
    assert ([first] + segments)[1..] == segments;
  }

  lemma PrependFlush(current: seq<string>, segments: seq<Segment>, size: int)
    requires NonEmpty(current) && |Join(current)| <= size && AllFit(segments, size) && Greedy(segments, size)
    requires current != [] && segments != [] && segments[0].Group? ==>
      |Join(current)| + |segments[0].paragraphs[0]| + 1 > size
    ensures AllFit(Flush(current) + segments, size) && Greedy(Flush(current) + segments, size)
    ensures Paragraphs(Flush(current) + segments) == current + Paragraphs(segments)
    ensures StartsWith(Flush(current) + segments, current)
  {
    if current == [] {
      assert Flush(current) + segments == segments;
    } else {
      Prepend(Group(current), segments, size);
    }
  }

  // ---------------------------------------------------------------- the partition is the only one

  lemma {:induction false} JoinGrows(a: seq<string>, b: seq<string>)
    requires a <= b
    ensures |Join(a)| <= |Join(b)|
    decreases |b|
  {
    if a != b {
      assert a <= b[..|b| - 1];
      JoinGrows(a, b[..|b| - 1]);
    }
  }

  lemma JoinOfMore(current: seq<string>, para: string)
    ensures |Join(current + [para])| == if current == [] then |para| else |Join(current)| + 1 + |para|
  {
    assert (current + [para])[..|current|] == current;
  }

  /** The first segment holds the first paragraph. */
  lemma FirstSegment(segments: seq<Segment>, paragraphs: seq<string>, size: int)
    requires IsPartition(segments, paragraphs, size)
    ensures segments == [] <==> paragraphs == []
    ensures segments != [] && segments[0].Windowed? ==>
              segments[0].paragraph == paragraphs[0] && IsPartition(segments[1..], paragraphs[1..], size)
    ensures segments != [] && segments[0].Group? ==>
              && segments[0].paragraphs != [] && segments[0].paragraphs <= paragraphs
              && IsPartition(segments[1..], paragraphs[|segments[0].paragraphs|..], size)
  {
    if segments != [] {
      assert Fits(segments[0], size);
    }
  }

  /** The first group of a partition that starts with `current` takes one more paragraph exactly when it fits. */
  lemma GroupTakesWhatFits(segments: seq<Segment>, current: seq<string>, paragraphs: seq<string>, size: int)
    requires current != [] && paragraphs != []
    requires IsPartition(segments, current + paragraphs, size) && StartsWith(segments, current)
    ensures var g := segments[0].paragraphs;
      if |Join(current)| + |paragraphs[0]| + 1 <= size then current + [paragraphs[0]] <= g
      else g == current && IsPartition(segments[1..], paragraphs, size)
  {
    var g, para := segments[0].paragraphs, paragraphs[0];
    var all := current + paragraphs;
    assert Fits(segments[0], size);
    FirstSegment(segments, all, size);
    if g == current {
      assert all[|g|..] == paragraphs;
      FirstSegment(segments[1..], paragraphs, size);
      assert segments[1..][0] == segments[1];
    } else {
      assert g == all[..|g|];
      assert g[|current|] == para;
      assert current + [para] == g[..|current| + 1];
      JoinGrows(current + [para], g);
      JoinOfMore(current, para);
    }
  }

  /** There is only one way to cut paragraphs well, and it is the one the loop finds. */
  lemma {:induction false} PartitionIsUnique(segments: seq<Segment>, paragraphs: seq<string>, size: int,
                                             current: seq<string>)
    requires NonEmpty(paragraphs) && NonEmpty(current) && |Join(current)| <= size
    requires IsPartition(segments, current + paragraphs, size) && StartsWith(segments, current)
    ensures segments == Segments(paragraphs, size, current)
    decreases |paragraphs|, 2
  {
    if paragraphs == [] {
      assert current + paragraphs == current;
      OnlyCurrentIsLeft(segments, current, size);
    } else if current == [] {
      assert current + paragraphs == paragraphs;
      NothingGathered(segments, paragraphs, size);
    } else if |Join(current)| + |paragraphs[0]| + 1 <= size {
      NextIsTaken(segments, paragraphs, size, current);
    } else {
      GroupTakesWhatFits(segments, current, paragraphs, size);
      NothingGathered(segments[1..], paragraphs, size);
      FlushFirst(paragraphs, size, current);
      assert segments == [segments[0]] + segments[1..];
    }
  }

  lemma {:induction false} NextIsTaken(segments: seq<Segment>, paragraphs: seq<string>, size: int, current: seq<string>)
    requires NonEmpty(paragraphs) && NonEmpty(current) && current != [] && paragraphs != []
    requires |Join(current)| + |paragraphs[0]| + 1 <= size
    requires IsPartition(segments, current + paragraphs, size) && StartsWith(segments, current)
    ensures segments == Segments(paragraphs, size, current)
    decreases |paragraphs|, 1
  {
    var para, rest := paragraphs[0], paragraphs[1..];
    GroupTakesWhatFits(segments, current, paragraphs, size);
    JoinOfMore(current, para);
    assert current + [para] + rest == current + paragraphs;
    PartitionIsUnique(segments, rest, size, current + [para]);
    assert [] + Segments(rest, size, current + [para]) == Segments(rest, size, current + [para]);
  }

  lemma OnlyCurrentIsLeft(segments: seq<Segment>, current: seq<string>, size: int)
    requires IsPartition(segments, current, size) && StartsWith(segments, current)
    ensures segments == Flush(current)
  {
    FirstSegment(segments, current, size);
    if current != [] {
      assert segments[0].paragraphs == current;
      FirstSegment(segments[1..], current[|current|..], size);
      assert segments[1..] == [] && segments[0] == Group(current);
      assert segments == [segments[0]] + segments[1..];
    }
  }

  /** When nothing fits any more what is gathered is completed first. */
  lemma FlushFirst(paragraphs: seq<string>, size: int, current: seq<string>)
    requires paragraphs != [] && |Join(current)| + |paragraphs[0]| + 1 > size
    ensures Segments(paragraphs, size, current) == Flush(current) + Segments(paragraphs, size, [])
  {
    var para, rest := paragraphs[0], paragraphs[1..];
    assert Join([]) == "" && Flush([]) == [];
    if |para| > size {
      assert Segments(paragraphs, size, []) == [] + [Windowed(para)] + Segments(rest, size, []);
      assert Flush(current) + [Windowed(para)] + Segments(rest, size, []) ==
             Flush(current) + ([] + [Windowed(para)] + Segments(rest, size, []));
    } else {
      assert [] + [para] == [para];
      assert Segments(paragraphs, size, []) == [] + Segments(rest, size, [para]) == Segments(rest, size, [para]);
    }
  }

  lemma {:induction false} NothingGathered(segments: seq<Segment>, paragraphs: seq<string>, size: int)
    requires paragraphs != [] && NonEmpty(paragraphs) && size >= 0 && IsPartition(segments, paragraphs, size)
    ensures segments == Segments(paragraphs, size, [])
    decreases |paragraphs|, 1
  {
    var para, rest := paragraphs[0], paragraphs[1..];
    FirstSegment(segments, paragraphs, size);
    assert Fits(segments[0], size);
    if segments[0].Windowed? {
      assert [] + rest == rest;
      PartitionIsUnique(segments[1..], rest, size, []);
      assert segments == [] + [Windowed(para)] + segments[1..];
    } else {
      JoinGrows([para], segments[0].paragraphs);
      assert [para] + rest == paragraphs;
      PartitionIsUnique(segments, rest, size, [para]);
      assert [] + [para] == [para];
      assert segments == [] + segments;
    }
  }

  // ---------------------------------------------------------------- chunks

  predicate Bounded(chunks: seq<string>, size: int) {
    forall i | 0 <= i < |chunks| :: 0 < |chunks[i]| <= size
  }

  lemma {:induction false} WindowsAreBounded(paragraph: string, size: int, step: int, from: nat)
    requires size >= 1 && step >= 1
    ensures Bounded(Windows(paragraph, size, step, from), size)
    decreases |paragraph| - from
  {
    if from < |paragraph| {
      WindowsAreBounded(paragraph, size, step, from + step);
    }
  }

  lemma {:induction false} ChunksAreBounded(segments: seq<Segment>, size: int, step: int)
    requires size >= 1 && step >= 1 && AllFit(segments, size)
    ensures Bounded(Chunks(segments, size, step), size)
  {
    if segments != [] {
      ChunksAreBounded(segments[1..], size, step);
      match segments[0]
      case Group(paragraphs) => JoinIsEmpty(paragraphs);
      case Windowed(paragraph) => WindowsAreBounded(paragraph, size, step, 0);
    }
  }

  /** Every chunk holds something and at most `size` characters. */
  lemma ChunkingIsBounded(paragraphs: seq<string>, size: int, overlap: int)
    requires NonEmpty(paragraphs) && size >= 1
    ensures Bounded(Chunks(Segments(paragraphs, size, []), size, StepOf(size, overlap)), size)
  {
    SegmentsPartition(paragraphs, size, []);
    ChunksAreBounded(Segments(paragraphs, size, []), size, StepOf(size, overlap));
  }

  /** The first `step` characters of every window, joined. */
  function Heads(windows: seq<string>, step: nat): string {
    if windows == [] then ""
    else windows[0][..Min(step, |windows[0]|)] + Heads(windows[1..], step)
  }

  lemma {:induction false} HeadsRecover(paragraph: string, size: int, step: int, from: nat)
    requires 1 <= step <= size
    ensures Heads(Windows(paragraph, size, step, from), step) == paragraph[Min(from, |paragraph|)..]
    decreases |paragraph| - from
  {
    if from < |paragraph| {
      var windows := Windows(paragraph, size, step, from);
      HeadsRecover(paragraph, size, step, from + step);
      assert windows[1..] == Windows(paragraph, size, step, from + step);
      var cut := Min(from + step, |paragraph|);
      assert windows[0][..Min(step, |windows[0]|)] == paragraph[from..cut];
      assert paragraph[from..] == paragraph[from..cut] + paragraph[cut..];
    }
  }

  lemma {:induction false} HeadsAreShort(paragraph: string, size: int, step: int, from: nat)
    requires 1 <= size <= step
    ensures |Heads(Windows(paragraph, size, step, from), step)| <= Max(0, |paragraph| - from)
    decreases |paragraph| - from
  {
    if from < |paragraph| {
      HeadsAreShort(paragraph, size, step, from + step);
    }
  }

  /**
   A long paragraph is recovered exactly by joining the first `step` characters of its windows; that
   holds for every overlap that is not negative and for no other.
  */
  lemma LongParagraphIsRecovered(paragraph: string, size: int, overlap: int)
    requires 1 <= size < |paragraph|
    ensures var step := StepOf(size, overlap);
      Heads(Windows(paragraph, size, step, 0), step) == paragraph <==> overlap >= 0
  {
    var step := StepOf(size, overlap);
    if overlap >= 0 {
      HeadsRecover(paragraph, size, step, 0);
    } else {
      var windows := Windows(paragraph, size, step, 0);
      HeadsAreShort(paragraph, size, step, step);
      assert windows[1..] == Windows(paragraph, size, step, step);
      assert |Heads(windows, step)| < |paragraph|;
    }
  }
}

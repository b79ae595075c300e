/** The text that chunks hold: windows by position, their overlap, and joined paragraphs. */
module ChunkWindows {
  import opened Common
  import opened Chunking

  /** The step is the size less the overlap, but at least one. */
  lemma StepIsSizeLessOverlap(size: int, overlap: int)
    requires size >= 1
    ensures overlap < size ==> StepOf(size, overlap) == size - overlap
    ensures overlap >= size ==> StepOf(size, overlap) == 1
  {
  }

  /** Window `k` starts `k` steps into the paragraph, and there is one for every start before its end. */
  lemma {:induction false} WindowAt(paragraph: string, size: int, step: int, from: nat, k: nat)
    requires size >= 1 && step >= 1
    ensures var windows := Windows(paragraph, size, step, from);
      var start := from + k * step;
      && (k < |windows| <==> start < |paragraph|)
      && (k < |windows| ==> windows[k] == paragraph[start..Min(start + size, |paragraph|)])
    decreases k
  {
    if from < |paragraph| {
      if k > 0 {
        WindowAt(paragraph, size, step, from + step, k - 1);
        assert from + step + (k - 1) * step == from + k * step;
      }
    } else {
      assert k * step >= 0;
    }
  }

  /**
   Neighbouring windows overlap: what a window holds beyond its first `step` characters begins the next one, and
   that is `overlap` characters when the window is full.
  */
  lemma NeighboursOverlap(paragraph: string, size: int, overlap: int, k: nat)
    requires 1 <= size && 0 <= overlap < size
    requires k + 1 < |Windows(paragraph, size, StepOf(size, overlap), 0)|
    ensures var step := size - overlap;
      var windows := Windows(paragraph, size, step, 0);
      var left, right := windows[k], windows[k + 1];
      && k + 1 < |windows|
      && step <= |left| && left[step..] <= right
      && (|left| == size ==> |left[step..]| == overlap)
      && (|left| < size ==> (k + 1) * step + |left[step..]| == |paragraph| && left[step..] == right)
  {
    var step := size - overlap;
    WindowAt(paragraph, size, step, 0, k);
    WindowAt(paragraph, size, step, 0, k + 1);
    var start := k * step;
    assert (k + 1) * step == start + step;
    var windows := Windows(paragraph, size, step, 0);
    var left, right := windows[k], windows[k + 1];
    assert left == paragraph[start..Min(start + size, |paragraph|)];
    assert right == paragraph[start + step..Min(start + step + size, |paragraph|)];
    assert left[step..] == paragraph[start + step..Min(start + size, |paragraph|)];
    assert left[step..] == right[..|left| - step];
  }

  /** Paragraphs that share a chunk are set apart by one line break. */
  lemma {:induction false} JoinSplits(a: seq<string>, b: seq<string>)
    requires a != [] && b != []
    ensures Join(a + b) == Join(a) + "\n" + Join(b)
    decreases |b|
  {
    var front, last := b[..|b| - 1], b[|b| - 1];
    assert (a + b)[..|a + b| - 1] == a + front;
    if front == [] {
      assert a + front == a;
    } else {
      JoinSplits(a, front);
      ConcatAssociates(Join(a) + "\n", Join(front), "\n");
      ConcatAssociates(Join(a) + "\n", Join(front) + "\n", last);
    }
  }

  /** Wherever a group stands, its chunk is its paragraphs joined; a long paragraph's chunks are its windows. */
  lemma SegmentIsChunked(before: seq<Segment>, segment: Segment, after: seq<Segment>, size: int, step: int)
    requires size >= 1 && step >= 1
    ensures Chunks(before + [segment] + after, size, step) ==
              Chunks(before, size, step)
              + (if segment.Group? then [Join(segment.paragraphs)] else Windows(segment.paragraph, size, step, 0))
              + Chunks(after, size, step)
  {
    ChunksAppend(before + [segment], after, size, step);
    ChunksAppend(before, [segment], size, step);
    ChunksOfOne(segment, size, step);
  }

  /** A single short paragraph is its own chunk, character for character. */
  lemma ShortParagraphIsItsChunk(paragraph: string, size: int, step: int)
    requires 0 < |paragraph| < size && step >= 1
    ensures Chunks(Segments([paragraph], size, []), size, step) == [paragraph]
  {
    assert [] + [paragraph] == [paragraph] && [paragraph][1..] == [];
    assert Segments([paragraph], size, []) == [] + Segments([], size, [paragraph]) == [Group([paragraph])];
    ChunksOfOne(Group([paragraph]), size, step);
  }
}

/** What each step over an integer chunk answers, in terms of the fields a reader of the code sees. */
module IntegerAnswers {
  import opened IntegerItem
  import opened IntegerProtocol
  import opened Optional
  import opened Words

  /** There is enough left to cut: outside fixed-length mode a step or more past what is being dumped, or
      past the minimum between two steps; in it a whole block between the first and the last. */
  predicate MayCut(t: Table, c: Item) {
    if t.fixed then
      (c.status == Assigned || c.status == Dumping) && 0 < c.step && c.min / c.step + 2 <= c.max / c.step
    else
      c.cursor < c.max
      && ((c.status == Dumping && c.step <= GapSeen(t.width, c.cursor, c.max))
          || (c.status == Assigned && c.step <= GapSeen(t.width, c.min, c.max)))
  }

  lemma MayCutFree(t: Table, lo: int, hi: int, ch: Chunk)
    requires ChunkOk(t, lo, hi, ch) && !t.fixed
    ensures MayCut(t, ch.item) <==> Cuttable(t, ch)
  {
    var c := ch.item;
    if c.cursor < c.max && c.status == Dumping { SpanIsSeen(t.width, c.cursor, c.max); }
    if c.cursor < c.max && c.status == Assigned { SpanIsSeen(t.width, c.min, c.max); }
  }

  lemma MayCutFixed(t: Table, lo: int, hi: int, ch: Chunk)
    requires ChunkOk(t, lo, hi, ch) && t.fixed && AlignedOk(t, ch)
    ensures MayCut(t, ch.item) <==> Cuttable(t, ch)
  {
    var c := ch.item;
    if c.status == Dumping && c.cursor == c.max && Underway(ch.pc) { SameBlock(c.min, c.cursor, c.step); }
  }

  /** Where and what a turn cuts. */
  lemma CutMakes(t: Table, lo: int, hi: int, ch: Chunk)
    requires ChunkOk(t, lo, hi, ch) && (t.fixed ==> AlignedOk(t, ch)) && Cuttable(t, ch)
    ensures t.fixed ==> 0 < ch.item.step
    ensures var c, cut := ch.item, SplitPoint(t, ch.item);
            TakeTurn(t, ch) == Cut(
              Chunk(c.(max := cut - 1, deep := c.deep + 1, checkMax := true), ch.pc),
              Chunk(Item(cut, cut, c.max, c.step, Assigned, if t.fixed then cut / c.step + 1 else c.part + Pow2(c.deep),
                         c.deep + 1, true, true, false), Ready))
  {
    if t.fixed {
      SplitFixedInside(t, lo, hi, ch);
      FixedSplitPointInside(t, ch.item);
    } else {
      SplitPointInside(t, ch.item);
    }
    SplitMakes(t, ch.item);
  }

  /** One turn of get_next_integer_chunk: a chunk nobody has is given out, one with enough left is cut
      in two, any other is given up, for good if it was not finished. */
  lemma TurnDecides(t: Table, lo: int, hi: int, ch: Chunk)
    requires ChunkOk(t, lo, hi, ch) && (t.fixed ==> AlignedOk(t, ch))
    ensures var c := ch.item;
            match TakeTurn(t, ch)
            case Give(next) => c.status == Unassigned && next == Chunk(c.(status := Assigned), Ready)
            case Cut(parent, child) =>
              && MayCut(t, c) && parent.pc == ch.pc && child.pc == Ready
              && parent.item == c.(max := child.item.min - 1, deep := c.deep + 1, checkMax := true)
              && child.item == Item(child.item.min, child.item.min, c.max, c.step, Assigned, child.item.part, c.deep + 1,
                                    true, true, false)
              && child.item.min == SplitPoint(t, c)
              && child.item.part == if t.fixed then child.item.min / c.step + 1 else c.part + Pow2(c.deep)
            case Drop(next) =>
              && c.status != Unassigned && !MayCut(t, c)
              && next == if c.status == Completed then ch else Chunk(c.(status := Unsplittable), ch.pc)
  {
    if t.fixed { MayCutFixed(t, lo, hi, ch); } else { MayCutFree(t, lo, hi, ch); }
    TurnOk(t, lo, hi, ch);
    if Cuttable(t, ch) { CutMakes(t, lo, hi, ch); }
  }

  /** What is handed out comes to the end of the queue, behind the chunk it was cut from; what is given
      up leaves it. */
  lemma ProbeQueues(t: Table, lo: int, hi: int, s: System)
    requires Inv(t, lo, hi, s) && Enabled(s, Probe)
    ensures var i, n, r := s.queue[0], |s.chunks|, Do(t, s, Probe); var c := s.chunks[i].item;
            && r.queue == s.queue[1..] + (if c.status == Unassigned then [i] else if MayCut(t, c) then [i, n] else [])
            && r.handed == s.handed + (if c.status == Unassigned then [i] else if MayCut(t, c) then [n] else [])
            && |r.chunks| == n + (if MayCut(t, c) then 1 else 0)
            && r.dumped == s.dumped && r.nulls == s.nulls && r.files == s.files
  {
    var i := s.queue[0];
    assert i in s.queue;
    TurnDecides(t, lo, hi, s.chunks[i]);
  }

  /** A query dumps the keys up to the cursor, and the NULL keys if they are due, into the file of its
      block, or of its chunk outside fixed-length mode. */
  lemma WriteDumps(t: Table, s: System, i: nat, k: int)
    requires Enabled(s, Write(i)) && (t.fixed ==> 0 < s.chunks[i].item.step)
    ensures var c, r := s.chunks[i].item, Do(t, s, Write(i));
            && r.dumped[k] == s.dumped[k] + (if k in t.keys && c.min <= k <= c.cursor then 1 else 0)
            && r.nulls == s.nulls + (if c.includeNull && t.hasNull then 1 else 0)
            && r.files == s.files + [if t.fixed then c.min / c.step + 1 else c.part]
            && r.chunks == s.chunks[i := Chunk(c, r.chunks[i].pc)]
  {
    var keys := Selected(t, s.chunks[i].item);
    assert multiset(keys)[k] == if k in keys then 1 else 0;
  }

  /** The step is adjusted after a query exactly if it was not the last of the chunk when it began, and
      outside fixed-length mode. */
  lemma MeasuredUnlessLast(t: Table, ch: Chunk)
    requires ch.pc == Chosen
    ensures var looked := After(t, ch, Inspect(0));
            && looked.pc.Writing? && looked.item == ch.item
            && After(t, looked, Write(0)) == Chunk(ch.item, if t.fixed || ch.item.cursor == ch.item.max then Written else Measuring)
  {
  }

  /** The owner goes on until its range is empty, and dumps the NULL keys in its first step only. */
  lemma GoesOnWhileAnyLeft(t: Table, ch: Chunk)
    requires ch.pc == Looping || ch.pc == Leaving
    ensures var c := ch.item.(includeNull := false);
            After(t, ch, Test(0)) == if ch.item.min <= ch.item.max then Chunk(c, Ready) else Chunk(c.(status := Completed), Done)
  {
  }
}

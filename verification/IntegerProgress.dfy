/** Every interleaving of the integer chunk protocol ends: each step uses up a budget that is
    fixed by the size of the key range. */
module IntegerProgress {
  import opened IntegerItem
  import opened IntegerProtocol

  function Rank(pc: Pc): nat {
    match pc
    case Unhanded => 6
    case Looping => 6
    case Ready => 5
    case Chosen => 4
    case Writing(_) => 3
    case Measuring => 2
    case Written => 1
    case Leaving => 1
    case Done => 0
  }

  /** The chunk was at work before and its cursor lies behind an end it may still be cut at. */
  predicate Trailing(ch: Chunk) {
    && ch.item.cursor < ch.item.max
    && (ch.pc == Leaving
        || ((ch.pc == Ready || ch.pc == Looping) && ch.item.cursor < ch.item.min <= ch.item.max))
  }

  /** Eighteen for a key, less twelve for having any, so that a cut costs twelve. */
  function Weight(ch: Chunk): nat {
    var keys := if ch.pc != Done && ch.item.min <= ch.item.max
                then 18 * (ch.item.max - ch.item.min + 1) - 12 else 0;
    keys + Rank(ch.pc) + if Trailing(ch) then 12 else 0
  }

  function Total(chunks: seq<Chunk>): nat {
    if chunks == [] then 0 else Weight(chunks[0]) + Total(chunks[1..])
  }

  /** A turn of the builder that cuts nothing still takes a chunk off its queue. */
  function Budget(s: System): nat {
    2 * Total(s.chunks) + |s.queue|
  }

  lemma {:induction false} TotalAfterUpdate(chunks: seq<Chunk>, i: nat, ch: Chunk)
    requires i < |chunks|
    ensures Total(chunks[i := ch]) == Total(chunks) - Weight(chunks[i]) + Weight(ch)
  {
    if i == 0 {
      assert chunks[i := ch][1..] == chunks[1..];
    } else {
      assert chunks[i := ch][1..] == chunks[1..][i - 1 := ch];
      TotalAfterUpdate(chunks[1..], i - 1, ch);
    }
  }

  lemma {:induction false} TotalAfterAppend(chunks: seq<Chunk>, ch: Chunk)
    ensures Total(chunks + [ch]) == Total(chunks) + Weight(ch)
  {
    if chunks == [] {
      assert chunks + [ch] == [ch];
    } else {
      assert (chunks + [ch])[1..] == chunks[1..] + [ch];
      TotalAfterAppend(chunks[1..], ch);
    }
  }

  lemma StartUsesBudget(t: Table, lo: int, hi: int, step: nat, c: Item)
    requires Spans(t, lo, hi, step)
    requires ChunkOk(t, lo, hi, Chunk(c, Ready))
    requires t.fixed ==> AlignedOk(t, Chunk(c, Ready))
    ensures Weight(StartChunk(t, c)) < Weight(Chunk(c, Ready))
  {
    var d := c.(status := Dumping);
    if t.fixed {
    } else if BothMissing(t, d) {
      StartMissingOk(t, lo, hi, step, c);
      NarrowKeepsKeys(t, d);
    } else {
      NarrowKeepsKeys(t, d);
    }
  }

  lemma MoveUsesBudget(t: Table, lo: int, hi: int, step: nat, c: Item)
    requires Spans(t, lo, hi, step) && ChunkOk(t, lo, hi, Chunk(c, Written))
    ensures Weight(Chunk(Advance(t, c), Looping)) < Weight(Chunk(c, Written))
  {
    MoveOk(t, lo, hi, step, c);
    var d := Advance(t, c);
    if d.min <= d.max {
      assert Holds(Chunk(d, Looping), d.min) && Holds(Chunk(d, Looping), d.max);
    }
  }

  lemma AfterUsesBudget(t: Table, lo: int, hi: int, step0: nat, ch: Chunk, step: Step)
    requires Spans(t, lo, hi, step0) && ChunkOk(t, lo, hi, ch) && (t.fixed ==> AlignedOk(t, ch))
    requires Allowed(ch.pc, step)
    ensures Weight(After(t, ch, step)) < Weight(ch)
  {
    if step.Start? {
      StartUsesBudget(t, lo, hi, step0, ch.item);
    } else if step.Move? {
      MoveUsesBudget(t, lo, hi, step0, ch.item);
    }
  }

  /** Both sides of a cut are ranges again, and between them they hold what was cut. */
  lemma CutSides(t: Table, lo: int, hi: int, ch: Chunk)
    requires ChunkOk(t, lo, hi, ch) && (t.fixed ==> AlignedOk(t, ch)) && TakeTurn(t, ch).Cut?
    ensures var Cut(parent, child) := TakeTurn(t, ch);
            && parent.pc == ch.pc && child.pc == Ready
            && parent.item.min == ch.item.min && parent.item.cursor == ch.item.cursor
            && parent.item.max == child.item.min - 1 && child.item.cursor == child.item.min
            && Base(ch.item) < child.item.min <= child.item.max == ch.item.max
  {
    TurnOk(t, lo, hi, ch);
    if t.fixed {
      SplitFixedInside(t, lo, hi, ch);
      FixedSplitPointInside(t, ch.item);
    } else {
      SplitPointInside(t, ch.item);
    }
  }

  lemma CutUsesBudget(t: Table, lo: int, hi: int, ch: Chunk)
    requires ChunkOk(t, lo, hi, ch) && (t.fixed ==> AlignedOk(t, ch)) && TakeTurn(t, ch).Cut?
    ensures var Cut(parent, child) := TakeTurn(t, ch);
            Weight(parent) + Weight(child) < Weight(ch)
  {
    TurnOk(t, lo, hi, ch);
    CutSides(t, lo, hi, ch);
  }

  lemma KeptUsesBudget(t: Table, lo: int, hi: int, ch: Chunk)
    requires ChunkOk(t, lo, hi, ch) && (t.fixed ==> AlignedOk(t, ch)) && !TakeTurn(t, ch).Cut?
    ensures var turn := TakeTurn(t, ch);
            Weight(turn.chunk) + (if turn.Give? then 1 else 0) <= Weight(ch)
  {
  }

  lemma ProbeUsesBudget(t: Table, lo: int, hi: int, s: System)
    requires ChunksOk(t, lo, hi, s.chunks) && Enabled(s, Probe)
    ensures Budget(DoProbe(t, s)) < Budget(s)
  {
    var i := s.queue[0];
    var ch := s.chunks[i];
    var turn := TakeTurn(t, ch);
    if turn.Cut? {
      CutUsesBudget(t, lo, hi, ch);
      TotalAfterUpdate(s.chunks, i, turn.parent);
      TotalAfterAppend(s.chunks[i := turn.parent], turn.child);
    } else {
      KeptUsesBudget(t, lo, hi, ch);
      TotalAfterUpdate(s.chunks, i, turn.chunk);
    }
  }

  lemma StepUsesBudget(t: Table, lo: int, hi: int, step0: nat, s: System, step: Step)
    requires Spans(t, lo, hi, step0) && Inv(t, lo, hi, s) && Enabled(s, step)
    ensures Budget(Do(t, s, step)) < Budget(s)
  {
    if step.Probe? {
      ProbeUsesBudget(t, lo, hi, s);
    } else {
      var ch := s.chunks[step.i];
      AfterUsesBudget(t, lo, hi, step0, ch, step);
      TotalAfterUpdate(s.chunks, step.i, After(t, ch, step));
    }
  }

  lemma {:induction false} RunUsesBudget(t: Table, lo: int, hi: int, step0: nat, s: System, steps: seq<Step>)
    requires Spans(t, lo, hi, step0) && Inv(t, lo, hi, s) && Run(t, s, steps).Some?
    ensures Budget(Run(t, s, steps).value) + |steps| <= Budget(s)
    decreases |steps|
  {
    if steps != [] {
      StepKeepsInv(t, lo, hi, step0, s, steps[0]);
      StepUsesBudget(t, lo, hi, step0, s, steps[0]);
      RunUsesBudget(t, lo, hi, step0, Do(t, s, steps[0]), steps[1..]);
    }
  }
}

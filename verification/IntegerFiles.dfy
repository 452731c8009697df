/** The numbers of the files an integer-keyed table is dumped into. */
module IntegerFiles {
  import opened IntegerItem
  import opened IntegerProtocol
  import opened PartNumbers
  import opened Words

  // ----- chunks cut by halving: one file a chunk

  function LabelOf(ch: Chunk): Label {
    Label(ch.item.part, ch.item.deep)
  }

  function Labels(chunks: seq<Chunk>): seq<Label> {
    seq(|chunks|, i requires 0 <= i < |chunks| => LabelOf(chunks[i]))
  }

  lemma TurnCutsLabel(t: Table, ch: Chunk)
    requires !t.fixed
    ensures var turn, l := TakeTurn(t, ch), LabelOf(ch);
            if turn.Cut? then
              LabelOf(turn.parent) == Label(l.part, l.deep + 1) &&
              LabelOf(turn.child) == Label(NextPart(l), l.deep + 1)
            else
              LabelOf(turn.chunk) == l
  {
  }

  lemma AfterKeepsLabel(t: Table, ch: Chunk, step: Step)
    requires Allowed(ch.pc, step)
    ensures LabelOf(After(t, ch, step)) == LabelOf(ch)
  {
  }

  lemma StepKeepsSeparate(t: Table, s: System, step: Step)
    requires !t.fixed && Enabled(s, step)
    requires Separate(Labels(s.chunks))
    ensures Separate(Labels(Do(t, s, step).chunks))
  {
    var next := Do(t, s, step).chunks;
    var i := if step.Probe? then s.queue[0] else step.i;
    var ch := s.chunks[i];
    var l := LabelOf(ch);
    if !step.Probe? {
      AfterKeepsLabel(t, ch, step);
      assert Labels(next) == Labels(s.chunks);
    } else {
      TurnCutsLabel(t, ch);
      if TakeTurn(t, ch).Cut? {
        CutKeepsSeparate(Labels(s.chunks), i);
        assert Labels(next) == Labels(s.chunks)[i := Label(l.part, l.deep + 1)] + [Label(NextPart(l), l.deep + 1)];
      } else {
        assert Labels(next) == Labels(s.chunks);
      }
    }
  }

  lemma {:induction false} RunKeepsSeparate(t: Table, lo: int, hi: int, step0: nat, s: System, steps: seq<Step>)
    requires !t.fixed && Spans(t, lo, hi, step0) && Inv(t, lo, hi, s) && Run(t, s, steps).Some?
    requires Separate(Labels(s.chunks))
    ensures Separate(Labels(Run(t, s, steps).value.chunks))
    decreases |steps|
  {
    if steps != [] {
      StepKeepsInv(t, lo, hi, step0, s, steps[0]);
      StepKeepsSeparate(t, s, steps[0]);
      RunKeepsSeparate(t, lo, hi, step0, Do(t, s, steps[0]), steps[1..]);
    }
  }

  // ----- fixed-length mode: one file a step

  ghost predicate NoRepeats(files: seq<int>) {
    forall i, j :: 0 <= i < j < |files| ==> files[i] != files[j]
  }

  /** No file was opened twice, and none of the blocks still to be dumped was opened. */
  ghost predicate BlocksOk(t: Table, s: System)
    requires t.fixed && t.minStep > 0
  {
    && NoRepeats(s.files)
    && (forall i, k :: 0 <= i < |s.chunks| && Holds(s.chunks[i], k) ==> k / t.minStep + 1 !in s.files)
  }

  /** What a chunk still holds starts on a block boundary. */
  lemma FromIsAligned(t: Table, lo: int, hi: int, ch: Chunk, k: int)
    requires t.fixed && ChunkOk(t, lo, hi, ch) && AlignedOk(t, ch) && Holds(ch, k)
    ensures 0 <= From(ch) && From(ch) % t.minStep == 0
  {
    NextBoundary(ch.item.min, ch.item.step);
  }

  /** Of two boundaries the one that starts k's block is the later one up to k. */
  lemma LatestBoundary(a: nat, b: nat, k: nat, step: nat)
    requires 0 < step && a % step == 0 && b % step == 0
    requires a / step == k / step && b <= k
    ensures b <= a <= k
  {
    QuotientMonotone(b, k, step);
    DivisionLaw(k, step);
    TimesMonotone(b / step, a / step, step);
  }

  /** After a step is written no chunk holds a key of its block. */
  lemma BlockIsUsedUp(t: Table, lo: int, hi: int, s: System, i: nat, j: nat, k: int)
    requires t.fixed && ChunksOk(t, lo, hi, s.chunks) && Covered(t, s.chunks, s.dumped)
    requires i < |s.chunks| && s.chunks[i].pc.Writing? && j < |s.chunks| && i != j
    requires Holds(s.chunks[j], k)
    ensures k / t.minStep != s.chunks[i].item.min / t.minStep
  {
    var min := s.chunks[i].item.min;
    FromIsAligned(t, lo, hi, s.chunks[j], k);
    if k / t.minStep == min / t.minStep {
      LatestBoundary(min, From(s.chunks[j]), k, t.minStep);
      assert Holds(s.chunks[i], min) && Holds(s.chunks[j], min);
      assert false;
    }
  }

  lemma OwnBlockIsUsedUp(t: Table, lo: int, hi: int, ch: Chunk, k: int)
    requires t.fixed && ChunkOk(t, lo, hi, ch) && AlignedOk(t, ch) && ch.pc.Writing?
    requires ch.item.cursor < k <= ch.item.max
    ensures k / t.minStep != ch.item.min / t.minStep
  {
    if k / t.minStep == ch.item.min / t.minStep {
      DivisionLaw(k, t.minStep);
      assert false;
    }
  }

  lemma WriteKeepsBlocks(t: Table, lo: int, hi: int, s: System, i: nat)
    requires t.fixed && ChunksOk(t, lo, hi, s.chunks) && Covered(t, s.chunks, s.dumped)
    requires Enabled(s, Write(i)) && t.minStep > 0 && BlocksOk(t, s)
    ensures BlocksOk(t, Do(t, s, Write(i)))
  {
    var next := Do(t, s, Write(i));
    var c := s.chunks[i].item;
    WriteOk(t, lo, hi, s.chunks[i]);
    assert Holds(s.chunks[i], c.min);
    forall j, k | 0 <= j < |next.chunks| && Holds(next.chunks[j], k)
      ensures k / t.minStep + 1 !in next.files
    {
      assert Holds(s.chunks[j], k);
      if j == i {
        OwnBlockIsUsedUp(t, lo, hi, s.chunks[i], k);
      } else {
        BlockIsUsedUp(t, lo, hi, s, i, j, k);
      }
    }
    forall a, b | 0 <= a < b < |next.files|
      ensures next.files[a] != next.files[b]
    {
      assert next.files[a] in s.files;
    }
  }

  lemma ProbeKeepsBlocks(t: Table, lo: int, hi: int, s: System)
    requires t.fixed && ChunksOk(t, lo, hi, s.chunks) && Enabled(s, Probe)
    requires t.minStep > 0 && BlocksOk(t, s)
    ensures BlocksOk(t, DoProbe(t, s))
  {
    var next := DoProbe(t, s);
    var i := s.queue[0];
    if TakeTurn(t, s.chunks[i]).Cut? {
      CutOk(t, lo, hi, s.chunks[i]);
    } else {
      KeptOk(t, lo, hi, s.chunks[i]);
    }
    forall j, k | 0 <= j < |next.chunks| && Holds(next.chunks[j], k)
      ensures k / t.minStep + 1 !in next.files
    {
      assert Holds(s.chunks[if j == |s.chunks| then i else j], k);
    }
  }

  lemma StepKeepsBlocks(t: Table, lo: int, hi: int, step0: nat, s: System, step: Step)
    requires t.fixed && Spans(t, lo, hi, step0) && Inv(t, lo, hi, s) && Enabled(s, step)
    requires BlocksOk(t, s)
    ensures BlocksOk(t, Do(t, s, step))
  {
    if step.Write? {
      WriteKeepsBlocks(t, lo, hi, s, step.i);
    } else if step.Probe? {
      ProbeKeepsBlocks(t, lo, hi, s);
    } else {
      AfterOk(t, lo, hi, step0, s.chunks[step.i], step);
    }
  }

  lemma {:induction false} RunKeepsBlocks(t: Table, lo: int, hi: int, step0: nat, s: System, steps: seq<Step>)
    requires t.fixed && Spans(t, lo, hi, step0) && Inv(t, lo, hi, s) && Run(t, s, steps).Some?
    requires BlocksOk(t, s)
    ensures BlocksOk(t, Run(t, s, steps).value)
    decreases |steps|
  {
    if steps != [] {
      StepKeepsInv(t, lo, hi, step0, s, steps[0]);
      StepKeepsBlocks(t, lo, hi, step0, s, steps[0]);
      RunKeepsBlocks(t, lo, hi, step0, Do(t, s, steps[0]), steps[1..]);
    }
  }
}

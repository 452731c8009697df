/** How deep the cutting of an integer chunk can go, and so how large its numbers grow. */
module IntegerDepth {
  import opened IntegerItem
  import opened IntegerProgress
  import opened IntegerProtocol
  import opened Words

  /** The range runs from below zero to above it, where truncating division halves unevenly. */
  predicate Crosses(lo: int, hi: int) { lo < 0 < hi }

  /** How deep the cuts of a range can go: as deep as it can be halved, and where it crosses zero one
      deeper than it could be halved without one of its keys. */
  function Deepest(lo: int, hi: int): nat {
    if hi <= lo then 0 else if Crosses(lo, hi) then 1 + HalvesUp(hi - lo - 1) else HalvesUp(hi - lo)
  }

  /** Never more than one deeper. */
  lemma DeepestBound(lo: int, hi: int)
    requires lo < hi
    ensures HalvesUp(hi - lo) <= Deepest(lo, hi) <= HalvesUp(hi - lo) + (if Crosses(lo, hi) then 1 else 0)
  {
    HalvesUpNext(hi - lo);
  }

  /** In powers of two. */
  lemma DeepestWithin(lo: int, hi: int, k: nat)
    requires lo < hi && hi - lo <= Pow2(k) + (if Crosses(lo, hi) then 1 else 0)
    ensures Deepest(lo, hi) <= if Crosses(lo, hi) then k + 2 else k + 1
  {
    if Crosses(lo, hi) { HalvesUpBound(hi - lo - 1, k); } else { HalvesUpBound(hi - lo, k); }
  }

  lemma DeepestMonotone(lo: int, hi: int, lo1: int, hi1: int)
    requires lo <= lo1 && hi1 <= hi
    ensures Deepest(lo1, hi1) <= Deepest(lo, hi)
  {
    if lo1 < hi1 {
      DeepestBound(lo, hi);
      HalvesUpMonotone(hi1 - lo1, hi - lo);
      if Crosses(lo1, hi1) {
        HalvesUpMonotone(hi1 - lo1 - 1, hi - lo - 1);
      }
    }
  }

  predicate DepthOk(most: nat, ch: Chunk) {
    ch.item.deep + Deepest(ch.item.cursor, ch.item.max) <= most
  }

  ghost predicate DepthsOk(most: nat, chunks: seq<Chunk>) {
    forall i :: 0 <= i < |chunks| ==> DepthOk(most, chunks[i])
  }

  lemma StartKeepsDepth(t: Table, lo: int, hi: int, step: nat, most: nat, c: Item)
    requires Spans(t, lo, hi, step) && !t.fixed
    requires ChunkOk(t, lo, hi, Chunk(c, Ready)) && DepthOk(most, Chunk(c, Ready))
    ensures DepthOk(most, StartChunk(t, c))
  {
    var d := StartChunk(t, c).item;
    NarrowKeepsKeys(t, c.(status := Dumping));
    if BothMissing(t, c.(status := Dumping)) {
      StartMissingOk(t, lo, hi, step, c);
    } else {
      StartNarrowedOk(t, lo, hi, step, c);
    }
    DeepestMonotone(c.cursor, c.max, d.cursor, d.max);
  }

  lemma MoveKeepsDepth(t: Table, lo: int, hi: int, step: nat, most: nat, c: Item)
    requires Spans(t, lo, hi, step) && !t.fixed
    requires ChunkOk(t, lo, hi, Chunk(c, Written)) && DepthOk(most, Chunk(c, Written))
    ensures DepthOk(most, Chunk(Advance(t, c), Looping))
  {
    var d := Advance(t, c);
    DeepestMonotone(c.cursor, c.max, d.cursor, d.max);
  }

  lemma AfterKeepsDepth(t: Table, lo: int, hi: int, step0: nat, most: nat, ch: Chunk, step: Step)
    requires Spans(t, lo, hi, step0) && !t.fixed && ChunkOk(t, lo, hi, ch)
    requires Allowed(ch.pc, step) && DepthOk(most, ch)
    ensures DepthOk(most, After(t, ch, step))
  {
    if step.Start? {
      StartKeepsDepth(t, lo, hi, step0, most, ch.item);
    } else if step.Move? {
      MoveKeepsDepth(t, lo, hi, step0, most, ch.item);
    }
  }

  /** A side of at most half the range, rounded up, is not cut as deep as the range. */
  lemma HalfIsLess(gap: nat, side: nat)
    requires 0 < gap && side <= (gap + 1) / 2 && side < gap
    ensures HalvesUp(side) < HalvesUp(gap)
  {
    HalvesUpMonotone(side, (gap + 1) / 2);
  }

  /** Nor is a side of a range across zero, which may hold a key more: if it crosses zero too, its
      bound is that of a key less. */
  lemma SideAcrossZero(gap: nat, side: nat, crosses: bool)
    requires 2 <= gap && side <= gap / 2 + 1 && side < gap && (crosses ==> 2 <= side)
    ensures (if crosses then 1 + HalvesUp(side - 1) else HalvesUp(side)) < 1 + HalvesUp(gap - 1)
  {
    if crosses {
      HalfIsLess(gap - 1, side - 1);
    } else {
      HalvesUpMonotone(side, gap - 1);
    }
  }

  /** A cut at mid of the keys after base leaves at most half of them, rounded up, after mid unless the
      range crosses zero, and then one more; before mid less than half. */
  lemma CutGoesDeeper(cursor: int, base: int, mid: int, max: int)
    requires (cursor == base || cursor == base - 1) && base < mid <= max
    requires max - mid <= (max - base) / 2 + 1 && mid - 1 - base <= (max - base) / 2
    requires !Crosses(base, max) ==> max - mid <= (max - base + 1) / 2
    requires max - base < 3 ==> max - mid < max - base
    ensures Deepest(mid, max) < Deepest(cursor, max)
    ensures Deepest(cursor, mid - 1) < Deepest(cursor, max)
  {
    var gap, far, near := max - cursor, max - mid, mid - 1 - cursor;
    if Crosses(cursor, max) {
      SideAcrossZero(gap, far, Crosses(mid, max));
      SideAcrossZero(gap, near, Crosses(cursor, mid - 1));
    } else {
      HalfIsLess(gap, far);
      HalfIsLess(gap, near);
    }
  }

  lemma CutKeepsDepth(t: Table, lo: int, hi: int, most: nat, ch: Chunk)
    requires ChunkOk(t, lo, hi, ch) && !t.fixed && TakeTurn(t, ch).Cut? && DepthOk(most, ch)
    ensures DepthOk(most, TakeTurn(t, ch).parent) && DepthOk(most, TakeTurn(t, ch).child)
  {
    var Cut(parent, child) := TakeTurn(t, ch);
    var c := ch.item;
    TurnOk(t, lo, hi, ch);
    CutSides(t, lo, hi, ch);
    SplitPointInside(t, c);
    HalvesUnlessAcrossZero(t, c);
    CutGoesDeeper(c.cursor, Base(c), SplitPoint(t, c), c.max);
  }

  lemma KeptKeepsDepth(t: Table, lo: int, hi: int, most: nat, ch: Chunk)
    requires ChunkOk(t, lo, hi, ch) && !TakeTurn(t, ch).Cut? && DepthOk(most, ch)
    ensures DepthOk(most, TakeTurn(t, ch).chunk)
  {
  }

  lemma StepKeepsDepths(t: Table, lo: int, hi: int, step0: nat, most: nat, s: System, step: Step)
    requires Spans(t, lo, hi, step0) && !t.fixed && ChunksOk(t, lo, hi, s.chunks)
    requires Enabled(s, step) && DepthsOk(most, s.chunks)
    ensures DepthsOk(most, Do(t, s, step).chunks)
  {
    var ch := s.chunks[if step.Probe? then s.queue[0] else step.i];
    if !step.Probe? {
      AfterKeepsDepth(t, lo, hi, step0, most, ch, step);
    } else if TakeTurn(t, ch).Cut? {
      CutKeepsDepth(t, lo, hi, most, ch);
    } else {
      KeptKeepsDepth(t, lo, hi, most, ch);
    }
  }

  lemma {:induction false} RunKeepsDepths(t: Table, lo: int, hi: int, step0: nat, most: nat, s: System, steps: seq<Step>)
    requires Spans(t, lo, hi, step0) && !t.fixed && Inv(t, lo, hi, s) && Run(t, s, steps).Some?
    requires DepthsOk(most, s.chunks)
    ensures DepthsOk(most, Run(t, s, steps).value.chunks)
    decreases |steps|
  {
    if steps != [] {
      StepKeepsInv(t, lo, hi, step0, s, steps[0]);
      StepKeepsDepths(t, lo, hi, step0, most, s, steps[0]);
      RunKeepsDepths(t, lo, hi, step0, most, Do(t, s, steps[0]), steps[1..]);
    }
  }
}

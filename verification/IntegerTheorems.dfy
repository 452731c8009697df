/** What the integer chunk protocol achieves, over every interleaving of its steps. */
module IntegerTheorems {
  import opened IntegerDepth
  import opened IntegerFiles
  import opened IntegerItem
  import opened IntegerProgress
  import opened IntegerProtocol
  import opened KeySets
  import opened Optional
  import opened PartNumbers
  import opened Words

  /** No thread can take a step. */
  ghost predicate Stopped(s: System) {
    forall step :: !Enabled(s, step)
  }

  /** Until every chunk is completed and the builder has nothing left to try, some thread can
      take a step. */
  lemma NeverStuck(t: Table, lo: int, hi: int, s: System)
    requires Inv(t, lo, hi, s)
    ensures Stopped(s) <==> s.queue == [] && forall i :: 0 <= i < |s.chunks| ==> s.chunks[i].pc == Done
  {
    if s.queue != [] {
      assert s.queue[0] in s.queue;
    }
    if Stopped(s) {
      assert !Enabled(s, Probe);
      forall i | 0 <= i < |s.chunks|
        ensures s.chunks[i].pc == Done
      {
        assert !Enabled(s, Start(i)) && !Enabled(s, Inspect(i)) && !Enabled(s, Write(i));
        assert !Enabled(s, Measure(i, None)) && !Enabled(s, Move(i)) && !Enabled(s, Test(i));
      }
    }
  }

  /** At every moment of every run no key was dumped twice and nothing else was dumped. */
  lemma NeverTwice(t: Table, lo: int, hi: int, step: nat, steps: seq<Step>)
    requires Spans(t, lo, hi, step)
    requires Run(t, Initial(t, lo, hi, step), steps).Some?
    ensures var s := Run(t, Initial(t, lo, hi, step), steps).value;
            && s.dumped <= multiset(t.keys)
            && s.nulls <= 1
  {
    InitialInv(t, lo, hi, step);
    RunKeepsInv(t, lo, hi, step, Initial(t, lo, hi, step), steps);
    var s := Run(t, Initial(t, lo, hi, step), steps).value;
    forall k ensures s.dumped[k] <= multiset(t.keys)[k] {
      if k !in t.keys { assert k !in s.dumped; }
    }
  }

  /** When the queue is empty and every chunk is done, each key was dumped exactly once, and the NULL
      keys if there are any. */
  lemma DoneMeansDumped(t: Table, lo: int, hi: int, s: System)
    requires Inv(t, lo, hi, s) && s.queue == [] && forall i :: 0 <= i < |s.chunks| ==> s.chunks[i].pc == Done
    ensures s.dumped == multiset(t.keys) && s.nulls == (if t.hasNull then 1 else 0)
    ensures forall i :: 0 <= i < |s.chunks| ==> s.chunks[i].item.status == Completed
  {
    assert forall i :: 0 <= i < |s.chunks| ==> ChunkOk(t, lo, hi, s.chunks[i]);
    forall k ensures s.dumped[k] == multiset(t.keys)[k] {
      if k in t.keys {
        assert !Pending(s.chunks, k);
      } else {
        assert k !in s.dumped;
      }
    }
  }

  /** Every run that can go no further has dumped each key of the snapshot exactly once, the
      NULL keys exactly once if there are any, and completed every chunk, each of which was
      handed to exactly one worker. */
  lemma ExactlyOnce(t: Table, lo: int, hi: int, step: nat, steps: seq<Step>)
    requires Spans(t, lo, hi, step)
    requires Run(t, Initial(t, lo, hi, step), steps).Some?
    requires Stopped(Run(t, Initial(t, lo, hi, step), steps).value)
    ensures var s := Run(t, Initial(t, lo, hi, step), steps).value;
            && s.dumped == multiset(t.keys)
            && s.nulls == (if t.hasNull then 1 else 0)
            && (forall i :: 0 <= i < |s.chunks| ==> s.chunks[i].item.status == Completed)
            && Distinct(s.handed) && (forall i :: i in s.handed <==> 0 <= i < |s.chunks|)
  {
    InitialInv(t, lo, hi, step);
    RunKeepsInv(t, lo, hi, step, Initial(t, lo, hi, step), steps);
    var s := Run(t, Initial(t, lo, hi, step), steps).value;
    NeverStuck(t, lo, hi, s);
    DoneMeansDumped(t, lo, hi, s);
  }

  /** No run is longer than the range allows, however its steps interleave. */
  lemma RunsEnd(t: Table, lo: int, hi: int, step: nat, steps: seq<Step>)
    requires Spans(t, lo, hi, step)
    requires Run(t, Initial(t, lo, hi, step), steps).Some?
    ensures |steps| <= 36 * (hi - lo + 1)
  {
    InitialInv(t, lo, hi, step);
    var s := Initial(t, lo, hi, step);
    RunUsesBudget(t, lo, hi, step, s, steps);
    assert s.chunks[1..] == [];
    assert Total(s.chunks) == Weight(s.chunks[0]);
  }

  /** Chunks cut by halving never share a file. */
  lemma ChunkFilesDiffer(t: Table, lo: int, hi: int, step: nat, steps: seq<Step>, i: nat, j: nat)
    requires Spans(t, lo, hi, step) && !t.fixed
    requires Run(t, Initial(t, lo, hi, step), steps).Some?
    requires var s := Run(t, Initial(t, lo, hi, step), steps).value;
             i < |s.chunks| && j < |s.chunks| && i != j
    ensures var s := Run(t, Initial(t, lo, hi, step), steps).value;
            FileOf(t, s.chunks[i].item) != FileOf(t, s.chunks[j].item)
  {
    InitialInv(t, lo, hi, step);
    var s0 := Initial(t, lo, hi, step);
    assert Labels(s0.chunks) == [Label(0, 0)];
    RunKeepsSeparate(t, lo, hi, step, s0, steps);
    SeparateAreDistinct(Labels(Run(t, s0, steps).value.chunks), i, j);
  }

  /** In fixed-length mode no two steps, of whatever chunks, share a file. */
  lemma StepFilesDiffer(t: Table, lo: int, hi: int, step: nat, steps: seq<Step>)
    requires Spans(t, lo, hi, step) && t.fixed
    requires Run(t, Initial(t, lo, hi, step), steps).Some?
    ensures NoRepeats(Run(t, Initial(t, lo, hi, step), steps).value.files)
  {
    InitialInv(t, lo, hi, step);
    RunKeepsBlocks(t, lo, hi, step, Initial(t, lo, hi, step), steps);
  }

  lemma PartBelowPower(t: Table, lo: int, hi: int, step: nat, steps: seq<Step>, i: nat)
    requires Spans(t, lo, hi, step) && !t.fixed
    requires Run(t, Initial(t, lo, hi, step), steps).Some?
    requires i < |Run(t, Initial(t, lo, hi, step), steps).value.chunks|
    ensures var c := Run(t, Initial(t, lo, hi, step), steps).value.chunks[i].item; 0 <= c.part < Pow2(c.deep)
  {
    InitialInv(t, lo, hi, step);
    var s0 := Initial(t, lo, hi, step);
    var s := Run(t, s0, steps).value;
    assert Labels(s0.chunks) == [Label(0, 0)];
    RunKeepsSeparate(t, lo, hi, step, s0, steps);
    assert Labels(s.chunks)[i] == LabelOf(s.chunks[i]);
  }

  lemma DepthBelow(t: Table, lo: int, hi: int, step: nat, steps: seq<Step>, i: nat)
    requires Spans(t, lo, hi, step) && !t.fixed
    requires Run(t, Initial(t, lo, hi, step), steps).Some?
    requires i < |Run(t, Initial(t, lo, hi, step), steps).value.chunks|
    ensures Run(t, Initial(t, lo, hi, step), steps).value.chunks[i].item.deep <= Deepest(lo, hi)
  {
    InitialInv(t, lo, hi, step);
    var s0 := Initial(t, lo, hi, step);
    RunKeepsDepths(t, lo, hi, step, Deepest(lo, hi), s0, steps);
    assert DepthOk(Deepest(lo, hi), Run(t, s0, steps).value.chunks[i]);
  }

  /** A part is below two to its depth, and a depth is at most one more than the logarithm of the gap,
      rounded up; over a range that crosses zero it may be one deeper still, as deep as the logarithm
      of the gap less one key allows. */
  lemma NumbersFitDepth(t: Table, lo: int, hi: int, step: nat, steps: seq<Step>, i: nat)
    requires Spans(t, lo, hi, step) && !t.fixed
    requires Run(t, Initial(t, lo, hi, step), steps).Some?
    requires i < |Run(t, Initial(t, lo, hi, step), steps).value.chunks|
    ensures var c := Run(t, Initial(t, lo, hi, step), steps).value.chunks[i].item;
            && 0 <= c.part < Pow2(c.deep)
            && c.deep <= (if Crosses(lo, hi) then 1 + HalvesUp(hi - lo - 1) else HalvesUp(hi - lo))
            && c.deep <= HalvesUp(hi - lo) + (if Crosses(lo, hi) then 1 else 0)
  {
    PartBelowPower(t, lo, hi, step, steps, i);
    DepthBelow(t, lo, hi, step, steps, i);
    DeepestBound(lo, hi);
  }

  /** Over a gap of at most 2^k no number reaches 2^(k + 1): for k <= 52 every `part += pow(2, deep)` is
      exact in double precision, for k <= 63 every number fits its 64 bits. Over a range that crosses
      zero the gap may be one more and the numbers twice as large. */
  lemma NumbersStaySmall(t: Table, lo: int, hi: int, step: nat, steps: seq<Step>, k: nat, i: nat)
    requires Spans(t, lo, hi, step) && !t.fixed
    requires hi - lo <= Pow2(k) + (if Crosses(lo, hi) then 1 else 0)
    requires Run(t, Initial(t, lo, hi, step), steps).Some?
    requires i < |Run(t, Initial(t, lo, hi, step), steps).value.chunks|
    ensures var c := Run(t, Initial(t, lo, hi, step), steps).value.chunks[i].item;
            var most := if Crosses(lo, hi) then k + 2 else k + 1;
            c.deep <= most && 0 <= c.part < Pow2(most)
  {
    PartBelowPower(t, lo, hi, step, steps, i);
    DepthBelow(t, lo, hi, step, steps, i);
    DeepestWithin(lo, hi, k);
    Pow2Monotone(Run(t, Initial(t, lo, hi, step), steps).value.chunks[i].item.deep,
                 if Crosses(lo, hi) then k + 2 else k + 1);
  }

  // ----- the range that is left out

  lemma {:induction false} RunAppend(t: Table, s: System, first: seq<Step>, rest: seq<Step>)
    requires Run(t, s, first).Some?
    ensures Run(t, s, first + rest) == Run(t, Run(t, s, first).value, rest)
    decreases |first|
  {
    if first == [] {
      assert first + rest == rest;
    } else {
      assert (first + rest)[1..] == first[1..] + rest;
      RunAppend(t, Do(t, s, first[0]), first[1..], rest);
    }
  }

  lemma RunTwo(t: Table, s0: System, a: Step, s1: System, b: Step, s2: System)
    requires Enabled(s0, a) && Do(t, s0, a) == s1 && Enabled(s1, b) && Do(t, s1, b) == s2
    ensures Run(t, s0, [a, b]) == Some(s2)
  {
    assert [a, b][1..] == [b] && [b][1..] == [];
    assert Run(t, s1, [b]) == Run(t, s2, []);
  }

  /** The root of a whole type once assigned, aimed at its end, and moved past it. */
  lemma WholeTypeComesBack(t: Table, lo: int, hi: int, step: nat)
    requires Bounds(t, lo, hi, step) && Restarts(t, lo, hi, step)
    ensures var c := Item(lo, lo, hi, step, Assigned, 0, 0, false, false, true);
            var d := c.(cursor := hi, status := Dumping);
            && StartChunk(t, c) == Chunk(d, Chosen)
            && Selected(t, d) == t.keys
            && Advance(t, d) == d.(status := Assigned,
                                   step := if t.fixed then step else if t.width == Unsigned then 0 else 2)
  {
  }

  /** The root of a whole type after its first round, as the builder and its owner left it. */
  function WholeTypeRound(t: Table, lo: int, hi: int, step: nat): System {
    var step' := if t.fixed then step else if t.width == Unsigned then 0 else 2;
    var c := Item(lo, hi, hi, step', Assigned, 0, 0, false, false, false);
    System([Chunk(c, Ready)], [0], [0], multiset(t.keys), if t.hasNull then 1 else 0,
           [FileOf(t, c.(step := step))])
  }

  const FIRST_ROUND := [Probe, Start(0)] + [Inspect(0), Write(0)] + [Move(0), Test(0)]
  const SECOND_ROUND := [Start(0), Inspect(0)] + [Write(0)]

  lemma WholeTypeFirstRound(t: Table, lo: int, hi: int, step: nat)
    requires Bounds(t, lo, hi, step) && Restarts(t, lo, hi, step)
    ensures Run(t, Initial(t, lo, hi, step), FIRST_ROUND) == Some(WholeTypeRound(t, lo, hi, step))
  {
    WholeTypeComesBack(t, lo, hi, step);
    var s0 := Initial(t, lo, hi, step);
    var c := Item(lo, lo, hi, step, Assigned, 0, 0, false, false, true);
    var d := c.(cursor := hi, status := Dumping);
    var s1 := System([Chunk(c, Ready)], [0], [0], multiset{}, 0, []);
    var s2 := s1.(chunks := [Chunk(d, Chosen)]);
    RunTwo(t, s0, Probe, s1, Start(0), s2);
    var s3 := s1.(chunks := [Chunk(d, Writing(false))]);
    var s4 := s1.(chunks := [Chunk(d, Written)], dumped := multiset(t.keys),
                  nulls := if t.hasNull then 1 else 0, files := [FileOf(t, d)]);
    assert s3.dumped + multiset(t.keys) == s4.dumped;
    RunTwo(t, s2, Inspect(0), s3, Write(0), s4);
    WholeTypeTurnsRound(t, lo, hi, step, s4, d);
    RunAppend(t, s0, [Probe, Start(0)], [Inspect(0), Write(0)]);
    RunAppend(t, s0, [Probe, Start(0)] + [Inspect(0), Write(0)], [Move(0), Test(0)]);
  }

  lemma WholeTypeTurnsRound(t: Table, lo: int, hi: int, step: nat, s4: System, d: Item)
    requires Bounds(t, lo, hi, step) && Restarts(t, lo, hi, step)
    requires d == Item(lo, hi, hi, step, Dumping, 0, 0, false, false, true)
    requires s4 == System([Chunk(d, Written)], [0], [0], multiset(t.keys),
                          if t.hasNull then 1 else 0, [FileOf(t, d)])
    ensures Run(t, s4, [Move(0), Test(0)]) == Some(WholeTypeRound(t, lo, hi, step))
  {
    WholeTypeComesBack(t, lo, hi, step);
    var s5 := s4.(chunks := [Chunk(Advance(t, d), Looping)]);
    assert s4.dumped + multiset({}) == s4.dumped && s4.files + [] == s4.files;
    RunTwo(t, s4, Move(0), s5, Test(0), WholeTypeRound(t, lo, hi, step));
  }

  /** The round after it selects an end of the range again. */
  lemma WholeTypeSecondRound(t: Table, lo: int, hi: int, step: nat)
    requires Bounds(t, lo, hi, step) && Restarts(t, lo, hi, step)
    ensures var r := Run(t, WholeTypeRound(t, lo, hi, step), SECOND_ROUND);
            r.Some? && r.value.dumped[if t.width == Unsigned then hi else lo] == 2
  {
    var s := WholeTypeRound(t, lo, hi, step);
    var s2 := Do(t, s, Start(0));
    var c := s2.chunks[0].item;
    assert c.min == lo && (t.width == Unsigned ==> c.cursor == hi) && lo <= c.cursor;
    var s3 := Do(t, s2, Inspect(0));
    var s4 := Do(t, s3, Write(0));
    assert s3.dumped == s.dumped;
    assert s4.dumped == multiset(t.keys) + multiset(Range(t.keys, lo, c.cursor));
    RunTwo(t, s, Start(0), s2, Inspect(0), s3);
    RunAppend(t, s, [Start(0), Inspect(0)], [Write(0)]);
    assert [Write(0)][1..] == [];
  }

  /** The run dumps no key more often than the snapshot has it. */
  ghost predicate OnlyOnce(t: Table, s: System, steps: seq<Step>) {
    Run(t, s, steps).Some? ==> Run(t, s, steps).value.dumped <= multiset(t.keys)
  }

  /** No run dumps a key twice, unless the first step covers every value of the type: it then misses
      the overflow test and starts over. */
  lemma NeverTwiceIff(t: Table, lo: int, hi: int, step: nat)
    requires Bounds(t, lo, hi, step)
    ensures (forall steps :: OnlyOnce(t, Initial(t, lo, hi, step), steps))
       <==> !(WholeType(t, lo, hi) && (t.width == Unsigned || 2 < step))
  {
    if Restarts(t, lo, hi, step) {
      WholeTypeFirstRound(t, lo, hi, step);
      WholeTypeSecondRound(t, lo, hi, step);
      RunAppend(t, Initial(t, lo, hi, step), FIRST_ROUND, SECOND_ROUND);
      assert !OnlyOnce(t, Initial(t, lo, hi, step), FIRST_ROUND + SECOND_ROUND);
    } else {
      forall steps
        ensures OnlyOnce(t, Initial(t, lo, hi, step), steps)
      {
        if Run(t, Initial(t, lo, hi, step), steps).Some? {
          NeverTwice(t, lo, hi, step, steps);
        }
      }
    }
  }
}

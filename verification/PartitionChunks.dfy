/** Chunks of a partitioned table: a chunk is a list of partitions whose worker takes them from the
    head, while the builder may cut the list in two. */
module PartitionChunks {
  import opened Optional
  import opened PartNumbers
  import opened Words

  /** A partition name, known by its number. */
  type Partition = nat

  /** Where the worker of a chunk is: before the test of its loop, between the test and the lock,
      dumping, or past the loop. */
  datatype Pc = Testing | Popping | Dumping(p: Partition) | Left

  datatype Chunk = Chunk(list: seq<Partition>, part: nat, deep: nat, handed: bool, pc: Pc)

  datatype System = System(chunks: seq<Chunk>, dumped: seq<Partition>)

  /** The builder hands out a chunk or cuts one; a worker moves. */
  datatype Step = Hand(i: nat) | Halve(i: nat) | Work(i: nat)

  // ----- one chunk

  predicate Long(ch: Chunk) { |ch.list| > 3 }

  function Kept(ch: Chunk): Chunk { ch.(list := ch.list[..|ch.list| / 2], deep := ch.deep + 1) }

  function Cut(ch: Chunk): Chunk {
    Chunk(ch.list[|ch.list| / 2..], ch.part + Pow2(ch.deep), ch.deep + 1, true, Testing)
  }

  function Worked(ch: Chunk): Chunk
    requires ch.pc == Popping ==> ch.list != []
  {
    match ch.pc
    case Testing => ch.(pc := if ch.list != [] then Popping else Left)
    case Popping => ch.(list := ch.list[1..], pc := Dumping(ch.list[0]))
    case Dumping(_) => ch.(pc := Testing)
    case Left => ch
  }

  /** A worker goes through its list from the head, a partition at a time, until it sees it empty. */
  lemma TakesFromHead(ch: Chunk)
    requires ch.pc == Popping ==> ch.list != []
    ensures ch.pc == Testing && ch.list == [] ==> Worked(ch) == ch.(pc := Left)
    ensures ch.pc == Testing && ch.list != [] ==> Worked(ch) == ch.(pc := Popping)
    ensures ch.pc == Popping ==>
              Worked(ch).pc == Dumping(ch.list[0]) && [ch.list[0]] + Worked(ch).list == ch.list && Worked(Worked(ch)).pc == Testing
  {
  }

  // ----- the system

  predicate Enabled(s: System, step: Step) {
    match step
    case Hand(i) => i < |s.chunks| && !s.chunks[i].handed
    case Halve(i) => i < |s.chunks| && s.chunks[i].handed && Long(s.chunks[i])
    case Work(i) =>
      && i < |s.chunks| && s.chunks[i].handed && s.chunks[i].pc != Left
      && (s.chunks[i].pc == Popping ==> s.chunks[i].list != [])
  }

  function Do(s: System, step: Step): System
    requires Enabled(s, step)
  {
    var ch := s.chunks[step.i];
    match step
    case Hand(i) => s.(chunks := s.chunks[i := ch.(handed := true)])
    case Halve(i) => s.(chunks := s.chunks[i := Kept(ch)] + [Cut(ch)])
    case Work(i) =>
      System(s.chunks[i := Worked(ch)], if ch.pc.Dumping? then s.dumped + [ch.pc.p] else s.dumped)
  }

  function Run(s: System, steps: seq<Step>): Option<System>
    decreases |steps|
  {
    if steps == [] then Some(s)
    else if Enabled(s, steps[0]) then Run(Do(s, steps[0]), steps[1..])
    else None
  }

  /** new_real_partition_step_item of all the partitions. */
  function Initial(list: seq<Partition>): System {
    System([Chunk(list, 0, 0, false, Testing)], [])
  }

  // ----- what a chunk still holds

  function Count(list: seq<Partition>, p: Partition): nat {
    if list == [] then 0 else (if list[0] == p then 1 else 0) + Count(list[1..], p)
  }

  lemma {:induction false} CountAppend(a: seq<Partition>, b: seq<Partition>, p: Partition)
    ensures Count(a + b, p) == Count(a, p) + Count(b, p)
  {
    if a == [] {
      assert a + b == b;
    } else {
      assert (a + b)[1..] == a[1..] + b;
      CountAppend(a[1..], b, p);
    }
  }

  function Holds(ch: Chunk, p: Partition): nat {
    Count(ch.list, p) + if ch.pc == Dumping(p) then 1 else 0
  }

  function AllHold(chunks: seq<Chunk>, p: Partition): nat {
    if chunks == [] then 0 else Holds(chunks[0], p) + AllHold(chunks[1..], p)
  }

  lemma {:induction false} AllHoldUpdate(chunks: seq<Chunk>, i: nat, ch: Chunk, p: Partition)
    requires i < |chunks|
    ensures AllHold(chunks[i := ch], p) == AllHold(chunks, p) - Holds(chunks[i], p) + Holds(ch, p)
  {
    if i == 0 {
      assert chunks[i := ch][1..] == chunks[1..];
    } else {
      assert chunks[i := ch][1..] == chunks[1..][i - 1 := ch];
      AllHoldUpdate(chunks[1..], i - 1, ch, p);
    }
  }

  lemma {:induction false} AllHoldAppend(chunks: seq<Chunk>, ch: Chunk, p: Partition)
    ensures AllHold(chunks + [ch], p) == AllHold(chunks, p) + Holds(ch, p)
  {
    if chunks == [] {
      assert chunks + [ch] == [ch];
    } else {
      assert (chunks + [ch])[1..] == chunks[1..] + [ch];
      AllHoldAppend(chunks[1..], ch, p);
    }
  }

  /** A cut gives the first half of the list to the one chunk and the rest to the other, which was handed
      out with it; the lists are as long as each other, or the owner's is one shorter. */
  lemma CutConserves(ch: Chunk, p: Partition)
    requires Long(ch)
    ensures Holds(Kept(ch), p) + Holds(Cut(ch), p) == Holds(ch, p)
    ensures Kept(ch).list != [] && Cut(ch).list != [] && Kept(ch).list + Cut(ch).list == ch.list
    ensures |Kept(ch).list| <= |Cut(ch).list| <= |Kept(ch).list| + 1
    ensures Kept(ch) == ch.(list := Kept(ch).list, deep := ch.deep + 1)
    ensures Cut(ch) == Chunk(Cut(ch).list, ch.part + Pow2(ch.deep), ch.deep + 1, true, Testing)
  {
    CountAppend(Kept(ch).list, Cut(ch).list, p);
    assert Kept(ch).list + Cut(ch).list == ch.list;
  }

  /** A chunk is cut when it was handed out before and has four partitions or more left. */
  lemma HalvedIff(s: System, i: nat)
    requires i < |s.chunks|
    ensures Enabled(s, Halve(i)) <==> s.chunks[i].handed && 4 <= |s.chunks[i].list|
  {
  }

  // ----- the invariant

  /** A worker that saw partitions in its list still has one there when it takes the lock. */
  predicate ChunkOk(ch: Chunk) {
    && (ch.pc == Popping ==> ch.list != [])
    && (!ch.handed ==> ch.pc == Testing)
    && (ch.pc == Left ==> ch.list == [])
  }

  function LabelOf(ch: Chunk): Label { Label(ch.part, ch.deep) }

  function Labels(chunks: seq<Chunk>): seq<Label> {
    seq(|chunks|, i requires 0 <= i < |chunks| => LabelOf(chunks[i]))
  }

  ghost predicate Inv(list: seq<Partition>, s: System) {
    && (forall i :: 0 <= i < |s.chunks| ==> ChunkOk(s.chunks[i]))
    && (forall p: Partition :: AllHold(s.chunks, p) + Count(s.dumped, p) == Count(list, p))
    && Separate(Labels(s.chunks))
  }

  lemma InitialInv(list: seq<Partition>)
    ensures Inv(list, Initial(list))
  {
    var s := Initial(list);
    assert s.chunks[1..] == [];
    forall p: Partition ensures AllHold(s.chunks, p) + Count(s.dumped, p) == Count(list, p) {
      assert AllHold(s.chunks, p) == Holds(s.chunks[0], p) + AllHold(s.chunks[1..], p);
    }
  }

  lemma StepKeepsHeld(s: System, step: Step, p: Partition)
    requires Enabled(s, step)
    ensures AllHold(Do(s, step).chunks, p) + Count(Do(s, step).dumped, p)
         == AllHold(s.chunks, p) + Count(s.dumped, p)
  {
    var i := step.i;
    var ch := s.chunks[i];
    match step
    case Hand(_) => AllHoldUpdate(s.chunks, i, ch.(handed := true), p);
    case Halve(_) =>
      CutConserves(ch, p);
      AllHoldUpdate(s.chunks, i, Kept(ch), p);
      AllHoldAppend(s.chunks[i := Kept(ch)], Cut(ch), p);
    case Work(_) =>
      AllHoldUpdate(s.chunks, i, Worked(ch), p);
      if ch.pc.Dumping? { CountAppend(s.dumped, [ch.pc.p], p); }
  }

  lemma StepKeepsSeparate(s: System, step: Step)
    requires Enabled(s, step) && Separate(Labels(s.chunks))
    ensures Separate(Labels(Do(s, step).chunks))
  {
    var i := step.i;
    var l := LabelOf(s.chunks[i]);
    if step.Halve? {
      CutKeepsSeparate(Labels(s.chunks), i);
      assert Labels(Do(s, step).chunks)
          == Labels(s.chunks)[i := Label(l.part, l.deep + 1)] + [Label(NextPart(l), l.deep + 1)];
    } else {
      assert Labels(Do(s, step).chunks) == Labels(s.chunks);
    }
  }

  lemma StepKeepsChunks(s: System, step: Step)
    requires Enabled(s, step) && forall i :: 0 <= i < |s.chunks| ==> ChunkOk(s.chunks[i])
    ensures forall i :: 0 <= i < |Do(s, step).chunks| ==> ChunkOk(Do(s, step).chunks[i])
  {
    assert ChunkOk(s.chunks[step.i]);
    if step.Halve? { CutConserves(s.chunks[step.i], 0); }
  }

  lemma StepKeepsInv(list: seq<Partition>, s: System, step: Step)
    requires Inv(list, s) && Enabled(s, step)
    ensures Inv(list, Do(s, step))
  {
    var t := Do(s, step);
    forall p: Partition ensures AllHold(t.chunks, p) + Count(t.dumped, p) == Count(list, p) {
      StepKeepsHeld(s, step, p);
    }
    StepKeepsSeparate(s, step);
    StepKeepsChunks(s, step);
  }

  lemma {:induction false} RunKeepsInv(list: seq<Partition>, s: System, steps: seq<Step>)
    requires Inv(list, s) && Run(s, steps).Some?
    ensures Inv(list, Run(s, steps).value)
    decreases |steps|
  {
    if steps != [] {
      StepKeepsInv(list, s, steps[0]);
      RunKeepsInv(list, Do(s, steps[0]), steps[1..]);
    }
  }

  // ----- every run ends

  function PcWork(pc: Pc): nat {
    match pc
    case Testing => 1
    case Popping => 0
    case Dumping(_) => 2
    case Left => 0
  }

  /** More for one list than for two of the same partitions. */
  function Weight(ch: Chunk): nat {
    (if ch.list == [] then 0 else 6 * |ch.list| - 3) + PcWork(ch.pc) + (if ch.handed then 0 else 1)
  }

  function Total(chunks: seq<Chunk>): nat {
    if chunks == [] then 0 else Weight(chunks[0]) + Total(chunks[1..])
  }

  lemma {:induction false} TotalUpdate(chunks: seq<Chunk>, i: nat, ch: Chunk)
    requires i < |chunks|
    ensures Total(chunks[i := ch]) == Total(chunks) - Weight(chunks[i]) + Weight(ch)
  {
    if i == 0 {
      assert chunks[i := ch][1..] == chunks[1..];
    } else {
      assert chunks[i := ch][1..] == chunks[1..][i - 1 := ch];
      TotalUpdate(chunks[1..], i - 1, ch);
    }
  }

  lemma {:induction false} TotalAppend(chunks: seq<Chunk>, ch: Chunk)
    ensures Total(chunks + [ch]) == Total(chunks) + Weight(ch)
  {
    if chunks == [] {
      assert chunks + [ch] == [ch];
    } else {
      assert (chunks + [ch])[1..] == chunks[1..] + [ch];
      TotalAppend(chunks[1..], ch);
    }
  }

  lemma CutLessWeight(ch: Chunk)
    requires Long(ch)
    ensures Weight(Kept(ch)) + Weight(Cut(ch)) < Weight(ch)
  {
  }

  lemma StepUsesTotal(s: System, step: Step)
    requires Enabled(s, step)
    ensures Total(Do(s, step).chunks) < Total(s.chunks)
  {
    var i := step.i;
    var ch := s.chunks[i];
    match step
    case Hand(_) => TotalUpdate(s.chunks, i, ch.(handed := true));
    case Halve(_) =>
      CutLessWeight(ch);
      TotalUpdate(s.chunks, i, Kept(ch));
      TotalAppend(s.chunks[i := Kept(ch)], Cut(ch));
    case Work(_) => TotalUpdate(s.chunks, i, Worked(ch));
  }

  lemma {:induction false} RunUsesTotal(s: System, steps: seq<Step>)
    requires Run(s, steps).Some?
    ensures |steps| + Total(Run(s, steps).value.chunks) <= Total(s.chunks)
    decreases |steps|
  {
    if steps != [] {
      StepUsesTotal(s, steps[0]);
      RunUsesTotal(Do(s, steps[0]), steps[1..]);
    }
  }

  // ----- the main results

  predicate Finished(s: System) { forall i :: 0 <= i < |s.chunks| ==> s.chunks[i].pc == Left }

  /** Whatever the order of the steps, when all chunks are done each partition was dumped exactly
      as often as it was listed, which is once. */
  lemma EachPartitionOnce(list: seq<Partition>, steps: seq<Step>)
    requires Run(Initial(list), steps).Some? && Finished(Run(Initial(list), steps).value)
    ensures forall p: Partition :: Count(Run(Initial(list), steps).value.dumped, p) == Count(list, p)
  {
    var s := Run(Initial(list), steps).value;
    InitialInv(list);
    RunKeepsInv(list, Initial(list), steps);
    forall p: Partition ensures Count(s.dumped, p) == Count(list, p) { NothingHeld(s.chunks, p); }
  }

  lemma {:induction false} NothingHeld(chunks: seq<Chunk>, p: Partition)
    requires forall i :: 0 <= i < |chunks| ==> ChunkOk(chunks[i]) && chunks[i].pc == Left
    ensures AllHold(chunks, p) == 0
  {
    if chunks != [] { NothingHeld(chunks[1..], p); }
  }

  /** No partition is dumped more often than it was listed, at any time. */
  lemma NeverTwice(list: seq<Partition>, steps: seq<Step>, p: Partition)
    requires Run(Initial(list), steps).Some?
    ensures Count(Run(Initial(list), steps).value.dumped, p) <= Count(list, p)
  {
    InitialInv(list);
    RunKeepsInv(list, Initial(list), steps);
  }

  /** A worker that is about to take the head of its list finds one: no cut has emptied it. */
  lemma HeadIsThere(list: seq<Partition>, steps: seq<Step>, i: nat)
    requires Run(Initial(list), steps).Some? && i < |Run(Initial(list), steps).value.chunks|
    ensures var ch := Run(Initial(list), steps).value.chunks[i]; ch.pc == Popping ==> ch.list != []
  {
    InitialInv(list);
    RunKeepsInv(list, Initial(list), steps);
    assert ChunkOk(Run(Initial(list), steps).value.chunks[i]);
  }

  lemma NeverStuck(list: seq<Partition>, steps: seq<Step>)
    requires Run(Initial(list), steps).Some?
    ensures var s := Run(Initial(list), steps).value; Finished(s) || exists step :: Enabled(s, step)
  {
    var s := Run(Initial(list), steps).value;
    InitialInv(list);
    RunKeepsInv(list, Initial(list), steps);
    if !Finished(s) {
      var i :| 0 <= i < |s.chunks| && s.chunks[i].pc != Left;
      assert ChunkOk(s.chunks[i]);
      assert Enabled(s, if s.chunks[i].handed then Work(i) else Hand(i));
    }
  }

  lemma RunsEnd(list: seq<Partition>, steps: seq<Step>)
    requires Run(Initial(list), steps).Some?
    ensures |steps| <= 6 * |list| + 2
  {
    RunUsesTotal(Initial(list), steps);
    assert Initial(list).chunks[1..] == [];
  }

  /** The files of two chunks have different numbers. */
  lemma PartsDiffer(list: seq<Partition>, steps: seq<Step>, i: nat, j: nat)
    requires Run(Initial(list), steps).Some? && i != j
    requires i < |Run(Initial(list), steps).value.chunks| && j < |Run(Initial(list), steps).value.chunks|
    ensures var s := Run(Initial(list), steps).value; s.chunks[i].part != s.chunks[j].part
  {
    InitialInv(list);
    RunKeepsInv(list, Initial(list), steps);
    SeparateAreDistinct(Labels(Run(Initial(list), steps).value.chunks), i, j);
  }

  // ----- the loops

  lemma {:induction false} RunAppend(s: System, a: seq<Step>, b: seq<Step>)
    requires Run(s, a).Some?
    ensures Run(s, a + b) == Run(Run(s, a).value, b)
    decreases |a|
  {
    if a == [] {
      assert a + b == b;
    } else {
      assert (a + b)[1..] == a[1..] + b;
      RunAppend(Do(s, a[0]), a[1..], b);
    }
  }

  lemma RunOne(s: System, trace: seq<Step>, t: System, step: Step)
    requires Run(s, trace) == Some(t) && Enabled(t, step)
    ensures Run(s, trace + [step]) == Some(Do(t, step))
  {
    RunAppend(s, trace, [step]);
    assert [step][1..] == [];
    assert Run(Do(t, step), []) == Some(Do(t, step));
  }

  /** What the builder does with the chunks before it finds one to hand out. */
  predicate PassedOver(ch: Chunk) { ch.handed && !Long(ch) }

  predicate Others(steps: seq<Step>, i: nat) {
    forall n :: 0 <= n < |steps| ==> steps[n] != Work(i) && steps[n] != Hand(i)
  }

  class PartitionTable {
    var state: System

    /** get_next_partition_chunk: the first chunk that was not handed out, or half of the first that is
        long enough; none if there is no such chunk. */
    method GetNextPartitionChunk() returns (got: Option<nat>)
      modifies this
      ensures got.None? ==>
                state == old(state) && forall i :: 0 <= i < |state.chunks| ==> PassedOver(state.chunks[i])
      ensures got.Some? ==>
                exists step :: && Enabled(old(state), step) && !step.Work? && state == Do(old(state), step)
                               && got.value == (if step.Hand? then step.i else |old(state).chunks|)
                               && forall i :: 0 <= i < step.i ==> PassedOver(old(state).chunks[i])
    {
      var l := 0;
      while l < |state.chunks|
        invariant 0 <= l <= |state.chunks| && state == old(state)
        invariant forall i :: 0 <= i < l ==> PassedOver(state.chunks[i])
      {
        var csi := state.chunks[l];
        if !csi.handed {
          assert Enabled(state, Hand(l));
          state := state.(chunks := state.chunks[l := csi.(handed := true)]);
          return Some(l);
        }
        if |csi.list| > 3 {
          assert Enabled(state, Halve(l));
          var pos := |csi.list| / 2;
          var new_csi := Chunk(csi.list[pos..], csi.part + Pow2(csi.deep), csi.deep + 1, true, Testing);
          state := state.(chunks := state.chunks[l := csi.(list := csi.list[..pos], deep := csi.deep + 1)] + [new_csi]);
          return Some(|state.chunks| - 1);
        }
        l := l + 1;
      }
      got := None;
    }

    /** What the builder and the other workers do while this worker does not hold the mutex. */
    method Interfere(i: nat, ghost list: seq<Partition>) returns (ghost trace: seq<Step>)
      requires i < |state.chunks| && Inv(list, state)
      modifies this
      ensures Run(old(state), trace) == Some(state) && Inv(list, state) && Total(state.chunks) <= Total(old(state).chunks)
      ensures |state.chunks| > i && state.chunks[i].pc == old(state).chunks[i].pc
      ensures state.chunks[i].handed == old(state).chunks[i].handed
    {
      var steps: seq<Step> := *;
      match Run(state, steps)
      case None => trace := [];
      case Some(after) =>
        if Others(steps, i) && i < |after.chunks| && after.chunks[i].pc == state.chunks[i].pc
           && after.chunks[i].handed == state.chunks[i].handed {
          RunKeepsInv(list, state, steps);
          RunUsesTotal(state, steps);
          state := after;
          trace := steps;
        } else {
          trace := [];
        }
    }

    /** A run so far, and what the others add to it. */
    method LetIn(i: nat, ghost list: seq<Partition>, ghost start: System, ghost trace: seq<Step>) returns (ghost longer: seq<Step>)
      requires i < |state.chunks| && Inv(list, state) && Run(start, trace) == Some(state)
      modifies this
      ensures Run(start, longer) == Some(state) && Inv(list, state) && Total(state.chunks) <= Total(old(state).chunks)
      ensures i < |state.chunks| && state.chunks[i].pc == old(state).chunks[i].pc
      ensures state.chunks[i].handed == old(state).chunks[i].handed
    {
      ghost var more := Interfere(i, list);
      RunAppend(start, trace, more);
      longer := trace + more;
    }

    /** A step of this worker: the state it makes is that of the system. */
    method Record(i: nat, next: System, ghost list: seq<Partition>, ghost start: System, ghost trace: seq<Step>)
      returns (ghost longer: seq<Step>)
      requires Enabled(state, Work(i)) && next == Do(state, Work(i)) && Inv(list, state) && Run(start, trace) == Some(state)
      modifies this
      ensures state == next && Run(start, longer) == Some(state) && Inv(list, state)
      ensures Total(state.chunks) < Total(old(state).chunks)
    {
      RunOne(start, trace, state, Work(i));
      StepKeepsInv(list, state, Work(i));
      StepUsesTotal(state, Work(i));
      longer := trace + [Work(i)];
      state := next;
    }

    /** process_partition_chunk: the loop ends whatever the others do, and all of it is a run of the
        system. The mutex is free between the test of the loop, the critical section and the dump. */
    method ProcessPartitionChunk(i: nat, ghost list: seq<Partition>) returns (ghost trace: seq<Step>)
      requires i < |state.chunks| && state.chunks[i].handed && state.chunks[i].pc == Testing && Inv(list, state)
      modifies this
      ensures Run(old(state), trace) == Some(state) && Inv(list, state)
      ensures i < |state.chunks| && state.chunks[i].pc == Left && state.chunks[i].list == []
    {
      trace := LetIn(i, list, old(state), []);
      while state.chunks[i].list != []
        invariant i < |state.chunks| && state.chunks[i].handed && state.chunks[i].pc == Testing
        invariant Run(old(state), trace) == Some(state) && Inv(list, state)
        decreases Total(state.chunks)
      {
        var csi := state.chunks[i];
        trace := Record(i, state.(chunks := state.chunks[i := csi.(pc := Popping)]), list, old(state), trace);
        trace := LetIn(i, list, old(state), trace);

        csi := state.chunks[i];
        assert ChunkOk(csi);
        var partition := csi.list[0];
        csi := csi.(list := csi.list[1..], pc := Dumping(partition));
        trace := Record(i, state.(chunks := state.chunks[i := csi]), list, old(state), trace);
        trace := LetIn(i, list, old(state), trace);

        csi := state.chunks[i].(pc := Testing);
        trace := Record(i, System(state.chunks[i := csi], state.dumped + [partition]), list, old(state), trace);
        trace := LetIn(i, list, old(state), trace);
      }
      var csi := state.chunks[i].(pc := Left);
      trace := Record(i, state.(chunks := state.chunks[i := csi]), list, old(state), trace);
    }
  }
}

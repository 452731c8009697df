/** `chunk_step_item` as the code has it: one object whose fields are updated in place. Each
    method is a critical section of its mutex and does what the item functions say; the loop
    that runs them, under any interference of other threads, is a run of the protocol. */
module ChunkStepItem {
  import opened IntegerItem
  import opened IntegerProgress
  import opened IntegerProtocol
  import opened IntegerTheorems
  import opened KeySets
  import opened Optional
  import opened Words

  class Csi {
    var min: int
    var cursor: int
    var max: int
    var step: nat
    var status: Status
    var part: int
    var deep: nat
    var checkMin: bool
    var checkMax: bool
    var includeNull: bool

    function View(): Item
      reads this
    {
      Item(min, cursor, max, step, status, part, deep, checkMin, checkMax, includeNull)
    }

    constructor (c: Item)
      ensures View() == c
    {
      min, cursor, max, step := c.min, c.cursor, c.max, c.step;
      status, part, deep := c.status, c.part, c.deep;
      checkMin, checkMax, includeNull := c.checkMin, c.checkMax, c.includeNull;
    }

    /** Where `split_chunk_step` cuts in fixed-length mode, unless the cut does not move. */
    method FixedCut(t: Table) returns (moves: bool, mid: int)
      requires t.fixed && 0 < step
      ensures mid == SplitPoint(t, View())
      ensures moves <==> Split(t, View()).Some?
    {
      var base := if status == Dumping then cursor else min;
      mid := base / step * step + step * ((max / step - base / step) / 2 + 1);
      moves := base / step != mid / step && mid != base;
    }

    /** Where it cuts otherwise. */
    method MiddleCut(t: Table) returns (mid: int)
      requires !t.fixed
      ensures mid == SplitPoint(t, View())
    {
      var base := if status == Dumping then cursor else min;
      mid := Wrap(t.width, base + Half(max) - Half(base));
      if mid == base {
        mid := Wrap(t.width, mid + 1);
      }
    }

    /** `split_chunk_step` */
    method SplitChunkStep(t: Table) returns (child: Csi?)
      requires t.fixed ==> 0 < step
      modifies this
      ensures match Split(t, old(View()))
              case None => child == null && View() == old(View())
              case Some((parent, c)) => child != null && fresh(child) && child.View() == c && View() == parent
    {
      var moves, mid, newPart := true, 0, part;
      if t.fixed {
        moves, mid := FixedCut(t);
        newPart := mid / step + 1;
      } else {
        mid := MiddleCut(t);
        newPart := part + Pow2(deep);
      }
      if !moves {
        return null;
      }
      child := new Csi(Item(mid, mid, max, step, Assigned, newPart, deep + 1, true, true, false));
      checkMax := true;
      max := Wrap(t.width, mid - 1);
      deep := deep + 1;
    }

    /** `update_integer_max`: whether a key was found. */
    method UpdateIntegerMax(t: Table) returns (found: bool)
      modifies this`max
      ensures View() == UpdateMax(t, old(View()))
      ensures found <==> Range(t.keys, min, old(max)) != {}
    {
      var rows := Range(t.keys, min, max);
      if rows == {} {
        max := min;
        return false;
      }
      max := Greatest(rows);
      return true;
    }

    /** `update_integer_min` */
    method UpdateIntegerMin(t: Table) returns (found: bool)
      modifies this`min
      ensures View() == UpdateMin(t, old(View()))
      ensures found <==> Range(t.keys, old(min), max) != {}
    {
      var rows := Range(t.keys, min, max);
      if rows == {} {
        return false;
      }
      min := Least(rows);
      return true;
    }

    /** Stage 1: whether the range may hold a key. */
    method NarrowRange(t: Table) returns (go: bool)
      modifies this`min, this`max, this`checkMin, this`checkMax
      ensures View() == Narrow(t, old(View()))
      ensures go <==> !BothMissing(t, old(View()))
    {
      var cMin, cMax := true, true;
      if checkMax {
        cMax := UpdateIntegerMax(t);
        checkMax := false;
      }
      if checkMin {
        cMin := UpdateIntegerMin(t);
        checkMin := false;
      }
      go := cMin || cMax;
    }

    /** Stage 3 */
    method AimCursor(t: Table)
      modifies this`cursor
      ensures View() == SetCursor(t, old(View()))
    {
      if step > Wrap(Unsigned, Distance(t.width, max, min) + 1) {
        cursor := max;
      } else {
        cursor := Wrap(t.width, min + step - 1);
      }
    }

    /** Stages 1 to 3 of `process_integer_chunk_step`: whether there is something to write. */
    method BeginStep(t: Table) returns (go: bool)
      modifies this
      ensures Begin(t, old(View())) == if go then Aimed(View()) else Exhausted(View())
    {
      status := Dumping;
      go := true;
      if !t.fixed {
        go := NarrowRange(t);
        if !go {
          min := Wrap(t.width, max + 1);
          return;
        }
      }
      AimCursor(t);
    }

    /** Step 4.1: the step size follows the time the query took. */
    method AdjustStep(t: Table, measured: Option<nat>)
      modifies this`step, this`checkMin
      ensures View() == Adjust(t, old(View()), measured)
    {
      if measured.Some? {
        step := measured.value;
      } else {
        step := Wrap(Unsigned, step * 2);
        checkMin := true;
      }
      step := if t.maxStep != 0 && step > t.maxStep then t.maxStep else step;
      step := if t.minStep != 0 && step < t.minStep then t.minStep else step;
    }

    /** Step 6 */
    method TrimStep(t: Table)
      modifies this`step
      ensures View() == Trim(t, old(View()))
    {
      var span := Wrap(Unsigned, Distance(t.width, max, min) + 1);
      step := if step > span then span else step;
    }

    /** Steps 5 and 6 */
    method MovePastCursor(t: Table)
      modifies this`status, this`min, this`max, this`step
      ensures View() == Advance(t, old(View()))
    {
      if status != Completed {
        status := Assigned;
      }
      var next := Wrap(t.width, cursor + 1);
      if next < min {
        min := max;
        max := Wrap(t.width, max - 1);
      } else {
        min := next;
      }
      assert View() == Advance(t.(fixed := true), old(View()));
      if !t.fixed {
        TrimStep(t);
      }
    }

    /** The object is the i-th chunk of the system, and its owner is at pc. */
    predicate Is(s: System, i: nat, pc: Pc)
      reads this
    {
      i < |s.chunks| && s.chunks[i] == Chunk(View(), pc)
    }

    /** What the other threads do while the mutex is free: any steps but the owner's. */
    method Interfere(t: Table, s: System, i: nat, pc: Pc) returns (s': System, ghost trace: seq<Step>)
      requires Is(s, i, pc)
      modifies this
      ensures Run(t, s, trace) == Some(s') && Is(s', i, pc) && Others(trace, i)
    {
      var steps: seq<Step> := *;
      match Run(t, s, steps)
      case None =>
        return s, [];
      case Some(after) =>
        if Others(steps, i) && i < |after.chunks| && after.chunks[i].pc == pc {
          var c := after.chunks[i].item;
          min, cursor, max, step := c.min, c.cursor, c.max, c.step;
          status, part, deep := c.status, c.part, c.deep;
          checkMin, checkMax, includeNull := c.checkMin, c.checkMax, c.includeNull;
          return after, steps;
        }
        return s, [];
    }

    /** `process_integer_chunk_step`: the queries and critical sections of one step, with the
        other threads let in wherever the mutex is free. */
    method ProcessStep(t: Table, s: System, i: nat) returns (s': System, ghost trace: seq<Step>, pc: Pc)
      requires Is(s, i, Ready)
      modifies this
      ensures Run(t, s, trace) == Some(s') && trace != []
      ensures Is(s', i, pc) && (pc == Looping || pc == Leaving)
    {
      ghost var more;
      var go := BeginStep(t);
      s' := Do(t, s, Start(i));
      trace := [Start(i)];
      OneStep(t, s, Start(i));
      if !go {
        return s', trace, Leaving;
      }
      s', more := Interfere(t, s', i, Chosen);
      trace := Extend(t, s, trace, s', more);

      var adjust := !t.fixed && cursor != max;
      ghost var before := s';
      s' := Do(t, s', Inspect(i));
      OneStep(t, before, Inspect(i));
      trace := Extend(t, s, trace, s', [Inspect(i)]);
      s', more := Interfere(t, s', i, Writing(adjust));
      trace := Extend(t, s, trace, s', more);

      before := s';
      s' := Do(t, s', Write(i));
      OneStep(t, before, Write(i));
      trace := Extend(t, s, trace, s', [Write(i)]);
      if adjust {
        s', more := Interfere(t, s', i, Measuring);
        trace := Extend(t, s, trace, s', more);
        var measured: Option<nat> := *;
        AdjustStep(t, measured);
        before := s';
        s' := Do(t, s', Measure(i, measured));
        OneStep(t, before, Measure(i, measured));
        trace := Extend(t, s, trace, s', [Measure(i, measured)]);
      }
      s', more := Interfere(t, s', i, Written);
      trace := Extend(t, s, trace, s', more);

      before := s';
      MovePastCursor(t);
      s' := Do(t, s', Move(i));
      OneStep(t, before, Move(i));
      trace := Extend(t, s, trace, s', [Move(i)]);
      pc := Looping;
    }

    /** The owner's view of the loop test: the chunk is due another step, or to be completed. */
    predicate Tested(s: System, i: nat)
      reads this
    {
      i < |s.chunks| &&
      s.chunks[i] == if min <= max then Chunk(View(), Ready) else Chunk(View().(status := Completed), Done)
    }

    /** One step and the loop test after it. */
    method Round(t: Table, ghost lo: int, ghost hi: int, ghost step0: nat, s: System, i: nat)
      returns (s': System, ghost trace: seq<Step>)
      requires Spans(t, lo, hi, step0) && Inv(t, lo, hi, s) && Is(s, i, Ready)
      modifies this
      ensures Run(t, s, trace) == Some(s') && Inv(t, lo, hi, s') && Tested(s', i)
      ensures Budget(s') < Budget(s)
    {
      ghost var more;
      var pc;
      s', trace, pc := ProcessStep(t, s, i);
      s', more := Interfere(t, s', i, pc);
      trace := Extend(t, s, trace, s', more);
      includeNull := false;
      ghost var before := s';
      s' := Do(t, s', Test(i));
      OneStep(t, before, Test(i));
      trace := Extend(t, s, trace, s', [Test(i)]);
      RunKeepsInv(t, lo, hi, step0, s, trace);
      RunUsesBudget(t, lo, hi, step0, s, trace);
    }

    /** `process_integer_chunk`: the loop ends under every interference, with the chunk
        completed, and all of it was a run of the protocol. */
    method ProcessIntegerChunk(t: Table, ghost lo: int, ghost hi: int, ghost step0: nat, s: System, i: nat)
      returns (s': System, ghost trace: seq<Step>)
      requires Spans(t, lo, hi, step0) && Inv(t, lo, hi, s) && Is(s, i, Ready)
      modifies this
      ensures Run(t, s, trace) == Some(s') && Inv(t, lo, hi, s')
      ensures Is(s', i, Done) && status == Completed
    {
      s', trace := Round(t, lo, hi, step0, s, i);
      while min <= max
        invariant Run(t, s, trace) == Some(s') && Inv(t, lo, hi, s') && Tested(s', i)
        decreases Budget(s')
      {
        ghost var top, more := s', [];
        s', more := Interfere(t, s', i, Ready);
        trace := Extend(t, s, trace, s', more);
        RunKeepsInv(t, lo, hi, step0, top, more);
        RunUsesBudget(t, lo, hi, step0, top, more);
        s', more := Round(t, lo, hi, step0, s', i);
        trace := Extend(t, s, trace, s', more);
      }
      status := Completed;
    }
  }

  predicate Others(steps: seq<Step>, i: nat) {
    forall n :: 0 <= n < |steps| ==> steps[n].Probe? || steps[n].i != i
  }

  lemma OneStep(t: Table, s: System, step: Step)
    requires Enabled(s, step)
    ensures Run(t, s, [step]) == Some(Do(t, s, step))
  {
    assert [step][1..] == [];
    assert Run(t, Do(t, s, step), []) == Some(Do(t, s, step));
  }

  /** A run made longer. */
  ghost function Extend(t: Table, s: System, trace: seq<Step>, s': System, more: seq<Step>): (r: seq<Step>)
    requires Run(t, s, trace).Some? && Run(t, Run(t, s, trace).value, more) == Some(s')
    ensures Run(t, s, r) == Some(s') && |r| == |trace| + |more|
  {
    RunAppend(t, s, trace, more);
    trace + more
  }
}

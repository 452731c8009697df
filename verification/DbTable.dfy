/** `get_next_integer_chunk` as the code has it: a loop that takes chunks off the table's
    queue until one can be handed out, while the owners of the chunks go on dumping. */
module DbTable {
  import opened IntegerItem
  import opened IntegerProtocol
  import opened IntegerTheorems
  import opened Optional

  /** Steps of the owners of chunks. */
  predicate OfOwners(steps: seq<Step>) {
    forall n :: 0 <= n < |steps| ==> !steps[n].Probe?
  }

  /** Owners leave the queue and the list of chunks handed out alone. */
  lemma {:induction false} OwnersKeepQueue(t: Table, s: System, steps: seq<Step>)
    requires OfOwners(steps) && Run(t, s, steps).Some?
    ensures var s' := Run(t, s, steps).value;
            s'.queue == s.queue && s'.handed == s.handed && |s'.chunks| == |s.chunks|
    decreases |steps|
  {
    if steps != [] {
      OwnersKeepQueue(t, Do(t, s, steps[0]), steps[1..]);
    }
  }

  class Dbt {
    var state: System

    /** What the owners of the chunks do while the builder holds no chunk's mutex. */
    method Interfere(t: Table) returns (ghost trace: seq<Step>)
      modifies this
      ensures Run(t, old(state), trace) == Some(state) && OfOwners(trace)
    {
      var steps: seq<Step> := *;
      match Run(t, state, steps)
      case None =>
        return [];
      case Some(after) =>
        if OfOwners(steps) {
          state := after;
          return steps;
        }
        return [];
    }

    /** A chunk no worker was given before, or the news that there is none and that every chunk
        of the table has been handed out, in which case the table leaves the builder's list. */
    method GetNextIntegerChunk(t: Table, ghost lo: int, ghost hi: int, ghost step0: nat)
      returns (got: Option<nat>, ghost trace: seq<Step>)
      requires Spans(t, lo, hi, step0) && Inv(t, lo, hi, state)
      modifies this
      ensures Run(t, old(state), trace) == Some(state) && Inv(t, lo, hi, state)
      ensures match got
              case Some(n) =>
                && n < |state.chunks| && state.chunks[n].pc == Ready
                && n !in old(state.handed) && state.handed == old(state.handed) + [n]
              case None =>
                && state.queue == [] && state.handed == old(state.handed)
                && (forall i :: 0 <= i < |state.chunks| ==> i in state.handed)
    {
      trace := Interfere(t);
      OwnersKeepQueue(t, old(state), trace);
      RunKeepsInv(t, lo, hi, step0, old(state), trace);
      while state.queue != []
        invariant Run(t, old(state), trace) == Some(state) && Inv(t, lo, hi, state)
        invariant state.handed == old(state.handed)
        decreases |state.queue|
      {
        var i := state.queue[0];
        assert i in state.queue;
        var n := |state.chunks|;
        var turn := TakeTurn(t, state.chunks[i]);
        ghost var before := state;
        TurnOk(t, lo, hi, state.chunks[i]);
        StepKeepsInv(t, lo, hi, step0, state, Probe);
        trace := RunLonger(t, old(state), trace, state);
        match turn
        case Give(ch) =>
          state := state.(chunks := state.chunks[i := ch], queue := state.queue[1..] + [i],
                          handed := state.handed + [i]);
          return Some(i), trace;
        case Cut(parent, child) =>
          state := state.(chunks := state.chunks[i := parent] + [child],
                          queue := state.queue[1..] + [i, n], handed := state.handed + [n]);
          return Some(n), trace;
        case Drop(ch) =>
          state := state.(chunks := state.chunks[i := ch], queue := state.queue[1..]);
          before := state;
          ghost var more := Interfere(t);
          OwnersKeepQueue(t, before, more);
          RunKeepsInv(t, lo, hi, step0, before, more);
          RunAppend(t, old(state), trace, more);
          trace := trace + more;
      }
      got := None;
    }
  }

  /** A run with one more turn of the builder. */
  lemma RunLonger(t: Table, s: System, trace: seq<Step>, s': System) returns (longer: seq<Step>)
    requires Run(t, s, trace) == Some(s') && Enabled(s', Probe)
    ensures longer == trace + [Probe] && Run(t, s, longer) == Some(DoProbe(t, s'))
  {
    longer := trace + [Probe];
    RunAppend(t, s, trace, [Probe]);
    assert [Probe][1..] == [];
    assert Run(t, Do(t, s', Probe), []) == Some(Do(t, s', Probe));
  }
}

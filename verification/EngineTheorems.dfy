/** What the whole engine achieves, and the one way it can come to a halt. */
module EngineTheorems {
  import Builder
  import BuilderTheorems
  import IntegerProtocol
  import IntegerTheorems
  import opened Engine
  import opened EngineSafety
  import opened Optional

  ghost predicate Reachable(c: Builder.Config, src: seq<Source>, s: State) {
    0 < c.cap && exists i, steps :: Initial(c, src, i) && Run(c, src, i, steps) == Some(s)
  }

  /** A reachable state of the engine shows a reachable state of the frame. */
  lemma ReachableInv(c: Builder.Config, src: seq<Source>, s: State)
    requires Reachable(c, src, s)
    ensures Inv(c, src, s) && BuilderTheorems.Reachable(c, s.b)
  {
    var i, steps :| Initial(c, src, i) && Run(c, src, i, steps) == Some(s);
    InitialInv(c, src, i);
    RunKeepsInv(c, src, i, steps);
    RunProjects(c, src, i, steps);
  }

  // ----- all tables are dumped

  /** When all workers have left, every table cut by an integer key was dumped: each of its keys exactly
      once, and the NULL keys once if there are any. Every chunk ever made was handed out, once. */
  lemma IntegerTableDumped(c: Builder.Config, src: seq<Source>, s: State, t: nat)
    requires Reachable(c, src, s) && BuilderTheorems.AllGone(s.b) && t < |src| && src[t].IntegerKeys?
    ensures t < |s.details| && t < |s.b.tables| && s.details[t].Integers?
    ensures var sys := s.details[t].sys;
            && sys.dumped == multiset(src[t].t.keys) && sys.nulls == (if src[t].t.hasNull then 1 else 0)
            && IntegerProtocol.Distinct(sys.handed) && (forall i :: i in sys.handed <==> 0 <= i < |sys.chunks|)
            && |sys.handed| == s.b.tables[t].made
  {
    ReachableInv(c, src, s);
    LeftBehind(c, src, s, t);
    var sys := s.details[t].sys;
    assert IntegersOk(s, t, s.details[t], src[t]);
    forall i | 0 <= i < |sys.chunks| ensures sys.chunks[i].pc == IntegerProtocol.Done && i in sys.handed {
      assert sys.chunks[i].pc != IntegerProtocol.Unhanded;
      assert i in sys.handed;
      var n :| 0 <= n < |sys.handed| && sys.handed[n] == i;
      BuilderTheorems.EveryChunkDumpedOnce(c, s.b, t, n);
    }
    IntegerTheorems.DoneMeansDumped(src[t].t, src[t].lo, src[t].hi, sys);
  }

  /** And every chunk of a table cut by a string key was handed out and completed. */
  lemma StringTableDumped(c: Builder.Config, src: seq<Source>, s: State, t: nat)
    requires Reachable(c, src, s) && BuilderTheorems.AllGone(s.b) && t < |src| && src[t].StringKeys?
    ensures t < |s.details| && t < |s.b.tables| && s.details[t].Strings?
    ensures |s.details[t].lives| == s.b.tables[t].made
    ensures forall n :: 0 <= n < |s.details[t].lives| ==> s.details[t].lives[n] == Completed && s.b.done[(t, n)] == 1
  {
    ReachableInv(c, src, s);
    LeftBehind(c, src, s, t);
    assert StringsOk(s, t, s.details[t]);
    forall n | 0 <= n < |s.details[t].lives|
      ensures s.details[t].lives[n] == Completed && s.b.done[(t, n)] == 1
    {
      BuilderTheorems.EveryChunkDumpedOnce(c, s.b, t, n);
    }
  }

  lemma LeftBehind(c: Builder.Config, src: seq<Source>, s: State, t: nat)
    requires Inv(c, src, s) && BuilderTheorems.Reachable(c, s.b) && BuilderTheorems.AllGone(s.b) && t < |src|
    ensures t !in s.b.list && s.b.tables[t].status == Builder.Ready && DetailOk(s, t, s.details[t], src[t])
  {
    BuilderTheorems.EveryChunkDumpedOnce(c, s.b, t, 0);
    BuilderTheorems.DefinedOnce(c, s.b, t);
    assert DetailOk(s, t, s.details[t], src[t]);
  }

  // ----- a thread can move

  /** The builder waits for a signal that was given before, or is never given. */
  predicate Hung(s: State) {
    && s.fetch.Awaiting? && !s.fetch.woken && Builder.Visiting(s.b) && Here(s.b) < |s.details|
    && s.details[Here(s.b)].Strings? && s.fetch.n < |s.details[Here(s.b)].lives|
    && BegunLife(s.details[Here(s.b)].lives[s.fetch.n])
  }

  ghost predicate CanStep(c: Builder.Config, src: seq<Source>, s: State) {
    exists step :: Enabled(c, src, s, step)
  }

  /** A worker at a string chunk can change its status, or end its job unless the builder holds the table. */
  lemma StringWorkerMoves(c: Builder.Config, src: seq<Source>, s: State, i: nat)
    requires Inv(c, src, s) && i < |s.b.workers| && HasJob(s.b.workers[i]) && s.b.workers[i].job.Dump?
    requires var t := s.b.workers[i].job.t; t < |src| && s.details[t].Strings? && (s.left[i] > 0 || !Locked(s, t))
    ensures CanStep(c, src, s)
  {
    var w := s.b.workers[i];
    var t := w.job.t;
    assert WorkerLifeOk(s, i) && Builder.WorkerOk(c, s.b, w) && DetailOk(s, t, s.details[t], src[t]);
    if s.left[i] > 0 {
      assert w.Working?;
      assert Enabled(c, src, s, Live(i, false));
    } else {
      assert Enabled(c, src, s, Frame(Builder.WorkerStep(i)));
    }
  }

  /** What the owner of a chunk does next. */
  function OwnerStep(sys: IntegerProtocol.System, i: nat): (step: IntegerProtocol.Step)
    requires i < |sys.chunks|
    ensures sys.chunks[i].pc != IntegerProtocol.Done && sys.chunks[i].pc != IntegerProtocol.Unhanded ==>
              IntegerProtocol.Enabled(sys, step) && !step.Probe? && step.i == i
  {
    match sys.chunks[i].pc
    case Ready => IntegerProtocol.Start(i)
    case Chosen => IntegerProtocol.Inspect(i)
    case Writing(_) => IntegerProtocol.Write(i)
    case Measuring => IntegerProtocol.Measure(i, None)
    case Written => IntegerProtocol.Move(i)
    case _ => IntegerProtocol.Test(i)
  }

  /** And so can a worker at an integer chunk. */
  lemma IntegerWorkerMoves(c: Builder.Config, src: seq<Source>, s: State, i: nat)
    requires Inv(c, src, s) && i < |s.b.workers| && HasJob(s.b.workers[i]) && s.b.workers[i].job.Dump?
    requires var t := s.b.workers[i].job.t; t < |src| && s.details[t].Integers? && !Locked(s, t)
    ensures CanStep(c, src, s)
  {
    var t, n := s.b.workers[i].job.t, s.b.workers[i].job.n;
    assert DetailOk(s, t, s.details[t], src[t]);
    CarriedOnce(c, s.b, i, t, n);
    var sys := s.details[t].sys;
    var k := sys.handed[n];
    assert k in sys.handed;
    if sys.chunks[k].pc == IntegerProtocol.Done {
      assert Enabled(c, src, s, Frame(Builder.WorkerStep(i)));
    } else {
      assert Enabled(c, src, s, Own(i, OwnerStep(sys, k)));
    }
  }

  /** A worker that could move in the frame can move, unless the builder holds its table. */
  lemma WorkerMoves(c: Builder.Config, src: seq<Source>, s: State, i: nat)
    requires Inv(c, src, s) && i < |s.b.workers| && Builder.WorkerEnabled(s.b, s.b.workers[i]) && s.fetch == Out
    ensures CanStep(c, src, s)
  {
    var w := s.b.workers[i];
    assert Builder.WorkerOk(c, s.b, w);
    if HasJob(w) && w.job.Dump? && s.details[w.job.t].Strings? {
      StringWorkerMoves(c, src, s, i);
    } else if HasJob(w) && w.job.Dump? && s.details[w.job.t].Integers? {
      IntegerWorkerMoves(c, src, s, i);
    } else {
      assert Enabled(c, src, s, Frame(Builder.WorkerStep(i)));
    }
  }

  /** The loop of get_next finds something to do, or is over. */
  lemma FetchMoves(s: State, t: nat, d: Detail, src: Source)
    requires t < |s.b.tables| && DetailOk(s, t, d, src)
    ensures Passes(src, d) || Answers(src, d, true) || Answers(src, d, false)
  {
    if d.Strings? && d.queue != [] { assert d.queue[0] in d.queue; }
    if d.Integers? && d.sys.queue != [] { assert d.sys.queue[0] in d.sys.queue; }
  }

  /** The builder inside get_next can go on, unless it waits. */
  lemma BuilderAsks(c: Builder.Config, src: seq<Source>, s: State)
    requires Inv(c, src, s) && Asks(c, s.b) && !s.fetch.Awaiting?
    ensures CanStep(c, src, s)
  {
    var t := Here(s.b);
    assert DetailOk(s, t, s.details[t], src[t]);
    FetchMoves(s, t, s.details[t], src[t]);
    if Passes(src[t], s.details[t]) {
      assert Enabled(c, src, s, Pull);
    } else {
      var found := Answers(src[t], s.details[t], true);
      assert Enabled(c, src, s, Frame(Builder.BuilderStep(found)));
    }
  }

  lemma {:induction false} TallyFinds(ws: seq<Builder.Worker>, m: Builder.Meter) returns (i: nat)
    requires Builder.Tally(ws, m) > 0
    ensures i < |ws| && Builder.Reading(ws[i], m) > 0
  {
    if Builder.Reading(ws[0], m) > 0 {
      i := 0;
    } else {
      i := TallyFinds(ws[1..], m);
      i := i + 1;
    }
  }

  lemma {:induction false} NotDeferred(c: Builder.Config, b: Builder.State, q: seq<Builder.Job>, t: nat, n: nat)
    requires forall a :: 0 <= a < |q| ==> Builder.JobOk(c, b, q[a], true)
    requires t < |b.tables| && b.tables[t].kind != Builder.ByInteger
    ensures Builder.Jobs(q, Builder.Holds(t, n)) == 0
  {
    if q != [] {
      assert Builder.JobOk(c, b, q[0], true);
      NotDeferred(c, b, q[1..], t, n);
    }
  }

  lemma {:induction false} JobsGive(q: seq<Builder.Job>, m: Builder.Meter) returns (a: nat)
    requires Builder.Jobs(q, m) > 0
    ensures a < |q| && Builder.JobReading(q[a], m) > 0
  {
    if Builder.JobReading(q[0], m) > 0 {
      a := 0;
    } else {
      a := JobsGive(q[1..], m);
      a := a + 1;
    }
  }

  /** Chunk n of table t is on its way through the queue. */
  predicate Queued(b: Builder.State, a: nat, t: nat, n: nat) {
    a < |b.queue| && b.queue[a] == Builder.Dump(t, n, false)
  }

  predicate WorkedOn(b: Builder.State, i: nat, t: nat, n: nat) {
    i < |b.workers| && b.workers[i] == Builder.Working(Builder.Dump(t, n, false))
  }

  /** While the builder scans, a string chunk that was handed out and is not completed is in the queue
      or with a worker. */
  lemma UndoneIsHeld(c: Builder.Config, src: seq<Source>, s: State, t: nat, n: nat) returns (k: nat)
    requires Inv(c, src, s) && t < |src| && s.details[t].Strings? && s.b.builder.Scanning?
    requires n < s.b.tables[t].made && s.details[t].lives[n] != Completed
    ensures Queued(s.b, k, t, n) || WorkedOn(s.b, k, t, n)
  {
    assert DetailOk(s, t, s.details[t], src[t]);
    Held(c, s.b, t, n);
    NotDeferred(c, s.b, s.b.defer, t, n);
    if Builder.Jobs(s.b.queue, Builder.Holds(t, n)) > 0 {
      k := JobsGive(s.b.queue, Builder.Holds(t, n));
      assert Builder.JobOk(c, s.b, s.b.queue[k], false);
    } else {
      k := TallyFinds(s.b.workers, Builder.Holds(t, n));
      assert Builder.WorkerOk(c, s.b, s.b.workers[k]);
    }
  }

  /** A builder that waits for a chunk that has not begun is woken by some worker's next steps. */
  lemma AwaitedMoves(c: Builder.Config, src: seq<Source>, s: State)
    requires Inv(c, src, s) && s.fetch.Awaiting? && !Hung(s)
    ensures CanStep(c, src, s)
  {
    var t, n := Here(s.b), s.fetch.n;
    assert DetailOk(s, t, s.details[t], src[t]);
    if s.fetch.woken {
      assert Enabled(c, src, s, Wake);
    } else {
      var k := UndoneIsHeld(c, src, s, t, n);
      if Queued(s.b, k, t, n) {
        var i := TallyFinds(s.b.workers, Builder.Waiters);
        assert Enabled(c, src, s, Frame(Builder.WorkerStep(i)));
      } else {
        assert WorkerLifeOk(s, k);
        StringWorkerMoves(c, src, s, k);
      }
    }
  }

  /** As long as a worker has not left, some thread can move, unless the builder is hung up. */
  lemma NeverStuck(c: Builder.Config, src: seq<Source>, s: State)
    requires Reachable(c, src, s) && !BuilderTheorems.AllGone(s.b) && !Hung(s)
    ensures CanStep(c, src, s)
  {
    ReachableInv(c, src, s);
    if s.fetch.Awaiting? {
      AwaitedMoves(c, src, s);
    } else if Asks(c, s.b) {
      BuilderAsks(c, src, s);
    } else {
      BuilderTheorems.NeverStuck(c, s.b);
      var step :| Builder.Enabled(s.b, step);
      match step
      case BuilderStep(found) => assert Enabled(c, src, s, Frame(step));
      case WorkerStep(i) => WorkerMoves(c, src, s, i);
    }
  }

  // ----- a builder that is hung up

  lemma HungAtFrame(c: Builder.Config, src: seq<Source>, s: State, i: nat)
    requires Inv(c, src, s) && Hung(s) && WorkerEnabled(src, s, i)
    ensures var r := DoWorker(src, s, i); Hung(r) && r.fetch == s.fetch && r.b.builder == s.b.builder
  {
    assert Builder.WorkerOk(c, s.b, s.b.workers[i]);
    WorkerKeepsAsking(c, src, s, i);
  }

  /** A worker that begins its chunk now is not at the one waited for. */
  lemma HungAtLive(c: Builder.Config, src: seq<Source>, s: State, i: nat, grow: bool)
    requires Inv(c, src, s) && Hung(s) && LiveEnabled(s, i)
    ensures var r := DoLive(s, i, grow); Hung(r) && r.fetch == s.fetch && r.b.builder == s.b.builder
  {
    assert WorkerLifeOk(s, i);
  }

  /** Nobody changes the builder's mind. */
  lemma HungStays(c: Builder.Config, src: seq<Source>, s: State, step: Step)
    requires Inv(c, src, s) && Hung(s) && Enabled(c, src, s, step)
    ensures var r := Do(c, src, s, step); Hung(r) && r.fetch == s.fetch && r.b.builder == s.b.builder
  {
    match step
    case Frame(BuilderStep(_)) => assert false;
    case Frame(WorkerStep(i)) => HungAtFrame(c, src, s, i);
    case Live(i, grow) => HungAtLive(c, src, s, i, grow);
    case _ =>
  }

  /** Once hung up it stays so for ever: it sends no reply, and no shutdown job either, so no worker
      ever leaves. */
  lemma {:induction false} HungForever(c: Builder.Config, src: seq<Source>, s: State, steps: seq<Step>)
    requires Inv(c, src, s) && 0 < c.cap && Hung(s) && Run(c, src, s, steps).Some?
    ensures var r := Run(c, src, s, steps).value;
            && Hung(r) && r.fetch == s.fetch && r.b.builder == s.b.builder
            && forall i :: 0 <= i < |r.b.workers| ==> r.b.workers[i] != Builder.Gone
    decreases |steps|
  {
    if steps != [] {
      StepKeepsInv(c, src, s, steps[0]);
      HungStays(c, src, s, steps[0]);
      HungForever(c, src, Do(c, src, s, steps[0]), steps[1..]);
    } else {
      BuilderTheorems.NobodyPast(s.b.workers, 1);
    }
  }

  // ----- when it cannot happen

  /** No table is cut by a string key, or its chunks are dumped one at a time. */
  predicate OneAtATime(c: Builder.Config, src: seq<Source>) {
    c.workers == 1 || c.cap == 1 || forall t :: 0 <= t < |src| ==> !src[t].StringKeys?
  }

  lemma OneWorkerWaits(c: Builder.Config, b: Builder.State)
    requires Builder.Inv(c, b) && c.workers == 1 && Builder.Holding(b.builder)
    ensures b.queue == [] && b.workers[0] == Builder.Waiting
  {
    assert Builder.Tally(b.workers[1..], Builder.Waiters) == 0;
  }

  lemma NoneCharged(c: Builder.Config, b: Builder.State, k: nat, t: nat, n: nat)
    requires Builder.Inv(c, b) && Asks(c, b) && c.cap == 1 && t == Here(b)
    ensures !Queued(b, k, t, n) && !WorkedOn(b, k, t, n)
  {
    assert Builder.TableOk(c, b, t);
    assert t in b.list;
    if Queued(b, k, t, n) { Builder.JobsFinds(b.queue, k, Builder.Charges(t)); }
    if WorkedOn(b, k, t, n) { Builder.TallyAfterUpdate(b.workers, k, b.workers[k], Builder.Charges(t)); }
  }

  /** The builder comes upon no chunk that is being dumped. */
  lemma PullFindsNone(c: Builder.Config, src: seq<Source>, s: State)
    requires Inv(c, src, s) && OneAtATime(c, src) && PullEnabled(c, src, s)
    ensures !DoPull(c, src, s).fetch.Awaiting?
  {
    var t := Here(s.b);
    var d := s.details[t];
    assert DetailOk(s, t, d, src[t]);
    if d.Strings? && d.lives[d.queue[0]] != Completed {
      var n := d.queue[0];
      var k := UndoneIsHeld(c, src, s, t, n);
      if c.cap == 1 { NoneCharged(c, s.b, k, t, n); } else { OneWorkerWaits(c, s.b); }
      assert false;
    }
  }

  lemma {:induction false} NeverAwaits(c: Builder.Config, src: seq<Source>, s: State, steps: seq<Step>)
    requires Inv(c, src, s) && 0 < c.cap && OneAtATime(c, src) && !s.fetch.Awaiting? && Run(c, src, s, steps).Some?
    ensures !Run(c, src, s, steps).value.fetch.Awaiting?
    decreases |steps|
  {
    if steps != [] {
      StepKeepsInv(c, src, s, steps[0]);
      if steps[0].Pull? { PullFindsNone(c, src, s); }
      NeverAwaits(c, src, Do(c, src, s, steps[0]), steps[1..]);
    }
  }
}

/** What holds of every run of the builder and the workers, deferred chunks or not. */
module BuilderTheorems {
  import opened Builder
  import opened Optional

  ghost predicate Fresh(table: Table) {
    table.status == Undefined && table.running == 0 && table.made == 0 && table.defined == 0
  }

  /** Every table is in the list, once, and none was looked at. */
  ghost predicate Initial(c: Config, s: State) {
    && 0 < c.workers == |s.workers| && s.builder == Idle
    && (forall i :: 0 <= i < |s.workers| ==> s.workers[i] == Asking)
    && (forall t :: 0 <= t < |s.tables| ==> Fresh(s.tables[t]) && t in s.list)
    && (forall a :: 0 <= a < |s.list| ==> s.list[a] < |s.tables|)
    && (forall a, b :: 0 <= a < b < |s.list| ==> s.list[a] != s.list[b])
    && s.requests == 0 && s.queue == [] && s.defer == [] && s.done == multiset{}
  }

  lemma InitialInv(c: Config, s: State)
    requires Initial(c, s)
    ensures Inv(c, s)
  {
    NoReading(s.workers, Waiters);
    NoReading(s.workers, Past(1));
    NoReading(s.workers, Past(2));
    forall t | 0 <= t < |s.tables| ensures TableOk(c, s, t) {
      NoReading(s.workers, Defines(t));
      NoReading(s.workers, Charges(t));
      NoReading(s.workers, Late(t));
      assert Fresh(s.tables[t]);
    }
    forall t, n: nat | 0 <= t < |s.tables| ensures ChunkOk(s, t, n) {
      NoReading(s.workers, Holds(t, n));
      assert Fresh(s.tables[t]);
    }
  }

  lemma {:induction false} RunKeepsInv(c: Config, s: State, steps: seq<Step>, t: State)
    requires Inv(c, s) && Run(c, s, steps) == Some(t) && 0 < c.cap
    ensures Inv(c, t)
    decreases |steps|
  {
    if steps != [] {
      StepKeepsInv(c, s, steps[0]);
      RunKeepsInv(c, Do(c, s, steps[0]), steps[1..], t);
    }
  }

  ghost predicate Reachable(c: Config, s: State) {
    0 < c.cap && exists i, steps :: Initial(c, i) && Run(c, i, steps) == Some(s)
  }

  lemma ReachableInv(c: Config, s: State)
    requires Reachable(c, s)
    ensures Inv(c, s)
  {
    var i, steps :| Initial(c, i) && Run(c, i, steps) == Some(s);
    InitialInv(c, i);
    RunKeepsInv(c, i, steps, s);
  }

  // ----- tokens

  /** Until the builder stops, the workers that wait are as many as the tokens in the request queue,
      the token the builder has in hand, and the replies in the queue. */
  lemma TokensConserved(c: Config, s: State)
    requires Reachable(c, s) && Active(s.builder)
    ensures Tally(s.workers, Waiters) == s.requests + (if Holding(s.builder) then 1 else 0) + |s.queue|
  {
    ReachableInv(c, s);
  }

  predicate AllGone(s: State) { forall i :: 0 <= i < |s.workers| ==> s.workers[i] == Gone }

  /** No worker can move. */
  ghost predicate Quiet(s: State) {
    forall i :: 0 <= i < |s.workers| ==> !WorkerEnabled(s, s.workers[i])
  }

  /** Without the builder's help, workers that cannot move have left the queue when the builder has
      sent all its shutdown jobs; before it stops, all of them wait. */
  lemma QuietWorkers(c: Config, s: State)
    requires Inv(c, s) && Quiet(s)
    ensures s.builder == Finished ==> AllGone(s)
    ensures Active(s.builder) ==> s.requests > 0 || Holding(s.builder)
  {
    assert forall i :: 0 <= i < |s.workers| ==> WorkerOk(c, s, s.workers[i]) && !WorkerEnabled(s, s.workers[i]);
    TallyIsAll(s.workers, 1);
    TallyIsAll(s.workers, 2);
    if Active(s.builder) {
      NobodyPast(s.workers, 1);
      AllWait(s.workers);
      assert s.workers[0] == Waiting;
    }
  }

  lemma NobodyPast(ws: seq<Worker>, k: nat)
    requires Tally(ws, Past(k)) == 0
    ensures forall i :: 0 <= i < |ws| ==> Stage(ws[i]) < k
  {
    forall i | 0 <= i < |ws| ensures Stage(ws[i]) < k { TallyAfterUpdate(ws, i, ws[i], Past(k)); }
  }

  lemma {:induction false} AllWait(ws: seq<Worker>)
    requires forall i :: 0 <= i < |ws| ==> ws[i] == Waiting
    ensures Tally(ws, Waiters) == |ws|
  {
    if ws != [] { AllWait(ws[1..]); }
  }

  /** As long as a worker has not left, some thread can move. */
  lemma NeverStuck(c: Config, s: State)
    requires Reachable(c, s) && !AllGone(s)
    ensures exists step :: Enabled(s, step)
  {
    ReachableInv(c, s);
    if forall step :: !Enabled(s, step) {
      assert !Enabled(s, BuilderStep(false));
      forall i | 0 <= i < |s.workers| ensures !WorkerEnabled(s, s.workers[i]) {
        assert !Enabled(s, WorkerStep(i));
      }
      QuietWorkers(c, s);
      assert false;
    }
  }

  // ----- tables and chunks

  /** The builder stops with an empty list, and then every table was defined, once. */
  lemma DefinedOnce(c: Config, s: State, t: nat)
    requires Reachable(c, s) && !Active(s.builder) && t < |s.tables|
    ensures s.list == []
    ensures s.tables[t].status == Ready && s.tables[t].defined == 1
  {
    ReachableInv(c, s);
    assert TableOk(c, s, t);
  }

  /** Never is a table defined twice, nor its definition asked for while one is under way. */
  lemma NeverDefinedTwice(c: Config, s: State, t: nat)
    requires Reachable(c, s) && t < |s.tables|
    ensures s.tables[t].defined + Total(s, Defines(t)) <= 1
    ensures s.tables[t].defined + Total(s, Defines(t)) == 0 <==> s.tables[t].status == Undefined
  {
    ReachableInv(c, s);
    assert TableOk(c, s, t);
  }

  /** current_threads_running never exceeds max_threads_per_table. It is the number of the table's
      chunk jobs under way (of their JOB_DEFERs where chunks are deferred) as long as the table is in
      the list, and for ever if it is neither dumped whole nor deferred; else it falls behind by what
      is taken off without having been added. */
  lemma ThreadsCapped(c: Config, s: State, t: nat)
    requires Reachable(c, s) && t < |s.tables|
    ensures s.tables[t].running <= c.cap
    ensures s.tables[t].running == Total(s, Charges(t)) - NeverAdded(c, s, t)
    ensures t in s.list || !(s.tables[t].kind == WholeTable || Deferred(c, s.tables[t])) ==>
              s.tables[t].running == Total(s, Charges(t))
  {
    ReachableInv(c, s);
    assert TableOk(c, s, t);
  }

  /** A chunk is handed out to one worker at a time, and dumped once at most. */
  lemma ChunkInOnePlace(c: Config, s: State, t: nat, n: nat)
    requires Reachable(c, s) && t < |s.tables|
    ensures Total(s, Holds(t, n)) + s.done[(t, n)] == if n < s.tables[t].made then 1 else 0
  {
    ReachableInv(c, s);
    assert ChunkOk(s, t, n);
  }

  /** When all workers have left, nothing is queued, and each chunk that was handed out was dumped
      exactly once. */
  lemma EveryChunkDumpedOnce(c: Config, s: State, t: nat, n: nat)
    requires Reachable(c, s) && AllGone(s) && t < |s.tables|
    ensures s.queue == [] && s.defer == [] && (s.builder == Finished || s.builder == StoppingLate(c.workers))
    ensures s.done[(t, n)] == if n < s.tables[t].made then 1 else 0
  {
    ReachableInv(c, s);
    TallyIsAll(s.workers, 1);
    TallyIsAll(s.workers, 2);
    AllStops(s.queue);
    AllStops(s.defer);
    assert ChunkOk(s, t, n);
    NoReading(s.workers, Holds(t, n));
  }

  // ----- no retry for ever

  /** When no worker can move, no table of the list is being defined or has a running thread. */
  lemma QuietTables(c: Config, s: State, t: nat)
    requires Inv(c, s) && Quiet(s) && Active(s.builder) && t in s.list
    requires s.builder == Idle || (s.builder.Scanning? && !s.builder.flag)
    ensures t < |s.tables| && s.tables[t].status != Defining && s.tables[t].running == 0
  {
    assert TableOk(c, s, t);
    QuietWaits(c, s);
    NoReading(s.workers, Defines(t));
    NoReading(s.workers, Charges(t));
    NoLate(s.defer, t);
  }

  lemma QuietWaits(c: Config, s: State)
    requires Inv(c, s) && Quiet(s) && Active(s.builder)
    ensures s.queue == [] && forall i :: 0 <= i < |s.workers| ==> s.workers[i] == Waiting
  {
    assert forall i :: 0 <= i < |s.workers| ==> WorkerOk(c, s, s.workers[i]) && !WorkerEnabled(s, s.workers[i]);
    NobodyPast(s.workers, 1);
    assert s.workers[0] == Waiting;
  }

  lemma {:induction false} NoLate(q: seq<Job>, t: nat)
    requires forall a :: 0 <= a < |q| ==> q[a] == Shutdown || (q[a].Dump? && q[a].late)
    ensures Jobs(q, Defines(t)) == Jobs(q, Charges(t)) == 0
  {
    if q != [] { NoLate(q[1..], t); }
  }

  predicate Decided(b: Builder) { b.Answering? || b.AnsweringLate? || b == Stopping(0) }

  function BuilderSteps(answers: seq<bool>): seq<Step> {
    if answers == [] then [] else [BuilderStep(answers[0])] + BuilderSteps(answers[1..])
  }

  function StepsLeft(c: Config, s: State): int
    requires s.builder.Scanning?
  {
    |s.list| + c.cap - s.builder.level
  }

  /** Such a scan finds nothing to come back for. */
  lemma QuietLook(c: Config, s: State, found: bool)
    requires Inv(c, s) && 0 < c.cap && Quiet(s) && s.builder.Scanning? && !s.builder.flag
    ensures var t := DoBuilder(c, s, found);
            Decided(t.builder) ||
            (t.builder.Scanning? && !t.builder.flag && StepsLeft(c, t) == StepsLeft(c, s) - 1
             && t.workers == s.workers && t.queue == s.queue && t.defer == s.defer)
  {
    if s.list != [] { QuietTables(c, s, s.list[0]); }
  }

  lemma QuietStays(s: State, t: State)
    requires Quiet(s) && t.workers == s.workers && t.queue == s.queue && t.defer == s.defer
    requires |t.tables| == |s.tables|
    ensures Quiet(t)
  {
    assert forall i :: 0 <= i < |s.workers| ==> !WorkerEnabled(s, s.workers[i]);
  }

  /** A scan that started while no worker could move ends with a reply or with the shutdown jobs,
      never with a retry: whatever held the builder up is over. */
  lemma {:induction false} QuietScanDecides(c: Config, s: State, answers: seq<bool>) returns (k: nat, t: State)
    requires Inv(c, s) && 0 < c.cap && Quiet(s) && s.builder.Scanning? && !s.builder.flag
    requires |answers| == StepsLeft(c, s)
    ensures k <= |answers| && Run(c, s, BuilderSteps(answers[..k])) == Some(t) && Decided(t.builder)
    decreases |answers|
  {
    t := DoBuilder(c, s, answers[0]);
    QuietLook(c, s, answers[0]);
    BuilderKeepsInv(c, s, answers[0]);
    k := 0;
    if !Decided(t.builder) {
      QuietStays(s, t);
      k, t := QuietScanDecides(c, t, answers[1..]);
    }
    RunFirst(c, s, answers, k);
    k := k + 1;
  }

  lemma RunFirst(c: Config, s: State, answers: seq<bool>, k: nat)
    requires k < |answers| && BuilderEnabled(s)
    ensures Run(c, s, BuilderSteps(answers[..k + 1])) == Run(c, DoBuilder(c, s, answers[0]), BuilderSteps(answers[1..][..k]))
  {
    assert answers[..k + 1][0] == answers[0] && answers[..k + 1][1..] == answers[1..][..k];
    var steps := BuilderSteps(answers[..k + 1]);
    assert steps[0] == BuilderStep(answers[0]) && steps[1..] == BuilderSteps(answers[1..][..k]);
  }

  // ----- the shutdown jobs release all workers

  function BuilderToil(c: Config, b: Builder): int {
    match b
    case Stopping(k) => 2 * c.workers + 2 - k
    case StoppingLate(k) => c.workers + 1 - k
    case _ => 0
  }

  /** What is left to do once the builder has stopped. */
  function ToilLeft(c: Config, s: State): int {
    BuilderToil(c, s.builder) + Jobs(s.queue, Toil) + Jobs(s.defer, Toil) + Tally(s.workers, Toil)
  }

  lemma StopToils(c: Config, s: State, found: bool)
    requires BuilderEnabled(s) && !Active(s.builder) && StopsOk(c, s)
    ensures !Active(DoBuilder(c, s, found).builder) && ToilLeft(c, DoBuilder(c, s, found)) < ToilLeft(c, s)
  {
    JobsAfterAppend(s.queue, Shutdown, Toil);
    JobsAfterAppend(s.defer, Shutdown, Toil);
  }

  lemma WorkerToils(c: Config, s: State, i: nat)
    requires i < |s.workers| && WorkerEnabled(s, s.workers[i]) && JobsOk(c, s)
    ensures DoWorker(s, i).builder == s.builder && ToilLeft(c, DoWorker(s, i)) < ToilLeft(c, s)
  {
    TallyAfterUpdate(s.workers, i, DoWorker(s, i).workers[i], Toil);
  }

  lemma {:induction false} StoppedRunToils(c: Config, s: State, steps: seq<Step>, t: State)
    requires Inv(c, s) && 0 < c.cap && !Active(s.builder) && Run(c, s, steps) == Some(t)
    ensures |steps| + ToilLeft(c, t) <= ToilLeft(c, s)
    decreases |steps|
  {
    if steps != [] {
      StepKeepsInv(c, s, steps[0]);
      match steps[0] {
        case BuilderStep(found) => StopToils(c, s, found);
        case WorkerStep(i) => WorkerToils(c, s, i);
      }
      StoppedRunToils(c, Do(c, s, steps[0]), steps[1..], t);
    }
  }

  lemma {:induction false} RunAppend(c: Config, s: State, a: seq<Step>, b: seq<Step>)
    requires Run(c, s, a).Some?
    ensures Run(c, s, a + b) == Run(c, Run(c, s, a).value, b)
    decreases |a|
  {
    if a == [] {
      assert a + b == b;
    } else {
      assert (a + b)[1..] == a[1..] + b;
      RunAppend(c, Do(c, s, a[0]), a[1..], b);
    }
  }

  /** Once the builder has stopped no run is longer than what is queued calls for, and a run that can go
      no further has released all workers. */
  lemma ShutdownReleases(c: Config, s: State, steps: seq<Step>)
    requires Reachable(c, s) && !Active(s.builder) && Run(c, s, steps).Some?
    ensures |steps| <= 6 * c.workers + 2 + Jobs(s.queue, Toil) + Jobs(s.defer, Toil)
    ensures var t := Run(c, s, steps).value; (forall step :: !Enabled(t, step)) ==> AllGone(t)
  {
    ReachableInv(c, s);
    var t := Run(c, s, steps).value;
    StoppedRunToils(c, s, steps, t);
    ToilBound(s.workers);
    var i, before :| Initial(c, i) && Run(c, i, before) == Some(s);
    RunAppend(c, i, before, steps);
    assert Reachable(c, t);
    RunKeepsInv(c, s, steps, t);
    ToilNotNegative(c, t);
    if !AllGone(t) { NeverStuck(c, t); }
  }

  lemma {:induction false} ToilBound(ws: seq<Worker>)
    ensures Tally(ws, Toil) <= 4 * |ws|
  {
    if ws != [] { ToilBound(ws[1..]); }
  }

  lemma ToilNotNegative(c: Config, s: State)
    requires StopsOk(c, s)
    ensures 0 <= ToilLeft(c, s)
  {
  }

  // ----- no thread allowed for a table

  lemma {:induction false} ListShrinks(c: Config, s: State, steps: seq<Step>, t: State)
    requires Run(c, s, steps) == Some(t)
    ensures |t.list| <= |s.list|
    decreases |steps|
  {
    if steps != [] { ListShrinks(c, Do(c, s, steps[0]), steps[1..], t); }
  }

  ghost predicate StopsEmpty(c: Config, s: State, steps: seq<Step>) {
    var t := Run(c, s, steps);
    t.Some? && !Active(t.value.builder) ==> t.value.list == []
  }

  /** With max_threads_per_table zero the builder looks at no table at all and stops at once. */
  lemma StopsEmptyIffCapped(c: Config, s: State)
    requires Initial(c, s)
    ensures (forall steps :: StopsEmpty(c, s, steps)) <==> (0 < c.cap || s.list == [])
  {
    if 0 < c.cap || s.list == [] {
      forall steps ensures StopsEmpty(c, s, steps) {
        if Run(c, s, steps).Some? {
          var t := Run(c, s, steps).value;
          ListShrinks(c, s, steps, t);
          if 0 < c.cap {
            InitialInv(c, s);
            RunKeepsInv(c, s, steps, t);
          }
        }
      }
    } else {
      var steps := [WorkerStep(0), BuilderStep(false)];
      var t := Do(c, s, steps[0]);
      assert steps[1..][1..] == [];
      assert Run(c, t, steps[1..]) == Some(Do(c, t, steps[1]));
      assert Run(c, s, steps) == Some(Do(c, t, steps[1]));
      assert !StopsEmpty(c, s, steps);
    }
  }
}

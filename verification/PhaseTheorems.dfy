/** What holds of every run of the phases: the counter is right, no job comes after the shutdown
    jobs of its queue, every job made is done, no run gets stuck and no run goes on for ever. */
module PhaseTheorems {
  import opened Optional
  import opened Phases

  // ----- every run

  /** What the main thread has queued before it starts the workers. */
  ghost predicate Initial(c: Config, s: State) {
    && 0 < c.n == |s.workers| && s.main == AwaitStatus
    && (forall i :: 0 <= i < c.n ==> s.workers[i] == AtInitial)
    && (forall a :: 0 <= a < |s.initial| ==> s.initial[a] == Status || (s.initial[a].Counted? && WorkOk(s.initial[a].work)))
    && s.statuses + Jobs(s.initial, StatusKind) == 1
    && 0 < s.counter == Jobs(s.initial, CountedKind)
    && (forall a :: 0 <= a < |s.schema| ==> s.schema[a].Piece?) && s.post == []
    && s.dbReady == s.completed == s.openings == s.unlocks == 0
    && s.schemaDone == s.postDone == multiset{}
  }

  lemma {:induction false} NoReading(ws: seq<Worker>, m: Meter)
    requires forall i :: 0 <= i < |ws| ==> Reading(ws[i], m) == 0
    ensures Tally(ws, m) == 0
  {
    if ws != [] { NoReading(ws[1..], m); }
  }

  lemma InitialInv(c: Config, s: State)
    requires Initial(c, s)
    ensures Inv(c, s)
  {
    forall m: Meter | m.Load? || m.Announcers? || m.Reporters? || (m.Past? && m.stage > 0)
      ensures Tally(s.workers, m) == 0
    {
      NoReading(s.workers, m);
    }
    NoneOfKind(s.initial, ShutdownKind);
    NoneOfKind(s.schema, ShutdownKind);
    NoneOfKind(s.post, ShutdownKind);
  }

  lemma {:induction false} RunKeepsInv(c: Config, s: State, steps: seq<Step>, t: State)
    requires Inv(c, s) && Run(c, s, steps) == Some(t)
    ensures Inv(c, t)
    decreases |steps|
  {
    if steps != [] {
      StepKeepsInv(c, s, steps[0]);
      RunKeepsInv(c, Do(c, s, steps[0]), steps[1..], t);
    }
  }

  ghost predicate Reachable(c: Config, s: State) {
    exists i, steps :: Initial(c, i) && Run(c, i, steps) == Some(s)
  }

  lemma ReachableInv(c: Config, s: State)
    requires Reachable(c, s)
    ensures Inv(c, s)
  {
    var i, steps :| Initial(c, i) && Run(c, i, steps) == Some(s);
    InitialInv(c, i);
    RunKeepsInv(c, i, steps, s);
  }

  // ----- the counter

  /** `database_counter` counts the counted jobs that are queued, running or about to be queued. */
  lemma CounterIsRight(c: Config, s: State)
    requires Reachable(c, s)
    ensures s.counter == Jobs(s.initial, CountedKind) + Tally(s.workers, Load)
  {
    ReachableInv(c, s);
  }

  /** Nothing that could still make jobs for the later queues is queued on initial_queue as a
      listing, or running as one. */
  ghost predicate ListingOver(s: State) {
    && (forall a :: 0 <= a < |s.initial| ==> !s.initial[a].Counted?)
    && (forall i :: 0 <= i < |s.workers| ==> !(s.workers[i].Running? && s.workers[i].counted))
  }

  /** db_ready is pushed at most once, and only when every listing is over. */
  lemma ReadyOnceAndAfterListing(c: Config, s: State)
    requires Reachable(c, s)
    ensures s.dbReady <= 1
    ensures s.dbReady == 1 ==> s.main == AwaitStatus || s.main == AwaitDatabases
    ensures s.dbReady == 1 || MainStage(s.main) >= 2 ==> ListingOver(s)
  {
    ReachableInv(c, s);
    if s.counter == 0 {
      NoneOfKind(s.initial, CountedKind);
      forall a | 0 <= a < |s.initial| ensures !s.initial[a].Counted? {
        assert JobReading(s.initial[a], CountedKind) == 0;
      }
      forall i | 0 <= i < |s.workers| ensures !(s.workers[i].Running? && s.workers[i].counted) {
        TallyAfterUpdate(s.workers, i, s.workers[i], Load);
      }
    }
  }

  // ----- the order of the queues

  predicate Gone(ws: seq<Worker>, stage: nat) {
    forall i :: 0 <= i < |ws| ==> Stage(ws[i]) >= stage
  }

  predicate SomeGone(ws: seq<Worker>, stage: nat) {
    exists i :: 0 <= i < |ws| && Stage(ws[i]) >= stage
  }

  /** The jobs of a queue come before its shutdown jobs; while a worker has left it only shutdown
      jobs are in it; when all have left it is empty. */
  ghost predicate Closing(q: seq<Job>, ws: seq<Worker>, stage: nat) {
    && (forall a, b :: 0 <= a < b < |q| && q[a] == Shutdown ==> q[b] == Shutdown)
    && (SomeGone(ws, stage) ==> forall a :: 0 <= a < |q| ==> q[a] == Shutdown)
    && (Gone(ws, stage) ==> q == [])
  }

  lemma {:induction false} AllShutdowns(q: seq<Job>)
    requires forall a :: 0 <= a < |q| ==> q[a] == Shutdown
    ensures Jobs(q, ShutdownKind) == |q|
  {
    if q != [] { AllShutdowns(q[1..]); }
  }

  lemma QueueCloses(c: Config, s: State, q: seq<Job>, stage: nat, sent: nat)
    requires |s.workers| == c.n && 0 < c.n && StopsLast(q, Tally(s.workers, Past(stage))) && sent <= c.n
    requires Jobs(q, ShutdownKind) + Tally(s.workers, Past(stage)) == sent
    ensures Closing(q, s.workers, stage)
  {
    TallyIsAll(s.workers, stage);
    if SomeGone(s.workers, stage) {
      var i :| 0 <= i < |s.workers| && Stage(s.workers[i]) >= stage;
      TallyAfterUpdate(s.workers, i, s.workers[i], Past(stage));
    }
    if Gone(s.workers, stage) {
      assert Stage(s.workers[0]) >= stage;
      AllShutdowns(q);
    }
  }

  /** In every state of every run each of the three queues keeps its order. */
  lemma QueuesClose(c: Config, s: State)
    requires Reachable(c, s)
    ensures Closing(s.initial, s.workers, 1)
    ensures Closing(s.schema, s.workers, 3)
    ensures Closing(s.post, s.workers, 8)
  {
    ReachableInv(c, s);
    QueueCloses(c, s, s.initial, 1, ByMain(c, s.main, InitialStops));
    QueueCloses(c, s, s.schema, 3, ByMain(c, s.main, SchemaStops));
    QueueCloses(c, s, s.post, 8, ByMain(c, s.main, PostStops));
  }

  /** Nobody puts a job behind the shutdown jobs of schema_queue or post_data_queue, nor a listing
      or a table behind those of initial_queue. */
  lemma NoLateJob(c: Config, s: State, i: nat)
    requires Reachable(c, s) && i < |s.workers| && s.workers[i].Running?
    ensures Shutdown !in s.schema && !SomeGone(s.workers, 3)
    ensures Shutdown !in s.post && !SomeGone(s.workers, 8)
    ensures RunJob(s, i).initial != s.initial ==> Shutdown !in s.initial && !SomeGone(s.workers, 1)
  {
    ReachableInv(c, s);
    WorkerAtInitial(c, s, i);
    NoShutdown(s.schema);
    NoShutdown(s.post);
    NobodyGone(s.workers, 3);
    NobodyGone(s.workers, 8);
    assert WorkerOk(s.workers[i]);
    if RunJob(s, i).initial != s.initial {
      assert s.workers[i].work[0] in s.workers[i].work;
      CountedAtWork(c, s, i);
      NoShutdown(s.initial);
      NobodyGone(s.workers, 1);
    }
  }

  lemma NoShutdown(q: seq<Job>)
    requires Jobs(q, ShutdownKind) == 0
    ensures Shutdown !in q
  {
    NoneOfKind(q, ShutdownKind);
    assert forall a :: 0 <= a < |q| ==> JobReading(q[a], ShutdownKind) == 0 ==> q[a] != Shutdown;
  }

  lemma NobodyGone(ws: seq<Worker>, stage: nat)
    requires Tally(ws, Past(stage)) == 0
    ensures !SomeGone(ws, stage)
  {
    if SomeGone(ws, stage) {
      var i :| 0 <= i < |ws| && Stage(ws[i]) >= stage;
      TallyAfterUpdate(ws, i, ws[i], Past(stage));
      assert false;
    }
  }

  // ----- the order of the phases

  /** The worker has pushed unlock_tables: with trx_tables when it had dumped non-transactional tables,
      else before it dumps any. */
  predicate Unlocked(c: Config, w: Worker) {
    w == DataThird || w == AtPost || w.InPost? || w == Exited || (!c.trx && w == DataSecond)
  }

  lemma SomePast(ws: seq<Worker>, stage: nat)
    requires SomeGone(ws, stage)
    ensures Tally(ws, Past(stage)) > 0
  {
    var i :| 0 <= i < |ws| && Stage(ws[i]) >= stage;
    TallyAfterUpdate(ws, i, ws[i], Past(stage));
  }

  /** No worker leaves schema_queue before all have left initial_queue, nor dumps data before the main
      thread has let it. */
  lemma PhasesInOrder(c: Config, s: State)
    requires Reachable(c, s)
    ensures SomeGone(s.workers, 3) ==> Gone(s.workers, 2)
    ensures SomeGone(s.workers, 4) && !c.noData ==> MainStage(s.main) >= 5
  {
    ReachableInv(c, s);
    TallyIsAll(s.workers, 2);
    if SomeGone(s.workers, 3) { SomePast(s.workers, 3); }
    if SomeGone(s.workers, 4) { SomePast(s.workers, 4); }
  }

  /** A main thread that waits for unlock_tables goes on, and lets workers leave, only when every worker
      has pushed it. */
  lemma UnlockedBeforePost(c: Config, s: State)
    requires Reachable(c, s) && c.waitUnlock
    ensures s.main.StopPost? || s.main == Joining || s.main == Ended || SomeGone(s.workers, 8) ==>
              forall i :: 0 <= i < |s.workers| ==> Unlocked(c, s.workers[i])
  {
    ReachableInv(c, s);
    TallyIsAll(s.workers, if c.trx then 6 else 5);
    if SomeGone(s.workers, 8) { SomePast(s.workers, 8); }
  }

  // ----- no run gets stuck

  ghost predicate NobodyMoves(c: Config, s: State) {
    !MainEnabled(s) && forall i :: 0 <= i < |s.workers| ==> !WorkerEnabled(c, s, s.workers[i])
  }

  /** When nobody moves, no listing and no report is under way. */
  lemma NobodyWorks(c: Config, s: State, m: Meter)
    requires NobodyMoves(c, s) && (m == Load || m == Announcers || m == Reporters)
    ensures Tally(s.workers, m) == 0
  {
    forall i | 0 <= i < |s.workers| ensures Reading(s.workers[i], m) == 0 {
      assert !WorkerEnabled(c, s, s.workers[i]);
    }
    NoReading(s.workers, m);
  }

  /** When nobody moves and all shutdown jobs or tokens of a gate were sent, all workers are past
      the gate, if they are past the one before. */
  lemma AllPast(c: Config, s: State, g: Gate, from: nat)
    requires NobodyMoves(c, s) && |s.workers| == c.n && Balanced(c, s, g) && !FromWorkers(g)
    requires ByMain(c, s.main, g) == c.n && Gone(s.workers, from)
    requires from == match g case InitialStops => 0 case SchemaStops => 2 case Openings => 3 case _ => 7
    ensures Gone(s.workers, from + 1)
  {
    forall i | 0 <= i < |s.workers| ensures Stage(s.workers[i]) >= from + 1 {
      assert !WorkerEnabled(c, s, s.workers[i]) && Stage(s.workers[i]) >= from;
      TallyIsAll(s.workers, Beyond(c, g));
    }
  }

  /** When nobody moves, a worker past a waiting place is at the next one. */
  lemma AtNextPlace(c: Config, s: State, from: nat)
    requires NobodyMoves(c, s) && Gone(s.workers, from) && (from == 1 || from == 4)
    ensures Gone(s.workers, if from == 1 then 2 else 7)
  {
    forall i | 0 <= i < |s.workers| ensures Stage(s.workers[i]) >= (if from == 1 then 2 else 7) {
      assert !WorkerEnabled(c, s, s.workers[i]) && Stage(s.workers[i]) >= from;
    }
  }

  lemma NobodyTakes(c: Config, s: State)
    requires NobodyMoves(c, s)
    ensures s.initial == [] || Tally(s.workers, Past(1)) == |s.workers|
  {
    if s.initial != [] {
      forall i | 0 <= i < |s.workers| ensures Stage(s.workers[i]) >= 1 {
        assert !WorkerEnabled(c, s, s.workers[i]);
      }
      TallyIsAll(s.workers, 1);
    }
  }

  lemma NotWaitingForListings(c: Config, s: State)
    requires Inv(c, s) && NobodyMoves(c, s)
    ensures MainStage(s.main) >= 2
  {
    NobodyWorks(c, s, Load);
    NobodyWorks(c, s, Announcers);
    NobodyWorks(c, s, Reporters);
    NobodyTakes(c, s);
  }

  lemma NotWaitingForCompletion(c: Config, s: State)
    requires Inv(c, s) && NobodyMoves(c, s)
    ensures MainStage(s.main) >= 4 && Gone(s.workers, 2)
  {
    NotWaitingForListings(c, s);
    assert Gone(s.workers, 0);
    AllPast(c, s, InitialStops, 0);
    AtNextPlace(c, s, 1);
    TallyIsAll(s.workers, 2);
  }

  /** A worker is held up by an opening only, and the main thread has made them all. */
  lemma DataPhaseIsOver(c: Config, s: State)
    requires Inv(c, s) && NobodyMoves(c, s)
    ensures Gone(s.workers, 7) && MainStage(s.main) >= 8
  {
    NotWaitingForCompletion(c, s);
    AllPast(c, s, SchemaStops, 2);
    if c.noData {
      forall i | 0 <= i < |s.workers| ensures Stage(s.workers[i]) >= 4 {
        assert !WorkerEnabled(c, s, s.workers[i]) && Stage(s.workers[i]) >= 3;
      }
    } else {
      AllPast(c, s, Openings, 3);
    }
    AtNextPlace(c, s, 4);
    TallyIsAll(s.workers, if c.trx then 6 else 5);
  }

  lemma AllExited(ws: seq<Worker>)
    requires Gone(ws, 8)
    ensures forall i :: 0 <= i < |ws| ==> ws[i] == Exited
  {
    forall i | 0 <= i < |ws| ensures ws[i] == Exited { assert Stage(ws[i]) >= 8; }
  }

  /** Whatever the threads have done so far, one of them can go on, until the main thread ends. */
  lemma NeverStuck(c: Config, s: State)
    requires Reachable(c, s)
    ensures s.main == Ended || exists step :: Enabled(c, s, step)
  {
    ReachableInv(c, s);
    if forall step :: !Enabled(c, s, step) {
      assert !Enabled(c, s, MainStep);
      forall i | 0 <= i < |s.workers| ensures !WorkerEnabled(c, s, s.workers[i]) {
        assert !Enabled(c, s, WorkerStep(i));
      }
      DataPhaseIsOver(c, s);
      AllPast(c, s, PostStops, 7);
      AllExited(s.workers);
    }
  }

  // ----- every run ends

  function MainToil(c: Config, m: Main): int {
    6 * c.n + 3
    - (Turns(c, m, 2) + Turns(c, m, 3) + Turns(c, m, 4) + Turns(c, m, 5) + Turns(c, m, 6) + Turns(c, m, 7))
    - (if MainStage(m) >= 2 then 2 else MainStage(m)) - (if m == Ended then 1 else 0)
  }

  /** An upper bound on the steps still to come. */
  function ToilLeft(c: Config, s: State): int {
    MainToil(c, s.main) + Jobs(s.initial, ToilKind) + Jobs(s.schema, ToilKind) + Jobs(s.post, ToilKind)
    + Tally(s.workers, Toil)
  }

  lemma MainToils(c: Config, s: State)
    requires MainEnabled(s) && MainOk(c, s.main) && 0 < c.n
    ensures MainToil(c, DoMain(c, s).main) < MainToil(c, s.main)
  {
  }

  lemma MainStepToils(c: Config, s: State)
    requires MainEnabled(s) && MainOk(c, s.main) && 0 < c.n
    ensures ToilLeft(c, DoMain(c, s)) < ToilLeft(c, s)
  {
    MainToils(c, s);
    JobsAfterAppend(s.initial, Shutdown, ToilKind);
    JobsAfterAppend(s.schema, Shutdown, ToilKind);
    JobsAfterAppend(s.post, Shutdown, ToilKind);
  }

  lemma StartedToils(j: Job)
    requires !j.Piece?
    ensures Reading(Started(j), Toil) == JobReading(j, ToilKind) + 7
  {
  }

  lemma TakeInitialToils(c: Config, s: State, i: nat)
    requires i < |s.workers| && s.workers[i] == AtInitial && s.initial != [] && !s.initial[0].Piece?
    ensures ToilLeft(c, TakeInitial(s, i)) < ToilLeft(c, s)
  {
    TallyAfterUpdate(s.workers, i, Started(s.initial[0]), Toil);
    StartedToils(s.initial[0]);
  }

  lemma EndJobToils(c: Config, s: State, i: nat)
    requires i < |s.workers| && s.workers[i].Running? && s.workers[i].work == []
    ensures ToilLeft(c, RunJob(s, i)) < ToilLeft(c, s)
  {
    TallyAfterUpdate(s.workers, i, RunJob(s, i).workers[i], Toil);
  }

  /** What the queues and worker i still call for. */
  function ToilBeside(s: State, i: nat): int
    requires i < |s.workers|
  {
    Jobs(s.initial, ToilKind) + Jobs(s.schema, ToilKind) + Jobs(s.post, ToilKind) + WorkerToil(s.workers[i])
  }

  lemma SpentToils(c: Config, s: State, t: State, i: nat)
    requires i < |s.workers| == |t.workers| && t.workers == s.workers[i := t.workers[i]] && t.main == s.main
    requires ToilBeside(t, i) < ToilBeside(s, i)
    ensures ToilLeft(c, t) < ToilLeft(c, s)
  {
    TallyAfterUpdate(s.workers, i, t.workers[i], Toil);
  }

  lemma EffectSpends(s: State, i: nat)
    requires i < |s.workers| && s.workers[i].Running? && s.workers[i].work != [] && WorkerOk(s.workers[i])
    ensures var t := RunJob(s, i);
            t.workers == s.workers[i := t.workers[i]] && t.main == s.main && ToilBeside(t, i) < ToilBeside(s, i)
  {
    var work := s.workers[i].work;
    assert Toils(work) == ToilOf(work[0]) + Toils(work[1..]);
    match work[0]
    case ToSchema(id) => JobsAfterAppend(s.schema, Piece(id), ToilKind);
    case ToPost(id) => JobsAfterAppend(s.post, Piece(id), ToilKind);
    case NewTable(w) => JobsAfterAppend(s.initial, TableJob(w), ToilKind);
    case NewDatabase(w) => JobsAfterAppend(s.initial, Counted(w), ToilKind);
  }

  lemma TakePieceSpends(c: Config, s: State, i: nat)
    requires i < |s.workers| && WorkerEnabled(c, s, s.workers[i]) && (s.workers[i] == AtSchema || s.workers[i] == AtPost)
    requires PiecesOnly(s.schema) && PiecesOnly(s.post)
    ensures var t := DoWorker(c, s, i);
            t.workers == s.workers[i := t.workers[i]] && t.main == s.main && ToilBeside(t, i) < ToilBeside(s, i)
  {
  }

  lemma MoveOnSpends(c: Config, s: State, i: nat)
    requires i < |s.workers| && WorkerEnabled(c, s, s.workers[i])
    requires s.workers[i] != AtInitial && !s.workers[i].Running?
    requires PiecesOnly(s.schema) && PiecesOnly(s.post)
    ensures var t := DoWorker(c, s, i);
            t.workers == s.workers[i := t.workers[i]] && t.main == s.main && ToilBeside(t, i) < ToilBeside(s, i)
  {
    if s.workers[i] == AtSchema || s.workers[i] == AtPost { TakePieceSpends(c, s, i); }
  }

  lemma StepToils(c: Config, s: State, step: Step)
    requires Inv(c, s) && Enabled(c, s, step)
    ensures ToilLeft(c, Do(c, s, step)) < ToilLeft(c, s)
  {
    match step
    case MainStep => MainStepToils(c, s);
    case WorkerStep(i) =>
      if s.workers[i] == AtInitial {
        TakeInitialToils(c, s, i);
      } else if s.workers[i].Running? {
        assert WorkerOk(s.workers[i]);
        if s.workers[i].work == [] {
          EndJobToils(c, s, i);
        } else {
          EffectSpends(s, i);
          SpentToils(c, s, RunJob(s, i), i);
        }
      } else {
        MoveOnSpends(c, s, i);
        SpentToils(c, s, DoWorker(c, s, i), i);
      }
  }

  lemma {:induction false} RunToils(c: Config, s: State, steps: seq<Step>, t: State)
    requires Inv(c, s) && Run(c, s, steps) == Some(t)
    ensures |steps| + ToilLeft(c, t) <= ToilLeft(c, s)
    decreases |steps|
  {
    if steps != [] {
      StepKeepsInv(c, s, steps[0]);
      StepToils(c, s, steps[0]);
      RunToils(c, Do(c, s, steps[0]), steps[1..], t);
    }
  }

  /** No run is longer than the listings call for: it ends, whatever the order of its steps. */
  lemma RunsEnd(c: Config, s: State, steps: seq<Step>)
    requires Initial(c, s) && Run(c, s, steps).Some?
    ensures |steps| <= 14 * c.n + 3 + Jobs(s.initial, ToilKind) + Jobs(s.schema, ToilKind)
  {
    var t := Run(c, s, steps).value;
    InitialInv(c, s);
    RunKeepsInv(c, s, steps, t);
    RunToils(c, s, steps, t);
    FreshToil(s.workers);
  }

  lemma {:induction false} FreshToil(ws: seq<Worker>)
    requires forall i :: 0 <= i < |ws| ==> ws[i] == AtInitial
    ensures Tally(ws, Toil) == 8 * |ws|
  {
    if ws != [] { FreshToil(ws[1..]); }
  }

  // ----- every job made is done

  function Done(s: State, q: Later): multiset<int> {
    match q case Schemas => s.schemaDone case Posts => s.postDone
  }

  function QueueOf(s: State, q: Later): seq<Job> {
    match q case Schemas => s.schema case Posts => s.post
  }

  /** The jobs with this id that were done or are still owed: by a job of initial_queue, by a
      running job, by the queue itself, by the worker that took it. */
  function Account(s: State, q: Later, id: int): nat {
    Jobs(s.initial, OwedKind(q, id)) + Jobs(QueueOf(s, q), OwedKind(q, id))
    + Tally(s.workers, Owed(q, id)) + Done(s, q)[id]
  }

  lemma MainStepKeepsAccount(c: Config, s: State, q: Later, id: int)
    requires MainEnabled(s)
    ensures Account(DoMain(c, s), q, id) == Account(s, q, id)
  {
    JobsAfterAppend(s.initial, Shutdown, OwedKind(q, id));
    JobsAfterAppend(QueueOf(s, q), Shutdown, OwedKind(q, id));
  }

  lemma StartedOwes(j: Job, q: Later, id: int)
    requires !j.Piece?
    ensures Reading(Started(j), Owed(q, id)) == JobReading(j, OwedKind(q, id))
  {
  }

  lemma TakeInitialKeepsAccount(s: State, i: nat, q: Later, id: int)
    requires i < |s.workers| && s.workers[i] == AtInitial && s.initial != [] && !s.initial[0].Piece?
    ensures Account(TakeInitial(s, i), q, id) == Account(s, q, id)
  {
    TallyAfterUpdate(s.workers, i, Started(s.initial[0]), Owed(q, id));
    StartedOwes(s.initial[0], q, id);
  }

  /** What worker i, the queues and the work done amount to. */
  function Beside(s: State, i: nat, q: Later, id: int): int
    requires i < |s.workers|
  {
    Jobs(s.initial, OwedKind(q, id)) + Jobs(QueueOf(s, q), OwedKind(q, id)) + WorkerOwes(s.workers[i], q, id) + Done(s, q)[id]
  }

  lemma PaidKeepsAccount(s: State, t: State, i: nat, q: Later, id: int)
    requires i < |s.workers| == |t.workers| && t.workers == s.workers[i := t.workers[i]]
    requires Beside(t, i, q, id) == Beside(s, i, q, id)
    ensures Account(t, q, id) == Account(s, q, id)
  {
    TallyAfterUpdate(s.workers, i, t.workers[i], Owed(q, id));
  }

  lemma EndJobPays(s: State, i: nat, q: Later, id: int)
    requires i < |s.workers| && s.workers[i].Running? && s.workers[i].work == []
    ensures var t := RunJob(s, i); t.workers == s.workers[i := t.workers[i]] && Beside(t, i, q, id) == Beside(s, i, q, id)
  {
  }

  /** What the order for a new job takes from the worker it adds to a queue. */
  lemma EffectPays(s: State, i: nat, q: Later, id: int)
    requires i < |s.workers| && s.workers[i].Running? && s.workers[i].work != []
    ensures var t := RunJob(s, i); t.workers == s.workers[i := t.workers[i]] && Beside(t, i, q, id) == Beside(s, i, q, id)
  {
    var work := s.workers[i].work;
    assert Orders(work, q, id) == OrdersOf(work[0], q, id) + Orders(work[1..], q, id);
    match work[0]
    case ToSchema(j) => JobsAfterAppend(s.schema, Piece(j), OwedKind(q, id));
    case ToPost(j) => JobsAfterAppend(s.post, Piece(j), OwedKind(q, id));
    case NewTable(w) => JobsAfterAppend(s.initial, TableJob(w), OwedKind(q, id));
    case NewDatabase(w) => JobsAfterAppend(s.initial, Counted(w), OwedKind(q, id));
  }

  lemma TakePiecePays(c: Config, s: State, i: nat, q: Later, id: int)
    requires i < |s.workers| && WorkerEnabled(c, s, s.workers[i]) && (s.workers[i] == AtSchema || s.workers[i] == AtPost)
    requires PiecesOnly(s.schema) && PiecesOnly(s.post)
    ensures var t := DoWorker(c, s, i); t.workers == s.workers[i := t.workers[i]] && Beside(t, i, q, id) == Beside(s, i, q, id)
  {
  }

  /** A worker that takes a piece of work owes it, and has done it when it moves on. */
  lemma MoveOnPays(c: Config, s: State, i: nat, q: Later, id: int)
    requires i < |s.workers| && WorkerEnabled(c, s, s.workers[i])
    requires s.workers[i] != AtInitial && !s.workers[i].Running?
    requires PiecesOnly(s.schema) && PiecesOnly(s.post)
    ensures var t := DoWorker(c, s, i);
            t.workers == s.workers[i := t.workers[i]] && Beside(t, i, q, id) == Beside(s, i, q, id)
  {
    if s.workers[i] == AtSchema || s.workers[i] == AtPost { TakePiecePays(c, s, i, q, id); }
  }

  lemma StepKeepsAccount(c: Config, s: State, step: Step, q: Later, id: int)
    requires Inv(c, s) && Enabled(c, s, step)
    ensures Account(Do(c, s, step), q, id) == Account(s, q, id)
  {
    match step
    case MainStep => MainStepKeepsAccount(c, s, q, id);
    case WorkerStep(i) =>
      if s.workers[i] == AtInitial {
        TakeInitialKeepsAccount(s, i, q, id);
      } else if s.workers[i].Running? {
        if s.workers[i].work == [] { EndJobPays(s, i, q, id); } else { EffectPays(s, i, q, id); }
        PaidKeepsAccount(s, RunJob(s, i), i, q, id);
      } else {
        MoveOnPays(c, s, i, q, id);
        PaidKeepsAccount(s, DoWorker(c, s, i), i, q, id);
      }
  }

  lemma {:induction false} RunKeepsAccount(c: Config, s: State, steps: seq<Step>, t: State, q: Later, id: int)
    requires Inv(c, s) && Run(c, s, steps) == Some(t)
    ensures Account(t, q, id) == Account(s, q, id)
    decreases |steps|
  {
    if steps != [] {
      StepKeepsInv(c, s, steps[0]);
      StepKeepsAccount(c, s, steps[0], q, id);
      RunKeepsAccount(c, Do(c, s, steps[0]), steps[1..], t, q, id);
    }
  }

  /** When the main thread has ended, the workers have left and the queues are empty. */
  lemma NothingLeft(c: Config, t: State)
    requires Reachable(c, t) && t.main == Ended
    ensures t.initial == [] && t.schema == [] && t.post == []
    ensures forall i :: 0 <= i < |t.workers| ==> t.workers[i] == Exited
  {
    ReachableInv(c, t);
    QueuesClose(c, t);
    assert Gone(t.workers, 1) && Gone(t.workers, 3) && Gone(t.workers, 8);
  }

  lemma ClosedAccount(s: State, q: Later, id: int)
    requires forall i :: 0 <= i < |s.workers| ==> s.workers[i] == Exited || s.workers[i] == AtInitial
    ensures Account(s, q, id) == Jobs(s.initial, OwedKind(q, id)) + Jobs(QueueOf(s, q), OwedKind(q, id)) + Done(s, q)[id]
  {
    NoReading(s.workers, Owed(q, id));
  }

  /** When the main thread has ended, each job was done exactly as often as the first jobs ask for
      it, directly or through the jobs they make. */
  lemma EverythingDone(c: Config, s: State, steps: seq<Step>, t: State, q: Later, id: int)
    requires Initial(c, s) && Run(c, s, steps) == Some(t) && t.main == Ended
    ensures Done(t, q)[id] == Jobs(s.initial, OwedKind(q, id)) + Jobs(QueueOf(s, q), OwedKind(q, id))
  {
    assert Reachable(c, t);
    NothingLeft(c, t);
    InitialInv(c, s);
    RunKeepsAccount(c, s, steps, t, q, id);
    ClosedAccount(s, q, id);
    ClosedAccount(t, q, id);
  }
}

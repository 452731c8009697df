/** The phases of a dump. The main thread and `n` workers share queues; the main thread learns
    from a counter that no database is left to be listed, and closes one queue after the other
    with a shutdown job for every worker. */
module Phases {
  import opened Optional

  // ----- jobs

  /** What listing databases, listing tables or registering a table does, in order. */
  datatype Effect =
    | ToSchema(id: int)                 // a job for schema_queue
    | ToPost(id: int)                   // a job for post_data_queue
    | NewTable(work: seq<Effect>)       // create_job_to_dump_table
    | NewDatabase(work: seq<Effect>)    // create_job_to_dump_database

  /** `Counted` stands for JOB_DUMP_ALL_DATABASES, JOB_DUMP_DATABASE and JOB_DUMP_TABLE_LIST, the
      jobs `database_counter` counts; `Piece` for whatever is done in schema_queue or
      post_data_queue. */
  datatype Job =
    | Counted(work: seq<Effect>)
    | TableJob(work: seq<Effect>)
    | Status
    | Piece(id: int)
    | Shutdown

  // ----- threads

  datatype Worker =
    | AtInitial                         // waiting on initial_queue
    | Running(work: seq<Effect>, counted: bool, due: bool)
                                        // due: the counter was raised for the job to come
    | Reporting                         // JOB_WRITE_SOURCE_AND_REPLICA_STATUS
    | Announcing                        // took the counter to zero, about to push db_ready
    | LeftInitial                       // about to push initial_completed_queue
    | AtSchema                          // waiting on schema_queue
    | InSchema(id: int)
    | AwaitingData                      // waiting on ready_non_transactional_queue
    | DataFirst                         // with trx_tables dumping the non-transactional tables, else about
                                        // to push unlock_tables
    | DataSecond                        // the other way round
    | DataThird                         // dumping the transactional tables
    | AtPost                            // waiting on post_data_queue
    | InPost(id: int)
    | Exited

  /** Where `start_dump` stands; k pushes or pops of a loop over the workers are done. */
  datatype Main =
    | AwaitStatus
    | AwaitDatabases
    | StopInitial(k: nat)
    | AwaitCompleted(k: nat)
    | StopSchema(k: nat)
    | OpenData(k: nat)
    | AwaitUnlock(k: nat)
    | StopPost(k: nat)
    | Joining
    | Ended

  datatype Config = Config(n: nat, trx: bool, noData: bool, waitUnlock: bool)

  datatype State = State(
    initial: seq<Job>, schema: seq<Job>, post: seq<Job>,
    counter: int, dbReady: nat, completed: nat, openings: nat, unlocks: nat, statuses: nat,
    main: Main, workers: seq<Worker>,
    schemaDone: multiset<int>, postDone: multiset<int>)

  datatype Step = MainStep | WorkerStep(i: nat)

  // ----- steps of a worker

  predicate WorkerEnabled(c: Config, s: State, w: Worker) {
    match w
    case AtInitial => s.initial != []
    case AtSchema => s.schema != []
    case AwaitingData => c.noData || s.openings > 0
    case AtPost => s.post != []
    case Exited => false
    case _ => true
  }

  function Set(s: State, i: nat, w: Worker): State
    requires i < |s.workers|
  {
    s.(workers := s.workers[i := w])
  }

  /** What a worker does with a job of initial_queue. */
  function Started(j: Job): Worker {
    match j
    case Counted(work) => Running(work, true, false)
    case TableJob(work) => Running(work, false, false)
    case Status => Reporting
    case Piece(_) => AtInitial
    case Shutdown => LeftInitial
  }

  function TakeInitial(s: State, i: nat): State
    requires i < |s.workers| && s.initial != []
  {
    Set(s.(initial := s.initial[1..]), i, Started(s.initial[0]))
  }

  /** One effect of a running job, or its end: g_atomic_int_dec_and_test for a counted one. */
  function RunJob(s: State, i: nat): State
    requires i < |s.workers| && s.workers[i].Running?
  {
    var Running(work, counted, due) := s.workers[i];
    if work == [] then
      if counted then
        Set(s.(counter := s.counter - 1), i, if s.counter == 1 then Announcing else AtInitial)
      else
        Set(s, i, AtInitial)
    else
      var next := Running(work[1..], counted, false);
      match work[0]
      case ToSchema(id) => Set(s.(schema := s.schema + [Piece(id)]), i, next)
      case ToPost(id) => Set(s.(post := s.post + [Piece(id)]), i, next)
      case NewTable(w) => Set(s.(initial := s.initial + [TableJob(w)]), i, next)
      case NewDatabase(w) =>
        if due then Set(s.(initial := s.initial + [Counted(w)]), i, next)
        else Set(s.(counter := s.counter + 1), i, Running(work, counted, true))
  }

  function DoWorker(c: Config, s: State, i: nat): State
    requires i < |s.workers| && WorkerEnabled(c, s, s.workers[i])
  {
    match s.workers[i]
    case AtInitial => TakeInitial(s, i)
    case Running(_, _, _) => RunJob(s, i)
    case Reporting => Set(s.(statuses := s.statuses + 1), i, AtInitial)
    case Announcing => Set(s.(dbReady := s.dbReady + 1), i, AtInitial)
    case LeftInitial => Set(s.(completed := s.completed + 1), i, AtSchema)
    case AtSchema =>
      Set(s.(schema := s.schema[1..]), i,
          match s.schema[0] case Piece(id) => InSchema(id) case Shutdown => AwaitingData case _ => AtSchema)
    case InSchema(id) => Set(s.(schemaDone := s.schemaDone + multiset{id}), i, AtSchema)
    case AwaitingData =>
      if c.noData then Set(s.(unlocks := s.unlocks + 1), i, AtPost)
      else Set(s.(openings := s.openings - 1), i, DataFirst)
    case DataFirst => Set(if c.trx then s else s.(unlocks := s.unlocks + 1), i, DataSecond)
    case DataSecond => Set(if c.trx then s.(unlocks := s.unlocks + 1) else s, i, DataThird)
    case DataThird => Set(s, i, AtPost)
    case AtPost =>
      Set(s.(post := s.post[1..]), i,
          match s.post[0] case Piece(id) => InPost(id) case Shutdown => Exited case _ => AtPost)
    case InPost(id) => Set(s.(postDone := s.postDone + multiset{id}), i, AtPost)
  }

  // ----- steps of the main thread

  predicate MainEnabled(s: State) {
    match s.main
    case AwaitStatus => s.statuses > 0
    case AwaitDatabases => s.dbReady > 0
    case AwaitCompleted(_) => s.completed > 0
    case AwaitUnlock(_) => s.unlocks > 0
    case Joining => forall i :: 0 <= i < |s.workers| ==> s.workers[i] == Exited
    case Ended => false
    case _ => true
  }

  function DoMain(c: Config, s: State): State
    requires MainEnabled(s)
  {
    match s.main
    case AwaitStatus => s.(statuses := s.statuses - 1, main := AwaitDatabases)
    case AwaitDatabases => s.(dbReady := s.dbReady - 1, main := StopInitial(0))
    case StopInitial(k) =>
      s.(initial := s.initial + [Shutdown],
         main := if k + 1 < c.n then StopInitial(k + 1) else AwaitCompleted(0))
    case AwaitCompleted(k) =>
      s.(completed := s.completed - 1,
         main := if k + 1 < c.n then AwaitCompleted(k + 1) else StopSchema(0))
    case StopSchema(k) =>
      s.(schema := s.schema + [Shutdown],
         main := if k + 1 < c.n then StopSchema(k + 1) else OpenData(0))
    case OpenData(k) =>
      s.(openings := s.openings + 1,
         main := if k + 1 < c.n then OpenData(k + 1)
                 else if c.waitUnlock then AwaitUnlock(0) else StopPost(0))
    case AwaitUnlock(k) =>
      s.(unlocks := s.unlocks - 1,
         main := if k + 1 < c.n then AwaitUnlock(k + 1) else StopPost(0))
    case StopPost(k) =>
      s.(post := s.post + [Shutdown],
         main := if k + 1 < c.n then StopPost(k + 1) else Joining)
    case Joining => s.(main := Ended)
  }

  predicate Enabled(c: Config, s: State, step: Step) {
    match step
    case MainStep => MainEnabled(s)
    case WorkerStep(i) => i < |s.workers| && WorkerEnabled(c, s, s.workers[i])
  }

  function Do(c: Config, s: State, step: Step): State
    requires Enabled(c, s, step)
  {
    match step
    case MainStep => DoMain(c, s)
    case WorkerStep(i) => DoWorker(c, s, i)
  }

  function Run(c: Config, s: State, steps: seq<Step>): Option<State>
    decreases |steps|
  {
    if steps == [] then Some(s)
    else if Enabled(c, s, steps[0]) then Run(c, Do(c, s, steps[0]), steps[1..])
    else None
  }

  /** A queue after a step: as it was, with one job more at the back, or without its head. */
  predicate InOrder(was: seq<Job>, now: seq<Job>) {
    now == was || (was <= now && |now| == |was| + 1) || (was != [] && now == was[1..])
  }

  /** What a worker has taken that is now there. */
  function Taken(w: Worker): Job {
    match w
    case InSchema(id) => Piece(id)
    case InPost(id) => Piece(id)
    case Running(work, counted, _) => if counted then Counted(work) else TableJob(work)
    case Reporting => Status
    case _ => Shutdown
  }

  /** A step adds at the back of a queue or takes its head. */
  lemma QueuesInOrder(c: Config, s: State, step: Step)
    requires Enabled(c, s, step)
    ensures var r := Do(c, s, step); InOrder(s.initial, r.initial) && InOrder(s.schema, r.schema) && InOrder(s.post, r.post)
  {
  }

  /** A worker at a queue takes its head, and does what it says. */
  lemma TakesHead(c: Config, s: State, i: nat)
    requires i < |s.workers| && WorkerEnabled(c, s, s.workers[i]) && PiecesOnly(s.schema) && PiecesOnly(s.post)
    requires forall a :: 0 <= a < |s.initial| ==> !s.initial[a].Piece?
    ensures var w, r := s.workers[i], DoWorker(c, s, i);
            && (w == AtInitial ==> s.initial == [Taken(r.workers[i])] + r.initial)
            && (w == AtSchema ==> s.schema == [Taken(r.workers[i])] + r.schema)
            && (w == AtPost ==> s.post == [Taken(r.workers[i])] + r.post)
  {
  }

  // ----- tallies

  /** How many phases a worker has behind it. */
  function Stage(w: Worker): nat {
    match w
    case AtInitial => 0
    case Running(_, _, _) => 0
    case Reporting => 0
    case Announcing => 0
    case LeftInitial => 1
    case AtSchema => 2
    case InSchema(_) => 2
    case AwaitingData => 3
    case DataFirst => 4
    case DataSecond => 5
    case DataThird => 6
    case AtPost => 7
    case InPost(_) => 7
    case Exited => 8
  }

  /** A number a thread stands for: whether it is past a phase, whether it makes up part of the
      counter, the steps it still has to take, the jobs with a given id it still owes. */
  datatype Meter = Past(stage: nat) | Load | Announcers | Reporters | Toil | Owed(q: Later, id: int)

  /** The queue of a piece of work. */
  datatype Later = Schemas | Posts

  function Reading(w: Worker, m: Meter): nat {
    match m
    case Past(k) => if Stage(w) >= k then 1 else 0
    case Load => if w.Running? && w.counted then (if w.due then 2 else 1) else 0
    case Announcers => if w == Announcing then 1 else 0
    case Reporters => if w == Reporting then 1 else 0
    case Toil => WorkerToil(w)
    case Owed(q, id) => WorkerOwes(w, q, id)
  }

  function WorkerToil(w: Worker): nat {
    (if Stage(w) <= 8 then 8 - Stage(w) else 0) +
    match w
    case Running(work, counted, due) =>
      Toils(work) + (if counted then 2 else 1) - (if due && work != [] then 1 else 0)
    case Reporting => 1
    case Announcing => 1
    case InSchema(_) => 1
    case InPost(_) => 1
    case _ => 0
  }

  function WorkerOwes(w: Worker, q: Later, id: int): nat {
    match w
    case Running(work, _, _) => Orders(work, q, id)
    case InSchema(j) => if q == Schemas && j == id then 1 else 0
    case InPost(j) => if q == Posts && j == id then 1 else 0
    case _ => 0
  }

  /** The steps an effect leads to, those of the jobs it makes included. */
  function ToilOf(e: Effect): nat {
    match e
    case ToSchema(_) => 3
    case ToPost(_) => 3
    case NewTable(w) => 3 + Toils(w)
    case NewDatabase(w) => 5 + Toils(w)
  }

  function Toils(work: seq<Effect>): (n: nat)
    ensures work != [] ==> 3 <= n
  {
    if work == [] then 0 else ToilOf(work[0]) + Toils(work[1..])
  }

  /** How many jobs with this id an effect puts in a queue, at once or through the jobs it makes. */
  function OrdersOf(e: Effect, q: Later, id: int): nat {
    match e
    case ToSchema(j) => if q == Schemas && j == id then 1 else 0
    case ToPost(j) => if q == Posts && j == id then 1 else 0
    case NewTable(w) => Orders(w, q, id)
    case NewDatabase(w) => Orders(w, q, id)
  }

  function Orders(work: seq<Effect>, q: Later, id: int): nat {
    if work == [] then 0 else OrdersOf(work[0], q, id) + Orders(work[1..], q, id)
  }

  function Tally(ws: seq<Worker>, m: Meter): nat {
    if ws == [] then 0 else Reading(ws[0], m) + Tally(ws[1..], m)
  }

  datatype JobKind = CountedKind | StatusKind | ShutdownKind | ToilKind | OwedKind(q: Later, id: int)

  function Jobs(q: seq<Job>, kind: JobKind): nat {
    if q == [] then 0 else JobReading(q[0], kind) + Jobs(q[1..], kind)
  }

  function JobReading(j: Job, kind: JobKind): nat {
    match kind
    case CountedKind => if j.Counted? then 1 else 0
    case StatusKind => if j == Status then 1 else 0
    case ShutdownKind => if j == Shutdown then 1 else 0
    case ToilKind =>
      (match j
       case Counted(w) => Toils(w) + 3
       case TableJob(w) => Toils(w) + 2
       case Status => 2
       case Piece(_) => 2
       case Shutdown => 0)
    case OwedKind(q, id) =>
      (match j
       case Counted(w) => Orders(w, q, id)
       case TableJob(w) => Orders(w, q, id)
       case Piece(j) => if j == id then 1 else 0
       case _ => 0)
  }

  lemma {:induction false} TallyAfterUpdate(ws: seq<Worker>, i: nat, w: Worker, m: Meter)
    requires i < |ws|
    ensures Tally(ws[i := w], m) == Tally(ws, m) - Reading(ws[i], m) + Reading(w, m)
    ensures Reading(ws[i], m) <= Tally(ws, m)
  {
    if i == 0 {
      assert ws[i := w][1..] == ws[1..];
    } else {
      assert ws[i := w][1..] == ws[1..][i - 1 := w];
      TallyAfterUpdate(ws[1..], i - 1, w, m);
    }
  }

  lemma {:induction false} TallyIsAll(ws: seq<Worker>, k: nat)
    ensures Tally(ws, Past(k)) <= |ws|
    ensures Tally(ws, Past(k)) == |ws| <==> forall i :: 0 <= i < |ws| ==> Stage(ws[i]) >= k
  {
    if ws != [] {
      TallyIsAll(ws[1..], k);
      assert forall i :: 0 < i < |ws| ==> ws[i] == ws[1..][i - 1];
    }
  }

  lemma {:induction false} PastDecreases(ws: seq<Worker>, j: nat, k: nat)
    requires j <= k
    ensures Tally(ws, Past(k)) <= Tally(ws, Past(j))
  {
    if ws != [] { PastDecreases(ws[1..], j, k); }
  }

  lemma {:induction false} JobsAfterAppend(q: seq<Job>, j: Job, kind: JobKind)
    ensures Jobs(q + [j], kind) == Jobs(q, kind) + JobReading(j, kind)
  {
    if q == [] {
      assert q + [j] == [j];
    } else {
      assert (q + [j])[1..] == q[1..] + [j];
      JobsAfterAppend(q[1..], j, kind);
    }
  }

  lemma {:induction false} NoneOfKind(q: seq<Job>, kind: JobKind)
    ensures Jobs(q, kind) == 0 <==> forall i :: 0 <= i < |q| ==> JobReading(q[i], kind) == 0
  {
    if q != [] {
      NoneOfKind(q[1..], kind);
      assert forall i :: 0 < i < |q| ==> q[i] == q[1..][i - 1];
    }
  }

  // ----- the invariant

  function MainStage(m: Main): nat {
    match m
    case AwaitStatus => 0
    case AwaitDatabases => 1
    case StopInitial(_) => 2
    case AwaitCompleted(_) => 3
    case StopSchema(_) => 4
    case OpenData(_) => 5
    case AwaitUnlock(_) => 6
    case StopPost(_) => 7
    case Joining => 8
    case Ended => 9
  }

  /** How far the main thread is in the loop over the workers at this stage. */
  function Turns(c: Config, m: Main, stage: nat): nat {
    if MainStage(m) < stage then 0
    else if MainStage(m) == stage && 2 <= stage <= 7 then m.k
    else c.n
  }

  /** What passes between the main thread and the workers, one for each worker. */
  datatype Gate = InitialStops | CompletedTokens | SchemaStops | Openings | UnlockTokens | PostStops

  /** How many the main thread has given or taken. */
  function ByMain(c: Config, m: Main, g: Gate): nat {
    match g
    case InitialStops => Turns(c, m, 2)
    case CompletedTokens => Turns(c, m, 3)
    case SchemaStops => Turns(c, m, 4)
    case Openings => Turns(c, m, 5)
    case UnlockTokens => if c.waitUnlock then Turns(c, m, 6) else 0
    case PostStops => Turns(c, m, 7)
  }

  /** The phase a worker is in once it has given or taken its own. */
  function Beyond(c: Config, g: Gate): nat {
    match g
    case InitialStops => 1
    case CompletedTokens => 2
    case SchemaStops => 3
    case Openings => 4
    case UnlockTokens => if c.trx then 6 else 5
    case PostStops => 8
  }

  function ByWorkers(c: Config, ws: seq<Worker>, g: Gate): nat {
    if g == Openings && c.noData then 0 else Tally(ws, Past(Beyond(c, g)))
  }

  function InFlight(s: State, g: Gate): nat {
    match g
    case InitialStops => Jobs(s.initial, ShutdownKind)
    case CompletedTokens => s.completed
    case SchemaStops => Jobs(s.schema, ShutdownKind)
    case Openings => s.openings
    case UnlockTokens => s.unlocks
    case PostStops => Jobs(s.post, ShutdownKind)
  }

  predicate FromWorkers(g: Gate) { g == CompletedTokens || g == UnlockTokens }

  predicate Passes(c: Config, from: Worker, to: Worker, g: Gate) {
    Stage(from) < Beyond(c, g) <= Stage(to) && !(g == Openings && c.noData)
  }

  /** What was given is in flight or was taken. */
  ghost predicate Balanced(c: Config, s: State, g: Gate) {
    if FromWorkers(g) then InFlight(s, g) + ByMain(c, s.main, g) == ByWorkers(c, s.workers, g)
    else InFlight(s, g) + ByWorkers(c, s.workers, g) == ByMain(c, s.main, g)
  }

  /** The main thread counts its pushes and pops below the number of workers. */
  predicate MainOk(c: Config, m: Main) {
    match m
    case StopInitial(k) => k < c.n
    case AwaitCompleted(k) => k < c.n
    case StopSchema(k) => k < c.n
    case OpenData(k) => k < c.n
    case AwaitUnlock(k) => k < c.n && c.waitUnlock
    case StopPost(k) => k < c.n
    case _ => true
  }

  /** `database_counter` is the number of counted jobs queued, running, or about to be queued. */
  ghost predicate CounterOk(s: State) {
    s.counter == Jobs(s.initial, CountedKind) + Tally(s.workers, Load)
  }

  /** db_ready is pushed when, and only when, the counter reaches zero, and once. */
  ghost predicate ReadyOk(s: State) {
    Tally(s.workers, Announcers) + s.dbReady + (if MainStage(s.main) < 2 then 0 else 1)
    == (if s.counter == 0 then 1 else 0)
  }

  /** The status job is queued, under way, reported, or taken note of. */
  ghost predicate StatusOk(s: State) {
    s.statuses + Tally(s.workers, Reporters) + Jobs(s.initial, StatusKind)
    + (if s.main == AwaitStatus then 0 else 1) == 1
  }

  /** Every shutdown job and token is in its queue, or its taker is past it. */
  ghost predicate TokensOk(c: Config, s: State) {
    && |s.workers| == c.n && 0 < c.n && MainOk(c, s.main)
    && Balanced(c, s, InitialStops) && Balanced(c, s, CompletedTokens)
    && Balanced(c, s, SchemaStops) && Balanced(c, s, Openings)
    && Balanced(c, s, UnlockTokens) && Balanced(c, s, PostStops)
  }

  /** Shutdown jobs come last, and once one was taken nothing else is left. */
  ghost predicate StopsLast(q: seq<Job>, taken: nat) {
    && (forall a, b :: 0 <= a < b < |q| && q[a] == Shutdown ==> q[b] == Shutdown)
    && (0 < taken ==> forall a :: 0 <= a < |q| ==> q[a] == Shutdown)
  }

  ghost predicate PiecesOnly(q: seq<Job>) {
    forall a :: 0 <= a < |q| ==> q[a].Piece? || q[a] == Shutdown
  }

  ghost predicate OrderOk(s: State) {
    && StopsLast(s.initial, Tally(s.workers, Past(1)))
    && StopsLast(s.schema, Tally(s.workers, Past(3)))
    && StopsLast(s.post, Tally(s.workers, Past(8)))
    && PiecesOnly(s.schema) && PiecesOnly(s.post)
    && (forall a :: 0 <= a < |s.initial| ==> !s.initial[a].Piece?)
  }

  /** Registering a table only makes jobs for later phases. */
  predicate Plain(work: seq<Effect>) {
    forall e :: e in work ==> e.ToSchema? || e.ToPost?
  }

  predicate WorkOk(work: seq<Effect>) {
    forall e :: e in work ==>
      match e
      case NewTable(w) => Plain(w)
      case NewDatabase(w) => WorkOk(w)
      case _ => true
  }

  predicate JobOk(j: Job) {
    match j
    case Counted(w) => WorkOk(w)
    case TableJob(w) => Plain(w)
    case _ => true
  }

  predicate WorkerOk(w: Worker) {
    w.Running? ==>
      && (if w.counted then WorkOk(w.work) else Plain(w.work))
      && (w.due ==> w.counted && w.work != [] && w.work[0].NewDatabase?)
  }

  ghost predicate WorksOk(s: State) {
    && (forall a :: 0 <= a < |s.initial| ==> JobOk(s.initial[a]))
    && (forall i :: 0 <= i < |s.workers| ==> WorkerOk(s.workers[i]))
  }

  /** wait_working_thread_to_finish joins every worker. */
  ghost predicate JoinOk(s: State) {
    s.main == Ended ==> forall i :: 0 <= i < |s.workers| ==> s.workers[i] == Exited
  }

  ghost predicate Inv(c: Config, s: State) {
    JoinOk(s) && CounterOk(s) && ReadyOk(s) && StatusOk(s) && TokensOk(c, s) && OrderOk(s) && WorksOk(s)
  }

  // ----- what the invariant says of a thread that is about to move

  /** A worker still listing: no queue has seen a shutdown job it would have to push past. */
  lemma WorkerAtInitial(c: Config, s: State, i: nat)
    requires Inv(c, s) && i < |s.workers| && Stage(s.workers[i]) == 0
    ensures Tally(s.workers, Past(1)) < c.n
    ensures ByMain(c, s.main, SchemaStops) == 0 && ByMain(c, s.main, PostStops) == 0
    ensures Jobs(s.schema, ShutdownKind) == 0 && Jobs(s.post, ShutdownKind) == 0
    ensures Tally(s.workers, Past(3)) == 0 && Tally(s.workers, Past(8)) == 0
  {
    TallyIsAll(s.workers, 1);
    TallyIsAll(s.workers, 2);
    PastDecreases(s.workers, 1, 2);
    PastDecreases(s.workers, 3, 8);
  }

  /** A counted job under way: db_ready was not pushed, so initial_queue is still open. */
  lemma CountedAtWork(c: Config, s: State, i: nat)
    requires Inv(c, s) && i < |s.workers| && s.workers[i].Running? && s.workers[i].counted
    ensures 0 < s.counter
    ensures s.main == AwaitStatus || s.main == AwaitDatabases
    ensures Jobs(s.initial, ShutdownKind) == 0 && Tally(s.workers, Past(1)) == 0
  {
    TallyAfterUpdate(s.workers, i, s.workers[i], Load);
  }

  // ----- every step keeps the invariant

  /** A job appended to a queue that has not seen a shutdown job. */
  lemma AppendKeepsOrder(q: seq<Job>, j: Job, taken: nat)
    requires StopsLast(q, taken) && Jobs(q, ShutdownKind) == 0 && taken == 0
    ensures StopsLast(q + [j], taken)
  {
    NoneOfKind(q, ShutdownKind);
    assert forall a :: 0 <= a < |q| ==> JobReading(q[a], ShutdownKind) == 0 ==> q[a] != Shutdown;
  }

  /** Nothing but shutdown jobs is left once the first of them was taken. */
  lemma TakeKeepsOrder(q: seq<Job>, taken: nat)
    requires q != [] && StopsLast(q, taken)
    ensures StopsLast(q[1..], if q[0] == Shutdown then taken + 1 else taken)
  {
    assert forall a :: 0 <= a < |q| - 1 ==> q[1..][a] == q[a + 1];
  }

  /** What a step puts in flight or takes, its worker gives or has got. */
  lemma MoveKeepsBalance(c: Config, s: State, t: State, i: nat, g: Gate)
    requires Balanced(c, s, g) && i < |s.workers| == |t.workers| && t.main == s.main
    requires t.workers == s.workers[i := t.workers[i]]
    requires var crossed := if Passes(c, s.workers[i], t.workers[i], g) then 1 else 0;
             InFlight(t, g) == InFlight(s, g) + (if FromWorkers(g) then crossed else -crossed)
    requires Passes(c, s.workers[i], t.workers[i], g) || !Passes(c, t.workers[i], s.workers[i], g)
    ensures Balanced(c, t, g)
  {
    TallyAfterUpdate(s.workers, i, t.workers[i], Past(Beyond(c, g)));
  }

  lemma TakeInitialKeepsBalance(c: Config, s: State, i: nat, g: Gate)
    requires Balanced(c, s, g)
    requires i < |s.workers| && s.workers[i] == AtInitial && s.initial != []
    ensures Balanced(c, TakeInitial(s, i), g)
  {
    var t := TakeInitial(s, i);
    assert InFlight(t, g) == InFlight(s, g) - if g == InitialStops && s.initial[0] == Shutdown then 1 else 0;
    MoveKeepsBalance(c, s, t, i, g);
  }

  lemma TakeInitialKeepsCounts(s: State, i: nat)
    requires i < |s.workers| && s.workers[i] == AtInitial && s.initial != []
    ensures CounterOk(s) ==> CounterOk(TakeInitial(s, i))
    ensures StatusOk(s) ==> StatusOk(TakeInitial(s, i))
  {
    var w := TakeInitial(s, i).workers[i];
    TallyAfterUpdate(s.workers, i, w, Load);
    TallyAfterUpdate(s.workers, i, w, Reporters);
  }

  lemma TakeInitialKeepsReady(s: State, i: nat)
    requires i < |s.workers| && s.workers[i] == AtInitial && s.initial != [] && ReadyOk(s)
    ensures ReadyOk(TakeInitial(s, i))
  {
    TallyAfterUpdate(s.workers, i, TakeInitial(s, i).workers[i], Announcers);
  }

  lemma TakeInitialKeepsOrder(s: State, i: nat)
    requires OrderOk(s) && WorksOk(s) && i < |s.workers| && s.workers[i] == AtInitial && s.initial != []
    ensures OrderOk(TakeInitial(s, i)) && WorksOk(TakeInitial(s, i))
  {
    var w := TakeInitial(s, i).workers[i];
    assert JobOk(s.initial[0]);
    TakeKeepsOrder(s.initial, Tally(s.workers, Past(1)));
    TallyAfterUpdate(s.workers, i, w, Past(1));
    TallyAfterUpdate(s.workers, i, w, Past(3));
    TallyAfterUpdate(s.workers, i, w, Past(8));
  }

  lemma TakeInitialKeepsTokens(c: Config, s: State, i: nat)
    requires TokensOk(c, s) && i < |s.workers| && s.workers[i] == AtInitial && s.initial != []
    ensures TokensOk(c, TakeInitial(s, i))
  {
    TakeInitialKeepsBalance(c, s, i, InitialStops);
    TakeInitialKeepsBalance(c, s, i, CompletedTokens);
    TakeInitialKeepsBalance(c, s, i, SchemaStops);
    TakeInitialKeepsBalance(c, s, i, Openings);
    TakeInitialKeepsBalance(c, s, i, UnlockTokens);
    TakeInitialKeepsBalance(c, s, i, PostStops);
  }

  lemma TakeInitialKeepsInv(c: Config, s: State, i: nat)
    requires Inv(c, s) && i < |s.workers| && s.workers[i] == AtInitial && s.initial != []
    ensures Inv(c, TakeInitial(s, i))
  {
    TakeInitialKeepsCounts(s, i);
    TakeInitialKeepsReady(s, i);
    TakeInitialKeepsOrder(s, i);
    TakeInitialKeepsTokens(c, s, i);
  }

  // a running job

  lemma RunJobKeepsBalance(c: Config, s: State, i: nat, g: Gate)
    requires Balanced(c, s, g) && i < |s.workers| && s.workers[i].Running?
    ensures Balanced(c, RunJob(s, i), g)
  {
    var w := s.workers[i];
    var t := RunJob(s, i);
    if w.work != [] {
      match w.work[0]
      case ToSchema(id) => JobsAfterAppend(s.schema, Piece(id), ShutdownKind);
      case ToPost(id) => JobsAfterAppend(s.post, Piece(id), ShutdownKind);
      case NewTable(work) => JobsAfterAppend(s.initial, TableJob(work), ShutdownKind);
      case NewDatabase(work) => JobsAfterAppend(s.initial, Counted(work), ShutdownKind);
    }
    assert InFlight(t, g) == InFlight(s, g);
    MoveKeepsBalance(c, s, t, i, g);
  }

  lemma RunJobKeepsCounter(s: State, i: nat)
    requires i < |s.workers| && s.workers[i].Running? && WorkerOk(s.workers[i]) && CounterOk(s)
    ensures CounterOk(RunJob(s, i))
  {
    var work := s.workers[i].work;
    TallyAfterUpdate(s.workers, i, RunJob(s, i).workers[i], Load);
    if work != [] {
      assert work[0] in work;
      match work[0]
      case NewTable(w) => JobsAfterAppend(s.initial, TableJob(w), CountedKind);
      case NewDatabase(w) => JobsAfterAppend(s.initial, Counted(w), CountedKind);
      case _ =>
    }
  }

  lemma RunJobKeepsStatus(s: State, i: nat)
    requires i < |s.workers| && s.workers[i].Running? && WorkerOk(s.workers[i]) && StatusOk(s)
    ensures StatusOk(RunJob(s, i))
  {
    var work := s.workers[i].work;
    TallyAfterUpdate(s.workers, i, RunJob(s, i).workers[i], Reporters);
    if work != [] {
      assert work[0] in work;
      match work[0]
      case NewTable(w) => JobsAfterAppend(s.initial, TableJob(w), StatusKind);
      case NewDatabase(w) => JobsAfterAppend(s.initial, Counted(w), StatusKind);
      case _ =>
    }
  }

  lemma EndJobKeepsReady(s: State, i: nat)
    requires i < |s.workers| && s.workers[i].Running? && s.workers[i].work == []
    requires ReadyOk(s) && CounterOk(s)
    ensures ReadyOk(RunJob(s, i))
  {
    TallyAfterUpdate(s.workers, i, s.workers[i], Load);
    TallyAfterUpdate(s.workers, i, RunJob(s, i).workers[i], Announcers);
  }

  lemma EffectKeepsReady(s: State, i: nat)
    requires i < |s.workers| && s.workers[i].Running? && s.workers[i].work != [] && WorkerOk(s.workers[i])
    requires ReadyOk(s) && CounterOk(s)
    ensures ReadyOk(RunJob(s, i))
  {
    assert s.workers[i].work[0] in s.workers[i].work;
    TallyAfterUpdate(s.workers, i, s.workers[i], Load);
    TallyAfterUpdate(s.workers, i, RunJob(s, i).workers[i], Announcers);
  }

  lemma RunJobKeepsReady(s: State, i: nat)
    requires i < |s.workers| && s.workers[i].Running? && WorkerOk(s.workers[i]) && ReadyOk(s) && CounterOk(s)
    ensures ReadyOk(RunJob(s, i))
  {
    if s.workers[i].work == [] { EndJobKeepsReady(s, i); } else { EffectKeepsReady(s, i); }
  }

  lemma RunJobKeepsWorks(s: State, i: nat)
    requires i < |s.workers| && s.workers[i].Running? && WorksOk(s)
    ensures WorksOk(RunJob(s, i))
  {
    var w := s.workers[i];
    assert WorkerOk(w);
    if w.work != [] {
      assert w.work[0] in w.work;
      assert forall e :: e in w.work[1..] ==> e in w.work;
    }
  }

  lemma RunJobKeepsOrder(c: Config, s: State, i: nat)
    requires Inv(c, s) && i < |s.workers| && s.workers[i].Running?
    ensures OrderOk(RunJob(s, i))
  {
    var w := s.workers[i];
    var t := RunJob(s, i);
    TallyAfterUpdate(s.workers, i, t.workers[i], Past(1));
    TallyAfterUpdate(s.workers, i, t.workers[i], Past(3));
    TallyAfterUpdate(s.workers, i, t.workers[i], Past(8));
    assert WorkerOk(w);
    if w.work != [] {
      WorkerAtInitial(c, s, i);
      assert w.work[0] in w.work;
      match w.work[0]
      case ToSchema(id) => AppendKeepsOrder(s.schema, Piece(id), Tally(s.workers, Past(3)));
      case ToPost(id) => AppendKeepsOrder(s.post, Piece(id), Tally(s.workers, Past(8)));
      case NewTable(work) =>
        CountedAtWork(c, s, i);
        AppendKeepsOrder(s.initial, TableJob(work), Tally(s.workers, Past(1)));
      case NewDatabase(work) =>
        CountedAtWork(c, s, i);
        AppendKeepsOrder(s.initial, Counted(work), Tally(s.workers, Past(1)));
    }
  }

  lemma RunJobKeepsTokens(c: Config, s: State, i: nat)
    requires TokensOk(c, s) && i < |s.workers| && s.workers[i].Running?
    ensures TokensOk(c, RunJob(s, i))
  {
    RunJobKeepsBalance(c, s, i, InitialStops);
    RunJobKeepsBalance(c, s, i, CompletedTokens);
    RunJobKeepsBalance(c, s, i, SchemaStops);
    RunJobKeepsBalance(c, s, i, Openings);
    RunJobKeepsBalance(c, s, i, UnlockTokens);
    RunJobKeepsBalance(c, s, i, PostStops);
  }

  lemma RunJobKeepsInv(c: Config, s: State, i: nat)
    requires Inv(c, s) && i < |s.workers| && s.workers[i].Running?
    ensures Inv(c, RunJob(s, i))
  {
    assert WorkerOk(s.workers[i]);
    RunJobKeepsCounter(s, i);
    RunJobKeepsStatus(s, i);
    RunJobKeepsReady(s, i);
    RunJobKeepsWorks(s, i);
    RunJobKeepsOrder(c, s, i);
    RunJobKeepsTokens(c, s, i);
  }

  // the other places of a worker

  /** Worker i moved, without touching initial_queue or the counter; what it gave or took shows in
      the queues. */
  ghost predicate Passing(c: Config, s: State, t: State, i: nat) {
    && i < |s.workers| == |t.workers| && t.workers == s.workers[i := t.workers[i]]
    && t.main == s.main && t.initial == s.initial && t.counter == s.counter
    && Reading(s.workers[i], Load) == 0 && !t.workers[i].Running?
    && t.statuses == s.statuses + Reading(s.workers[i], Reporters) && t.workers[i] != Reporting
    && t.dbReady == s.dbReady + Reading(s.workers[i], Announcers) && t.workers[i] != Announcing
    && Stage(s.workers[i]) <= Stage(t.workers[i])
    && (Stage(s.workers[i]) == 0 ==> Stage(t.workers[i]) == 0)
    && TookOf(s.schema, t.schema, Stage(s.workers[i]) < 3 <= Stage(t.workers[i]))
    && TookOf(s.post, t.post, Stage(s.workers[i]) < 8 <= Stage(t.workers[i]))
    && t.completed == s.completed + Crossing(c, s, t, i, CompletedTokens)
    && t.openings == s.openings - Crossing(c, s, t, i, Openings)
    && t.unlocks == s.unlocks + Crossing(c, s, t, i, UnlockTokens)
  }

  ghost predicate TookOf(q: seq<Job>, r: seq<Job>, stop: bool) {
    if stop then q != [] && q[0] == Shutdown && r == q[1..]
    else r == q || (q != [] && q[0] != Shutdown && r == q[1..])
  }

  function Crossing(c: Config, s: State, t: State, i: nat, g: Gate): nat
    requires i < |s.workers| == |t.workers|
  {
    if Passes(c, s.workers[i], t.workers[i], g) then 1 else 0
  }

  lemma PassingKeepsBalance(c: Config, s: State, t: State, i: nat, g: Gate)
    requires Passing(c, s, t, i) && Balanced(c, s, g)
    ensures Balanced(c, t, g)
  {
    MoveKeepsBalance(c, s, t, i, g);
  }

  lemma PassingKeepsCounts(c: Config, s: State, t: State, i: nat)
    requires Passing(c, s, t, i) && CounterOk(s) && ReadyOk(s) && StatusOk(s)
    ensures CounterOk(t) && ReadyOk(t) && StatusOk(t)
  {
    TallyAfterUpdate(s.workers, i, t.workers[i], Load);
    TallyAfterUpdate(s.workers, i, t.workers[i], Reporters);
    TallyAfterUpdate(s.workers, i, t.workers[i], Announcers);
  }

  lemma PassingKeepsOrder(c: Config, s: State, t: State, i: nat)
    requires Passing(c, s, t, i) && OrderOk(s) && WorksOk(s)
    ensures OrderOk(t) && WorksOk(t)
  {
    TallyAfterUpdate(s.workers, i, t.workers[i], Past(1));
    TallyAfterUpdate(s.workers, i, t.workers[i], Past(3));
    TallyAfterUpdate(s.workers, i, t.workers[i], Past(8));
  }

  lemma PassingKeepsInv(c: Config, s: State, t: State, i: nat)
    requires Passing(c, s, t, i) && Inv(c, s)
    ensures Inv(c, t)
  {
    PassingKeepsCounts(c, s, t, i);
    PassingKeepsOrder(c, s, t, i);
    PassingKeepsBalance(c, s, t, i, InitialStops);
    PassingKeepsBalance(c, s, t, i, CompletedTokens);
    PassingKeepsBalance(c, s, t, i, SchemaStops);
    PassingKeepsBalance(c, s, t, i, Openings);
    PassingKeepsBalance(c, s, t, i, UnlockTokens);
    PassingKeepsBalance(c, s, t, i, PostStops);
  }

  lemma MoveOnIsPassing(c: Config, s: State, i: nat)
    requires i < |s.workers| && WorkerEnabled(c, s, s.workers[i])
    requires s.workers[i] != AtInitial && !s.workers[i].Running?
    requires PiecesOnly(s.schema) && PiecesOnly(s.post)
    ensures Passing(c, s, DoWorker(c, s, i), i)
  {
  }

  // the main thread

  /** The main thread is in the loop that gives or takes at this gate. */
  predicate MainAt(m: Main, g: Gate) {
    MainStage(m) == match g
      case InitialStops => 2
      case CompletedTokens => 3
      case SchemaStops => 4
      case Openings => 5
      case UnlockTokens => 6
      case PostStops => 7
  }

  lemma MainTurns(c: Config, s: State, g: Gate)
    requires MainEnabled(s) && MainOk(c, s.main) && 0 < c.n
    ensures ByMain(c, DoMain(c, s).main, g) == ByMain(c, s.main, g) + if MainAt(s.main, g) then 1 else 0
    ensures MainOk(c, DoMain(c, s).main)
  {
  }

  lemma MainPasses(c: Config, s: State, g: Gate)
    requires MainEnabled(s)
    ensures InFlight(DoMain(c, s), g) ==
      InFlight(s, g) + if !MainAt(s.main, g) then 0 else if FromWorkers(g) then -1 else 1
    ensures DoMain(c, s).workers == s.workers
  {
    JobsAfterAppend(s.initial, Shutdown, ShutdownKind);
    JobsAfterAppend(s.schema, Shutdown, ShutdownKind);
    JobsAfterAppend(s.post, Shutdown, ShutdownKind);
  }

  lemma MainKeepsBalance(c: Config, s: State, t: State, g: Gate)
    requires MainEnabled(s) && MainOk(c, s.main) && 0 < c.n && Balanced(c, s, g) && t == DoMain(c, s)
    ensures Balanced(c, t, g)
  {
    MainTurns(c, s, g);
    MainPasses(c, s, g);
  }

  lemma MainKeepsCounts(c: Config, s: State)
    requires MainEnabled(s) && CounterOk(s) && ReadyOk(s) && StatusOk(s)
    ensures CounterOk(DoMain(c, s)) && ReadyOk(DoMain(c, s)) && StatusOk(DoMain(c, s))
  {
    JobsAfterAppend(s.initial, Shutdown, CountedKind);
    JobsAfterAppend(s.initial, Shutdown, StatusKind);
  }

  lemma MainKeepsOrder(c: Config, s: State)
    requires MainEnabled(s) && OrderOk(s) && WorksOk(s)
    ensures OrderOk(DoMain(c, s)) && WorksOk(DoMain(c, s))
  {
  }

  lemma MainKeepsInv(c: Config, s: State, t: State)
    requires MainEnabled(s) && Inv(c, s) && t == DoMain(c, s)
    ensures Inv(c, t)
  {
    MainKeepsCounts(c, s);
    MainKeepsOrder(c, s);
    MainTurns(c, s, InitialStops);
    MainPasses(c, s, InitialStops);
    MainKeepsBalance(c, s, t, InitialStops);
    MainKeepsBalance(c, s, t, CompletedTokens);
    MainKeepsBalance(c, s, t, SchemaStops);
    MainKeepsBalance(c, s, t, Openings);
    MainKeepsBalance(c, s, t, UnlockTokens);
    MainKeepsBalance(c, s, t, PostStops);
  }

  lemma StepKeepsInv(c: Config, s: State, step: Step)
    requires Inv(c, s) && Enabled(c, s, step)
    ensures Inv(c, Do(c, s, step))
  {
    match step
    case MainStep => MainKeepsInv(c, s, DoMain(c, s));
    case WorkerStep(i) =>
      if s.workers[i] == AtInitial {
        TakeInitialKeepsInv(c, s, i);
      } else if s.workers[i].Running? {
        RunJobKeepsInv(c, s, i);
      } else {
        MoveOnIsPassing(c, s, i);
        PassingKeepsInv(c, s, DoWorker(c, s, i), i);
      }
  }
}

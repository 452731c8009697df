/** The chunk builder and the workers of one table list: the builder answers the workers' requests,
    one token for one job, until the list is empty, and then sends every worker a shutdown job on
    both of its queues. */
module Builder {
  import opened Optional

  // ----- tables and jobs

  datatype Kind = WholeTable | ByInteger | ByString | ByPartition

  datatype Status = Undefined | Defining | Ready

  /** `running` is current_threads_running; `made` counts the chunks handed out so far, `defined` how
      often set_chunk_strategy_for_dbt was called. */
  datatype Table = Table(status: Status, kind: Kind, running: int, made: nat, defined: nat)

  datatype Job =
    | Determine(t: nat)
    | Dump(t: nat, n: nat, late: bool)  // chunk n of table t; late: sent to the deferred queue
    | Defer(t: nat)
    | Shutdown

  datatype Builder =
    | Idle                              // waiting for a token
    | Scanning(level: nat, pos: nat, flag: bool)
    | AnsweringLate(t: nat, n: nat)     // use_defer: the dump job first, then the reply
    | Answering(job: Job)
    | Retrying
    | Stopping(k: nat)
    | StoppingLate(k: nat)
    | Finished

  datatype Worker =
    | Asking                            // about to push a token
    | Waiting                           // on the queue
    | Working(job: Job)
    | AtDefer                           // waiting on the deferred queue
    | WorkingLate(job: Job)
    | Gone

  /** `workers` is num_threads, `cap` is max_threads_per_table. */
  datatype Config = Config(workers: nat, cap: nat, useDefer: bool)

  datatype State = State(
    tables: seq<Table>, list: seq<nat>,
    requests: nat, queue: seq<Job>, defer: seq<Job>,
    builder: Builder, workers: seq<Worker>, done: multiset<(nat, nat)>)

  /** `found` is the answer of get_next, where it is asked for. */
  datatype Step = BuilderStep(found: bool) | WorkerStep(i: nat)

  // ----- the builder

  /** After the last level the builder gives up, unless something may still come. */
  function NextLevel(c: Config, level: nat, flag: bool): Builder {
    if level < c.cap then Scanning(level, 0, flag) else if flag then Retrying else Stopping(0)
  }

  function Reply(c: Config, kind: Kind, t: nat, n: nat): Builder {
    if kind == ByInteger && c.useDefer then AnsweringLate(t, n) else Answering(Dump(t, n, false))
  }

  function Without(list: seq<nat>, pos: nat): seq<nat>
    requires pos < |list|
  {
    list[..pos] + list[pos + 1..]
  }

  /** What the builder makes of the table it looks at. */
  datatype Verdict = Define | Pass | Whole | Serve | Drop

  function Look(c: Config, table: Table, level: nat, found: bool): Verdict {
    match table.status
    case Undefined => Define
    case Defining => Pass
    case Ready =>
      if table.kind == WholeTable then Whole
      else if c.cap <= table.running || table.running > level then Pass
      else if found then Serve
      else Drop
  }

  function Judged(table: Table, v: Verdict): Table {
    match v
    case Define => table.(status := Defining)
    case Whole => table.(made := table.made + 1)
    case Serve => table.(running := table.running + 1, made := table.made + 1)
    case _ => table
  }

  function Visit(c: Config, s: State, found: bool): State
    requires s.builder.Scanning? && s.builder.pos < |s.list| && s.list[s.builder.pos] < |s.tables|
  {
    var Scanning(level, pos, flag) := s.builder;
    var t := s.list[pos];
    var v := Look(c, s.tables[t], level, found);
    s.(tables := s.tables[t := Judged(s.tables[t], v)],
       list := if v == Whole || v == Drop then Without(s.list, pos) else s.list,
       builder := match v
         case Define => Answering(Determine(t))
         case Pass => Scanning(level, pos + 1, true)
         case Whole => Answering(Dump(t, s.tables[t].made, false))
         case Serve => Reply(c, s.tables[t].kind, t, s.tables[t].made)
         case Drop => s.builder)
  }

  function DoBuilder(c: Config, s: State, found: bool): State
    requires BuilderEnabled(s)
  {
    match s.builder
    case Idle => s.(requests := s.requests - 1, builder := NextLevel(c, 0, false))
    case Scanning(level, pos, flag) =>
      if pos < |s.list| then Visit(c, s, found) else s.(builder := NextLevel(c, level + 1, flag))
    case AnsweringLate(t, n) => s.(defer := s.defer + [Dump(t, n, true)], builder := Answering(Defer(t)))
    case Answering(job) => s.(queue := s.queue + [job], builder := Idle)
    case Retrying => s.(requests := s.requests + 1, builder := Idle)
    case Stopping(k) =>
      if k < c.workers then s.(queue := s.queue + [Shutdown], builder := Stopping(k + 1))
      else s.(builder := StoppingLate(0))
    case StoppingLate(k) =>
      if k < c.workers then s.(defer := s.defer + [Shutdown], builder := StoppingLate(k + 1))
      else s.(builder := Finished)
  }

  predicate BuilderEnabled(s: State) {
    match s.builder
    case Idle => s.requests > 0
    case Scanning(_, pos, _) => pos < |s.list| ==> s.list[pos] < |s.tables|
    case Finished => false
    case _ => true
  }

  // ----- the workers

  function SetWorker(s: State, i: nat, w: Worker): State
    requires i < |s.workers|
  {
    s.(workers := s.workers[i := w])
  }

  function Executed(table: Table, job: Job): Table {
    match job
    case Determine(_) => table.(status := Ready, defined := table.defined + 1)
    case Dump(_, _, _) => table.(running := table.running - 1)
    case Defer(_) => table.(running := table.running - 1)
    case Shutdown => table
  }

  /** process_job: what is left of a job when it is done. */
  function Execute(s: State, job: Job): State
    requires job != Shutdown && job.t < |s.tables|
  {
    s.(tables := s.tables[job.t := Executed(s.tables[job.t], job)],
       done := if job.Dump? then s.done + multiset{(job.t, job.n)} else s.done)
  }

  function DoWorker(s: State, i: nat): State
    requires i < |s.workers| && WorkerEnabled(s, s.workers[i])
  {
    match s.workers[i]
    case Asking => SetWorker(s.(requests := s.requests + 1), i, Waiting)
    case Waiting =>
      SetWorker(s.(queue := s.queue[1..]), i, if s.queue[0] == Shutdown then AtDefer else Working(s.queue[0]))
    case Working(job) => SetWorker(Execute(s, job), i, Asking)
    case AtDefer =>
      SetWorker(s.(defer := s.defer[1..]), i, if s.defer[0] == Shutdown then Gone else WorkingLate(s.defer[0]))
    case WorkingLate(job) => SetWorker(Execute(s, job), i, AtDefer)
  }

  predicate WorkerEnabled(s: State, w: Worker) {
    match w
    case Asking => true
    case Waiting => s.queue != []
    case Working(job) => job != Shutdown && job.t < |s.tables|
    case AtDefer => s.defer != []
    case WorkingLate(job) => job != Shutdown && job.t < |s.tables|
    case Gone => false
  }

  // ----- runs

  predicate Enabled(s: State, step: Step) {
    match step
    case BuilderStep(_) => BuilderEnabled(s)
    case WorkerStep(i) => i < |s.workers| && WorkerEnabled(s, s.workers[i])
  }

  function Do(c: Config, s: State, step: Step): State
    requires Enabled(s, step)
  {
    match step
    case BuilderStep(found) => DoBuilder(c, s, found)
    case WorkerStep(i) => DoWorker(s, i)
  }

  function Run(c: Config, s: State, steps: seq<Step>): Option<State>
    decreases |steps|
  {
    if steps == [] then Some(s)
    else if Enabled(s, steps[0]) then Run(c, Do(c, s, steps[0]), steps[1..])
    else None
  }

  /** The job a worker has taken that is now there. */
  function JobTaken(w: Worker): Job { if w.Working? || w.WorkingLate? then w.job else Shutdown }

  /** Jobs are taken in the order they are sent: the builder adds at the back of a queue, a worker takes the
      head, and keeps it as its job unless it is a shutdown job. */
  lemma QueuesInOrder(c: Config, s: State, step: Step)
    requires Enabled(s, step)
    ensures var r := Do(c, s, step);
            match step
            case BuilderStep(_) => s.queue <= r.queue && s.defer <= r.defer && |r.queue| + |r.defer| <= |s.queue| + |s.defer| + 1
            case WorkerStep(i) =>
              var w, v := s.workers[i], r.workers[i];
              && (if w == Waiting then s.queue == [JobTaken(v)] + r.queue
                  else r.queue == s.queue)
              && (if w == AtDefer then s.defer == [JobTaken(v)] + r.defer
                  else r.defer == s.defer)
  {
  }

  // ----- tallies

  function Stage(w: Worker): nat {
    match w
    case AtDefer => 1
    case WorkingLate(_) => 1
    case Gone => 2
    case _ => 0
  }

  /** What jobs and threads are counted for: waiting for a reply, being past a queue, being a
      shutdown job, defining a table, taking up a thread of a table, holding a chunk, being one of the
      deferred chunks, the steps a worker has still to take for it. */
  datatype Meter = Waiters | Past(stage: nat) | Stops | Defines(t: nat) | Charges(t: nat) | Holds(t: nat, n: nat) | Late(t: nat) | Toil

  function JobReading(j: Job, m: Meter): nat {
    match m
    case Stops => if j == Shutdown then 1 else 0
    case Defines(t) => if j == Determine(t) then 1 else 0
    case Charges(t) => if (j.Dump? && j.t == t && !j.late) || j == Defer(t) then 1 else 0
    case Holds(t, n) => if j.Dump? && j.t == t && j.n == n then 1 else 0
    case Late(t) => if j.Dump? && j.t == t && j.late then 1 else 0
    case Toil => if j == Shutdown then 0 else if j.Dump? && j.late then 2 else 3
    case _ => 0
  }

  function Reading(w: Worker, m: Meter): nat {
    match m
    case Waiters => if w == Waiting then 1 else 0
    case Past(k) => if Stage(w) >= k then 1 else 0
    case Toil =>
      (match w
       case Asking => 3
       case Waiting => 2
       case Working(_) => 4
       case AtDefer => 1
       case WorkingLate(_) => 2
       case Gone => 0)
    case _ => if w.Working? || w.WorkingLate? then JobReading(w.job, m) else 0
  }

  function BuilderReading(b: Builder, m: Meter): nat {
    match b
    case Answering(job) => JobReading(job, m)
    case AnsweringLate(t, n) => JobReading(Dump(t, n, true), m) + JobReading(Defer(t), m)
    case _ => 0
  }

  function Jobs(q: seq<Job>, m: Meter): nat {
    if q == [] then 0 else JobReading(q[0], m) + Jobs(q[1..], m)
  }

  function Tally(ws: seq<Worker>, m: Meter): nat {
    if ws == [] then 0 else Reading(ws[0], m) + Tally(ws[1..], m)
  }

  /** Over the queues, the workers and the builder. */
  function Total(s: State, m: Meter): nat {
    Jobs(s.queue, m) + Jobs(s.defer, m) + Tally(s.workers, m) + BuilderReading(s.builder, m)
  }

  lemma {:induction false} TallyAfterUpdate(ws: seq<Worker>, i: nat, w: Worker, m: Meter)
    requires i < |ws|
    ensures Tally(ws[i := w], m) == Tally(ws, m) - Reading(ws[i], m) + Reading(w, m)
    ensures Reading(ws[i], m) <= Tally(ws, m)
  {
    if i == 0 {
      assert ws[i := w][1..] == ws[1..];
    } else {
      assert ws[i := w][1..] == ws[1..][i - 1 := w];
      TallyAfterUpdate(ws[1..], i - 1, w, m);
    }
  }

  lemma {:induction false} TallyIsAll(ws: seq<Worker>, k: nat)
    ensures Tally(ws, Past(k)) <= |ws|
    ensures Tally(ws, Past(k)) == |ws| <==> forall i :: 0 <= i < |ws| ==> Stage(ws[i]) >= k
  {
    if ws != [] {
      TallyIsAll(ws[1..], k);
      assert forall i :: 0 < i < |ws| ==> ws[i] == ws[1..][i - 1];
    }
  }

  lemma {:induction false} NoReading(ws: seq<Worker>, m: Meter)
    requires forall i :: 0 <= i < |ws| ==> Reading(ws[i], m) == 0
    ensures Tally(ws, m) == 0
  {
    if ws != [] { NoReading(ws[1..], m); }
  }

  lemma {:induction false} JobsAfterAppend(q: seq<Job>, j: Job, m: Meter)
    ensures Jobs(q + [j], m) == Jobs(q, m) + JobReading(j, m)
  {
    if q == [] {
      assert q + [j] == [j];
    } else {
      assert (q + [j])[1..] == q[1..] + [j];
      JobsAfterAppend(q[1..], j, m);
    }
  }

  lemma {:induction false} JobsFinds(q: seq<Job>, a: nat, m: Meter)
    requires a < |q|
    ensures JobReading(q[a], m) <= Jobs(q, m)
  {
    if a > 0 { JobsFinds(q[1..], a - 1, m); }
  }

  lemma {:induction false} AllStops(q: seq<Job>)
    requires forall a :: 0 <= a < |q| ==> q[a] == Shutdown
    ensures Jobs(q, Stops) == |q|
  {
    if q != [] { AllStops(q[1..]); }
  }

  // ----- the invariant

  predicate Active(b: Builder) {
    !b.Stopping? && !b.StoppingLate? && !b.Finished?
  }

  /** The builder has taken a token it has not answered or put back. */
  predicate Holding(b: Builder) {
    Active(b) && b != Idle
  }

  function QueueStops(c: Config, b: Builder): nat {
    if Active(b) then 0 else if b.Stopping? then b.k else c.workers
  }

  function DeferStops(c: Config, b: Builder): nat {
    if b.StoppingLate? then b.k else if b == Finished then c.workers else 0
  }

  /** Until the builder stops, every waiting worker has its token in the request queue, in the
      builder's hands, or turned into a reply. */
  ghost predicate TokensOk(s: State) {
    Active(s.builder) ==>
      Tally(s.workers, Waiters) == s.requests + |s.queue| + (if Holding(s.builder) then 1 else 0)
  }

  /** Shutdown jobs come last, and once one was taken nothing else is left. */
  ghost predicate StopsLast(q: seq<Job>, taken: nat) {
    && (forall a, b :: 0 <= a < b < |q| && q[a] == Shutdown ==> q[b] == Shutdown)
    && (0 < taken ==> forall a :: 0 <= a < |q| ==> q[a] == Shutdown)
  }

  /** A shutdown job that was sent is in the queue, or its taker is past the queue. */
  ghost predicate ClosingOk(q: seq<Job>, ws: seq<Worker>, stage: nat, sent: nat) {
    Jobs(q, Stops) + Tally(ws, Past(stage)) == sent && StopsLast(q, Tally(ws, Past(stage)))
  }

  ghost predicate StopsOk(c: Config, s: State) {
    && |s.workers| == c.workers && 0 < c.workers
    && QueueStops(c, s.builder) <= c.workers && DeferStops(c, s.builder) <= c.workers
    && ClosingOk(s.queue, s.workers, 1, QueueStops(c, s.builder))
    && ClosingOk(s.defer, s.workers, 2, DeferStops(c, s.builder))
  }

  /** The chunks of the table are sent to the deferred queue. */
  predicate Deferred(c: Config, table: Table) { table.kind == ByInteger && c.useDefer }

  /** Only chunks sent to the deferred queue are there, and only there. */
  predicate JobOk(c: Config, s: State, j: Job, late: bool) {
    j == Shutdown
    || (j.t < |s.tables| && if late then j.Dump? && j.late && Deferred(c, s.tables[j.t]) else j.Dump? ==> !j.late)
  }

  predicate WorkerOk(c: Config, s: State, w: Worker) {
    match w
    case Working(job) => job != Shutdown && JobOk(c, s, job, false)
    case WorkingLate(job) => job != Shutdown && JobOk(c, s, job, true)
    case _ => true
  }

  predicate BuilderOk(c: Config, s: State) {
    match s.builder
    case Answering(job) => job != Shutdown && JobOk(c, s, job, false)
    case AnsweringLate(t, _) => t < |s.tables| && Deferred(c, s.tables[t])
    case _ => true
  }

  ghost predicate JobsOk(c: Config, s: State) {
    && (forall a :: 0 <= a < |s.queue| ==> JobOk(c, s, s.queue[a], false))
    && (forall a :: 0 <= a < |s.defer| ==> JobOk(c, s, s.defer[a], true))
    && (forall i :: 0 <= i < |s.workers| ==> WorkerOk(c, s, s.workers[i]))
    && BuilderOk(c, s)
  }

  /** The list holds tables once; the builder stops with an empty list. */
  ghost predicate ListOk(c: Config, s: State) {
    && (forall a :: 0 <= a < |s.list| ==> s.list[a] < |s.tables|)
    && (forall a, b :: 0 <= a < b < |s.list| ==> s.list[a] != s.list[b])
    && (s.builder.Scanning? ==> s.builder.level < c.cap && s.builder.pos <= |s.list|)
    && (s.builder.Scanning? && !s.builder.flag ==> s.builder.pos == 0)
    && (!Active(s.builder) ==> s.list == [])
  }

  /** What was taken off current_threads_running without having been added: the chunk of a whole table
      was not added, and a deferred chunk is taken off twice, by its JOB_DEFER and when it is dumped. */
  function NeverAdded(c: Config, s: State, t: nat): int
    requires t < |s.tables|
  {
    if s.tables[t].kind == WholeTable then s.tables[t].made
    else if Deferred(c, s.tables[t]) then s.tables[t].made - Total(s, Late(t))
    else 0
  }

  /** A table is defined once, by the one job that says so; each of its running threads is a chunk job
      in the queue, with a worker or with the builder. */
  ghost predicate TableOk(c: Config, s: State, t: nat)
    requires t < |s.tables|
  {
    var table := s.tables[t];
    && Total(s, Defines(t)) == (if table.status == Defining then 1 else 0)
    && table.defined == (if table.status == Ready then 1 else 0)
    && (t !in s.list ==> table.status == Ready)
    && (table.status != Ready ==> table.made == 0 && table.running == 0)
    && table.running == Total(s, Charges(t)) - NeverAdded(c, s, t) && table.running <= c.cap
    && (t in s.list ==> NeverAdded(c, s, t) == 0)
  }

  ghost predicate TablesOk(c: Config, s: State) {
    forall t :: 0 <= t < |s.tables| ==> TableOk(c, s, t)
  }

  /** A chunk that was handed out is in one place, or was dumped, once. */
  ghost predicate ChunkOk(s: State, t: nat, n: nat)
    requires t < |s.tables|
  {
    Total(s, Holds(t, n)) + s.done[(t, n)] == if n < s.tables[t].made then 1 else 0
  }

  ghost predicate ChunksOk(s: State) {
    forall t, n: nat :: 0 <= t < |s.tables| ==> ChunkOk(s, t, n)
  }

  ghost predicate Inv(c: Config, s: State) {
    TokensOk(s) && StopsOk(c, s) && JobsOk(c, s) && ListOk(c, s) && TablesOk(c, s) && ChunksOk(s)
  }

  // ----- every step keeps the invariant

  predicate Placed(m: Meter) { m.Defines? || m.Charges? || m.Holds? || m.Late? }

  predicate Visiting(s: State) { s.builder.Scanning? && s.builder.pos < |s.list| }

  lemma StoppingKeepsTotal(c: Config, s: State, found: bool, m: Meter)
    requires BuilderEnabled(s) && (s.builder.Stopping? || s.builder.StoppingLate?) && Placed(m)
    ensures Total(DoBuilder(c, s, found), m) == Total(s, m)
  {
    JobsAfterAppend(s.queue, Shutdown, m);
    JobsAfterAppend(s.defer, Shutdown, m);
  }

  /** Sending a job on does not change who holds what. */
  lemma BuilderKeepsTotal(c: Config, s: State, found: bool, m: Meter)
    requires BuilderEnabled(s) && !Visiting(s) && Placed(m)
    ensures Total(DoBuilder(c, s, found), m) == Total(s, m)
  {
    match s.builder
    case Answering(job) => JobsAfterAppend(s.queue, job, m);
    case AnsweringLate(t, n) => JobsAfterAppend(s.defer, Dump(t, n, true), m);
    case Stopping(_) => StoppingKeepsTotal(c, s, found, m);
    case StoppingLate(_) => StoppingKeepsTotal(c, s, found, m);
    case _ =>
  }

  predicate Taking(s: State, i: nat) {
    i < |s.workers| && WorkerEnabled(s, s.workers[i]) && !s.workers[i].Working? && !s.workers[i].WorkingLate?
  }

  lemma TakingKeepsTotal(s: State, i: nat, m: Meter)
    requires Taking(s, i) && Placed(m)
    ensures Total(DoWorker(s, i), m) == Total(s, m)
  {
    TallyAfterUpdate(s.workers, i, DoWorker(s, i).workers[i], m);
  }

  predicate AtWork(s: State, i: nat) {
    i < |s.workers| && WorkerEnabled(s, s.workers[i]) && (s.workers[i].Working? || s.workers[i].WorkingLate?)
  }

  lemma WorkEndsTotal(s: State, i: nat, m: Meter)
    requires AtWork(s, i) && Placed(m)
    ensures Total(DoWorker(s, i), m) == Total(s, m) - JobReading(s.workers[i].job, m)
    ensures JobReading(s.workers[i].job, m) <= Total(s, m)
  {
    TallyAfterUpdate(s.workers, i, DoWorker(s, i).workers[i], m);
  }

  // the tables

  lemma BuilderKeepsTable(c: Config, s: State, found: bool, t: nat)
    requires BuilderEnabled(s) && !Visiting(s) && t < |s.tables| && TableOk(c, s, t)
    ensures TableOk(c, DoBuilder(c, s, found), t)
  {
    BuilderKeepsTotal(c, s, found, Defines(t));
    BuilderKeepsTotal(c, s, found, Charges(t));
    BuilderKeepsTotal(c, s, found, Late(t));
  }

  lemma TakingKeepsTable(c: Config, s: State, i: nat, t: nat)
    requires Taking(s, i) && t < |s.tables| && TableOk(c, s, t)
    ensures TableOk(c, DoWorker(s, i), t)
  {
    TakingKeepsTotal(s, i, Defines(t));
    TakingKeepsTotal(s, i, Charges(t));
    TakingKeepsTotal(s, i, Late(t));
  }

  /** A late chunk is dumped when the list is empty. */
  lemma LateAfterStop(c: Config, s: State, i: nat)
    requires StopsOk(c, s) && ListOk(c, s) && i < |s.workers| && Stage(s.workers[i]) >= 1
    ensures s.list == [] && !Active(s.builder)
  {
    TallyAfterUpdate(s.workers, i, s.workers[i], Past(1));
  }

  lemma WorkEndsTable(c: Config, s: State, i: nat, t: nat)
    requires AtWork(s, i) && t < |s.tables| && TableOk(c, s, t) && WorkerOk(c, s, s.workers[i])
    requires s.workers[i].WorkingLate? ==> s.list == []
    ensures TableOk(c, DoWorker(s, i), t)
  {
    WorkEndsTotal(s, i, Defines(t));
    WorkEndsTotal(s, i, Charges(t));
    WorkEndsTotal(s, i, Late(t));
  }

  /** A visit hands out what the table is charged with. */
  lemma VisitTotal(c: Config, s: State, found: bool, t: nat)
    requires BuilderEnabled(s) && Visiting(s) && t < |s.tables|
    ensures var v := Look(c, s.tables[s.list[s.builder.pos]], s.builder.level, found);
            var here := s.list[s.builder.pos] == t; var after := Visit(c, s, found);
            && Total(after, Defines(t)) == Total(s, Defines(t)) + (if here && v == Define then 1 else 0)
            && Total(after, Charges(t)) == Total(s, Charges(t)) + (if here && (v == Serve || v == Whole) then 1 else 0)
            && Total(after, Late(t)) == Total(s, Late(t))
               + (if here && v == Serve && Deferred(c, s.tables[t]) then 1 else 0)
  {
  }

  lemma VisitKeepsTable(c: Config, s: State, found: bool, t: nat)
    requires BuilderEnabled(s) && Visiting(s) && ListOk(c, s) && t < |s.tables| && TableOk(c, s, t)
    ensures TableOk(c, Visit(c, s, found), t)
  {
    VisitTotal(c, s, found, t);
    WithoutIn(s.list, s.builder.pos, t);
  }

  /** Serving a chunk comes to one job in the queue of the table's worker; where chunks of integer keys
      are deferred, the chunk goes to the other queue first, and a JOB_DEFER stands for it. */
  lemma ServedJobs(c: Config, s: State)
    requires BuilderEnabled(s) && Visiting(s)
    requires Look(c, s.tables[s.list[s.builder.pos]], s.builder.level, true) == Serve
    ensures var t := s.list[s.builder.pos]; var n := s.tables[t].made; var after := DoBuilder(c, s, true);
            var chunk := Dump(t, n, s.tables[t].kind == ByInteger && c.useDefer);
            && after.tables == s.tables[t := s.tables[t].(running := s.tables[t].running + 1, made := n + 1)]
            && (if chunk.late then
                  && after.builder == AnsweringLate(t, n)
                  && DoBuilder(c, after, true) == after.(defer := s.defer + [chunk], builder := Answering(Defer(t)))
                else after.builder == Answering(chunk))
  {
  }

  lemma WithoutIn(list: seq<nat>, pos: nat, t: nat)
    requires pos < |list| && forall a, b :: 0 <= a < b < |list| ==> list[a] != list[b]
    ensures t in Without(list, pos) <==> t in list && t != list[pos]
  {
    if t in list {
      var a :| 0 <= a < |list| && list[a] == t;
      assert a < pos ==> Without(list, pos)[a] == t;
      assert a > pos ==> Without(list, pos)[a - 1] == t;
    }
  }

  // the chunks

  lemma BuilderKeepsChunk(c: Config, s: State, found: bool, t: nat, n: nat)
    requires BuilderEnabled(s) && !Visiting(s) && t < |s.tables| && ChunkOk(s, t, n)
    ensures ChunkOk(DoBuilder(c, s, found), t, n)
  {
    BuilderKeepsTotal(c, s, found, Holds(t, n));
  }

  lemma TakingKeepsChunk(s: State, i: nat, t: nat, n: nat)
    requires Taking(s, i) && t < |s.tables| && ChunkOk(s, t, n)
    ensures ChunkOk(DoWorker(s, i), t, n)
  {
    TakingKeepsTotal(s, i, Holds(t, n));
  }

  lemma WorkEndsChunk(s: State, i: nat, t: nat, n: nat)
    requires AtWork(s, i) && t < |s.tables| && ChunkOk(s, t, n)
    ensures ChunkOk(DoWorker(s, i), t, n)
  {
    WorkEndsTotal(s, i, Holds(t, n));
  }

  lemma VisitKeepsChunk(c: Config, s: State, found: bool, t: nat, n: nat)
    requires BuilderEnabled(s) && Visiting(s) && t < |s.tables| && ChunkOk(s, t, n)
    ensures ChunkOk(Visit(c, s, found), t, n)
  {
  }

  // tokens and shutdown jobs

  lemma BuilderKeepsTokens(c: Config, s: State, found: bool)
    requires BuilderEnabled(s) && TokensOk(s)
    ensures TokensOk(DoBuilder(c, s, found))
  {
  }

  lemma WorkerKeepsTokens(c: Config, s: State, i: nat)
    requires i < |s.workers| && WorkerEnabled(s, s.workers[i]) && TokensOk(s) && StopsOk(c, s)
    ensures TokensOk(DoWorker(s, i))
  {
    TallyAfterUpdate(s.workers, i, DoWorker(s, i).workers[i], Waiters);
    if s.workers[i] == Waiting { JobsFinds(s.queue, 0, Stops); }
  }

  lemma AppendKeepsClosing(q: seq<Job>, j: Job, ws: seq<Worker>, stage: nat, sent: nat)
    requires ClosingOk(q, ws, stage, sent) && (j != Shutdown ==> sent == 0)
    ensures ClosingOk(q + [j], ws, stage, if j == Shutdown then sent + 1 else sent)
  {
    JobsAfterAppend(q, j, Stops);
    if j != Shutdown {
      forall a | 0 <= a < |q| ensures q[a] != Shutdown { JobsFinds(q, a, Stops); }
    }
  }

  lemma BuilderKeepsStops(c: Config, s: State, found: bool)
    requires BuilderEnabled(s) && StopsOk(c, s) && BuilderOk(c, s)
    ensures StopsOk(c, DoBuilder(c, s, found))
  {
    var t := DoBuilder(c, s, found);
    BuilderKeepsQueueStops(c, s, found, t);
    BuilderKeepsDeferStops(c, s, found, t);
  }

  lemma BuilderKeepsQueueStops(c: Config, s: State, found: bool, t: State)
    requires BuilderEnabled(s) && BuilderOk(c, s) && t == DoBuilder(c, s, found)
    requires ClosingOk(s.queue, s.workers, 1, QueueStops(c, s.builder)) && QueueStops(c, s.builder) <= c.workers
    ensures ClosingOk(t.queue, t.workers, 1, QueueStops(c, t.builder)) && QueueStops(c, t.builder) <= c.workers
    ensures |t.workers| == |s.workers|
  {
    match s.builder
    case Answering(job) => AppendKeepsClosing(s.queue, job, s.workers, 1, 0);
    case Stopping(k) => AppendKeepsClosing(s.queue, Shutdown, s.workers, 1, k);
    case _ =>
  }

  lemma BuilderKeepsDeferStops(c: Config, s: State, found: bool, t: State)
    requires BuilderEnabled(s) && t == DoBuilder(c, s, found)
    requires ClosingOk(s.defer, s.workers, 2, DeferStops(c, s.builder)) && DeferStops(c, s.builder) <= c.workers
    requires QueueStops(c, s.builder) <= c.workers
    ensures ClosingOk(t.defer, t.workers, 2, DeferStops(c, t.builder)) && DeferStops(c, t.builder) <= c.workers
  {
    match s.builder
    case AnsweringLate(t, n) => AppendKeepsClosing(s.defer, Dump(t, n, true), s.workers, 2, 0);
    case StoppingLate(k) => AppendKeepsClosing(s.defer, Shutdown, s.workers, 2, k);
    case _ =>
  }

  lemma TakeKeepsOrder(q: seq<Job>, taken: nat)
    requires q != [] && StopsLast(q, taken)
    ensures StopsLast(q[1..], if q[0] == Shutdown then taken + 1 else taken)
  {
    assert forall a :: 0 <= a < |q| - 1 ==> q[1..][a] == q[a + 1];
  }

  lemma WorkerKeepsStops(c: Config, s: State, i: nat)
    requires i < |s.workers| && WorkerEnabled(s, s.workers[i]) && StopsOk(c, s)
    ensures StopsOk(c, DoWorker(s, i))
  {
    TallyAfterUpdate(s.workers, i, DoWorker(s, i).workers[i], Past(1));
    TallyAfterUpdate(s.workers, i, DoWorker(s, i).workers[i], Past(2));
    if s.workers[i] == Waiting { TakeKeepsOrder(s.queue, Tally(s.workers, Past(1))); }
    if s.workers[i] == AtDefer { TakeKeepsOrder(s.defer, Tally(s.workers, Past(2))); }
  }

  // the shape of jobs and list

  lemma BuilderKeepsJobs(c: Config, s: State, found: bool)
    requires BuilderEnabled(s) && JobsOk(c, s)
    ensures JobsOk(c, DoBuilder(c, s, found))
  {
    assert |DoBuilder(c, s, found).tables| == |s.tables|;
  }

  lemma WorkerKeepsJobs(c: Config, s: State, i: nat)
    requires i < |s.workers| && WorkerEnabled(s, s.workers[i]) && JobsOk(c, s)
    ensures JobsOk(c, DoWorker(s, i))
  {
    assert |DoWorker(s, i).tables| == |s.tables|;
    assert WorkerOk(c, s, s.workers[i]);
  }

  lemma WithoutKeeps(list: seq<nat>, pos: nat, bound: nat)
    requires pos < |list| && forall a, b :: 0 <= a < b < |list| ==> list[a] != list[b]
    requires forall a :: 0 <= a < |list| ==> list[a] < bound
    ensures forall a, b :: 0 <= a < b < |list| - 1 ==> Without(list, pos)[a] != Without(list, pos)[b]
    ensures forall a :: 0 <= a < |list| - 1 ==> Without(list, pos)[a] < bound
  {
    assert forall a :: 0 <= a < |list| - 1 ==> Without(list, pos)[a] == list[if a < pos then a else a + 1];
  }

  lemma VisitKeepsList(c: Config, s: State, found: bool)
    requires BuilderEnabled(s) && Visiting(s) && ListOk(c, s)
    ensures ListOk(c, Visit(c, s, found))
  {
    WithoutKeeps(s.list, s.builder.pos, |s.tables|);
  }

  lemma BuilderKeepsList(c: Config, s: State, found: bool)
    requires BuilderEnabled(s) && ListOk(c, s) && 0 < c.cap
    ensures ListOk(c, DoBuilder(c, s, found))
  {
    if Visiting(s) { VisitKeepsList(c, s, found); }
  }

  lemma WorkerKeepsList(c: Config, s: State, i: nat)
    requires i < |s.workers| && WorkerEnabled(s, s.workers[i]) && ListOk(c, s)
    ensures ListOk(c, DoWorker(s, i))
  {
    assert |DoWorker(s, i).tables| == |s.tables|;
  }

  // all together

  lemma BuilderKeepsInv(c: Config, s: State, found: bool)
    requires Inv(c, s) && BuilderEnabled(s) && 0 < c.cap
    ensures Inv(c, DoBuilder(c, s, found))
  {
    var r := DoBuilder(c, s, found);
    BuilderKeepsTokens(c, s, found);
    BuilderKeepsStops(c, s, found);
    BuilderKeepsJobs(c, s, found);
    BuilderKeepsList(c, s, found);
    forall t | 0 <= t < |r.tables| ensures TableOk(c, r, t) {
      if Visiting(s) { VisitKeepsTable(c, s, found, t); } else { BuilderKeepsTable(c, s, found, t); }
    }
    forall t, n: nat | 0 <= t < |r.tables| ensures ChunkOk(r, t, n) {
      if Visiting(s) { VisitKeepsChunk(c, s, found, t, n); } else { BuilderKeepsChunk(c, s, found, t, n); }
    }
  }

  lemma WorkerKeepsTable(c: Config, s: State, i: nat, t: nat)
    requires Inv(c, s) && i < |s.workers| && WorkerEnabled(s, s.workers[i]) && t < |s.tables|
    ensures t < |DoWorker(s, i).tables| && TableOk(c, DoWorker(s, i), t)
  {
    if Taking(s, i) {
      TakingKeepsTable(c, s, i, t);
    } else {
      if s.workers[i].WorkingLate? { LateAfterStop(c, s, i); }
      assert WorkerOk(c, s, s.workers[i]);
      WorkEndsTable(c, s, i, t);
    }
  }

  lemma WorkerKeepsChunk(c: Config, s: State, i: nat, t: nat, n: nat)
    requires Inv(c, s) && i < |s.workers| && WorkerEnabled(s, s.workers[i]) && t < |s.tables|
    ensures t < |DoWorker(s, i).tables| && ChunkOk(DoWorker(s, i), t, n)
  {
    if Taking(s, i) { TakingKeepsChunk(s, i, t, n); } else { WorkEndsChunk(s, i, t, n); }
  }

  lemma WorkerKeepsInv(c: Config, s: State, i: nat)
    requires Inv(c, s) && i < |s.workers| && WorkerEnabled(s, s.workers[i])
    ensures Inv(c, DoWorker(s, i))
  {
    var r := DoWorker(s, i);
    assert |r.tables| == |s.tables|;
    WorkerKeepsTokens(c, s, i);
    WorkerKeepsStops(c, s, i);
    WorkerKeepsJobs(c, s, i);
    WorkerKeepsList(c, s, i);
    forall t | 0 <= t < |r.tables| ensures TableOk(c, r, t) { WorkerKeepsTable(c, s, i, t); }
    forall t, n: nat | 0 <= t < |r.tables| ensures ChunkOk(r, t, n) { WorkerKeepsChunk(c, s, i, t, n); }
  }

  lemma StepKeepsInv(c: Config, s: State, step: Step)
    requires Inv(c, s) && Enabled(s, step) && 0 < c.cap
    ensures Inv(c, Do(c, s, step))
  {
    match step
    case BuilderStep(found) => BuilderKeepsInv(c, s, found);
    case WorkerStep(i) => WorkerKeepsInv(c, s, i);
  }
}

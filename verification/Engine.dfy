/** The builder and the workers together with the chunks they deal in: `get_next` is no free answer
    here but a loop over the table's own queue, and a worker that holds a chunk moves it on step by
    step. A table cut by an integer key carries the state of IntegerProtocol; of a table cut by a
    string key only the status of its chunks matters. */
module Engine {
  import Builder
  import IntegerItem
  import IntegerProtocol
  import opened Optional

  /** What a table is cut by. Whole tables and partitions leave the answers of get_next free. */
  datatype Source =
    | Free
    | StringKeys
    | IntegerKeys(t: IntegerItem.Table, lo: int, hi: int, step: nat)

  /** The status of a string chunk; it is ASSIGNED twice. */
  datatype Life = Unassigned | Assigned | Dumping | AssignedAgain | Completed

  /** What a table has once it is defined: its chunks and `chunks_queue`. */
  datatype Detail =
    | Nothing
    | Strings(lives: seq<Life>, queue: seq<nat>)
    | Integers(sys: IntegerProtocol.System)

  /** Whether the builder is inside the loop of get_next, with the table's `chunks_mutex` held, or
      waits there for the signal of a chunk. */
  datatype Fetch = Out | In | Awaiting(n: nat, woken: bool)

  /** `left` counts the changes of status a worker still has to make to its string chunk. */
  datatype State = State(b: Builder.State, details: seq<Detail>, fetch: Fetch, left: seq<nat>)

  datatype Step =
    | Frame(step: Builder.Step)
    | Pull                                            // a turn of get_next that hands out nothing
    | Wake                                            // the builder is back from g_cond_wait
    | Live(i: nat, grow: bool)                        // a worker changes the status of its string chunk
    | Own(i: nat, own: IntegerProtocol.Step)          // a worker takes a step of its integer chunk

  // ----- where the threads are

  /** The builder has come to a table it may serve: it is about to ask get_next, or is asking. */
  predicate Asks(c: Builder.Config, b: Builder.State) {
    && Builder.Visiting(b) && b.list[b.builder.pos] < |b.tables|
    && Builder.Look(c, b.tables[b.list[b.builder.pos]], b.builder.level, true) == Builder.Serve
  }

  function Here(b: Builder.State): nat
    requires Builder.Visiting(b)
  {
    b.list[b.builder.pos]
  }

  predicate Locked(s: State, t: nat) {
    s.fetch != Out && Builder.Visiting(s.b) && Here(s.b) == t
  }

  predicate HasJob(w: Builder.Worker) { w.Working? || w.WorkingLate? }

  /** The worker holds chunk n of table t. */
  predicate Carries(w: Builder.Worker, t: nat, n: nat) {
    HasJob(w) && w.job.Dump? && w.job.t == t && w.job.n == n
  }

  function LifeAt(left: nat): Life {
    if left >= 3 then Assigned else if left == 2 then Dumping else if left == 1 then AssignedAgain else Completed
  }

  /** What set_chunk_strategy_for_dbt makes of a table. */
  function Begun(src: Source): Detail {
    match src
    case Free => Nothing
    case StringKeys => Strings([Unassigned], [0])
    case IntegerKeys(t, lo, hi, step) => Integers(IntegerProtocol.Initial(t, lo, hi, step))
  }

  // ----- get_next

  /** The head of the queue is a chunk the loop of get_next passes over. */
  predicate Passes(src: Source, d: Detail) {
    match d
    case Nothing => false
    case Strings(lives, queue) => queue != [] && queue[0] < |lives| && lives[queue[0]] != Unassigned
    case Integers(sys) =>
      && src.IntegerKeys? && IntegerProtocol.Enabled(sys, IntegerProtocol.Probe)
      && IntegerProtocol.TakeTurn(src.t, sys.chunks[sys.queue[0]]).Drop?
  }

  /** get_next may answer so: with a chunk, or with none. */
  predicate Answers(src: Source, d: Detail, found: bool) {
    match d
    case Nothing => true
    case Strings(lives, queue) =>
      if found then queue != [] && queue[0] < |lives| && lives[queue[0]] == Unassigned else queue == []
    case Integers(sys) =>
      if found then
        && src.IntegerKeys? && IntegerProtocol.Enabled(sys, IntegerProtocol.Probe)
        && !IntegerProtocol.TakeTurn(src.t, sys.chunks[sys.queue[0]]).Drop?
      else sys.queue == []
  }

  function Handed(src: Source, d: Detail): Detail
    requires Answers(src, d, true)
  {
    match d
    case Nothing => d
    case Strings(lives, queue) => Strings(lives[queue[0] := Assigned], queue[1..] + [queue[0]])
    case Integers(sys) => Integers(IntegerProtocol.Do(src.t, sys, IntegerProtocol.Probe))
  }

  function Passed(src: Source, d: Detail): Detail
    requires Passes(src, d)
  {
    match d
    case Strings(lives, queue) => Strings(lives, queue[1..])
    case Integers(sys) => Integers(IntegerProtocol.Do(src.t, sys, IntegerProtocol.Probe))
  }

  predicate IsAssigned(life: Life) { life == Assigned || life == AssignedAgain }

  /** A chunk that is ASSIGNED is waited for, any other one left behind. */
  function AfterPull(d: Detail): Fetch
    requires d.Strings? ==> d.queue != [] && d.queue[0] < |d.lives|
  {
    if d.Strings? && IsAssigned(d.lives[d.queue[0]]) then Awaiting(d.queue[0], false) else In
  }

  predicate PullEnabled(c: Builder.Config, src: seq<Source>, s: State) {
    && Asks(c, s.b) && !s.fetch.Awaiting? && Here(s.b) < |s.details| && Here(s.b) < |src|
    && Passes(src[Here(s.b)], s.details[Here(s.b)])
  }

  function DoPull(c: Builder.Config, src: seq<Source>, s: State): State
    requires PullEnabled(c, src, s)
  {
    var t := Here(s.b);
    s.(details := s.details[t := Passed(src[t], s.details[t])], fetch := AfterPull(s.details[t]))
  }

  predicate WakeEnabled(s: State) {
    && s.fetch.Awaiting? && s.fetch.woken && Builder.Visiting(s.b) && Here(s.b) < |s.details|
    && s.details[Here(s.b)].Strings? && s.fetch.n < |s.details[Here(s.b)].lives|
  }

  /** It looks at the status again, under the chunk's mutex. */
  function DoWake(s: State): State
    requires WakeEnabled(s)
  {
    s.(fetch := if IsAssigned(s.details[Here(s.b)].lives[s.fetch.n]) then Awaiting(s.fetch.n, false) else In)
  }

  predicate BuilderEnabled(c: Builder.Config, src: seq<Source>, s: State, found: bool) {
    && Builder.BuilderEnabled(s.b)
    && (Asks(c, s.b) ==>
          && !s.fetch.Awaiting? && Here(s.b) < |s.details| && Here(s.b) < |src|
          && Answers(src[Here(s.b)], s.details[Here(s.b)], found))
  }

  function DoBuilder(c: Builder.Config, src: seq<Source>, s: State, found: bool): State
    requires BuilderEnabled(c, src, s, found)
  {
    var b := Builder.DoBuilder(c, s.b, found);
    if Asks(c, s.b) && found then
      var t := Here(s.b);
      State(b, s.details[t := Handed(src[t], s.details[t])], Out, s.left)
    else State(b, s.details, Out, s.left)
  }

  /** get_next passes over a string chunk that is not waiting to be handed out; it waits there exactly if
      the chunk is ASSIGNED, and when it is woken goes on exactly if it is not any more. */
  lemma WaitsIfAssigned(c: Builder.Config, src: seq<Source>, s: State)
    requires PullEnabled(c, src, s) && s.details[Here(s.b)].Strings?
    ensures var d := s.details[Here(s.b)]; var life := d.lives[d.queue[0]];
            && life != Unassigned
            && DoPull(c, src, s)
               == s.(details := s.details[Here(s.b) := Strings(d.lives, d.queue[1..])],
                     fetch := if life == Assigned || life == AssignedAgain then Awaiting(d.queue[0], false) else In)
  {
  }

  /** A string chunk that is handed out goes to the end of the queue, to be found there when others are
      looked for. */
  lemma HandedComesBack(src: Source, lives: seq<Life>, queue: seq<nat>)
    requires src.StringKeys? && Answers(src, Strings(lives, queue), true)
    ensures lives[queue[0]] == Unassigned
    ensures var d := Handed(src, Strings(lives, queue));
            && d.queue == queue[1..] + queue[..1]
            && d.lives[queue[0]] == Assigned && |d.lives| == |lives|
            && forall n :: 0 <= n < |lives| && n != queue[0] ==> d.lives[n] == lives[n]
  {
  }

  lemma WakesIfNotAssigned(s: State)
    requires WakeEnabled(s)
    ensures var life := s.details[Here(s.b)].lives[s.fetch.n];
            DoWake(s) == s.(fetch := if life == Assigned || life == AssignedAgain then Awaiting(s.fetch.n, false) else In)
  {
  }

  // ----- the workers

  /** The end of a job takes the table's mutex, and the chunk must be through. */
  predicate MayEnd(s: State, i: nat)
    requires i < |s.b.workers| && i < |s.left| && HasJob(s.b.workers[i])
  {
    var job := s.b.workers[i].job;
    && job != Builder.Shutdown && !Locked(s, job.t) && job.t < |s.details|
    && (job.Dump? ==>
          match s.details[job.t]
          case Nothing => true
          case Strings(_, _) => s.left[i] == 0
          case Integers(sys) =>
            job.n < |sys.handed| && sys.handed[job.n] < |sys.chunks|
            && sys.chunks[sys.handed[job.n]].pc == IntegerProtocol.Done)
  }

  predicate WorkerEnabled(src: seq<Source>, s: State, i: nat) {
    && i < |s.b.workers| && i < |s.left| && Builder.WorkerEnabled(s.b, s.b.workers[i])
    && (HasJob(s.b.workers[i]) ==> MayEnd(s, i) && s.b.workers[i].job.t < |src|)
  }

  predicate TakesString(s: State, i: nat)
    requires i < |s.b.workers|
  {
    && s.b.workers[i] == Builder.Waiting && s.b.queue != [] && s.b.queue[0].Dump?
    && s.b.queue[0].t < |s.details| && s.details[s.b.queue[0].t].Strings?
  }

  function DoWorker(src: seq<Source>, s: State, i: nat): State
    requires WorkerEnabled(src, s, i)
  {
    var w := s.b.workers[i];
    State(
      Builder.DoWorker(s.b, i),
      if HasJob(w) && w.job.Determine? then s.details[w.job.t := Begun(src[w.job.t])] else s.details,
      s.fetch,
      if TakesString(s, i) then s.left[i := 3] else s.left)
  }

  predicate LiveEnabled(s: State, i: nat) {
    && i < |s.b.workers| && i < |s.left| && 0 < s.left[i] <= 3 && s.b.workers[i].Working?
    && var job := s.b.workers[i].job;
       && job.Dump? && job.t < |s.details| && s.details[job.t].Strings? && job.n < |s.details[job.t].lives|
  }

  /** The chunk's next status; at the first change the worker may queue a new chunk, and it signals
      whoever waits for this one. */
  function Lived(d: Detail, n: nat, left: nat, grow: bool): Detail
    requires d.Strings? && n < |d.lives| && 0 < left
  {
    var lives := d.lives[n := LifeAt(left - 1)];
    if left == 3 && grow then Strings(lives + [Unassigned], d.queue + [|lives|]) else Strings(lives, d.queue)
  }

  function DoLive(s: State, i: nat, grow: bool): State
    requires LiveEnabled(s, i)
  {
    var job := s.b.workers[i].job;
    State(
      s.b,
      s.details[job.t := Lived(s.details[job.t], job.n, s.left[i], grow)],
      if s.left[i] == 3 && Locked(s, job.t) && s.fetch.Awaiting? && s.fetch.n == job.n
      then Awaiting(job.n, true) else s.fetch,
      s.left[i := s.left[i] - 1])
  }

  /** A worker brings its string chunk from ASSIGNED to DUMPING_CHUNK, to ASSIGNED and to COMPLETED, and
      signals a builder that waits for it at the first of these changes only. */
  lemma StatusesInOrder(s: State, i: nat, grow: bool)
    requires LiveEnabled(s, i)
    ensures var job, r := s.b.workers[i].job, DoLive(s, i, grow);
            var was, now := s.details[job.t].lives, r.details[job.t].lives;
            && r.b == s.b && r.left == s.left[i := s.left[i] - 1]
            && now[job.n] == (if s.left[i] == 3 then Dumping else if s.left[i] == 2 then AssignedAgain else Completed)
            && (forall n :: 0 <= n < |was| && n != job.n ==> now[n] == was[n])
            && now[|was|..] == (if grow && s.left[i] == 3 then [Unassigned] else [])
            && r.details[job.t].queue == s.details[job.t].queue + (if grow && s.left[i] == 3 then [|was|] else [])
            && (if s.left[i] == 3 && s.fetch.Awaiting? && s.fetch.n == job.n && Locked(s, job.t)
                then r.fetch == Awaiting(job.n, true) else r.fetch == s.fetch)
  {
  }

  predicate OwnEnabled(src: seq<Source>, s: State, i: nat, step: IntegerProtocol.Step) {
    && i < |s.b.workers| && HasJob(s.b.workers[i]) && !step.Probe?
    && var job := s.b.workers[i].job;
       && job.Dump? && job.t < |s.details| && job.t < |src| && src[job.t].IntegerKeys?
       && s.details[job.t].Integers?
       && var sys := s.details[job.t].sys;
          job.n < |sys.handed| && step.i == sys.handed[job.n] && IntegerProtocol.Enabled(sys, step)
  }

  function DoOwn(src: seq<Source>, s: State, i: nat, step: IntegerProtocol.Step): State
    requires OwnEnabled(src, s, i, step)
  {
    var t := s.b.workers[i].job.t;
    s.(details := s.details[t := Integers(IntegerProtocol.Do(src[t].t, s.details[t].sys, step))])
  }

  // ----- runs

  predicate Enabled(c: Builder.Config, src: seq<Source>, s: State, step: Step) {
    match step
    case Frame(BuilderStep(found)) => BuilderEnabled(c, src, s, found)
    case Frame(WorkerStep(i)) => WorkerEnabled(src, s, i)
    case Pull => PullEnabled(c, src, s)
    case Wake => WakeEnabled(s)
    case Live(i, _) => LiveEnabled(s, i)
    case Own(i, own) => OwnEnabled(src, s, i, own)
  }

  function Do(c: Builder.Config, src: seq<Source>, s: State, step: Step): State
    requires Enabled(c, src, s, step)
  {
    match step
    case Frame(BuilderStep(found)) => DoBuilder(c, src, s, found)
    case Frame(WorkerStep(i)) => DoWorker(src, s, i)
    case Pull => DoPull(c, src, s)
    case Wake => DoWake(s)
    case Live(i, grow) => DoLive(s, i, grow)
    case Own(i, own) => DoOwn(src, s, i, own)
  }

  function Run(c: Builder.Config, src: seq<Source>, s: State, steps: seq<Step>): Option<State>
    decreases |steps|
  {
    if steps == [] then Some(s)
    else if Enabled(c, src, s, steps[0]) then Run(c, src, Do(c, src, s, steps[0]), steps[1..])
    else None
  }

  /** The steps of the frame alone. */
  function Frames(steps: seq<Step>): seq<Builder.Step> {
    if steps == [] then []
    else if steps[0].Frame? then [steps[0].step] + Frames(steps[1..])
    else Frames(steps[1..])
  }

  /** Every step is a step of the frame or leaves it as it is. */
  lemma StepProjects(c: Builder.Config, src: seq<Source>, s: State, step: Step)
    requires Enabled(c, src, s, step)
    ensures if step.Frame? then Builder.Enabled(s.b, step.step) && Do(c, src, s, step).b == Builder.Do(c, s.b, step.step)
            else Do(c, src, s, step).b == s.b
  {
  }

  /** So what holds of the runs of Builder holds here. */
  lemma {:induction false} RunProjects(c: Builder.Config, src: seq<Source>, s: State, steps: seq<Step>)
    requires Run(c, src, s, steps).Some?
    ensures Builder.Run(c, s.b, Frames(steps)) == Some(Run(c, src, s, steps).value.b)
    decreases |steps|
  {
    if steps != [] {
      StepProjects(c, src, s, steps[0]);
      RunProjects(c, src, Do(c, src, s, steps[0]), steps[1..]);
      if steps[0].Frame? {
        assert Frames(steps)[0] == steps[0].step && Frames(steps)[1..] == Frames(steps[1..]);
      }
    }
  }
}

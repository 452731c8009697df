/** The builder does get hung up, whatever the tables, as soon as one of them is cut by a string key and
    two workers may dump it together. Worker 0 alone clears the tables in front of it, begins its first
    chunk and falls asleep; worker 1 alone clears all other tables; the builder then comes back. */
module EngineHang {
  import Builder
  import BuilderTheorems
  import IntegerProgress
  import IntegerProtocol
  import opened Engine
  import opened EngineSafety
  import opened EngineTheorems
  import opened Optional

  // ----- how much is left to do

  function Fresh(lives: seq<Life>): nat {
    if lives == [] then 0 else (if lives[0] == Unassigned then 1 else 0) + Fresh(lives[1..])
  }

  function Weight(d: Detail): nat {
    match d
    case Nothing => 0
    case Strings(lives, queue) => Fresh(lives) + |queue|
    case Integers(sys) => IntegerProgress.Budget(sys)
  }

  function Burden(src: Source, status: Builder.Status, d: Detail): nat {
    match status
    case Undefined => 2 + Weight(Begun(src))
    case Defining => 1 + Weight(Begun(src))
    case Ready => Weight(d)
  }

  function BurdenAt(src: seq<Source>, s: State, t: nat): nat
    requires t < |src| && |src| == |s.b.tables| == |s.details|
  {
    Burden(src[t], s.b.tables[t].status, s.details[t])
  }

  function Burdens(src: seq<Source>, s: State, n: nat): nat
    requires n <= |src| && |src| == |s.b.tables| == |s.details|
  {
    if n == 0 then 0 else BurdenAt(src, s, n - 1) + Burdens(src, s, n - 1)
  }

  function Load(src: seq<Source>, s: State): nat
    requires |src| == |s.b.tables| == |s.details|
  {
    |s.b.list| + Burdens(src, s, |src|)
  }

  /** Only table t changes. */
  ghost predicate OnlyAt(src: seq<Source>, s: State, r: State, t: nat) {
    && |src| == |s.b.tables| == |s.details| == |r.b.tables| == |r.details|
    && forall k :: 0 <= k < |src| && k != t ==> r.b.tables[k].status == s.b.tables[k].status && r.details[k] == s.details[k]
  }

  lemma {:induction false} BurdensBut(src: seq<Source>, s: State, r: State, t: nat, n: nat)
    requires OnlyAt(src, s, r, t) && n <= |src|
    ensures Burdens(src, r, n)
            == Burdens(src, s, n) + if t < n then BurdenAt(src, r, t) - BurdenAt(src, s, t) else 0
  {
    if n > 0 { BurdensBut(src, s, r, t, n - 1); }
  }

  /** One round: the decision of the builder, the reply, the job, the next request. */
  function Round(s: State, w: nat): nat
    requires w < |s.b.workers|
  {
    match s.b.workers[w]
    case Working(_) => 4
    case Asking => 3
    case _ =>
      if s.b.queue != [] then 5
      else if s.b.builder.AnsweringLate? then 7
      else if s.b.builder.Answering? then 6
      else if s.b.builder == Builder.Idle then 2
      else 1
  }

  function Turns(s: State, w: nat): nat
    requires w < |s.b.workers| && w < |s.left|
  {
    if s.b.workers[w].Working? then s.left[w]
    else if s.b.builder.Scanning? && s.b.builder.level == 0 && s.b.builder.pos <= |s.b.list|
    then |s.b.list| - s.b.builder.pos + 1
    else 0
  }

  ghost predicate Sized(c: Builder.Config, src: seq<Source>, s: State) {
    |src| == |s.b.tables| == |s.details| && |s.b.workers| == |s.left| == c.workers
  }

  ghost predicate Lower(c: Builder.Config, src: seq<Source>, s: State, r: State, w: nat)
    requires Sized(c, src, s) && Sized(c, src, r) && w < c.workers
  {
    || Load(src, r) < Load(src, s)
    || (Load(src, r) == Load(src, s)
        && (Round(r, w) < Round(s, w) || (Round(r, w) == Round(s, w) && Turns(r, w) < Turns(s, w))))
  }

  // ----- one worker at a time

  /** Worker 0 while it looks for a table cut by a string key, worker 1 once worker 0 is held up at one. */
  function Actor(held: Option<nat>): nat { if held.None? then 0 else 1 }

  /** Of a table cut by a string key no chunk was handed out yet. */
  predicate Untouched(src: seq<Source>, s: State, t: nat)
    requires t < |src| && |src| == |s.b.tables| == |s.details|
  {
    src[t].StringKeys? ==>
      && t in s.b.list && s.b.tables[t].made == 0
      && (s.b.tables[t].status == Builder.Ready ==> s.details[t] == Begun(src[t]))
  }

  /** Worker 0 has dumped the first chunk of table t and not completed it. */
  predicate Parked(src: seq<Source>, s: State, t: nat)
    requires |src| == |s.b.tables| == |s.details| && 0 < |s.b.workers| && 0 < |s.left|
  {
    && t < |src| && src[t].StringKeys? && t in s.b.list && s.b.tables[t].status == Builder.Ready
    && s.b.workers[0] == Builder.Working(Builder.Dump(t, 0, false)) && s.left[0] == 1
    && s.details[t] == Strings([AssignedAgain], [0])
  }

  /** The builder passes over nothing but the table of worker 0. */
  ghost predicate ScanOk(b: Builder.State, held: Option<nat>) {
    b.builder.Scanning? ==>
      match held
      case None => b.builder.level == 0 && b.builder.pos == 0
      case Some(t) =>
        || (b.builder.level == 0 && b.builder.pos <= |b.list| && forall a :: 0 <= a < b.builder.pos ==> b.list[a] == t)
        || (b.builder.level == 1 && b.builder.pos == 0)
  }

  ghost predicate HeldOk(src: seq<Source>, s: State, held: Option<nat>)
    requires |src| == |s.b.tables| == |s.details| && 0 < |s.b.workers| && 0 < |s.left|
  {
    match held
    case None =>
      (exists t :: 0 <= t < |src| && src[t].StringKeys?) && forall t :: 0 <= t < |src| ==> Untouched(src, s, t)
    case Some(t) => Parked(src, s, t)
  }

  ghost predicate OthersOk(s: State, held: Option<nat>) {
    forall i :: 0 <= i < |s.b.workers| && i != Actor(held) ==>
      s.b.workers[i] == Builder.Asking || (held.Some? && i == 0 && s.b.workers[i].Working?)
  }

  ghost predicate Shape(c: Builder.Config, src: seq<Source>, s: State, held: Option<nat>) {
    && 2 <= c.workers && 2 <= c.cap && Sized(c, src, s)
    && !s.fetch.Awaiting? && Builder.Active(s.b.builder) && s.b.builder != Builder.Retrying
    && OthersOk(s, held) && ScanOk(s.b, held) && HeldOk(src, s, held)
  }

  ghost predicate Solo(c: Builder.Config, src: seq<Source>, s: State, held: Option<nat>) {
    Inv(c, src, s) && Shape(c, src, s, held)
  }

  /** The worker waits for what the builder does, or the builder for the worker. */
  lemma OneActive(c: Builder.Config, src: seq<Source>, s: State, held: Option<nat>)
    requires Solo(c, src, s, held)
    ensures var w := s.b.workers[Actor(held)];
            && (w == Builder.Asking || w == Builder.Waiting || w.Working?)
            && (w != Builder.Waiting ==> s.b.queue == [] && s.b.builder == Builder.Idle && s.b.requests == 0)
            && (s.b.queue != [] ==>
                  && s.b.builder == Builder.Idle && |s.b.queue| == 1 && s.b.requests == 0
                  && s.b.queue[0] != Builder.Shutdown)
            && (w == Builder.Waiting && s.b.queue == [] && s.b.builder == Builder.Idle ==> s.b.requests == 1)
            && (s.b.builder != Builder.Idle ==> s.b.requests == 0)
  {
    var ws, w := s.b.workers, Actor(held);
    BuilderTheorems.NobodyPast(ws, 1);
    var rest := ws[w := Builder.Asking];
    forall i | 0 <= i < |rest| ensures Builder.Reading(rest[i], Builder.Waiters) == 0 {
      if i != w { assert rest[i] == ws[i]; }
    }
    Builder.NoReading(rest, Builder.Waiters);
    Builder.TallyAfterUpdate(ws, w, Builder.Asking, Builder.Waiters);
    if s.b.queue != [] { Builder.JobsFinds(s.b.queue, 0, Builder.Stops); }
  }

  /** When the builder scans, only the table of worker 0 has a thread running, and none is being defined. */
  lemma IdleTable(c: Builder.Config, src: seq<Source>, s: State, held: Option<nat>, t: nat)
    requires Solo(c, src, s, held) && s.b.builder.Scanning? && t in s.b.list
    ensures t < |s.b.tables| && s.b.tables[t].status != Builder.Defining
    ensures s.b.tables[t].running == if held == Some(t) then 1 else 0
  {
    OneActive(c, src, s, held);
    assert Builder.TableOk(c, s.b, t);
    BuilderTheorems.NoLate(s.b.defer, t);
    var rest := s.b.workers[0 := Builder.Asking];
    forall i, m | 0 <= i < |rest| && (m == Builder.Defines(t) || m == Builder.Charges(t)) ensures Builder.Reading(rest[i], m) == 0 {
      if i > 0 { assert rest[i] == s.b.workers[i]; }
    }
    Builder.NoReading(rest, Builder.Defines(t));
    Builder.NoReading(rest, Builder.Charges(t));
    Builder.TallyAfterUpdate(s.b.workers, 0, Builder.Asking, Builder.Defines(t));
    Builder.TallyAfterUpdate(s.b.workers, 0, Builder.Asking, Builder.Charges(t));
  }

  // ----- what stays as it is

  predicate Alike(s: State, r: State, t: nat) {
    && t < |s.b.tables| && t < |r.b.tables| && t < |s.details| && t < |r.details|
    && r.b.tables[t].status == s.b.tables[t].status && r.b.tables[t].made == s.b.tables[t].made
    && r.details[t] == s.details[t] && (t in s.b.list ==> t in r.b.list)
  }

  ghost predicate StringsAlike(c: Builder.Config, src: seq<Source>, s: State, r: State, held: Option<nat>)
    requires Sized(c, src, s) && Sized(c, src, r) && 0 < c.workers
  {
    match held
    case None => forall t :: 0 <= t < |src| && src[t].StringKeys? ==> Alike(s, r, t)
    case Some(t) => Alike(s, r, t) && r.b.workers[0] == s.b.workers[0] && r.left[0] == s.left[0]
  }

  lemma HeldKept(c: Builder.Config, src: seq<Source>, s: State, r: State, held: Option<nat>)
    requires Sized(c, src, s) && Sized(c, src, r) && 0 < c.workers && HeldOk(src, s, held)
    requires StringsAlike(c, src, s, r, held)
    ensures HeldOk(src, r, held)
  {
    if held.None? {
      forall t | 0 <= t < |src| ensures Untouched(src, r, t) {
        assert Untouched(src, s, t);
      }
    }
  }

  /** The step is possible, and leads on to the same kind of state with less left to do. */
  ghost predicate Leads(c: Builder.Config, src: seq<Source>, s: State, held: Option<nat>, step: Step)
    requires Solo(c, src, s, held)
  {
    && Enabled(c, src, s, step)
    && var r := Do(c, src, s, step);
       Solo(c, src, r, held) && Lower(c, src, s, r, Actor(held))
  }

  // ----- the steps of the worker

  /** It asks for a job, or takes the one it was given. */
  lemma TurnShapes(c: Builder.Config, src: seq<Source>, s: State, held: Option<nat>)
    requires Shape(c, src, s, held) && WorkerEnabled(src, s, Actor(held))
    requires var w := s.b.workers[Actor(held)];
             if w == Builder.Asking then s.b.queue == [] && s.b.builder == Builder.Idle
             else w == Builder.Waiting && s.b.queue[0] != Builder.Shutdown
    ensures var r := DoWorker(src, s, Actor(held)); Shape(c, src, r, held) && Lower(c, src, s, r, Actor(held))
  {
    var r := DoWorker(src, s, Actor(held));
    HeldKept(c, src, s, r, held);
    BurdensBut(src, s, r, |src|, |src|);
  }

  lemma TurnLeads(c: Builder.Config, src: seq<Source>, s: State, held: Option<nat>)
    requires Solo(c, src, s, held)
    requires s.b.workers[Actor(held)] == Builder.Asking || s.b.queue != []
    ensures Leads(c, src, s, held, Frame(Builder.WorkerStep(Actor(held))))
  {
    var step := Frame(Builder.WorkerStep(Actor(held)));
    OneActive(c, src, s, held);
    assert Enabled(c, src, s, step);
    StepKeepsInv(c, src, s, step);
    TurnShapes(c, src, s, held);
  }

  lemma {:induction false} FreshKept(lives: seq<Life>, n: nat, life: Life)
    requires n < |lives| && lives[n] != Unassigned && life != Unassigned
    ensures Fresh(lives[n := life]) == Fresh(lives)
  {
    if n == 0 {
      assert lives[n := life][1..] == lives[1..];
    } else {
      assert lives[n := life][1..] == lives[1..][n - 1 := life];
      FreshKept(lives[1..], n - 1, life);
    }
  }

  /** A table of which chunks are with a worker is neither untouched nor, for the second worker, the one
      the first is at. */
  lemma ElsewhereAt(c: Builder.Config, src: seq<Source>, s: State, held: Option<nat>, t: nat, n: nat)
    requires Solo(c, src, s, held) && Carries(s.b.workers[Actor(held)], t, n) && t < |src|
    ensures held != Some(t) && (held.None? ==> !src[t].StringKeys?)
  {
    CarriedOnce(c, s.b, Actor(held), t, n);
    if held.None? {
      assert Untouched(src, s, t);
    } else if held == Some(t) {
      assert DetailOk(s, t, s.details[t], src[t]);
      assert Carries(s.b.workers[0], t, 0);
    }
  }

  lemma LiveShapes(c: Builder.Config, src: seq<Source>, s: State, held: Option<nat>)
    requires Shape(c, src, s, held) && LiveEnabled(s, Actor(held)) && held.Some?
    requires var job := s.b.workers[Actor(held)].job;
             && held != Some(job.t) && job.t < |src| && s.b.tables[job.t].status == Builder.Ready
             && s.details[job.t].lives[job.n] != Unassigned
    ensures var r := DoLive(s, Actor(held), false); Shape(c, src, r, held) && Lower(c, src, s, r, Actor(held))
  {
    var r, job := DoLive(s, Actor(held), false), s.b.workers[Actor(held)].job;
    FreshKept(s.details[job.t].lives, job.n, LifeAt(s.left[Actor(held)] - 1));
    HeldKept(c, src, s, r, held);
    BurdensBut(src, s, r, job.t, |src|);
  }

  lemma LiveLeads(c: Builder.Config, src: seq<Source>, s: State, held: Option<nat>)
    requires Solo(c, src, s, held) && LiveEnabled(s, Actor(held))
    ensures Leads(c, src, s, held, Live(Actor(held), false))
  {
    var w, job := Actor(held), s.b.workers[Actor(held)].job;
    assert DetailOk(s, job.t, s.details[job.t], src[job.t]) && WorkerLifeOk(s, w);
    ElsewhereAt(c, src, s, held, job.t, job.n);
    StepKeepsInv(c, src, s, Live(w, false));
    LiveShapes(c, src, s, held);
  }

  lemma OwnShapes(c: Builder.Config, src: seq<Source>, s: State, held: Option<nat>, own: IntegerProtocol.Step)
    requires Shape(c, src, s, held) && OwnEnabled(src, s, Actor(held), own)
    requires var t := s.b.workers[Actor(held)].job.t;
             && s.b.tables[t].status == Builder.Ready
             && IntegerProgress.Budget(IntegerProtocol.Do(src[t].t, s.details[t].sys, own)) < IntegerProgress.Budget(s.details[t].sys)
    ensures var r := DoOwn(src, s, Actor(held), own); Shape(c, src, r, held) && Lower(c, src, s, r, Actor(held))
  {
    var r, t := DoOwn(src, s, Actor(held), own), s.b.workers[Actor(held)].job.t;
    HeldKept(c, src, s, r, held);
    BurdensBut(src, s, r, t, |src|);
  }

  lemma OwnLeads(c: Builder.Config, src: seq<Source>, s: State, held: Option<nat>, own: IntegerProtocol.Step)
    requires Solo(c, src, s, held) && OwnEnabled(src, s, Actor(held), own)
    ensures Leads(c, src, s, held, Own(Actor(held), own))
  {
    var t := s.b.workers[Actor(held)].job.t;
    assert DetailOk(s, t, s.details[t], src[t]);
    IntegerProgress.StepUsesBudget(src[t].t, src[t].lo, src[t].hi, src[t].step, s.details[t].sys, own);
    StepKeepsInv(c, src, s, Own(Actor(held), own));
    OwnShapes(c, src, s, held, own);
  }

  lemma EndShapes(c: Builder.Config, src: seq<Source>, s: State, held: Option<nat>)
    requires Shape(c, src, s, held) && WorkerEnabled(src, s, Actor(held))
    requires s.b.workers[Actor(held)].Working? && !s.b.workers[Actor(held)].job.Determine?
    ensures var r := DoWorker(src, s, Actor(held)); Shape(c, src, r, held) && Lower(c, src, s, r, Actor(held))
  {
    var r := DoWorker(src, s, Actor(held));
    HeldKept(c, src, s, r, held);
    BurdensBut(src, s, r, |src|, |src|);
  }

  lemma DefineShapes(c: Builder.Config, src: seq<Source>, s: State, held: Option<nat>)
    requires Shape(c, src, s, held) && WorkerEnabled(src, s, Actor(held))
    requires s.b.workers[Actor(held)].Working? && s.b.workers[Actor(held)].job.Determine?
    requires s.b.tables[s.b.workers[Actor(held)].job.t].status == Builder.Defining
    ensures var r := DoWorker(src, s, Actor(held)); Shape(c, src, r, held) && Lower(c, src, s, r, Actor(held))
  {
    var r, t := DoWorker(src, s, Actor(held)), s.b.workers[Actor(held)].job.t;
    if held.None? {
      forall k | 0 <= k < |src| ensures Untouched(src, r, k) { assert Untouched(src, s, k); }
    }
    BurdensBut(src, s, r, t, |src|);
  }

  lemma EndLeads(c: Builder.Config, src: seq<Source>, s: State, held: Option<nat>)
    requires Solo(c, src, s, held) && s.b.workers[Actor(held)].Working? && WorkerEnabled(src, s, Actor(held))
    ensures Leads(c, src, s, held, Frame(Builder.WorkerStep(Actor(held))))
  {
    StepKeepsInv(c, src, s, Frame(Builder.WorkerStep(Actor(held))));
    if s.b.workers[Actor(held)].job.Determine? {
      DefineeIsDefining(c, s.b, Actor(held));
      DefineShapes(c, src, s, held);
    } else {
      EndShapes(c, src, s, held);
    }
  }

  /** Whatever the worker is at, it can go on. */
  lemma WorkLeads(c: Builder.Config, src: seq<Source>, s: State, held: Option<nat>) returns (step: Step)
    requires Solo(c, src, s, held) && s.b.workers[Actor(held)].Working?
    ensures Leads(c, src, s, held, step)
  {
    var w, job := Actor(held), s.b.workers[Actor(held)].job;
    OneActive(c, src, s, held);
    assert Builder.WorkerOk(c, s.b, s.b.workers[w]) && WorkerLifeOk(s, w);
    step := Frame(Builder.WorkerStep(w));
    if job.Dump? && s.details[job.t].Strings? && s.left[w] > 0 {
      step := Live(w, false);
      LiveLeads(c, src, s, held);
    } else if job.Dump? && s.details[job.t].Integers? {
      step := IntegerWorkLeads(c, src, s, held);
    } else {
      EndLeads(c, src, s, held);
    }
  }

  lemma IntegerWorkLeads(c: Builder.Config, src: seq<Source>, s: State, held: Option<nat>) returns (step: Step)
    requires Solo(c, src, s, held) && s.b.workers[Actor(held)].Working? && s.fetch == Out
    requires var job := s.b.workers[Actor(held)].job; job.Dump? && job.t < |src| && s.details[job.t].Integers?
    ensures Leads(c, src, s, held, step)
  {
    var w, t, n := Actor(held), s.b.workers[Actor(held)].job.t, s.b.workers[Actor(held)].job.n;
    assert DetailOk(s, t, s.details[t], src[t]);
    CarriedOnce(c, s.b, w, t, n);
    var sys := s.details[t].sys;
    var k := sys.handed[n];
    assert k in sys.handed;
    if sys.chunks[k].pc == IntegerProtocol.Done {
      step := Frame(Builder.WorkerStep(w));
      EndLeads(c, src, s, held);
    } else {
      step := Own(w, OwnerStep(sys, k));
      OwnLeads(c, src, s, held, OwnerStep(sys, k));
    }
  }

  // ----- the steps of the builder

  predicate Awaited(s: State, w: nat) {
    w < |s.b.workers| && s.b.workers[w] == Builder.Waiting && s.b.queue == []
  }

  /** It takes a token, or sends a reply. */
  lemma SendShapes(c: Builder.Config, src: seq<Source>, s: State, held: Option<nat>)
    requires Shape(c, src, s, held) && BuilderEnabled(c, src, s, false) && Awaited(s, Actor(held))
    requires !s.b.builder.Scanning?
    ensures var r := DoBuilder(c, src, s, false); Shape(c, src, r, held) && Lower(c, src, s, r, Actor(held))
  {
    var r := DoBuilder(c, src, s, false);
    HeldKept(c, src, s, r, held);
    BurdensBut(src, s, r, |src|, |src|);
  }

  lemma SendLeads(c: Builder.Config, src: seq<Source>, s: State, held: Option<nat>)
    requires Solo(c, src, s, held) && Awaited(s, Actor(held)) && !s.b.builder.Scanning?
    ensures Leads(c, src, s, held, Frame(Builder.BuilderStep(false)))
  {
    OneActive(c, src, s, held);
    StepKeepsInv(c, src, s, Frame(Builder.BuilderStep(false)));
    SendShapes(c, src, s, held);
  }

  /** Having passed over the table of worker 0 it looks a second time. */
  lemma LevelLeads(c: Builder.Config, src: seq<Source>, s: State, held: Option<nat>)
    requires Solo(c, src, s, held) && Awaited(s, Actor(held)) && s.b.builder.Scanning? && !Builder.Visiting(s.b)
    ensures Leads(c, src, s, held, Frame(Builder.BuilderStep(false)))
  {
    StepKeepsInv(c, src, s, Frame(Builder.BuilderStep(false)));
    LevelShapes(c, src, s, held);
  }

  lemma ListHasMore(src: seq<Source>, s: State, held: Option<nat>)
    requires |src| == |s.b.tables| == |s.details| && 0 < |s.b.workers| && 0 < |s.left| && HeldOk(src, s, held)
    ensures s.b.list != []
  {
    if held.None? {
      var t :| 0 <= t < |src| && src[t].StringKeys?;
      assert Untouched(src, s, t);
    }
  }

  lemma LevelShapes(c: Builder.Config, src: seq<Source>, s: State, held: Option<nat>)
    requires Shape(c, src, s, held) && BuilderEnabled(c, src, s, false) && Awaited(s, Actor(held))
    requires s.b.builder.Scanning? && !Builder.Visiting(s.b)
    ensures var r := DoBuilder(c, src, s, false); Shape(c, src, r, held) && Lower(c, src, s, r, Actor(held))
  {
    var r := DoBuilder(c, src, s, false);
    ListHasMore(src, s, held);
    HeldKept(c, src, s, r, held);
    BurdensBut(src, s, r, |src|, |src|);
  }

  /** It looks at a table it does not ask get_next about. */
  lemma VisitLeads(c: Builder.Config, src: seq<Source>, s: State, held: Option<nat>)
    requires Solo(c, src, s, held) && Awaited(s, Actor(held)) && Builder.Visiting(s.b) && !Asks(c, s.b)
    ensures Leads(c, src, s, held, Frame(Builder.BuilderStep(false)))
  {
    var t := Here(s.b);
    IdleTable(c, src, s, held, t);
    assert DetailOk(s, t, s.details[t], src[t]);
    StepKeepsInv(c, src, s, Frame(Builder.BuilderStep(false)));
    var v := Builder.Look(c, s.b.tables[t], s.b.builder.level, false);
    if v == Builder.Whole {
      LeaveShapes(c, src, s, held);
    } else {
      StayShapes(c, src, s, held);
    }
  }

  /** It takes a table off the list. */
  lemma LeaveShapes(c: Builder.Config, src: seq<Source>, s: State, held: Option<nat>)
    requires Shape(c, src, s, held) && BuilderEnabled(c, src, s, false) && Awaited(s, Actor(held)) && Builder.Visiting(s.b)
    requires Here(s.b) < |src| && Builder.ListOk(c, s.b)
    requires Builder.Look(c, s.b.tables[Here(s.b)], s.b.builder.level, false) in {Builder.Whole, Builder.Drop}
    requires held != Some(Here(s.b)) && (held.None? ==> !src[Here(s.b)].StringKeys?)
    ensures var r := DoBuilder(c, src, s, false); Shape(c, src, r, held) && Lower(c, src, s, r, Actor(held))
  {
    var r := DoBuilder(c, src, s, false);
    forall t | t != Here(s.b) ensures t in r.b.list <==> t in s.b.list {
      Builder.WithoutIn(s.b.list, s.b.builder.pos, t);
    }
    HeldKept(c, src, s, r, held);
    BurdensBut(src, s, r, |src|, |src|);
  }

  /** It defines a table, or passes over it. */
  lemma StayShapes(c: Builder.Config, src: seq<Source>, s: State, held: Option<nat>)
    requires Shape(c, src, s, held) && BuilderEnabled(c, src, s, false) && Awaited(s, Actor(held)) && Builder.Visiting(s.b)
    requires Here(s.b) < |src|
    requires var v := Builder.Look(c, s.b.tables[Here(s.b)], s.b.builder.level, false);
             v == Builder.Define || (v == Builder.Pass && held == Some(Here(s.b)) && s.b.builder.level == 0)
    ensures var r := DoBuilder(c, src, s, false); Shape(c, src, r, held) && Lower(c, src, s, r, Actor(held))
  {
    var r, t := DoBuilder(c, src, s, false), Here(s.b);
    if held.None? {
      forall k | 0 <= k < |src| ensures Untouched(src, r, k) { assert Untouched(src, s, k); }
    }
    BurdensBut(src, s, r, t, |src|);
  }

  // ----- get_next

  /** The builder has come to what the worker is after: the first table cut by a string key, or the one
      worker 0 is at. */
  predicate Arrived(c: Builder.Config, src: seq<Source>, s: State, held: Option<nat>) {
    Asks(c, s.b) && Here(s.b) < |src| && if held.None? then src[Here(s.b)].StringKeys? else held == Some(Here(s.b))
  }

  /** All chunks of a table no thread runs for are completed. */
  lemma NoneUndone(c: Builder.Config, src: seq<Source>, s: State, held: Option<nat>, t: nat, n: nat)
    requires Solo(c, src, s, held) && Awaited(s, Actor(held)) && t < |src| && s.b.builder.Scanning? && held != Some(t)
    requires s.details[t].Strings? && n < s.b.tables[t].made <= |s.details[t].lives|
    ensures s.details[t].lives[n] == Completed
  {
    if s.details[t].lives[n] != Completed {
      var k := UndoneIsHeld(c, src, s, t, n);
      assert false;
    }
  }

  lemma PullShapes(c: Builder.Config, src: seq<Source>, s: State, held: Option<nat>)
    requires Shape(c, src, s, held) && PullEnabled(c, src, s) && Awaited(s, Actor(held)) && Here(s.b) < |src|
    requires held != Some(Here(s.b)) && (held.None? ==> !src[Here(s.b)].StringKeys?)
    requires s.details[Here(s.b)].Strings? ==> !AfterPull(s.details[Here(s.b)]).Awaiting?
    requires s.b.tables[Here(s.b)].status == Builder.Ready
    requires Weight(Passed(src[Here(s.b)], s.details[Here(s.b)])) < Weight(s.details[Here(s.b)])
    ensures var r := DoPull(c, src, s); Shape(c, src, r, held) && Lower(c, src, s, r, Actor(held))
  {
    var r := DoPull(c, src, s);
    HeldKept(c, src, s, r, held);
    BurdensBut(src, s, r, Here(s.b), |src|);
  }

  lemma PullLeads(c: Builder.Config, src: seq<Source>, s: State, held: Option<nat>)
    requires Solo(c, src, s, held) && Awaited(s, Actor(held)) && PullEnabled(c, src, s) && !Arrived(c, src, s, held)
    ensures Leads(c, src, s, held, Pull)
  {
    var t := Here(s.b);
    var d := s.details[t];
    assert DetailOk(s, t, d, src[t]);
    if d.Strings? {
      NoneUndone(c, src, s, held, t, d.queue[0]);
    } else {
      IntegerProgress.ProbeUsesBudget(src[t].t, src[t].lo, src[t].hi, d.sys);
    }
    StepKeepsInv(c, src, s, Pull);
    PullShapes(c, src, s, held);
  }

  lemma ServeShapes(c: Builder.Config, src: seq<Source>, s: State, held: Option<nat>)
    requires Shape(c, src, s, held) && BuilderEnabled(c, src, s, true) && Awaited(s, Actor(held)) && Asks(c, s.b)
    requires Here(s.b) < |src|
    requires held != Some(Here(s.b)) && (held.None? ==> !src[Here(s.b)].StringKeys?)
    requires Weight(Handed(src[Here(s.b)], s.details[Here(s.b)])) < Weight(s.details[Here(s.b)])
    ensures var r := DoBuilder(c, src, s, true); Shape(c, src, r, held) && Lower(c, src, s, r, Actor(held))
  {
    var r := DoBuilder(c, src, s, true);
    HeldKept(c, src, s, r, held);
    BurdensBut(src, s, r, Here(s.b), |src|);
  }

  lemma {:induction false} FreshDrops(lives: seq<Life>, n: nat)
    requires n < |lives| && lives[n] == Unassigned
    ensures Fresh(lives[n := Assigned]) == Fresh(lives) - 1
  {
    if n == 0 {
      assert lives[n := Assigned][1..] == lives[1..];
    } else {
      assert lives[n := Assigned][1..] == lives[1..][n - 1 := Assigned];
      FreshDrops(lives[1..], n - 1);
    }
  }

  lemma ServeLeads(c: Builder.Config, src: seq<Source>, s: State, held: Option<nat>)
    requires Solo(c, src, s, held) && Awaited(s, Actor(held)) && Asks(c, s.b) && !Arrived(c, src, s, held)
    requires Here(s.b) < |src| && BuilderEnabled(c, src, s, true) && s.details[Here(s.b)] != Nothing
    ensures Leads(c, src, s, held, Frame(Builder.BuilderStep(true)))
  {
    var t := Here(s.b);
    var d := s.details[t];
    assert DetailOk(s, t, d, src[t]);
    if d.Strings? {
      FreshDrops(d.lives, d.queue[0]);
    } else {
      IntegerProgress.ProbeUsesBudget(src[t].t, src[t].lo, src[t].hi, d.sys);
    }
    StepKeepsInv(c, src, s, Frame(Builder.BuilderStep(true)));
    ServeShapes(c, src, s, held);
  }

  lemma FetchLeads(c: Builder.Config, src: seq<Source>, s: State, held: Option<nat>) returns (step: Step)
    requires Solo(c, src, s, held) && Awaited(s, Actor(held)) && Asks(c, s.b) && !Arrived(c, src, s, held)
    ensures Leads(c, src, s, held, step)
  {
    var t := Here(s.b);
    assert DetailOk(s, t, s.details[t], src[t]);
    FetchMoves(s, t, s.details[t], src[t]);
    if Passes(src[t], s.details[t]) {
      step := Pull;
      PullLeads(c, src, s, held);
    } else if s.details[t] != Nothing && Answers(src[t], s.details[t], true) {
      step := Frame(Builder.BuilderStep(true));
      ServeLeads(c, src, s, held);
    } else {
      step := Frame(Builder.BuilderStep(false));
      DropLeads(c, src, s, held);
    }
  }

  lemma DropLeads(c: Builder.Config, src: seq<Source>, s: State, held: Option<nat>)
    requires Solo(c, src, s, held) && Awaited(s, Actor(held)) && Asks(c, s.b) && !Arrived(c, src, s, held)
    requires BuilderEnabled(c, src, s, false)
    ensures Leads(c, src, s, held, Frame(Builder.BuilderStep(false)))
  {
    StepKeepsInv(c, src, s, Frame(Builder.BuilderStep(false)));
    LeaveShapes(c, src, s, held);
  }

  // ----- all steps

  lemma SomeLeads(c: Builder.Config, src: seq<Source>, s: State, held: Option<nat>) returns (step: Step)
    requires Solo(c, src, s, held) && !Arrived(c, src, s, held)
    ensures Leads(c, src, s, held, step)
  {
    var w := s.b.workers[Actor(held)];
    OneActive(c, src, s, held);
    if w == Builder.Asking || s.b.queue != [] {
      step := Frame(Builder.WorkerStep(Actor(held)));
      TurnLeads(c, src, s, held);
    } else if w.Working? {
      step := WorkLeads(c, src, s, held);
    } else if Asks(c, s.b) {
      step := FetchLeads(c, src, s, held);
    } else {
      step := Frame(Builder.BuilderStep(false));
      if Builder.Visiting(s.b) {
        VisitLeads(c, src, s, held);
      } else if s.b.builder.Scanning? {
        LevelLeads(c, src, s, held);
      } else {
        SendLeads(c, src, s, held);
      }
    }
  }

  /** So the worker gets there. */
  lemma {:induction false} Arrives(c: Builder.Config, src: seq<Source>, s: State, held: Option<nat>) returns (steps: seq<Step>)
    requires Solo(c, src, s, held)
    ensures var r := Run(c, src, s, steps); r.Some? && Solo(c, src, r.value, held) && Arrived(c, src, r.value, held)
    decreases Load(src, s), Round(s, Actor(held)), Turns(s, Actor(held))
  {
    steps := [];
    if !Arrived(c, src, s, held) {
      var step := SomeLeads(c, src, s, held);
      var rest := Arrives(c, src, Do(c, src, s, step), held);
      steps := [step] + rest;
      assert steps[0] == step && steps[1..] == rest;
    }
  }

  // ----- worker 0 begins its chunk

  predicate Ahead(c: Builder.Config, src: seq<Source>, s: State, t: nat) {
    && Asks(c, s.b) && Here(s.b) == t && t < |src| && src[t].StringKeys? && !s.fetch.Awaiting?
    && |src| == |s.details| == |s.b.tables| && s.b.tables[t].kind == Builder.ByString
    && s.b.tables[t].made == 0 && s.details[t] == Strings([Unassigned], [0])
    && 0 < |s.b.workers| == |s.left| && s.b.workers[0] == Builder.Waiting && s.b.queue == []
  }

  lemma OneHanded(src: Source)
    ensures Handed(src, Strings([Unassigned], [0])) == Strings([Assigned], [0])
  {
    assert [Unassigned][0 := Assigned] == [Assigned] && [0][1..] + [0] == [0];
  }

  lemma OneLived(life: Life, left: nat)
    requires 0 < left
    ensures Lived(Strings([life], [0]), 0, left, false) == Strings([LifeAt(left - 1)], [0])
  {
    assert [life][0 := LifeAt(left - 1)] == [LifeAt(left - 1)];
  }

  /** The reply has come to the worker. */
  lemma Replied(c: Builder.Config, src: seq<Source>, s: State, t: nat) returns (r: State)
    requires Ahead(c, src, s, t)
    ensures Run(c, src, s, [Frame(Builder.BuilderStep(true)), Frame(Builder.BuilderStep(false)), Frame(Builder.WorkerStep(0))])
            == Some(r)
    ensures r.b == s.b.(tables := r.b.tables, builder := Builder.Idle,
                        workers := s.b.workers[0 := Builder.Working(Builder.Dump(t, 0, false))])
    ensures r.b.tables == s.b.tables[t := s.b.tables[t].(running := s.b.tables[t].running + 1, made := 1)]
    ensures r == State(r.b, s.details[t := Strings([Assigned], [0])], Out, s.left[0 := 3])
  {
    OneHanded(src[t]);
    var x := Do(c, src, s, Frame(Builder.BuilderStep(true)));
    assert x.b.builder == Builder.Answering(Builder.Dump(t, 0, false)) && x.b.workers == s.b.workers && x.b.queue == [];
    assert x.details == s.details[t := Strings([Assigned], [0])];
    var y := Do(c, src, x, Frame(Builder.BuilderStep(false)));
    assert y.b.queue == [Builder.Dump(t, 0, false)] && y.b.builder == Builder.Idle;
    r := Do(c, src, y, Frame(Builder.WorkerStep(0)));
    RunThree(c, src, s, Frame(Builder.BuilderStep(true)), Frame(Builder.BuilderStep(false)), Frame(Builder.WorkerStep(0)));
  }

  lemma RunThree(c: Builder.Config, src: seq<Source>, s: State, e: Step, f: Step, g: Step)
    requires Enabled(c, src, s, e) && Enabled(c, src, Do(c, src, s, e), f)
    requires Enabled(c, src, Do(c, src, Do(c, src, s, e), f), g)
    ensures Run(c, src, s, [e, f, g]) == Some(Do(c, src, Do(c, src, Do(c, src, s, e), f), g))
  {
    RunTwo(c, src, Do(c, src, s, e), f, g);
    assert [e, f, g][1..] == [f, g];
  }

  lemma RunTwo(c: Builder.Config, src: seq<Source>, s: State, f: Step, g: Step)
    requires Enabled(c, src, s, f) && Enabled(c, src, Do(c, src, s, f), g)
    ensures Run(c, src, s, [f, g]) == Some(Do(c, src, Do(c, src, s, f), g))
  {
    assert [f, g][1..] == [g] && [g][1..] == [];
    assert Run(c, src, Do(c, src, s, f), [g]) == Some(Do(c, src, Do(c, src, s, f), g));
  }

  /** And it has dumped the chunk without completing it. */
  lemma Dumped(c: Builder.Config, src: seq<Source>, s: State, t: nat) returns (r: State)
    requires 0 < |s.b.workers| == |s.left| && s.b.workers[0] == Builder.Working(Builder.Dump(t, 0, false)) && s.left[0] == 3
    requires t < |s.details| && s.details[t] == Strings([Assigned], [0]) && s.fetch == Out
    ensures Run(c, src, s, [Live(0, false), Live(0, false)]) == Some(r)
    ensures r == State(s.b, s.details[t := Strings([AssignedAgain], [0])], Out, s.left[0 := 1])
  {
    OneLived(Assigned, 3);
    OneLived(Dumping, 2);
    var x := Do(c, src, s, Live(0, false));
    assert x.details == s.details[t := Strings([Dumping], [0])];
    r := Do(c, src, x, Live(0, false));
    assert r.details == s.details[t := Strings([AssignedAgain], [0])];
    RunTwo(c, src, s, Live(0, false), Live(0, false));
  }

  /** The five steps together. */
  lemma BeginsSteps(c: Builder.Config, src: seq<Source>, s: State, t: nat) returns (steps: seq<Step>, r: State)
    requires Ahead(c, src, s, t)
    ensures Run(c, src, s, steps) == Some(r)
    ensures r.b == s.b.(tables := r.b.tables, builder := Builder.Idle,
                        workers := s.b.workers[0 := Builder.Working(Builder.Dump(t, 0, false))])
    ensures r.b.tables == s.b.tables[t := s.b.tables[t].(running := s.b.tables[t].running + 1, made := 1)]
    ensures r == State(r.b, s.details[t := Strings([AssignedAgain], [0])], Out, s.left[0 := 1])
  {
    var x := Replied(c, src, s, t);
    r := Dumped(c, src, x, t);
    var a := [Frame(Builder.BuilderStep(true)), Frame(Builder.BuilderStep(false)), Frame(Builder.WorkerStep(0))];
    RunAppend(c, src, s, a, [Live(0, false), Live(0, false)]);
    steps := a + [Live(0, false), Live(0, false)];
  }

  lemma Begins(c: Builder.Config, src: seq<Source>, s: State) returns (steps: seq<Step>, t: nat)
    requires Solo(c, src, s, None) && Arrived(c, src, s, None)
    ensures var r := Run(c, src, s, steps); r.Some? && Solo(c, src, r.value, Some(t))
  {
    t := Here(s.b);
    OneActive(c, src, s, None);
    assert DetailOk(s, t, s.details[t], src[t]) && Untouched(src, s, t);
    var r;
    steps, r := BeginsSteps(c, src, s, t);
    RunKeepsInv(c, src, s, steps);
    BegunShapes(c, src, s, r, t);
  }

  lemma BegunShapes(c: Builder.Config, src: seq<Source>, s: State, r: State, t: nat)
    requires Shape(c, src, s, None) && t < |src| && src[t].StringKeys? && Untouched(src, s, t)
    requires s.b.tables[t].status == Builder.Ready && |r.b.tables| == |s.b.tables| && r.b.tables[t].status == Builder.Ready
    requires r.b == s.b.(tables := r.b.tables, builder := Builder.Idle,
                         workers := s.b.workers[0 := Builder.Working(Builder.Dump(t, 0, false))])
    requires r.details == s.details[t := Strings([AssignedAgain], [0])] && r.fetch == Out && r.left == s.left[0 := 1]
    ensures Shape(c, src, r, Some(t))
  {
  }

  lemma {:induction false} RunAppend(c: Builder.Config, src: seq<Source>, s: State, a: seq<Step>, b: seq<Step>)
    requires Run(c, src, s, a).Some?
    ensures Run(c, src, s, a + b) == Run(c, src, Run(c, src, s, a).value, b)
    decreases |a|
  {
    if a == [] {
      assert a + b == b;
    } else {
      assert (a + b)[1..] == a[1..] + b;
      RunAppend(c, src, Do(c, src, s, a[0]), a[1..], b);
    }
  }

  // ----- the builder comes back

  lemma ComesBack(c: Builder.Config, src: seq<Source>, s: State, t: nat) returns (r: State)
    requires Solo(c, src, s, Some(t)) && Arrived(c, src, s, Some(t))
    ensures Run(c, src, s, [Pull]) == Some(r) && Hung(r) && Halted(c, r, t, 1, 1) && Inv(c, src, r)
  {
    OneActive(c, src, s, Some(t));
    assert Passes(src[t], s.details[t]);
    r := Do(c, src, s, Pull);
    assert [Pull][1..] == [];
    StepKeepsInv(c, src, s, Pull);
  }

  lemma Starts(c: Builder.Config, src: seq<Source>, s: State)
    requires Initial(c, src, s) && 2 <= c.workers && 2 <= c.cap && exists t :: 0 <= t < |src| && src[t].StringKeys?
    ensures Solo(c, src, s, None)
  {
    InitialInv(c, src, s);
    forall t | 0 <= t < |src| ensures Untouched(src, s, t) {
      assert BuilderTheorems.Fresh(s.b.tables[t]) && t in s.b.list;
    }
  }

  /** From the start there is a run to a state in which the builder is hung up for ever. */
  lemma Hangs(c: Builder.Config, src: seq<Source>, s: State) returns (steps: seq<Step>, r: State, t: nat)
    requires Initial(c, src, s) && 2 <= c.workers && 2 <= c.cap && exists t :: 0 <= t < |src| && src[t].StringKeys?
    ensures Run(c, src, s, steps) == Some(r) && Hung(r) && Halted(c, r, t, 1, 1) && Inv(c, src, r)
  {
    Starts(c, src, s);
    var a := Arrives(c, src, s, None);
    var x := Run(c, src, s, a).value;
    var b;
    b, t := Begins(c, src, x);
    var y := Run(c, src, x, b).value;
    var d := Arrives(c, src, y, Some(t));
    r := ComesBack(c, src, Run(c, src, y, d).value, t);
    RunAppend(c, src, y, d, [Pull]);
    RunAppend(c, src, x, b, d + [Pull]);
    RunAppend(c, src, s, a, b + (d + [Pull]));
    steps := a + (b + (d + [Pull]));
  }

  // ----- and the workers come to a halt

  /** The builder waits for the chunk of worker 0 with the table locked; of the other workers the first n
      wait, all that are left have still to ask. */
  ghost predicate Halted(c: Builder.Config, s: State, t: nat, left: nat, n: nat) {
    && s.fetch == Awaiting(0, false) && Asks(c, s.b) && Here(s.b) == t && s.b.queue == []
    && t < |s.details| && s.details[t].Strings? && 0 < |s.details[t].lives|
    && 1 <= n <= |s.b.workers| == |s.left|
    && s.b.workers[0] == Builder.Working(Builder.Dump(t, 0, false)) && s.left[0] == left
    && (forall i :: 1 <= i < |s.b.workers| ==>
          s.b.workers[i] == Builder.Waiting || (n <= i && s.b.workers[i] == Builder.Asking))
  }

  lemma Completes(c: Builder.Config, src: seq<Source>, s: State, t: nat)
    requires Halted(c, s, t, 1, 1)
    ensures Enabled(c, src, s, Live(0, false)) && Halted(c, Do(c, src, s, Live(0, false)), t, 0, 1)
  {
  }

  lemma OneMoreWaits(c: Builder.Config, src: seq<Source>, s: State, t: nat, n: nat)
    requires Halted(c, s, t, 0, n) && n < |s.b.workers| && s.b.workers[n] == Builder.Asking
    ensures Enabled(c, src, s, Frame(Builder.WorkerStep(n)))
    ensures Halted(c, Do(c, src, s, Frame(Builder.WorkerStep(n))), t, 0, n + 1)
  {
  }

  lemma {:induction false} AllWait(c: Builder.Config, src: seq<Source>, s: State, t: nat, n: nat) returns (steps: seq<Step>)
    requires Halted(c, s, t, 0, n)
    ensures var r := Run(c, src, s, steps); r.Some? && Halted(c, r.value, t, 0, |r.value.b.workers|)
    decreases |s.b.workers| - n
  {
    steps := [];
    if n < |s.b.workers| {
      if s.b.workers[n] == Builder.Asking {
        var step := Frame(Builder.WorkerStep(n));
        OneMoreWaits(c, src, s, t, n);
        var rest := AllWait(c, src, Do(c, src, s, step), t, n + 1);
        steps := [step] + rest;
        assert steps[0] == step && steps[1..] == rest;
      } else {
        steps := AllWait(c, src, s, t, n + 1);
      }
    }
  }

  lemma HaltedStays(c: Builder.Config, src: seq<Source>, s: State, t: nat, step: Step)
    requires Halted(c, s, t, 0, |s.b.workers|)
    ensures !Enabled(c, src, s, step)
  {
  }

  // ----- exactly when

  ghost predicate NotHungAfter(c: Builder.Config, src: seq<Source>, s: State, steps: seq<Step>) {
    Run(c, src, s, steps).Some? ==> !Hung(Run(c, src, s, steps).value)
  }

  /** Some thread can move, or all workers have left. */
  ghost predicate MovesAfter(c: Builder.Config, src: seq<Source>, s: State, steps: seq<Step>) {
    Run(c, src, s, steps).Some? ==>
      BuilderTheorems.AllGone(Run(c, src, s, steps).value.b) || CanStep(c, src, Run(c, src, s, steps).value)
  }

  /** The builder is never hung up if and only if no table is cut by a string key, or there is one worker,
      or one thread for a table. */
  lemma NeverHangsIff(c: Builder.Config, src: seq<Source>, s: State)
    requires Initial(c, src, s) && 0 < c.cap
    ensures (forall steps :: NotHungAfter(c, src, s, steps)) <==> OneAtATime(c, src)
  {
    if OneAtATime(c, src) {
      InitialInv(c, src, s);
      forall steps ensures NotHungAfter(c, src, s, steps) {
        if Run(c, src, s, steps).Some? { NeverAwaits(c, src, s, steps); }
      }
    } else {
      var steps, r, t := Hangs(c, src, s);
      assert !NotHungAfter(c, src, s, steps);
    }
  }

  /** And no run comes to a halt before all workers have left, under the same condition. */
  lemma NeverStuckIff(c: Builder.Config, src: seq<Source>, s: State)
    requires Initial(c, src, s) && 0 < c.cap
    ensures (forall steps :: MovesAfter(c, src, s, steps)) <==> OneAtATime(c, src)
  {
    if OneAtATime(c, src) {
      NeverHangsIff(c, src, s);
      forall steps ensures MovesAfter(c, src, s, steps) {
        if Run(c, src, s, steps).Some? && !BuilderTheorems.AllGone(Run(c, src, s, steps).value.b) {
          assert NotHungAfter(c, src, s, steps);
          NeverStuck(c, src, Run(c, src, s, steps).value);
        }
      }
    } else {
      var steps := Halts(c, src, s);
      assert !MovesAfter(c, src, s, steps);
    }
  }

  lemma Halts(c: Builder.Config, src: seq<Source>, s: State) returns (steps: seq<Step>)
    requires Initial(c, src, s) && 0 < c.cap && !OneAtATime(c, src)
    ensures !MovesAfter(c, src, s, steps)
  {
    var a, r, t := Hangs(c, src, s);
    Completes(c, src, r, t);
    var x := Do(c, src, r, Live(0, false));
    var b := AllWait(c, src, x, t, 1);
    assert ([Live(0, false)] + b)[0] == Live(0, false) && ([Live(0, false)] + b)[1..] == b;
    RunAppend(c, src, s, a, [Live(0, false)] + b);
    steps := a + ([Live(0, false)] + b);
    var z := Run(c, src, s, steps).value;
    forall step ensures !Enabled(c, src, z, step) { HaltedStays(c, src, z, t, step); }
    assert z.b.workers[0] != Builder.Gone;
  }

  // ----- the least that it takes

  const TWO: Builder.Config := Builder.Config(2, 2, false)

  /** One table cut by a string key, two workers. */
  const START: State := State(
    Builder.State([Builder.Table(Builder.Undefined, Builder.ByString, 0, 0, 0)], [0], 0, [], [],
                  Builder.Idle, [Builder.Asking, Builder.Asking], multiset{}),
    [Nothing], Out, [0, 0])

  lemma TwoWorkersHang() returns (steps: seq<Step>, r: State)
    ensures Initial(TWO, [StringKeys], START)
    ensures Run(TWO, [StringKeys], START, steps) == Some(r) && Hung(r)
    ensures |r.b.workers| == 2 && r.b.workers[1] == Builder.Waiting
  {
    assert [StringKeys][0].StringKeys?;
    var t;
    steps, r, t := Hangs(TWO, [StringKeys], START);
    TwoWait(r, t);
  }

  lemma TwoWait(s: State, t: nat)
    requires Inv(TWO, [StringKeys], s) && Halted(TWO, s, t, 1, 1)
    ensures |s.b.workers| == 2 && s.b.workers[1] == Builder.Waiting
  {
    var i := TallyFinds(s.b.workers, Builder.Waiters);
  }
}

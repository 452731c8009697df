/** What every step of the engine keeps: the chunks of each table agree with what the builder and the
    workers hold. */
module EngineSafety {
  import Builder
  import BuilderTheorems
  import IntegerItem
  import IntegerProtocol
  import opened Engine
  import opened Optional

  // ----- the invariant

  predicate BegunLife(life: Life) { life != Unassigned && life != Assigned }

  /** The builder waits for chunk n of table t, unsignalled. */
  predicate Awaits(s: State, t: nat, n: nat) { Locked(s, t) && s.fetch == Awaiting(n, false) }

  /** Chunks are handed out in the order they are made; only the last one may not have begun; one that
      has not begun is still in the queue, or waited for; one that was dumped is completed. */
  ghost predicate StringsOk(s: State, t: nat, d: Detail)
    requires t < |s.b.tables|
  {
    var made := s.b.tables[t].made;
    && d.Strings? && made <= |d.lives| <= made + 1 && 0 < |d.lives|
    && (forall n :: 0 <= n < |d.lives| ==> (d.lives[n] == Unassigned <==> made <= n))
    && (forall n :: 0 <= n < |d.lives| - 1 ==> BegunLife(d.lives[n]))
    && (forall x :: x in d.queue ==> x < |d.lives|)
    && (made < |d.lives| ==> made in d.queue)
    && (forall n :: 0 <= n < |d.lives| && d.lives[n] == Assigned ==> n in d.queue || Awaits(s, t, n))
    && (t !in s.b.list ==> d.queue == [])
    && (forall n :: 0 <= n < made && s.b.done[(t, n)] > 0 ==> d.lives[n] == Completed)
  }

  ghost predicate IntegersOk(s: State, t: nat, d: Detail, src: Source)
    requires t < |s.b.tables|
  {
    && src.IntegerKeys? && d.Integers? && IntegerProtocol.Spans(src.t, src.lo, src.hi, src.step)
    && IntegerProtocol.Inv(src.t, src.lo, src.hi, d.sys)
    && |d.sys.handed| == s.b.tables[t].made
    && (t !in s.b.list ==> d.sys.queue == [])
    && (forall n :: 0 <= n < |d.sys.handed| && s.b.done[(t, n)] > 0 ==>
          d.sys.handed[n] < |d.sys.chunks| && d.sys.chunks[d.sys.handed[n]].pc == IntegerProtocol.Done)
  }

  ghost predicate DetailOk(s: State, t: nat, d: Detail, src: Source)
    requires t < |s.b.tables|
  {
    && (src.StringKeys? <==> s.b.tables[t].kind == Builder.ByString)
    && (src.IntegerKeys? <==> s.b.tables[t].kind == Builder.ByInteger)
    && (src.IntegerKeys? ==> IntegerProtocol.Spans(src.t, src.lo, src.hi, src.step))
    && if s.b.tables[t].status == Builder.Ready then
         match src
         case Free => d == Nothing
         case StringKeys => StringsOk(s, t, d)
         case IntegerKeys(_, _, _, _) => IntegersOk(s, t, d, src)
       else d == Nothing
  }

  /** A worker that holds a string chunk has brought it to its status. */
  predicate WorkerLifeOk(s: State, i: nat) {
    && i < |s.left| && i < |s.b.workers| && s.left[i] <= 3
    && (s.b.workers[i].Working? && s.b.workers[i].job.Dump? && s.b.workers[i].job.t < |s.details| ==>
          var job := s.b.workers[i].job;
          var d := s.details[job.t];
          d.Strings? ==> job.n < |d.lives| && d.lives[job.n] == LifeAt(s.left[i]))
  }

  /** A string chunk on its way to a worker has not begun. */
  predicate JobLifeOk(s: State, j: Builder.Job) {
    j.Dump? && j.t < |s.details| && s.details[j.t].Strings? ==>
      j.n < |s.details[j.t].lives| && s.details[j.t].lives[j.n] == Assigned
  }

  ghost predicate LivesOk(s: State) {
    && (forall i :: 0 <= i < |s.b.workers| ==> WorkerLifeOk(s, i))
    && (forall a :: 0 <= a < |s.b.queue| ==> JobLifeOk(s, s.b.queue[a]))
    && (s.b.builder.Answering? ==> JobLifeOk(s, s.b.builder.job))
  }

  predicate FetchOk(c: Builder.Config, s: State) {
    && (s.fetch != Out ==> Asks(c, s.b) && Here(s.b) < |s.details| && s.details[Here(s.b)] != Nothing)
    && (s.fetch.Awaiting? ==>
          s.details[Here(s.b)].Strings? && s.fetch.n < |s.details[Here(s.b)].lives|
          && s.fetch.n < s.b.tables[Here(s.b)].made)
  }

  ghost predicate DetailsOk(src: seq<Source>, s: State) {
    && |s.details| == |s.b.tables| == |src|
    && forall t :: 0 <= t < |src| ==> DetailOk(s, t, s.details[t], src[t])
  }

  ghost predicate Inv(c: Builder.Config, src: seq<Source>, s: State) {
    && Builder.Inv(c, s.b) && |s.left| == |s.b.workers|
    && DetailsOk(src, s) && LivesOk(s) && FetchOk(c, s)
  }

  // ----- jobs are of chunks that were handed out, each in one place

  /** The number of places a chunk is in, and whether it was handed out. */
  lemma Held(c: Builder.Config, b: Builder.State, t: nat, n: nat)
    requires Builder.Inv(c, b) && t < |b.tables|
    ensures Builder.Total(b, Builder.Holds(t, n)) + b.done[(t, n)] == if n < b.tables[t].made then 1 else 0
  {
    assert Builder.ChunkOk(b, t, n);
  }

  lemma CarriedHolds(b: Builder.State, i: nat, t: nat, n: nat)
    requires i < |b.workers| && Carries(b.workers[i], t, n)
    ensures 1 <= Builder.Tally(b.workers, Builder.Holds(t, n)) <= Builder.Total(b, Builder.Holds(t, n))
  {
    Builder.TallyAfterUpdate(b.workers, i, b.workers[i], Builder.Holds(t, n));
  }

  lemma CarriedOnce(c: Builder.Config, b: Builder.State, i: nat, t: nat, n: nat)
    requires Builder.Inv(c, b) && i < |b.workers| && Carries(b.workers[i], t, n) && t < |b.tables|
    ensures n < b.tables[t].made && b.done[(t, n)] == 0
    ensures forall k :: 0 <= k < |b.workers| && k != i ==> !Carries(b.workers[k], t, n)
    ensures forall a :: 0 <= a < |b.queue| ==> !(b.queue[a].Dump? && b.queue[a].t == t && b.queue[a].n == n)
    ensures b.builder.Answering? ==> !(b.builder.job.Dump? && b.builder.job.t == t && b.builder.job.n == n)
  {
    var m := Builder.Holds(t, n);
    Held(c, b, t, n);
    CarriedHolds(b, i, t, n);
    forall k | 0 <= k < |b.workers| && k != i ensures !Carries(b.workers[k], t, n) {
      Builder.TallyAfterUpdate(b.workers, i, Builder.Asking, m);
      Builder.TallyAfterUpdate(b.workers[i := Builder.Asking], k, b.workers[k], m);
    }
    forall a | 0 <= a < |b.queue| ensures !(b.queue[a].Dump? && b.queue[a].t == t && b.queue[a].n == n) {
      Builder.JobsFinds(b.queue, a, m);
    }
  }

  /** No chunk of a table is on its way before the table is defined. */
  lemma NoneBefore(c: Builder.Config, b: Builder.State, t: nat)
    requires Builder.Inv(c, b) && t < |b.tables| && b.tables[t].made == 0
    ensures forall k, n: nat :: 0 <= k < |b.workers| ==> !Carries(b.workers[k], t, n)
    ensures forall a :: 0 <= a < |b.queue| ==> !(b.queue[a].Dump? && b.queue[a].t == t)
    ensures b.builder.Answering? ==> !(b.builder.job.Dump? && b.builder.job.t == t)
  {
    forall k, n: nat | 0 <= k < |b.workers| ensures !Carries(b.workers[k], t, n) {
      Held(c, b, t, n);
      if Carries(b.workers[k], t, n) { CarriedHolds(b, k, t, n); }
    }
    forall a | 0 <= a < |b.queue| ensures !(b.queue[a].Dump? && b.queue[a].t == t) {
      if b.queue[a].Dump? {
        Held(c, b, t, b.queue[a].n);
        Builder.JobsFinds(b.queue, a, Builder.Holds(t, b.queue[a].n));
      }
    }
    if b.builder.Answering? && b.builder.job.Dump? { Held(c, b, t, b.builder.job.n); }
  }

  lemma DefineeIsDefining(c: Builder.Config, b: Builder.State, i: nat)
    requires Builder.Inv(c, b) && i < |b.workers| && b.workers[i].Working? && b.workers[i].job.Determine?
    ensures var t := b.workers[i].job.t;
            t < |b.tables| && b.tables[t].status == Builder.Defining && b.tables[t].made == 0 && t in b.list
  {
    assert Builder.WorkerOk(c, b, b.workers[i]);
    var t := b.workers[i].job.t;
    assert Builder.TableOk(c, b, t);
    Builder.TallyAfterUpdate(b.workers, i, b.workers[i], Builder.Defines(t));
  }

  // ----- a table whose own state is left alone

  predicate QueueEmpty(d: Detail) {
    match d
    case Nothing => true
    case Strings(_, queue) => queue == []
    case Integers(sys) => sys.queue == []
  }

  /** It agrees with the builder and the workers as before if nothing of it was handed out or dumped,
      and if it left the list it had nothing left. */
  lemma DetailKept(s: State, r: State, t: nat, d: Detail, src: Source)
    requires t < |s.b.tables| && t < |r.b.tables| && DetailOk(s, t, d, src)
    requires r.b.tables[t].kind == s.b.tables[t].kind
    requires r.b.tables[t].status == Builder.Ready <==> s.b.tables[t].status == Builder.Ready
    requires d != Nothing ==> r.b.tables[t].made == s.b.tables[t].made
    requires forall n: nat :: r.b.done[(t, n)] == s.b.done[(t, n)]
    requires t in r.b.list || QueueEmpty(d)
    requires forall n: nat :: Awaits(s, t, n) ==> Awaits(r, t, n)
    ensures DetailOk(r, t, d, src)
  {
    if s.b.tables[t].status == Builder.Ready && src.StringKeys? {
      forall n | 0 <= n < |d.lives| && d.lives[n] == Assigned ensures n in d.queue || Awaits(r, t, n) {
        if n !in d.queue { assert Awaits(s, t, n); }
      }
    }
  }

  // ----- a step of the builder that hands out nothing

  /** What a step of the builder does to a table. */
  lemma BuilderOnTable(c: Builder.Config, b: Builder.State, found: bool, t: nat)
    requires Builder.BuilderEnabled(b) && t < |b.tables| && Builder.ListOk(c, b)
    ensures var r := Builder.DoBuilder(c, b, found);
            && |r.tables| == |b.tables| && r.done == b.done && r.workers == b.workers
            && r.tables[t].kind == b.tables[t].kind
            && (r.tables[t].status == Builder.Ready <==> b.tables[t].status == Builder.Ready)
            && (r.tables[t].made == b.tables[t].made || (Builder.Visiting(b) && Here(b) == t
                  && (b.tables[t].kind == Builder.WholeTable || (Asks(c, b) && found))))
            && (t in r.list ==> t in b.list)
            && (t in b.list && t !in r.list ==>
                  && Builder.Visiting(b) && Here(b) == t
                  && (b.tables[t].kind == Builder.WholeTable || (Asks(c, b) && !found)))
  {
    if Builder.Visiting(b) { Builder.WithoutIn(b.list, b.builder.pos, t); }
  }

  lemma BuilderKeepsDetail(c: Builder.Config, src: seq<Source>, s: State, found: bool, t: nat)
    requires Builder.ListOk(c, s.b) && DetailsOk(src, s) && FetchOk(c, s)
    requires BuilderEnabled(c, src, s, found) && t < |src| && !(Asks(c, s.b) && found)
    ensures var r := DoBuilder(c, src, s, found);
            |r.b.tables| == |s.b.tables| && r.details == s.details && DetailOk(r, t, r.details[t], src[t])
  {
    var r := DoBuilder(c, src, s, found);
    BuilderOnTable(c, s.b, found, t);
    assert DetailOk(s, t, s.details[t], src[t]);
    if t !in r.b.list { assert QueueEmpty(s.details[t]); }
    DetailKept(s, r, t, s.details[t], src[t]);
  }

  /** Only the one chunk of a whole table is sent without asking get_next. */
  lemma SentLife(c: Builder.Config, src: seq<Source>, s: State, found: bool)
    requires DetailsOk(src, s) && BuilderEnabled(c, src, s, found) && !(Asks(c, s.b) && found)
    ensures var r := DoBuilder(c, src, s, found); r.b.builder.Answering? ==> JobLifeOk(r, r.b.builder.job)
  {
    if Builder.Visiting(s.b) { assert DetailOk(s, Here(s.b), s.details[Here(s.b)], src[Here(s.b)]); }
  }

  lemma BuilderKeepsLives(c: Builder.Config, src: seq<Source>, s: State, found: bool)
    requires LivesOk(s) && DetailsOk(src, s) && BuilderEnabled(c, src, s, found) && !(Asks(c, s.b) && found)
    requires |s.left| == |s.b.workers|
    ensures LivesOk(DoBuilder(c, src, s, found))
  {
    var r := DoBuilder(c, src, s, found);
    assert r.details == s.details && r.left == s.left && r.b.workers == s.b.workers;
    forall i | 0 <= i < |r.b.workers| ensures WorkerLifeOk(r, i) { assert WorkerLifeOk(s, i); }
    forall a | 0 <= a < |r.b.queue| ensures JobLifeOk(r, r.b.queue[a]) {
      if a < |s.b.queue| { assert JobLifeOk(s, s.b.queue[a]); }
    }
    SentLife(c, src, s, found);
  }

  // ----- a chunk is handed out

  lemma HandedStringsOk(s: State, r: State, t: nat, d: Detail, src: Source)
    requires t < |s.b.tables| && t < |r.b.tables| && StringsOk(s, t, d) && Answers(src, d, true)
    requires t in s.b.list && t in r.b.list && r.fetch == Out
    requires forall n: nat :: !Awaits(s, t, n)
    requires r.b.tables[t].made == s.b.tables[t].made + 1
    requires forall n: nat :: r.b.done[(t, n)] == s.b.done[(t, n)]
    requires s.b.done[(t, s.b.tables[t].made)] == 0
    ensures StringsOk(r, t, Handed(src, d)) && d.queue[0] == s.b.tables[t].made
  {
    var e, made := Handed(src, d), s.b.tables[t].made;
    assert d.queue[0] == made;
    assert e.queue == d.queue[1..] + [made];
    forall x | x in e.queue ensures x < |e.lives| {
      assert x == made || x in d.queue;
    }
    assert e.queue[|e.queue| - 1] == made;
  }

  lemma HandedIntegersOk(s: State, r: State, t: nat, d: Detail, src: Source)
    requires t < |s.b.tables| && t < |r.b.tables| && IntegersOk(s, t, d, src) && Answers(src, d, true)
    requires t in r.b.list
    requires r.b.tables[t].made == s.b.tables[t].made + 1
    requires forall n: nat :: r.b.done[(t, n)] == s.b.done[(t, n)]
    requires s.b.done[(t, s.b.tables[t].made)] == 0
    ensures IntegersOk(r, t, Handed(src, d), src)
  {
    IntegerProtocol.StepKeepsInv(src.t, src.lo, src.hi, src.step, d.sys, IntegerProtocol.Probe);
    var e := Handed(src, d);
    ProbeKeepsDone(src, d.sys);
    forall n | 0 <= n < |e.sys.handed| && r.b.done[(t, n)] > 0
      ensures e.sys.handed[n] < |e.sys.chunks| && e.sys.chunks[e.sys.handed[n]].pc == IntegerProtocol.Done
    {
      assert n < |d.sys.handed| && e.sys.handed[n] == d.sys.handed[n];
    }
  }

  /** A turn of the builder leaves finished chunks finished. */
  lemma ProbeKeepsDone(src: Source, sys: IntegerProtocol.System)
    requires src.IntegerKeys? && IntegerProtocol.Enabled(sys, IntegerProtocol.Probe)
    requires IntegerProtocol.Inv(src.t, src.lo, src.hi, sys)
    ensures var r := IntegerProtocol.Do(src.t, sys, IntegerProtocol.Probe);
            && |sys.chunks| <= |r.chunks| && sys.handed <= r.handed
            && (IntegerProtocol.TakeTurn(src.t, sys.chunks[sys.queue[0]]).Drop? <==> r.handed == sys.handed)
            && |r.handed| <= |sys.handed| + 1
            && forall i :: 0 <= i < |sys.chunks| && sys.chunks[i].pc == IntegerProtocol.Done ==>
                 r.chunks[i].pc == IntegerProtocol.Done
  {
    IntegerProtocol.TurnOk(src.t, src.lo, src.hi, sys.chunks[sys.queue[0]]);
  }

  lemma HandKeepsDetail(c: Builder.Config, src: seq<Source>, s: State, t: nat)
    requires Builder.Inv(c, s.b) && DetailsOk(src, s) && FetchOk(c, s)
    requires BuilderEnabled(c, src, s, true) && Asks(c, s.b) && t < |src|
    ensures var r := DoBuilder(c, src, s, true);
            |r.b.tables| == |s.b.tables| && |r.details| == |s.details| && DetailOk(r, t, r.details[t], src[t])
  {
    var r := DoBuilder(c, src, s, true);
    BuilderOnTable(c, s.b, true, t);
    assert DetailOk(s, t, s.details[t], src[t]);
    if t == Here(s.b) {
      Held(c, s.b, t, s.b.tables[t].made);
      AskedStays(c, s.b);
      if src[t].StringKeys? {
        HandedStringsOk(s, r, t, s.details[t], src[t]);
      } else if src[t].IntegerKeys? {
        HandedIntegersOk(s, r, t, s.details[t], src[t]);
      }
    } else {
      if t !in r.b.list { assert QueueEmpty(s.details[t]); }
      DetailKept(s, r, t, s.details[t], src[t]);
    }
  }

  /** A table that is served stays in the list. */
  lemma AskedStays(c: Builder.Config, b: Builder.State)
    requires Asks(c, b) && Builder.BuilderEnabled(b)
    ensures var r := Builder.DoBuilder(c, b, true); var t := Here(b);
            && |r.tables| == |b.tables| && r.list == b.list && t in b.list && r.queue == b.queue && r.workers == b.workers
            && r.tables[t].made == b.tables[t].made + 1 && r.tables[t].status == Builder.Ready
            && r.builder == Builder.Reply(c, b.tables[t].kind, t, b.tables[t].made)
  {
  }

  lemma HandKeepsLives(c: Builder.Config, src: seq<Source>, s: State)
    requires Builder.Inv(c, s.b) && LivesOk(s) && DetailsOk(src, s) && |s.left| == |s.b.workers|
    requires BuilderEnabled(c, src, s, true) && Asks(c, s.b)
    ensures LivesOk(DoBuilder(c, src, s, true))
  {
    var r, t := DoBuilder(c, src, s, true), Here(s.b);
    AskedStays(c, s.b);
    assert DetailOk(s, t, s.details[t], src[t]);
    forall i | 0 <= i < |r.b.workers| ensures WorkerLifeOk(r, i) { assert WorkerLifeOk(s, i); }
    forall a | 0 <= a < |r.b.queue| ensures JobLifeOk(r, r.b.queue[a]) { assert JobLifeOk(s, s.b.queue[a]); }
  }

  // ----- a step of a worker in the frame

  /** What a step of a worker does to a table. */
  lemma WorkerOnTable(b: Builder.State, i: nat, t: nat)
    requires i < |b.workers| && Builder.WorkerEnabled(b, b.workers[i]) && t < |b.tables|
    ensures var r := Builder.DoWorker(b, i); var w := b.workers[i];
            && |r.tables| == |b.tables| && r.list == b.list && r.builder == b.builder
            && r.tables[t].kind == b.tables[t].kind && r.tables[t].made == b.tables[t].made
            && (!(HasJob(w) && w.job.t == t) ==> r.tables[t] == b.tables[t])
            && r.tables[t].status == (if HasJob(w) && w.job == Builder.Determine(t) then Builder.Ready else b.tables[t].status)
            && forall n: nat :: r.done[(t, n)] == b.done[(t, n)] + if Carries(w, t, n) then 1 else 0
  {
  }

  /** The builder is where it was. */
  lemma WorkerKeepsAsking(c: Builder.Config, src: seq<Source>, s: State, i: nat)
    requires WorkerEnabled(src, s, i) && s.fetch != Out && Asks(c, s.b)
    ensures var r := DoWorker(src, s, i);
            Asks(c, r.b) && Here(r.b) == Here(s.b) && r.b.tables[Here(s.b)] == s.b.tables[Here(s.b)]
  {
    WorkerOnTable(s.b, i, Here(s.b));
  }

  lemma EndKeepsDetail(c: Builder.Config, src: seq<Source>, s: State, i: nat, t: nat, n: nat)
    requires Builder.Inv(c, s.b) && DetailsOk(src, s) && LivesOk(s) && WorkerEnabled(src, s, i)
    requires t < |src| && Carries(s.b.workers[i], t, n) && |s.left| == |s.b.workers|
    ensures var r := DoWorker(src, s, i); DetailOk(r, t, r.details[t], src[t])
  {
    var r, d := DoWorker(src, s, i), s.details[t];
    WorkerOnTable(s.b, i, t);
    assert DetailOk(s, t, d, src[t]) && WorkerLifeOk(s, i);
    assert Builder.WorkerOk(c, s.b, s.b.workers[i]);
    assert r.fetch == s.fetch && forall k: nat :: Awaits(r, t, k) <==> Awaits(s, t, k);
    CarriedOnce(c, s.b, i, t, n);
  }

  lemma DefineMakesDetail(c: Builder.Config, src: seq<Source>, s: State, i: nat)
    requires Builder.Inv(c, s.b) && DetailsOk(src, s) && WorkerEnabled(src, s, i)
    requires s.b.workers[i].Working? && s.b.workers[i].job.Determine?
    ensures var r := DoWorker(src, s, i); var t := s.b.workers[i].job.t;
            t < |src| && DetailOk(r, t, r.details[t], src[t])
  {
    var t := s.b.workers[i].job.t;
    DefineeIsDefining(c, s.b, i);
    WorkerOnTable(s.b, i, t);
    assert DetailOk(s, t, s.details[t], src[t]);
    if src[t].IntegerKeys? {
      IntegerProtocol.InitialInv(src[t].t, src[t].lo, src[t].hi, src[t].step);
    }
  }

  lemma WorkerKeepsDetail(c: Builder.Config, src: seq<Source>, s: State, i: nat, t: nat)
    requires Builder.Inv(c, s.b) && DetailsOk(src, s) && LivesOk(s) && WorkerEnabled(src, s, i)
    requires t < |src| && |s.left| == |s.b.workers|
    ensures var r := DoWorker(src, s, i);
            |r.b.tables| == |s.b.tables| && |r.details| == |s.details| && DetailOk(r, t, r.details[t], src[t])
  {
    var r, w := DoWorker(src, s, i), s.b.workers[i];
    WorkerOnTable(s.b, i, t);
    assert Builder.WorkerOk(c, s.b, w);
    if HasJob(w) && w.job == Builder.Determine(t) {
      DefineMakesDetail(c, src, s, i);
    } else if HasJob(w) && w.job.Dump? && w.job.t == t {
      EndKeepsDetail(c, src, s, i, t, w.job.n);
    } else {
      assert DetailOk(s, t, s.details[t], src[t]);
      assert r.fetch == s.fetch && forall k: nat :: Awaits(r, t, k) <==> Awaits(s, t, k);
      assert t in r.b.list || QueueEmpty(s.details[t]);
      DetailKept(s, r, t, s.details[t], src[t]);
    }
  }

  /** Defining a table makes no difference to the chunks on their way. */
  lemma WorkerKeepsJobLife(c: Builder.Config, src: seq<Source>, s: State, i: nat, j: Builder.Job)
    requires Builder.Inv(c, s.b) && WorkerEnabled(src, s, i) && JobLifeOk(s, j)
    requires DetailsOk(src, s)
    requires j in s.b.queue || (s.b.builder.Answering? && j == s.b.builder.job)
    ensures JobLifeOk(DoWorker(src, s, i), j)
  {
    var w := s.b.workers[i];
    assert Builder.WorkerOk(c, s.b, w);
    if HasJob(w) && w.job.Determine? {
      DefineeIsDefining(c, s.b, i);
      NoneBefore(c, s.b, w.job.t);
    }
  }

  lemma DefineKeepsWorkerLife(c: Builder.Config, src: seq<Source>, s: State, i: nat, k: nat)
    requires Builder.Inv(c, s.b) && WorkerEnabled(src, s, i) && WorkerLifeOk(s, k)
    requires s.b.workers[i].Working? && s.b.workers[i].job.Determine?
    ensures WorkerLifeOk(DoWorker(src, s, i), k)
  {
    var t := s.b.workers[i].job.t;
    DefineeIsDefining(c, s.b, i);
    NoneBefore(c, s.b, t);
    assert k != i && s.b.workers[k].Working? && s.b.workers[k].job.Dump? && s.b.workers[k].job.t == t
           ==> Carries(s.b.workers[k], t, s.b.workers[k].job.n);
  }

  lemma WorkerKeepsWorkerLife(c: Builder.Config, src: seq<Source>, s: State, i: nat, k: nat)
    requires Builder.Inv(c, s.b) && WorkerEnabled(src, s, i) && LivesOk(s)
    requires k < |s.b.workers| == |s.left|
    ensures WorkerLifeOk(DoWorker(src, s, i), k)
  {
    var w := s.b.workers[i];
    assert WorkerLifeOk(s, k);
    assert Builder.WorkerOk(c, s.b, w);
    if HasJob(w) && w.job.Determine? {
      DefineKeepsWorkerLife(c, src, s, i, k);
    } else if w == Builder.Waiting && k == i {
      assert JobLifeOk(s, s.b.queue[0]);
    }
  }

  lemma WorkerKeepsLives(c: Builder.Config, src: seq<Source>, s: State, i: nat)
    requires Builder.Inv(c, s.b) && WorkerEnabled(src, s, i) && LivesOk(s) && DetailsOk(src, s)
    requires |s.b.workers| == |s.left|
    ensures LivesOk(DoWorker(src, s, i)) && |DoWorker(src, s, i).left| == |DoWorker(src, s, i).b.workers|
  {
    var r := DoWorker(src, s, i);
    forall k | 0 <= k < |r.b.workers| ensures WorkerLifeOk(r, k) { WorkerKeepsWorkerLife(c, src, s, i, k); }
    forall a | 0 <= a < |r.b.queue| ensures JobLifeOk(r, r.b.queue[a]) {
      var j := r.b.queue[a];
      assert j in s.b.queue;
      assert JobLifeOk(s, j);
      WorkerKeepsJobLife(c, src, s, i, j);
    }
    if r.b.builder.Answering? { WorkerKeepsJobLife(c, src, s, i, r.b.builder.job); }
  }

  // ----- get_next goes on, or wakes up

  lemma PassedStringsOk(s: State, r: State, t: nat, d: Detail, src: Source)
    requires t < |s.b.tables| && r.b == s.b && StringsOk(s, t, d) && Passes(src, d) && t in s.b.list
    requires Locked(r, t) && r.fetch == AfterPull(d) && forall n: nat :: !Awaits(s, t, n)
    ensures StringsOk(r, t, Passed(src, d))
  {
    var e := Passed(src, d);
    assert forall x :: x in d.queue <==> x == d.queue[0] || x in e.queue;
    forall n | 0 <= n < |e.lives| && e.lives[n] == Assigned ensures n in e.queue || Awaits(r, t, n) {
      assert n in d.queue;
    }
  }

  lemma PassedIntegersOk(s: State, r: State, t: nat, d: Detail, src: Source)
    requires t < |s.b.tables| && r.b == s.b && IntegersOk(s, t, d, src) && Passes(src, d) && t in s.b.list
    ensures IntegersOk(r, t, Passed(src, d), src)
  {
    IntegerProtocol.StepKeepsInv(src.t, src.lo, src.hi, src.step, d.sys, IntegerProtocol.Probe);
    ProbeKeepsDone(src, d.sys);
  }

  lemma PullKeepsDetail(c: Builder.Config, src: seq<Source>, s: State, t: nat)
    requires DetailsOk(src, s) && PullEnabled(c, src, s) && t < |src|
    ensures var r := DoPull(c, src, s); DetailOk(r, t, r.details[t], src[t])
  {
    var r := DoPull(c, src, s);
    assert DetailOk(s, t, s.details[t], src[t]);
    if t == Here(s.b) {
      if src[t].StringKeys? {
        PassedStringsOk(s, r, t, s.details[t], src[t]);
      } else {
        PassedIntegersOk(s, r, t, s.details[t], src[t]);
      }
    } else {
      assert t in r.b.list || QueueEmpty(s.details[t]);
      DetailKept(s, r, t, s.details[t], src[t]);
    }
  }

  lemma PullKeepsRest(c: Builder.Config, src: seq<Source>, s: State)
    requires DetailsOk(src, s) && LivesOk(s) && PullEnabled(c, src, s) && |s.left| == |s.b.workers|
    ensures LivesOk(DoPull(c, src, s)) && FetchOk(c, DoPull(c, src, s))
  {
    var r, t := DoPull(c, src, s), Here(s.b);
    assert DetailOk(s, t, s.details[t], src[t]);
    forall i | 0 <= i < |r.b.workers| ensures WorkerLifeOk(r, i) { assert WorkerLifeOk(s, i); }
    forall a | 0 <= a < |r.b.queue| ensures JobLifeOk(r, r.b.queue[a]) { assert JobLifeOk(s, s.b.queue[a]); }
  }

  lemma WakeKeepsInv(c: Builder.Config, src: seq<Source>, s: State)
    requires Inv(c, src, s) && WakeEnabled(s)
    ensures Inv(c, src, DoWake(s))
  {
    var r := DoWake(s);
    forall t | 0 <= t < |src| ensures DetailOk(r, t, r.details[t], src[t]) {
      assert DetailOk(s, t, s.details[t], src[t]);
      assert t in r.b.list || QueueEmpty(s.details[t]);
      DetailKept(s, r, t, s.details[t], src[t]);
    }
    forall i | 0 <= i < |r.b.workers| ensures WorkerLifeOk(r, i) { assert WorkerLifeOk(s, i); }
    forall a | 0 <= a < |r.b.queue| ensures JobLifeOk(r, r.b.queue[a]) { assert JobLifeOk(s, s.b.queue[a]); }
  }

  // ----- a string chunk changes its status

  lemma LivedStringsOk(s: State, r: State, t: nat, d: Detail, n: nat, left: nat, grow: bool)
    requires t < |s.b.tables| && r.b == s.b && StringsOk(s, t, d)
    requires n < |d.lives| && n < s.b.tables[t].made && 0 < left <= 3 && d.lives[n] == LifeAt(left)
    requires s.b.done[(t, n)] == 0
    requires forall k: nat :: k != n && Awaits(s, t, k) ==> Awaits(r, t, k)
    ensures StringsOk(r, t, Lived(d, n, left, grow))
  {
    var e, made := Lived(d, n, left, grow), s.b.tables[t].made;
    if left == 3 {
      assert n == |d.lives| - 1 && made == |d.lives|;
      assert n in d.queue || Awaits(s, t, n);
      assert t in s.b.list;
    }
    forall k | 0 <= k < |e.lives| && e.lives[k] == Assigned ensures k in e.queue || Awaits(r, t, k) {
      assert k in d.queue || Awaits(s, t, k);
    }
  }

  lemma LiveKeepsDetail(c: Builder.Config, src: seq<Source>, s: State, i: nat, grow: bool, t: nat)
    requires Inv(c, src, s) && LiveEnabled(s, i) && t < |src|
    ensures var r := DoLive(s, i, grow); DetailOk(r, t, r.details[t], src[t])
  {
    var r, job := DoLive(s, i, grow), s.b.workers[i].job;
    assert DetailOk(s, t, s.details[t], src[t]);
    assert WorkerLifeOk(s, i);
    if t == job.t {
      CarriedOnce(c, s.b, i, t, job.n);
      LivedStringsOk(s, r, t, s.details[t], job.n, s.left[i], grow);
    } else {
      assert t in r.b.list || QueueEmpty(s.details[t]);
      DetailKept(s, r, t, s.details[t], src[t]);
    }
  }

  lemma LiveKeepsLives(c: Builder.Config, src: seq<Source>, s: State, i: nat, grow: bool)
    requires Inv(c, src, s) && LiveEnabled(s, i)
    ensures LivesOk(DoLive(s, i, grow)) && FetchOk(c, DoLive(s, i, grow))
  {
    var r, job := DoLive(s, i, grow), s.b.workers[i].job;
    assert WorkerLifeOk(s, i);
    CarriedOnce(c, s.b, i, job.t, job.n);
    forall k | 0 <= k < |r.b.workers| ensures WorkerLifeOk(r, k) {
      assert WorkerLifeOk(s, k);
      if k != i { assert !Carries(s.b.workers[k], job.t, job.n); }
    }
    forall a | 0 <= a < |r.b.queue| ensures JobLifeOk(r, r.b.queue[a]) {
      assert JobLifeOk(s, s.b.queue[a]);
    }
  }

  // ----- an integer chunk

  lemma OwnKeepsDetail(src: seq<Source>, s: State, i: nat, step: IntegerProtocol.Step, t: nat)
    requires DetailsOk(src, s) && OwnEnabled(src, s, i, step) && t < |src|
    ensures var r := DoOwn(src, s, i, step); DetailOk(r, t, r.details[t], src[t])
  {
    var r := DoOwn(src, s, i, step);
    assert DetailOk(s, t, s.details[t], src[t]);
    if t == s.b.workers[i].job.t {
      IntegerProtocol.StepKeepsInv(src[t].t, src[t].lo, src[t].hi, src[t].step, s.details[t].sys, step);
    } else {
      assert t in r.b.list || QueueEmpty(s.details[t]);
      assert r.fetch == s.fetch && forall k: nat :: Awaits(r, t, k) <==> Awaits(s, t, k);
      DetailKept(s, r, t, s.details[t], src[t]);
    }
  }

  lemma OwnKeepsRest(c: Builder.Config, src: seq<Source>, s: State, i: nat, step: IntegerProtocol.Step)
    requires Inv(c, src, s) && OwnEnabled(src, s, i, step)
    ensures LivesOk(DoOwn(src, s, i, step)) && FetchOk(c, DoOwn(src, s, i, step))
  {
    var r := DoOwn(src, s, i, step);
    forall k | 0 <= k < |r.b.workers| ensures WorkerLifeOk(r, k) { assert WorkerLifeOk(s, k); }
    forall a | 0 <= a < |r.b.queue| ensures JobLifeOk(r, r.b.queue[a]) { assert JobLifeOk(s, s.b.queue[a]); }
  }

  // ----- all together

  lemma BuilderKeepsInv(c: Builder.Config, src: seq<Source>, s: State, found: bool)
    requires Inv(c, src, s) && BuilderEnabled(c, src, s, found) && 0 < c.cap
    ensures Inv(c, src, DoBuilder(c, src, s, found))
  {
    var r := DoBuilder(c, src, s, found);
    Builder.BuilderKeepsInv(c, s.b, found);
    if Asks(c, s.b) && found {
      HandKeepsLives(c, src, s);
      forall t | 0 <= t < |src| ensures |r.b.tables| == |r.details| == |src| && DetailOk(r, t, r.details[t], src[t]) {
        HandKeepsDetail(c, src, s, t);
      }
      HandKeepsDetail(c, src, s, Here(s.b));
    } else {
      BuilderKeepsLives(c, src, s, found);
      forall t | 0 <= t < |src| ensures |r.b.tables| == |r.details| == |src| && DetailOk(r, t, r.details[t], src[t]) {
        BuilderKeepsDetail(c, src, s, found, t);
      }
      if |src| > 0 { BuilderKeepsDetail(c, src, s, found, 0); }
    }
  }

  lemma WorkerKeepsInv(c: Builder.Config, src: seq<Source>, s: State, i: nat)
    requires Inv(c, src, s) && WorkerEnabled(src, s, i)
    ensures Inv(c, src, DoWorker(src, s, i))
  {
    var r := DoWorker(src, s, i);
    Builder.WorkerKeepsInv(c, s.b, i);
    WorkerKeepsLives(c, src, s, i);
    forall t | 0 <= t < |src| ensures |r.b.tables| == |r.details| == |src| && DetailOk(r, t, r.details[t], src[t]) {
      WorkerKeepsDetail(c, src, s, i, t);
    }
    if |src| > 0 { WorkerKeepsDetail(c, src, s, i, 0); }
    if s.fetch != Out {
      WorkerKeepsAsking(c, src, s, i);
      assert DetailOk(s, Here(s.b), s.details[Here(s.b)], src[Here(s.b)]);
      assert Builder.WorkerOk(c, s.b, s.b.workers[i]);
    }
  }

  lemma StepKeepsInv(c: Builder.Config, src: seq<Source>, s: State, step: Step)
    requires Inv(c, src, s) && Enabled(c, src, s, step) && 0 < c.cap
    ensures Inv(c, src, Do(c, src, s, step))
  {
    match step
    case Frame(BuilderStep(found)) => BuilderKeepsInv(c, src, s, found);
    case Frame(WorkerStep(i)) => WorkerKeepsInv(c, src, s, i);
    case Pull =>
      PullKeepsRest(c, src, s);
      forall t | 0 <= t < |src| ensures DetailOk(DoPull(c, src, s), t, DoPull(c, src, s).details[t], src[t]) {
        PullKeepsDetail(c, src, s, t);
      }
    case Wake => WakeKeepsInv(c, src, s);
    case Live(i, grow) =>
      LiveKeepsLives(c, src, s, i, grow);
      forall t | 0 <= t < |src| ensures DetailOk(DoLive(s, i, grow), t, DoLive(s, i, grow).details[t], src[t]) {
        LiveKeepsDetail(c, src, s, i, grow, t);
      }
    case Own(i, own) =>
      OwnKeepsRest(c, src, s, i, own);
      forall t | 0 <= t < |src| ensures DetailOk(DoOwn(src, s, i, own), t, DoOwn(src, s, i, own).details[t], src[t]) {
        OwnKeepsDetail(src, s, i, own, t);
      }
  }

  // ----- every run

  /** The tables are cut by what they say, and nothing has happened. */
  ghost predicate Initial(c: Builder.Config, src: seq<Source>, s: State) {
    && BuilderTheorems.Initial(c, s.b) && |src| == |s.b.tables| == |s.details| && |s.left| == |s.b.workers| && s.fetch == Out
    && (forall i :: 0 <= i < |s.left| ==> s.left[i] == 0)
    && (forall t :: 0 <= t < |src| ==> SourceOk(src[t], s.b.tables[t]) && s.details[t] == Nothing)
  }

  ghost predicate SourceOk(src: Source, table: Builder.Table) {
    && (src.StringKeys? <==> table.kind == Builder.ByString)
    && (src.IntegerKeys? <==> table.kind == Builder.ByInteger)
    && (src.IntegerKeys? ==> IntegerProtocol.Spans(src.t, src.lo, src.hi, src.step))
  }

  lemma InitialInv(c: Builder.Config, src: seq<Source>, s: State)
    requires Initial(c, src, s)
    ensures Inv(c, src, s)
  {
    BuilderTheorems.InitialInv(c, s.b);
    forall t | 0 <= t < |src| ensures DetailOk(s, t, s.details[t], src[t]) {
      assert SourceOk(src[t], s.b.tables[t]) && BuilderTheorems.Fresh(s.b.tables[t]);
    }
  }

  lemma {:induction false} RunKeepsInv(c: Builder.Config, src: seq<Source>, s: State, steps: seq<Step>)
    requires Inv(c, src, s) && Run(c, src, s, steps).Some? && 0 < c.cap
    ensures Inv(c, src, Run(c, src, s, steps).value)
    decreases |steps|
  {
    if steps != [] {
      StepKeepsInv(c, src, s, steps[0]);
      RunKeepsInv(c, src, Do(c, src, s, steps[0]), steps[1..]);
    }
  }
}

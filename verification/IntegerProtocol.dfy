/** Worker threads dump the chunks of one integer-keyed table while the chunk builder hands
    out further chunks by cutting the ones being dumped. A step of the system is one critical
    section of `csi->mutex`, or one query; the steps of different threads interleave freely. */
module IntegerProtocol {
  import opened IntegerItem
  import opened KeySets
  import opened Optional
  import opened Words

  /** Where the owner of a chunk stands in `process_integer_chunk`. */
  datatype Pc =
    | Unhanded               // no worker was given the chunk yet
    | Ready                  // about to enter a step it has decided to take
    | Chosen                 // the cursor is set and the mutex released
    | Writing(adjust: bool)  // `is_last` was asked
    | Measuring              // the rows are written, the step is to be adjusted
    | Written                // about to move the range past the cursor
    | Looping                // about to test the loop condition
    | Leaving                // as Looping, having found no key in the range
    | Done

  datatype Chunk = Chunk(item: Item, pc: Pc)

  /** `queue` is `dbt->chunks_queue`; `handed` lists the chunks given to workers; `dumped` and
      `nulls` count the rows written; `files` are the part numbers written to, in order. */
  datatype System = System(
    chunks: seq<Chunk>, queue: seq<nat>, handed: seq<nat>,
    dumped: multiset<int>, nulls: nat, files: seq<int>)

  datatype Step =
    | Probe                                      // one turn of the loop of get_next_integer_chunk
    | Start(i: nat)                              // stages 1 to 3
    | Inspect(i: nat)                            // is_last
    | Write(i: nat)                              // the query of step 4
    | Measure(i: nat, measured: Option<nat>)     // step 4.1
    | Move(i: nat)                               // steps 5 and 6
    | Test(i: nat)                               // the loop condition of process_integer_chunk

  // ----- the steps

  function StartChunk(t: Table, c: Item): Chunk {
    match Begin(t, c)
    case Aimed(d) => Chunk(d, Chosen)
    case Exhausted(d) => Chunk(d, Leaving)
  }

  function TestChunk(c: Item): Chunk {
    var d := c.(includeNull := false);
    if d.min <= d.max then Chunk(d, Ready) else Chunk(d.(status := Completed), Done)
  }

  /** What a turn of get_next_integer_chunk makes of the chunk it took off the queue. */
  datatype Turn = Give(chunk: Chunk) | Drop(chunk: Chunk) | Cut(parent: Chunk, child: Chunk)

  function TakeTurn(t: Table, ch: Chunk): Turn {
    var c := ch.item;
    if c.status == Unassigned then
      Give(Chunk(c.(status := Assigned), Ready))
    else if c.status == Unsplittable || c.status == Completed then
      Drop(ch)
    else if IsLastStep(c) || !IsSplitable(t, c) then
      Drop(Chunk(c.(status := Unsplittable), ch.pc))
    else
      match Split(t, c)
      case None => Drop(ch)
      case Some((parent, child)) => Cut(Chunk(parent, ch.pc), Chunk(child, Ready))
  }

  function DoProbe(t: Table, s: System): System
    requires 0 < |s.queue| && s.queue[0] < |s.chunks|
  {
    var i, rest, n := s.queue[0], s.queue[1..], |s.chunks|;
    match TakeTurn(t, s.chunks[i])
    case Give(ch) => s.(chunks := s.chunks[i := ch], queue := rest + [i], handed := s.handed + [i])
    case Drop(ch) => s.(chunks := s.chunks[i := ch], queue := rest)
    case Cut(parent, child) =>
      s.(chunks := s.chunks[i := parent] + [child], queue := rest + [i, n], handed := s.handed + [n])
  }

  /** The owner of a chunk at pc may take this step next. */
  predicate Allowed(pc: Pc, step: Step) {
    match step
    case Probe => false
    case Start(_) => pc == Ready
    case Inspect(_) => pc == Chosen
    case Write(_) => pc.Writing?
    case Measure(_, _) => pc == Measuring
    case Move(_) => pc == Written
    case Test(_) => pc == Looping || pc == Leaving
  }

  /** The chunk after its owner's step. */
  function After(t: Table, ch: Chunk, step: Step): Chunk
    requires Allowed(ch.pc, step)
  {
    var c := ch.item;
    match step
    case Probe => ch
    case Start(_) => StartChunk(t, c)
    case Inspect(_) => Chunk(c, Writing(!t.fixed && c.cursor != c.max))
    case Write(_) => Chunk(c, if ch.pc.adjust then Measuring else Written)
    case Measure(_, measured) => Chunk(Adjust(t, c, measured), Written)
    case Move(_) => Chunk(Advance(t, c), Looping)
    case Test(_) => TestChunk(c)
  }

  /** The keys one query returns. */
  function Selected(t: Table, c: Item): set<int> {
    Range(t.keys, c.min, c.cursor)
  }

  function FileOf(t: Table, c: Item): int {
    if t.fixed && c.step > 0 then c.min / c.step + 1 else c.part
  }

  /** The keys an owner's step dumps. */
  function Rows(t: Table, ch: Chunk, step: Step): set<int> {
    if step.Write? then Selected(t, ch.item) else {}
  }

  predicate Enabled(s: System, step: Step) {
    if step.Probe? then
      0 < |s.queue| && s.queue[0] < |s.chunks|
    else
      step.i < |s.chunks| && Allowed(s.chunks[step.i].pc, step)
  }

  function Do(t: Table, s: System, step: Step): System
    requires Enabled(s, step)
  {
    if step.Probe? then DoProbe(t, s) else
    var ch := s.chunks[step.i];
    s.(chunks := s.chunks[step.i := After(t, ch, step)],
       dumped := s.dumped + multiset(Rows(t, ch, step)),
       nulls := s.nulls + (if step.Write? && ch.item.includeNull && t.hasNull then 1 else 0),
       files := s.files + (if step.Write? then [FileOf(t, ch.item)] else []))
  }

  /** The system after a sequence of steps, if each was possible in its turn. */
  function Run(t: Table, s: System, steps: seq<Step>): Option<System>
    decreases |steps|
  {
    if steps == [] then Some(s)
    else if Enabled(s, steps[0]) then Run(t, Do(t, s, steps[0]), steps[1..])
    else None
  }

  /** The table as `set_chunk_strategy_for_dbt` leaves it: one chunk over the whole range. */
  function Initial(t: Table, lo: int, hi: int, step: nat): System {
    var root := Item(lo, lo, hi, step, Unassigned, 0, 0, false, false, true);
    System([Chunk(root, Unhanded)], [0], [], multiset{}, 0, [])
  }

  /** A table cut by its key: the ends of the range are the least and greatest key, the least
      one rounded down to a block in fixed-length mode. */
  ghost predicate Bounds(t: Table, lo: int, hi: int, step: nat) {
    && Fits(t.width, lo) && Fits(t.width, hi) && lo < hi
    && hi in t.keys && (forall k :: k in t.keys ==> lo <= k <= hi)
    && 1 <= t.minStep <= step
    && (if t.fixed then step == t.minStep && 0 <= lo && lo % step == 0 else lo in t.keys)
  }

  /** The range is every value of the type. */
  predicate WholeType(t: Table, lo: int, hi: int) {
    lo == Low(t.width) && hi == High(t.width)
  }

  /** The first step over the whole type covers all of it: always when the column is unsigned, for
      the width of the range is then zero, and from three keys on when it is signed, for it is then
      two. */
  predicate Restarts(t: Table, lo: int, hi: int, step: nat) {
    WholeType(t, lo, hi) && (t.width == Unsigned || 2 < step)
  }

  ghost predicate Spans(t: Table, lo: int, hi: int, step: nat) {
    Bounds(t, lo, hi, step) && !Restarts(t, lo, hi, step)
  }

  // ----- the invariant

  /** The first key the chunk still has to dump. */
  function From(ch: Chunk): int {
    if ch.pc == Measuring || ch.pc == Written || ch.pc == Leaving
    then ch.item.cursor + 1 else ch.item.min
  }

  /** The chunk still has to dump key k. */
  predicate Holds(ch: Chunk, k: int) {
    From(ch) <= k <= ch.item.max
  }

  /** Between the setting of a cursor and the move past it. */
  predicate Underway(pc: Pc) {
    pc == Chosen || pc.Writing? || pc == Measuring || pc == Written
  }

  ghost predicate ChunkOk(t: Table, lo: int, hi: int, ch: Chunk) {
    var c := ch.item;
    && Fits(t.width, c.min) && Fits(t.width, c.cursor) && Fits(t.width, c.max)
    && (WholeType(t, c.min, c.max) ==>
          if Underway(ch.pc) then c.cursor < c.max else !Restarts(t, c.min, c.max, c.step))
    && c.max <= hi
    && (ch.pc == Writing(true) || ch.pc == Measuring ==> !t.fixed)
    && (ch.pc == Unhanded || ch.pc == Ready ==>
          && lo <= c.min <= c.max && 1 <= c.step
          && (c.cursor == c.min || c.cursor == c.min - 1)
          && (if ch.pc == Unhanded then c.status == Unassigned && c.cursor == c.min
              else c.status == Assigned || c.status == Unsplittable))
    && (Underway(ch.pc) ==>
          && lo <= c.min <= c.cursor <= c.max && 1 <= c.step
          && (c.status == Dumping || c.status == Unsplittable))
    && (ch.pc == Looping ==>
          && (if c.min <= c.max then lo <= c.min && c.cursor == c.min - 1 && 1 <= c.step
              else c.max <= c.cursor)
          && (c.status == Assigned || c.status == Unsplittable))
    && (ch.pc == Leaving ==>
          && !t.fixed && c.max < c.min && 1 <= c.step
          && (c.cursor < c.max ==> c.cursor == c.max - 1 && lo <= c.max < hi && c.max !in t.keys)
          && (c.status == Dumping || c.status == Unsplittable))
    && (ch.pc == Done ==> c.status == Completed && c.max < c.min)
  }

  /** In fixed-length mode every step starts on a block boundary and stays in its block. */
  ghost predicate AlignedOk(t: Table, ch: Chunk) {
    var c := ch.item;
    && 0 < c.step == t.minStep && 0 <= c.min && 0 <= c.max
    && (ch.pc != Done && c.min <= c.max ==> c.min % c.step == 0)
    && (Underway(ch.pc) ==> c.cursor == c.min + c.step - 1
                            || (c.cursor == c.max && c.cursor < c.min + c.step - 1))
  }

  ghost predicate Pending(chunks: seq<Chunk>, k: int) {
    exists i :: 0 <= i < |chunks| && Holds(chunks[i], k)
  }

  /** No two chunks hold the same key, and the keys of the snapshot that were dumped, once
      each, are those no chunk holds. */
  ghost predicate Covered(t: Table, chunks: seq<Chunk>, dumped: multiset<int>) {
    && (forall i, j, k :: 0 <= i < j < |chunks| && Holds(chunks[i], k) ==> !Holds(chunks[j], k))
    && (forall k :: k in t.keys ==> dumped[k] == if Pending(chunks, k) then 0 else 1)
    && (forall k :: k in dumped ==> k in t.keys)
  }

  /** The NULL keys are still to be dumped by this chunk. */
  predicate HoldsNull(ch: Chunk) {
    && ch.item.includeNull
    && (ch.pc == Unhanded || ch.pc == Ready || ch.pc == Chosen || ch.pc.Writing?)
  }

  ghost predicate NullOk(ch: Chunk) {
    && (HoldsNull(ch) ==> !ch.item.checkMin)
    && (ch.item.includeNull ==> ch.pc != Done && ch.pc != Leaving)
  }

  /** NULL keys are the business of the first step of the first chunk. */
  ghost predicate NullsOk(t: Table, s: System) {
    && |s.chunks| > 0
    && (forall i :: 0 <= i < |s.chunks| ==> NullOk(s.chunks[i]))
    && (forall i :: 0 < i < |s.chunks| ==> !s.chunks[i].item.includeNull)
    && s.nulls == if t.hasNull && !HoldsNull(s.chunks[0]) then 1 else 0
  }

  ghost predicate Distinct(q: seq<nat>) {
    forall i, j :: 0 <= i < j < |q| ==> q[i] != q[j]
  }

  /** A chunk is handed out once, and one that was not is still queued. */
  ghost predicate QueueOk(s: System) {
    && Distinct(s.queue) && Distinct(s.handed)
    && (forall i :: i in s.queue ==> i < |s.chunks|)
    && (forall i :: 0 <= i < |s.chunks| ==> (i in s.handed <==> s.chunks[i].pc != Unhanded))
    && (forall i :: i in s.handed ==> i < |s.chunks|)
    && (forall i :: 0 <= i < |s.chunks| && s.chunks[i].pc == Unhanded ==> i in s.queue)
  }

  ghost predicate ChunksOk(t: Table, lo: int, hi: int, chunks: seq<Chunk>) {
    forall i :: 0 <= i < |chunks| ==>
      ChunkOk(t, lo, hi, chunks[i]) && (t.fixed ==> AlignedOk(t, chunks[i]))
  }

  ghost predicate Inv(t: Table, lo: int, hi: int, s: System) {
    && ChunksOk(t, lo, hi, s.chunks)
    && Covered(t, s.chunks, s.dumped)
    && NullsOk(t, s)
    && QueueOk(s)
  }

  // ----- one chunk changes

  /** A chunk that gives up keys leaves the cover intact when exactly these were dumped. */
  lemma ShrinkKeepsCover(t: Table, chunks: seq<Chunk>, dumped: multiset<int>, i: nat, ch: Chunk, gone: set<int>)
    requires Covered(t, chunks, dumped) && i < |chunks|
    requires forall k :: Holds(ch, k) ==> Holds(chunks[i], k)
    requires forall k :: k in gone <==> k in t.keys && Holds(chunks[i], k) && !Holds(ch, k)
    ensures Covered(t, chunks[i := ch], dumped + multiset(gone))
  {
    var next, after := chunks[i := ch], dumped + multiset(gone);
    forall k | k in t.keys
      ensures after[k] == if Pending(next, k) then 0 else 1
    {
      if Holds(chunks[i], k) {
        assert Pending(chunks, k);
        if Holds(ch, k) {
          assert Holds(next[i], k);
        }
      } else {
        assert Pending(chunks, k) <==> Pending(next, k) by {
          if j :| 0 <= j < |chunks| && Holds(chunks[j], k) {
            assert Holds(next[j], k);
          }
          if j :| 0 <= j < |next| && Holds(next[j], k) {
            assert Holds(chunks[j], k);
          }
        }
      }
    }
  }

  /** A chunk cut in two keeps the cover intact when the two hold what it held. */
  lemma CutKeepsCover(t: Table, chunks: seq<Chunk>, dumped: multiset<int>, i: nat, parent: Chunk, child: Chunk)
    requires Covered(t, chunks, dumped) && i < |chunks|
    requires forall k :: Holds(parent, k) || Holds(child, k) <==> Holds(chunks[i], k)
    requires forall k :: !(Holds(parent, k) && Holds(child, k))
    ensures Covered(t, chunks[i := parent] + [child], dumped)
  {
    var next := chunks[i := parent] + [child];
    forall k | k in t.keys
      ensures Pending(next, k) <==> Pending(chunks, k)
    {
      if j :| 0 <= j < |chunks| && Holds(chunks[j], k) {
        assert Holds(next[j], k) || Holds(next[|chunks|], k);
      }
      if j :| 0 <= j < |next| && Holds(next[j], k) {
        assert Holds(chunks[if j == |chunks| then i else j], k);
      }
    }
  }

  // ----- the critical sections, one chunk at a time

  /** Narrowing keeps every key of the range, and leaves early only when it holds none. */
  lemma NarrowKeepsKeys(t: Table, c: Item)
    requires c.min <= c.max
    ensures c.min <= Narrow(t, c).min <= Narrow(t, c).max <= c.max
    ensures Range(t.keys, Narrow(t, c).min, Narrow(t, c).max) == Range(t.keys, c.min, c.max)
    ensures BothMissing(t, c) <==> c.checkMin && c.checkMax && Range(t.keys, c.min, c.max) == {}
    ensures BothMissing(t, c) ==> Narrow(t, c).min == Narrow(t, c).max == c.min
  {
    var c1 := if c.checkMax then UpdateMax(t, c) else c;
    assert Range(t.keys, c1.min, c1.max) == Range(t.keys, c.min, c.max);
    var c2 := if c.checkMin then UpdateMin(t, c1) else c1;
    assert Range(t.keys, c2.min, c2.max) == Range(t.keys, c1.min, c1.max);
  }

  lemma StartFixedOk(t: Table, lo: int, hi: int, step: nat, c: Item)
    requires Spans(t, lo, hi, step) && t.fixed
    requires ChunkOk(t, lo, hi, Chunk(c, Ready)) && AlignedOk(t, Chunk(c, Ready))
    ensures ChunkOk(t, lo, hi, StartChunk(t, c)) && AlignedOk(t, StartChunk(t, c))
    ensures forall k :: Holds(StartChunk(t, c), k) <==> Holds(Chunk(c, Ready), k)
  {
    CursorInRange(t, c.(status := Dumping));
  }

  lemma StartNarrowedOk(t: Table, lo: int, hi: int, step: nat, c: Item)
    requires Spans(t, lo, hi, step) && !t.fixed
    requires ChunkOk(t, lo, hi, Chunk(c, Ready))
    requires !BothMissing(t, c.(status := Dumping))
    ensures ChunkOk(t, lo, hi, StartChunk(t, c))
    ensures forall k :: Holds(StartChunk(t, c), k) ==> Holds(Chunk(c, Ready), k)
    ensures forall k :: k in t.keys && Holds(Chunk(c, Ready), k) ==> Holds(StartChunk(t, c), k)
  {
    var d := c.(status := Dumping);
    NarrowKeepsKeys(t, d);
    forall k | k in t.keys && c.min <= k <= c.max
      ensures Narrow(t, d).min <= k <= Narrow(t, d).max
    {
      assert k in Range(t.keys, c.min, c.max);
    }
    CursorInRange(t, Narrow(t, d));
  }

  lemma StartMissingOk(t: Table, lo: int, hi: int, step: nat, c: Item)
    requires Spans(t, lo, hi, step) && !t.fixed
    requires ChunkOk(t, lo, hi, Chunk(c, Ready))
    requires BothMissing(t, c.(status := Dumping))
    ensures ChunkOk(t, lo, hi, StartChunk(t, c)) && StartChunk(t, c).pc == Leaving
    ensures forall k :: Holds(StartChunk(t, c), k) ==> Holds(Chunk(c, Ready), k)
    ensures forall k :: k in t.keys ==> !Holds(Chunk(c, Ready), k)
  {
    NarrowKeepsKeys(t, c.(status := Dumping));
    assert hi !in Range(t.keys, c.min, c.max);
    forall k | k in t.keys
      ensures !(c.min <= k <= c.max)
    {
      assert k !in Range(t.keys, c.min, c.max);
    }
  }

  lemma StartOk(t: Table, lo: int, hi: int, step: nat, c: Item)
    requires Spans(t, lo, hi, step)
    requires ChunkOk(t, lo, hi, Chunk(c, Ready))
    requires t.fixed ==> AlignedOk(t, Chunk(c, Ready))
    ensures ChunkOk(t, lo, hi, StartChunk(t, c))
    ensures t.fixed ==> AlignedOk(t, StartChunk(t, c))
    ensures forall k :: Holds(StartChunk(t, c), k) ==> Holds(Chunk(c, Ready), k)
    ensures forall k :: k in t.keys && Holds(Chunk(c, Ready), k) ==> Holds(StartChunk(t, c), k)
  {
    if t.fixed {
      StartFixedOk(t, lo, hi, step, c);
    } else if BothMissing(t, c.(status := Dumping)) {
      StartMissingOk(t, lo, hi, step, c);
    } else {
      StartNarrowedOk(t, lo, hi, step, c);
    }
  }

  lemma WriteOk(t: Table, lo: int, hi: int, ch: Chunk)
    requires ChunkOk(t, lo, hi, ch) && ch.pc.Writing?
    ensures var next := Chunk(ch.item, if ch.pc.adjust then Measuring else Written);
            && ChunkOk(t, lo, hi, next)
            && (forall k :: Holds(next, k) ==> Holds(ch, k))
            && (forall k :: k in Selected(t, ch.item) <==> k in t.keys && Holds(ch, k) && !Holds(next, k))
  {
  }

  lemma MeasureOk(t: Table, lo: int, hi: int, c: Item, measured: Option<nat>)
    requires ChunkOk(t, lo, hi, Chunk(c, Measuring)) && 1 <= t.minStep && !t.fixed
    ensures ChunkOk(t, lo, hi, Chunk(Adjust(t, c, measured), Written))
    ensures forall k :: Holds(Chunk(Adjust(t, c, measured), Written), k) <==> Holds(Chunk(c, Measuring), k)
  {
  }

  lemma MoveAligned(t: Table, lo: int, hi: int, c: Item)
    requires ChunkOk(t, lo, hi, Chunk(c, Written)) && t.fixed && AlignedOk(t, Chunk(c, Written))
    ensures AlignedOk(t, Chunk(Advance(t, c), Looping))
  {
    NextBoundary(c.min, c.step);
  }

  lemma MoveOk(t: Table, lo: int, hi: int, step: nat, c: Item)
    requires Spans(t, lo, hi, step)
    requires ChunkOk(t, lo, hi, Chunk(c, Written))
    ensures ChunkOk(t, lo, hi, Chunk(Advance(t, c), Looping))
    ensures forall k :: Holds(Chunk(Advance(t, c), Looping), k) <==> Holds(Chunk(c, Written), k)
  {
    AdvanceLeavesTheRest(t, c);
    forall k
      ensures Holds(Chunk(Advance(t, c), Looping), k) <==> Holds(Chunk(c, Written), k)
    {
      assert InRange(Advance(t, c), k) <==> InRange(c, k) && c.cursor < k;
    }
  }

  lemma TestOk(t: Table, lo: int, hi: int, ch: Chunk)
    requires ChunkOk(t, lo, hi, ch) && (ch.pc == Looping || ch.pc == Leaving)
    requires t.fixed ==> AlignedOk(t, ch)
    ensures ChunkOk(t, lo, hi, TestChunk(ch.item))
    ensures t.fixed ==> AlignedOk(t, TestChunk(ch.item))
    ensures forall k :: Holds(TestChunk(ch.item), k) ==> Holds(ch, k)
    ensures forall k :: k in t.keys && Holds(ch, k) ==> Holds(TestChunk(ch.item), k)
  {
  }

  /** A chunk the builder may cut is not finished, and what it cuts is not being dumped. */
  ghost predicate Cuttable(t: Table, ch: Chunk) {
    && (ch.item.status == Assigned || ch.item.status == Dumping)
    && !IsLastStep(ch.item) && IsSplitable(t, ch.item)
  }

  lemma SplitFreeOk(t: Table, lo: int, hi: int, ch: Chunk)
    requires ChunkOk(t, lo, hi, ch) && !t.fixed && Cuttable(t, ch)
    ensures Split(t, ch.item).Some?
    ensures var (parent, child) := Split(t, ch.item).value;
            && ChunkOk(t, lo, hi, Chunk(parent, ch.pc)) && ChunkOk(t, lo, hi, Chunk(child, Ready))
            && (forall k :: Holds(Chunk(parent, ch.pc), k) || Holds(Chunk(child, Ready), k) <==> Holds(ch, k))
            && (forall k :: !(Holds(Chunk(parent, ch.pc), k) && Holds(Chunk(child, Ready), k)))
  {
    SplitPointInside(t, ch.item);
  }

  lemma LaterBlock(min: nat, max: nat, step: nat)
    requires 0 < step && min / step < max / step
    ensures min < max
  {
    if max <= min {
      QuotientMonotone(max, min, step);
    }
  }

  lemma SameBlock(min: nat, cursor: nat, step: nat)
    requires 0 < step && min % step == 0 && min <= cursor < min + step
    ensures cursor / step == min / step
  {
    QuotientInBlock(min / step, cursor - min, step);
  }

  lemma SplitFixedInside(t: Table, lo: int, hi: int, ch: Chunk)
    requires ChunkOk(t, lo, hi, ch) && t.fixed && AlignedOk(t, ch) && Cuttable(t, ch)
    ensures 0 <= Base(ch.item) <= ch.item.max
    ensures Base(ch.item) / ch.item.step == ch.item.min / ch.item.step
  {
    var c := ch.item;
    LaterBlock(c.min, c.max, c.step);
    if c.status == Dumping {
      SameBlock(c.min, c.cursor, c.step);
    }
  }

  lemma SplitFixedOk(t: Table, lo: int, hi: int, ch: Chunk)
    requires ChunkOk(t, lo, hi, ch) && t.fixed && AlignedOk(t, ch) && Cuttable(t, ch)
    ensures Split(t, ch.item).Some?
    ensures var (parent, child) := Split(t, ch.item).value;
            && ChunkOk(t, lo, hi, Chunk(parent, ch.pc)) && ChunkOk(t, lo, hi, Chunk(child, Ready))
            && AlignedOk(t, Chunk(parent, ch.pc)) && AlignedOk(t, Chunk(child, Ready))
            && (forall k :: Holds(Chunk(parent, ch.pc), k) || Holds(Chunk(child, Ready), k) <==> Holds(ch, k))
            && (forall k :: !(Holds(Chunk(parent, ch.pc), k) && Holds(Chunk(child, Ready), k)))
  {
    SplitFixedInside(t, lo, hi, ch);
    FixedSplitPointInside(t, ch.item);
  }

  /** What a turn of the builder may do to a chunk. */
  lemma TurnOk(t: Table, lo: int, hi: int, ch: Chunk)
    requires ChunkOk(t, lo, hi, ch) && (t.fixed ==> AlignedOk(t, ch))
    ensures var turn := TakeTurn(t, ch);
            && (turn.Cut? <==> Cuttable(t, ch))
            && (turn.Give? <==> ch.pc == Unhanded)
            && (turn.Give? ==> turn.chunk.pc == Ready)
            && (turn.Drop? ==> turn.chunk.pc == ch.pc)
            && (turn.Cut? ==> turn.parent.pc == ch.pc && turn.child.pc == Ready)
  {
    if Cuttable(t, ch) {
      SplitOk(t, lo, hi, ch);
    }
  }

  lemma KeptOk(t: Table, lo: int, hi: int, ch: Chunk)
    requires ChunkOk(t, lo, hi, ch) && (t.fixed ==> AlignedOk(t, ch)) && !TakeTurn(t, ch).Cut?
    ensures var next := TakeTurn(t, ch).chunk;
            && ChunkOk(t, lo, hi, next) && (t.fixed ==> AlignedOk(t, next))
            && (forall k :: Holds(next, k) <==> Holds(ch, k))
  {
  }

  lemma CutOk(t: Table, lo: int, hi: int, ch: Chunk)
    requires ChunkOk(t, lo, hi, ch) && (t.fixed ==> AlignedOk(t, ch)) && TakeTurn(t, ch).Cut?
    ensures var Cut(parent, child) := TakeTurn(t, ch);
            && ChunkOk(t, lo, hi, parent) && ChunkOk(t, lo, hi, child)
            && (t.fixed ==> AlignedOk(t, parent) && AlignedOk(t, child))
            && (forall k :: Holds(parent, k) || Holds(child, k) <==> Holds(ch, k))
            && (forall k :: !(Holds(parent, k) && Holds(child, k)))
  {
    TurnOk(t, lo, hi, ch);
    SplitOk(t, lo, hi, ch);
  }

  lemma SplitOk(t: Table, lo: int, hi: int, ch: Chunk)
    requires ChunkOk(t, lo, hi, ch) && (t.fixed ==> AlignedOk(t, ch)) && Cuttable(t, ch)
    ensures Split(t, ch.item).Some?
    ensures var (parent, child) := Split(t, ch.item).value;
            && ChunkOk(t, lo, hi, Chunk(parent, ch.pc)) && ChunkOk(t, lo, hi, Chunk(child, Ready))
            && (t.fixed ==> AlignedOk(t, Chunk(parent, ch.pc)) && AlignedOk(t, Chunk(child, Ready)))
            && (forall k :: Holds(Chunk(parent, ch.pc), k) || Holds(Chunk(child, Ready), k) <==> Holds(ch, k))
            && (forall k :: !(Holds(Chunk(parent, ch.pc), k) && Holds(Chunk(child, Ready), k)))
  {
    if t.fixed { SplitFixedOk(t, lo, hi, ch); } else { SplitFreeOk(t, lo, hi, ch); }
  }

  // ----- every step keeps the invariant

  lemma AfterOk(t: Table, lo: int, hi: int, step0: nat, ch: Chunk, step: Step)
    requires Spans(t, lo, hi, step0) && ChunkOk(t, lo, hi, ch) && (t.fixed ==> AlignedOk(t, ch))
    requires Allowed(ch.pc, step)
    ensures ChunkOk(t, lo, hi, After(t, ch, step)) && (t.fixed ==> AlignedOk(t, After(t, ch, step)))
    ensures forall k :: Holds(After(t, ch, step), k) ==> Holds(ch, k)
    ensures forall k :: k in Rows(t, ch, step) <==>
              k in t.keys && Holds(ch, k) && !Holds(After(t, ch, step), k)
  {
    match step
    case Probe =>
    case Start(_) => StartOk(t, lo, hi, step0, ch.item);
    case Inspect(_) =>
    case Write(_) => WriteOk(t, lo, hi, ch);
    case Measure(_, measured) => MeasureOk(t, lo, hi, ch.item, measured);
    case Move(_) =>
      MoveOk(t, lo, hi, step0, ch.item);
      if t.fixed { MoveAligned(t, lo, hi, ch.item); }
    case Test(_) => TestOk(t, lo, hi, ch);
  }

  lemma AfterKeepsNull(t: Table, lo: int, hi: int, ch: Chunk, step: Step)
    requires ChunkOk(t, lo, hi, ch) && Allowed(ch.pc, step) && NullOk(ch)
    ensures NullOk(After(t, ch, step))
    ensures HoldsNull(ch) <==> HoldsNull(After(t, ch, step)) || (step.Write? && ch.item.includeNull)
    ensures After(t, ch, step).item.includeNull ==> ch.item.includeNull
    ensures step.Write? ==> !HoldsNull(After(t, ch, step))
  {
  }

  /** A new list of chunks in the place of the old one keeps the invariant. */
  lemma ReplaceKeepsInv(t: Table, lo: int, hi: int, s: System, next: System, i: nat, ch: Chunk)
    requires Inv(t, lo, hi, s) && i < |s.chunks|
    requires ChunkOk(t, lo, hi, ch) && (t.fixed ==> AlignedOk(t, ch))
    requires next.chunks == s.chunks[i := ch] && next.queue == s.queue && next.handed == s.handed
    requires s.chunks[i].pc != Unhanded && ch.pc != Unhanded
    requires Covered(t, next.chunks, next.dumped) && NullsOk(t, next)
    ensures Inv(t, lo, hi, next)
  {
  }

  lemma OwnerStepKeepsNulls(t: Table, lo: int, hi: int, s: System, step: Step)
    requires ChunksOk(t, lo, hi, s.chunks) && NullsOk(t, s)
    requires Enabled(s, step) && !step.Probe?
    ensures NullsOk(t, Do(t, s, step))
  {
    var ch := s.chunks[step.i];
    assert NullOk(ch);
    AfterKeepsNull(t, lo, hi, ch, step);
  }

  lemma OwnerStepKeepsInv(t: Table, lo: int, hi: int, step0: nat, s: System, step: Step)
    requires Spans(t, lo, hi, step0) && Inv(t, lo, hi, s)
    requires Enabled(s, step) && !step.Probe?
    ensures Inv(t, lo, hi, Do(t, s, step))
  {
    var ch := s.chunks[step.i];
    AfterOk(t, lo, hi, step0, ch, step);
    ShrinkKeepsCover(t, s.chunks, s.dumped, step.i, After(t, ch, step), Rows(t, ch, step));
    OwnerStepKeepsNulls(t, lo, hi, s, step);
    ReplaceKeepsInv(t, lo, hi, s, Do(t, s, step), step.i, After(t, ch, step));
  }

  lemma DistinctAppend(q: seq<nat>, x: nat)
    requires Distinct(q) && x !in q
    ensures Distinct(q + [x])
  {
    forall i, j | 0 <= i < j < |q + [x]|
      ensures (q + [x])[i] != (q + [x])[j]
    {
      assert q[i] in q;
    }
  }

  lemma DistinctTail(q: seq<nat>)
    requires Distinct(q) && q != []
    ensures Distinct(q[1..]) && q[0] !in q[1..]
    ensures forall x :: x in q <==> x == q[0] || x in q[1..]
  {
    assert q == [q[0]] + q[1..];
  }

  lemma TurnKeepsQueue(s: System, next: System, turn: Turn)
    requires QueueOk(s) && Enabled(s, Probe)
    requires var i, rest, n := s.queue[0], s.queue[1..], |s.chunks|;
             && (turn.Give? <==> s.chunks[i].pc == Unhanded)
             && (match turn
                 case Give(ch) => ch.pc == Ready && next.chunks == s.chunks[i := ch]
                                  && next.queue == rest + [i] && next.handed == s.handed + [i]
                 case Drop(ch) => ch.pc == s.chunks[i].pc && next.chunks == s.chunks[i := ch]
                                  && next.queue == rest && next.handed == s.handed
                 case Cut(parent, child) =>
                   && parent.pc == s.chunks[i].pc && child.pc == Ready
                   && next.chunks == s.chunks[i := parent] + [child]
                   && next.queue == rest + [i, n] && next.handed == s.handed + [n])
    ensures QueueOk(next)
  {
    var i, rest, n := s.queue[0], s.queue[1..], |s.chunks|;
    DistinctTail(s.queue);
    DistinctAppend(rest, i);
    if turn.Give? {
      DistinctAppend(s.handed, i);
    } else if turn.Cut? {
      DistinctAppend(s.handed, n);
      DistinctAppend(rest + [i], n);
      assert rest + [i] + [n] == rest + [i, n];
    }
  }

  lemma TurnKeepsNull(t: Table, lo: int, hi: int, ch: Chunk)
    requires ChunkOk(t, lo, hi, ch) && (t.fixed ==> AlignedOk(t, ch)) && NullOk(ch)
    ensures var turn := TakeTurn(t, ch);
            && (turn.Cut? ==> NullOk(turn.parent) && !turn.child.item.includeNull)
            && (turn.Cut? ==> turn.parent.item.includeNull == ch.item.includeNull && turn.parent.pc == ch.pc)
            && (!turn.Cut? ==> NullOk(turn.chunk) && turn.chunk.item.includeNull == ch.item.includeNull)
            && (!turn.Cut? ==> (HoldsNull(turn.chunk) <==> HoldsNull(ch)))
  {
  }

  lemma ProbeKeepsNulls(t: Table, lo: int, hi: int, s: System)
    requires ChunksOk(t, lo, hi, s.chunks) && NullsOk(t, s) && Enabled(s, Probe)
    ensures NullsOk(t, DoProbe(t, s))
  {
    var ch := s.chunks[s.queue[0]];
    assert NullOk(ch);
    TurnKeepsNull(t, lo, hi, ch);
  }

  lemma ReplaceKeepsChunks(t: Table, lo: int, hi: int, chunks: seq<Chunk>, dumped: multiset<int>, i: nat, ch: Chunk)
    requires ChunksOk(t, lo, hi, chunks) && Covered(t, chunks, dumped) && i < |chunks|
    requires ChunkOk(t, lo, hi, ch) && (t.fixed ==> AlignedOk(t, ch))
    requires forall k :: Holds(ch, k) <==> Holds(chunks[i], k)
    ensures ChunksOk(t, lo, hi, chunks[i := ch]) && Covered(t, chunks[i := ch], dumped)
  {
    ShrinkKeepsCover(t, chunks, dumped, i, ch, {});
    assert dumped + multiset({}) == dumped;
  }

  lemma ProbeKeepsChunks(t: Table, lo: int, hi: int, s: System)
    requires ChunksOk(t, lo, hi, s.chunks) && Enabled(s, Probe)
    requires Covered(t, s.chunks, s.dumped)
    ensures ChunksOk(t, lo, hi, DoProbe(t, s).chunks)
    ensures Covered(t, DoProbe(t, s).chunks, s.dumped)
  {
    var i := s.queue[0];
    var ch := s.chunks[i];
    var turn := TakeTurn(t, ch);
    if turn.Cut? {
      CutOk(t, lo, hi, ch);
      CutKeepsCover(t, s.chunks, s.dumped, i, turn.parent, turn.child);
    } else {
      KeptOk(t, lo, hi, ch);
      ReplaceKeepsChunks(t, lo, hi, s.chunks, s.dumped, i, turn.chunk);
    }
  }

  lemma StepKeepsInv(t: Table, lo: int, hi: int, step0: nat, s: System, step: Step)
    requires Spans(t, lo, hi, step0) && Inv(t, lo, hi, s) && Enabled(s, step)
    ensures Inv(t, lo, hi, Do(t, s, step))
  {
    if step.Probe? {
      var ch := s.chunks[s.queue[0]];
      ProbeKeepsChunks(t, lo, hi, s);
      ProbeKeepsNulls(t, lo, hi, s);
      TurnOk(t, lo, hi, ch);
      TurnKeepsQueue(s, DoProbe(t, s), TakeTurn(t, ch));
    } else {
      OwnerStepKeepsInv(t, lo, hi, step0, s, step);
    }
  }

  lemma InitialInv(t: Table, lo: int, hi: int, step: nat)
    requires Spans(t, lo, hi, step)
    ensures Inv(t, lo, hi, Initial(t, lo, hi, step))
  {
    var s := Initial(t, lo, hi, step);
    forall k | k in t.keys
      ensures Pending(s.chunks, k)
    {
      assert Holds(s.chunks[0], k);
    }
  }

  lemma {:induction false} RunKeepsInv(t: Table, lo: int, hi: int, step0: nat, s: System, steps: seq<Step>)
    requires Spans(t, lo, hi, step0) && Inv(t, lo, hi, s) && Run(t, s, steps).Some?
    ensures Inv(t, lo, hi, Run(t, s, steps).value)
    decreases |steps|
  {
    if steps != [] {
      StepKeepsInv(t, lo, hi, step0, s, steps[0]);
      RunKeepsInv(t, lo, hi, step0, Do(t, s, steps[0]), steps[1..]);
    }
  }
}

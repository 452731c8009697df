/** One integer chunk: the fields of `chunk_step_item` that the protocol reads, and the
    functions its critical sections compute. Every function stands for a stretch of code
    that runs while `csi->mutex` is held. */
module IntegerItem {
  import opened KeySets
  import opened Optional
  import opened Words

  datatype Status = Unassigned | Assigned | Dumping | Unsplittable | Completed

  datatype Item = Item(
    min: int, cursor: int, max: int, step: nat,
    status: Status, part: int, deep: nat,
    checkMin: bool, checkMax: bool, includeNull: bool)

  /** What does not change while a table is dumped: the column's type, the step options and
      the snapshot, of which only the non-NULL keys and the presence of NULL keys matter. */
  datatype Table = Table(
    width: Width, fixed: bool, minStep: nat, maxStep: nat,
    keys: set<int>, hasNull: bool)

  predicate IsLastStep(c: Item) {
    c.status == Dumping && c.max == c.cursor
  }

  /** The fixed-length quotients are those of non-negative keys. */
  predicate IsSplitable(t: Table, c: Item) {
    if t.fixed then
      c.step > 0 && c.max / c.step > c.min / c.step + 1
    else
      && c.cursor < c.max
      && (|| (c.status == Dumping && Distance(t.width, c.max, c.cursor) >= c.step)
          || (c.status == Assigned && Distance(t.width, c.max, c.min) >= c.step))
  }

  /** The rows being dumped stay with the owner: only what lies past them is cut. */
  function Base(c: Item): int {
    if c.status == Dumping then c.cursor else c.min
  }

  /** Where the new chunk starts. The fixed-length formula is the one of non-negative keys
      and a step below 2^31. */
  function SplitPoint(t: Table, c: Item): (mid: int)
    requires t.fixed ==> 0 < c.step
  {
    if t.fixed then
      var b := Base(c) / c.step;
      b * c.step + c.step * ((c.max / c.step - b) / 2 + 1)
    else
      var mid := Wrap(t.width, Base(c) + Half(c.max) - Half(Base(c)));
      if mid == Base(c) then Wrap(t.width, mid + 1) else mid
  }

  /** The chunk left to the owner and the new one, or nothing when the cut does not move. */
  function Split(t: Table, c: Item): (r: Option<(Item, Item)>)
    requires t.fixed ==> 0 < c.step
  {
    var mid := SplitPoint(t, c);
    if t.fixed && (Base(c) / c.step == mid / c.step || mid == Base(c)) then
      None
    else
      var part := if t.fixed then mid / c.step + 1 else c.part + Pow2(c.deep);
      var child := Item(mid, mid, c.max, c.step, Assigned, part, c.deep + 1, true, true, false);
      Some((c.(max := Wrap(t.width, mid - 1), checkMax := true, deep := c.deep + 1), child))
  }

  /** `update_integer_max`: the greatest key in the range, or an empty answer. */
  function UpdateMax(t: Table, c: Item): Item {
    var found := Range(t.keys, c.min, c.max);
    c.(max := if found == {} then c.min else Greatest(found))
  }

  /** `update_integer_min` */
  function UpdateMin(t: Table, c: Item): Item {
    var found := Range(t.keys, c.min, c.max);
    if found == {} then c else c.(min := Least(found))
  }

  /** The range once both ends were checked against the snapshot, if they had to be. */
  function Narrow(t: Table, c: Item): Item {
    var c1 := if c.checkMax then UpdateMax(t, c) else c;
    var c2 := if c.checkMin then UpdateMin(t, c1) else c1;
    c2.(checkMin := false, checkMax := false)
  }

  /** Both ends were asked for and neither was found. */
  predicate BothMissing(t: Table, c: Item) {
    && c.checkMax && Range(t.keys, c.min, c.max) == {}
    && c.checkMin && Range(t.keys, c.min, UpdateMax(t, c).max) == {}
  }

  /** Stage 3: the last key of this step. */
  function SetCursor(t: Table, c: Item): Item {
    var span := Wrap(Unsigned, Distance(t.width, c.max, c.min) + 1);
    c.(cursor := if c.step > span then c.max else Wrap(t.width, c.min + c.step - 1))
  }

  /** The outcome of stages 1 to 3: a cursor to write up to, or an empty range. */
  datatype Begun = Aimed(item: Item) | Exhausted(item: Item)

  function Begin(t: Table, c: Item): Begun {
    var d := c.(status := Dumping);
    if t.fixed then
      Aimed(SetCursor(t, d))
    else
      var n := Narrow(t, d);
      if BothMissing(t, d) then
        Exhausted(n.(min := Wrap(t.width, n.max + 1)))
      else
        Aimed(SetCursor(t, n))
  }

  /** Step 4.1. `measured` is the step derived from the rows and seconds of the query, and
      absent when either was zero. */
  function Adjust(t: Table, c: Item, measured: Option<nat>): Item {
    var s := match measured
             case Some(x) => x
             case None => Wrap(Unsigned, 2 * c.step);
    var capped := if t.maxStep != 0 && s > t.maxStep then t.maxStep else s;
    var raised := if t.minStep != 0 && capped < t.minStep then t.minStep else capped;
    c.(step := raised, checkMin := c.checkMin || measured.None?)
  }

  /** Step 6: no step is longer than what is left. */
  function Trim(t: Table, c: Item): Item {
    var span := Wrap(Unsigned, Distance(t.width, c.max, c.min) + 1);
    c.(step := if c.step > span then span else c.step)
  }

  /** Steps 5 and 6: the next range starts after the cursor. */
  function Advance(t: Table, c: Item): Item {
    var next := Wrap(t.width, c.cursor + 1);
    var d := if next < c.min
             then c.(min := c.max, max := Wrap(t.width, c.max - 1))
             else c.(min := next);
    var e := if d.status == Completed then d else d.(status := Assigned);
    if t.fixed then e else Trim(t, e)
  }

  // ----- what the pieces achieve

  /** A cut falls strictly after the base and not past the end, so neither side is empty. */
  lemma SplitPointInside(t: Table, c: Item)
    requires Fits(t.width, Base(c)) && Fits(t.width, c.max)
    requires Base(c) < c.max && !t.fixed
    ensures Base(c) < SplitPoint(t, c) <= c.max
    ensures c.max - SplitPoint(t, c) <= (c.max - Base(c)) / 2 + 1
    ensures c.max - Base(c) < 3 ==> c.max - SplitPoint(t, c) < c.max - Base(c)
    ensures SplitPoint(t, c) - 1 - Base(c) <= (c.max - Base(c)) / 2
  {
  }

  /** Truncating division makes the cut uneven exactly when an odd negative base faces an odd
      positive end more than two keys away. */
  lemma HalvesUnlessAcrossZero(t: Table, c: Item)
    requires Fits(t.width, Base(c)) && Fits(t.width, c.max)
    requires Base(c) < c.max && !t.fixed
    ensures c.max - SplitPoint(t, c) <= (c.max - Base(c) + 1) / 2 <==>
            !(Base(c) < 0 < c.max && Base(c) % 2 == 1 && c.max % 2 == 1 && c.max - Base(c) > 2)
  {
  }

  lemma CutBetween(base: nat, max: nat, step: nat)
    requires 0 < step && base / step + 1 < max / step
    ensures var b, q := base / step, max / step;
            var cut := b * step + step * ((q - b) / 2 + 1);
            && cut % step == 0 && b < cut / step <= q && base < cut <= max
            && 0 <= (cut / step - b) - (q - cut / step + 1) <= 1
  {
    var b, q := base / step, max / step;
    var half := (q - b) / 2 + 1;
    Distribute(b, half, step);
    MultipleDivides(b + half, step);
    MiddleBoundary(base, max, step, b + half);
  }

  /** A fixed-length cut falls on a block boundary past the base's block and not past the
      last block; the owner keeps as many blocks as the new chunk gets, or one more. */
  lemma FixedSplitPointInside(t: Table, c: Item)
    requires t.fixed && 0 < c.step && 0 <= Base(c) <= c.max
    requires Base(c) / c.step + 1 < c.max / c.step
    ensures SplitPoint(t, c) % c.step == 0
    ensures Base(c) / c.step < SplitPoint(t, c) / c.step <= c.max / c.step
    ensures Base(c) < SplitPoint(t, c) <= c.max
    ensures var owner, child := SplitPoint(t, c) / c.step - Base(c) / c.step, c.max / c.step - SplitPoint(t, c) / c.step + 1;
            owner == child || owner == child + 1
  {
    CutBetween(Base(c), c.max, c.step);
  }

  lemma Distribute(a: int, b: int, s: int)
    ensures a * s + s * b == (a + b) * s
  {
  }

  /** How far hi is from lo as the code computes it: exact, but for a signed range of more than half the
      type, of which it sees the complement. */
  function GapSeen(w: Width, lo: int, hi: int): int {
    if w == Unsigned || hi - lo < 0x8000_0000_0000_0000 then hi - lo else 0x1_0000_0000_0000_0000 - (hi - lo)
  }

  /** The number of values from lo to hi as the code computes it, in 64 bits. */
  function SpanSeen(w: Width, lo: int, hi: int): int { (GapSeen(w, lo, hi) + 1) % 0x1_0000_0000_0000_0000 }

  lemma SpanIsSeen(w: Width, lo: int, hi: int)
    requires Fits(w, lo) && Fits(w, hi) && lo <= hi
    ensures Distance(w, hi, lo) == GapSeen(w, lo, hi)
    ensures Wrap(Unsigned, Distance(w, hi, lo) + 1) == SpanSeen(w, lo, hi)
  {
  }

  /** The cursor of a non-empty range lies in it: a step away, or at the end if the range is seen to be
      shorter. A step covers the whole type at once when its width wraps to zero, or to two for a signed
      column. */
  lemma CursorInRange(t: Table, c: Item)
    requires Fits(t.width, c.min) && Fits(t.width, c.max) && c.min <= c.max && 0 < c.step
    ensures c.min <= SetCursor(t, c).cursor <= c.max
    ensures SetCursor(t, c) == c.(cursor := if c.step <= SpanSeen(t.width, c.min, c.max) then c.min + c.step - 1 else c.max)
    ensures c.min == Low(t.width) && c.max == High(t.width) ==>
              (SetCursor(t, c).cursor == c.max <==> t.width == Unsigned || 2 < c.step)
  {
    SpanIsSeen(t.width, c.min, c.max);
  }

  predicate InRange(c: Item, k: int) {
    c.min <= k <= c.max
  }

  /** Moving on leaves exactly the keys after the cursor, for every range but one: when the
      step had covered every value of the type, the overflow test misses and the whole range
      comes back. */
  lemma AdvanceLeavesTheRest(t: Table, c: Item)
    requires Fits(t.width, c.min) && Fits(t.width, c.max) && c.min <= c.cursor <= c.max
    ensures (forall k :: InRange(Advance(t, c), k) <==> InRange(c, k) && c.cursor < k)
            <==> !(c.min == Low(t.width) && c.cursor == High(t.width))
  {
    if c.min == Low(t.width) && c.cursor == High(t.width) {
      assert InRange(Advance(t, c), c.cursor);
    }
  }

  /** The chunk may be cut again from now on, and its step is cut down to what is left, unless it is
      fixed. */
  lemma AdvanceTrims(t: Table, c: Item)
    requires Fits(t.width, c.min) && Fits(t.width, c.max) && c.min <= c.cursor <= c.max
    ensures Advance(t, c).status == if c.status == Completed then Completed else Assigned
    ensures t.fixed ==> Advance(t, c).step == c.step
    ensures !t.fixed && c.cursor < c.max ==>
              var left := SpanSeen(t.width, c.cursor + 1, c.max);
              Advance(t, c).step == if c.step <= left then c.step else left
    ensures var d := Advance(t, c); c.(min := d.min, max := d.max, step := d.step, status := d.status) == d
  {
    if c.cursor < c.max { SpanIsSeen(t.width, c.cursor + 1, c.max); }
  }

  /** The step asked for after a query: the measured one, or twice the old one in 64 bits. */
  function Wanted(c: Item, measured: Option<nat>): nat {
    match measured
    case Some(rows) => rows
    case None => 2 * c.step % 0x1_0000_0000_0000_0000
  }

  /** Step 4.1 goes by the limits of the table: between them the step is the one asked for, past an end
      it is that end, and when the ends are crossed it is the minimum. Nothing else changes, but that a
      query that could not be measured has the next minimum looked up. */
  lemma AdjustWithinLimits(t: Table, c: Item, measured: Option<nat>)
    ensures var s, want := Adjust(t, c, measured).step, Wanted(c, measured);
            && t.minStep <= s
            && (t.maxStep != 0 && t.minStep <= t.maxStep ==> s <= t.maxStep)
            && (t.minStep <= want && (t.maxStep == 0 || want <= t.maxStep) ==> s == want)
            && (want < t.minStep ==> s == t.minStep)
            && (t.maxStep != 0 && want > t.maxStep ==> s == if t.minStep <= t.maxStep then t.maxStep else t.minStep)
    ensures Adjust(t, c, measured)
         == c.(step := Adjust(t, c, measured).step, checkMin := c.checkMin || measured == None)
  {
  }

  // ----- what a range is narrowed to

  /** The ends that were to be checked are keys, the greatest and the least of the range. */
  lemma NarrowToKeys(t: Table, c: Item, k: int)
    requires k in t.keys && InRange(c, k)
    ensures var n := Narrow(t, c);
            && n == c.(min := n.min, max := n.max, checkMin := false, checkMax := false)
            && (if c.checkMax then n.max in t.keys && k <= n.max <= c.max else n.max == c.max)
            && (if c.checkMin then n.min in t.keys && c.min <= n.min <= k else n.min == c.min)
  {
    assert k in Range(t.keys, c.min, c.max);
    if c.checkMax { assert k in Range(t.keys, c.min, UpdateMax(t, c).max); }
  }

  /** Stages 1 to 3 of a step over a range that holds a key: outside fixed-length mode the ends are
      narrowed to keys and the cursor is set by the narrowed range; in it the range is left alone. */
  lemma BeginAims(t: Table, c: Item, k: int)
    requires k in t.keys && InRange(c, k)
    ensures var n := if t.fixed then c else Narrow(t, c);
            Begin(t, c) == Aimed(SetCursor(t, n.(status := Dumping)))
  {
    var d := c.(status := Dumping);
    assert k in Range(t.keys, c.min, c.max);
    assert InRange(d, k) && Narrow(t, d) == Narrow(t, c).(status := Dumping);
  }

  /** Over a range without a key the greatest comes out as the minimum; when both ends were asked for
      there is nothing to write, and the range is left empty. */
  lemma BeginFindsNone(t: Table, c: Item)
    requires !t.fixed && forall k :: k in t.keys ==> !InRange(c, k)
    requires Fits(t.width, c.min) && Fits(t.width, c.max) && c.min <= c.max
    ensures var n := c.(max := if c.checkMax then c.min else c.max, status := Dumping, checkMin := false, checkMax := false);
            Begin(t, c) == if c.checkMin && c.checkMax then Exhausted(n.(min := Wrap(t.width, c.min + 1)))
                           else Aimed(SetCursor(t, n))
  {
    assert Range(t.keys, c.min, c.max) == {} && Range(t.keys, c.min, c.min) == {};
  }

  // ----- what a cut makes

  /** The two chunks a cut makes: they meet at the cut, the ends it made are to be looked up, the owner
      goes on as it was and the other one starts at its minimum, with the same step and without the
      NULL keys. */
  lemma SplitMakes(t: Table, c: Item)
    requires t.fixed ==> 0 < c.step && Base(c) / c.step < SplitPoint(t, c) / c.step
    requires Fits(t.width, Base(c)) && Fits(t.width, c.max) && Base(c) < SplitPoint(t, c) <= c.max
    ensures var cut := SplitPoint(t, c);
            var part := if t.fixed then cut / c.step + 1 else c.part + Pow2(c.deep);
            Split(t, c) == Some((
              Item(c.min, c.cursor, cut - 1, c.step, c.status, c.part, c.deep + 1, c.checkMin, true, c.includeNull),
              Item(cut, cut, c.max, c.step, Assigned, part, c.deep + 1, true, true, false)))
  {
  }
}

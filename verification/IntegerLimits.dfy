/** The depth bounds of integer chunks are met: runs that cut as deep as any can, and the gaps beyond
    which a file number leaves its 64 bits. */
module IntegerLimits {
  import opened IntegerDepth
  import opened IntegerItem
  import opened IntegerProtocol
  import opened IntegerTheorems
  import opened KeySets
  import opened Optional
  import opened Words

  // ----- a run that cuts the far half again and again

  /** Where an assigned chunk over a..hi is cut. */
  function Mid(w: Width, a: int, hi: int): (mid: int)
    requires Fits(w, a) && Fits(w, hi) && a < hi
    ensures a < mid <= hi
  {
    var mid := Wrap(w, a + Half(hi) - Half(a));
    if mid == a then Wrap(w, mid + 1) else mid
  }

  /** The starts of the chunks that cutting the far half again and again makes, down to a single key. */
  ghost predicate Path(w: Width, lo: int, hi: int, stops: seq<int>) {
    && Fits(w, lo) && Fits(w, hi) && lo < hi && 1 < |stops| && stops[0] == lo && stops[|stops| - 1] == hi
    && forall i :: 0 <= i < |stops| - 1 ==> PathStep(w, lo, hi, stops[i], stops[i + 1])
  }

  ghost predicate PathStep(w: Width, lo: int, hi: int, a: int, b: int) {
    Fits(w, lo) && Fits(w, hi) && lo <= a < hi && b == Mid(w, a, hi)
  }

  /** A table of two keys. */
  function Ends(w: Width, lo: int, hi: int): Table { Table(w, false, 1, 0, {lo, hi}, false) }

  function Linked(lo: int, hi: int, n: nat, a: int): Chunk {
    Chunk(Item(a, a, hi, 1, Assigned, Pow2(n) - 1, n, n > 0, n > 0, n == 0), Ready)
  }

  /** Chunk n was just made, over a..hi, and is the only one the builder may still cut. */
  ghost predicate AtLink(lo: int, hi: int, s: System, n: nat, a: int) {
    && lo <= a <= hi && (n == 0 <==> a == lo)
    && s.queue == [n] && |s.chunks| == n + 1 && s.chunks[n] == Linked(lo, hi, n, a)
  }

  function Near(lo: int, hi: int, n: nat, a: int, mid: int): Item {
    Item(a, a, mid - 1, 1, Assigned, Pow2(n) - 1, n + 1, n > 0, true, n == 0)
  }

  lemma LinkCut(w: Width, lo: int, hi: int, n: nat, a: int)
    requires Fits(w, lo) && Fits(w, hi) && lo <= a < hi
    ensures var mid := Mid(w, a, hi);
            TakeTurn(Ends(w, lo, hi), Linked(lo, hi, n, a))
            == Cut(Chunk(Near(lo, hi, n, a, mid), Ready), Linked(lo, hi, n + 1, mid))
  {
  }

  /** The owner of the near half finds no key after its first, and leaves nothing to cut. */
  lemma NearIsDropped(w: Width, lo: int, hi: int, n: nat, a: int, mid: int)
    requires Fits(w, lo) && Fits(w, hi) && lo <= a < mid <= hi && (n == 0 <==> a == lo)
    ensures var d := StartChunk(Ends(w, lo, hi), Near(lo, hi, n, a, mid));
            d.item.status == Dumping && IsLastStep(d.item)
  {
    var t, c := Ends(w, lo, hi), Near(lo, hi, n, a, mid).(status := Dumping);
    var found := Range(t.keys, a, mid - 1);
    if n == 0 {
      assert found == {lo};
      assert Narrow(t, c).min == Narrow(t, c).max == lo;
    } else {
      assert found == {};
      assert Range(t.keys, a, a) == {};
    }
  }

  lemma Link(w: Width, lo: int, hi: int, s: System, n: nat, a: int) returns (steps: seq<Step>, next: System)
    requires Fits(w, lo) && Fits(w, hi) && lo <= a < hi && AtLink(lo, hi, s, n, a)
    ensures Run(Ends(w, lo, hi), s, steps) == Some(next)
    ensures AtLink(lo, hi, next, n + 1, Mid(w, a, hi))
  {
    var t, mid := Ends(w, lo, hi), Mid(w, a, hi);
    LinkCut(w, lo, hi, n, a);
    NearIsDropped(w, lo, hi, n, a, mid);
    var s1 := Do(t, s, Probe);
    assert s1.queue == [n, n + 1] && s1.chunks[n] == Chunk(Near(lo, hi, n, a, mid), Ready);
    var s2 := Do(t, s1, Start(n));
    next := Do(t, s2, Probe);
    RunTwo(t, s, Probe, s1, Start(n), s2);
    RunAppend(t, s, [Probe, Start(n)], [Probe]);
    assert [Probe][1..] == [];
    steps := [Probe, Start(n)] + [Probe];
  }

  lemma {:induction false} ChainRun(w: Width, lo: int, hi: int, stops: seq<int>, s: System, n: nat)
    returns (steps: seq<Step>, last: System)
    requires Path(w, lo, hi, stops) && n < |stops| && AtLink(lo, hi, s, n, stops[n])
    ensures Run(Ends(w, lo, hi), s, steps) == Some(last) && AtLink(lo, hi, last, |stops| - 1, hi)
    decreases |stops| - n
  {
    if n == |stops| - 1 {
      steps, last := [], s;
    } else {
      assert PathStep(w, lo, hi, stops[n], stops[n + 1]);
      var first, next := Link(w, lo, hi, s, n, stops[n]);
      var rest;
      rest, last := ChainRun(w, lo, hi, stops, next, n + 1);
      ThenRun(Ends(w, lo, hi), s, first, next, rest, last);
      steps := first + rest;
    }
  }

  lemma ThenRun(t: Table, s: System, first: seq<Step>, next: System, rest: seq<Step>, last: System)
    requires Run(t, s, first) == Some(next) && Run(t, next, rest) == Some(last)
    ensures Run(t, s, first + rest) == Some(last)
  {
    RunAppend(t, s, first, rest);
  }

  /** Some run over the table makes a chunk as deep as the path is long, with every bit of its number
      set. */
  lemma DeepRun(w: Width, lo: int, hi: int, stops: seq<int>) returns (steps: seq<Step>, i: nat)
    requires Path(w, lo, hi, stops)
    ensures var r := Run(Ends(w, lo, hi), Initial(Ends(w, lo, hi), lo, hi, 1), steps);
            && r.Some? && i < |r.value.chunks|
            && r.value.chunks[i].item.deep == |stops| - 1
            && r.value.chunks[i].item.part == Pow2(|stops| - 1) - 1
  {
    var t := Ends(w, lo, hi);
    var s0 := Initial(t, lo, hi, 1);
    var s1 := Do(t, s0, Probe);
    assert s1.queue == [0] && s1.chunks[0] == Linked(lo, hi, 0, lo);
    var last;
    steps, last := ChainRun(w, lo, hi, stops, s1, 0);
    assert [Probe][1..] == [];
    assert Run(t, s0, [Probe]) == Run(t, s1, []);
    ThenRun(t, s0, [Probe], s1, steps, last);
    steps := [Probe] + steps;
    i := |stops| - 1;
  }

  // ----- how deep that is

  lemma MidAboveZero(w: Width, a: int, hi: int)
    requires Fits(w, hi) && 0 <= a < hi
    ensures Mid(w, a, hi) == if hi / 2 == a / 2 then a + 1 else a + hi / 2 - a / 2
  {
  }

  /** Cuts of the far half of 0..2p+1: one of the many, and the last two. */
  lemma StepsAboveZero(w: Width, p: int, q: int)
    requires 1 <= q <= p && Fits(w, 2 * p + 1)
    ensures PathStep(w, 0, 2 * p + 1, 2 * p - 2 * q, 2 * p - q)
    ensures PathStep(w, 0, 2 * p + 1, 2 * p - 1, 2 * p)
    ensures PathStep(w, 0, 2 * p + 1, 2 * p, 2 * p + 1)
  {
    MidAboveZero(w, 2 * p - 2 * q, 2 * p + 1);
    MidAboveZero(w, 2 * p - 1, 2 * p + 1);
    MidAboveZero(w, 2 * p, 2 * p + 1);
  }

  /** From 0 to 2^k + 1: two deeper than k. */
  function StopFromZero(k: nat, i: nat): int {
    if i <= k then Pow2(k) - Pow2(k - i) else if i == k + 1 then Pow2(k) else Pow2(k) + 1
  }

  lemma StopInHalves(k: nat, i: nat, p: nat, q: nat)
    requires 1 <= k && i < k + 2 && p == Pow2(k - 1) && q == if i < k then Pow2(k - i - 1) else 1
    ensures 1 <= q <= p && Pow2(k) == 2 * p
    ensures StopFromZero(k, i) == if i < k then 2 * p - 2 * q else if i == k then 2 * p - 1 else 2 * p
    ensures StopFromZero(k, i + 1) == if i < k then 2 * p - q else if i == k then 2 * p else 2 * p + 1
  {
    if i < k { Pow2Monotone(k - i - 1, k - 1); }
  }

  lemma StepFromZero(w: Width, k: nat, i: nat)
    requires 1 <= k && i < k + 2 && Fits(w, Pow2(k) + 1)
    ensures PathStep(w, 0, Pow2(k) + 1, StopFromZero(k, i), StopFromZero(k, i + 1))
  {
    var p, q := Pow2(k - 1), if i < k then Pow2(k - i - 1) else 1;
    StopInHalves(k, i, p, q);
    StepsAboveZero(w, p, q);
  }

  function StopsFromZero(k: nat): seq<int> { seq(k + 3, i requires 0 <= i => StopFromZero(k, i)) }

  lemma PathFromZero(w: Width, k: nat)
    requires 1 <= k && Fits(w, Pow2(k) + 1)
    ensures Path(w, 0, Pow2(k) + 1, StopsFromZero(k))
  {
    var stops := StopsFromZero(k);
    assert forall i :: 0 <= i < k + 3 ==> stops[i] == StopFromZero(k, i);
    forall i | 0 <= i < k + 2 ensures PathStep(w, 0, Pow2(k) + 1, stops[i], stops[i + 1]) {
      StepFromZero(w, k, i);
    }
  }

  lemma MidAcrossZero(q: int)
    requires 1 <= q && Fits(Signed, -1 - 2 * q)
    ensures Mid(Signed, -1 - 2 * q, 1) == -1 - q
  {
  }

  /** From -1 - 2^k to 1: three deeper than k. */
  function StopAcrossZero(k: nat, i: nat): int { if i <= k then -1 - Pow2(k - i) else i - k - 2 }

  lemma StepAcrossZero(k: nat, i: nat)
    requires 1 <= k && i < k + 3 && Fits(Signed, -1 - Pow2(k))
    ensures PathStep(Signed, -1 - Pow2(k), 1, StopAcrossZero(k, i), StopAcrossZero(k, i + 1))
  {
    if i < k {
      Pow2Monotone(k - i, k);
      MidAcrossZero(Pow2(k - i - 1));
    }
  }

  function StopsAcrossZero(k: nat): seq<int> { seq(k + 4, i requires 0 <= i => StopAcrossZero(k, i)) }

  lemma PathAcrossZero(k: nat)
    requires 1 <= k && Fits(Signed, -1 - Pow2(k))
    ensures Path(Signed, -1 - Pow2(k), 1, StopsAcrossZero(k))
  {
    var stops := StopsAcrossZero(k);
    assert forall i :: 0 <= i < k + 4 ==> stops[i] == StopAcrossZero(k, i);
    forall i | 0 <= i < k + 3 ensures PathStep(Signed, -1 - Pow2(k), 1, stops[i], stops[i + 1]) {
      StepAcrossZero(k, i);
    }
  }

  /** Over such a range, which crosses zero, a run goes one deeper than the logarithm of the gap and one
      allow, as deep as any run can. */
  lemma DeeperThanLogarithm(k: nat) returns (steps: seq<Step>, i: nat)
    requires 1 <= k && Fits(Signed, -1 - Pow2(k))
    ensures var lo := -1 - Pow2(k); var t := Ends(Signed, lo, 1);
            var r := Run(t, Initial(t, lo, 1, 1), steps);
            r.Some? && i < |r.value.chunks| && r.value.chunks[i].item.deep == HalvesUp(1 - lo) + 1
    ensures Crosses(-1 - Pow2(k), 1) && Deepest(-1 - Pow2(k), 1) == HalvesUp(2 + Pow2(k)) + 1
  {
    PathAcrossZero(k);
    HalvesUpOfPower(k);
    steps, i := DeepRun(Signed, -1 - Pow2(k), 1, StopsAcrossZero(k));
  }

  lemma {:induction false} HalvesUpOfPower(k: nat)
    requires 1 <= k
    ensures HalvesUp(Pow2(k) + 1) == HalvesUp(Pow2(k) + 2) == k + 2
  {
    if k == 1 {
      assert Pow2(1) == 2 && HalvesUp(2) == 2 && HalvesUp(3) == 1 + HalvesUp(2) && HalvesUp(4) == 1 + HalvesUp(2);
    } else {
      HalvesUpOfPower(k - 1);
      assert (Pow2(k) + 2) / 2 == Pow2(k - 1) + 1 && (Pow2(k) + 3) / 2 == Pow2(k - 1) + 1;
    }
  }

  // ----- 64 bits

  lemma Shift8(n: nat)
    ensures Pow2(n + 8) == 256 * Pow2(n)
  {
    assert Pow2(n + 4) == 2 * Pow2(n + 3) == 4 * Pow2(n + 2) == 8 * Pow2(n + 1) == 16 * Pow2(n);
    assert Pow2(n + 8) == 2 * Pow2(n + 7) == 4 * Pow2(n + 6) == 8 * Pow2(n + 5) == 16 * Pow2(n + 4);
  }

  lemma Powers()
    ensures Pow2(64) == TWO64 && Pow2(63) == TWO63 && Pow2(65) == 2 * TWO64 && 2 * Pow2(62) == TWO63
  {
    Shift8(0); Shift8(8); Shift8(16); Shift8(24);
    Shift8(32); Shift8(40); Shift8(48); Shift8(56);
    assert Pow2(64) == 2 * Pow2(63) && Pow2(63) == 2 * Pow2(62) && Pow2(65) == 2 * Pow2(64);
  }

  ghost predicate PartFits(t: Table, lo: int, hi: int, step: nat, steps: seq<Step>, i: nat) {
    var r := Run(t, Initial(t, lo, hi, step), steps);
    r.Some? && i < |r.value.chunks| ==> 0 <= r.value.chunks[i].item.part < TWO64
  }

  /** The numbers of all chunks of all runs over the range fit 64 bits. */
  ghost predicate PartsFit(t: Table, lo: int, hi: int, step: nat) {
    forall steps, i: nat :: PartFits(t, lo, hi, step, steps, i)
  }

  /** The ranges of at most this gap that cross zero, or do not. */
  ghost predicate OfGap(gap: nat, crossing: bool, t: Table, lo: int, hi: int, step: nat) {
    Spans(t, lo, hi, step) && !t.fixed && hi - lo <= gap && (Crosses(lo, hi) <==> crossing)
  }

  function Widest(crossing: bool): nat { if crossing then Pow2(62) + 1 else Pow2(63) }

  lemma NarrowPartsFit(gap: nat, crossing: bool, t: Table, lo: int, hi: int, step: nat)
    requires OfGap(gap, crossing, t, lo, hi, step) && gap <= Widest(crossing)
    ensures PartsFit(t, lo, hi, step)
  {
    forall steps, i: nat ensures PartFits(t, lo, hi, step, steps, i) {
      var r := Run(t, Initial(t, lo, hi, step), steps);
      if r.Some? && i < |r.value.chunks| {
        NumbersStaySmall(t, lo, hi, step, steps, if crossing then 62 else 63, i);
        Powers();
      }
    }
  }

  lemma TooDeepOverflows(w: Width, lo: int, hi: int, stops: seq<int>)
    requires Path(w, lo, hi, stops) && |stops| == 66
    ensures !PartsFit(Ends(w, lo, hi), lo, hi, 1)
  {
    Powers();
    var steps, i := DeepRun(w, lo, hi, stops);
    assert !PartFits(Ends(w, lo, hi), lo, hi, 1, steps, i);
  }

  lemma EndsSpan(w: Width, lo: int, hi: int)
    requires Fits(w, lo) && Fits(w, hi) && lo < hi && !(lo == Low(w) && hi == High(w))
    ensures OfGap(hi - lo, Crosses(lo, hi), Ends(w, lo, hi), lo, hi, 1)
  {
  }

  /** The least gaps that are too wide: from 0 to 2^63 + 1, or across zero from -1 - 2^62 to 1. */
  lemma WideOverflows() returns (t: Table, lo: int, hi: int)
    ensures hi - lo == Pow2(63) + 1 && OfGap(hi - lo, false, t, lo, hi, 1) && !PartsFit(t, lo, hi, 1)
  {
    Powers();
    PathFromZero(Unsigned, 63);
    lo, hi := 0, Pow2(63) + 1;
    t := Ends(Unsigned, lo, hi);
    TooDeepOverflows(Unsigned, lo, hi, StopsFromZero(63));
    EndsSpan(Unsigned, lo, hi);
  }

  lemma WideOverflowsAcrossZero() returns (t: Table, lo: int, hi: int)
    ensures hi - lo == Pow2(62) + 2 && OfGap(hi - lo, true, t, lo, hi, 1) && !PartsFit(t, lo, hi, 1)
  {
    Powers();
    PathAcrossZero(62);
    lo, hi := -1 - Pow2(62), 1;
    t := Ends(Signed, lo, hi);
    TooDeepOverflows(Signed, lo, hi, StopsAcrossZero(62));
    EndsSpan(Signed, lo, hi);
  }

  /** The numbers of all runs over all ranges of at most this gap fit 64 bits. */
  ghost predicate GapFits(gap: nat, crossing: bool) {
    forall t, lo, hi, step: nat :: OfGap(gap, crossing, t, lo, hi, step) ==> PartsFit(t, lo, hi, step)
  }

  lemma WiderGap(gap: nat, more: nat, crossing: bool, t: Table, lo: int, hi: int, step: nat)
    requires OfGap(gap, crossing, t, lo, hi, step) && gap <= more && !PartsFit(t, lo, hi, step)
    ensures !GapFits(more, crossing)
  {
    assert OfGap(more, crossing, t, lo, hi, step);
  }

  lemma NarrowGapFits(gap: nat, crossing: bool)
    requires gap <= Widest(crossing)
    ensures GapFits(gap, crossing)
  {
    forall t, lo, hi, step: nat | OfGap(gap, crossing, t, lo, hi, step) ensures PartsFit(t, lo, hi, step) {
      NarrowPartsFit(gap, crossing, t, lo, hi, step);
    }
  }

  lemma WideGapFails(gap: nat)
    requires Pow2(63) < gap
    ensures !GapFits(gap, false)
  {
    var t, lo, hi := WideOverflows();
    WiderGap(hi - lo, gap, false, t, lo, hi, 1);
  }

  lemma WideGapFailsAcrossZero(gap: nat)
    requires Pow2(62) + 1 < gap
    ensures !GapFits(gap, true)
  {
    var t, lo, hi := WideOverflowsAcrossZero();
    WiderGap(hi - lo, gap, true, t, lo, hi, 1);
  }

  /** Numbers fit 64 bits over every range up to a gap if and only if the gap is at most 2^63, or for
      ranges that cross zero at most 2^62 + 1. */
  lemma PartsFitIff(gap: nat, crossing: bool)
    ensures GapFits(gap, crossing) <==> gap <= if crossing then Pow2(62) + 1 else Pow2(63)
  {
    if gap <= Widest(crossing) {
      NarrowGapFits(gap, crossing);
    } else if crossing {
      WideGapFailsAcrossZero(gap);
    } else {
      WideGapFails(gap);
    }
  }
}

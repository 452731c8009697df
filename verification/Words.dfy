/** Machine words: the 64-bit arithmetic the integer chunks are computed with. */
module Words {

  const TWO63: int := 0x8000_0000_0000_0000
  const TWO64: int := 0x1_0000_0000_0000_0000

  /** The column is either `guint64` or `gint64`. */
  datatype Width = Unsigned | Signed

  function Low(w: Width): int {
    if w == Unsigned then 0 else -TWO63
  }

  function High(w: Width): int {
    if w == Unsigned then TWO64 - 1 else TWO63 - 1
  }

  predicate Fits(w: Width, x: int) {
    Low(w) <= x <= High(w)
  }

  /** Two's complement wrap-around. */
  function Wrap(w: Width, x: int): (r: int)
    ensures Fits(w, r)
    ensures Fits(w, x) ==> r == x
    ensures High(w) < x <= High(w) + TWO64 ==> r == x - TWO64
    ensures Low(w) - TWO64 <= x < Low(w) ==> r == x + TWO64
  {
    if Fits(w, x) then x else (x - Low(w)) % TWO64 + Low(w)
  }

  /** `a - b` as a `guint64`: the plain difference of unsigned operands, and
      `gint64_abs(a - b)` of signed ones. */
  function Distance(w: Width, a: int, b: int): (d: nat)
    ensures d < TWO64
    ensures Fits(w, a) && Fits(w, b) && b <= a ==> d <= a - b
    ensures Fits(w, a) && Fits(w, b) && b < a ==> 1 <= d
  {
    var d := Wrap(w, a - b);
    if d >= 0 then d else -d
  }

  /** C division by two, truncating toward zero. */
  function Half(x: int): int {
    if x >= 0 then x / 2 else -((-x) / 2)
  }

  function Pow2(n: nat): (r: nat)
    ensures 1 <= r
  {
    if n == 0 then 1 else 2 * Pow2(n - 1)
  }

  lemma {:induction false} Pow2Monotone(a: nat, b: nat)
    requires a <= b
    ensures Pow2(a) <= Pow2(b)
  {
    if a < b {
      Pow2Monotone(a, b - 1);
    }
  }

  /** How often a gap can be halved, rounding up: one more than its logarithm, rounded up. */
  function HalvesUp(gap: nat): nat {
    if gap < 2 then gap else 1 + HalvesUp((gap + 1) / 2)
  }

  lemma {:induction false} HalvesUpMonotone(a: nat, b: nat)
    requires a <= b
    ensures HalvesUp(a) <= HalvesUp(b)
    decreases b
  {
    if 2 <= a {
      HalvesUpMonotone((a + 1) / 2, (b + 1) / 2);
    } else if 2 <= b {
      HalvesUpMonotone(0, (b + 1) / 2);
    }
  }

  /** One key more asks for one halving more at most. */
  lemma HalvesUpNext(gap: nat)
    requires 0 < gap
    ensures HalvesUp(gap - 1) <= HalvesUp(gap) <= 1 + HalvesUp(gap - 1)
  {
    HalvesUpMonotone(gap - 1, gap);
    if 3 <= gap { HalvesUpMonotone((gap + 1) / 2, gap - 1); }
  }

  /** A gap of at most 2^k is halved at most k + 1 times. */
  lemma {:induction false} HalvesUpBound(gap: nat, k: nat)
    requires gap <= Pow2(k)
    ensures HalvesUp(gap) <= k + 1
    decreases k
  {
    if 2 <= gap { HalvesUpBound((gap + 1) / 2, k - 1); }
  }

  /** A multiple of the step divides without remainder. */
  lemma MultipleDivides(n: int, step: nat)
    requires 0 < step
    ensures (n * step) / step == n && (n * step) % step == 0
  {
    var q, r, s: int := (n * step) / step, (n * step) % step, step;
    assert q * s + r == n * s;
    assert (n - q) * s == r;
    assert n - q >= 1 ==> (n - q) * s >= s;
    assert n - q <= -1 ==> (n - q) * s <= -s;
  }

  lemma NextBoundary(x: int, step: nat)
    requires 0 < step && x % step == 0
    ensures (x + step) % step == 0
  {
    var n := x / step;
    assert x + step == (n + 1) * step;
    MultipleDivides(n + 1, step);
  }

  /** The quotient of a key inside a block. */
  lemma QuotientInBlock(n: int, r: nat, step: nat)
    requires r < step
    ensures (n * step + r) / step == n
  {
    var q, m, s: int := (n * step + r) / step, (n * step + r) % step, step;
    assert q * s + m == n * s + r;
    assert (n - q) * s == m - r;
    assert n - q >= 1 ==> (n - q) * s >= s;
    assert n - q <= -1 ==> (n - q) * s <= -s;
  }

  lemma QuotientMonotone(a: nat, b: nat, step: nat)
    requires 0 < step && a <= b
    ensures 0 <= a / step <= b / step
  {
    var p, q := a / step, b / step;
    assert q < p ==> (q + 1) * step <= p * step;
  }

  lemma TimesMonotone(a: int, b: int, step: nat)
    requires a <= b
    ensures a * step <= b * step
  {
  }

  lemma DivisionLaw(x: nat, step: nat)
    requires 0 < step
    ensures x / step * step <= x < (x / step + 1) * step
  {
  }

  /** A block boundary between the block of `base` and the last block. */
  lemma MiddleBoundary(base: nat, max: nat, step: nat, m: nat)
    requires 0 < step
    requires base / step < m <= max / step
    ensures base < m * step <= max
  {
    DivisionLaw(base, step);
    DivisionLaw(max, step);
    TimesMonotone(base / step + 1, m, step);
    TimesMonotone(m, max / step, step);
  }
}

/** Chunks over a string key with max_items_per_string_chunk > 0: a chunk spans a range of first
    letters; its worker keeps the first few letters and queues the rest as a new chunk. */
module StringChunks {
  import opened Optional
  import Words

  type Key = string

  // ----- how the server compares: byte by byte

  predicate Less(a: string, b: string) {
    if b == "" then false
    else if a == "" then true
    else a[0] < b[0] || (a[0] == b[0] && Less(a[1..], b[1..]))
  }

  predicate AtMost(a: string, b: string) { a == b || Less(a, b) }

  /** LEFT(k, 1) */
  function Left(k: Key): string { if k == "" then "" else k[..1] }

  /** k LIKE '<p>%' for p of at most one character. */
  predicate Like(k: Key, p: string) {
    if p == "" || p == "%" then true
    else if p == "_" then k != ""
    else k != "" && k[0] == p[0]
  }

  /** Characters LIKE does not take literally. */
  predicate Wild(p: string) { p == "%" || p == "_" }

  /** update_string_where_on_gstring */
  predicate Selects(lo: string, hi: string, k: Key) {
    if lo == hi then Like(k, lo) else (AtMost(lo, k) && AtMost(k, hi)) || Like(k, hi)
  }

  // ----- a table: its keys in order

  ghost predicate Sorted(keys: seq<Key>) {
    forall a, b :: 0 <= a < b < |keys| ==> Less(keys[a], keys[b])
  }

  /** The condition of the query in set_next_cur. */
  predicate After(k: Key, cur: string, max: string) {
    Less(cur, k) && !Like(k, cur) && Less(k, max)
  }

  /** The first letter of the least key after `cur` that is not like it and below `max`. */
  function Next(keys: seq<Key>, cur: string, max: string): Option<string> {
    if keys == [] then None
    else if After(keys[0], cur, max) then Some(Left(keys[0]))
    else Next(keys[1..], cur, max)
  }

  // ----- a chunk and what its worker does with it

  datatype Chunk = Chunk(min: string, max: string, part: nat, deep: nat, includeNull: bool)

  /** `count` calls of set_next_cur, while there is a next letter: the last two values of str_cur. */
  function Walk(keys: seq<Key>, max: string, prev: Option<string>, cur: Option<string>, count: nat): (Option<string>, Option<string>)
    decreases count
  {
    if count == 0 || cur.None? then (prev, cur)
    else Walk(keys, max, cur, Next(keys, cur.value, max), count - 1)
  }

  /** What one chunk comes to: the range its query selects, with or without the rows that have no key,
      and the chunk split from it. */
  datatype Outcome = Outcome(lo: string, hi: string, nulls: bool, child: Option<Chunk>)

  function Process(keys: seq<Key>, items: nat, c: Chunk): Outcome
    requires 0 < items
  {
    if c.min == c.max then Outcome(c.min, c.max, c.includeNull, None)
    else
      var (prev, cur) := Walk(keys, c.max, None, Some(c.min), items);
      if cur.None? || prev.None? then Outcome(c.min, c.max, c.includeNull, None)
      else Outcome(c.min, prev.value, c.includeNull, Some(Chunk(cur.value, c.max, c.part + Words.Pow2(c.deep), c.deep + 1, false)))
  }

  // ----- first letters as numbers

  /** The place of a first letter; the empty string comes first. */
  function Rank(p: string): int { if p == "" then -1 else p[0] as int }

  predicate Letter(p: string) { |p| <= 1 }

  lemma LessRank(p: string, k: Key)
    requires Letter(p)
    ensures Less(k, p) <==> Rank(k) < Rank(p)
    ensures AtMost(p, k) <==> Rank(p) <= Rank(k)
    ensures Less(p, k) ==> Rank(p) <= Rank(k)
    ensures Rank(p) < Rank(k) ==> Less(p, k)
  {
    if p != "" && k != "" {
      assert p[1..] == "";
      assert Less(p, k) <==> p[0] < k[0] || (p[0] == k[0] && Less("", k[1..]));
      assert k[0] == p[0] ==> k == p || k[1..] != "";
    }
  }

  lemma LessRanks(a: string, b: string)
    requires Less(a, b)
    ensures Rank(a) <= Rank(b)
  {
  }

  lemma RankLetter(p: string, q: string)
    requires Letter(p) && Letter(q)
    ensures p == q <==> Rank(p) == Rank(q)
  {
    if p != "" && q != "" && p[0] == q[0] { assert p == [p[0]] && q == [q[0]]; }
  }

  /** What the query of a chunk selects, in first letters. */
  lemma SelectsRank(lo: string, hi: string, k: Key)
    requires Letter(lo) && Letter(hi) && Rank(lo) <= Rank(hi) && hi != "" && !Wild(hi)
    ensures Selects(lo, hi, k) <==> Rank(lo) <= Rank(k) <= Rank(hi)
  {
    LessRank(lo, k);
    LessRank(hi, k);
    RankLetter(lo, hi);
  }

  predicate Tame(p: string) { p != "" && !Wild(p) }

  lemma AfterRank(k: Key, cur: string, max: string)
    requires Letter(cur) && Letter(max)
    ensures After(k, cur, max) <==> Tame(cur) && Rank(cur) < Rank(k) < Rank(max)
  {
    LessRank(cur, k);
    LessRank(max, k);
  }

  /** set_next_cur finds the least first letter strictly between, unless LIKE takes str_cur for a
      wildcard: then it finds none. */
  lemma {:induction false} NextIsLeast(keys: seq<Key>, cur: string, max: string)
    requires Sorted(keys) && Letter(cur) && Letter(max)
    ensures var n := Next(keys, cur, max);
            && (n.Some? ==> Letter(n.value) && Tame(cur) && Rank(cur) < Rank(n.value) < Rank(max))
            && (n.Some? ==> forall k :: k in keys && Rank(cur) < Rank(k) ==> Rank(n.value) <= Rank(k))
            && (n.None? && Tame(cur) ==> forall k :: k in keys && Rank(cur) < Rank(k) ==> Rank(max) <= Rank(k))
  {
    if keys != [] {
      AfterRank(keys[0], cur, max);
      NextIsLeast(keys[1..], cur, max);
      assert forall k :: k in keys <==> k == keys[0] || k in keys[1..];
      forall k | k in keys[1..] ensures Rank(keys[0]) <= Rank(k) {
        var i :| 0 <= i < |keys[1..]| && keys[1..][i] == k;
        assert keys[i + 1] == k;
        LessRanks(keys[0], k);
      }
    }
  }

  /** The letters the walk ends with are neighbours: no key has its first letter between them. */
  lemma {:induction false} WalkNeighbours(keys: seq<Key>, max: string, prev: Option<string>, cur: Option<string>, count: nat)
    requires Sorted(keys) && Letter(max) && cur.Some? && Letter(cur.value) && 0 < count
    ensures var (p, q) := Walk(keys, max, prev, cur, count);
            q.Some? ==>
              && Tame(cur.value) && p.Some? && Letter(p.value) && Letter(q.value) && Tame(p.value)
              && Rank(cur.value) <= Rank(p.value) < Rank(q.value) < Rank(max)
              && forall k :: k in keys && Rank(p.value) < Rank(k) ==> Rank(q.value) <= Rank(k)
    decreases count
  {
    NextIsLeast(keys, cur.value, max);
    var n := Next(keys, cur.value, max);
    if n.Some? && count > 1 { WalkNeighbours(keys, max, cur, n, count - 1); }
  }

  ghost predicate ChunkOk(c: Chunk) {
    Letter(c.min) && Letter(c.max) && Rank(c.min) <= Rank(c.max)
  }

  lemma ProcessOk(keys: seq<Key>, items: nat, c: Chunk)
    requires Sorted(keys) && ChunkOk(c) && 0 < items
    ensures var o := Process(keys, items, c);
            if o.child.None? then o.lo == c.min && o.hi == c.max
            else
              && ChunkOk(o.child.value) && o.lo == c.min && o.child.value.max == c.max && Letter(o.hi) && Tame(o.hi)
              && Tame(c.min) && Rank(c.min) <= Rank(o.hi) < Rank(o.child.value.min) < Rank(c.max)
              && forall k :: k in keys && Rank(o.hi) < Rank(k) ==> Rank(o.child.value.min) <= Rank(k)
  {
    if c.min != c.max {
      var start: Option<string> := Some(c.min);
      WalkNeighbours(keys, c.max, None, start, items);
      var w := Walk(keys, c.max, None, start, items);
      assert Process(keys, items, c) ==
        if w.1.None? || w.0.None? then Outcome(c.min, c.max, c.includeNull, None)
        else Outcome(c.min, w.0.value, c.includeNull, Some(Chunk(w.1.value, c.max, c.part + Words.Pow2(c.deep), c.deep + 1, false)));
    }
  }

  /** A split is exact: what the chunk selected is selected by one of its two parts, not both. */
  lemma SplitIsExact(keys: seq<Key>, items: nat, c: Chunk, k: Key)
    requires Sorted(keys) && ChunkOk(c) && 0 < items && !Wild(c.max) && k in keys
    requires Process(keys, items, c).child.Some?
    ensures var o := Process(keys, items, c); var d := o.child.value;
            && (Selects(c.min, c.max, k) <==> Selects(o.lo, o.hi, k) || Selects(d.min, d.max, k))
            && !(Selects(o.lo, o.hi, k) && Selects(d.min, d.max, k))
  {
    ProcessOk(keys, items, c);
    var o := Process(keys, items, c);
    SelectsRank(c.min, c.max, k);
    SelectsRank(o.lo, o.hi, k);
    SelectsRank(o.child.value.min, c.max, k);
  }

  // ----- all the chunks of a table

  /** The chunks that come of a chunk, in the order of their parts: each is queued by the worker of
      the one before, and its worker may be any. */
  function Chain(keys: seq<Key>, items: nat, c: Chunk): seq<Outcome>
    requires Sorted(keys) && ChunkOk(c) && 0 < items
    decreases Rank(c.max) - Rank(c.min)
  {
    var o := Process(keys, items, c);
    ProcessOk(keys, items, c);
    if o.child.None? then [o] else [o] + Chain(keys, items, o.child.value)
  }

  /** How many of the queries select a key. */
  function Times(chain: seq<Outcome>, k: Key): nat {
    if chain == [] then 0 else (if Selects(chain[0].lo, chain[0].hi, k) then 1 else 0) + Times(chain[1..], k)
  }

  lemma {:induction false} ChainOnce(keys: seq<Key>, items: nat, c: Chunk, k: Key)
    requires Sorted(keys) && ChunkOk(c) && 0 < items && c.max != "" && !Wild(c.max) && k in keys
    ensures Times(Chain(keys, items, c), k) == if Selects(c.min, c.max, k) then 1 else 0
    decreases Rank(c.max) - Rank(c.min)
  {
    ProcessOk(keys, items, c);
    var o := Process(keys, items, c);
    if o.child.Some? {
      SplitIsExact(keys, items, c, k);
      ChainOnce(keys, items, o.child.value, k);
      assert Chain(keys, items, c)[1..] == Chain(keys, items, o.child.value);
    }
  }

  /** With a wildcard for str_max the last query takes every key there is. */
  lemma {:induction false} ChainWild(keys: seq<Key>, items: nat, c: Chunk, k: Key)
    requires Sorted(keys) && ChunkOk(c) && 0 < items && Wild(c.max) && k != ""
    ensures Times(Chain(keys, items, c), k) >= 1
    decreases Rank(c.max) - Rank(c.min)
  {
    ProcessOk(keys, items, c);
    var o := Process(keys, items, c);
    if o.child.Some? {
      ChainWild(keys, items, o.child.value, k);
      assert Chain(keys, items, c)[1..] == Chain(keys, items, o.child.value);
    }
  }

  /** The chunk a table starts with: LEFT(MIN, 1) and LEFT(MAX, 1) of its keys. */
  function Root(keys: seq<Key>): Chunk
    requires keys != []
  {
    Chunk(Left(keys[0]), Left(keys[|keys| - 1]), 0, 0, true)
  }

  lemma RootOk(keys: seq<Key>)
    requires Sorted(keys) && keys != []
    ensures ChunkOk(Root(keys))
    ensures forall k :: k in keys ==> Rank(Root(keys).min) <= Rank(k) <= Rank(Root(keys).max)
  {
    var n := |keys| - 1;
    forall k | k in keys ensures Rank(keys[0]) <= Rank(k) <= Rank(keys[n]) {
      var i :| 0 <= i < |keys| && keys[i] == k;
      if 0 < i { LessRanks(keys[0], k); }
      if i < n { LessRanks(k, keys[n]); }
    }
    assert keys[0] in keys;
  }

  // ----- when a table is split

  /** The first letters of the keys, each once, in their order. */
  function Letters(keys: seq<Key>): seq<string> {
    if keys == [] then []
    else
      var rest := Letters(keys[1..]);
      if rest != [] && rest[0] == Left(keys[0]) then rest else [Left(keys[0])] + rest
  }

  /** There are letters for more than one chunk, and set_next_cur is not stopped on its way to the
      first letter of the second. */
  predicate EnoughLetters(letters: seq<string>, items: nat) {
    items + 1 < |letters| && forall i :: 0 <= i < items ==> Tame(letters[i])
  }

  lemma {:induction false} LettersInOrder(keys: seq<Key>)
    requires Sorted(keys) && keys != []
    ensures var ls := Letters(keys);
            && ls != [] && ls[0] == Left(keys[0]) && ls[|ls| - 1] == Left(keys[|keys| - 1])
            && (forall i :: 0 <= i < |ls| ==> Letter(ls[i]))
            && (forall i, j :: 0 <= i < j < |ls| ==> Rank(ls[i]) < Rank(ls[j]))
  {
    if |keys| > 1 {
      var rest := Letters(keys[1..]);
      LettersInOrder(keys[1..]);
      assert keys[1..][0] == keys[1];
      LessRanks(keys[0], keys[1]);
      RankLetter(Left(keys[0]), rest[0]);
    }
  }

  /** Every key has its letter among them. */
  lemma {:induction false} LetterOf(keys: seq<Key>, k: Key) returns (i: nat)
    requires k in keys
    ensures i < |Letters(keys)| && Letters(keys)[i] == Left(k)
  {
    var rest, ls := Letters(keys[1..]), Letters(keys);
    if k == keys[0] {
      i := 0;
    } else {
      i := LetterOf(keys[1..], k);
      if ls != rest { i := i + 1; }
    }
  }

  /** And every letter is a key's. */
  lemma {:induction false} KeyOf(keys: seq<Key>, i: nat) returns (k: Key)
    requires i < |Letters(keys)|
    ensures k in keys && Letters(keys)[i] == Left(k)
  {
    var rest, ls := Letters(keys[1..]), Letters(keys);
    if i == 0 && ls != rest {
      k := keys[0];
    } else {
      k := KeyOf(keys[1..], if ls == rest then i else i - 1);
    }
  }

  lemma {:induction false} KeyOfNext(keys: seq<Key>, cur: string, max: string) returns (k: Key)
    requires Next(keys, cur, max).Some?
    ensures k in keys && Left(k) == Next(keys, cur, max).value
  {
    if After(keys[0], cur, max) { k := keys[0]; } else { k := KeyOfNext(keys[1..], cur, max); }
  }

  lemma NextLetterStops(keys: seq<Key>, j: nat)
    requires Sorted(keys) && j < |Letters(keys)| && !(Tame(Letters(keys)[j]) && j + 2 < |Letters(keys)|)
    ensures Next(keys, Letters(keys)[j], Letters(keys)[|Letters(keys)| - 1]) == None
  {
    var ls := Letters(keys);
    var max := ls[|ls| - 1];
    LettersInOrder(keys);
    NextIsLeast(keys, ls[j], max);
    if Next(keys, ls[j], max).Some? {
      var k := KeyOfNext(keys, ls[j], max);
      var i := LetterOf(keys, k);
    }
  }

  lemma NextLetterFound(keys: seq<Key>, j: nat)
    requires Sorted(keys) && j + 2 < |Letters(keys)| && Tame(Letters(keys)[j])
    ensures Next(keys, Letters(keys)[j], Letters(keys)[|Letters(keys)| - 1]) == Some(Letters(keys)[j + 1])
  {
    var ls := Letters(keys);
    var max := ls[|ls| - 1];
    LettersInOrder(keys);
    NextIsLeast(keys, ls[j], max);
    var k1 := KeyOf(keys, j + 1);
    assert Rank(k1) == Rank(ls[j + 1]);
    var k := KeyOfNext(keys, ls[j], max);
    var i := LetterOf(keys, k);
    assert Rank(ls[j]) < Rank(ls[i]) <= Rank(ls[j + 1]);
  }

  /** set_next_cur goes from letter to letter, as far as the one before the last, while LIKE takes
      them literally. */
  lemma NextLetter(keys: seq<Key>, j: nat)
    requires Sorted(keys) && j < |Letters(keys)|
    ensures var ls := Letters(keys);
            Next(keys, ls[j], ls[|ls| - 1]) == if Tame(ls[j]) && j + 2 < |ls| then Some(ls[j + 1]) else None
  {
    if Tame(Letters(keys)[j]) && j + 2 < |Letters(keys)| { NextLetterFound(keys, j); } else { NextLetterStops(keys, j); }
  }

  lemma {:induction false} WalkLetters(keys: seq<Key>, j: nat, prev: Option<string>, count: nat)
    requires Sorted(keys) && j < |Letters(keys)|
    ensures var ls := Letters(keys);
            var w := Walk(keys, ls[|ls| - 1], prev, Some(ls[j]), count);
            && (w.1.Some? <==> count == 0 || (j + count + 1 < |ls| && forall i :: j <= i < j + count ==> Tame(ls[i])))
            && (w.1.Some? && count > 0 ==> w == (Some(ls[j + count - 1]), Some(ls[j + count])))
    decreases count
  {
    var ls := Letters(keys);
    NextLetter(keys, j);
    if count > 0 {
      if Tame(ls[j]) && j + 2 < |ls| {
        WalkLetters(keys, j + 1, Some(ls[j]), count - 1);
      } else {
        assert Walk(keys, ls[|ls| - 1], prev, Some(ls[j]), count) == Walk(keys, ls[|ls| - 1], Some(ls[j]), None, count - 1);
      }
    }
  }

  /** The first chunk leaves another exactly when there are letters enough. */
  lemma SplitIffEnoughLetters(keys: seq<Key>, items: nat)
    requires Sorted(keys) && keys != [] && 0 < items
    ensures Process(keys, items, Root(keys)).child.Some? <==> EnoughLetters(Letters(keys), items)
  {
    RootOk(keys);
    LettersInOrder(keys);
    WalkLetters(keys, 0, None, items);
    var c, ls := Root(keys), Letters(keys);
    if c.min != c.max {
      var start: Option<string> := Some(c.min);
      WalkNeighbours(keys, c.max, None, start, items);
    }
  }

  /** Then it keeps as many first letters as it may, and the next letter starts the other. */
  lemma FirstChunkLetters(keys: seq<Key>, items: nat)
    requires Sorted(keys) && keys != [] && 0 < items
    ensures var o, ls := Process(keys, items, Root(keys)), Letters(keys);
            o == if EnoughLetters(ls, items)
                 then Outcome(ls[0], ls[items - 1], true, Some(Chunk(ls[items], ls[|ls| - 1], 1, 1, false)))
                 else Outcome(ls[0], ls[|ls| - 1], true, None)
  {
    LettersInOrder(keys);
    WalkLetters(keys, 0, None, items);
    SplitIffEnoughLetters(keys, items);
    assert Words.Pow2(0) == 1;
  }

  predicate Once(keys: seq<Key>, items: nat, k: Key)
    requires Sorted(keys) && keys != [] && 0 < items && ChunkOk(Root(keys))
  {
    Times(Chain(keys, items, Root(keys)), k) == 1
  }

  /** Every key is dumped exactly once, unless the greatest key starts with a character that LIKE does
      not take literally and there are letters enough for a second chunk. */
  lemma EachKeyOnceIff(keys: seq<Key>, items: nat)
    requires Sorted(keys) && keys != [] && 0 < items
    ensures ChunkOk(Root(keys))
    ensures (forall k :: k in keys ==> Once(keys, items, k))
       <==> !(Wild(Left(keys[|keys| - 1])) && EnoughLetters(Letters(keys), items))
  {
    RootOk(keys);
    SplitIffEnoughLetters(keys, items);
    if Wild(Root(keys).max) && Process(keys, items, Root(keys)).child.Some? {
      FirstKeyTwice(keys, items);
      assert keys[0] in keys && !Once(keys, items, keys[0]);
    } else {
      forall k | k in keys ensures Once(keys, items, k) {
        RootSelects(keys, k);
        if Root(keys).max != "" && !Wild(Root(keys).max) {
          ChainOnce(keys, items, Root(keys), k);
        }
      }
    }
  }

  lemma FirstKeyTwice(keys: seq<Key>, items: nat)
    requires Sorted(keys) && keys != [] && 0 < items && ChunkOk(Root(keys))
    requires Wild(Root(keys).max) && Process(keys, items, Root(keys)).child.Some?
    ensures Times(Chain(keys, items, Root(keys)), keys[0]) >= 2
  {
    var c := Root(keys);
    var o := Process(keys, items, c);
    ProcessOk(keys, items, c);
    SelectsRank(o.lo, o.hi, keys[0]);
    ChainWild(keys, items, o.child.value, keys[0]);
    assert Chain(keys, items, c)[1..] == Chain(keys, items, o.child.value);
  }

  lemma RootSelects(keys: seq<Key>, k: Key)
    requires Sorted(keys) && k in keys
    ensures Selects(Root(keys).min, Root(keys).max, k)
  {
    RootOk(keys);
    var c := Root(keys);
    if Tame(c.max) { SelectsRank(c.min, c.max, k); }
    LessRank(c.min, k);
    LessRank(c.max, k);
  }

  const EXAMPLE: seq<Key> := ["A", "B", "_"]
  const SECOND := Chunk("B", "_", 1, 1, false)

  lemma ExampleNext()
    ensures Next(EXAMPLE, "A", "_") == Some("B")
    ensures Next(EXAMPLE, "B", "_") == None
  {
    assert EXAMPLE[1..] == ["B", "_"] && ["B", "_"][1..] == ["_"] && ["_"][1..] == [];
    assert !Less("A", "A") && Less("A", "B") && Less("B", "_");
    assert After("B", "A", "_") && Left("B") == "B";
    assert Next(["B", "_"], "A", "_") == Some("B");
    assert !After("A", "B", "_") && !After("B", "B", "_") && !After("_", "B", "_");
    assert Next([], "B", "_") == None;
    assert Next(["_"], "B", "_") == None;
    assert Next(["B", "_"], "B", "_") == None;
  }

  lemma ExampleProcess()
    ensures Sorted(EXAMPLE) && Root(EXAMPLE) == Chunk("A", "_", 0, 0, true)
    ensures Process(EXAMPLE, 1, Root(EXAMPLE)) == Outcome("A", "A", true, Some(SECOND))
    ensures Process(EXAMPLE, 1, SECOND) == Outcome("B", "_", false, None)
  {
    ExampleNext();
    assert Words.Pow2(0) == 1;
    assert Root(EXAMPLE) == Chunk("A", "_", 0, 0, true);
  }

  /** A table for which it fails: with one letter to a chunk, "A" is dumped twice. */
  lemma WildcardDumpsTwice()
    ensures Sorted(EXAMPLE) && ChunkOk(Root(EXAMPLE)) && Times(Chain(EXAMPLE, 1, Root(EXAMPLE)), "A") == 2
  {
    ExampleProcess();
    assert Chain(EXAMPLE, 1, SECOND) == [Outcome("B", "_", false, None)];
    var chain := Chain(EXAMPLE, 1, Root(EXAMPLE));
    assert chain[0].lo == chain[0].hi == "A" && chain[1..] == Chain(EXAMPLE, 1, SECOND);
    assert Selects("A", "A", "A") && Selects("B", "_", "A");
    assert Times(Chain(EXAMPLE, 1, SECOND), "A") == 1;
  }

  // ----- parts

  /** The parts of the chunks, in the order they are made, grow: no two are equal. */
  lemma {:induction false} PartsDiffer(keys: seq<Key>, items: nat, c: Chunk, i: nat, j: nat)
    requires Sorted(keys) && ChunkOk(c) && 0 < items
    requires i < j < |Parts(keys, items, c)|
    ensures c.part <= Parts(keys, items, c)[i] < Parts(keys, items, c)[j]
    decreases Rank(c.max) - Rank(c.min)
  {
    ProcessOk(keys, items, c);
    var o := Process(keys, items, c);
    if o.child.Some? {
      var d := o.child.value;
      assert Parts(keys, items, c)[1..] == Parts(keys, items, d);
      FirstPart(keys, items, d);
      if i > 0 { PartsDiffer(keys, items, d, i - 1, j - 1); }
      else if j > 1 { PartsDiffer(keys, items, d, 0, j - 1); }
    }
  }

  lemma FirstPart(keys: seq<Key>, items: nat, c: Chunk)
    requires Sorted(keys) && ChunkOk(c) && 0 < items
    ensures Parts(keys, items, c) != [] && Parts(keys, items, c)[0] == c.part
  {
    ProcessOk(keys, items, c);
  }

  function Parts(keys: seq<Key>, items: nat, c: Chunk): seq<nat>
    requires Sorted(keys) && ChunkOk(c) && 0 < items
    decreases Rank(c.max) - Rank(c.min)
  {
    var o := Process(keys, items, c);
    ProcessOk(keys, items, c);
    [c.part] + if o.child.None? then [] else Parts(keys, items, o.child.value)
  }

  function NullTimes(chain: seq<Outcome>): nat {
    if chain == [] then 0 else (if chain[0].nulls then 1 else 0) + NullTimes(chain[1..])
  }

  /** Rows without a key are selected once, by the first chunk. */
  lemma {:induction false} NullsOnce(keys: seq<Key>, items: nat, c: Chunk)
    requires Sorted(keys) && ChunkOk(c) && 0 < items
    ensures NullTimes(Chain(keys, items, c)) == if c.includeNull then 1 else 0
    decreases Rank(c.max) - Rank(c.min)
  {
    ProcessOk(keys, items, c);
    var o := Process(keys, items, c);
    if o.child.Some? {
      NullsOnce(keys, items, o.child.value);
      assert Chain(keys, items, c)[1..] == Chain(keys, items, o.child.value);
    }
  }

  // ----- the chunk item

  class StringStep {
    var strMin: string
    var strMax: string
    var strPrevCur: Option<string>
    var strCur: Option<string>
    var part: nat
    var deep: nat
    var includeNull: bool

    constructor (c: Chunk)
      ensures Value() == c
    {
      strMin, strMax, part, deep, includeNull := c.min, c.max, c.part, c.deep, c.includeNull;
      strPrevCur, strCur := None, None;
    }

    function Value(): Chunk
      reads this
    {
      Chunk(strMin, strMax, part, deep, includeNull)
    }

    /** set_next_cur */
    method SetNextCur(keys: seq<Key>)
      requires strCur.Some?
      modifies this`strPrevCur, this`strCur
      ensures strPrevCur == old(strCur) && strCur == Next(keys, old(strCur).value, strMax)
    {
      var i := 0;
      while i < |keys| && !After(keys[i], strCur.value, strMax)
        invariant 0 <= i <= |keys|
        invariant Next(keys, strCur.value, strMax) == Next(keys[i..], strCur.value, strMax)
      {
        i := i + 1;
      }
      strPrevCur, strCur := strCur, if i < |keys| then Some(Left(keys[i])) else None;
    }

    /** split_string_chunk_step */
    method Split() returns (child: StringStep)
      requires strCur.Some? && strPrevCur.Some?
      modifies this
      ensures fresh(child)
      ensures child.Value() == Chunk(old(strCur).value, old(strMax), old(part) + Words.Pow2(old(deep)), old(deep) + 1, false)
      ensures Value() == old(Value()).(max := old(strPrevCur).value, deep := old(deep) + 1)
      ensures strCur == Some(strMax) && child.strCur == Some(child.strMax)
    {
      child := new StringStep(Chunk(strCur.value, strMax, part + Words.Pow2(deep), deep + 1, false));
      strMax := strPrevCur.value;
      strCur := Some(strMax);
      child.strCur := Some(child.strMax);
      deep := deep + 1;
    }

    /** process_string_chunk_step with max_items_per_string_chunk > 0, up to the query, which selects
        from strMin to strCur. */
    method ProcessStep(keys: seq<Key>, items: nat) returns (child: StringStep?)
      requires 0 < items
      modifies this
      ensures var o := Process(keys, items, old(Value()));
              && strMin == o.lo && strCur == Some(o.hi)
              && (child == null <==> o.child.None?)
              && (child != null ==> fresh(child) && child.Value() == o.child.value && strMax == o.hi)
    {
      child := null;
      strPrevCur, strCur := None, Some(strMin);
      if strMin == strMax { return; }
      var i := 0;
      ghost var all := Walk(keys, strMax, None, Some(strMin), items);
      while i < items && strCur.Some?
        invariant 0 <= i <= items && Value() == old(Value())
        invariant all == Walk(keys, strMax, strPrevCur, strCur, items - i)
        invariant i > 0 ==> strPrevCur.Some?
        invariant i == 0 ==> strCur.Some?
      {
        SetNextCur(keys);
        i := i + 1;
      }
      if strCur.None? {
        strCur := Some(strMax);
      } else {
        child := Split();
      }
    }
  }
}

/** File numbers. A chunk numbered `part` at depth `deep` owns the numbers that agree with
    `part` on their low `deep` bits; cutting it gives each half one value of the next bit. */
module PartNumbers {
  import opened Words

  datatype Label = Label(part: int, deep: nat)

  /** p and q have the same residue modulo 2^n. */
  predicate Agree(p: int, q: int, n: nat)
    decreases n
  {
    n == 0 || (p % 2 == q % 2 && Agree(p / 2, q / 2, n - 1))
  }

  function Min(a: nat, b: nat): nat {
    if a <= b then a else b
  }

  /** The number of the new chunk: `part += pow(2, deep)`. */
  function NextPart(l: Label): int {
    l.part + Pow2(l.deep)
  }

  ghost predicate Apart(l: Label, m: Label) {
    !Agree(l.part, m.part, Min(l.deep, m.deep))
  }

  /** The numbers fit their depth and no two chunks own a number in common. */
  ghost predicate Separate(labels: seq<Label>) {
    && (forall i :: 0 <= i < |labels| ==> 0 <= labels[i].part < Pow2(labels[i].deep))
    && (forall i, j :: 0 <= i < j < |labels| ==> Apart(labels[i], labels[j]))
  }

  lemma {:induction false} AgreeRefl(p: int, n: nat)
    ensures Agree(p, p, n)
    decreases n
  {
    if n > 0 { AgreeRefl(p / 2, n - 1); }
  }

  lemma {:induction false} AgreeSym(p: int, q: int, n: nat)
    requires Agree(p, q, n)
    ensures Agree(q, p, n)
    decreases n
  {
    if n > 0 { AgreeSym(p / 2, q / 2, n - 1); }
  }

  lemma {:induction false} AgreeTrans(p: int, q: int, r: int, n: nat)
    requires Agree(p, q, n) && Agree(q, r, n)
    ensures Agree(p, r, n)
    decreases n
  {
    if n > 0 { AgreeTrans(p / 2, q / 2, r / 2, n - 1); }
  }

  lemma {:induction false} AgreeLess(p: int, q: int, m: nat, n: nat)
    requires m <= n && Agree(p, q, n)
    ensures Agree(p, q, m)
    decreases n
  {
    if m > 0 { AgreeLess(p / 2, q / 2, m - 1, n - 1); }
  }

  /** Adding 2^d keeps the low d bits and flips the next one. */
  lemma {:induction false} FlipBit(p: int, d: nat)
    ensures Agree(p + Pow2(d), p, d) && !Agree(p + Pow2(d), p, d + 1)
    decreases d
  {
    if d > 0 {
      FlipBit(p / 2, d - 1);
      assert (p + Pow2(d)) / 2 == p / 2 + Pow2(d - 1);
    }
  }

  /** A label next to the two a cut makes of one it was apart from. */
  lemma CutKeepsApart(l: Label, m: Label)
    requires Apart(l, m)
    ensures Apart(Label(l.part, l.deep + 1), m)
    ensures Apart(Label(NextPart(l), l.deep + 1), m)
  {
    var before, after := Min(l.deep, m.deep), Min(l.deep + 1, m.deep);
    if Agree(l.part, m.part, after) {
      AgreeLess(l.part, m.part, before, after);
    }
    if Agree(NextPart(l), m.part, after) {
      FlipBit(l.part, l.deep);
      AgreeLess(NextPart(l), l.part, before, l.deep);
      AgreeSym(NextPart(l), l.part, before);
      AgreeLess(NextPart(l), m.part, before, after);
      AgreeTrans(l.part, NextPart(l), m.part, before);
    }
  }

  lemma ApartSym(l: Label, m: Label)
    requires Apart(l, m)
    ensures Apart(m, l)
  {
    if Agree(m.part, l.part, Min(m.deep, l.deep)) {
      AgreeSym(m.part, l.part, Min(m.deep, l.deep));
    }
  }

  /** Cutting any chunk, in whatever order, keeps all numbers apart. */
  lemma CutKeepsSeparate(labels: seq<Label>, i: nat)
    requires Separate(labels) && i < |labels|
    ensures var l := labels[i];
            Separate(labels[i := Label(l.part, l.deep + 1)] + [Label(NextPart(l), l.deep + 1)])
  {
    var l := labels[i];
    var parent, child := Label(l.part, l.deep + 1), Label(NextPart(l), l.deep + 1);
    var next := labels[i := parent] + [child];
    assert Apart(parent, child) by {
      FlipBit(l.part, l.deep);
      if Agree(parent.part, child.part, l.deep + 1) {
        AgreeSym(parent.part, child.part, l.deep + 1);
      }
    }
    forall a, b | 0 <= a < b < |next|
      ensures Apart(next[a], next[b])
    {
      if a == i && b < |labels| {
        CutKeepsApart(l, labels[b]);
      } else if b == i {
        ApartSym(labels[a], l);
        CutKeepsApart(l, labels[a]);
        ApartSym(parent, labels[a]);
      } else if b == |labels| && a != i {
        if a < i { ApartSym(labels[a], l); }
        CutKeepsApart(l, labels[a]);
        ApartSym(child, labels[a]);
      }
    }
  }

  /** Chunks kept apart have different numbers. */
  lemma SeparateAreDistinct(labels: seq<Label>, i: nat, j: nat)
    requires Separate(labels) && i < |labels| && j < |labels| && i != j
    ensures labels[i].part != labels[j].part
  {
    var a, b := if i < j then i else j, if i < j then j else i;
    assert Apart(labels[a], labels[b]);
    AgreeRefl(labels[a].part, Min(labels[a].deep, labels[b].deep));
  }
}

/** Matching a name against a pattern with `%` and `_`, as matchText does it: by moving indices and
    backtracking over the text after a `%`. */
module MatchText {

  /** `%` stands for any text, `_` for any character, `\_` for an underscore; a backslash also stands
      for itself. */
  ghost predicate Matches(a: string, b: string)
    decreases |a|
  {
    if a == "" then b == ""
    else if a[0] == '%' then exists k :: 0 <= k <= |b| && Matches(a[1..], b[k..])
    else b != "" && ((One(a, b) && Matches(a[1..], b[1..])) || (Escaped(a, b) && Matches(a[2..], b[1..])))
  }

  predicate One(a: string, b: string)
    requires a != "" && b != ""
  {
    a[0] == '_' || a[0] == b[0]
  }

  predicate Escaped(a: string, b: string)
    requires a != "" && b != ""
  {
    a[0] == '\\' && |a| > 1 && a[1] == '_' && b[0] == '_'
  }

  /** Two `%` in a row do not stand for more than one. */
  lemma PercentTwice(a: string, b: string)
    requires |a| > 1 && a[0] == '%' && a[1] == '%'
    ensures Matches(a, b) <==> Matches(a[1..], b)
  {
    assert a[1..][0] == '%' && a[1..][1..] == a[2..];
    assert b[0..] == b;
    if Matches(a, b) {
      var k :| 0 <= k <= |b| && Matches(a[1..], b[k..]);
      var j :| 0 <= j <= |b[k..]| && Matches(a[2..], b[k..][j..]);
      assert b[k..][j..] == b[k + j..];
      assert Matches(a[1..][1..], b[k + j..]);
    }
  }

  /** A pattern that ends in `%` matches what is left, whatever it is. */
  lemma PercentLast(b: string)
    ensures Matches("%", b)
  {
    assert Matches("%"[1..], b[|b|..]);
  }

  /** Why the empty rest of the text need not be tried: only `%` would match it. */
  lemma NoEmptyMatch(a: string)
    requires a != "" && a[0] != '%'
    ensures !Matches(a, "")
  {
  }

  lemma FoundLater(p: string, b: string, from: nat, at: nat)
    requires p != "" && p[0] == '%' && from <= at <= |b| && Matches(p[1..], b[at..])
    ensures Matches(p, b[from..])
  {
    assert b[from..][at - from..] == b[at..];
  }

  /** Nowhere in the rest of the text, not even at its end. */
  lemma FoundNowhere(p: string, b: string, from: nat)
    requires |p| > 1 && p[0] == '%' && p[1] != '%' && from <= |b|
    requires forall k :: from <= k < |b| ==> !Matches(p[1..], b[k..])
    ensures !Matches(p, b[from..])
  {
    NoEmptyMatch(p[1..]);
    forall k | 0 <= k <= |b[from..]| ensures !Matches(p[1..], b[from..][k..]) {
      assert b[from..][k..] == b[from + k..];
      if from + k == |b| { assert b[|b|..] == ""; }
    }
  }

  method MatchText(a: string, b: string) returns (r: bool)
    ensures r == Matches(a, b)
    decreases |a|
  {
    var ai, bi := 0, 0;
    assert a[0..] == a && b[0..] == b;
    while ai < |a| && a[ai] != '%' && bi < |b|
      invariant 0 <= ai <= |a| && 0 <= bi <= |b|
      invariant Matches(a, b) <==> Matches(a[ai..], b[bi..])
      decreases |a| - ai
    {
      assert a[ai..][1..] == a[ai + 1..] && b[bi..][1..] == b[bi + 1..];
      if a[ai] == '_' || a[ai] == b[bi] {
        assert One(a[ai..], b[bi..]) && !(Escaped(a[ai..], b[bi..]) && !One(a[ai..], b[bi..]));
        ai := ai + 1;
        bi := bi + 1;
      } else if a[ai] == '\\' && ai + 1 < |a| && a[ai + 1] == '_' && b[bi] == '_' {
        assert a[ai..][2..] == a[ai + 2..];
        ai := ai + 2;
        bi := bi + 1;
      } else {
        return false;
      }
    }
    if ai == |a| {
      return bi == |b|;
    }
    if a[ai] != '%' {
      NoEmptyMatch(a[ai..]);
      return false;
    }
    r := MatchAfter(a, ai, b, bi);
  }

  /** The rest, with the pattern at a `%`. */
  method MatchAfter(a: string, at: nat, b: string, from: nat) returns (r: bool)
    requires at < |a| && a[at] == '%' && from <= |b|
    ensures r == Matches(a[at..], b[from..])
    decreases |a|, 0
  {
    var ai, bi := at, from;
    assert a[at..][1..] == a[at + 1..];
    while ai + 1 < |a| && a[ai + 1] == '%'
      invariant at <= ai < |a| && a[ai] == '%'
      invariant Matches(a[at..], b[from..]) <==> Matches(a[ai..], b[from..])
    {
      PercentTwice(a[ai..], b[from..]);
      assert a[ai..][1..] == a[ai + 1..];
      ai := ai + 1;
    }
    assert a[ai..][0] == '%' && a[ai..][1..] == a[ai + 1..];
    ai := ai + 1;
    if ai == |a| {
      assert a[ai - 1..] == "%";
      PercentLast(b[from..]);
      return true;
    }
    while bi < |b|
      invariant from <= bi <= |b|
      invariant forall k :: from <= k < bi ==> !Matches(a[ai..], b[k..])
    {
      var found := MatchText(a[ai..], b[bi..]);
      if found {
        FoundLater(a[ai - 1..], b, from, bi);
        return true;
      }
      bi := bi + 1;
    }
    FoundNowhere(a[ai - 1..], b, from);
    r := false;
  }

  // ----- what patterns mean

  predicate Plain(s: string) { forall i :: 0 <= i < |s| ==> s[i] != '%' && s[i] != '_' && s[i] != '\\' }

  /** A pattern without `%` and `_` matches itself only: a backslash stands for itself there. */
  lemma {:induction false} PlainMatchesItself(a: string, b: string)
    requires '%' !in a && '_' !in a
    ensures Matches(a, b) <==> a == b
  {
    if a != "" && b != "" {
      assert a[0] in a && (|a| > 1 ==> a[1] in a);
      PlainMatchesItself(a[1..], b[1..]);
      assert a == [a[0]] + a[1..] && b == [b[0]] + b[1..];
    }
  }

  /** Without `%` and backslash a pattern is matched character by character, and `_` by any. */
  lemma {:induction false} ByCharacter(a: string, b: string)
    requires '%' !in a && '\\' !in a
    ensures Matches(a, b) <==> |a| == |b| && forall i :: 0 <= i < |a| ==> a[i] == '_' || a[i] == b[i]
  {
    if a != "" && b != "" {
      assert a[0] in a;
      ByCharacter(a[1..], b[1..]);
      assert forall i :: 0 < i < |a| ==> a[i] == a[1..][i - 1];
      assert forall i :: 0 < i < |b| ==> b[i] == b[1..][i - 1];
    }
  }

  /** So one `_` in a name stands for any one character in its place. */
  lemma OneUnderscore(a: string, i: nat, b: string)
    requires Plain(a) && i < |a|
    ensures Matches(a[i := '_'], b) <==> |b| == |a| && b[i := a[i]] == a
  {
    ByCharacter(a[i := '_'], b);
    if |b| == |a| && b[i := a[i]] == a {
      assert forall j :: 0 <= j < |a| && j != i ==> a[j] == b[i := a[i]][j] == b[j];
    }
  }

  /** And nothing but underscores for any text of that length. */
  lemma OnlyUnderscores(n: nat, b: string)
    ensures Matches(seq(n, _ => '_'), b) <==> |b| == n
  {
    ByCharacter(seq(n, _ => '_'), b);
  }

  /** A name with its underscores escaped. */
  function Quoted(s: string): string {
    if s == "" then "" else (if s[0] == '_' then "\\_" else [s[0]]) + Quoted(s[1..])
  }

  /** An escaped name matches itself only, among texts without a backslash. */
  lemma {:induction false} QuotedMatchesItself(s: string, b: string)
    requires '%' !in s && '\\' !in s && '\\' !in b
    ensures Matches(Quoted(s), b) <==> s == b
  {
    if s != "" && b != "" {
      QuotedMatchesItself(s[1..], b[1..]);
      assert s == [s[0]] + s[1..] && b == [b[0]] + b[1..];
      if s[0] == '_' {
        assert Quoted(s)[0] == '\\' && Quoted(s)[1] == '_' && Quoted(s)[2..] == Quoted(s[1..]);
        assert b[0] in b;
      } else {
        assert s[0] in s && Quoted(s)[0] == s[0] && Quoted(s)[1..] == Quoted(s[1..]);
      }
    }
  }

  /** Patterns one after the other match texts one after the other. */
  lemma {:induction false} MatchesConcat(a: string, b: string, c: string, d: string)
    requires Matches(a, b) && Matches(c, d)
    ensures Matches(a + c, b + d)
    decreases |a|
  {
    if a == "" {
      assert a + c == c && b + d == d;
    } else if a[0] == '%' {
      var k :| 0 <= k <= |b| && Matches(a[1..], b[k..]);
      MatchesConcat(a[1..], b[k..], c, d);
      assert (a + c)[1..] == a[1..] + c && (b + d)[k..] == b[k..] + d;
      assert Matches((a + c)[1..], (b + d)[k..]);
    } else if One(a, b) && Matches(a[1..], b[1..]) {
      MatchesConcat(a[1..], b[1..], c, d);
      assert (a + c)[1..] == a[1..] + c && (b + d)[1..] == b[1..] + d;
      assert One(a + c, b + d);
    } else {
      MatchesConcat(a[2..], b[1..], c, d);
      assert (a + c)[2..] == a[2..] + c && (b + d)[1..] == b[1..] + d;
      assert Escaped(a + c, b + d);
    }
  }

  predicate OccursAt(a: string, b: string, i: nat) { i + |a| <= |b| && b[i..i + |a|] == a }

  lemma OccursIsMatched(a: string, b: string, i: nat)
    requires Plain(a) && OccursAt(a, b, i)
    ensures Matches(a + "%", b[i..])
  {
    PlainMatchesItself(a, a);
    PercentLast(b[i + |a|..]);
    MatchesConcat(a, a, "%", b[i + |a|..]);
    assert a + b[i + |a|..] == b[i..];
  }

  lemma MatchedOccurs(a: string, b: string, i: nat)
    requires Plain(a) && i <= |b| && Matches(a + "%", b[i..])
    ensures OccursAt(a, b, i)
  {
    StartsWith(a, b[i..]);
    assert b[i..][..|a|] == b[i..i + |a|];
  }

  /** A name between two `%` is found anywhere in the text, and only there. */
  lemma Anywhere(a: string, b: string)
    requires Plain(a)
    ensures Matches("%" + (a + "%"), b) <==> exists i :: OccursAt(a, b, i)
  {
    var p := "%" + (a + "%");
    assert p[0] == '%' && p[1..] == a + "%";
    if Matches(p, b) {
      var k :| 0 <= k <= |b| && Matches(p[1..], b[k..]);
      MatchedOccurs(a, b, k);
    }
    if i: nat :| OccursAt(a, b, i) {
      OccursIsMatched(a, b, i);
      assert Matches(p[1..], b[i..]);
    }
  }

  lemma {:induction false} StartsWith(a: string, b: string)
    requires Plain(a) && Matches(a + "%", b)
    ensures a <= b
  {
    if a != "" {
      assert (a + "%")[1..] == a[1..] + "%";
      StartsWith(a[1..], b[1..]);
      assert a == [a[0]] + a[1..] && b == [b[0]] + b[1..];
    }
  }
}

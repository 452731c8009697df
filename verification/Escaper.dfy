/** Putting an escape character before every needle, in place and from the back of the buffer. */
module Escaper {

  function Count(s: string, needle: char): nat {
    if s == "" then 0 else Count(s[..|s| - 1], needle) + if s[|s| - 1] == needle then 1 else 0
  }

  /** Each needle becomes the escape character and the needle. */
  function Escape(s: string, needle: char, repl: char): string {
    if s == "" then "" else Escape(s[..|s| - 1], needle, repl) + One(s[|s| - 1], needle, repl)
  }

  function One(c: char, needle: char, repl: char): string {
    if c == needle then [repl, needle] else [c]
  }

  lemma {:induction false} EscapeLength(s: string, needle: char, repl: char)
    ensures |Escape(s, needle, repl)| == |s| + Count(s, needle)
  {
    if s != "" { EscapeLength(s[..|s| - 1], needle, repl); }
  }

  /** What is escaped first stays in front. */
  lemma {:induction false} EscapePrefix(s: string, k: nat, needle: char, repl: char)
    requires k <= |s|
    ensures Escape(s[..k], needle, repl) <= Escape(s, needle, repl)
  {
    if k < |s| {
      EscapePrefix(s[..|s| - 1], k, needle, repl);
      assert s[..|s| - 1][..k] == s[..k];
    } else {
      assert s[..k] == s;
    }
  }

  /** Where the escaped form of the first k characters ends. */
  function Place(s: string, k: nat, needle: char): nat
    requires k <= |s|
  {
    k + Count(s[..k], needle)
  }

  /** Where character k goes, and its escape before it. */
  lemma StepBack(s: string, k: nat, needle: char, repl: char)
    requires k < |s|
    ensures var e, from, to := Escape(s, needle, repl), Place(s, k, needle), Place(s, k + 1, needle);
            && k <= from < to <= |e| && e[to - 1] == s[k]
            && (if s[k] == needle then to == from + 2 && e[from] == repl else to == from + 1)
  {
    assert s[..k + 1][..k] == s[..k];
    EscapePrefix(s, k + 1, needle, repl);
    EscapeLength(s[..k], needle, repl);
    EscapeLength(s[..k + 1], needle, repl);
  }

  lemma {:induction false} NoNeedle(s: string, needle: char, repl: char)
    requires Count(s, needle) == 0
    ensures Escape(s, needle, repl) == s
  {
    if s != "" {
      NoNeedle(s[..|s| - 1], needle, repl);
      assert s == s[..|s| - 1] + [s[|s| - 1]];
    }
  }

  /** The loop over memchr. */
  method CountNeedles(needle: char, str: array<char>, length: nat) returns (escapes: nat)
    requires length <= str.Length
    ensures escapes == Count(str[..length], needle)
  {
    escapes := 0;
    for scan := 0 to length
      invariant escapes == Count(str[..scan], needle)
    {
      assert str[..scan + 1][..scan] == str[..scan];
      if str[scan] == needle { escapes := escapes + 1; }
    }
  }

  /** m_escape_char_with_char. An empty string is left as it is, not even terminated. */
  method EscapeCharWithChar(needle: char, repl: char, str: array<char>, length: nat)
    requires length <= str.Length && length + Count(str[..length], needle) < str.Length
    modifies str
    ensures length == 0 ==> str[..] == old(str[..])
    ensures length > 0 ==>
              var escaped := Escape(old(str[..length]), needle, repl);
              && |escaped| < str.Length && |escaped| == length + Count(old(str[..length]), needle)
              && str[..|escaped|] == escaped && str[|escaped|] == '\0'
              && forall k :: |escaped| < k < str.Length ==> str[k] == old(str[k])
  {
    if length == 0 { return; }
    ghost var s := str[..length];
    EscapeLength(s, needle, repl);
    var escapes := CountNeedles(needle, str, length);
    if escapes == 0 {
      NoNeedle(s, needle, repl);
      str[length] := '\0';
      return;
    }
    str[length + escapes] := '\0';
    assert str[..length] == s;
    CopyBack(needle, repl, str, length, length + escapes);
  }

  /** Characters up to read are still in place, those after write are escaped. */
  ghost predicate Backed(now: string, was: string, s: string, escaped: string, needle: char, read: int, write: int) {
    && |s| <= |escaped| <= |now| == |was| && -1 <= read < |s| && read <= write < |escaped|
    && write + 1 == Place(s, read + 1, needle)
    && (forall k :: 0 <= k <= read ==> now[k] == s[k])
    && (forall k :: write < k < |escaped| ==> now[k] == escaped[k])
    && (forall k :: |escaped| <= k < |now| ==> now[k] == was[k])
  }

  lemma BackOne(now: string, was: string, s: string, needle: char, repl: char, read: nat, write: nat)
    requires Backed(now, was, s, Escape(s, needle, repl), needle, read, write)
    ensures var next := now[write := now[read]];
            if now[read] == needle then
              0 < write && Backed(next[write - 1 := repl], was, s, Escape(s, needle, repl), needle, read - 1, write - 2)
            else
              Backed(next, was, s, Escape(s, needle, repl), needle, read - 1, write - 1)
  {
    StepBack(s, read, needle, repl);
  }

  lemma BackedNone(was: string, length: nat, needle: char, repl: char)
    requires 0 < length <= |was| && length + Count(was[..length], needle) <= |was|
    ensures var s := was[..length];
            && |Escape(s, needle, repl)| == length + Count(s, needle)
            && Backed(was, was, s, Escape(s, needle, repl), needle, length - 1, length + Count(s, needle) - 1)
  {
    EscapeLength(was[..length], needle, repl);
    assert was[..length][..length] == was[..length];
  }

  lemma BackedAll(now: string, was: string, s: string, escaped: string, needle: char, write: int)
    requires Backed(now, was, s, escaped, needle, -1, write)
    ensures now[..|escaped|] == escaped && forall k :: |escaped| <= k < |now| ==> now[k] == was[k]
  {
  }

  /** The copy from the back: what is still to be read is never overwritten. */
  method CopyBack(needle: char, repl: char, str: array<char>, length: nat, end: nat)
    requires 0 < length <= end < str.Length && end == length + Count(str[..length], needle)
    modifies str
    ensures str[..end] == Escape(old(str[..length]), needle, repl)
    ensures forall k :: end <= k < str.Length ==> str[k] == old(str[k])
  {
    ghost var was, s := str[..], str[..length];
    ghost var escaped := Escape(s, needle, repl);
    assert was[..length] == s;
    BackedNone(was, length, needle, repl);
    var write := end - 1;
    var read := length - 1;
    while read >= 0
      invariant Backed(str[..], was, s, escaped, needle, read, write)
    {
      ghost var now := str[..];
      BackOne(now, was, s, needle, repl, read, write);
      str[write] := str[read];
      assert str[..] == now[write := now[read]];
      if str[write] == needle {
        write := write - 1;
        str[write] := repl;
        assert str[..] == now[write + 1 := now[read]][write := repl];
      }
      write := write - 1;
      read := read - 1;
    }
    BackedAll(str[..], was, s, escaped, needle, write);
    assert str[..][..end] == str[..end];
  }

  // ----- the way back

  /** Takes away each escape character that stands before a needle. */
  function Unescape(s: string, needle: char, repl: char): string {
    if s == "" then ""
    else if |s| > 1 && s[0] == repl && s[1] == needle then [needle] + Unescape(s[2..], needle, repl)
    else [s[0]] + Unescape(s[1..], needle, repl)
  }

  lemma {:induction false} EscapeFirst(s: string, needle: char, repl: char)
    requires s != ""
    ensures Escape(s, needle, repl) == One(s[0], needle, repl) + Escape(s[1..], needle, repl)
  {
    var n := |s| - 1;
    if n > 0 {
      EscapeFirst(s[..n], needle, repl);
      assert s[..n][1..] == s[1..][..n - 1];
      assert s[1..][n - 1] == s[n];
      assert One(s[0], needle, repl) + Escape(s[1..][..n - 1], needle, repl) + One(s[n], needle, repl)
          == One(s[0], needle, repl) + (Escape(s[1..][..n - 1], needle, repl) + One(s[n], needle, repl));
    } else {
      assert s[..0] == "" && s[1..] == "";
      assert "" + One(s[0], needle, repl) == One(s[0], needle, repl) + "";
    }
  }

  /** Undoing it gives the input back, also when the escape character is the needle. */
  lemma {:induction false} RoundTrip(s: string, needle: char, repl: char)
    ensures Unescape(Escape(s, needle, repl), needle, repl) == s
  {
    if s != "" {
      EscapeFirst(s, needle, repl);
      RoundTrip(s[1..], needle, repl);
      var e, rest := Escape(s, needle, repl), Escape(s[1..], needle, repl);
      assert s == [s[0]] + s[1..];
      if s[0] == needle {
        assert e[0] == repl && e[1] == needle && e[2..] == rest;
      } else {
        assert e[0] == s[0] && e[1..] == rest;
        if s[1..] != "" { EscapeFirst(s[1..], needle, repl); }
      }
    }
  }

  /** Every needle of the result is one of an escaped pair, so none is left bare. */
  predicate Covered(s: string, needle: char, repl: char) {
    if s == "" then true
    else if |s| > 1 && s[0] == repl && s[1] == needle then Covered(s[2..], needle, repl)
    else s[0] != needle && Covered(s[1..], needle, repl)
  }

  lemma {:induction false} EscapeCovers(s: string, needle: char, repl: char)
    ensures Covered(Escape(s, needle, repl), needle, repl)
  {
    if s != "" {
      EscapeFirst(s, needle, repl);
      EscapeCovers(s[1..], needle, repl);
      var e, rest := Escape(s, needle, repl), Escape(s[1..], needle, repl);
      if s[0] == needle {
        assert e[0] == repl && e[1] == needle && e[2..] == rest;
      } else {
        assert e[0] == s[0] && e[1..] == rest;
        if s[1..] != "" { EscapeFirst(s[1..], needle, repl); }
      }
    }
  }
}

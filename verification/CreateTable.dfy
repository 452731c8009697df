/** A CREATE TABLE statement is taken apart: its index lines become ALTER TABLE statements, its foreign
    keys one more, and the rest stays. */
module CreateTable {
  import opened Optional

  // ----- lines

  predicate StartsWith(line: string, p: string) { p <= line }

  predicate OccursAt(line: string, p: string, i: nat) { i + |p| <= |line| && line[i..i + |p|] == p }

  /** g_strrstr(line, p) != NULL */
  predicate Contains(line: string, p: string) { exists i: nat :: i <= |line| && OccursAt(line, p, i) }

  predicate IsIndex(line: string) {
    || StartsWith(line, "  KEY") || StartsWith(line, "  UNIQUE") || StartsWith(line, "  SPATIAL")
    || StartsWith(line, "  FULLTEXT") || StartsWith(line, "  INDEX")
  }

  predicate IsConstraint(line: string) { StartsWith(line, "  CONSTRAINT") }

  predicate IsFulltext(line: string) { Contains(line, "  FULLTEXT") }

  /** Text up to the next quote, if there is one. */
  function UpTo(s: string, quote: char): string {
    if s == "" || s[0] == quote then "" else [s[0]] + UpTo(s[1..], quote)
  }

  /** The second part of a line split at quotes; printing a part that is not there gives "(null)". */
  function SecondPart(line: string, quote: char): string {
    var first := UpTo(line, quote);
    if |first| < |line| then UpTo(line[|first| + 1..], quote) else "(null)"
  }

  function AutoIncrementColumn(line: string, quote: char): string {
    "(" + [quote] + SecondPart(line, quote) + [quote]
  }

  // ----- where the lines go

  datatype Dest = Create | Alter | Constraint

  datatype Options = Options(table: string, quote: char, split: bool, batch: nat)

  /** The lines kept, the index lines of each ALTER, the constraint lines, and the state of the loop. */
  datatype Sorting = Sorting(
    create: seq<string>, alters: seq<seq<string>>, constraints: seq<string>,
    autoinc: Option<string>, fulltext: nat, inAlter: nat)

  function Route(o: Options, s: Sorting, line: string): Dest {
    if o.split && IsIndex(line) then
      if s.autoinc.Some? && Contains(line, s.autoinc.value) then Create else Alter
    else if IsConstraint(line) then Constraint
    else Create
  }

  function FulltextCount(fulltext: nat, line: string): nat {
    if IsFulltext(line) then fulltext + 1 else fulltext
  }

  /** An index line opens another ALTER for a second FULLTEXT index, or when the last one is full. */
  predicate Opens(o: Options, fulltext: nat, inAlter: nat, line: string) {
    FulltextCount(fulltext, line) > 1 || (o.batch > 0 && inAlter + 1 > o.batch)
  }

  function InLast(alters: seq<seq<string>>, line: string): seq<seq<string>>
    requires alters != []
  {
    alters[|alters| - 1 := alters[|alters| - 1] + [line]]
  }

  function AddIndex(o: Options, s: Sorting, line: string): Sorting
    requires s.alters != []
  {
    var opens := Opens(o, s.fulltext, s.inAlter, line);
    s.(alters := if opens then s.alters + [[line]] else InLast(s.alters, line),
       fulltext := if FulltextCount(s.fulltext, line) > 1 then 1 else FulltextCount(s.fulltext, line),
       inAlter := if opens then 1 else s.inAlter + 1)
  }

  function Add(o: Options, s: Sorting, line: string): Sorting
    requires s.alters != []
  {
    match Route(o, s, line)
    case Alter => AddIndex(o, s, line)
    case Constraint => s.(constraints := s.constraints + [line])
    case Create =>
      s.(create := s.create + [line],
         autoinc := if !(o.split && IsIndex(line)) && Contains(line, "AUTO_INCREMENT")
                    then Some(AutoIncrementColumn(line, o.quote)) else s.autoinc)
  }

  function Sorted(o: Options, lines: seq<string>): (s: Sorting)
    ensures s.alters != []
  {
    if lines == [] then Sorting([], [[]], [], None, 0, 0)
    else Add(o, Sorted(o, lines[..|lines| - 1]), lines[|lines| - 1])
  }

  function Routes(o: Options, lines: seq<string>): seq<Dest> {
    if lines == [] then []
    else
      var before := lines[..|lines| - 1];
      Routes(o, before) + [Route(o, Sorted(o, before), lines[|lines| - 1])]
  }

  /** What index lines begin with, two spaces included. */
  const INDEX_STARTS: set<string> := {"  KEY", "  UNIQUE", "  SPATIAL", "  FULLTEXT", "  INDEX"}

  /** When indexes are split off, a line that begins like one goes to the ALTER unless it names the
      AUTO_INCREMENT column; a line that begins like a constraint goes to the constraints; all others
      are kept. */
  lemma WhereLinesGo(o: Options, s: Sorting, line: string)
    ensures var index := o.split && exists p :: p in INDEX_STARTS && p <= line;
            var kept := s.autoinc.Some? && Contains(line, s.autoinc.value);
            Route(o, s, line) ==
              if index && !kept then Alter
              else if !index && "  CONSTRAINT" <= line then Constraint
              else Create
  {
    if exists p :: p in INDEX_STARTS && p <= line {
      var p :| p in INDEX_STARTS && p <= line;
      assert p == "  KEY" || p == "  UNIQUE" || p == "  SPATIAL" || p == "  FULLTEXT" || p == "  INDEX";
    }
    assert IsIndex(line) ==> exists p :: p in INDEX_STARTS && p <= line by {
      if "  KEY" <= line { assert "  KEY" in INDEX_STARTS; }
      if "  UNIQUE" <= line { assert "  UNIQUE" in INDEX_STARTS; }
      if "  SPATIAL" <= line { assert "  SPATIAL" in INDEX_STARTS; }
      if "  FULLTEXT" <= line { assert "  FULLTEXT" in INDEX_STARTS; }
      if "  INDEX" <= line { assert "  INDEX" in INDEX_STARTS; }
    }
  }

  lemma {:induction false} UpToQuote(a: string, b: string, quote: char)
    requires quote !in a
    ensures UpTo(a + ([quote] + b), quote) == a
  {
    if a != "" {
      assert a[0] in a && (a + ([quote] + b))[1..] == a[1..] + ([quote] + b);
      UpToQuote(a[1..], b, quote);
    }
  }

  /** Once a column was seen that is AUTO_INCREMENT, an index line stays in the CREATE TABLE if it has
      the column's quoted name behind a parenthesis, and goes to the ALTER if not. */
  lemma AutoIncrementIndexStays(o: Options, s: Sorting, a: string, name: string, b: string, index: string)
    requires o.split && s.alters != [] && o.quote !in a && o.quote !in name && IsIndex(index)
    requires var column := a + ([o.quote] + (name + ([o.quote] + b)));
             !IsIndex(column) && !IsConstraint(column) && Contains(column, "AUTO_INCREMENT")
    ensures var t := Add(o, s, a + ([o.quote] + (name + ([o.quote] + b))));
            && t == s.(create := s.create + [a + ([o.quote] + (name + ([o.quote] + b)))], autoinc := t.autoinc)
            && Route(o, t, index) == if Contains(index, "(" + [o.quote] + name + [o.quote]) then Create else Alter
  {
    var column := a + ([o.quote] + (name + ([o.quote] + b)));
    UpToQuote(a, name + ([o.quote] + b), o.quote);
    UpToQuote(name, b, o.quote);
    assert column[|a| + 1..] == name + ([o.quote] + b);
  }

  /** The lines with a destination, in their order. */
  function Sent(lines: seq<string>, routes: seq<Dest>, d: Dest): seq<string>
    requires |lines| == |routes|
  {
    if lines == [] then []
    else
      var n := |lines| - 1;
      Sent(lines[..n], routes[..n], d) + if routes[n] == d then [lines[n]] else []
  }

  function Flatten(s: seq<seq<string>>): seq<string> {
    if s == [] then [] else Flatten(s[..|s| - 1]) + s[|s| - 1]
  }

  lemma {:induction false} RoutesLength(o: Options, lines: seq<string>)
    ensures |Routes(o, lines)| == |lines|
  {
    if lines != [] { RoutesLength(o, lines[..|lines| - 1]); }
  }

  lemma FlattenGrows(s: seq<seq<string>>, line: string)
    requires s != []
    ensures Flatten(s + [[line]]) == Flatten(s) + [line]
    ensures Flatten(InLast(s, line)) == Flatten(s) + [line]
  {
    assert (s + [[line]])[..|s|] == s;
    assert s[|s| - 1 := s[|s| - 1] + [line]][..|s| - 1] == s[..|s| - 1];
  }

  /** Every line goes to one of the three statements, in its place. */
  lemma {:induction false} EachLineOnce(o: Options, lines: seq<string>)
    ensures |Routes(o, lines)| == |lines|
    ensures var s, r := Sorted(o, lines), Routes(o, lines);
            && s.create == Sent(lines, r, Create)
            && Flatten(s.alters) == Sent(lines, r, Alter)
            && s.constraints == Sent(lines, r, Constraint)
  {
    RoutesLength(o, lines);
    if lines != [] {
      var n := |lines| - 1;
      EachLineOnce(o, lines[..n]);
      assert Routes(o, lines)[..n] == Routes(o, lines[..n]);
      FlattenGrows(Sorted(o, lines[..n]).alters, lines[n]);
    } else {
      var none: seq<seq<string>> := [[]];
      assert none[..0] == [];
    }
  }

  // ----- the ALTER statements

  function Fulltexts(lines: seq<string>): nat {
    if lines == [] then 0 else Fulltexts(lines[..|lines| - 1]) + if IsFulltext(lines[|lines| - 1]) then 1 else 0
  }

  lemma FulltextsGrows(lines: seq<string>, line: string)
    ensures Fulltexts(lines + [line]) == Fulltexts(lines) + if IsFulltext(line) then 1 else 0
  {
    assert (lines + [line])[..|lines|] == lines;
  }

  predicate AlterOk(o: Options, lines: seq<string>) {
    Fulltexts(lines) <= 1 && (o.batch > 0 ==> |lines| <= o.batch)
  }

  ghost predicate AltersFit(o: Options, alters: seq<seq<string>>) {
    forall i :: 0 <= i < |alters| ==> AlterOk(o, alters[i]) && (|alters| > 1 ==> alters[i] != [])
  }

  predicate HasCause(o: Options, before: seq<string>, lines: seq<string>) {
    lines != [] ==> IsFulltext(lines[0]) || (o.batch > 0 && |before| == o.batch)
  }

  /** Another ALTER is opened for a FULLTEXT index, or because the one before is full. */
  ghost predicate OpenedForCause(o: Options, alters: seq<seq<string>>) {
    forall i :: 0 < i < |alters| ==> HasCause(o, alters[i - 1], alters[i])
  }

  /** The counters of the loop are those of the last ALTER. */
  predicate CountersOk(s: Sorting) {
    && s.alters != []
    && s.inAlter == |s.alters[|s.alters| - 1]| && Fulltexts(s.alters[|s.alters| - 1]) <= s.fulltext <= 1
    && (s.fulltext > 0 ==> s.alters[|s.alters| - 1] != [])
  }

  lemma GrowKeepsFit(o: Options, alters: seq<seq<string>>, line: string)
    requires alters != [] && AltersFit(o, alters) && OpenedForCause(o, alters)
    requires AlterOk(o, alters[|alters| - 1] + [line])
    ensures AltersFit(o, InLast(alters, line)) && OpenedForCause(o, InLast(alters, line))
  {
    var t, n := InLast(alters, line), |alters|;
    forall i | 0 <= i < n ensures AlterOk(o, t[i]) && (n > 1 ==> t[i] != []) {
      if i < n - 1 { assert t[i] == alters[i]; }
    }
    forall i | 0 < i < n ensures HasCause(o, t[i - 1], t[i]) {
      assert t[i - 1] == alters[i - 1] && HasCause(o, alters[i - 1], alters[i]);
      assert alters[i] != [] && t[i][0] == alters[i][0];
    }
  }

  lemma OpenKeepsFit(o: Options, alters: seq<seq<string>>, line: string)
    requires alters != [] && alters[|alters| - 1] != [] && AltersFit(o, alters) && OpenedForCause(o, alters)
    requires AlterOk(o, [line]) && HasCause(o, alters[|alters| - 1], [line])
    ensures AltersFit(o, alters + [[line]]) && OpenedForCause(o, alters + [[line]])
  {
    var t, n := alters + [[line]], |alters|;
    forall i | 0 <= i <= n ensures AlterOk(o, t[i]) && t[i] != [] {
      if i < n { assert t[i] == alters[i]; }
    }
    forall i | 0 < i <= n ensures HasCause(o, t[i - 1], t[i]) {
      assert t[i - 1] == alters[i - 1];
      if i < n { assert t[i] == alters[i] && HasCause(o, alters[i - 1], alters[i]); }
    }
  }

  lemma AddIndexKeepsOk(o: Options, s: Sorting, line: string)
    requires CountersOk(s) && AltersFit(o, s.alters) && OpenedForCause(o, s.alters)
    ensures var t := AddIndex(o, s, line); CountersOk(t) && AltersFit(o, t.alters) && OpenedForCause(o, t.alters)
  {
    var last := s.alters[|s.alters| - 1];
    assert AlterOk(o, last);
    FulltextsGrows([], line);
    FulltextsGrows(last, line);
    assert [] + [line] == [line];
    if Opens(o, s.fulltext, s.inAlter, line) {
      OpenKeepsFit(o, s.alters, line);
    } else {
      GrowKeepsFit(o, s.alters, line);
    }
  }

  /** No ALTER has two FULLTEXT indexes or more than optimize_keys_batchsize indexes, none is empty
      when there are several, and none is opened without need. */
  lemma {:induction false} AltersOk(o: Options, lines: seq<string>)
    ensures CountersOk(Sorted(o, lines))
    ensures AltersFit(o, Sorted(o, lines).alters) && OpenedForCause(o, Sorted(o, lines).alters)
  {
    if lines != [] {
      var before, line := Sorted(o, lines[..|lines| - 1]), lines[|lines| - 1];
      AltersOk(o, lines[..|lines| - 1]);
      if Route(o, before, line) == Alter { AddIndexKeepsOk(o, before, line); }
    }
  }

  /** The counter of FULLTEXT indexes remembers whether there was one in any ALTER so far. */
  ghost predicate Remembers(s: Sorting) { s.fulltext == if Fulltexts(Flatten(s.alters)) > 0 then 1 else 0 }

  lemma AddRemembers(o: Options, s: Sorting, line: string)
    requires s.alters != [] && Remembers(s)
    ensures Remembers(Add(o, s, line))
  {
    FlattenGrows(s.alters, line);
    FulltextsGrows(Flatten(s.alters), line);
  }

  lemma {:induction false} FulltextSeen(o: Options, lines: seq<string>)
    ensures Remembers(Sorted(o, lines))
  {
    if lines != [] {
      FulltextSeen(o, lines[..|lines| - 1]);
      AddRemembers(o, Sorted(o, lines[..|lines| - 1]), lines[|lines| - 1]);
    } else {
      assert Flatten(NO_INDEX) == Flatten(NO_INDEX[..0]) + [];
    }
  }

  /** An index line opens another ALTER if and only if it is a FULLTEXT index and not the first one of the
      table, or the last ALTER has optimize_keys_batchsize lines. */
  lemma OpenedIff(o: Options, lines: seq<string>, line: string)
    requires Route(o, Sorted(o, lines), line) == Alter
    ensures var s := Sorted(o, lines); var t := Add(o, s, line); var n := |s.alters|;
            var another := (Contains(line, "  FULLTEXT") && Fulltexts(Flatten(s.alters)) > 0)
                          || (o.batch > 0 && |s.alters[n - 1]| >= o.batch);
            t.alters == if another then s.alters + [[line]] else s.alters[n - 1 := s.alters[n - 1] + [line]]
  {
    AltersOk(o, lines);
    FulltextSeen(o, lines);
  }

  lemma {:induction false} FulltextsAt(lines: seq<string>, a: nat)
    requires a < |lines| && IsFulltext(lines[a])
    ensures Fulltexts(lines) == Fulltexts(lines[..a]) + 1 + Fulltexts(lines[a + 1..])
  {
    var n := |lines| - 1;
    if a == n {
      assert lines[a + 1..] == [];
    } else {
      FulltextsAt(lines[..n], a);
      assert lines[..n][..a] == lines[..a] && lines[..n][a + 1..] == lines[a + 1..n];
      assert lines[a + 1..][..n - a - 1] == lines[a + 1..n];
    }
  }

  /** No two lines of an ALTER have FULLTEXT in them behind two spaces. */
  lemma OneFulltextEach(o: Options, lines: seq<string>, i: nat, a: nat, b: nat)
    requires i < |Sorted(o, lines).alters| && a < b < |Sorted(o, lines).alters[i]|
    ensures !(Contains(Sorted(o, lines).alters[i][a], "  FULLTEXT") && Contains(Sorted(o, lines).alters[i][b], "  FULLTEXT"))
  {
    var alter := Sorted(o, lines).alters[i];
    AltersOk(o, lines);
    assert AlterOk(o, alter);
    if IsFulltext(alter[a]) && IsFulltext(alter[b]) {
      FulltextsAt(alter, a);
      FulltextsAt(alter[a + 1..], b - a - 1);
      assert false;
    }
  }

  // ----- closing an ALTER

  /** g_strrstr_len(s, len, ","): the place of the last comma. */
  function LastComma(s: string): (r: int)
    ensures -1 <= r < |s| && (r >= 0 ==> s[r] == ',') && forall k :: r < k < |s| ==> s[k] != ','
  {
    if s == "" then -1 else if s[|s| - 1] == ',' then |s| - 1 else LastComma(s[..|s| - 1])
  }

  /** finish_alter_table: the last comma becomes the semicolon if it is one of the last four
      characters. */
  function Finish(s: string): string {
    var at := LastComma(s);
    if at >= 0 && at > |s| - 5 then s[at := ';'] + "\n" else s + ";\n"
  }

  /** What it is for: the separator after the last index is replaced. */
  function Closed(s: string): string {
    if s != "" && s[|s| - 1] == ',' then s[..|s| - 1] + ";\n" else s + ";\n"
  }

  predicate CommaBeforeEnd(s: string) {
    exists k :: 0 <= k < |s| - 1 && k > |s| - 5 && s[k] == ','
  }

  /** It replaces exactly a trailing comma, unless there is none and a comma stands just before the
      end: that one is overwritten instead. */
  lemma FinishIsClosedIff(s: string)
    ensures Finish(s) == Closed(s) <==> (s != "" && s[|s| - 1] == ',') || !CommaBeforeEnd(s)
  {
    var at := LastComma(s);
    if s != "" && s[|s| - 1] == ',' {
      assert at == |s| - 1;
      assert s[at := ';'] == s[..|s| - 1] + ";";
      assert s[at := ';'] + "\n" == s[..|s| - 1] + ";\n";
    } else if CommaBeforeEnd(s) {
      assert at >= 0 && at > |s| - 5;
      assert Finish(s)[at] == ';' && Closed(s)[at] == ',';
    }
  }

  lemma {:induction false} LastCommaConcat(before: string, s: string)
    ensures LastComma(before + s) == if LastComma(s) >= 0 then |before| + LastComma(s) else LastComma(before)
  {
    if s == "" {
      assert before + s == before;
    } else {
      assert (before + s)[..|before + s| - 1] == before + s[..|s| - 1];
      LastCommaConcat(before, s[..|s| - 1]);
    }
  }

  /** Only the statement at the end is touched when it is four characters long or more. */
  lemma FinishLast(before: string, s: string)
    requires |s| >= 4
    ensures Finish(before + s) == before + Finish(s)
  {
    var last := LastComma(s);
    LastCommaConcat(before, s);
    if last >= 0 {
      assert (before + s)[|before| + last := ';'] == before + s[last := ';'];
      assert before + s[last := ';'] + "\n" == before + (s[last := ';'] + "\n");
    }
    assert before + s + ";\n" == before + (s + ";\n");
  }

  // ----- the texts

  function Header(o: Options): string {
    "ALTER TABLE " + [o.quote] + o.table + [o.quote] + " "
  }

  function AddedText(lines: seq<string>): string {
    if lines == [] then "" else AddedText(lines[..|lines| - 1]) + "\n ADD" + lines[|lines| - 1]
  }

  function OpenAlter(o: Options, lines: seq<string>): string { Header(o) + AddedText(lines) }

  function AlterText(o: Options, alters: seq<seq<string>>): string {
    if alters == [] then ""
    else AlterText(o, alters[..|alters| - 1]) + Finish(OpenAlter(o, alters[|alters| - 1]))
  }

  /** The buffer before the last ALTER is closed. */
  function AlterBuffer(o: Options, alters: seq<seq<string>>): string
    requires alters != []
  {
    AlterText(o, alters[..|alters| - 1]) + OpenAlter(o, alters[|alters| - 1])
  }

  function Lines(lines: seq<string>): string {
    if lines == [] then "" else Lines(lines[..|lines| - 1]) + lines[|lines| - 1] + "\n"
  }

  /** The text begins with a comma, a line break and a closing parenthesis. */
  predicate CommaFirst(s: string) { |s| >= 3 && s[0] == ',' && s[1] == '\n' && s[2] == ')' }

  /** g_string_replace(s, ",\n)", "\n)", 0) */
  function WithoutLastComma(s: string): string {
    if s == "" then ""
    else if CommaFirst(s) then "\n)" + WithoutLastComma(s[3..])
    else [s[0]] + WithoutLastComma(s[1..])
  }

  lemma CommaOccurs(s: string)
    ensures CommaFirst(s) <==> OccursAt(s, ",\n)", 0)
  {
    var p := ",\n)";
    assert p[0] == ',' && p[1] == '\n' && p[2] == ')';
    if CommaFirst(s) { assert s[0..3] == p; }
    if OccursAt(s, p, 0) { assert s[0..3][0] == s[0] && s[0..3][1] == s[1] && s[0..3][2] == s[2]; }
  }

  lemma OccursFurther(s: string, p: string)
    requires s != "" && Contains(s[1..], p)
    ensures Contains(s, p)
  {
    var i: nat :| i <= |s[1..]| && OccursAt(s[1..], p, i);
    assert s[i + 1..i + 1 + |p|] == s[1..][i..i + |p|];
    assert OccursAt(s, p, i + 1);
  }

  /** A text without a comma before a line that begins with a parenthesis stays as it is. */
  lemma {:induction false} NoCommaToDrop(s: string)
    requires !Contains(s, ",\n)")
    ensures WithoutLastComma(s) == s
  {
    if s != "" {
      CommaOccurs(s);
      if Contains(s[1..], ",\n)") { OccursFurther(s, ",\n)"); }
      NoCommaToDrop(s[1..]);
    }
  }

  /** What stands behind the first three characters has no say in whether they are such a comma. */
  lemma CommaNotFirst(a: string, b: string)
    requires a != "" && !CommaFirst(a) && CommaFirst(b)
    ensures !CommaFirst(a + b)
  {
    var s := a + b;
    assert forall i :: 0 <= i < |s| ==> s[i] == if i < |a| then a[i] else b[i - |a|];
  }

  /** The first such comma is dropped, and the rest goes the same way. */
  lemma {:induction false} FirstCommaDropped(a: string, b: string)
    requires !Contains(a, ",\n)")
    ensures WithoutLastComma(a + (",\n)" + b)) == a + ("\n)" + WithoutLastComma(b))
  {
    var rest := ",\n)" + b;
    assert CommaFirst(rest) && rest[3..] == b;
    if a == "" {
      assert a + rest == rest;
    } else {
      CommaOccurs(a);
      CommaNotFirst(a, rest);
      if Contains(a[1..], ",\n)") { OccursFurther(a, ",\n)"); }
      FirstCommaDropped(a[1..], b);
      HeadOfBoth(a, rest);
      assert WithoutLastComma(a + rest) == [a[0]] + WithoutLastComma(a[1..] + rest);
      HeadOfBoth(a, "\n)" + WithoutLastComma(b));
    }
  }

  lemma HeadOfBoth(a: string, b: string)
    requires a != ""
    ensures (a + b)[0] == a[0] && (a + b)[1..] == a[1..] + b && a + b == [a[0]] + (a[1..] + b)
  {
  }

  /** A line that ends in a comma, before one that begins with a parenthesis. */
  predicate DanglingComma(line: string, next: string) {
    line != "" && line[|line| - 1] == ',' && next != "" && next[0] == ')'
  }

  predicate Broken(line: string) { '\n' in line }

  /** What a text split at its line breaks is made of. */
  ghost predicate Unbroken(lines: seq<string>) { forall i :: 0 <= i < |lines| ==> !Broken(lines[i]) }

  /** The lines with such commas taken away, and nothing else. */
  function Undangled(lines: seq<string>): seq<string> {
    if |lines| < 2 then lines
    else [if DanglingComma(lines[0], lines[1]) then lines[0][..|lines[0]| - 1] else lines[0]] + Undangled(lines[1..])
  }

  lemma CharScanned(c: char, rest: string)
    requires !CommaFirst([c] + rest)
    ensures WithoutLastComma([c] + rest) == [c] + WithoutLastComma(rest)
  {
    HeadOfBoth([c], rest);
    assert [c][1..] + rest == rest;
  }

  lemma CommaDropped(t: string)
    ensures WithoutLastComma(",\n)" + t) == "\n)" + WithoutLastComma(t)
  {
    var s := ",\n)" + t;
    assert CommaFirst(s) && s[3..] == t;
  }

  lemma CommaScanned(rest: string)
    requires rest != "" && rest[0] == ')'
    ensures WithoutLastComma("," + ("\n" + rest)) == "\n" + WithoutLastComma(rest)
  {
    var t := rest[1..];
    assert rest == [')'] + t && "," + ("\n" + rest) == ",\n)" + t;
    CommaDropped(t);
    CharScanned(')', t);
    Associates("\n", ")", WithoutLastComma(t));
  }

  /** Where a line and its break begin with such a comma. */
  lemma CommaInLine(line: string, rest: string)
    requires !Broken(line) && line != ""
    ensures CommaFirst(line + ("\n" + rest)) <==> |line| == 1 && DanglingComma(line, rest)
  {
    var s := line + ("\n" + rest);
    assert forall i :: 0 <= i < |s| ==> s[i] == if i < |line| then line[i] else if i == |line| then '\n' else rest[i - |line| - 1];
    if |line| > 1 { assert line[1] in line; }
  }

  lemma {:induction false} LineScanned(line: string, rest: string)
    requires !Broken(line)
    ensures WithoutLastComma(line + ("\n" + rest))
         == (if DanglingComma(line, rest) then line[..|line| - 1] else line) + ("\n" + WithoutLastComma(rest))
  {
    var broken := "\n" + WithoutLastComma(rest);
    if line == "" {
      CharScanned('\n', rest);
      assert "" + ("\n" + rest) == "\n" + rest && "" + broken == broken;
    } else {
      CommaInLine(line, rest);
      if CommaFirst(line + ("\n" + rest)) {
        assert line == "," && line[..0] + broken == broken;
        CommaScanned(rest);
      } else {
        HeadOfBoth(line, "\n" + rest);
        CharScanned(line[0], line[1..] + ("\n" + rest));
        LineScanned(line[1..], rest);
        if DanglingComma(line, rest) {
          HeadOfBoth(line[..|line| - 1], broken);
          assert line[..|line| - 1][1..] == line[1..][..|line| - 2];
        } else {
          HeadOfBoth(line, broken);
        }
      }
    }
  }

  /** The lines of a text, from the front. */
  lemma {:induction false} LinesFromFront(lines: seq<string>)
    requires lines != []
    ensures Lines(lines) == lines[0] + ("\n" + Lines(lines[1..]))
  {
    var n := |lines| - 1;
    if n > 0 {
      LinesFromFront(lines[..n]);
      assert lines[..n][1..] == lines[1..][..n - 1];
      Associates(lines[0], "\n" + Lines(lines[1..n]), lines[n] + "\n");
      assert Lines(lines[1..]) == Lines(lines[1..n]) + lines[n] + "\n";
    } else {
      assert lines[..0] == [] && lines[1..] == [];
    }
  }

  /** Of the text of these lines exactly the dangling commas are dropped. */
  lemma {:induction false} CommasDropped(lines: seq<string>)
    requires Unbroken(lines)
    ensures WithoutLastComma(Lines(lines)) == Lines(Undangled(lines))
  {
    if lines != [] {
      LinesFromFront(lines);
      LineScanned(lines[0], Lines(lines[1..]));
      CommasDropped(lines[1..]);
      LinesFromFront(Undangled(lines));
      if |lines| == 1 {
        assert Undangled(lines)[1..] == lines[1..];
      } else {
        LinesFromFront(lines[1..]);
        assert Undangled(lines)[1..] == Undangled(lines[1..]);
      }
    }
  }

  lemma AddedTextGrows(lines: seq<string>, line: string)
    ensures AddedText(lines + [line]) == AddedText(lines) + "\n ADD" + line
  {
    assert (lines + [line])[..|lines|] == lines;
  }

  lemma LinesGrows(lines: seq<string>, line: string)
    ensures Lines(lines + [line]) == Lines(lines) + line + "\n"
  {
    assert (lines + [line])[..|lines|] == lines;
  }

  lemma BufferCloses(o: Options, alters: seq<seq<string>>)
    requires alters != []
    ensures Finish(AlterBuffer(o, alters)) == AlterText(o, alters)
  {
    var n := |alters| - 1;
    FinishLast(AlterText(o, alters[..n]), OpenAlter(o, alters[n]));
  }

  lemma OpenAlterGrows(o: Options, lines: seq<string>, line: string)
    ensures OpenAlter(o, lines + [line]) == OpenAlter(o, lines) + ("\n ADD" + line)
  {
    AddedTextGrows(lines, line);
    Associates(AddedText(lines), "\n ADD", line);
    Associates(Header(o), AddedText(lines), "\n ADD" + line);
  }

  lemma Associates(a: string, b: string, c: string)
    ensures a + b + c == a + (b + c)
  {
  }

  lemma BufferGrows(o: Options, alters: seq<seq<string>>, line: string)
    requires alters != []
    ensures AlterBuffer(o, InLast(alters, line)) == AlterBuffer(o, alters) + ("\n ADD" + line)
  {
    var n := |alters| - 1;
    OpenAlterGrows(o, alters[n], line);
    assert InLast(alters, line)[..n] == alters[..n];
    Associates(AlterText(o, alters[..n]), OpenAlter(o, alters[n]), "\n ADD" + line);
  }

  lemma BufferOpens(o: Options, alters: seq<seq<string>>, line: string)
    requires alters != []
    ensures AlterBuffer(o, alters + [[line]]) == Finish(AlterBuffer(o, alters)) + Header(o) + ("\n ADD" + line)
  {
    BufferCloses(o, alters);
    OpenAlterGrows(o, [], line);
    assert [] + [line] == [line] && OpenAlter(o, []) == Header(o);
    assert (alters + [[line]])[..|alters|] == alters;
    Associates(AlterText(o, alters), Header(o), "\n ADD" + line);
  }

  // ----- the loop

  method FindIn(line: string, p: string) returns (found: bool)
    ensures found == Contains(line, p)
  {
    var i := 0;
    while i + |p| <= |line|
      invariant forall k: nat :: k < i ==> !OccursAt(line, p, k)
    {
      if line[i..i + |p|] == p {
        assert OccursAt(line, p, i);
        return true;
      }
      i := i + 1;
    }
    found := false;
  }

  /** The buffers and counters of the loop. */
  datatype Texts = Texts(
    create: string, alter: string, constraint: string, alterPresent: bool, constraintPresent: bool,
    autoinc: Option<string>, fulltext: nat, inAlter: nat)

  function WithIndex(o: Options, x: Texts, line: string): Texts {
    var opens := Opens(o, x.fulltext, x.inAlter, line);
    x.(alterPresent := true,
       alter := (if opens then Finish(x.alter) + Header(o) else x.alter) + ("\n ADD" + line),
       fulltext := if FulltextCount(x.fulltext, line) > 1 then 1 else FulltextCount(x.fulltext, line),
       inAlter := if opens then 1 else x.inAlter + 1)
  }

  function WithLine(o: Options, x: Texts, line: string): Texts {
    if o.split && IsIndex(line) then
      if x.autoinc.Some? && Contains(line, x.autoinc.value) then x.(create := x.create + line + "\n")
      else WithIndex(o, x, line)
    else if IsConstraint(line) then
      x.(constraintPresent := true, constraint := x.constraint + ("\n ADD" + line))
    else
      x.(create := x.create + line + "\n",
         autoinc := if Contains(line, "AUTO_INCREMENT") then Some(AutoIncrementColumn(line, o.quote)) else x.autoinc)
  }

  function WithLines(o: Options, x: Texts, lines: seq<string>): Texts {
    if lines == [] then x else WithLine(o, WithLines(o, x, lines[..|lines| - 1]), lines[|lines| - 1])
  }

  function Opening(o: Options): Texts { Texts("", Header(o), Header(o), false, false, None, 0, 0) }

  /** The buffers hold the lines sorted so far. */
  ghost predicate Shows(o: Options, x: Texts, s: Sorting) {
    && s.alters != []
    && x.create == Lines(s.create) && x.alter == AlterBuffer(o, s.alters) && x.constraint == OpenAlter(o, s.constraints)
    && x.autoinc == s.autoinc && x.fulltext == s.fulltext && x.inAlter == s.inAlter
    && (x.alterPresent <==> Flatten(s.alters) != []) && (x.constraintPresent <==> s.constraints != [])
  }

  lemma WithIndexText(o: Options, x: Texts, s: Sorting, line: string)
    requires s.alters != [] && x.alter == AlterBuffer(o, s.alters) && x.fulltext == s.fulltext && x.inAlter == s.inAlter
    ensures var y, t := WithIndex(o, x, line), AddIndex(o, s, line);
            y.alter == AlterBuffer(o, t.alters) && y.fulltext == t.fulltext && y.inAlter == t.inAlter
  {
    if Opens(o, x.fulltext, x.inAlter, line) {
      BufferOpens(o, s.alters, line);
    } else {
      BufferGrows(o, s.alters, line);
    }
  }

  lemma WithIndexShows(o: Options, x: Texts, s: Sorting, line: string)
    requires Shows(o, x, s)
    ensures Shows(o, WithIndex(o, x, line), AddIndex(o, s, line))
  {
    FlattenGrows(s.alters, line);
    WithIndexText(o, x, s, line);
  }

  lemma WithConstraintShows(o: Options, x: Texts, s: Sorting, line: string)
    requires Shows(o, x, s)
    ensures Shows(o, x.(constraintPresent := true, constraint := x.constraint + ("\n ADD" + line)),
                  s.(constraints := s.constraints + [line]))
  {
    OpenAlterGrows(o, s.constraints, line);
  }

  lemma WithKeptShows(o: Options, x: Texts, s: Sorting, line: string, autoinc: Option<string>)
    requires Shows(o, x, s)
    ensures Shows(o, x.(create := x.create + line + "\n", autoinc := autoinc),
                  s.(create := s.create + [line], autoinc := autoinc))
  {
    LinesGrows(s.create, line);
  }

  /** What a line does is decided the same way on the buffers and on the lines. */
  lemma WithLineByRoute(o: Options, x: Texts, s: Sorting, line: string)
    requires s.alters != [] && x.autoinc == s.autoinc
    ensures WithLine(o, x, line) ==
              match Route(o, s, line)
              case Alter => WithIndex(o, x, line)
              case Constraint => x.(constraintPresent := true, constraint := x.constraint + ("\n ADD" + line))
              case Create => x.(create := x.create + line + "\n", autoinc := Add(o, s, line).autoinc)
  {
  }

  lemma WithLineShows(o: Options, x: Texts, s: Sorting, line: string)
    requires Shows(o, x, s)
    ensures Shows(o, WithLine(o, x, line), Add(o, s, line))
  {
    WithLineByRoute(o, x, s, line);
    var route, t := Route(o, s, line), Add(o, s, line);
    if route == Alter {
      WithIndexShows(o, x, s, line);
    } else if route == Constraint {
      WithConstraintShows(o, x, s, line);
    } else {
      WithKeptShows(o, x, s, line, t.autoinc);
    }
  }

  lemma {:induction false} WithLinesShows(o: Options, lines: seq<string>)
    ensures Shows(o, WithLines(o, Opening(o), lines), Sorted(o, lines))
  {
    if lines != [] {
      WithLinesShows(o, lines[..|lines| - 1]);
      WithLineShows(o, WithLines(o, Opening(o), lines[..|lines| - 1]), Sorted(o, lines[..|lines| - 1]), lines[|lines| - 1]);
    } else {
      var s := Sorted(o, []);
      assert s.alters[..0] == [] && Flatten(s.alters) == Flatten(s.alters[..0]) + [];
      assert AlterBuffer(o, s.alters) == "" + (Header(o) + "");
    }
  }

  /** The three statements. */
  function Processed(o: Options, lines: seq<string>): Texts {
    var x := WithLines(o, Opening(o), lines);
    x.(create := WithoutLastComma(x.create), alter := Finish(x.alter), constraint := Finish(x.constraint))
  }

  /** The texts are those of the sorted lines: the lines kept, one closed ALTER for each group of index
      lines, one for the constraints; the flags tell whether there are any. */
  lemma ProcessedIsSorted(o: Options, lines: seq<string>)
    ensures var x, s := Processed(o, lines), Sorted(o, lines);
            && x.create == WithoutLastComma(Lines(s.create))
            && x.alter == AlterText(o, s.alters)
            && x.constraint == Finish(OpenAlter(o, s.constraints))
            && (x.alterPresent <==> Flatten(s.alters) != []) && (x.constraintPresent <==> s.constraints != [])
  {
    WithLinesShows(o, lines);
    BufferCloses(o, Sorted(o, lines).alters);
  }

  lemma {:induction false} KeptUnbroken(o: Options, lines: seq<string>)
    requires Unbroken(lines)
    ensures Unbroken(Sorted(o, lines).create)
  {
    if lines != [] {
      var n := |lines| - 1;
      KeptUnbroken(o, lines[..n]);
      assert !Broken(lines[n]);
    }
  }

  /** The CREATE TABLE is the lines kept, each with its line break, without the commas that the lines
      taken out have left before the closing parenthesis. */
  lemma CreateIsUndangled(o: Options, lines: seq<string>)
    requires Unbroken(lines)
    ensures Processed(o, lines).create == Lines(Undangled(Sorted(o, lines).create))
  {
    ProcessedIsSorted(o, lines);
    KeptUnbroken(o, lines);
    CommasDropped(Sorted(o, lines).create);
  }

  // ----- damaged statements

  /** The text of the ALTERs when each is closed at its end. */
  function ClosedText(o: Options, alters: seq<seq<string>>): string {
    if alters == [] then ""
    else ClosedText(o, alters[..|alters| - 1]) + Closed(OpenAlter(o, alters[|alters| - 1]))
  }

  lemma FinishShorter(s: string)
    ensures |Finish(s)| <= |Closed(s)| && (|Finish(s)| == |Closed(s)| ==> Finish(s) == Closed(s))
  {
    FinishIsClosedIff(s);
  }

  lemma SameHalves(a: string, b: string, c: string, d: string)
    requires |a| <= |c| && |b| <= |d|
    ensures a + b == c + d <==> a == c && b == d
  {
    if a + b == c + d {
      assert |a| == |c|;
      assert (a + b)[..|a|] == a && (c + d)[..|c|] == c;
      assert (a + b)[|a|..] == b && (c + d)[|c|..] == d;
    }
  }

  ghost predicate ClosesRight(o: Options, lines: seq<string>) {
    Finish(OpenAlter(o, lines)) == Closed(OpenAlter(o, lines))
  }

  ghost predicate AllCloseRight(o: Options, alters: seq<seq<string>>) {
    alters == [] || (AllCloseRight(o, alters[..|alters| - 1]) && ClosesRight(o, alters[|alters| - 1]))
  }

  lemma {:induction false} TextClosedIff(o: Options, alters: seq<seq<string>>)
    ensures |AlterText(o, alters)| <= |ClosedText(o, alters)|
    ensures AlterText(o, alters) == ClosedText(o, alters) <==> AllCloseRight(o, alters)
  {
    if alters != [] {
      var before, open := alters[..|alters| - 1], OpenAlter(o, alters[|alters| - 1]);
      TextClosedIff(o, before);
      FinishShorter(open);
      SameHalves(AlterText(o, before), Finish(open), ClosedText(o, before), Closed(open));
    }
  }

  /** A text that ends in a comma, or has none among its last four characters. */
  predicate TidyEnd(s: string) { (s != "" && s[|s| - 1] == ',') || !CommaBeforeEnd(s) }

  /** What a caller can look at: the last line of the group, or the table's name if it has no line. */
  predicate Tidy(o: Options, lines: seq<string>) {
    TidyEnd(if lines == [] then Header(o) else lines[|lines| - 1])
  }

  lemma CommaOfTail(a: string, b: string)
    requires |b| >= 4
    ensures CommaBeforeEnd(a + b) <==> CommaBeforeEnd(b)
  {
    var s := a + b;
    if CommaBeforeEnd(s) {
      var k :| 0 <= k < |s| - 1 && k > |s| - 5 && s[k] == ',';
      assert s[k] == b[k - |a|];
    }
    if CommaBeforeEnd(b) {
      var k :| 0 <= k < |b| - 1 && k > |b| - 5 && b[k] == ',';
      assert s[|a| + k] == b[k];
    }
  }

  lemma TidyEndOfTail(a: string, b: string)
    requires |b| >= 4
    ensures TidyEnd(a + b) <==> TidyEnd(b)
  {
    CommaOfTail(a, b);
    assert (a + b)[|a + b| - 1] == b[|b| - 1];
  }

  predicate LongLast(lines: seq<string>) { lines != [] ==> |lines[|lines| - 1]| >= 4 }

  lemma ClosesRightIff(o: Options, lines: seq<string>)
    requires LongLast(lines)
    ensures ClosesRight(o, lines) <==> Tidy(o, lines)
  {
    FinishIsClosedIff(OpenAlter(o, lines));
    if lines == [] {
      assert OpenAlter(o, lines) == Header(o);
    } else {
      var n := |lines| - 1;
      Associates(Header(o), AddedText(lines[..n]) + "\n ADD", lines[n]);
      TidyEndOfTail(Header(o) + (AddedText(lines[..n]) + "\n ADD"), lines[n]);
    }
  }

  lemma {:induction false} GroupsEndLong(o: Options, lines: seq<string>)
    ensures var s := Sorted(o, lines);
            (forall i :: 0 <= i < |s.alters| ==> LongLast(s.alters[i])) && LongLast(s.constraints)
  {
    if lines != [] { GroupsEndLong(o, lines[..|lines| - 1]); }
  }

  ghost predicate AllTidy(o: Options, alters: seq<seq<string>>) {
    forall i :: 0 <= i < |alters| ==> Tidy(o, alters[i])
  }

  lemma AllTidyOneMore(o: Options, alters: seq<seq<string>>)
    requires alters != []
    ensures AllTidy(o, alters) <==> AllTidy(o, alters[..|alters| - 1]) && Tidy(o, alters[|alters| - 1])
  {
    var before := alters[..|alters| - 1];
    assert forall i :: 0 <= i < |before| ==> before[i] == alters[i];
    if AllTidy(o, before) && Tidy(o, alters[|before|]) {
      forall i | 0 <= i < |alters| ensures Tidy(o, alters[i]) {
        if i < |before| { assert Tidy(o, before[i]); }
      }
    }
  }

  lemma {:induction false} AllCloseRightIff(o: Options, alters: seq<seq<string>>)
    requires forall i :: 0 <= i < |alters| ==> LongLast(alters[i])
    ensures AllCloseRight(o, alters) <==> AllTidy(o, alters)
  {
    if alters != [] {
      var n := |alters| - 1;
      assert LongLast(alters[n]);
      ClosesRightIff(o, alters[n]);
      AllTidyOneMore(o, alters);
      AllCloseRightIff(o, alters[..n]);
    }
  }

  /** The statements made of a CREATE TABLE are closed at their ends, all of them, if and only if the
      last line of each group ends in a comma or has none among its last four characters; a group
      without lines goes by the table's name. */
  lemma UndamagedIff(o: Options, lines: seq<string>)
    ensures var x, s := Processed(o, lines), Sorted(o, lines);
            x.alter == ClosedText(o, s.alters) <==> AllTidy(o, s.alters)
    ensures var x, s := Processed(o, lines), Sorted(o, lines);
            x.constraint == Closed(OpenAlter(o, s.constraints)) <==> Tidy(o, s.constraints)
  {
    ProcessedIsSorted(o, lines);
    GroupsEndLong(o, lines);
    TextClosedIff(o, Sorted(o, lines).alters);
    AllCloseRightIff(o, Sorted(o, lines).alters);
    ClosesRightIff(o, Sorted(o, lines).constraints);
  }

  const DAMAGED := ["CREATE TABLE `t` (", "  `a,` int,", "  KEY `k` (`a,`)", ") ENGINE=InnoDB"]
  const NO_INDEX: seq<seq<string>> := [[]]

  /** The third character of a line tells most lines apart from indexes and constraints. */
  lemma NeitherKind(line: string)
    requires |line| > 2 && line[2] !in {'K', 'U', 'S', 'F', 'I', 'C'}
    ensures !IsIndex(line) && !IsConstraint(line)
  {
  }

  lemma NoAutoIncrement()
    ensures !Contains("CREATE TABLE `t` (", "AUTO_INCREMENT") && !Contains("  `a,` int,", "AUTO_INCREMENT")
  {
    var line, p := "CREATE TABLE `t` (", "AUTO_INCREMENT";
    forall i: nat | i <= |line| ensures !OccursAt(line, p, i) {
      if i + |p| <= |line| {
        assert p[0] == 'A' && p[1] == 'U';
        assert line[0] == 'C' && line[1] == 'R' && line[2] == 'E' && line[4] == 'T';
        assert line[i..i + |p|][0] == line[i] && line[i..i + |p|][1] == line[i + 1];
      }
    }
  }

  lemma DamagedHead(o: Options)
    requires o == Options("t", '`', true, 0)
    ensures var s := Sorted(o, ["CREATE TABLE `t` (", "  `a,` int,"]);
            s.autoinc == None && s.alters == NO_INDEX && s.fulltext == s.inAlter == 0
  {
    var l0, l1 := "CREATE TABLE `t` (", "  `a,` int,";
    NoAutoIncrement();
    NeitherKind(l0);
    NeitherKind(l1);
    var none: seq<string> := [l0][..0];
    assert none == [] && Sorted(o, none) == Sorting([], NO_INDEX, [], None, 0, 0);
    var s1 := Sorted(o, [l0]);
    assert s1 == Add(o, Sorted(o, none), l0) && s1.autoinc == None && s1.alters == NO_INDEX;
    assert [l0, l1][..1] == [l0];
    assert Sorted(o, [l0, l1]) == Add(o, s1, l1);
  }

  lemma DamagedSorted(o: Options)
    requires o == Options("t", '`', true, 0)
    ensures Sorted(o, DAMAGED).alters == [["  KEY `k` (`a,`)"]]
  {
    var l0, l1, l2, l3 := "CREATE TABLE `t` (", "  `a,` int,", "  KEY `k` (`a,`)", ") ENGINE=InnoDB";
    DamagedHead(o);
    NeitherKind(l3);
    var s2, s3 := Sorted(o, [l0, l1]), Sorted(o, [l0, l1, l2]);
    assert [l0, l1, l2][..2] == [l0, l1] && DAMAGED[..3] == [l0, l1, l2];
    assert IsIndex(l2) by { assert l2[..5] == "  KEY"; }
    assert Route(o, s2, l2) == Alter && s3 == AddIndex(o, s2, l2);
    assert NO_INDEX[0] + [l2] == [l2];
    assert s3.alters == InLast(NO_INDEX, l2) == [[l2]];
    assert Sorted(o, DAMAGED) == Add(o, s3, l3);
  }

  /** An index on a column whose name ends in a comma: the comma of the name is overwritten. */
  lemma CommaInNameIsDamaged(o: Options)
    requires o == Options("t", '`', true, 0)
    ensures Processed(o, DAMAGED).alter == "ALTER TABLE `t` \n ADD  KEY `k` (`a;`)\n"
    ensures Processed(o, DAMAGED).alter != ClosedText(o, Sorted(o, DAMAGED).alters)
  {
    DamagedSorted(o);
    ProcessedIsSorted(o, DAMAGED);
    DamagedText(o);
    UndamagedIff(o, DAMAGED);
    var line := "  KEY `k` (`a,`)";
    assert line[|line| - 3] == ',' && CommaBeforeEnd(line);
    assert !Tidy(o, Sorted(o, DAMAGED).alters[0]);
  }

  lemma DamagedText(o: Options)
    requires o == Options("t", '`', true, 0)
    ensures AlterText(o, [["  KEY `k` (`a,`)"]]) == "ALTER TABLE `t` \n ADD  KEY `k` (`a;`)\n"
  {
    var line := "  KEY `k` (`a,`)";
    var one: seq<string> := [line];
    var alters: seq<seq<string>> := [one];
    assert one[..0] == [] && alters[..0] == [];
    assert Header(o) == "ALTER TABLE `t` ";
    assert AddedText(one) == "" + "\n ADD" + line;
    var s := "ALTER TABLE `t` \n ADD  KEY `k` (`a,`)";
    assert OpenAlter(o, one) == s;
    assert LastComma(s) == |s| - 3;
    assert Finish(s) == s[|s| - 3 := ';'] + "\n";
  }

  class Splitter {
    const o: Options
    var create: string
    var alter: string
    var constraint: string
    var alterPresent: bool
    var constraintPresent: bool
    var autoinc: Option<string>
    var fulltext: nat
    var inAlter: nat

    constructor (o: Options)
      ensures this.o == o && Value() == Opening(o)
    {
      this.o := o;
      create, alter, constraint := "", Header(o), Header(o);
      alterPresent, constraintPresent := false, false;
      autoinc, fulltext, inAlter := None, 0, 0;
    }

    ghost function Value(): Texts
      reads this
    {
      Texts(create, alter, constraint, alterPresent, constraintPresent, autoinc, fulltext, inAlter)
    }

    /** An index line that is not kept. */
    method AddToAlter(line: string)
      modifies this
      ensures Value() == WithIndex(o, old(Value()), line)
    {
      inAlter := inAlter + 1;
      alterPresent := true;
      var full := FindIn(line, "  FULLTEXT");
      if full { fulltext := fulltext + 1; }
      if fulltext > 1 {
        fulltext := 1;
        alter := Finish(alter) + Header(o);
        inAlter := 1;
      } else if o.batch > 0 && inAlter > o.batch {
        alter := Finish(alter) + Header(o);
        inAlter := 1;
      }
      alter := alter + ("\n ADD" + line);
    }

    /** One turn of the loop. */
    method AddLine(line: string)
      modifies this
      ensures Value() == WithLine(o, old(Value()), line)
    {
      if o.split && IsIndex(line) {
        var keep := false;
        if autoinc.Some? { keep := FindIn(line, autoinc.value); }
        if keep { create := create + line + "\n"; } else { AddToAlter(line); }
      } else if IsConstraint(line) {
        constraintPresent := true;
        constraint := constraint + ("\n ADD" + line);
      } else {
        var auto := FindIn(line, "AUTO_INCREMENT");
        if auto { autoinc := Some(AutoIncrementColumn(line, o.quote)); }
        create := create + line + "\n";
      }
    }

    method AddLines(lines: seq<string>)
      requires Value() == Opening(o)
      modifies this
      ensures Value() == WithLines(o, Opening(o), lines)
    {
      for i := 0 to |lines|
        invariant Value() == WithLines(o, Opening(o), lines[..i])
      {
        assert lines[..i + 1][..i] == lines[..i];
        AddLine(lines[i]);
      }
      assert lines[..|lines|] == lines;
    }

    /** global_process_create_table_statement, on the lines of the statement; the ENGINE= flag apart. */
    method Process(lines: seq<string>)
      requires Value() == Opening(o)
      modifies this
      ensures Value() == Processed(o, lines)
    {
      AddLines(lines);
      create := WithoutLastComma(create);
      alter := Finish(alter);
      constraint := Finish(constraint);
    }
  }
}

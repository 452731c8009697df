/** Row counts: each thread collects the rows of the table it is at and adds them to the table's shared
    counter now and then. */
module RowCounter {
  import opened Optional

  const Threshold := 10000

  /** local_row_count_dbt and local_row_count */
  datatype Local = Local(dbt: Option<nat>, count: nat)

  /** `rows` by table, and what each thread has collected. */
  datatype State = State(rows: seq<nat>, threads: seq<Local>)

  datatype Call = Update(i: nat, d: nat, n: nat) | Flush(i: nat)

  // ----- one call

  function Added(rows: seq<nat>, d: nat, n: nat): seq<nat> {
    if d < |rows| then rows[d := rows[d] + n] else rows
  }

  /** A thread that comes to another table gives what it has to the one it leaves. */
  function Switched(rows: seq<nat>, l: Local, d: nat): (seq<nat>, Local) {
    if l.dbt.Some? && l.dbt.value != d && l.count > 0 then (Added(rows, l.dbt.value, l.count), l.(count := 0))
    else (rows, l)
  }

  function Collected(rows: seq<nat>, l: Local, d: nat, n: nat): (seq<nat>, Local) {
    if l.count + n >= Threshold then (Added(rows, d, l.count + n), Local(Some(d), 0))
    else (rows, Local(Some(d), l.count + n))
  }

  /** update_dbt_rows_batched */
  function Updated(rows: seq<nat>, l: Local, d: nat, n: nat): (seq<nat>, Local) {
    var (rows1, l1) := Switched(rows, l, d);
    Collected(rows1, l1, d, n)
  }

  /** flush_dbt_rows */
  function Flushed(rows: seq<nat>, l: Local): (seq<nat>, Local) {
    if l.dbt.Some? && l.count > 0 then (Added(rows, l.dbt.value, l.count), Local(None, 0)) else (rows, l)
  }

  predicate Enabled(s: State, c: Call) {
    c.i < |s.threads| && (c.Update? ==> c.d < |s.rows|)
  }

  function Do(s: State, c: Call): State
    requires Enabled(s, c)
  {
    var (rows, l) :=
      match c
      case Update(i, d, n) => Updated(s.rows, s.threads[i], d, n)
      case Flush(i) => Flushed(s.rows, s.threads[i]);
    State(rows, s.threads[c.i := l])
  }

  function Run(s: State, calls: seq<Call>): Option<State>
    decreases |calls|
  {
    if calls == [] then Some(s)
    else if Enabled(s, calls[0]) then Run(Do(s, calls[0]), calls[1..])
    else None
  }

  /** The rows reported for a table. */
  function Reported(calls: seq<Call>, d: nat): nat {
    if calls == [] then 0
    else (if calls[0].Update? && calls[0].d == d then calls[0].n else 0) + Reported(calls[1..], d)
  }

  function Start(tables: nat, threads: nat): State {
    State(seq(tables, _ => 0), seq(threads, _ => Local(None, 0)))
  }

  // ----- what the threads hold back

  function Held(l: Local, d: nat): nat { if l.dbt == Some(d) then l.count else 0 }

  function AllHeld(threads: seq<Local>, d: nat): nat {
    if threads == [] then 0 else Held(threads[0], d) + AllHeld(threads[1..], d)
  }

  lemma {:induction false} AllHeldUpdate(threads: seq<Local>, i: nat, l: Local, d: nat)
    requires i < |threads|
    ensures AllHeld(threads[i := l], d) == AllHeld(threads, d) - Held(threads[i], d) + Held(l, d)
  {
    if i == 0 {
      assert threads[i := l][1..] == threads[1..];
    } else {
      assert threads[i := l][1..] == threads[1..][i - 1 := l];
      AllHeldUpdate(threads[1..], i - 1, l, d);
    }
  }

  predicate LocalOk(l: Local, tables: nat) {
    l.count < Threshold && (l.dbt.Some? ==> l.dbt.value < tables) && (l.dbt.None? ==> l.count == 0)
  }

  ghost predicate Inv(s: State) {
    forall i :: 0 <= i < |s.threads| ==> LocalOk(s.threads[i], |s.rows|)
  }

  lemma CallKeeps(s: State, c: Call, d: nat)
    requires Inv(s) && Enabled(s, c) && d < |s.rows|
    ensures var t := Do(s, c);
            && Inv(t) && |t.rows| == |s.rows| && |t.threads| == |s.threads|
            && t.rows[d] + AllHeld(t.threads, d)
               == s.rows[d] + AllHeld(s.threads, d) + (if c.Update? && c.d == d then c.n else 0)
  {
    assert LocalOk(s.threads[c.i], |s.rows|);
    AllHeldUpdate(s.threads, c.i, Do(s, c).threads[c.i], d);
  }

  lemma {:induction false} RunKeeps(s: State, calls: seq<Call>, d: nat)
    requires Inv(s) && Run(s, calls).Some? && d < |s.rows|
    ensures var t := Run(s, calls).value;
            && Inv(t) && |t.rows| == |s.rows| && |t.threads| == |s.threads|
            && t.rows[d] + AllHeld(t.threads, d) == s.rows[d] + AllHeld(s.threads, d) + Reported(calls, d)
    decreases |calls|
  {
    if calls != [] {
      CallKeeps(s, calls[0], d);
      RunKeeps(Do(s, calls[0]), calls[1..], d);
    }
  }

  // ----- the main results

  /** What a thread has collected for another table goes to that table; the rows of this one are held
      back until they are ten thousand, and then added all at once. */
  lemma BatchedByTenThousand(rows: seq<nat>, l: Local, d: nat, n: nat)
    requires d < |rows| && (l.dbt.Some? ==> l.dbt.value < |rows|) && (l.dbt.None? ==> l.count == 0)
    ensures var (rows', l') := Updated(rows, l, d, n);
            var had := if l.dbt == Some(d) then l.count else 0;
            && |rows'| == |rows| && l'.dbt == Some(d)
            && l'.count == (if had + n < 10000 then had + n else 0)
            && rows'[d] == rows[d] + (if had + n < 10000 then 0 else had + n)
            && forall e :: 0 <= e < |rows| && e != d ==>
                 rows'[e] == rows[e] + if l.dbt == Some(e) then l.count else 0
  {
  }

  lemma {:induction false} NothingHeld(threads: seq<Local>, d: nat)
    requires forall i :: 0 <= i < |threads| ==> threads[i].count == 0
    ensures AllHeld(threads, d) == 0
  {
    if threads != [] { NothingHeld(threads[1..], d); }
  }

  lemma {:induction false} HeldBelow(threads: seq<Local>, d: nat)
    requires forall i :: 0 <= i < |threads| ==> threads[i].count < Threshold
    ensures AllHeld(threads, d) <= (Threshold - 1) * |threads|
  {
    if threads != [] { HeldBelow(threads[1..], d); }
  }

  /** However the calls of the threads are mixed: no row is lost or counted twice, and the shared
      counter is behind by fewer than ten thousand rows a thread. */
  lemma RowsConserved(tables: nat, threads: nat, calls: seq<Call>, d: nat)
    requires Run(Start(tables, threads), calls).Some? && d < tables
    ensures var t := Run(Start(tables, threads), calls).value;
            && d < |t.rows| && t.rows[d] + AllHeld(t.threads, d) == Reported(calls, d)
            && AllHeld(t.threads, d) <= 9999 * threads
            && forall i :: 0 <= i < |t.threads| ==> t.threads[i].count < 10000
  {
    var s := Start(tables, threads);
    RunKeeps(s, calls, d);
    NothingHeld(s.threads, d);
    var t := Run(s, calls).value;
    assert forall i :: 0 <= i < |t.threads| ==> LocalOk(t.threads[i], |t.rows|);
    HeldBelow(t.threads, d);
  }

  /** Calls to flush_dbt_rows by the first k threads. */
  function Flushes(k: nat): seq<Call> { if k == 0 then [] else Flushes(k - 1) + [Flush(k - 1)] }

  lemma {:induction false} RunAppend(s: State, a: seq<Call>, b: seq<Call>)
    requires Run(s, a).Some?
    ensures Run(s, a + b) == Run(Run(s, a).value, b)
    decreases |a|
  {
    if a == [] {
      assert a + b == b;
    } else {
      assert (a + b)[1..] == a[1..] + b;
      RunAppend(Do(s, a[0]), a[1..], b);
    }
  }

  lemma {:induction false} FlushesEmpty(s: State, k: nat)
    requires Inv(s) && k <= |s.threads|
    ensures Run(s, Flushes(k)).Some?
    ensures var t := Run(s, Flushes(k)).value;
            && |t.threads| == |s.threads| && |t.rows| == |s.rows| && Inv(t)
            && forall i :: 0 <= i < k ==> t.threads[i].count == 0
  {
    if k > 0 {
      FlushesEmpty(s, k - 1);
      var t := Run(s, Flushes(k - 1)).value;
      RunAppend(s, Flushes(k - 1), [Flush(k - 1)]);
      assert [Flush(k - 1)][1..] == [];
      assert Run(Do(t, Flush(k - 1)), []) == Some(Do(t, Flush(k - 1)));
      assert LocalOk(t.threads[k - 1], |t.rows|);
      FlushKeeps(t, k - 1);
    }
  }

  lemma FlushKeeps(s: State, i: nat)
    requires Inv(s) && i < |s.threads|
    ensures Inv(Do(s, Flush(i))) && |Do(s, Flush(i)).rows| == |s.rows|
    ensures Do(s, Flush(i)).threads[i].count == 0
  {
    assert LocalOk(s.threads[i], |s.rows|);
  }

  lemma {:induction false} FlushesReportNothing(k: nat, d: nat)
    ensures Reported(Flushes(k), d) == 0
  {
    if k > 0 {
      FlushesReportNothing(k - 1, d);
      ReportedAppend(Flushes(k - 1), [Flush(k - 1)], d);
      assert [Flush(k - 1)][1..] == [];
    }
  }

  lemma {:induction false} ReportedAppend(a: seq<Call>, b: seq<Call>, d: nat)
    ensures Reported(a + b, d) == Reported(a, d) + Reported(b, d)
  {
    if a == [] {
      assert a + b == b;
    } else {
      assert (a + b)[1..] == a[1..] + b;
      ReportedAppend(a[1..], b, d);
    }
  }

  /** After every thread has flushed, the shared counter is exact. */
  lemma ExactAfterFlush(tables: nat, threads: nat, calls: seq<Call>, d: nat)
    requires Run(Start(tables, threads), calls).Some? && d < tables
    ensures Run(Start(tables, threads), calls + Flushes(threads)).Some?
    ensures var t := Run(Start(tables, threads), calls + Flushes(threads)).value;
            d < |t.rows| && t.rows[d] == Reported(calls, d)
  {
    var s := Start(tables, threads);
    RunKeeps(s, calls, d);
    var t := Run(s, calls).value;
    RunAppend(s, calls, Flushes(threads));
    FlushesEmpty(t, threads);
    var u := Run(t, Flushes(threads)).value;
    RowsConserved(tables, threads, calls + Flushes(threads), d);
    ReportedAppend(calls, Flushes(threads), d);
    FlushesReportNothing(threads, d);
    NothingHeld(u.threads, d);
  }

  // ----- the thread's own fields

  class Table {
    var rows: nat

    constructor ()
      ensures rows == 0
    {
      rows := 0;
    }
  }

  ghost predicate Distinct(all: seq<Table>) {
    forall i, j :: 0 <= i < j < |all| ==> all[i] != all[j]
  }

  /** The tables' counters hold these values. */
  ghost predicate Shows(all: seq<Table>, rows: seq<nat>)
    reads all`rows
  {
    |rows| == |all| && forall i :: 0 <= i < |all| ==> all[i].rows == rows[i]
  }

  /** __sync_fetch_and_add */
  method AddRows(dbt: Table, n: nat, ghost all: seq<Table>, ghost rows: seq<nat>, ghost d: nat)
    requires Distinct(all) && d < |all| && all[d] == dbt && Shows(all, rows)
    modifies dbt
    ensures Shows(all, Added(rows, d, n))
  {
    dbt.rows := dbt.rows + n;
  }

  class ThreadData {
    var localRowCountDbt: Table?
    var localRowCount: nat

    constructor ()
      ensures localRowCountDbt == null && localRowCount == 0
    {
      localRowCountDbt, localRowCount := null, 0;
    }

    /** The fields are this value, with tables known by their place among all of them. */
    ghost predicate Is(all: seq<Table>, l: Local)
      reads this
    {
      && localRowCount == l.count
      && (match l.dbt case None => localRowCountDbt == null
                      case Some(d) => d < |all| && localRowCountDbt == all[d])
    }

    method Switch(dbt: Table, ghost all: seq<Table>, ghost rows: seq<nat>, ghost d: nat, ghost l: Local)
      requires Distinct(all) && d < |all| && all[d] == dbt && Is(all, l) && Shows(all, rows)
      modifies this`localRowCount, localRowCountDbt
      ensures var (rows', l') := Switched(rows, l, d); Shows(all, rows') && Is(all, l')
    {
      if localRowCountDbt != null && localRowCountDbt != dbt {
        if localRowCount > 0 {
          AddRows(localRowCountDbt, localRowCount, all, rows, l.dbt.value);
          localRowCount := 0;
        }
      }
    }

    method Collect(dbt: Table, num_rows: nat, ghost all: seq<Table>, ghost rows: seq<nat>, ghost d: nat, ghost l: Local)
      requires Distinct(all) && d < |all| && all[d] == dbt && Is(all, l) && Shows(all, rows)
      modifies this, dbt
      ensures var (rows', l') := Collected(rows, l, d, num_rows); Shows(all, rows') && Is(all, l')
    {
      localRowCountDbt := dbt;
      localRowCount := localRowCount + num_rows;
      if localRowCount >= Threshold {
        AddRows(dbt, localRowCount, all, rows, d);
        localRowCount := 0;
      }
    }

    /** update_dbt_rows_batched */
    method UpdateDbtRowsBatched(dbt: Table, num_rows: nat, ghost all: seq<Table>, ghost rows: seq<nat>, ghost d: nat, ghost l: Local)
      requires Distinct(all) && d < |all| && all[d] == dbt && Is(all, l) && Shows(all, rows)
      modifies this, dbt, localRowCountDbt
      ensures var (rows', l') := Updated(rows, l, d, num_rows); Shows(all, rows') && Is(all, l')
    {
      ghost var (rows1, l1) := Switched(rows, l, d);
      Switch(dbt, all, rows, d, l);
      Collect(dbt, num_rows, all, rows1, d, l1);
    }

    /** flush_dbt_rows */
    method FlushDbtRows(ghost all: seq<Table>, ghost rows: seq<nat>, ghost l: Local)
      requires Distinct(all) && Is(all, l) && Shows(all, rows)
      modifies this, localRowCountDbt
      ensures var (rows', l') := Flushed(rows, l); Shows(all, rows') && Is(all, l')
    {
      if localRowCountDbt != null && localRowCount > 0 {
        AddRows(localRowCountDbt, localRowCount, all, rows, l.dbt.value);
        localRowCount := 0;
        localRowCountDbt := null;
      }
    }
  }
}

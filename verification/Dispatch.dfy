/** The choice the builder makes for one token, seen while no worker moves: tables are looked at level
    by level, where a level is the number of running threads a table may have to be served. */
module Dispatch {
  import opened Builder
  import opened Optional

  /** A table a pass at this level leaves in the list. */
  predicate Busy(table: Table, level: nat, cap: nat) {
    table.status == Defining
    || (table.status == Ready && table.kind != WholeTable && (table.running > level || table.running >= cap))
  }

  /** A table the builder drops: it could be served and get_next has nothing for it. */
  predicate Exhausted(table: Table, t: nat, cap: nat, open: set<nat>) {
    table.status == Ready && table.kind != WholeTable && table.running < cap && t !in open
  }

  ghost predicate AllBusy(tables: seq<Table>, list: seq<nat>, upto: nat, level: int, cap: nat) {
    level >= 0 ==> forall a :: 0 <= a < upto && a < |list| && list[a] < |tables| ==> Busy(tables[list[a]], level, cap)
  }

  /** No table of the list that is ready has fewer running threads. */
  ghost predicate LeastLoaded(tables: seq<Table>, list: seq<nat>, t: nat)
    requires t < |tables|
  {
    forall a :: 0 <= a < |list| && list[a] < |tables| && tables[list[a]].status == Ready ==>
      tables[t].running <= tables[list[a]].running
  }

  /** The list holds tables, once each. */
  ghost predicate ListOf(tables: seq<Table>, list: seq<nat>) {
    && (forall a :: 0 <= a < |list| ==> list[a] < |tables| && 0 <= tables[list[a]].running)
    && (forall a, b :: 0 <= a < b < |list| ==> list[a] != list[b])
  }

  /** Tables left the list because they are exhausted. */
  ghost predicate Dropped(tables: seq<Table>, was: seq<nat>, list: seq<nat>, cap: nat, open: set<nat>) {
    && (forall u :: u in list ==> u in was)
    && (forall u :: u in was && u !in list ==> u < |tables| && Exhausted(tables[u], u, cap, open))
  }

  /** The builder's choice: a table and what is to be done with it. */
  ghost predicate Chosen(tables: seq<Table>, list: seq<nat>, cap: nat, open: set<nat>, t: nat, v: Verdict) {
    && t < |tables| && t in list
    && match v
       case Define => tables[t].status == Undefined
       case Whole => tables[t].status == Ready && tables[t].kind == WholeTable
       case Serve =>
         && tables[t].status == Ready && tables[t].kind != WholeTable && t in open
         && tables[t].running < cap && LeastLoaded(tables, list, t)
       case _ => false
  }

  /** A table that has too many running threads to be served at this level. */
  predicate Waits(table: Table, level: nat, cap: nat) {
    table.status == Ready && table.kind != WholeTable && (table.running > level || table.running >= cap)
  }

  ghost predicate SomeWaits(tables: seq<Table>, list: seq<nat>, level: nat, cap: nat) {
    exists a :: 0 <= a < |list| && list[a] < |tables| && Waits(tables[list[a]], level, cap)
  }

  ghost predicate SomeDefining(tables: seq<Table>, list: seq<nat>) {
    exists a :: 0 <= a < |list| && list[a] < |tables| && tables[list[a]].status == Defining
  }

  /** A pass at this level comes to t before it comes to any other table it does not leave alone. */
  ghost predicate FirstFree(tables: seq<Table>, list: seq<nat>, t: nat, level: nat, cap: nat) {
    exists a :: 0 <= a < |list| && list[a] == t && AllBusy(tables, list, a, level, cap)
  }

  /** So does the first pass that leaves any table. */
  ghost predicate FirstOfAll(tables: seq<Table>, list: seq<nat>, t: nat, cap: nat) {
    exists level: nat :: level < cap && AllBusy(tables, list, |list|, level - 1, cap) && FirstFree(tables, list, t, level, cap)
  }

  lemma SomeOneMore(tables: seq<Table>, list: seq<nat>, pos: nat, level: nat, cap: nat)
    requires pos < |list| && list[pos] < |tables|
    ensures SomeWaits(tables, list[..pos + 1], level, cap)
       <==> SomeWaits(tables, list[..pos], level, cap) || Waits(tables[list[pos]], level, cap)
    ensures SomeDefining(tables, list[..pos + 1])
       <==> SomeDefining(tables, list[..pos]) || tables[list[pos]].status == Defining
  {
    var before, after := list[..pos], list[..pos + 1];
    assert after[pos] == list[pos] && forall a :: 0 <= a < pos ==> after[a] == before[a];
    if SomeWaits(tables, before, level, cap) {
      var a :| 0 <= a < |before| && before[a] < |tables| && Waits(tables[before[a]], level, cap);
      assert after[a] == before[a];
    }
    if SomeDefining(tables, before) {
      var a :| 0 <= a < |before| && before[a] < |tables| && tables[before[a]].status == Defining;
      assert after[a] == before[a];
    }
  }

  /** What left the list was not waiting: at a level above or at this one it could be served. */
  ghost predicate DroppedBelow(tables: seq<Table>, was: seq<nat>, list: seq<nat>, level: nat, cap: nat) {
    forall u :: u in was && u !in list ==> u < |tables| && tables[u].status == Ready && !Waits(tables[u], level, cap)
  }

  lemma WaitsBefore(tables: seq<Table>, was: seq<nat>, list: seq<nat>, level: nat, first: nat, cap: nat)
    requires (forall u :: u in list ==> u in was) && first <= level
    ensures SomeWaits(tables, list, level, cap) ==> SomeWaits(tables, was, first, cap)
    ensures SomeDefining(tables, list) ==> SomeDefining(tables, was)
  {
    if SomeWaits(tables, list, level, cap) {
      var a :| 0 <= a < |list| && list[a] < |tables| && Waits(tables[list[a]], level, cap);
      assert list[a] in was;
      var b :| 0 <= b < |was| && was[b] == list[a];
    }
    if SomeDefining(tables, list) {
      var a :| 0 <= a < |list| && list[a] < |tables| && tables[list[a]].status == Defining;
      assert list[a] in was;
      var b :| 0 <= b < |was| && was[b] == list[a];
    }
  }

  lemma WaitsStill(tables: seq<Table>, was: seq<nat>, list: seq<nat>, level: nat, cap: nat)
    requires DroppedBelow(tables, was, list, level, cap)
    ensures SomeWaits(tables, was, level, cap) ==> SomeWaits(tables, list, level, cap)
    ensures SomeDefining(tables, was) ==> SomeDefining(tables, list)
  {
    if SomeWaits(tables, was, level, cap) {
      var a :| 0 <= a < |was| && was[a] < |tables| && Waits(tables[was[a]], level, cap);
      assert was[a] in was;
      var b :| 0 <= b < |list| && list[b] == was[a];
    }
    if SomeDefining(tables, was) {
      var a :| 0 <= a < |was| && was[a] < |tables| && tables[was[a]].status == Defining;
      assert was[a] in was;
      var b :| 0 <= b < |list| && list[b] == was[a];
    }
  }

  lemma AllBusyWithout(tables: seq<Table>, list: seq<nat>, pos: nat, upto: nat, level: int, cap: nat)
    requires pos < |list| && AllBusy(tables, list, upto, level, cap) && (upto <= pos || upto == |list|)
    ensures AllBusy(tables, Without(list, pos), upto, level, cap)
  {
    assert forall a :: 0 <= a < |list| - 1 ==> Without(list, pos)[a] == list[if a < pos then a else a + 1];
  }

  /** What the passes before this one and the pass so far say of the table to be served. */
  lemma ServedIsLeastLoaded(tables: seq<Table>, list: seq<nat>, pos: nat, level: nat, cap: nat)
    requires ListOf(tables, list) && pos < |list|
    requires AllBusy(tables, list, |list|, level - 1, cap)
    requires tables[list[pos]].running <= level && tables[list[pos]].running < cap
    ensures LeastLoaded(tables, list, list[pos])
  {
    forall a | 0 <= a < |list| && tables[list[a]].status == Ready
      ensures tables[list[pos]].running <= tables[list[a]].running
    {
      if level > 0 { assert Busy(tables[list[a]], level - 1, cap); }
    }
  }

  lemma DroppedOneMore(tables: seq<Table>, was: seq<nat>, list: seq<nat>, pos: nat, cap: nat, open: set<nat>)
    requires ListOf(tables, list) && pos < |list| && Dropped(tables, was, list, cap, open)
    requires Exhausted(tables[list[pos]], list[pos], cap, open)
    ensures Dropped(tables, was, Without(list, pos), cap, open) && ListOf(tables, Without(list, pos))
  {
    forall u ensures u in Without(list, pos) <==> u in list && u != list[pos] {
      if u in list { WithoutIn(list, pos, u); }
    }
  }

  /** A pass has come to place iter, from a list to what is left of it. */
  ghost predicate Passing(all: seq<Table>, was: seq<nat>, list: seq<nat>, iter: nat, level: nat, cap: nat, open: set<nat>) {
    && iter <= |list| && ListOf(all, list) && Dropped(all, was, list, cap, open) && DroppedBelow(all, was, list, level, cap)
    && AllBusy(all, list, |list|, level - 1, cap) && AllBusy(all, list, iter, level, cap)
  }

  /** And takes the table there. */
  ghost predicate Taken(all: seq<Table>, list: seq<nat>, iter: nat, level: nat, cap: nat, open: set<nat>, t: nat, v: Verdict) {
    iter < |list| && list[iter] == t && Chosen(all, list, cap, open, t, v)
  }

  lemma PassKeeps(all: seq<Table>, was: seq<nat>, list: seq<nat>, iter: nat, level: nat, cap: nat, open: set<nat>)
    requires Passing(all, was, list, iter, level, cap, open) && iter < |list|
    requires Look(Config(0, cap, false), all[list[iter]], level, list[iter] in open) == Pass
    ensures Passing(all, was, list, iter + 1, level, cap, open)
    ensures var defining := all[list[iter]].status == Defining;
            && (SomeWaits(all, list[..iter + 1], level, cap) <==> SomeWaits(all, list[..iter], level, cap) || !defining)
            && (SomeDefining(all, list[..iter + 1]) <==> SomeDefining(all, list[..iter]) || defining)
  {
    SomeOneMore(all, list, iter, level, cap);
  }

  lemma TakeKeeps(all: seq<Table>, was: seq<nat>, list: seq<nat>, iter: nat, level: nat, cap: nat, open: set<nat>)
    requires Passing(all, was, list, iter, level, cap, open) && iter < |list|
    requires Look(Config(0, cap, false), all[list[iter]], level, list[iter] in open) in {Define, Whole, Serve}
    ensures Taken(all, list, iter, level, cap, open, list[iter], Look(Config(0, cap, false), all[list[iter]], level, list[iter] in open))
  {
    if all[list[iter]].running <= level && all[list[iter]].running < cap { ServedIsLeastLoaded(all, list, iter, level, cap); }
  }

  lemma DropKeeps(all: seq<Table>, was: seq<nat>, list: seq<nat>, iter: nat, level: nat, cap: nat, open: set<nat>)
    requires Passing(all, was, list, iter, level, cap, open) && iter < |list|
    requires Look(Config(0, cap, false), all[list[iter]], level, list[iter] in open) == Drop
    ensures Passing(all, was, Without(list, iter), iter, level, cap, open) && Without(list, iter)[..iter] == list[..iter]
  {
    DroppedOneMore(all, was, list, iter, cap, open);
    AllBusyWithout(all, list, iter, |list|, level - 1, cap);
    AllBusyWithout(all, list, iter, iter, level, cap);
    DroppedBelowOneMore(all, was, list, iter, level, cap);
  }

  /** What the part passed over says of the list there was. */
  lemma PassedAll(all: seq<Table>, was: seq<nat>, list: seq<nat>, iter: nat, level: nat, cap: nat, open: set<nat>)
    requires Passing(all, was, list, iter, level, cap, open)
    ensures SomeWaits(all, list[..iter], level, cap) ==> SomeWaits(all, was, level, cap)
    ensures SomeDefining(all, list[..iter]) ==> SomeDefining(all, was)
    ensures iter == |list| ==>
              && (SomeWaits(all, was, level, cap) ==> SomeWaits(all, list[..iter], level, cap))
              && (SomeDefining(all, was) ==> SomeDefining(all, list[..iter]))
    ensures !SomeWaits(all, list[..iter], level, cap) && !SomeDefining(all, list[..iter]) ==> iter == 0
  {
    WaitsBefore(all, was, list[..iter], level, level, cap);
    if iter == |list| {
      assert list[..iter] == list;
      WaitsStill(all, was, list, level, cap);
    }
    if iter > 0 {
      assert list[..iter][0] == list[0];
      assert Busy(all[list[0]], level, cap);
    }
  }

  lemma DroppedBelowOneMore(tables: seq<Table>, was: seq<nat>, list: seq<nat>, pos: nat, level: nat, cap: nat)
    requires ListOf(tables, list) && pos < |list| && DroppedBelow(tables, was, list, level, cap)
    requires tables[list[pos]].status == Ready && !Waits(tables[list[pos]], level, cap)
    ensures DroppedBelow(tables, was, Without(list, pos), level, cap) && Without(list, pos)[..pos] == list[..pos]
  {
    forall u ensures u in Without(list, pos) <==> u in list && u != list[pos] {
      if u in list { WithoutIn(list, pos, u); }
    }
  }

  class TableList {
    var tables: array<Table>
    var list: seq<nat>
    const cap: nat                      // max_threads_per_table

    constructor (tables: array<Table>, list: seq<nat>, cap: nat)
      ensures this.tables == tables && this.list == list && this.cap == cap
    {
      this.tables, this.list, this.cap := tables, list, cap;
    }

    /** One pass over the list, until a table is chosen. */
    method Scan(level: nat, open: set<nat>) returns (chosen: Option<nat>, verdict: Verdict, defining: bool, reached: bool)
      requires level < cap && ListOf(tables[..], list) && AllBusy(tables[..], list, |list|, level - 1, cap)
      modifies this`list
      ensures ListOf(tables[..], list) && Dropped(tables[..], old(list), list, cap, open)
      ensures chosen.Some? ==> Chosen(tables[..], list, cap, open, chosen.value, verdict)
      ensures chosen.None? ==> AllBusy(tables[..], list, |list|, level, cap)
      ensures chosen.Some? ==> FirstFree(tables[..], list, chosen.value, level, cap)
      ensures chosen.None? && !defining && !reached ==> list == []
      ensures reached ==> SomeWaits(tables[..], old(list), level, cap)
      ensures defining ==> SomeDefining(tables[..], old(list)) || (chosen.Some? && verdict == Define)
      ensures chosen.None? ==> (reached <==> SomeWaits(tables[..], old(list), level, cap))
      ensures chosen.None? ==> (defining <==> SomeDefining(tables[..], old(list)))
    {
      chosen, verdict, defining, reached := None, Pass, false, false;
      ghost var all, was := tables[..], list;
      var iter := 0;
      while iter < |list| && chosen.None?
        invariant 0 <= iter <= |list| && tables[..] == all
        invariant Passing(all, was, list, iter, level, cap, open)
        invariant chosen.Some? ==> Taken(all, list, iter, level, cap, open, chosen.value, verdict)
        invariant reached <==> SomeWaits(all, list[..iter], level, cap)
        invariant defining <==> SomeDefining(all, list[..iter]) || (chosen.Some? && verdict == Define)
        decreases |list| - iter, chosen.None?
      {
        var t := list[iter];
        verdict := Look(Config(0, cap, false), tables[t], level, t in open);
        if verdict == Pass {
          PassKeeps(all, was, list, iter, level, cap, open);
          if tables[t].status == Defining { defining := true; } else { reached := true; }
          iter := iter + 1;
        } else if verdict == Drop {
          DropKeeps(all, was, list, iter, level, cap, open);
          list := Without(list, iter);
        } else {
          defining := defining || verdict == Define;
          chosen := Some(t);
          TakeKeeps(all, was, list, iter, level, cap, open);
        }
      }
      PassedAll(all, was, list, iter, level, cap, open);
    }

    /** get_next_dbt_and_chunk_step_item. `open` are the tables get_next has a chunk for. */
    method GetNext(open: set<nat>) returns (chosen: Option<nat>, verdict: Verdict, defining: bool, reached: bool)
      requires ListOf(tables[..], list)
      modifies this`list, tables
      ensures chosen.Some? ==>
                exists left :: Dropped(old(tables[..]), old(list), left, cap, open)
                  && Chosen(old(tables[..]), left, cap, open, chosen.value, verdict)
                  && FirstOfAll(old(tables[..]), left, chosen.value, cap)
                  && tables[..] == old(tables[..])[chosen.value := Judged(old(tables[..])[chosen.value], verdict)]
                  && (forall u :: u in list <==> u in left && (verdict == Whole ==> u != chosen.value))
      ensures chosen.None? ==> tables[..] == old(tables[..]) && Dropped(tables[..], old(list), list, cap, open)
      ensures chosen.None? && 0 < cap ==>
                forall a :: 0 <= a < |list| ==> list[a] < tables.Length && Busy(tables[list[a]], cap - 1, cap)
      ensures chosen.None? && 0 < cap && !defining && !reached ==> list == []
      ensures reached ==> SomeWaits(old(tables[..]), old(list), 0, cap)
      ensures defining ==> SomeDefining(old(tables[..]), old(list)) || (chosen.Some? && verdict == Define)
      ensures chosen.None? && 0 < cap ==> (reached <==> SomeWaits(old(tables[..]), old(list), 0, cap))
      ensures chosen.None? && 0 < cap ==> (defining <==> SomeDefining(old(tables[..]), old(list)))
    {
      chosen, verdict, defining, reached := None, Pass, false, false;
      var level := 0;
      while level < cap && chosen.None?
        invariant 0 <= level <= cap
        invariant tables == old(tables) && tables[..] == old(tables[..]) && ListOf(tables[..], list)
        invariant Dropped(tables[..], old(list), list, cap, open)
        invariant chosen.Some? ==> Chosen(tables[..], list, cap, open, chosen.value, verdict)
        invariant chosen.None? ==> AllBusy(tables[..], list, |list|, level - 1, cap)
        invariant chosen.Some? ==> FirstOfAll(tables[..], list, chosen.value, cap)
        invariant chosen.None? && 0 < level && !defining && !reached ==> list == []
        invariant reached ==> SomeWaits(tables[..], old(list), 0, cap)
        invariant defining ==> SomeDefining(tables[..], old(list)) || (chosen.Some? && verdict == Define)
        invariant chosen.None? && 0 < level ==> (reached <==> SomeWaits(tables[..], old(list), 0, cap))
        invariant chosen.None? && 0 < level ==> (defining <==> SomeDefining(tables[..], old(list)))
        invariant level == 0 ==> list == old(list) && !defining && !reached
      {
        var d, r;
        WaitsBefore(tables[..], old(list), list, level, 0, cap);
        chosen, verdict, d, r := Scan(level, open);
        defining, reached := defining || d, reached || r;
        level := level + 1;
      }
      if chosen.Some? {
        ghost var left := list;
        assert Dropped(old(tables[..]), old(list), left, cap, open);
        Settle(chosen.value, verdict);
      }
    }

    /** What becomes of the table chosen. */
    method Settle(t: nat, verdict: Verdict)
      requires ListOf(tables[..], list) && t in list
      modifies this`list, tables
      ensures tables[..] == old(tables[..])[t := Judged(old(tables[..])[t], verdict)]
      ensures forall u :: u in list <==> u in old(list) && (verdict == Whole ==> u != t)
    {
      tables[t] := Judged(tables[t], verdict);
      if verdict == Whole {
        Remove(t);
      }
    }

    /** g_list_remove. */
    method Remove(t: nat)
      requires t in list && forall a, b :: 0 <= a < b < |list| ==> list[a] != list[b]
      modifies this`list
      ensures forall u :: u in list <==> u in old(list) && u != t
    {
      var pos := 0;
      while list[pos] != t
        invariant pos < |list| && t !in list[..pos]
        decreases |list| - pos
      {
        pos := pos + 1;
      }
      forall u ensures u in Without(list, pos) <==> u in list && u != t {
        if u in list { WithoutIn(list, pos, u); }
      }
      list := Without(list, pos);
    }
  }
}

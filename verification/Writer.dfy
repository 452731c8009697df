/** Rows become statements, statements become files: the buffered loop that writes a result set. */
module Writer {

  datatype Format = SqlInsert | ClickHouse | LoadData | Csv

  predicate Inserting(f: Format) { f == SqlInsert || f == ClickHouse }

  function Delimiter(f: Format): string { if Inserting(f) then "," else "" }

  /** Rows with the delimiter between them. */
  function Joined(f: Format, rows: seq<string>): string {
    if rows == [] then ""
    else if |rows| == 1 then rows[0]
    else Joined(f, rows[..|rows| - 1]) + Delimiter(f) + rows[|rows| - 1]
  }

  function Flatten<T>(s: seq<seq<T>>): seq<T> {
    if s == [] then [] else Flatten(s[..|s| - 1]) + s[|s| - 1]
  }

  function Size(statements: seq<string>): nat {
    if statements == [] then 0 else Size(statements[..|statements| - 1]) + |statements[|statements| - 1]|
  }

  lemma JoinedOneMore(f: Format, rows: seq<string>, row: string)
    ensures Joined(f, rows + [row]) == if rows == [] then row else Joined(f, rows) + Delimiter(f) + row
  {
    if rows != [] { assert (rows + [row])[..|rows|] == rows; }
  }

  lemma FlattenOneMore<T>(s: seq<seq<T>>, x: seq<T>)
    ensures Flatten(s + [x]) == Flatten(s) + x
  {
    assert (s + [x])[..|s|] == s;
  }

  /** One more element in the last part. */
  lemma FlattenLast<T>(s: seq<seq<T>>, x: T)
    requires s != []
    ensures Flatten(s[|s| - 1 := s[|s| - 1] + [x]]) == Flatten(s) + [x]
  {
    var t := s[|s| - 1 := s[|s| - 1] + [x]];
    assert t[..|t| - 1] == s[..|s| - 1];
  }

  lemma SizeOneMore(s: seq<string>, x: string)
    ensures Size(s + [x]) == Size(s) + |x|
  {
    assert (s + [x])[..|s|] == s;
  }

  lemma Regroup<T>(a: seq<T>, b: seq<T>, c: seq<T>)
    ensures a + b + c == a + (b + c)
  {
  }

  lemma {:induction false} JoinedOfBoth(f: Format, a: seq<string>, b: seq<string>)
    requires a != [] && b != []
    ensures Joined(f, a + b) == Joined(f, a) + (Delimiter(f) + Joined(f, b))
  {
    var n := |b| - 1;
    var c, x := b[..n], b[n];
    assert a + b == (a + c) + [x];
    JoinedOneMore(f, a + c, x);
    if n > 0 {
      JoinedOfBoth(f, a, c);
      Regroup(Joined(f, a), Delimiter(f) + Joined(f, c), Delimiter(f) + x);
      Regroup(Delimiter(f), Joined(f, c), Delimiter(f) + x);
      Regroup(Joined(f, a + c), Delimiter(f), x);
      Regroup(Joined(f, c), Delimiter(f), x);
    } else {
      assert a + c == a;
      Regroup(Joined(f, a), Delimiter(f), x);
    }
  }

  /** Between rows, and between runs of rows, stands a comma in the formats that insert, and nothing in
      the others. */
  lemma JoinedInParts(f: Format, a: seq<string>, b: seq<string>)
    requires a != [] && b != []
    ensures match f
            case SqlInsert => Joined(f, a + b) == Joined(f, a) + ("," + Joined(f, b))
            case ClickHouse => Joined(f, a + b) == Joined(f, a) + ("," + Joined(f, b))
            case LoadData => Joined(f, a + b) == Joined(f, a) + Joined(f, b)
            case Csv => Joined(f, a + b) == Joined(f, a) + Joined(f, b)
  {
    JoinedOfBoth(f, a, b);
  }

  const MB := 0x10_0000

  /** What a job writes with: the options, the file header and the INSERT of its table. */
  datatype Style = Style(
    format: Format, header: string, insert: string, terminator: string,
    statementSize: nat, chunkFilesize: nat)
  {
    function Prefix(): string { if Inserting(format) then insert else "" }

    /** A statement without its terminator. */
    function Body(headed: bool, rows: seq<string>): string {
      (if headed then header else "") + Prefix() + Joined(format, rows)
    }

    /** Only a statement that inserts needs its terminator at the end of a result. */
    predicate Ends(text: string, headed: bool, rows: seq<string>) {
      text == Body(headed, rows) + terminator || (!Inserting(format) && text == Body(headed, rows))
    }

    /** Statement number i of a file holds these rows: at least one, and several only if they fit;
        the header of an SQL file comes with its first statement and with no other. */
    predicate Holds(text: string, i: nat, rows: seq<string>) {
      && rows != []
      && exists headed ::
           && Ends(text, headed, rows)
           && (headed ==> i == 0 && Inserting(format)) && (format == SqlInsert && i == 0 ==> headed)
           && (2 <= |rows| ==> |Body(headed, rows)| <= statementSize)
    }

    /** The file is longer than chunk_filesize megabytes, if there is such a limit. */
    predicate Over(filesize: nat) { chunkFilesize != 0 && filesize > chunkFilesize * MB }
  }

  /** That is, the megabytes begun, of 1024 times 1024 bytes, are more than chunk_filesize. */
  lemma OverIsCeiling(y: Style, filesize: nat)
    ensures y.Over(filesize) <==> y.chunkFilesize != 0 && (filesize + 1048575) / 1048576 > y.chunkFilesize
  {
  }

  /** What a statement that holds rows reads: the header if it is the first of an SQL file, the INSERT, the
      rows, the terminator; in the formats that do not insert, the rows alone. */
  lemma StatementReads(y: Style, text: string, i: nat, rows: seq<string>)
    requires y.Holds(text, i, rows)
    ensures var joined := Joined(y.format, rows);
            match y.format
            case SqlInsert => text == (if i == 0 then y.header else "") + y.insert + joined + y.terminator
            case ClickHouse =>
              text == y.insert + joined + y.terminator || (i == 0 && text == y.header + y.insert + joined + y.terminator)
            case LoadData => text == joined || text == joined + y.terminator
            case Csv => text == joined || text == joined + y.terminator
  {
    var headed :| y.Ends(text, headed, rows) && (headed ==> i == 0 && Inserting(y.format))
                  && (y.format == SqlInsert && i == 0 ==> headed);
    var joined := Joined(y.format, rows);
    assert "" + y.insert == y.insert && "" + "" + joined == joined;
  }

  /** The statement buffer holds these rows and nothing else; so far the file has n statements. */
  predicate Buffers(y: Style, text: string, headed: bool, rows: seq<string>, n: nat) {
    && text == y.Body(headed, rows)
    && (headed ==> n == 0 && Inserting(y.format)) && (y.format == SqlInsert && n == 0 ==> headed)
    && (2 <= |rows| ==> |text| <= y.statementSize)
  }

  lemma BodyEmpty(y: Style)
    ensures y.Body(false, []) == y.Prefix() == "" + y.Prefix()
    ensures y.Body(true, []) == y.header + y.Prefix()
  {
  }

  lemma BodyOneMore(y: Style, headed: bool, rows: seq<string>, row: string)
    ensures y.Body(headed, rows + [row])
         == if rows == [] then y.Body(headed, rows) + row else y.Body(headed, rows) + Delimiter(y.format) + row
  {
    JoinedOneMore(y.format, rows, row);
    var front := (if headed then y.header else "") + y.Prefix();
    assert front + "" == front;
    if rows != [] {
      assert front + (Joined(y.format, rows) + Delimiter(y.format) + row)
          == front + Joined(y.format, rows) + Delimiter(y.format) + row;
    }
  }

  /** What the buffer holds is a statement once it is terminated. */
  lemma BufferedHolds(y: Style, text: string, headed: bool, rows: seq<string>, n: nat)
    requires Buffers(y, text, headed, rows, n) && rows != []
    ensures y.Holds(text + y.terminator, n, rows)
    ensures !Inserting(y.format) ==> y.Holds(text, n, rows)
  {
    assert y.Ends(text + y.terminator, headed, rows);
    assert !Inserting(y.format) ==> y.Ends(text, headed, rows);
  }

  ghost predicate FileHolds(y: Style, file: seq<string>, groups: seq<seq<string>>) {
    |file| == |groups| && forall i :: 0 <= i < |file| ==> y.Holds(file[i], i, groups[i])
  }

  lemma FileHoldsMore(y: Style, file: seq<string>, groups: seq<seq<string>>, text: string, rows: seq<string>)
    requires FileHolds(y, file, groups) && y.Holds(text, |file|, rows)
    ensures FileHolds(y, file + [text], groups + [rows])
  {
    forall i | 0 <= i < |file| + 1 ensures y.Holds((file + [text])[i], i, (groups + [rows])[i]) {
      if i < |file| { assert (file + [text])[i] == file[i] && (groups + [rows])[i] == groups[i]; }
    }
  }

  ghost predicate FilesHold(y: Style, files: seq<seq<string>>, groups: seq<seq<seq<string>>>) {
    |files| == |groups| && forall f :: 0 <= f < |files| ==> FileHolds(y, files[f], groups[f])
  }

  function WithLast<T>(s: seq<seq<T>>, x: T): seq<seq<T>>
    requires s != []
  {
    s[|s| - 1 := s[|s| - 1] + [x]]
  }

  lemma FilesHoldMore(y: Style, files: seq<seq<string>>, groups: seq<seq<seq<string>>>, text: string, rows: seq<string>)
    requires FilesHold(y, files, groups) && files != []
    requires y.Holds(text, |files[|files| - 1]|, rows)
    ensures FilesHold(y, WithLast(files, text), WithLast(groups, rows))
    ensures Size(WithLast(files, text)[|files| - 1]) == Size(files[|files| - 1]) + |text|
    ensures Flatten(Flatten(WithLast(groups, rows))) == Flatten(Flatten(groups)) + rows
  {
    var last := |files| - 1;
    FileHoldsMore(y, files[last], groups[last], text, rows);
    SizeOneMore(files[last], text);
    FlattenLast(groups, rows);
    FlattenOneMore(Flatten(groups), rows);
  }

  // ----- what the writer does

  /** The fields of a table_job and its thread's buffers that the writer changes. `files` are the
      statements written to each file; the last one is open, or none is. */
  datatype Job = Job(
    statement: string, row: string, files: seq<seq<string>>, open: bool,
    filesize: nat, stInFile: nat, subPart: nat, numRowsOfLastRun: nat, rowsReported: nat)

  /** The loop of write_result_into_file: numRows are the rows not yet reported, numRowsSt those in
      the statement. */
  datatype Loop = Loop(job: Job, numRows: nat, numRowsSt: nat)

  function Opened(j: Job): Job {
    if j.open then j else j.(files := j.files + [[]], open := true)
  }

  function Closed(j: Job): Job {
    j.(open := false, filesize := 0, stInFile := 0, numRowsOfLastRun := 0)
  }

  /** write_statement: the buffer goes to the file and is empty then. */
  function Written(j: Job): Job
    requires j.files != []
  {
    j.(files := WithLast(j.files, j.statement), filesize := j.filesize + |j.statement|, statement := "")
  }

  function Start(y: Style, j: Job): (l: Loop)
    requires j.open ==> j.files != []
    ensures l.job.files != []
  {
    var o := Opened(j.(statement := "", row := ""));
    Loop(o.(statement := (if Inserting(y.format) && o.stInFile == 0 then y.header else "") + y.Prefix()), 0, 0)
  }

  /** How the statement in the buffer begins: a result in an inserting format with the INSERT, behind the
      header if the open file has no statement yet; another file with a header of its own in SQL only. */
  lemma StatementsBegin(y: Style, j: Job)
    requires j.open ==> j.files != []
    ensures var header := if j.stInFile == 0 then y.header else "";
            Start(y, j).job.statement == match y.format
                                         case SqlInsert => header + y.insert
                                         case ClickHouse => header + y.insert
                                         case LoadData => ""
                                         case Csv => ""
    ensures Rotated(y, j).statement == match y.format
                                       case SqlInsert => y.header + y.insert
                                       case ClickHouse => j.statement
                                       case LoadData => j.statement
                                       case Csv => j.statement
  {
  }

  predicate Full(y: Style, j: Job) { |j.statement| + |j.row| + 1 > y.statementSize }

  /** The row in hand does not fit: the statement is written, with the row if it holds no other. */
  function Flushed(y: Style, l: Loop): Loop
    requires l.job.files != []
  {
    var j := if l.numRowsSt == 0 then l.job.(statement := l.job.statement + l.job.row, row := "") else l.job;
    var w := Written(j.(statement := j.statement + y.terminator));
    Loop(w.(rowsReported := w.rowsReported + l.numRows, numRowsOfLastRun := w.numRowsOfLastRun + l.numRows,
            stInFile := w.stInFile + 1, statement := y.Prefix()),
         0, 0)
  }

  /** reopen_files, and for SQL the start of the new file's first statement. */
  function Rotated(y: Style, j: Job): Job {
    var o := Opened(Closed(j.(subPart := j.subPart + 1)));
    if y.format == SqlInsert then o.(statement := y.header + y.insert) else o
  }

  function Appended(y: Style, l: Loop): Loop {
    var delimiter := if l.numRowsSt > 0 then Delimiter(y.format) else "";
    Loop(l.job.(statement := l.job.statement + delimiter + l.job.row, row := ""),
         l.numRows, if l.job.row != "" then l.numRowsSt + 1 else l.numRowsSt)
  }

  function Fetch(l: Loop, r: string): Loop { Loop(l.job.(row := r), l.numRows + 1, l.numRowsSt) }

  function FlushedIfFull(y: Style, l: Loop): Loop
    requires l.job.files != []
  {
    if Full(y, l.job) then Flushed(y, l) else l
  }

  function RotatedIfOver(y: Style, l: Loop): Loop {
    if y.Over(l.job.filesize) then l.(job := Rotated(y, l.job)) else l
  }

  /** One turn of the loop. */
  function Turn(y: Style, l: Loop, r: string): (m: Loop)
    requires l.job.files != []
    ensures m.job.files != []
  {
    Appended(y, RotatedIfOver(y, FlushedIfFull(y, Fetch(l, r))))
  }

  function Turns(y: Style, l: Loop, rows: seq<string>): (m: Loop)
    requires l.job.files != []
    ensures m.job.files != []
  {
    if rows == [] then l else Turn(y, Turns(y, l, rows[..|rows| - 1]), rows[|rows| - 1])
  }

  function Finished(y: Style, l: Loop): Job
    requires l.job.files != []
  {
    var j := l.job.(rowsReported := l.job.rowsReported + l.numRows,
                    numRowsOfLastRun := l.job.numRowsOfLastRun + l.numRows);
    if l.numRowsSt > 0 && j.statement != "" then
      var w := Written(if Inserting(y.format) then j.(statement := j.statement + y.terminator) else j);
      w.(stInFile := w.stInFile + 1)
    else j
  }

  function WriteResult(y: Style, j: Job, rows: seq<string>): (w: Job)
    requires j.open ==> j.files != []
    ensures w.files != []
  {
    Finished(y, Turns(y, Start(y, j), rows))
  }

  // ----- how the files grow

  /** What was written stays; a file is left for the next one only when it is over the limit. `first`
      is the file that was open, or the first new one. */
  ghost predicate Grown(y: Style, was: seq<seq<string>>, first: int, now: seq<seq<string>>) {
    && 0 <= first <= |was| <= first + 1 && |was| <= |now|
    && (forall f :: 0 <= f < first ==> now[f] == was[f])
    && (first < |was| ==> was[first] <= now[first])
    && (forall f :: first <= f < |now| - 1 ==> y.Over(Size(now[f])))
  }

  lemma GrownTwice(y: Style, was: seq<seq<string>>, first: int, midway: seq<seq<string>>, now: seq<seq<string>>)
    requires first < |midway| && Grown(y, was, first, midway) && Grown(y, midway, |midway| - 1, now)
    ensures Grown(y, was, first, now)
  {
    forall f | first <= f < |now| - 1 ensures y.Over(Size(now[f])) {
      if f < |midway| - 1 { assert now[f] == midway[f]; }
    }
  }

  // ----- which rows are in which statement

  /** The rows in each statement of each file, the rows in the buffer, and whether it has the header. */
  datatype Ledger = Ledger(groups: seq<seq<seq<string>>>, pending: seq<string>, headed: bool)

  /** All rows of the files, in the order of files and statements. */
  function Rows(groups: seq<seq<seq<string>>>): seq<string> { Flatten(Flatten(groups)) }

  ghost predicate JobOk(y: Style, j: Job, groups: seq<seq<seq<string>>>) {
    && FilesHold(y, j.files, groups)
    && (if j.open then j.files != [] && j.filesize == Size(j.files[|j.files| - 1]) && j.stInFile == |j.files[|j.files| - 1]|
        else j.filesize == j.stInFile == 0)
  }

  ghost predicate LoopOk(y: Style, l: Loop, d: Ledger) {
    && JobOk(y, l.job, d.groups) && l.job.open && l.numRowsSt == |d.pending|
    && Buffers(y, l.job.statement, d.headed, d.pending, l.job.stInFile)
    && (d.pending != [] ==> l.job.statement != "" && !y.Over(l.job.filesize))
  }

  function InHand(row: string): seq<string> { if row == "" then [] else [row] }

  /** The rows so far: written, in the buffer, in hand. */
  function Fetched(l: Loop, d: Ledger): seq<string> { Rows(d.groups) + d.pending + InHand(l.job.row) }

  lemma OpenedOk(y: Style, j: Job, groups: seq<seq<seq<string>>>) returns (g: seq<seq<seq<string>>>)
    requires JobOk(y, j, groups)
    ensures JobOk(y, Opened(j), g) && Rows(g) == Rows(groups)
  {
    g := groups;
    if !j.open {
      FlattenOneMore(groups, []);
      assert Flatten(groups + [[]]) == Flatten(groups);
      g := groups + [[]];
    }
  }

  lemma WrittenOk(y: Style, j: Job, groups: seq<seq<seq<string>>>, rows: seq<string>)
    requires JobOk(y, j, groups) && j.open && y.Holds(j.statement, j.stInFile, rows)
    ensures groups != [] && Rows(WithLast(groups, rows)) == Rows(groups) + rows
    ensures var w := Written(j); JobOk(y, w.(stInFile := w.stInFile + 1), WithLast(groups, rows))
    ensures Grown(y, j.files, |j.files| - 1, Written(j).files)
  {
    FilesHoldMore(y, j.files, groups, j.statement, rows);
  }

  lemma FetchedFlushed(all: seq<string>, pending: seq<string>, row: string)
    requires row != ""
    ensures pending == [] ==> all + [row] + [] + InHand("") == all + pending + InHand(row)
    ensures all + pending + [] + InHand(row) == all + pending + InHand(row)
  {
  }

  /** What a flush writes: the buffered rows, or the row in hand if there are none. */
  function Emitted(l: Loop, d: Ledger): seq<string> {
    if l.numRowsSt == 0 then [l.job.row] else d.pending
  }

  lemma EmittedHolds(y: Style, l: Loop, d: Ledger)
    requires Buffers(y, l.job.statement, d.headed, d.pending, l.job.stInFile) && l.numRowsSt == |d.pending|
    ensures var text := if l.numRowsSt == 0 then l.job.statement + l.job.row else l.job.statement;
            y.Holds(text + y.terminator, l.job.stInFile, Emitted(l, d))
  {
    BodyOneMore(y, d.headed, d.pending, l.job.row);
    assert l.numRowsSt == 0 ==> d.pending + [l.job.row] == [l.job.row];
    var text := if l.numRowsSt == 0 then l.job.statement + l.job.row else l.job.statement;
    BufferedHolds(y, text, d.headed, Emitted(l, d), l.job.stInFile);
  }

  /** The job as it goes into a flush: a row that stands alone is put in the statement. */
  function ToWrite(y: Style, l: Loop): Job {
    var j := if l.numRowsSt == 0 then l.job.(statement := l.job.statement + l.job.row, row := "") else l.job;
    j.(statement := j.statement + y.terminator)
  }

  lemma FlushedJobOk(y: Style, l: Loop, d: Ledger)
    requires LoopOk(y, l, d)
    ensures var m, g := Flushed(y, l), WithLast(d.groups, Emitted(l, d));
            JobOk(y, m.job, g) && m.job.open && Rows(g) == Rows(d.groups) + Emitted(l, d)
  {
    EmittedHolds(y, l, d);
    assert JobOk(y, ToWrite(y, l), d.groups);
    WrittenOk(y, ToWrite(y, l), d.groups, Emitted(l, d));
  }

  lemma FlushedOk(y: Style, l: Loop, d: Ledger) returns (e: Ledger)
    requires LoopOk(y, l, d) && l.job.row != ""
    ensures var m := Flushed(y, l);
            && LoopOk(y, m, e) && e.pending == [] && Fetched(m, e) == Fetched(l, d)
            && (m.job.row != "" ==> m.job.row == l.job.row)
  {
    e := Ledger(WithLast(d.groups, Emitted(l, d)), [], false);
    FlushedJobOk(y, l, d);
    BodyEmpty(y);
    FetchedFlushed(Rows(d.groups), d.pending, l.job.row);
  }

  lemma RotatedOk(y: Style, l: Loop, d: Ledger) returns (e: Ledger)
    requires LoopOk(y, l, d) && y.Over(l.job.filesize)
    ensures var m := l.(job := Rotated(y, l.job));
            && LoopOk(y, m, e) && e.pending == [] && Fetched(m, e) == Fetched(l, d)
            && !y.Over(m.job.filesize) && m.job.row == l.job.row
  {
    var g := OpenedOk(y, Closed(l.job.(subPart := l.job.subPart + 1)), d.groups);
    BodyEmpty(y);
    e := Ledger(g, [], y.format == SqlInsert || d.headed);
  }

  lemma NothingAppended(s: string)
    ensures s + "" == s
  {
  }

  lemma AppendedText(y: Style, l: Loop, d: Ledger)
    requires l.job.statement == y.Body(d.headed, d.pending) && l.numRowsSt == |d.pending|
    requires d.pending != [] ==> l.job.row != ""
    ensures Appended(y, l).job.statement == y.Body(d.headed, d.pending + InHand(l.job.row))
  {
    NothingAppended(l.job.statement);
    if l.job.row == "" {
      assert d.pending + InHand("") == d.pending;
    } else {
      BodyOneMore(y, d.headed, d.pending, l.job.row);
    }
  }

  lemma AppendedBuffers(y: Style, l: Loop, d: Ledger)
    requires Buffers(y, l.job.statement, d.headed, d.pending, l.job.stInFile) && l.numRowsSt == |d.pending|
    requires d.pending != [] ==> l.job.row != "" && !Full(y, l.job)
    ensures var m := Appended(y, l); var held := d.pending + InHand(l.job.row);
            && Buffers(y, m.job.statement, d.headed, held, m.job.stInFile) && m.numRowsSt == |held|
            && (held != [] ==> m.job.statement != "")
  {
    AppendedText(y, l, d);
  }

  /** The buffers are no part of what the files hold. */
  lemma AppendedJobOk(y: Style, l: Loop, groups: seq<seq<seq<string>>>)
    requires JobOk(y, l.job, groups)
    ensures JobOk(y, Appended(y, l).job, groups)
  {
  }

  lemma FetchedAppended(all: seq<string>, pending: seq<string>, row: string)
    ensures all + pending + InHand(row) == all + (pending + InHand(row)) + InHand("")
  {
  }

  lemma AppendedOk(y: Style, l: Loop, d: Ledger) returns (e: Ledger)
    requires LoopOk(y, l, d) && !y.Over(l.job.filesize)
    requires d.pending != [] ==> l.job.row != "" && !Full(y, l.job)
    ensures var m := Appended(y, l); LoopOk(y, m, e) && Fetched(m, e) == Fetched(l, d) && m.job.row == ""
  {
    AppendedBuffers(y, l, d);
    AppendedJobOk(y, l, d.groups);
    e := d.(pending := d.pending + InHand(l.job.row));
    FetchedAppended(Rows(d.groups), d.pending, l.job.row);
  }

  /** A turn adds the row it fetched, and nothing else, to the rows written and buffered. */
  lemma TurnOk(y: Style, l: Loop, d: Ledger, r: string) returns (e: Ledger)
    requires LoopOk(y, l, d) && l.job.row == "" && r != ""
    ensures var m := Turn(y, l, r);
            LoopOk(y, m, e) && m.job.row == "" && Fetched(m, e) == Fetched(l, d) + [r]
  {
    var fetched := Fetch(l, r);
    assert Fetched(fetched, d) == Fetched(l, d) + [r];
    e := d;
    if Full(y, fetched.job) { e := FlushedOk(y, fetched, d); }
    var flushed := FlushedIfFull(y, fetched);
    if y.Over(flushed.job.filesize) { e := RotatedOk(y, flushed, e); }
    e := AppendedOk(y, RotatedIfOver(y, flushed), e);
  }

  /** A turn reports the rows it flushes, and numbers the file it opens. */
  lemma TurnCounts(y: Style, l: Loop, r: string)
    requires l.job.files != [] && l.job.open
    ensures var m := Turn(y, l, r);
            && m.job.rowsReported + m.numRows == l.job.rowsReported + l.numRows + 1
            && m.job.subPart - l.job.subPart == |m.job.files| - |l.job.files|
            && (m.job.subPart == l.job.subPart ==>
                  m.job.numRowsOfLastRun + m.numRows == l.job.numRowsOfLastRun + l.numRows + 1)
  {
  }

  /** tj->filesize is the size of the open file. */
  predicate Tracks(j: Job) { j.open && j.files != [] && j.filesize == Size(j.files[|j.files| - 1]) }

  lemma WrittenGrows(y: Style, j: Job)
    requires Tracks(j)
    ensures Tracks(Written(j)) && Grown(y, j.files, |j.files| - 1, Written(j).files)
  {
    SizeOneMore(j.files[|j.files| - 1], j.statement);
  }

  lemma FlushGrows(y: Style, l: Loop)
    requires Tracks(l.job)
    ensures var m := FlushedIfFull(y, l); Tracks(m.job) && Grown(y, l.job.files, |l.job.files| - 1, m.job.files)
  {
    var j := if l.numRowsSt == 0 then l.job.(statement := l.job.statement + l.job.row, row := "") else l.job;
    WrittenGrows(y, j.(statement := j.statement + y.terminator));
  }

  lemma RotationGrows(y: Style, l: Loop)
    requires Tracks(l.job)
    ensures var m := RotatedIfOver(y, l); Tracks(m.job) && Grown(y, l.job.files, |l.job.files| - 1, m.job.files)
  {
  }

  lemma AppendKeepsFiles(y: Style, l: Loop)
    ensures Appended(y, l).job.files == l.job.files && (Tracks(l.job) ==> Tracks(Appended(y, l).job))
  {
  }

  /** The three parts of a turn, one after the other. */
  lemma PartsGrow(y: Style, l: Loop, f: Loop, m: Loop, o: Loop, t: Loop)
    requires Tracks(l.job) && f.job.files == l.job.files && Tracks(f.job)
    requires m == FlushedIfFull(y, f) && o == RotatedIfOver(y, m) && t == Appended(y, o)
    ensures Tracks(t.job) && Grown(y, l.job.files, |l.job.files| - 1, t.job.files)
  {
    FlushGrows(y, f);
    RotationGrows(y, m);
    GrownTwice(y, l.job.files, |l.job.files| - 1, m.job.files, o.job.files);
    AppendKeepsFiles(y, o);
  }

  lemma TurnGrows(y: Style, l: Loop, r: string)
    requires Tracks(l.job)
    ensures Tracks(Turn(y, l, r).job) && Grown(y, l.job.files, |l.job.files| - 1, Turn(y, l, r).job.files)
  {
    var f := Fetch(l, r);
    var m := FlushedIfFull(y, f);
    PartsGrow(y, l, f, m, RotatedIfOver(y, m), Turn(y, l, r));
  }

  lemma StartOk(y: Style, j: Job, groups: seq<seq<seq<string>>>) returns (d: Ledger)
    requires JobOk(y, j, groups)
    ensures LoopOk(y, Start(y, j), d) && Start(y, j).job.row == "" && Fetched(Start(y, j), d) == Rows(groups)
  {
    var g := OpenedOk(y, j.(statement := "", row := ""), groups);
    BodyEmpty(y);
    d := Ledger(g, [], Inserting(y.format) && Opened(j).stInFile == 0);
  }

  /** A row has at least what rows start and end with, by default "(" and ")". */
  predicate Rendered(rows: seq<string>) { forall i :: 0 <= i < |rows| ==> rows[i] != "" }

  lemma OneMore(all: seq<string>, rows: seq<string>)
    requires rows != []
    ensures all + rows[..|rows| - 1] + [rows[|rows| - 1]] == all + rows
  {
  }

  lemma {:induction false} TurnsOk(y: Style, l: Loop, d: Ledger, rows: seq<string>) returns (e: Ledger)
    requires LoopOk(y, l, d) && l.job.row == "" && Rendered(rows)
    ensures var m := Turns(y, l, rows);
            LoopOk(y, m, e) && m.job.row == "" && Fetched(m, e) == Fetched(l, d) + rows
  {
    e := d;
    if rows != [] {
      var before := rows[..|rows| - 1];
      e := TurnsOk(y, l, d, before);
      e := TurnOk(y, Turns(y, l, before), e, rows[|rows| - 1]);
      OneMore(Fetched(l, d), rows);
    }
  }

  lemma FinishedOk(y: Style, l: Loop, d: Ledger) returns (g: seq<seq<seq<string>>>)
    requires LoopOk(y, l, d) && l.job.row == ""
    ensures JobOk(y, Finished(y, l), g) && Rows(g) == Fetched(l, d)
  {
    g := d.groups;
    if l.numRowsSt > 0 {
      BufferedHolds(y, l.job.statement, d.headed, d.pending, l.job.stInFile);
      var j := l.job.(rowsReported := l.job.rowsReported + l.numRows,
                      numRowsOfLastRun := l.job.numRowsOfLastRun + l.numRows);
      var w := if Inserting(y.format) then j.(statement := j.statement + y.terminator) else j;
      assert JobOk(y, w, d.groups);
      WrittenOk(y, w, d.groups, d.pending);
      g := WithLast(d.groups, d.pending);
    }
  }

  lemma {:induction false} TurnsCount(y: Style, l: Loop, rows: seq<string>)
    requires l.job.files != [] && l.job.open
    ensures var m := Turns(y, l, rows);
            && m.job.open
            && m.job.rowsReported + m.numRows == l.job.rowsReported + l.numRows + |rows|
            && m.job.subPart - l.job.subPart == |m.job.files| - |l.job.files| >= 0
            && (m.job.subPart == l.job.subPart ==>
                  m.job.numRowsOfLastRun + m.numRows == l.job.numRowsOfLastRun + l.numRows + |rows|)
  {
    if rows != [] {
      TurnsCount(y, l, rows[..|rows| - 1]);
      TurnCounts(y, Turns(y, l, rows[..|rows| - 1]), rows[|rows| - 1]);
    }
  }

  lemma {:induction false} TurnsGrow(y: Style, l: Loop, rows: seq<string>)
    requires Tracks(l.job)
    ensures Tracks(Turns(y, l, rows).job) && Grown(y, l.job.files, |l.job.files| - 1, Turns(y, l, rows).job.files)
  {
    if rows != [] {
      TurnsGrow(y, l, rows[..|rows| - 1]);
      var m := Turns(y, l, rows[..|rows| - 1]);
      TurnGrows(y, m, rows[|rows| - 1]);
      GrownTwice(y, l.job.files, |l.job.files| - 1, m.job.files, Turns(y, l, rows).job.files);
    }
  }

  // ----- the main results

  /** Every fetched row is written once, in order: if the files held the rows of `groups`, they now
      hold those and the fetched ones. What JobOk says of each statement holds of the new ones: no
      statement is without rows, one with several rows fits statement_size before its terminator,
      and the header of an SQL file is in its first statement only. */
  lemma NothingLost(y: Style, j: Job, groups: seq<seq<seq<string>>>, rows: seq<string>) returns (g: seq<seq<seq<string>>>)
    requires JobOk(y, j, groups) && Rendered(rows)
    ensures JobOk(y, WriteResult(y, j, rows), g) && Rows(g) == Rows(groups) + rows
  {
    var d := StartOk(y, j, groups);
    d := TurnsOk(y, Start(y, j), d, rows);
    g := FinishedOk(y, Turns(y, Start(y, j), rows), d);
  }

  /** What was written before stays, and a file is left for another only when it is over the limit. */
  lemma FilesGrow(y: Style, j: Job, rows: seq<string>)
    requires Tracks(j) || (!j.open && j.filesize == 0)
    ensures Grown(y, j.files, if j.open then |j.files| - 1 else |j.files|, WriteResult(y, j, rows).files)
  {
    var l := Start(y, j);
    TurnsGrow(y, l, rows);
    var m := Turns(y, l, rows);
    var first := if j.open then |j.files| - 1 else |j.files|;
    GrownTwice(y, j.files, first, l.job.files, m.job.files);
    FinishGrows(y, m);
    GrownTwice(y, j.files, first, m.job.files, Finished(y, m).files);
  }

  lemma FinishGrows(y: Style, l: Loop)
    requires Tracks(l.job)
    ensures Grown(y, l.job.files, |l.job.files| - 1, Finished(y, l).files)
  {
  }

  /** All rows are reported; each file after the first gets the next sub-part number. */
  lemma AllReported(y: Style, j: Job, rows: seq<string>)
    requires j.open ==> j.files != []
    ensures var w := WriteResult(y, j, rows);
            && w.rowsReported == j.rowsReported + |rows|
            && w.subPart - j.subPart == |w.files| - |j.files| - (if j.open then 0 else 1) >= 0
            && (w.subPart == j.subPart ==> w.numRowsOfLastRun == j.numRowsOfLastRun + |rows|)
  {
    TurnsCount(y, Start(y, j), rows);
  }

  /** The results of a chunk's queries one after the other; in fixed-length mode the files are closed
      before each. */
  function WriteAll(y: Style, j: Job, closing: bool, results: seq<seq<string>>): (w: Job)
    requires j.open ==> j.files != []
    ensures w.open ==> w.files != []
  {
    if results == [] then j
    else
      var before := WriteAll(y, j, closing, results[..|results| - 1]);
      WriteResult(y, if closing then Closed(before) else before, results[|results| - 1])
  }

  lemma ClosedOk(y: Style, j: Job, groups: seq<seq<seq<string>>>)
    requires JobOk(y, j, groups)
    ensures JobOk(y, Closed(j), groups)
  {
  }

  lemma ResultAdded(all: seq<string>, results: seq<seq<string>>)
    requires results != []
    ensures all + Flatten(results[..|results| - 1]) + results[|results| - 1] == all + Flatten(results)
  {
    Regroup(all, Flatten(results[..|results| - 1]), results[|results| - 1]);
  }

  /** One result more. */
  lemma ResultNotLost(y: Style, j: Job, groups: seq<seq<seq<string>>>, closing: bool, rows: seq<string>)
    returns (g: seq<seq<seq<string>>>)
    requires JobOk(y, j, groups) && Rendered(rows)
    ensures JobOk(y, WriteResult(y, if closing then Closed(j) else j, rows), g) && Rows(g) == Rows(groups) + rows
  {
    ClosedOk(y, j, groups);
    g := NothingLost(y, if closing then Closed(j) else j, groups, rows);
  }

  /** The files of a chunk hold the rows of all its queries, in order, each once. */
  lemma {:induction false} NoResultLost(y: Style, j: Job, groups: seq<seq<seq<string>>>, closing: bool, results: seq<seq<string>>)
    returns (g: seq<seq<seq<string>>>)
    requires JobOk(y, j, groups) && forall i :: 0 <= i < |results| ==> Rendered(results[i])
    ensures JobOk(y, WriteAll(y, j, closing, results), g) && Rows(g) == Rows(groups) + Flatten(results)
  {
    g := groups;
    if results != [] {
      var n := |results| - 1;
      var h := NoResultLost(y, j, groups, closing, results[..n]);
      g := ResultNotLost(y, WriteAll(y, j, closing, results[..n]), h, closing, results[n]);
      ResultAdded(Rows(groups), results);
    }
  }

  /** The rows fit one statement: one byte is kept for a delimiter, also where none is written. */
  predicate Fits(y: Style, headed: bool, rows: seq<string>) {
    |y.Body(headed, rows)| + (if |rows| > 1 && Inserting(y.format) then 0 else 1) <= y.statementSize
  }

  /** A row that fits is only appended. */
  lemma FittingRow(y: Style, l: Loop, headed: bool, rows: seq<string>, r: string)
    requires l.job.statement == y.Body(headed, rows) && l.numRowsSt == |rows| && l.job.files != []
    requires r != "" && !y.Over(l.job.filesize) && Fits(y, headed, rows + [r])
    ensures Turn(y, l, r) == Loop(l.job.(statement := y.Body(headed, rows + [r]), row := ""), l.numRows + 1, |rows| + 1)
  {
    BodyOneMore(y, headed, rows, r);
    NothingAppended(l.job.statement);
  }

  lemma {:induction false} FittingRows(y: Style, l: Loop, headed: bool, rows: seq<string>)
    requires l.job.statement == y.Body(headed, []) && l.numRowsSt == 0 && l.job.row == "" && l.job.files != []
    requires Rendered(rows) && !y.Over(l.job.filesize) && (rows != [] ==> Fits(y, headed, rows))
    ensures Turns(y, l, rows) == Loop(l.job.(statement := y.Body(headed, rows), row := ""), l.numRows + |rows|, |rows|)
  {
    if rows != [] {
      var n := |rows| - 1;
      OneRowMore(rows);
      BodyOneMore(y, headed, rows[..n], rows[n]);
      FittingRows(y, l, headed, rows[..n]);
      FittingRow(y, Turns(y, l, rows[..n]), headed, rows[..n], rows[n]);
    }
  }

  lemma OneRowMore(rows: seq<string>)
    requires rows != []
    ensures rows[..|rows| - 1] + [rows[|rows| - 1]] == rows
  {
  }

  /** Whether the statement a result starts with has the header. */
  predicate Headed(y: Style, j: Job) { Inserting(y.format) && Opened(j).stInFile == 0 }

  lemma StartText(y: Style, j: Job)
    requires j.open ==> j.files != []
    ensures var l := Start(y, j);
            && l.job.statement == y.Body(Headed(y, j), []) && l.numRowsSt == 0 && l.job.row == ""
            && l.job.files == Opened(j).files && l.job.filesize == Opened(j).filesize
  {
    BodyEmpty(y);
  }

  lemma FinishedText(y: Style, l: Loop)
    requires l.job.files != [] && l.numRowsSt > 0 && l.job.statement != ""
    ensures Finished(y, l).files
         == WithLast(l.job.files, if Inserting(y.format) then l.job.statement + y.terminator else l.job.statement)
  {
  }

  lemma BodyNotEmpty(y: Style, headed: bool, rows: seq<string>)
    requires rows != [] && Rendered(rows)
    ensures y.Body(headed, rows) != ""
  {
    OneRowMore(rows);
    BodyOneMore(y, headed, rows[..|rows| - 1], rows[|rows| - 1]);
  }

  /** Rows that fit one statement, and a file that is not over its limit, make one statement. */
  lemma OneStatementIfItFits(y: Style, j: Job, rows: seq<string>)
    requires (j.open ==> j.files != []) && rows != [] && Rendered(rows)
    requires !y.Over(Opened(j).filesize) && Fits(y, Headed(y, j), rows)
    ensures var body := y.Body(Headed(y, j), rows);
            WriteResult(y, j, rows).files
            == WithLast(Opened(j).files, if Inserting(y.format) then body + y.terminator else body)
  {
    StartText(y, j);
    FittingRows(y, Start(y, j), Headed(y, j), rows);
    BodyNotEmpty(y, Headed(y, j), rows);
    FinishedText(y, Turns(y, Start(y, j), rows));
  }

  /** A turn writes a statement exactly if the row does not fit behind what is in the buffer, and begins
      another file exactly if the one it then has is over chunk_filesize megabytes. */
  lemma TurnWritesIff(y: Style, l: Loop, r: string)
    requires l.job.files != [] && l.job.open
    ensures var last, flushed := |l.job.files| - 1, FlushedIfFull(y, Fetch(l, r)).job; var m := Turn(y, l, r).job;
            && |flushed.files| == |l.job.files| && flushed.files[..last] == l.job.files[..last]
            && |flushed.files[last]|
               == |l.job.files[last]| + (if |l.job.statement| + |r| + 1 > y.statementSize then 1 else 0)
            && m.files == flushed.files + (if y.chunkFilesize != 0 && flushed.filesize > y.chunkFilesize * 1048576 then [[]] else [])
  {
  }

  /** When a file is rotated no row is in the buffer. */
  lemma RotationFindsNoRow(y: Style, l: Loop, d: Ledger, r: string)
    requires LoopOk(y, l, d) && y.Over(FlushedIfFull(y, Fetch(l, r)).job.filesize)
    ensures FlushedIfFull(y, Fetch(l, r)).numRowsSt == 0
  {
  }

  // ----- the loop itself

  class TableJob {
    const style: Style
    var statement: string
    var row: string
    var files: seq<seq<string>>
    var open: bool
    var filesize: nat
    var stInFile: nat
    var subPart: nat
    var numRowsOfLastRun: nat
    var rowsReported: nat

    constructor (style: Style)
      ensures this.style == style && State() == Job("", "", [], false, 0, 0, 0, 0, 0)
    {
      this.style := style;
      statement, row, files, open := "", "", [], false;
      filesize, stInFile, subPart, numRowsOfLastRun, rowsReported := 0, 0, 0, 0, 0;
    }

    ghost function State(): Job
      reads this
    {
      Job(statement, row, files, open, filesize, stInFile, subPart, numRowsOfLastRun, rowsReported)
    }

    /** update_files_on_table_job */
    method UpdateFiles()
      modifies this
      ensures State() == Opened(old(State()))
    {
      if !open {
        files := files + [[]];
        open := true;
      }
    }

    /** close_table_job_files */
    method CloseFiles()
      modifies this
      ensures State() == Closed(old(State()))
    {
      open := false;
      filesize := 0;
      stInFile := 0;
      numRowsOfLastRun := 0;
    }

    /** write_statement */
    method WriteStatement()
      requires files != []
      modifies this
      ensures State() == Written(old(State()))
    {
      files := files[|files| - 1 := files[|files| - 1] + [statement]];
      filesize := filesize + |statement|;
      statement := "";
    }

    /** write_result_into_file; `rows` are the rows of the result as write_row_into_string renders them. */
    method WriteResultIntoFile(rows: seq<string>)
      requires open ==> files != []
      modifies this
      ensures State() == WriteResult(style, old(State()), rows)
    {
      Begin();
      var numRows, numRowsSt := 0, 0;
      ghost var start := Start(style, old(State()));
      for i := 0 to |rows|
        invariant Loop(State(), numRows, numRowsSt) == Turns(style, start, rows[..i])
      {
        numRows, numRowsSt := FetchRow(rows[i], numRows, numRowsSt);
        assert rows[..i + 1][..i] == rows[..i];
      }
      assert rows[..|rows|] == rows;
      End(numRows, numRowsSt);
    }

    method Begin()
      requires open ==> files != []
      modifies this
      ensures Loop(State(), 0, 0) == Start(style, old(State()))
    {
      statement := "";
      row := "";
      UpdateFiles();
      if Inserting(style.format) {
        if stInFile == 0 { statement := style.header; }
        statement := statement + style.insert;
      }
    }

    method End(numRows: nat, numRowsSt: nat)
      requires files != []
      modifies this
      ensures State() == Finished(style, Loop(old(State()), numRows, numRowsSt))
    {
      rowsReported := rowsReported + numRows;
      numRowsOfLastRun := numRowsOfLastRun + numRows;
      if numRowsSt > 0 && |statement| > 0 {
        if Inserting(style.format) { statement := statement + style.terminator; }
        WriteStatement();
        stInFile := stInFile + 1;
      }
    }

    /** The body of the loop. */
    method FetchRow(r: string, numRows: nat, numRowsSt: nat) returns (uncounted: nat, n: nat)
      requires files != []
      modifies this
      ensures Loop(State(), uncounted, n) == Turn(style, Loop(old(State()), numRows, numRowsSt), r)
    {
      uncounted, n := numRows + 1, numRowsSt;
      row := r;
      ghost var fetched := Loop(State(), uncounted, n);
      if |statement| + |row| + 1 > style.statementSize {
        Flush(uncounted, n);
        uncounted, n := 0, 0;
      }
      ghost var flushed := Loop(State(), uncounted, n);
      assert flushed == FlushedIfFull(style, fetched);
      if style.Over(filesize) {
        Rotate();
      }
      ghost var rotated := Loop(State(), uncounted, n);
      assert rotated == RotatedIfOver(style, flushed);
      n := Append(uncounted, n);
    }

    method Flush(numRows: nat, numRowsSt: nat)
      requires files != []
      modifies this
      ensures Loop(State(), 0, 0) == Flushed(style, Loop(old(State()), numRows, numRowsSt))
    {
      if numRowsSt == 0 {
        statement := statement + row;
        row := "";
      }
      statement := statement + style.terminator;
      WriteStatement();
      rowsReported := rowsReported + numRows;
      numRowsOfLastRun := numRowsOfLastRun + numRows;
      stInFile := stInFile + 1;
      if Inserting(style.format) {
        statement := statement + style.insert;
        assert statement == style.insert;
      }
    }

    method Rotate()
      modifies this
      ensures State() == Rotated(style, old(State()))
    {
      subPart := subPart + 1;
      CloseFiles();
      UpdateFiles();
      if style.format == SqlInsert {
        statement := style.header;
        statement := statement + style.insert;
      }
    }

    method Append(ghost numRows: nat, numRowsSt: nat) returns (n: nat)
      modifies this
      ensures Loop(State(), numRows, n) == Appended(style, Loop(old(State()), numRows, numRowsSt))
    {
      n := numRowsSt;
      if n > 0 && Inserting(style.format) { statement := statement + ","; }
      statement := statement + row;
      if |row| > 0 { n := n + 1; }
      row := "";
    }
  }
}

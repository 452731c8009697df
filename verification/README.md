# The dump engine of mydumper, modelled and proved

mydumper dumps a MySQL server with many threads. A table is cut into chunks while its chunks are
already being dumped; a builder hands the chunks to workers through queues; each worker turns the rows
it fetches into statements and files. This project models that engine in Dafny and proves what it
promises: each row is dumped once, some thread can always move until all have left, no two chunks share a
file, no row is lost on the way into a file. Where the code breaks such a promise, the exact condition is
proved instead; the gravest case is a builder that waits for ever for a table cut by a string key.

Check it with `dafny verify dfyconfig.toml`, or pass all `.dfy` files to `dafny verify` together.

## How the engine is modelled

- **Critical sections are steps.** A protocol between threads is a state, a set of steps and a `Run`
  over a sequence of steps. A step stands for what one thread does while it holds a mutex, or for one
  push, pop or atomic addition. Every sequence of enabled steps is a run, so a theorem about runs is
  about every interleaving.
- **Queries are functions.** The snapshot of a table is a fixed set or sorted sequence of keys; a query
  selects from it. The rows and seconds of a query, and everything else the server decides, are free
  choices of a step.
- **Writes are appends** to a sequence of statements or files.
- **Code that updates fields is a class.** `Csi`, `Dbt`, `TableList`, `TableJob`, `StringStep`,
  `PartitionTable`, `ThreadData` and `Splitter` carry the fields the source updates, and each method is
  proved equal to a function of the old state, or to a run of its protocol with the other threads let in
  wherever the mutex is free. The theorems are then about those functions and runs.
- **Integers** are the column's: 64 bits, signed or unsigned, with wrap-around written out (`Words`).
  Signed overflow, which C leaves undefined, is two's complement.

| part of the engine | modules |
|---|---|
| integer chunks | `IntegerItem`, `IntegerProtocol`, `IntegerProgress`, `IntegerFiles`, `IntegerDepth`, `IntegerTheorems`, `IntegerLimits`, `IntegerAnswers`, `ChunkStepItem`, `DbTable` |
| file numbers | `PartNumbers` |
| string and partition chunks | `StringChunks`, `PartitionChunks` |
| builder and workers | `Builder`, `BuilderTheorems`, `Dispatch` |
| builder, workers and chunks together | `Engine`, `EngineSafety`, `EngineTheorems`, `EngineHang` |
| phases of a dump | `Phases`, `PhaseTheorems` |
| statements, files, row counts | `Writer`, `RowCounter` |
| text algorithms | `MatchText`, `CreateTable`, `Escaper` |
| shared ground | `Words`, `KeySets`, `Optional` |

## Where the code does not do what it should

Each of these is proved with its exact condition.

- The builder can wait for ever. `get_next_string_chunk` waits on a condition while a chunk is ASSIGNED, and
  the worker signals only when it goes on to DUMPING_CHUNK; after the dump it sets ASSIGNED once more, and
  COMPLETED without a signal. A builder that takes the chunk off the queue in that window sends no reply and
  no shutdown job any more, and no worker ever leaves. It can happen if and only if some table is cut by a
  string key, there are two workers or more, and `max_threads_per_table` is two or more, whatever the other
  tables are (`EngineHang.NeverHangsIff`, `EngineHang.NeverStuckIff`, `EngineTheorems.HungForever`).
- An integer range that is every value of its type starts over after a step that covered it, because the
  overflow test `cursor + 1 < min` misses; its keys are then dumped twice. The first step does so if and only
  if the column is unsigned, where the width of the range wraps to zero, or the step is above two, where the
  signed width wraps to two; no other range is dumped twice (`IntegerTheorems.NeverTwiceIff`,
  `IntegerItem.CursorInRange`, `IntegerItem.AdvanceLeavesTheRest`).
- Halving with truncating division is uneven when an odd negative base faces an odd positive end
  (`IntegerItem.HalvesUnlessAcrossZero`). So a chunk lies at most one level deeper than the logarithm of the
  gap, rounded up, if the range does not cross zero, and may lie two levels deeper if it does
  (`IntegerTheorems.NumbersFitDepth`, attained in `IntegerLimits.DeeperThanLogarithm`). File numbers fit 64
  bits over all gaps up to 2^63, but only up to 2^62 + 1 across zero (`IntegerLimits.PartsFitIff`).
- A string table whose greatest key starts with `%` or `_` dumps rows twice if it has more than
  `max_items_per_string_chunk` + 1 first letters and none of the first `max_items_per_string_chunk` of them is
  empty or a wildcard itself, because the last chunk's `LIKE` takes that letter for a wildcard
  (`StringChunks.EachKeyOnceIff`, `StringChunks.WildcardDumpsTwice`).
- `finish_alter_table` overwrites a comma that is not at the end when it is among the last four characters
  (`CreateTable.FinishIsClosedIff`); an index on a column whose name ends in a comma is enough
  (`CreateTable.CommaInNameIsDamaged`, `CreateTable.UndamagedIff`).
- With `max_threads_per_table` zero the builder stops at once and leaves every table undumped
  (`BuilderTheorems.StopsEmptyIffCapped`).

The comment at `src/mydumper/mydumper_start_dump.c:1682` says `database_counter` counts schema jobs. The
code counts the jobs that list databases and tables; the model follows the code.

## Model

| member | source | states |
|---|---|---|
| `IntegerItem.SplitPointInside` | src/mydumper/mydumper_integer_chunks.c:223-261 | a cut falls strictly after what the owner is dumping and not past the end, so neither side is empty, and both sides are about half |
| `IntegerItem.HalvesUnlessAcrossZero` | src/mydumper/mydumper_integer_chunks.c:223-261 | the far side is at most half of the gap, rounded up, if and only if it is not an odd negative base facing an odd positive end |
| `IntegerItem.FixedSplitPointInside` | src/mydumper/mydumper_integer_chunks.c:188-221 | a fixed-length cut is a multiple of the step, past the base's block and not past the last block; the owner keeps as many blocks as the new chunk gets, or one more |
| `IntegerItem.SplitMakes` | src/mydumper/mydumper_integer_chunks.c:163-264 | the two chunks of a cut meet at it, the ends it made are to be looked up, the owner goes on as it was, the new chunk starts at its minimum with the same step and without the NULL keys |
| `IntegerItem.CursorInRange` | src/mydumper/mydumper_integer_chunks.c:743-771 | the cursor of a non-empty range lies in it, a step away or at the end if the range is seen to be shorter; over a whole type it covers all at once if and only if the column is unsigned or the step is above two |
| `IntegerItem.AdvanceLeavesTheRest` | src/mydumper/mydumper_integer_chunks.c:874-900 | moving on leaves exactly the keys after the cursor, if and only if the step had not covered the whole type |
| `IntegerItem.AdvanceTrims` | src/mydumper/mydumper_integer_chunks.c:874-911 | after a step the chunk is ASSIGNED again and its step is cut down to what is left, except in fixed-length mode |
| `IntegerItem.AdjustWithinLimits` | src/mydumper/mydumper_integer_chunks.c:851-866 | the new step is the measured one, or twice the old one, if that lies between the minimum and the maximum of the table; past an end it is that end, and if the ends are crossed the minimum |
| `IntegerItem.NarrowToKeys` | src/mydumper/mydumper_integer_chunks.c:480-562 | over a range that holds a key, an end that was to be checked becomes the greatest or least key of the range, an end that was not stays |
| `IntegerItem.BeginAims` | src/mydumper/mydumper_integer_chunks.c:586-771 | a step over a range that holds a key sets its cursor by the narrowed range, in fixed-length mode by the range as it is |
| `IntegerItem.BeginFindsNone` | src/mydumper/mydumper_integer_chunks.c:586-771 | over a range without a key there is nothing to write if both ends were asked for; else the greatest key, if it was asked for, comes out as the minimum |
| `IntegerProtocol.NarrowKeepsKeys` | src/mydumper/mydumper_integer_chunks.c:480-562 | narrowing to the real ends keeps the keys in the range; the early exit is taken if and only if both ends were asked for and the range holds no key |
| `IntegerProtocol.StartOk` | src/mydumper/mydumper_integer_chunks.c:586-771 | stages 1 to 3 lose no key of the snapshot and leave a cursor inside the range, or an empty range that held none |
| `IntegerProtocol.MoveOk` | src/mydumper/mydumper_integer_chunks.c:874-911 | steps 5 and 6 leave the keys after the cursor and a step of at least one while any are left |
| `IntegerProtocol.SplitOk` | src/mydumper/mydumper_integer_chunks.c:163-264 | a concurrent split gives each key still to be dumped to one side, and never empties a chunk whose owner goes on |
| `IntegerProtocol.TurnOk` | src/mydumper/mydumper_integer_chunks.c:332-437 | whatever state the builder finds a chunk in, what it hands out, keeps or drops is in order |
| `IntegerProtocol.StepKeepsInv` | src/mydumper/mydumper_integer_chunks.c:573-998 | every step keeps it so that chunks hold disjoint keys and the keys no chunk holds were dumped once each |
| `IntegerProtocol.InitialInv` | src/mydumper/mydumper_chunks.c:151-222 | the root chunk over the table's range satisfies the invariant |
| `IntegerProtocol.RunKeepsInv` | src/mydumper/mydumper_integer_chunks.c:573-998 | so does every state of every run |
| `IntegerTheorems.NeverStuck` | src/mydumper/mydumper_integer_chunks.c:332-437 | no step is possible exactly when all chunks are completed and the builder's queue is empty |
| `IntegerTheorems.NeverTwice` | src/mydumper/mydumper_integer_chunks.c:573-998 | at any moment of any run no key, nor the NULL keys, was dumped twice |
| `IntegerTheorems.ExactlyOnce` | src/mydumper/mydumper_integer_chunks.c:573-998 | a run that has come to its end dumped each key of the snapshot exactly once and the NULL keys exactly once, and every chunk was handed out once and completed |
| `IntegerTheorems.RunsEnd` | src/mydumper/mydumper_integer_chunks.c:927-998 | no run is longer than 36 steps for each value of the range, however its steps interleave |
| `IntegerTheorems.NeverTwiceIff` | src/mydumper/mydumper_integer_chunks.c:874-900 | for every step size, no run dumps a key twice unless, and only unless, the range is the whole type and the column is unsigned or the step above two |
| `IntegerTheorems.ChunkFilesDiffer` | src/mydumper/mydumper_integer_chunks.c:223-261 | whatever the order of the splits, two chunks have different file numbers |
| `IntegerTheorems.StepFilesDiffer` | src/mydumper/mydumper_integer_chunks.c:811-818 | in fixed-length mode no two steps of any chunks have the same file number |
| `IntegerTheorems.NumbersFitDepth` | src/mydumper/mydumper_integer_chunks.c:223-261 | a part is below two to its depth, and the depth is at most 1 + ceil(log2 gap), or 2 + ceil(log2(gap - 1)) if the range crosses zero |
| `IntegerTheorems.NumbersStaySmall` | src/mydumper/mydumper_integer_chunks.c:223-261 | over a gap of at most 2^k no part reaches 2^(k+1): exact in double precision up to k = 52, within 64 bits up to k = 63; across zero the gap may be one more and the parts twice as large |
| `IntegerLimits.DeeperThanLogarithm` | src/mydumper/mydumper_integer_chunks.c:223-261 | a run over the range from -1 - 2^k to 1 that reaches the greatest depth allowed, one level more than ranges that do not cross zero have |
| `IntegerLimits.PartsFitIff` | src/mydumper/mydumper_integer_chunks.c:223-261 | the parts of all runs over all ranges up to a gap fit 64 bits if and only if the gap is at most 2^63, or 2^62 + 1 for ranges that cross zero |
| `IntegerAnswers.TurnDecides` | src/mydumper/mydumper_integer_chunks.c:273-437 | a chunk nobody has is given out; one with a step or more past its cursor while it is dumped, or past its minimum between two steps, is cut in two; any other is given up as UNSPLITTABLE; and what each of these leaves |
| `IntegerAnswers.ProbeQueues` | src/mydumper/mydumper_integer_chunks.c:340-437 | a chunk handed out comes to the end of the queue, behind the one it was cut from; one given up leaves it |
| `IntegerAnswers.WriteDumps` | src/mydumper/mydumper_integer_chunks.c:798-834 | a query dumps the keys from the minimum to the cursor, the NULL keys if they are due, into the file of its block or its part |
| `IntegerAnswers.MeasuredUnlessLast` | src/mydumper/mydumper_integer_chunks.c:811-834 | the step is adjusted after a query if and only if the mode is not fixed-length and the cursor was not at the end |
| `IntegerAnswers.GoesOnWhileAnyLeft` | src/mydumper/mydumper_integer_chunks.c:960-998 | the loop goes on while the range is not empty, without the NULL keys, and completes the chunk then |
| `IntegerProgress.StepUsesBudget` | src/mydumper/mydumper_integer_chunks.c:573-998 | every step of a thread, a split included, uses up some of a budget fixed at the start |
| `IntegerFiles.RunKeepsBlocks` | src/mydumper/mydumper_integer_chunks.c:188-221 | in fixed-length mode each written block is used up: no chunk starts another step in it |
| `IntegerDepth.RunKeepsDepths` | src/mydumper/mydumper_integer_chunks.c:223-261 | every step keeps it so that a chunk's depth and the halvings, rounded up, of what lies between its cursor and its end add up to no more than those of the whole range |
| `ChunkStepItem.Csi.SplitChunkStep` | src/mydumper/mydumper_integer_chunks.c:163-264 | the in-place split makes exactly the two chunks of the function Split, or none and no change |
| `ChunkStepItem.Csi.BeginStep` | src/mydumper/mydumper_integer_chunks.c:586-771 | the first critical section does what Begin says, the early exit included |
| `ChunkStepItem.Csi.AdjustStep` | src/mydumper/mydumper_integer_chunks.c:837-869 | the new step size is what the function Adjust says, which keeps to the limits of the table |
| `ChunkStepItem.Csi.MovePastCursor` | src/mydumper/mydumper_integer_chunks.c:874-911 | the last critical section does what Advance says |
| `ChunkStepItem.Csi.ProcessIntegerChunk` | src/mydumper/mydumper_integer_chunks.c:927-998 | the loop ends under every interference of other threads, with the chunk completed, and all of it is a run of the protocol |
| `DbTable.Dbt.GetNextIntegerChunk` | src/mydumper/mydumper_integer_chunks.c:332-437 | it returns a chunk no worker was given before, or finds that every chunk of the table has been handed out |
| `PartNumbers.CutKeepsSeparate` | src/mydumper/mydumper_integer_chunks.c:223-261 | giving (p, d) the labels (p, d+1) and (p+2^d, d+1) keeps all residue classes disjoint and each part below two to its depth |
| `PartNumbers.SeparateAreDistinct` | src/mydumper/mydumper_string_chunks.c:161-181 | chunks with disjoint residue classes have different parts |
| `StringChunks.NextIsLeast` | src/mydumper/mydumper_string_chunks.c:433-461 | set_next_cur finds the least first letter strictly between the cursor and the maximum, and none when LIKE takes the cursor for a wildcard |
| `StringChunks.SplitIsExact` | src/mydumper/mydumper_string_chunks.c:625-655 | what a chunk selects is the disjoint union of what its two parts select |
| `StringChunks.EachKeyOnceIff` | src/mydumper/mydumper_string_chunks.c:589-655 | each key is dumped exactly once, unless and only unless the greatest key starts with a wildcard and there are letters enough for a second chunk |
| `StringChunks.SplitIffEnoughLetters` | src/mydumper/mydumper_string_chunks.c:625-655 | the first chunk leaves another if and only if the keys have more first letters than max_items_per_string_chunk and one, and none of the first of them stops set_next_cur |
| `StringChunks.FirstChunkLetters` | src/mydumper/mydumper_string_chunks.c:625-655 | the first chunk then keeps the first max_items_per_string_chunk letters and the new one starts at the next letter; else the first chunk keeps all |
| `StringChunks.WildcardDumpsTwice` | src/mydumper/mydumper_string_chunks.c:1099-1105 | a table of three keys for which a row is dumped twice |
| `StringChunks.ChainOnce` | src/mydumper/mydumper_string_chunks.c:625-655 | of all the chunks that come of a chunk exactly one selects each key the chunk selects |
| `StringChunks.PartsDiffer` | src/mydumper/mydumper_string_chunks.c:161-181 | the chunks of a table have different parts |
| `StringChunks.NullsOnce` | src/mydumper/mydumper_string_chunks.c:161-181 | rows without a key are selected once, by the first chunk |
| `StringChunks.StringStep.SetNextCur` | src/mydumper/mydumper_string_chunks.c:433-461 | the old cursor becomes the previous one and the new one is the next letter |
| `StringChunks.StringStep.Split` | src/mydumper/mydumper_string_chunks.c:161-181 | the chunk keeps the letters up to the previous cursor, the new one has the rest |
| `StringChunks.StringStep.ProcessStep` | src/mydumper/mydumper_string_chunks.c:625-655 | the step selects the range and leaves the child that the function Process says |
| `PartitionChunks.EachPartitionOnce` | src/mydumper/mydumper_partition_chunks.c:47-126 | over every order of pops and halvings, finished chunks have dumped each partition as often as it was listed |
| `PartitionChunks.NeverTwice` | src/mydumper/mydumper_partition_chunks.c:47-126 | and at no time more often |
| `PartitionChunks.HeadIsThere` | src/mydumper/mydumper_partition_chunks.c:51-60 | no halving empties a list its owner saw as non-empty |
| `PartitionChunks.CutConserves` | src/mydumper/mydumper_partition_chunks.c:100-119 | a cut gives the first half of the list to the owner and the rest to the new chunk, which has as many partitions or one more |
| `PartitionChunks.HalvedIff` | src/mydumper/mydumper_partition_chunks.c:100-119 | a chunk can be cut if and only if it was handed out and has four partitions or more |
| `PartitionChunks.TakesFromHead` | src/mydumper/mydumper_partition_chunks.c:47-65 | a worker takes the head of its list, dumps it and looks again, and leaves when it sees the list empty |
| `PartitionChunks.NeverStuck` | src/mydumper/mydumper_partition_chunks.c:47-126 | until all chunks are done a thread can move |
| `PartitionChunks.RunsEnd` | src/mydumper/mydumper_partition_chunks.c:47-65 | no run is longer than six steps a partition and two more |
| `PartitionChunks.PartsDiffer` | src/mydumper/mydumper_partition_chunks.c:106-119 | two chunks have different parts |
| `PartitionChunks.PartitionTable.GetNextPartitionChunk` | src/mydumper/mydumper_partition_chunks.c:89-126 | it hands out the first chunk that was not, or half of the first long one, or finds neither |
| `PartitionChunks.PartitionTable.ProcessPartitionChunk` | src/mydumper/mydumper_partition_chunks.c:47-65 | the loop ends whatever the others do, with an empty list, and is a run of the system |
| `Builder.VisitKeepsTable` | src/mydumper/mydumper_chunks.c:385-466 | looking at a table keeps its definitions, running threads and outstanding jobs in balance |
| `Builder.QueuesInOrder` | src/mydumper/mydumper_chunks.c:525-552 | jobs are taken in the order they are sent, and the job a worker has is the head it took |
| `Builder.ServedJobs` | src/mydumper/mydumper_chunks.c:525-545 | a chunk served goes to the queue, unless it is of an integer key and chunks are deferred: then it goes to the deferred queue and a JOB_DEFER to the queue |
| `Builder.StepKeepsInv` | src/mydumper/mydumper_chunks.c:502-579 | every step of the builder and the workers keeps the invariant of tokens, shutdown jobs, tables and chunks |
| `BuilderTheorems.TokensConserved` | src/mydumper/mydumper_working_thread.c:889-929 | until the builder stops, waiting workers are request tokens, the token in the builder's hands and queued replies, with and without use_defer |
| `BuilderTheorems.NeverStuck` | src/mydumper/mydumper_chunks.c:484-579 | in the frame where get_next answers at once: as long as a worker has not left both queues some thread can move, the builder's retries counted in |
| `BuilderTheorems.ShutdownReleases` | src/mydumper/mydumper_chunks.c:484-500 | once the builder has stopped no run is longer than what is queued calls for, and a run that can go no further has released every worker |
| `BuilderTheorems.QuietScanDecides` | src/mydumper/mydumper_chunks.c:558-575 | a scan begun when no worker can move ends with a reply or with the shutdown jobs, never with a retry |
| `BuilderTheorems.DefinedOnce` | src/mydumper/mydumper_chunks.c:375-482 | the builder stops with an empty list, and then every table was defined exactly once |
| `BuilderTheorems.NeverDefinedTwice` | src/mydumper/mydumper_chunks.c:385-412 | a table has at most one definition, done or under way, and none exactly while it is UNDEFINED |
| `BuilderTheorems.ThreadsCapped` | src/mydumper/mydumper_working_thread.c:462-465 | current_threads_running never exceeds max_threads_per_table, and is the number of the table's outstanding jobs while it is in the list, and ever after unless it is dumped whole or deferred; then it is less by what is subtracted without having been added |
| `BuilderTheorems.ChunkInOnePlace` | src/mydumper/mydumper_chunks.c:525-552 | a chunk that was handed out is in one queue or with one worker, or was dumped once |
| `BuilderTheorems.EveryChunkDumpedOnce` | src/mydumper/mydumper_chunks.c:484-579 | when all workers have left, both queues are empty and every chunk handed out was dumped exactly once |
| `BuilderTheorems.StopsEmptyIffCapped` | src/mydumper/mydumper_chunks.c:385-386 | the builder can only stop with an empty list if and only if max_threads_per_table is positive or there is no table |
| `Engine.RunProjects` | src/mydumper/mydumper_chunks.c:375-482 | every run of builder, workers and chunks together is a run of Builder once the steps inside get_next and inside the chunks are taken out |
| `Engine.WaitsIfAssigned` | src/mydumper/mydumper_string_chunks.c:290-335 | get_next waits for a string chunk it took off the queue if and only if the chunk is ASSIGNED, the first or the second time, and passes over it otherwise |
| `Engine.WakesIfNotAssigned` | src/mydumper/mydumper_string_chunks.c:313-320 | the builder that was woken looks at the status again, and waits on if it is ASSIGNED |
| `Engine.HandedComesBack` | src/mydumper/mydumper_string_chunks.c:291-298 | a string chunk that is handed out becomes ASSIGNED and goes to the end of the queue |
| `Engine.StatusesInOrder` | src/mydumper/mydumper_string_chunks.c:820-1080 | a worker brings its chunk from ASSIGNED to DUMPING_CHUNK, ASSIGNED and COMPLETED, signals at the first change only, and may queue one new chunk there |
| `EngineSafety.StepKeepsInv` | src/mydumper/mydumper_chunks.c:447-466 | every step keeps it so that the chunks of each table agree with what the builder and the workers hold: as many made as handed out and one more at most, those on their way ASSIGNED, those dumped COMPLETED, a table off the list with an empty queue |
| `EngineTheorems.IntegerTableDumped` | src/mydumper/mydumper_chunks.c:484-579 | when all workers have left, every table cut by an integer key had each of its keys dumped exactly once, and each chunk ever made was handed out once |
| `EngineTheorems.StringTableDumped` | src/mydumper/mydumper_string_chunks.c:1037-1082 | and of a table cut by a string key each chunk ever made was handed out, dumped once, and is COMPLETED |
| `EngineTheorems.NeverStuck` | src/mydumper/mydumper_string_chunks.c:282-338 | as long as a worker has not left, some thread can move, or the builder waits for a signal that is never given |
| `EngineTheorems.HungForever` | src/mydumper/mydumper_string_chunks.c:309-318 | a builder that waits for a chunk already begun waits for ever: it sends neither replies nor shutdown jobs, and no worker leaves |
| `EngineTheorems.NeverAwaits` | src/mydumper/mydumper_string_chunks.c:299-318 | without string keys, with one worker or with one thread a table, the builder never waits inside get_next |
| `EngineHang.SomeLeads` | src/mydumper/mydumper_chunks.c:375-482 | while one worker alone deals with the builder some step is always possible that leaves less to do, until the builder comes to the table looked for |
| `EngineHang.Hangs` | src/mydumper/mydumper_string_chunks.c:1001-1032 | from any start with two workers, two threads a table and a string key there is a run to a builder that waits for ever |
| `EngineHang.TwoWorkersHang` | src/mydumper/mydumper_string_chunks.c:309-318 | one table cut by a string key and two workers are enough: the start, and a run after which the second worker waits for a builder that waits for ever |
| `EngineHang.NeverHangsIff` | src/mydumper/mydumper_string_chunks.c:282-338 | no run hangs the builder up if and only if no table is cut by a string key, or there is one worker, or one thread a table |
| `EngineHang.NeverStuckIff` | src/mydumper/mydumper_string_chunks.c:282-338 | under exactly the same condition no run stops short with a worker left |
| `Dispatch.TableList.Scan` | src/mydumper/mydumper_chunks.c:389-480 | one pass: the table served has the fewest running threads of the ready tables left and is the first the pass may take, tables dropped had nothing to give; each flag is raised if and only if the list had a table that is DEFINING, or one with too many running threads for this level |
| `Dispatch.TableList.GetNext` | src/mydumper/mydumper_chunks.c:375-482 | the choice for a token: only the chosen table changes; with no choice every table left must be waited for, and the flags tell exactly whether the list had a table that is DEFINING, or a READY one with running threads; without a flag the list is empty, and an empty list raises none |
| `Phases.StepKeepsInv` | src/mydumper/mydumper_working_thread.c:973-1175 | every step of the main thread and the workers keeps counter, tokens and the order of the queues |
| `Phases.QueuesInOrder` | src/mydumper/mydumper_working_thread.c:889-929 | each step adds at the back of a queue or takes its head |
| `Phases.TakesHead` | src/mydumper/mydumper_working_thread.c:889-929 | a worker at a queue takes its head and does what it says |
| `PhaseTheorems.CounterIsRight` | src/mydumper/mydumper_create_jobs.c:69-101 | database_counter is the number of counted jobs queued, running or about to be queued |
| `PhaseTheorems.ReadyOnceAndAfterListing` | src/mydumper/mydumper_working_thread.c:265-321 | db_ready is pushed at most once, and when no listing is queued or running |
| `PhaseTheorems.QueuesClose` | src/mydumper/mydumper_start_dump.c:1698-1738 | in each queue jobs precede shutdown jobs; once one worker has left it only shutdown jobs remain, once all have it is empty |
| `PhaseTheorems.NoLateJob` | src/mydumper/mydumper_start_dump.c:1833-1838 | a running job never adds to a queue that has seen a shutdown job |
| `PhaseTheorems.PhasesInOrder` | src/mydumper/mydumper_start_dump.c:1698-1738 | no worker leaves schema_queue before all have left initial_queue, nor dumps data before the main thread lets it |
| `PhaseTheorems.UnlockedBeforePost` | src/mydumper/mydumper_working_thread.c:1060-1124 | a main thread that waits for unlock_tables goes on only when every worker has pushed it, with trx_tables after its non-transactional tables, else before any |
| `PhaseTheorems.NeverStuck` | src/mydumper/mydumper_start_dump.c:1576-1840 | until the main thread has joined the workers some thread can move |
| `PhaseTheorems.RunsEnd` | src/mydumper/mydumper_start_dump.c:1576-1840 | no run is longer than the first jobs call for |
| `PhaseTheorems.NothingLeft` | src/mydumper/mydumper_start_dump.c:1833-1841 | at the end all workers have left and all three queues are empty |
| `PhaseTheorems.EverythingDone` | src/mydumper/mydumper_working_thread.c:889-929 | each job of schema_queue and post_data_queue is done exactly as often as the first jobs ask for it, directly or through the jobs they make |
| `Writer.NothingLost` | src/mydumper/mydumper_write.c:1076-1166 | the statements of all files hold the fetched rows in order, each once; no statement is empty, one with several rows fits statement_size, the header stands in the first statement of an SQL file only |
| `Writer.NoResultLost` | src/mydumper/mydumper_write.c:993-1173 | the files of a chunk hold the rows of all its queries in order, each once, with and without closing the files between queries |
| `Writer.JoinedInParts` | src/mydumper/mydumper_write.c:1143-1147 | rows are separated by a comma in the formats SQL and ClickHouse, by nothing in LOAD DATA and CSV |
| `Writer.StatementReads` | src/mydumper/mydumper_write.c:1039-1171 | a statement that holds rows reads header, INSERT, rows, terminator, the header in the first statement of an SQL file; in LOAD DATA and CSV the rows alone, with or without terminator |
| `Writer.StatementsBegin` | src/mydumper/mydumper_write.c:1016-1056 | a result begins with the INSERT, behind the header if the file has no statement yet; after a rotation only SQL gets a header |
| `Writer.TurnWritesIff` | src/mydumper/mydumper_write.c:1085-1141 | a turn of the loop writes a statement if and only if statement, row and a byte more are over statement_size, and begins another file if and only if the file is over chunk_filesize megabytes |
| `Writer.OneStatementIfItFits` | src/mydumper/mydumper_write.c:1085-1148 | rows that fit statement_size together, to the byte, make one statement, terminated as the format wants |
| `Writer.FilesGrow` | src/mydumper/mydumper_write.c:1129-1141 | what was written stays, and a file is left for another only when it is over chunk_filesize |
| `Writer.RotationFindsNoRow` | src/mydumper/mydumper_write.c:1129-1141 | no row is in the buffer when a file is rotated |
| `Writer.AllReported` | src/mydumper/mydumper_write.c:1105-1152 | every row is reported once, and sub_part counts the files |
| `Writer.OverIsCeiling` | src/mydumper/mydumper_write.c:1130-1131 | the rotation test is that the megabytes begun, of 1048576 bytes, exceed the limit |
| `Writer.TableJob.FetchRow` | src/mydumper/mydumper_write.c:1076-1150 | one turn of the loop does what the function Turn says |
| `Writer.TableJob.WriteResultIntoFile` | src/mydumper/mydumper_write.c:993-1173 | the loop writes what the function WriteResult says |
| `RowCounter.RowsConserved` | src/mydumper/mydumper_write.c:902-924 | shared rows and the counts of the threads at a table are all rows reported for it, and each count stays below ten thousand |
| `RowCounter.BatchedByTenThousand` | src/mydumper/mydumper_write.c:902-924 | rows are held back until they are ten thousand, then added at once; what was held for another table goes to that table |
| `RowCounter.ExactAfterFlush` | src/mydumper/mydumper_write.c:927-935 | after every thread has flushed the shared count is exact |
| `RowCounter.ThreadData.UpdateDbtRowsBatched` | src/mydumper/mydumper_write.c:902-924 | the thread's fields and the tables' counters become what the function Updated says |
| `RowCounter.ThreadData.FlushDbtRows` | src/mydumper/mydumper_write.c:927-935 | and what Flushed says |
| `MatchText.MatchText` | src/common.c:730-770 | TRUE exactly when the text matches the pattern, though only non-empty rests are tried after a percent sign |
| `MatchText.PlainMatchesItself` | src/common.c:730-770 | a pattern without percent signs and underscores matches itself only, backslashes included |
| `MatchText.ByCharacter` | src/common.c:734-740 | without a percent sign and backslash a pattern matches character by character, and an underscore any character |
| `MatchText.OneUnderscore` | src/common.c:736-740 | one underscore in a name stands for any one character in its place |
| `MatchText.OnlyUnderscores` | src/common.c:736-740 | a pattern of n underscores matches exactly the texts of length n |
| `MatchText.QuotedMatchesItself` | src/common.c:741-745 | a name with its underscores escaped matches itself only |
| `MatchText.MatchesConcat` | src/common.c:730-770 | patterns in a row match texts in a row |
| `MatchText.Anywhere` | src/common.c:757-768 | a name between percent signs is found exactly where it occurs |
| `CreateTable.EachLineOnce` | src/common.c:1678-1722 | every line goes to exactly one of the three statements, in its order |
| `CreateTable.WhereLinesGo` | src/common.c:1680-1715 | an index line, known by its five beginnings, goes to the ALTER unless it names the AUTO_INCREMENT column, a constraint line to the constraints, every other line is kept |
| `CreateTable.AutoIncrementIndexStays` | src/common.c:1682-1720 | after a column line with AUTO_INCREMENT, an index line stays if and only if it has the column's quoted name behind a parenthesis |
| `CreateTable.AltersOk` | src/common.c:1690-1707 | no ALTER has two FULLTEXT indexes or more than optimize_keys_batchsize indexes, none of several is empty, and another is opened only for a FULLTEXT index or after a full one |
| `CreateTable.OpenedIff` | src/common.c:1690-1709 | an index line opens another ALTER if and only if it is a FULLTEXT index and not the table's first, or the last ALTER has optimize_keys_batchsize lines |
| `CreateTable.OneFulltextEach` | src/common.c:1692-1701 | no ALTER has two lines with FULLTEXT behind two spaces |
| `CreateTable.FinishIsClosedIff` | src/common.c:1655-1666 | closing replaces exactly the trailing comma if and only if there is one, or no comma stands among the last four characters |
| `CreateTable.UndamagedIff` | src/common.c:1655-1746 | the ALTER and constraint texts made of a CREATE TABLE are closed at their ends if and only if the last line of each group ends in a comma or has none among its last four characters |
| `CreateTable.CommaInNameIsDamaged` | src/common.c:1655-1666 | the lines of a table whose last index is on a column named with a comma at its end, and the ALTER they give, with the name overwritten |
| `CreateTable.FinishLast` | src/common.c:1655-1666 | closing touches the last statement of the buffer only |
| `CreateTable.ProcessedIsSorted` | src/common.c:1667-1746 | the three texts are those of the sorted lines, one closed ALTER for each group, and the flags tell whether there are any |
| `CreateTable.NoCommaToDrop` | src/common.c:1743 | a text in which no comma stands before a line that begins with a closing parenthesis is unchanged |
| `CreateTable.FirstCommaDropped` | src/common.c:1743 | the first such comma is taken away, and the rest goes the same way |
| `CreateTable.CreateIsUndangled` | src/common.c:1718-1743 | the CREATE TABLE is the lines kept, without the comma of a line before one that begins with a closing parenthesis, and otherwise as they were |
| `CreateTable.Splitter.Process` | src/common.c:1667-1746 | the loop fills its buffers as the function Processed says |
| `Escaper.EscapeCharWithChar` | src/mydumper/mydumper_common.c:335-381 | the buffer holds the escaped text, length and count long, then NUL, and nothing after it has changed |
| `Escaper.CopyBack` | src/mydumper/mydumper_common.c:359-381 | the backward copy never overwrites what it still has to read |
| `Escaper.RoundTrip` | src/mydumper/mydumper_common.c:335-381 | taking the escapes away gives the input back, also when the escape character is the needle |
| `Escaper.EscapeCovers` | src/mydumper/mydumper_common.c:335-381 | no needle of the result is bare |

## Left out

- The multicolumn path of integer and string chunks (`csi->next`): it adds two to a depth already raised, so part numbers need not differ there.
- Failed queries, reconnects, `shutdown_triggered`, pausing: the theorems are about uninterrupted runs.
- The GTID agreement rounds, the pipe handler's `available_pids`, locks on the server, streaming, options, logging.
- The string path with `max_items_per_string_chunk` zero, which goes by row estimates. First letters are compared byte by byte; other collations, and first letters that end the quoted text of a query (a quote or a backslash), are not modelled.
- Fixed-length mode is modelled for keys of at least zero and steps below 2^31: the source divides a signed minimum by an unsigned step and casts the step to 32 bits.
- `pow(2, deep)` is the exact integer; NumbersStaySmall says for which gaps the source's double is.
- BuilderTheorems.NeverStuck: leaves out the wait inside get_next, because Builder is the frame in which its answer is a free choice; EngineTheorems and EngineHang have the wait and its exact condition.
- In Engine the answers of get_next are those of the chunks for integer and string keys; for tables cut by partitions they stay a free choice, and PartitionChunks says what they are. Whether a string chunk leaves another is a free choice there, and StringChunks says when. How long the builder goes on retrying is not bounded.
- Spurious returns of g_cond_wait: a builder hung up could be freed by one.
- Engine is about integer ranges that do not start over; IntegerTheorems.NeverTwiceIff says which do.
- Dispatch.TableList.GetNext: is about a choice during which no worker moves; Builder models the scan table by table with workers in between.
- In Phases the dump of the non-transactional and that of the transactional tables are one step of a worker each, which ends: the workers and the builder inside it are those of Engine, and EngineHang says when they may not come to an end.
- Writer: `filesize` is an exact number, not a float; failed writes, the companion files of LOAD DATA and ClickHouse and the header row of CSV are not modelled.
- CreateTable: the flag that comes of ENGINE= is not modelled.
- RowCounter: the 64-bit wrap-around of the counters is not modelled.
- PartitionChunks: the 32-bit width of a partition chunk's part is not modelled.
- `myloader` is not part of this model.

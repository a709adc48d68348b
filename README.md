# ProcessSim process manager, in Dafny

A model of the process manager of `ProcessSim.c`, an educational single-CPU scheduler
simulator. The manager keeps:

- a table of 10 process control blocks (PCBs), whose slot index is the process id; slots are never freed;
- a ready queue and a blocked queue, both FIFO;
- the running slot, which is -1 when nothing runs;
- the CPU context: the program pointer, the program counter and the value register;
- a clock and the turnaround accounts.

It interprets the simulated programs' instructions: S(et), A(dd), D(ecrement), B(lock), E(nd), F(ork) and R(eplace). It loads those programs from text files, one instruction per line.

The project has these modules:

- `Wrappers` (`wrappers.dfy`): `Option`.
- `Loader` (`loader.dfy`) covers three things:
  - `trim`;
  - the `stringstream >> int` extraction the loader uses for integer operands: skip white space, read an optional sign and the longest digit run, and fail outside the 32-bit `int` range;
  - the decoding of one program line, and `createProgram` as a method with a loop over the lines of a file. It is proved equal to the function `Load`. Round trips show that the canonical text of a program loads back to that program.
- `Machine` (`machine.dfy`) has two parts:
  - the manager's state as a value `Sys`, with one function per operation;
  - the invariant `Consistent`. It says that queue membership matches the lifecycle state, that at most one process runs, that slots in use form a prefix of the table, that the CPU points at a slot in use, and that the turnaround accounts match the table.
- `Invariant` (`invariant.dfy`): every operation and every command keeps `Consistent`.
- `Behaviour` (`behaviour.dfy`): what each operation does, stated against the invariant, including the finding on `fork` below.
- `Report` (`report.dfy`): the grouping of the ready queue by priority that the P command prints. The groups partition the ready queue, and none can hold more than the 10 places reserved for it.
- `Scenario` (`scenario.dfy`): concrete runs. One loads and runs a small program. The other runs the forking program `S 1, F 2, S 2, E, S 3, E` with `fork` as written and with `fork` as intended.
- `ProcessManager` (`process_manager.dfy`): the class `Manager`. It keeps the PCB table in an `array` and updates it in place, with one method per operation. Each method is proved to leave the state that the matching `Machine` function computes, and to keep the invariant. `FindFreePcb` is the slot-search loop of `fork`. `FillRows` and `ListRows` are the two loops of the grouping in `print`. `Command` is the per-character dispatch of `runProcessManager`.

The CPU's program pointer is modelled as the index of the PCB slot whose program it points at. `schedule` and the start-up always point it at `pcbEntry[slot].program`, and it keeps pointing there after that process blocks or ends, as in the code.

## Model

| member | source | states |
|---|---|---|
| Loader.TrimEnds | ProcessSim.c:70-77 | `trim` yields "" exactly for a string made only of `' '`; otherwise its result neither starts nor ends with `' '` |
| Loader.TrimSplit | ProcessSim.c:70-77 | the input is its trimmed part with only `' '` characters added before and after it |
| Loader.TrimPadded | ProcessSim.c:70-77 | padding a string whose ends are not spaces with spaces on both sides is undone by `trim` |
| Loader.TrimIdempotent | ProcessSim.c:70-77 | trimming twice is trimming once |
| Loader.ToUpperTable | ProcessSim.c:98 | the opcode letter is upper-cased as `toupper` does in the C locale: each of the 26 lower-case letters becomes its capital, and every other character is left alone |
| Loader.ParseShowInt | ProcessSim.c:101-108 | the integer extraction reads back the decimal text of every 32-bit `int`, whatever non-digit text follows it |
| Loader.ParseLine | ProcessSim.c:94-96 | a line is skipped exactly when it is empty after trimming |
| Loader.ParseLineMeaning | ProcessSim.c:96-136 | a non-blank line is decoded by its upper-cased first character. S, A, D and F need an integer in the trimmed rest, R a non-empty rest; B and E ignore the rest; any other letter is refused, and each refusal names its reason |
| Loader.ParseRender | ProcessSim.c:94-138 | decoding the canonical line of any instruction a file can express gives that instruction back |
| Loader.Collect | ProcessSim.c:90-142 | the loop appends at most one instruction per line, and a reported error names a line of the file |
| Loader.Load | ProcessSim.c:83-88 | a file that cannot be opened fails and appends nothing; otherwise no more instructions than lines |
| Loader.CollectAppend | ProcessSim.c:90-142 | loading two runs of lines: the second run is looked at only when the first had no refused line, and then its instructions follow those of the first |
| Loader.StopsAtFirstFault | ProcessSim.c:108-136 | at the first refused line the load fails with that line's number and fault, and keeps exactly what the lines before it appended |
| Loader.AppendsOne | ProcessSim.c:138 | a decoded line appends exactly its instruction at the end of the program |
| Loader.BlankLineSkipped | ProcessSim.c:96 | a blank line anywhere leaves the loaded program unchanged |
| Loader.CollectRenumbered | ProcessSim.c:81 | the line counter only labels the error: it never changes what is loaded or whether loading fails |
| Loader.DecodeAppend | ProcessSim.c:90-94 | lines are decoded one at a time, independently of each other |
| Loader.LoadRendered | ProcessSim.c:79-146 | writing a program one canonical line per instruction and loading it gives the program back, with no error |
| Loader.CreateProgram | ProcessSim.c:79-146 | the loop returns true exactly when `Load` reports no error, and leaves exactly the program `Load` computes |
| Machine.Schedule | ProcessSim.c:174-196 | after `schedule`, a process is running or the ready queue is empty |
| Machine.FirstFree | ProcessSim.c:255-261 | the search returns -1 exactly when every slot is in use; otherwise it returns a free slot with every earlier slot in use |
| Machine.OfPriority | ProcessSim.c:435-439 | a priority group holds no more processes than the ready queue |
| Invariant.ScheduleKeeps | ProcessSim.c:174-196 | `schedule` keeps the invariant |
| Invariant.BlockKeeps | ProcessSim.c:200-221 | `block` keeps the invariant |
| Invariant.EndKeeps | ProcessSim.c:225-248 | `end` keeps the invariant, including the count of terminated processes |
| Invariant.FreeSlotAfterUsed | ProcessSim.c:255-265 | the slot `fork` hands out is never slot 0 and is still zero-initialised, and every slot after it is free |
| Invariant.ForkAsWrittenKeeps | ProcessSim.c:252-301 | `fork` as written keeps the invariant |
| Invariant.ForkKeeps | ProcessSim.c:252-301 | `fork` with the program handed to the child keeps the invariant |
| Invariant.ProgramChangeKeeps | ProcessSim.c:308-314 | giving a slot in use another program keeps the invariant |
| Invariant.ReplaceKeeps | ProcessSim.c:305-323 | `replace` keeps the invariant |
| Invariant.ReadyAgainKeeps | ProcessSim.c:382-387 | moving the front of the blocked queue to the ready queue keeps the invariant |
| Invariant.UnblockKeeps | ProcessSim.c:376-391 | `unblock` keeps the invariant |
| Invariant.ExecuteKeeps | ProcessSim.c:339-368 | executing any instruction keeps the invariant |
| Invariant.FetchKeeps | ProcessSim.c:331-338 | the fetch keeps the invariant |
| Invariant.TickKeeps | ProcessSim.c:370 | the clock tick keeps the invariant, start times included |
| Invariant.QuantumKeeps | ProcessSim.c:327-372 | a quantum keeps the invariant |
| Invariant.CommandKeeps | ProcessSim.c:504-520 | every command character keeps the invariant |
| Invariant.InitialConsistent | ProcessSim.c:472-491 | the start-up state, with process 0 running `init`, satisfies the invariant |
| Behaviour.ValueRegister | ProcessSim.c:150-170 | S sets the value register to v, A adds v to it and D subtracts v from it, and nothing else changes |
| Behaviour.AddDecrementInverse | ProcessSim.c:158-170 | D v undoes A v and A v undoes D v |
| Behaviour.SetAddDecrementExample | ProcessSim.c:150-170 | S 5, A 3, D 1 leave 7 in the value register |
| Behaviour.ScheduleIdempotent | ProcessSim.c:178-184 | scheduling twice is scheduling once |
| Behaviour.ScheduleTakesFront | ProcessSim.c:174-196 | with nothing running and a non-empty ready queue, `schedule` pops the front process. Its PCB changes only to Running, the CPU gets its program, counter and value, and no other slot changes; otherwise `schedule` changes nothing |
| Behaviour.BlockSaves | ProcessSim.c:200-221 | the running process joins the back of the blocked queue. Its PCB changes only to Blocked with the CPU's counter and value saved; nothing runs afterwards, and no other slot or queue changes; with nothing running nothing changes |
| Behaviour.UnblockMoves | ProcessSim.c:376-391 | the front of the blocked queue leaves it and joins the back of the ready queue as Ready. A running process keeps the CPU; with nothing running the CPU goes to the front of the ready queue, which is the unblocked process itself when no other was ready. With an empty blocked queue `unblock` only schedules |
| Behaviour.BlockUnblockResumes | ProcessSim.c:376-391 | block followed by unblock, with no other process waiting, resumes the same process with the CPU exactly as it was |
| Behaviour.EndAccounts | ProcessSim.c:225-248 | `end` terminates the running process and adds `timestamp + 1 - startTime`, at least 1, to the turnaround sum. It counts the process, and its PCB changes only in state. No other slot, queue, the CPU or the clock changes; with nothing running nothing changes |
| Behaviour.TurnaroundAtLeastOne | ProcessSim.c:462-466 | once a process has terminated, the average turnaround is at least one tick |
| Behaviour.ExactlyOnePlace | ProcessSim.c:56-64 | every process in the table is in exactly one place: the ready queue, the blocked queue, the running slot, or terminated |
| Behaviour.AtMostOneRunning | ProcessSim.c:57 | at most one process is Running |
| Behaviour.FirstFreeIsLowest | ProcessSim.c:255-261 | the search finds a slot exactly when one is free, and then the lowest free one |
| Behaviour.ForkCreatesChild | ProcessSim.c:252-301 | without a free slot, or with v outside the current program, `fork(v)` changes nothing; this includes a full table with nothing running. Otherwise a process is running, and the lowest free slot gets a Ready child of it. The child has its own id, the CPU's counter and value, the parent's priority, the current program, the current time as start time and no time used. The child joins the back of the ready queue, the parent's counter skips v, and no other slot changes |
| Behaviour.ForkSplitsControl | ProcessSim.c:296-299 | after a fork the child resumes at the instruction after the F and the parent v instructions further on, in the same program |
| Behaviour.ForkAsWrittenLosesProgram | ProcessSim.c:285-292 | as written, the child's program stays empty although the parent's is not; the corrected `fork` gives it the parent's program |
| Behaviour.ReplaceLoads | ProcessSim.c:305-323 | the slot the CPU points at gets, in place of its program, what `createProgram` appended to the cleared program, and no other slot changes. The counter restarts at 0 on success and moves past the R on failure; a file that cannot be opened leaves the program empty |
| Behaviour.ReplaceRendered | ProcessSim.c:308-321 | replacing with a file that holds a program one canonical line per instruction installs that program from its start |
| Behaviour.QuantumTicks | ProcessSim.c:370 | every quantum advances the clock by exactly one tick |
| Behaviour.QuantumPastEndTerminates | ProcessSim.c:331-338 | with the counter past the end of the program, the quantum executes an implicit E: the running process terminates and the front of the ready queue, if any, takes the CPU |
| Behaviour.QuantumArithmetic | ProcessSim.c:331-351 | an S, A or D at the counter is applied to the value register; the counter moves past it, the process keeps the CPU and the table is unchanged |
| Behaviour.StartRunsInit | ProcessSim.c:472-491 | start-up succeeds exactly when `init` loads, and then process 0 runs `init` from counter 0 with no parent, in a state that satisfies the invariant |
| Report.OfPriorityMembers | ProcessSim.c:435-439 | a process is in the group of priority p exactly when it is in the ready queue with priority p |
| Report.OfPriorityAppend | ProcessSim.c:435-439 | grouping keeps queue order: the group of a concatenation is the concatenation of the groups |
| Report.ReadyGroupsPartition | ProcessSim.c:432-455 | the groups, listed by ascending priority, hold every ready process exactly once and only ready processes, each in the group of its own priority |
| Report.QueueBound | ProcessSim.c:432 | a queue of distinct slot numbers holds at most 10 processes |
| Report.ReadyQueueBound | ProcessSim.c:432-435 | the ready queue never holds more than 10 processes |
| Report.GroupBound | ProcessSim.c:432-438 | no priority group outgrows the 10 places reserved for it |
| Scenario.LoadExample | ProcessSim.c:94-141 | the lines `S 5`, `A 3`, `D 1`, `E` load as those four instructions |
| Scenario.RunExample | ProcessSim.c:327-372 | running that program as `init` leaves 7 after three quanta; the fourth ends the process at time 4 with a turnaround of 4 |
| Scenario.ForkDemoAsIntended | ProcessSim.c:252-301 | with `fork` as intended, the parent skips S 2 and ends holding 3, and the child runs S 2 and ends holding 2; the turnarounds add up to 9 |
| Scenario.ForkDemoAsWritten | ProcessSim.c:285-292 | with `fork` as written, the child is scheduled with an empty program and ends holding the 1 it inherited, without running S 2 |
| ProcessManager.Manager.constructor | ProcessSim.c:476-491 | builds the start-up state around the given `init` program, and it satisfies the invariant |
| ProcessManager.Manager.Start | ProcessSim.c:472-474 | gives no manager exactly when `init` does not load, otherwise a manager in the start-up state |
| ProcessManager.Manager.Set | ProcessSim.c:150-154 | moves the state as `Machine.Set` and keeps the invariant |
| ProcessManager.Manager.Add | ProcessSim.c:158-162 | moves the state as `Machine.Add` and keeps the invariant |
| ProcessManager.Manager.Decrement | ProcessSim.c:166-170 | moves the state as `Machine.Decrement` and keeps the invariant |
| ProcessManager.Manager.Schedule | ProcessSim.c:174-196 | moves the state as `Machine.Schedule` and keeps the invariant |
| ProcessManager.Manager.Block | ProcessSim.c:200-221 | moves the state as `Machine.Block` and keeps the invariant |
| ProcessManager.Manager.End | ProcessSim.c:225-248 | moves the state as `Machine.End` and keeps the invariant |
| ProcessManager.Manager.FindFreePcb | ProcessSim.c:255-261 | the loop over the table returns the slot `Machine.FirstFree` characterises: the first free slot, or -1 |
| ProcessManager.Manager.Fork | ProcessSim.c:252-301 | moves the state as the corrected `Machine.Fork` and keeps the invariant |
| ProcessManager.Manager.Replace | ProcessSim.c:305-323 | moves the state as `Machine.Replace` and keeps the invariant |
| ProcessManager.Manager.Fetch | ProcessSim.c:331-338 | returns the instruction at the counter, or an E past the end, and moves the counter as `Machine.Fetch` |
| ProcessManager.Manager.Execute | ProcessSim.c:339-368 | moves the state as `Machine.Execute` for the fetched instruction and keeps the invariant |
| ProcessManager.Manager.Tick | ProcessSim.c:370 | advances the clock as `Machine.Tick` and keeps the invariant |
| ProcessManager.Manager.Quantum | ProcessSim.c:327-372 | moves the state as `Machine.Quantum` and keeps the invariant |
| ProcessManager.Manager.Unblock | ProcessSim.c:376-391 | moves the state as `Machine.Unblock` and keeps the invariant |
| ProcessManager.Manager.ReadyByPriority | ProcessSim.c:430-455 | lists the ready processes grouped by ascending priority, exactly the groups `Machine.ReadyGroups` defines |
| ProcessManager.FillRows | ProcessSim.c:432-439 | after the filling loop, row p holds the ready processes of priority p in queue order, and its count is their number |
| ProcessManager.ListRows | ProcessSim.c:441-455 | the listing loop reads the rows back as the groups of priorities 0 to 9 |
| ProcessManager.Manager.Command | ProcessSim.c:504-521 | Q runs a quantum, U unblocks, and P, T and any other character leave the state unchanged; it asks to stop exactly on T |

## Left out

- `main`, the pipe and the child process, and `commander.c`: operating-system plumbing that carries command characters; `commander.c` holds no logic.
- The read loop of `runProcessManager`: reading the pipe and stopping when it breaks. `Manager.Command` takes one character and reports whether it was T.
- Opening files and `getline`. A file system is a map from file names to their lines, and a name missing from the map cannot be opened. A final empty line that `getline` may produce is a blank line, and blank lines are skipped.
- All printing: diagnostics, the trace of `quantum`, the formatting of `print`, and the report of the average turnaround. The P command computes the ready groups and drops them. The running and blocked parts of `print` are plain listings.
- Machine.AverageTurnaround: requires at least one terminated process, because `calculateTurnaroundTime` divides by zero when none has terminated. `cumulativeTimeDiff` is a `double` in the code but only ever receives whole increments, so it is an `int` here, and the average is truncated.
- Machine widths: the value register, counters, the clock and the start times are unbounded integers. The 32-bit wrap of `int` and `unsigned int` is not modelled. Only integer operands read from program files are bounded to the 32-bit range, as the extraction does.
- `cpu.timeSlice` and `cpu.timeSliceUsed` are never read or written by the code. `timeUsed` is only ever set to 0.
- Machine.Quantum: requires `QuantumDefined`. This excludes fetching an F while nothing runs and a slot is free: `fork` then takes the PCB at index -1 (ProcessSim.c:268), which is undefined behaviour. With every slot in use, `fork` returns before that line, and the model runs it as a no-op. Every other instruction fetched with nothing running is modelled: it acts on the program of the slot the CPU last pointed at, as the code does.
- Machine.Fork and Machine.ForkAsWritten: require `ForkDefined`, a running process or a full table, for the same reason.
- Machine.Replace: a refused line keeps the instructions appended before it, because `createProgram` appends as it goes; only a file that cannot be opened leaves the program empty (`Behaviour.ReplaceLoads`).
- Machine.Execute: the F case runs the corrected `Machine.Fork`. So `Machine.Quantum`, `Machine.Command`, the invariant lemmas about them, `Scenario.Run` and the `Manager` methods all describe the manager with the child given the parent's program. `Machine.ForkAsWritten` is `fork` as the code writes it; `Scenario.ForkDemoAsWritten` composes it into the quantum by hand.

## Findings

| source | as written | input that shows it | evidently intended | confidence | as-written member | corrected member |
|---|---|---|---|---|---|---|
| ProcessSim.c:285-292 | `fork` fills every field of the child's PCB except `program`, so the child keeps the empty program of a slot never used | the `init` program `S 1, F 2, S 2, E, S 3, E` run by Q commands: the child is scheduled with an empty program, its first quantum runs off the end and ends it holding 1, and S 2 never runs | the child runs the parent's program from the instruction after the F, as the counter it is given presumes | not executed | Machine.ForkAsWritten (with Behaviour.ForkAsWrittenLosesProgram and Scenario.ForkDemoAsWritten) | Machine.Fork (with Behaviour.ForkCreatesChild, Behaviour.ForkSplitsControl and Scenario.ForkDemoAsIntended) |

/**
 * The process manager's state and its transitions, as values: the PCB table, the
 * ready and blocked queues, the running slot, the CPU context, the clock and the
 * turnaround accounts, with one function per operation of the simulator and the
 * invariant every operation keeps.
 */
module Machine {
  import opened Wrappers
  import opened Loader

  /** Slots in the PCB table; the index of a slot is the id of the process it holds. */
  const TableSize: nat := 10

  /** Priorities run from 0 to 9; the ready queue is shown grouped by them. */
  const PriorityLevels: nat := 10

  /** The lifecycle state of a process. */
  datatype State = Ready | Running | Blocked | Terminated

  /** One slot of the PCB table. */
  datatype Pcb = Pcb(
    processId: int,
    parentProcessId: int,
    program: seq<Instruction>,
    programCounter: nat,
    value: int,
    priority: nat,
    state: State,
    startTime: nat,
    timeUsed: nat)

  /** A slot never handed out, as the zero-initialised global table holds it. */
  const FreePcb: Pcb := Pcb(-1, 0, [], 0, 0, 0, Ready, 0, 0)

  /** A slot is in use once a process id has been written into it; slots are never freed. */
  predicate InUse(e: Pcb)
  {
    e.processId != -1
  }

  /**
   * The CPU context: `program` is the slot whose program the CPU's program pointer
   * designates (it keeps designating it after that process stops running), then the
   * program counter and the value register.
   */
  datatype Cpu = Cpu(program: nat, programCounter: nat, value: int)

  /** The whole process manager; `runningState == -1` when no process is running. */
  datatype Sys = Sys(
    pcbEntry: seq<Pcb>,
    readyState: seq<nat>,
    blockedState: seq<nat>,
    runningState: int,
    cpu: Cpu,
    timestamp: nat,
    cumulativeTimeDiff: int,
    numTerminatedProcesses: nat)

  /* ---------------- well-formedness and the invariant ---------------- */

  /** Every index the state holds designates a slot of the table. */
  predicate Shaped(s: Sys)
  {
    && |s.pcbEntry| == TableSize
    && -1 <= s.runningState < TableSize
    && s.cpu.program < TableSize
    && (forall k | 0 <= k < |s.readyState| :: s.readyState[k] < TableSize)
    && (forall k | 0 <= k < |s.blockedState| :: s.blockedState[k] < TableSize)
  }

  predicate Distinct(q: seq<nat>)
  {
    forall j, k | 0 <= j < k < |q| :: q[j] != q[k]
  }

  /** What holds of a slot in use: its own id, a creation time not in the future, a priority below 10, an older parent. */
  predicate PcbOk(s: Sys, i: nat)
    requires i < |s.pcbEntry|
  {
    var e := s.pcbEntry[i];
    && e.processId == i
    && e.startTime <= s.timestamp
    && e.priority < PriorityLevels
    && (if i == 0 then e.parentProcessId == -1 else 0 <= e.parentProcessId < i)
  }

  /** Slot 0 holds `init`, slots are handed out in index order, and a free slot is untouched. */
  predicate TableOk(s: Sys)
    requires Shaped(s)
  {
    && InUse(s.pcbEntry[0])
    && (forall i: nat | i < TableSize :: InUse(s.pcbEntry[i]) ==> PcbOk(s, i))
    && (forall i: nat | i < TableSize :: !InUse(s.pcbEntry[i]) ==> s.pcbEntry[i] == FreePcb)
    && (forall i: nat, j: nat | i < j < TableSize :: InUse(s.pcbEntry[j]) ==> InUse(s.pcbEntry[i]))
  }

  /**
   * A process is in the ready queue exactly when its state is Ready, in the blocked
   * queue exactly when it is Blocked, and in the running slot exactly when it is
   * Running; neither queue holds a process twice.
   */
  predicate QueuesOk(s: Sys)
    requires Shaped(s)
  {
    && Distinct(s.readyState)
    && Distinct(s.blockedState)
    && (forall i: nat | i < TableSize ::
          i in s.readyState <==> InUse(s.pcbEntry[i]) && s.pcbEntry[i].state == Ready)
    && (forall i: nat | i < TableSize ::
          i in s.blockedState <==> InUse(s.pcbEntry[i]) && s.pcbEntry[i].state == Blocked)
    && (forall i: nat | i < TableSize ::
          InUse(s.pcbEntry[i]) && s.pcbEntry[i].state == Running <==> i == s.runningState)
  }

  /** The CPU designates a slot in use, and the running process's while one runs. */
  predicate CpuOk(s: Sys)
    requires Shaped(s)
  {
    && InUse(s.pcbEntry[s.cpu.program])
    && (s.runningState != -1 ==> s.cpu.program == s.runningState)
  }

  /** 1 for a slot whose process has terminated, 0 otherwise. */
  function Terminal(e: Pcb): nat
  {
    if e.state == Terminated then 1 else 0
  }

  /** Number of slots whose process has terminated. */
  function TerminatedCount(t: seq<Pcb>): (n: nat)
    ensures n <= |t|
  {
    if t == [] then 0 else TerminatedCount(t[..|t| - 1]) + Terminal(t[|t| - 1])
  }

  /** The terminated count matches the table, and each termination added at least one tick. */
  predicate AccountsOk(s: Sys)
  {
    && s.numTerminatedProcesses == TerminatedCount(s.pcbEntry)
    && s.numTerminatedProcesses <= s.cumulativeTimeDiff
  }

  /** The invariant of the process manager. */
  predicate Consistent(s: Sys)
  {
    Shaped(s) && TableOk(s) && QueuesOk(s) && CpuOk(s) && AccountsOk(s)
  }

  /* ---------------- instruction effects ---------------- */

  /** `set`: the S instruction. */
  function Set(s: Sys, v: int): Sys
  {
    s.(cpu := s.cpu.(value := v))
  }

  /** `add`: the A instruction. */
  function Add(s: Sys, v: int): Sys
  {
    s.(cpu := s.cpu.(value := s.cpu.value + v))
  }

  /** `decrement`: the D instruction. */
  function Decrement(s: Sys, v: int): Sys
  {
    s.(cpu := s.cpu.(value := s.cpu.value - v))
  }

  /** `schedule`: when nothing runs, the front of the ready queue is installed on the CPU. */
  function Schedule(s: Sys): (r: Sys)
    requires Shaped(s)
    ensures Shaped(r)
    ensures r.runningState != -1 || r.readyState == []
  {
    if s.runningState != -1 || s.readyState == [] then s
    else
      var p := s.readyState[0];
      var e := s.pcbEntry[p];
      s.(pcbEntry := s.pcbEntry[p := e.(state := Running)],
         readyState := s.readyState[1..],
         cpu := Cpu(p, e.programCounter, e.value),
         runningState := p)
  }

  /** `block`: the B instruction; the running process saves the CPU and joins the blocked queue. */
  function Block(s: Sys): (r: Sys)
    requires Shaped(s)
    ensures Shaped(r)
  {
    if s.runningState == -1 then s
    else
      var p := s.runningState;
      var e := s.pcbEntry[p];
      s.(pcbEntry := s.pcbEntry[p := e.(state := Blocked, programCounter := s.cpu.programCounter, value := s.cpu.value)],
         blockedState := s.blockedState + [p],
         runningState := -1)
  }

  /** `end`: the E instruction; the running process terminates and its turnaround is added up. */
  function End(s: Sys): (r: Sys)
    requires Shaped(s)
    ensures Shaped(r)
  {
    if s.runningState == -1 then s
    else
      var p := s.runningState;
      var e := s.pcbEntry[p];
      s.(pcbEntry := s.pcbEntry[p := e.(state := Terminated)],
         cumulativeTimeDiff := s.cumulativeTimeDiff + (s.timestamp + 1 - e.startTime),
         numTerminatedProcesses := s.numTerminatedProcesses + 1,
         runningState := -1)
  }

  /** The search loop of `fork`: the first slot from `from` on whose id is -1, or -1 if there is none. */
  function FirstFree(t: seq<Pcb>, from: nat): (i: int)
    requires from <= |t|
    ensures i == -1 ==> forall k | from <= k < |t| :: InUse(t[k])
    ensures i != -1 ==> from <= i < |t| && !InUse(t[i]) && forall k | from <= k < i :: InUse(t[k])
    decreases |t| - from
  {
    if from == |t| then -1
    else if !InUse(t[from]) then from
    else FirstFree(t, from + 1)
  }

  /** The program the CPU's program pointer designates. */
  function CurrentProgram(s: Sys): seq<Instruction>
    requires Shaped(s)
  {
    s.pcbEntry[s.cpu.program].program
  }

  /** `fork` changes something only with a free slot and an offset inside the current program. */
  predicate ForkAllowed(s: Sys, v: int)
    requires Shaped(s)
  {
    FirstFree(s.pcbEntry, 0) != -1 && 0 <= v < |CurrentProgram(s)|
  }

  /**
   * `fork` is defined unless it finds a free slot while no process runs: it then
   * takes the PCB at index -1. With every slot in use it returns before that.
   */
  predicate ForkDefined(s: Sys)
    requires Shaped(s)
  {
    s.runningState != -1 || FirstFree(s.pcbEntry, 0) == -1
  }

  /**
   * `fork` as written: the child slot receives the id, parent, counter, value,
   * priority, state, start time and time used, but its program is left as it was.
   */
  function ForkAsWritten(s: Sys, v: int): (r: Sys)
    requires Shaped(s) && ForkDefined(s)
    ensures Shaped(r)
  {
    if !ForkAllowed(s, v) then s
    else
      var i := FirstFree(s.pcbEntry, 0);
      var parent := s.pcbEntry[s.runningState];
      var child := Pcb(i, parent.processId, s.pcbEntry[i].program, s.cpu.programCounter, s.cpu.value,
                       parent.priority, Ready, s.timestamp, 0);
      s.(pcbEntry := s.pcbEntry[i := child],
         readyState := s.readyState + [i],
         cpu := s.cpu.(programCounter := s.cpu.programCounter + v))
  }

  /** The F instruction as intended: `fork` as written, with the parent's program given to the child. */
  function Fork(s: Sys, v: int): (r: Sys)
    requires Shaped(s) && ForkDefined(s)
    ensures Shaped(r)
  {
    if !ForkAllowed(s, v) then s
    else
      var i := FirstFree(s.pcbEntry, 0);
      var w := ForkAsWritten(s, v);
      w.(pcbEntry := w.pcbEntry[i := w.pcbEntry[i].(program := CurrentProgram(s))])
  }

  /**
   * `replace`: the current program is cleared and `createProgram` appends the named
   * file to it; on failure the counter moves past the R, on success it restarts at 0.
   */
  function Replace(s: Sys, files: FileSystem, name: string): (r: Sys)
    requires Shaped(s)
    ensures Shaped(r)
  {
    var loaded := Load(files, name);
    var slot := s.cpu.program;
    var pc := if loaded.error.None? then 0 else s.cpu.programCounter + 1;
    s.(pcbEntry := s.pcbEntry[slot := s.pcbEntry[slot].(program := loaded.program)],
       cpu := s.cpu.(programCounter := pc))
  }

  /** The `switch` of `quantum` on the fetched instruction. */
  function Execute(s: Sys, ins: Instruction, files: FileSystem): (r: Sys)
    requires Shaped(s) && (ins.Fork? ==> ForkDefined(s))
    ensures Shaped(r)
  {
    match ins
    case Set(v) => Set(s, v)
    case Add(v) => Add(s, v)
    case Decrement(v) => Decrement(s, v)
    case Block => Block(s)
    case End => End(s)
    case Fork(v) => Fork(s, v)
    case Replace(name) => Replace(s, files, name)
  }

  /** What `quantum` executes: the instruction at the counter, or an E past the end of the program. */
  function NextInstruction(s: Sys): Instruction
    requires Shaped(s)
  {
    var program := CurrentProgram(s);
    if s.cpu.programCounter < |program| then program[s.cpu.programCounter] else Instruction.End
  }

  /** `quantum` is defined unless it fetches an F that `fork` cannot carry out. */
  predicate QuantumDefined(s: Sys)
    requires Shaped(s)
  {
    !NextInstruction(s).Fork? || ForkDefined(s)
  }

  /** The fetch of `quantum`: the counter moves past an instruction that exists. */
  function Fetch(s: Sys): (r: Sys)
    requires Shaped(s)
    ensures Shaped(r) && r.runningState == s.runningState && r.pcbEntry == s.pcbEntry
  {
    if s.cpu.programCounter < |CurrentProgram(s)| then
      s.(cpu := s.cpu.(programCounter := s.cpu.programCounter + 1))
    else s
  }

  /** One tick of the clock. */
  function Tick(s: Sys): Sys
  {
    s.(timestamp := s.timestamp + 1)
  }

  /** `quantum`, the Q command: fetch, execute, one tick, then `schedule`. */
  function Quantum(s: Sys, files: FileSystem): Sys
    requires Shaped(s) && QuantumDefined(s)
  {
    var ins := NextInstruction(s);
    Schedule(Tick(Execute(Fetch(s), ins, files)))
  }

  /** `unblock`, the U command: the front of the blocked queue becomes ready, then `schedule`. */
  function Unblock(s: Sys): (r: Sys)
    requires Shaped(s)
    ensures Shaped(r)
  {
    if s.blockedState == [] then Schedule(s)
    else
      var p := s.blockedState[0];
      Schedule(s.(pcbEntry := s.pcbEntry[p := s.pcbEntry[p].(state := Ready)],
                  readyState := s.readyState + [p],
                  blockedState := s.blockedState[1..]))
  }

  /** The `switch` of `runProcessManager` on one command character; P and T only report, anything else is refused. */
  function Command(s: Sys, ch: char, files: FileSystem): Sys
    requires Shaped(s) && (ch == 'Q' ==> QuantumDefined(s))
  {
    if ch == 'Q' then Quantum(s, files)
    else if ch == 'U' then Unblock(s)
    else s
  }

  /** The state `runProcessManager` builds around the program of `init`: process 0 running. */
  function Initial(init: seq<Instruction>): Sys
  {
    var table := seq(TableSize, i => if i == 0 then Pcb(0, -1, init, 0, 0, 0, Running, 0, 0) else FreePcb);
    Sys(table, [], [], 0, Cpu(0, 0, 0), 0, 0, 0)
  }

  /** Start-up: the initial state, or nothing when `init` does not load. */
  function Start(files: FileSystem): Option<Sys>
  {
    var loaded := Load(files, "init");
    if loaded.error.Some? then None else Some(Initial(loaded.program))
  }

  /** `calculateTurnaroundTime`: the average of the turnarounds added up by `end`, truncated. */
  function AverageTurnaround(s: Sys): int
    requires s.numTerminatedProcesses > 0 && s.cumulativeTimeDiff >= 0
  {
    s.cumulativeTimeDiff / s.numTerminatedProcesses
  }

  /* ---------------- the ready queue by priority ---------------- */

  /** The processes of `q` whose priority is `p`, in queue order. */
  function OfPriority(t: seq<Pcb>, q: seq<nat>, p: nat): (g: seq<nat>)
    requires forall k | 0 <= k < |q| :: q[k] < |t|
    ensures |g| <= |q|
  {
    if q == [] then []
    else
      var last := q[|q| - 1];
      OfPriority(t, q[..|q| - 1], p) + (if t[last].priority == p then [last] else [])
  }

  /** The groups `print` lists: one per priority, ascending, each in ready-queue order. */
  function ReadyGroups(s: Sys): (groups: seq<seq<nat>>)
    requires Shaped(s)
    ensures |groups| == PriorityLevels
  {
    seq(PriorityLevels, p requires 0 <= p < PriorityLevels => OfPriority(s.pcbEntry, s.readyState, p))
  }

  function Flatten(groups: seq<seq<nat>>): seq<nat>
  {
    if groups == [] then [] else Flatten(groups[..|groups| - 1]) + groups[|groups| - 1]
  }
}

/**
 * The process manager as the program keeps it: a PCB table of 10 entries updated in
 * place, the ready and blocked queues, the running slot, the CPU context, the clock
 * and the turnaround accounts, with one method per operation. Each method is proved
 * to move the state exactly as the corresponding function of `Machine` does, and to
 * keep the invariant. `fork` is the corrected one, which gives the child the
 * parent's program.
 */
module ProcessManager {
  import opened Wrappers
  import Loader
  import opened Machine
  import Invariant
  import Report

  class Manager {
    const pcbEntry: array<Pcb>
    var readyState: seq<nat>
    var blockedState: seq<nat>
    var runningState: int
    var cpu: Cpu
    var timestamp: nat
    var cumulativeTimeDiff: int
    var numTerminatedProcesses: nat

    /** The state held by the fields, as a value. */
    ghost function Snapshot(): Sys
      reads this, pcbEntry
    {
      Sys(pcbEntry[..], readyState, blockedState, runningState, cpu, timestamp,
          cumulativeTimeDiff, numTerminatedProcesses)
    }

    ghost predicate Valid()
      reads this, pcbEntry
    {
      pcbEntry.Length == TableSize && Consistent(Snapshot())
    }

    /** The start of `runProcessManager` once `init` is loaded: process 0 runs it from its start. */
    constructor (init: seq<Loader.Instruction>)
      ensures Valid() && Snapshot() == Initial(init)
      ensures fresh(pcbEntry)
    {
      pcbEntry := new Pcb[TableSize](i => if i == 0 then Pcb(0, -1, init, 0, 0, 0, Running, 0, 0) else FreePcb);
      readyState := [];
      blockedState := [];
      runningState := 0;
      cpu := Cpu(0, 0, 0);
      timestamp := 0;
      cumulativeTimeDiff := 0;
      numTerminatedProcesses := 0;
      new;
      assert pcbEntry[..] == Initial(init).pcbEntry;
      Invariant.InitialConsistent(init);
    }

    /** Start-up: load `init` with `createProgram`; no manager when that fails. */
    static method Start(files: Loader.FileSystem) returns (m: Manager?)
      ensures m == null <==> Machine.Start(files).None?
      ensures m != null ==> fresh(m) && m.Valid() && Machine.Start(files) == Some(m.Snapshot())
    {
      var ok, program := Loader.CreateProgram(files, "init");
      if !ok {
        return null;
      }
      m := new Manager(program);
    }

    /** `set` */
    method Set(v: int)
      requires Valid()
      modifies this
      ensures Valid() && Snapshot() == Machine.Set(old(Snapshot()), v)
    {
      cpu := cpu.(value := v);
    }

    /** `add` */
    method Add(v: int)
      requires Valid()
      modifies this
      ensures Valid() && Snapshot() == Machine.Add(old(Snapshot()), v)
    {
      cpu := cpu.(value := cpu.value + v);
    }

    /** `decrement` */
    method Decrement(v: int)
      requires Valid()
      modifies this
      ensures Valid() && Snapshot() == Machine.Decrement(old(Snapshot()), v)
    {
      cpu := cpu.(value := cpu.value - v);
    }

    /** `schedule` */
    method Schedule()
      requires Valid()
      modifies this, pcbEntry
      ensures Valid() && Snapshot() == Machine.Schedule(old(Snapshot()))
    {
      Invariant.ScheduleKeeps(Snapshot());
      if runningState != -1 || readyState == [] {
        return;
      }
      var newProcess := readyState[0];
      readyState := readyState[1..];
      pcbEntry[newProcess] := pcbEntry[newProcess].(state := Running);
      cpu := Cpu(newProcess, pcbEntry[newProcess].programCounter, pcbEntry[newProcess].value);
      runningState := newProcess;
    }

    /** `block` */
    method Block()
      requires Valid()
      modifies this, pcbEntry
      ensures Valid() && Snapshot() == Machine.Block(old(Snapshot()))
    {
      Invariant.BlockKeeps(Snapshot());
      if runningState != -1 {
        blockedState := blockedState + [runningState];
        pcbEntry[runningState] := pcbEntry[runningState].(
          state := Blocked, programCounter := cpu.programCounter, value := cpu.value);
        runningState := -1;
      }
    }

    /** `end` */
    method End()
      requires Valid()
      modifies this, pcbEntry
      ensures Valid() && Snapshot() == Machine.End(old(Snapshot()))
    {
      Invariant.EndKeeps(Snapshot());
      if runningState == -1 {
        return;
      }
      var startTime := pcbEntry[runningState].startTime;
      cumulativeTimeDiff := cumulativeTimeDiff + (timestamp + 1 - startTime);
      pcbEntry[runningState] := pcbEntry[runningState].(state := Terminated);
      numTerminatedProcesses := numTerminatedProcesses + 1;
      runningState := -1;
    }

    /** The loop at the start of `fork`: the first slot whose id is -1, or -1. */
    method FindFreePcb() returns (freePcb: int)
      requires pcbEntry.Length == TableSize
      ensures freePcb == FirstFree(pcbEntry[..], 0)
    {
      var i := 0;
      while i < TableSize
        invariant 0 <= i <= TableSize
        invariant FirstFree(pcbEntry[..], i) == FirstFree(pcbEntry[..], 0)
      {
        if pcbEntry[i].processId == -1 {
          return i;
        }
        i := i + 1;
      }
      return -1;
    }

    /** `fork`, with the parent's program given to the child. */
    method Fork(v: int)
      requires Valid() && ForkDefined(Snapshot())
      modifies this, pcbEntry
      ensures Valid() && Snapshot() == Machine.Fork(old(Snapshot()), v)
    {
      ghost var s := Snapshot();
      Invariant.ForkKeeps(s, v);
      var freePcb := FindFreePcb();
      if freePcb == -1 {
        return;
      }
      var parent := pcbEntry[runningState];
      var program := pcbEntry[cpu.program].program;
      if v < 0 || v >= |program| {
        return;
      }
      ghost var r := Machine.Fork(s, v);
      pcbEntry[freePcb] := Pcb(freePcb, parent.processId, program, cpu.programCounter, cpu.value,
                               parent.priority, Ready, timestamp, 0);
      assert pcbEntry[..] == r.pcbEntry;
      readyState := readyState + [freePcb];
      cpu := cpu.(programCounter := cpu.programCounter + v);
      assert Snapshot() == r;
    }

    /** `replace` */
    method Replace(files: Loader.FileSystem, argument: string)
      requires Valid()
      modifies this, pcbEntry
      ensures Valid() && Snapshot() == Machine.Replace(old(Snapshot()), files, argument)
    {
      ghost var s := Snapshot();
      ghost var r := Machine.Replace(s, files, argument);
      Invariant.ReplaceKeeps(s, files, argument);
      var slot := cpu.program;
      pcbEntry[slot] := pcbEntry[slot].(program := []);
      var ok, program := Loader.CreateProgram(files, argument);
      pcbEntry[slot] := pcbEntry[slot].(program := program);
      assert pcbEntry[..] == r.pcbEntry;
      if !ok {
        cpu := cpu.(programCounter := cpu.programCounter + 1);
      } else {
        cpu := cpu.(programCounter := 0);
      }
      assert Snapshot() == r;
    }

    /** The fetch of `quantum`: the instruction at the counter, or an E past the end of the program. */
    method Fetch() returns (instruction: Loader.Instruction)
      requires Valid()
      modifies this
      ensures Valid() && Snapshot() == Machine.Fetch(old(Snapshot()))
      ensures instruction == NextInstruction(old(Snapshot()))
    {
      Invariant.FetchKeeps(Snapshot());
      var program := pcbEntry[cpu.program].program;
      if cpu.programCounter < |program| {
        instruction := program[cpu.programCounter];
        cpu := cpu.(programCounter := cpu.programCounter + 1);
      } else {
        instruction := Loader.End;
      }
    }

    /** The `switch` of `quantum` on the fetched instruction. */
    method Execute(instruction: Loader.Instruction, files: Loader.FileSystem)
      requires Valid() && (instruction.Fork? ==> ForkDefined(Snapshot()))
      modifies this, pcbEntry
      ensures Valid() && Snapshot() == Machine.Execute(old(Snapshot()), instruction, files)
    {
      match instruction {
        case Set(v) => Set(v);
        case Add(v) => Add(v);
        case Decrement(v) => Decrement(v);
        case Block => Block();
        case End => End();
        case Fork(v) => Fork(v);
        case Replace(name) => Replace(files, name);
      }
    }

    /** The clock step of `quantum`. */
    method Tick()
      requires Valid()
      modifies this
      ensures Valid() && Snapshot() == Machine.Tick(old(Snapshot()))
    {
      Invariant.TickKeeps(Snapshot());
      timestamp := timestamp + 1;
    }

    /** `quantum`, the Q command */
    method Quantum(files: Loader.FileSystem)
      requires Valid() && QuantumDefined(Snapshot())
      modifies this, pcbEntry
      ensures Valid() && Snapshot() == Machine.Quantum(old(Snapshot()), files)
    {
      ghost var s := Snapshot();
      var instruction := Fetch();
      ghost var fetched := Snapshot();
      Execute(instruction, files);
      ghost var executed := Snapshot();
      assert executed == Machine.Execute(fetched, NextInstruction(s), files);
      Tick();
      Schedule();
    }

    /** `unblock`, the U command */
    method Unblock()
      requires Valid()
      modifies this, pcbEntry
      ensures Valid() && Snapshot() == Machine.Unblock(old(Snapshot()))
    {
      if blockedState != [] {
        Invariant.ReadyAgainKeeps(Snapshot());
        var unblockedProcess := blockedState[0];
        blockedState := blockedState[1..];
        readyState := readyState + [unblockedProcess];
        pcbEntry[unblockedProcess] := pcbEntry[unblockedProcess].(state := Ready);
      }
      Schedule();
    }

    /**
     * The ready-queue part of `print`, the P command: each ready process is put in the
     * row of its priority, then the rows are listed by ascending priority.
     */
    method ReadyByPriority() returns (groups: seq<seq<nat>>)
      requires Valid()
      ensures groups == ReadyGroups(Snapshot())
    {
      var t := pcbEntry[..];
      Report.ReadyQueueBound(Snapshot());
      forall k | 0 <= k < |readyState|
        ensures readyState[k] < |t| && t[readyState[k]].priority < PriorityLevels
      {
        assert readyState[k] in readyState;
      }
      var rows, counts := FillRows(t, readyState);
      groups := ListRows(t, readyState, rows, counts);
    }

    /**
     * The `switch` of `runProcessManager` on one command character: Q, U and P as
     * above, T reports and asks to stop, anything else is refused.
     */
    method Command(ch: char, files: Loader.FileSystem) returns (terminate: bool)
      requires Valid() && (ch == 'Q' ==> QuantumDefined(Snapshot()))
      modifies this, pcbEntry
      ensures Valid() && Snapshot() == Machine.Command(old(Snapshot()), ch, files)
      ensures terminate <==> ch == 'T'
    {
      if ch == 'Q' {
        Quantum(files);
      } else if ch == 'U' {
        Unblock();
      } else if ch == 'P' {
        var _ := ReadyByPriority();
      }
      terminate := ch == 'T';
    }
  }

  /** The first loop of the grouping in `print`: each ready process goes into the row of its priority. */
  method FillRows(t: seq<Pcb>, ready: seq<nat>) returns (rows: array2<nat>, counts: array<nat>)
    requires |ready| <= TableSize
    requires forall k | 0 <= k < |ready| :: ready[k] < |t| && t[ready[k]].priority < PriorityLevels
    ensures fresh(rows) && fresh(counts)
    ensures rows.Length0 == PriorityLevels && rows.Length1 == TableSize && counts.Length == PriorityLevels
    ensures forall p | 0 <= p < PriorityLevels :: counts[p] == |OfPriority(t, ready, p)| <= TableSize
    ensures forall p, k | 0 <= p < PriorityLevels && 0 <= k < counts[p] ::
      rows[p, k] == OfPriority(t, ready, p)[k]
  {
    rows := new nat[PriorityLevels, TableSize];
    counts := new nat[PriorityLevels](_ => 0);
    var i := 0;
    while i < |ready|
      invariant 0 <= i <= |ready|
      invariant forall p | 0 <= p < PriorityLevels :: counts[p] == |OfPriority(t, ready[..i], p)| <= i
      invariant forall p, k | 0 <= p < PriorityLevels && 0 <= k < counts[p] ::
        rows[p, k] == OfPriority(t, ready[..i], p)[k]
    {
      var pid := ready[i];
      var priority := t[pid].priority;
      assert ready[..i + 1][..i] == ready[..i];
      rows[priority, counts[priority]] := pid;
      counts[priority] := counts[priority] + 1;
      i := i + 1;
    }
    assert ready[..i] == ready;
  }

  /** The second loop of the grouping in `print`: the rows, by ascending priority. */
  method ListRows(t: seq<Pcb>, ready: seq<nat>, rows: array2<nat>, counts: array<nat>)
    returns (groups: seq<seq<nat>>)
    requires forall k | 0 <= k < |ready| :: ready[k] < |t|
    requires rows.Length0 == PriorityLevels && rows.Length1 == TableSize && counts.Length == PriorityLevels
    requires forall p | 0 <= p < PriorityLevels :: counts[p] == |OfPriority(t, ready, p)| <= TableSize
    requires forall p, k | 0 <= p < PriorityLevels && 0 <= k < counts[p] ::
      rows[p, k] == OfPriority(t, ready, p)[k]
    ensures groups == seq(PriorityLevels, p requires 0 <= p < PriorityLevels => OfPriority(t, ready, p))
  {
    groups := [];
    var p := 0;
    while p < PriorityLevels
      invariant 0 <= p <= PriorityLevels
      invariant |groups| == p
      invariant forall q | 0 <= q < p :: groups[q] == OfPriority(t, ready, q)
    {
      var group := [];
      var k := 0;
      while k < counts[p]
        invariant 0 <= k <= counts[p]
        invariant group == OfPriority(t, ready, p)[..k]
      {
        group := group + [rows[p, k]];
        k := k + 1;
      }
      groups := groups + [group];
      p := p + 1;
    }
  }
}

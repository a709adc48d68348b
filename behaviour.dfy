/**
 * What each operation of the process manager does, stated against the invariant:
 * the value register, scheduling in queue order, blocking and resuming, the
 * turnaround accounts, `fork`'s slot choice and counter skip, `replace`, and the
 * fetch of `quantum`.
 */
module Behaviour {
  import Loader
  import opened Machine
  import opened Invariant

  /* ---------------- the value register ---------------- */

  /** S, A and D change the value register and nothing else. */
  lemma ValueRegister(s: Sys, v: int)
    ensures Set(s, v).cpu.value == v && Set(s, v).(cpu := s.cpu) == s
    ensures Add(s, v).cpu.value == s.cpu.value + v && Add(s, v).(cpu := s.cpu) == s
    ensures Decrement(s, v).cpu.value == s.cpu.value - v && Decrement(s, v).(cpu := s.cpu) == s
    ensures Set(s, v).cpu.(value := s.cpu.value) == s.cpu
    ensures Add(s, v).cpu.(value := s.cpu.value) == s.cpu
    ensures Decrement(s, v).cpu.(value := s.cpu.value) == s.cpu
  {
  }

  /** D undoes A and A undoes D. */
  lemma AddDecrementInverse(s: Sys, v: int)
    ensures Decrement(Add(s, v), v) == s
    ensures Add(Decrement(s, v), v) == s
  {
    assert Decrement(Add(s, v), v).cpu == s.cpu;
    assert Add(Decrement(s, v), v).cpu == s.cpu;
  }

  /** Set 5, add 3, decrement 1 leaves 7 in the value register. */
  lemma SetAddDecrementExample(s: Sys)
    ensures Decrement(Add(Set(s, 5), 3), 1).cpu.value == 7
  {
  }

  /* ---------------- schedule ---------------- */

  /** Scheduling twice is scheduling once. */
  lemma ScheduleIdempotent(s: Sys)
    requires Shaped(s)
    ensures Schedule(Schedule(s)) == Schedule(s)
  {
  }

  /**
   * With nothing running, `schedule` installs the process at the front of the ready
   * queue on the CPU with the counter and value it saved; otherwise it changes nothing.
   */
  lemma ScheduleTakesFront(s: Sys)
    requires Consistent(s)
    ensures s.runningState != -1 || s.readyState == [] ==> Schedule(s) == s
    ensures s.runningState == -1 && s.readyState != [] ==>
      var p := s.readyState[0];
      var r := Schedule(s);
      && r.runningState == p
      && r.readyState == s.readyState[1..]
      && r.blockedState == s.blockedState
      && r.cpu == Cpu(p, s.pcbEntry[p].programCounter, s.pcbEntry[p].value)
      && r.pcbEntry[p] == s.pcbEntry[p].(state := Running)
      && s.pcbEntry[p].state == Ready
      && (forall k | 0 <= k < TableSize && k != p :: r.pcbEntry[k] == s.pcbEntry[k])
  {
    if s.runningState == -1 && s.readyState != [] {
      assert s.readyState[0] in s.readyState;
    }
  }

  /* ---------------- block and unblock ---------------- */

  /**
   * `block` moves the running process to the back of the blocked queue with the
   * CPU's counter and value saved into its PCB; with nothing running it does nothing.
   */
  lemma BlockSaves(s: Sys)
    requires Consistent(s)
    ensures s.runningState == -1 ==> Block(s) == s
    ensures s.runningState != -1 ==>
      var p := s.runningState;
      var r := Block(s);
      && r.runningState == -1
      && r.blockedState == s.blockedState + [p]
      && p !in s.blockedState
      && r.readyState == s.readyState
      && r.pcbEntry[p] == s.pcbEntry[p].(state := Blocked, programCounter := s.cpu.programCounter,
                                         value := s.cpu.value)
      && r.cpu == s.cpu
      && (forall k | 0 <= k < TableSize && k != p :: r.pcbEntry[k] == s.pcbEntry[k])
  {
  }

  /**
   * `unblock` moves the front of the blocked queue to the back of the ready queue
   * and then schedules; with an empty blocked queue it only schedules. With nothing
   * running, the CPU then goes to the front of the ready queue, which is the process
   * just unblocked when no other process was ready.
   */
  lemma UnblockMoves(s: Sys)
    requires Consistent(s)
    ensures s.blockedState == [] ==> Unblock(s) == Schedule(s)
    ensures s.blockedState != [] && s.runningState != -1 ==>
      var p := s.blockedState[0];
      var r := Unblock(s);
      && r.readyState == s.readyState + [p]
      && r.blockedState == s.blockedState[1..]
      && r.pcbEntry[p].state == Ready
      && r.runningState == s.runningState
    ensures s.blockedState != [] && s.runningState == -1 ==>
      var p := s.blockedState[0];
      var r := Unblock(s);
      && r.blockedState == s.blockedState[1..]
      && r.runningState == (if s.readyState == [] then p else s.readyState[0])
      && r.readyState == (s.readyState + [p])[1..]
      && r.pcbEntry[p].state == (if s.readyState == [] then Running else Ready)
  {
  }

  /**
   * Block followed by unblock, with no other process waiting, resumes the same
   * process with the same counter and value: the CPU is exactly as it was.
   */
  lemma BlockUnblockResumes(s: Sys)
    requires Consistent(s) && s.runningState != -1
    requires s.readyState == [] && s.blockedState == []
    ensures Unblock(Schedule(Block(s))).runningState == s.runningState
    ensures Unblock(Schedule(Block(s))).cpu == s.cpu
    ensures Unblock(Schedule(Block(s))).readyState == []
    ensures Unblock(Schedule(Block(s))).blockedState == []
  {
    var b := Block(s);
    BlockSaves(s);
    assert Schedule(b) == b;
    assert b.blockedState == [s.runningState];
  }

  /* ---------------- end ---------------- */

  /**
   * `end` terminates the running process, adds its turnaround `timestamp + 1 - startTime`
   * (at least 1) and counts it; with nothing running it does nothing.
   */
  lemma EndAccounts(s: Sys)
    requires Consistent(s)
    ensures s.runningState == -1 ==> End(s) == s
    ensures s.runningState != -1 ==>
      var p := s.runningState;
      var r := End(s);
      && r.runningState == -1
      && r.pcbEntry[p].state == Terminated
      && r.numTerminatedProcesses == s.numTerminatedProcesses + 1
      && r.cumulativeTimeDiff == s.cumulativeTimeDiff + (s.timestamp + 1 - s.pcbEntry[p].startTime)
      && r.cumulativeTimeDiff >= s.cumulativeTimeDiff + 1
      && r.readyState == s.readyState && r.blockedState == s.blockedState
      && r.cpu == s.cpu && r.timestamp == s.timestamp
      && r.pcbEntry[p] == s.pcbEntry[p].(state := Terminated)
      && (forall k | 0 <= k < TableSize && k != p :: r.pcbEntry[k] == s.pcbEntry[k])
  {
  }

  /** Once something has terminated, the average turnaround is at least one tick. */
  lemma TurnaroundAtLeastOne(s: Sys)
    requires Consistent(s) && s.numTerminatedProcesses > 0
    ensures AverageTurnaround(s) >= 1
  {
  }

  /* ---------------- mutual exclusion ---------------- */

  function Count(b: bool): nat
  {
    if b then 1 else 0
  }

  /**
   * Every process is in exactly one place: the ready queue, the blocked queue, the
   * running slot, or terminated and in no queue; and at most one process runs.
   */
  lemma ExactlyOnePlace(s: Sys, i: nat)
    requires Consistent(s) && i < TableSize && InUse(s.pcbEntry[i])
    ensures Count(i in s.readyState) + Count(i in s.blockedState)
          + Count(i == s.runningState) + Count(s.pcbEntry[i].state == Terminated) == 1
  {
  }

  lemma AtMostOneRunning(s: Sys, i: nat, j: nat)
    requires Consistent(s) && i < TableSize && j < TableSize
    requires InUse(s.pcbEntry[i]) && s.pcbEntry[i].state == Running
    requires InUse(s.pcbEntry[j]) && s.pcbEntry[j].state == Running
    ensures i == j
  {
  }

  /* ---------------- fork ---------------- */

  /** `fork` finds a slot exactly when one is free, and then the lowest free one. */
  lemma FirstFreeIsLowest(t: seq<Pcb>)
    ensures FirstFree(t, 0) != -1 <==> exists k | 0 <= k < |t| :: !InUse(t[k])
    ensures FirstFree(t, 0) != -1 ==> forall k | 0 <= k < |t| && !InUse(t[k]) :: FirstFree(t, 0) <= k
  {
  }

  /**
   * `fork(v)` changes nothing without a free slot or with `v` outside the current
   * program; otherwise the lowest free slot receives a Ready child of the running
   * process that carries the CPU's counter and value, its priority and the current
   * program, the child joins the back of the ready queue, the parent's counter
   * skips `v` instructions, and no other slot changes.
   */
  lemma ForkCreatesChild(s: Sys, v: int)
    requires Consistent(s) && ForkDefined(s)
    ensures !ForkAllowed(s, v) ==> Fork(s, v) == s
    ensures ForkAllowed(s, v) ==>
      var i := FirstFree(s.pcbEntry, 0);
      var parent := s.pcbEntry[s.runningState];
      var r := Fork(s, v);
      && s.runningState != -1
      && 0 < i < TableSize
      && !InUse(s.pcbEntry[i])
      && r.pcbEntry[i] == Pcb(i, s.runningState, CurrentProgram(s), s.cpu.programCounter, s.cpu.value,
                              parent.priority, Ready, s.timestamp, 0)
      && r.readyState == s.readyState + [i]
      && r.blockedState == s.blockedState
      && r.runningState == s.runningState
      && r.cpu == s.cpu.(programCounter := s.cpu.programCounter + v)
      && (forall k | 0 <= k < TableSize && k != i :: r.pcbEntry[k] == s.pcbEntry[k])
  {
    FreeSlotAfterUsed(s);
  }

  /**
   * After a fork, the child goes on at the instruction after the F while the
   * parent goes on `v` instructions further, both in the same program.
   */
  lemma ForkSplitsControl(s: Sys, v: int)
    requires Consistent(s) && ForkDefined(s) && ForkAllowed(s, v)
    ensures
      var i := FirstFree(s.pcbEntry, 0);
      var r := Fork(s, v);
      && r.pcbEntry[i].program == CurrentProgram(r)
      && r.cpu.programCounter == r.pcbEntry[i].programCounter + v
  {
    ForkCreatesChild(s, v);
  }

  /**
   * `fork` as written leaves the child's program empty although the parent's is not:
   * the child's first quantum runs off the end of an empty program and ends it.
   */
  lemma ForkAsWrittenLosesProgram(s: Sys, v: int)
    requires Consistent(s) && ForkDefined(s) && ForkAllowed(s, v)
    ensures
      var i := FirstFree(s.pcbEntry, 0);
      && ForkAsWritten(s, v).pcbEntry[i].program == []
      && CurrentProgram(s) != []
      && Fork(s, v).pcbEntry[i].program == CurrentProgram(s)
  {
    FreeSlotAfterUsed(s);
  }

  /* ---------------- replace ---------------- */

  /**
   * `replace` leaves in the slot the CPU points at what `createProgram` appended to
   * the cleared program, and no other slot changes; the counter restarts at 0 on
   * success and moves past the R on failure, and a file that cannot be opened
   * leaves the program empty.
   */
  lemma ReplaceLoads(s: Sys, files: Loader.FileSystem, name: string)
    requires Consistent(s)
    ensures
      var r := Replace(s, files, name);
      var loaded := Loader.Load(files, name);
      && CurrentProgram(r) == loaded.program
      && (loaded.error.None? ==> r.cpu.programCounter == 0)
      && (loaded.error.Some? ==> r.cpu.programCounter == s.cpu.programCounter + 1)
      && (name !in files ==> CurrentProgram(r) == [])
      && r.runningState == s.runningState && r.cpu.value == s.cpu.value
      && r.readyState == s.readyState && r.blockedState == s.blockedState
      && r.cpu.program == s.cpu.program
      && r.pcbEntry[s.cpu.program] == s.pcbEntry[s.cpu.program].(program := loaded.program)
      && (forall k | 0 <= k < TableSize && k != s.cpu.program :: r.pcbEntry[k] == s.pcbEntry[k])
  {
  }

  /** Replacing with a file that holds a program written one instruction per line installs that program from its start. */
  lemma ReplaceRendered(s: Sys, files: Loader.FileSystem, name: string, program: seq<Loader.Instruction>)
    requires Consistent(s)
    requires name in files && files[name] == Loader.RenderAll(program)
    requires forall k | 0 <= k < |program| :: Loader.Expressible(program[k])
    ensures CurrentProgram(Replace(s, files, name)) == program
    ensures Replace(s, files, name).cpu.programCounter == 0
  {
    Loader.LoadRendered(program, 0);
  }

  /* ---------------- quantum ---------------- */

  /** Every quantum advances the clock by exactly one tick. */
  lemma QuantumTicks(s: Sys, files: Loader.FileSystem)
    requires Consistent(s) && QuantumDefined(s)
    ensures Quantum(s, files).timestamp == s.timestamp + 1
  {
  }

  /**
   * With the counter past the end of its program, the running process executes an
   * implicit E: it terminates and the next ready process, if any, takes the CPU.
   */
  lemma QuantumPastEndTerminates(s: Sys, files: Loader.FileSystem)
    requires Consistent(s) && s.runningState != -1
    requires s.cpu.programCounter >= |CurrentProgram(s)|
    ensures Quantum(s, files).pcbEntry[s.runningState].state == Terminated
    ensures Quantum(s, files).numTerminatedProcesses == s.numTerminatedProcesses + 1
    ensures Quantum(s, files).runningState == (if s.readyState == [] then -1 else s.readyState[0])
  {
    EndKeeps(s);
    EndAccounts(s);
    TickKeeps(End(s));
    ScheduleTakesFront(Tick(End(s)));
  }

  /**
   * An S, A or D at the counter of the running process is executed on the value
   * register, the counter moves past it, and the process keeps the CPU.
   */
  lemma QuantumArithmetic(s: Sys, files: Loader.FileSystem)
    requires Consistent(s) && s.runningState != -1
    requires s.cpu.programCounter < |CurrentProgram(s)|
    requires var ins := CurrentProgram(s)[s.cpu.programCounter]; ins.Set? || ins.Add? || ins.Decrement?
    ensures
      var ins := CurrentProgram(s)[s.cpu.programCounter];
      var r := Quantum(s, files);
      && r.runningState == s.runningState
      && r.cpu.programCounter == s.cpu.programCounter + 1
      && r.cpu.value == (match ins
                         case Set(v) => v
                         case Add(v) => s.cpu.value + v
                         case Decrement(v) => s.cpu.value - v
                         case _ => s.cpu.value)
      && r.pcbEntry == s.pcbEntry
  {
  }

  /* ---------------- start-up ---------------- */

  /** Start-up succeeds exactly when `init` loads, and then process 0 runs `init` from its start. */
  lemma StartRunsInit(files: Loader.FileSystem)
    ensures Start(files).Some? <==> Loader.Load(files, "init").error.None?
    ensures Start(files).Some? ==>
      var s := Start(files).value;
      && Consistent(s)
      && s.runningState == 0
      && CurrentProgram(s) == Loader.Load(files, "init").program
      && s.cpu.programCounter == 0
      && s.pcbEntry[0].parentProcessId == -1
  {
    if Start(files).Some? {
      InitialConsistent(Loader.Load(files, "init").program);
    }
  }
}

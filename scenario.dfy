/**
 * Concrete runs of the process manager: loading a small program, running it
 * quantum by quantum, and the run of a forking program with `fork` as written and
 * with `fork` as intended.
 */
module Scenario {
  import opened Wrappers
  import Loader
  import opened Machine

  /** Loading the lines `S 5`, `A 3`, `D 1`, `E` gives those four instructions in order. */
  lemma LoadExample()
    ensures Loader.Load(map["prog" := ["S 5", "A 3", "D 1", "E"]], "prog")
         == Loader.Loaded([Loader.Set(5), Loader.Add(3), Loader.Decrement(1), Loader.End], None)
  {
    var program := [Loader.Set(5), Loader.Add(3), Loader.Decrement(1), Loader.End];
    assert Loader.Render(program[0]) == "S 5" by {
      assert Loader.ShowInt(5) == "5";
    }
    assert Loader.Render(program[1]) == "A 3" by {
      assert Loader.ShowInt(3) == "3";
    }
    assert Loader.Render(program[2]) == "D 1" by {
      assert Loader.ShowInt(1) == "1";
    }
    assert Loader.RenderAll(program) == ["S 5", "A 3", "D 1", "E"];
    Loader.LoadRendered(program, 0);
  }

  /** The forking program: S 1, F 2, S 2, E, S 3, E. */
  const ForkDemo: seq<Loader.Instruction> :=
    [Loader.Set(1), Loader.Fork(2), Loader.Set(2), Loader.End, Loader.Set(3), Loader.End]

  /** A state with the given slots first and every other slot free, and an empty blocked queue. */
  function Snap(table: seq<Pcb>, ready: seq<nat>, running: int, cpu: Cpu, timestamp: nat, turnaround: int, ended: nat): Sys
    requires |table| <= TableSize
  {
    Sys(table + seq(TableSize - |table|, _ => FreePcb), ready, [], running, cpu, timestamp, turnaround, ended)
  }

  function Parent(state: State): Pcb
  {
    Pcb(0, -1, ForkDemo, 0, 0, 0, state, 0, 0)
  }

  /** The child created by the F at time 1, with the program it receives. */
  function Child(program: seq<Loader.Instruction>, state: State): Pcb
  {
    Pcb(1, 0, program, 2, 1, 0, state, 1, 0)
  }

  /* The run with `fork` as intended, one quantum per lemma. */

  lemma Intended1(files: Loader.FileSystem)
    ensures Quantum(Initial(ForkDemo), files) == Snap([Parent(Running)], [], 0, Cpu(0, 1, 1), 1, 0, 0)
  {
    assert Initial(ForkDemo).pcbEntry == Snap([Parent(Running)], [], 0, Cpu(0, 0, 0), 0, 0, 0).pcbEntry;
  }

  lemma Intended2(files: Loader.FileSystem)
    ensures Quantum(Snap([Parent(Running)], [], 0, Cpu(0, 1, 1), 1, 0, 0), files)
         == Snap([Parent(Running), Child(ForkDemo, Ready)], [1], 0, Cpu(0, 4, 1), 2, 0, 0)
  {
  }

  lemma Intended3(files: Loader.FileSystem)
    ensures Quantum(Snap([Parent(Running), Child(ForkDemo, Ready)], [1], 0, Cpu(0, 4, 1), 2, 0, 0), files)
         == Snap([Parent(Running), Child(ForkDemo, Ready)], [1], 0, Cpu(0, 5, 3), 3, 0, 0)
  {
  }

  lemma Intended4(files: Loader.FileSystem)
    ensures Quantum(Snap([Parent(Running), Child(ForkDemo, Ready)], [1], 0, Cpu(0, 5, 3), 3, 0, 0), files)
         == Snap([Parent(Terminated), Child(ForkDemo, Running)], [], 1, Cpu(1, 2, 1), 4, 4, 1)
  {
  }

  lemma Intended5(files: Loader.FileSystem)
    ensures Quantum(Snap([Parent(Terminated), Child(ForkDemo, Running)], [], 1, Cpu(1, 2, 1), 4, 4, 1), files)
         == Snap([Parent(Terminated), Child(ForkDemo, Running)], [], 1, Cpu(1, 3, 2), 5, 4, 1)
  {
  }

  lemma Intended6(files: Loader.FileSystem)
    ensures Quantum(Snap([Parent(Terminated), Child(ForkDemo, Running)], [], 1, Cpu(1, 3, 2), 5, 4, 1), files)
         == Snap([Parent(Terminated), Child(ForkDemo, Terminated)], [], -1, Cpu(1, 4, 2), 6, 9, 2)
  {
  }

  /* The run with `fork` as written: the F quantum uses `ForkAsWritten`. */

  lemma AsWritten2(files: Loader.FileSystem)
    ensures Schedule(Tick(ForkAsWritten(Fetch(Snap([Parent(Running)], [], 0, Cpu(0, 1, 1), 1, 0, 0)), 2)))
         == Snap([Parent(Running), Child([], Ready)], [1], 0, Cpu(0, 4, 1), 2, 0, 0)
  {
  }

  lemma AsWritten3(files: Loader.FileSystem)
    ensures Quantum(Snap([Parent(Running), Child([], Ready)], [1], 0, Cpu(0, 4, 1), 2, 0, 0), files)
         == Snap([Parent(Running), Child([], Ready)], [1], 0, Cpu(0, 5, 3), 3, 0, 0)
  {
  }

  lemma AsWritten4(files: Loader.FileSystem)
    ensures Quantum(Snap([Parent(Running), Child([], Ready)], [1], 0, Cpu(0, 5, 3), 3, 0, 0), files)
         == Snap([Parent(Terminated), Child([], Running)], [], 1, Cpu(1, 2, 1), 4, 4, 1)
  {
  }

  lemma AsWritten5(files: Loader.FileSystem)
    ensures Quantum(Snap([Parent(Terminated), Child([], Running)], [], 1, Cpu(1, 2, 1), 4, 4, 1), files)
         == Snap([Parent(Terminated), Child([], Terminated)], [], -1, Cpu(1, 2, 1), 5, 8, 2)
  {
  }

  /** `n` quanta in a row, stopping early where a quantum would fork with nothing running. */
  function Run(s: Sys, files: Loader.FileSystem, n: nat): Sys
    requires Shaped(s)
    decreases n
  {
    if n == 0 || !QuantumDefined(s) then s else Run(Quantum(s, files), files, n - 1)
  }

  /** The program S 5, A 3, D 1, E. */
  const Example: seq<Loader.Instruction> :=
    [Loader.Set(5), Loader.Add(3), Loader.Decrement(1), Loader.End]

  function Runner(state: State): Pcb
  {
    Pcb(0, -1, Example, 0, 0, 0, state, 0, 0)
  }

  lemma Example1(files: Loader.FileSystem)
    ensures Quantum(Initial(Example), files) == Snap([Runner(Running)], [], 0, Cpu(0, 1, 5), 1, 0, 0)
  {
    assert Initial(Example).pcbEntry == Snap([Runner(Running)], [], 0, Cpu(0, 0, 0), 0, 0, 0).pcbEntry;
  }

  lemma Example2(files: Loader.FileSystem)
    ensures Quantum(Snap([Runner(Running)], [], 0, Cpu(0, 1, 5), 1, 0, 0), files)
         == Snap([Runner(Running)], [], 0, Cpu(0, 2, 8), 2, 0, 0)
  {
  }

  lemma Example3(files: Loader.FileSystem)
    ensures Quantum(Snap([Runner(Running)], [], 0, Cpu(0, 2, 8), 2, 0, 0), files)
         == Snap([Runner(Running)], [], 0, Cpu(0, 3, 7), 3, 0, 0)
  {
  }

  lemma Example4(files: Loader.FileSystem)
    ensures Quantum(Snap([Runner(Running)], [], 0, Cpu(0, 3, 7), 3, 0, 0), files)
         == Snap([Runner(Terminated)], [], -1, Cpu(0, 4, 7), 4, 4, 1)
  {
  }

  /**
   * Running S 5, A 3, D 1, E as `init`: after three quanta the value register holds
   * 7 and the process still runs; the fourth quantum ends it at time 4, a turnaround of 4.
   */
  lemma RunExample(files: Loader.FileSystem)
    ensures Run(Initial(Example), files, 3) == Snap([Runner(Running)], [], 0, Cpu(0, 3, 7), 3, 0, 0)
    ensures Run(Initial(Example), files, 4) == Snap([Runner(Terminated)], [], -1, Cpu(0, 4, 7), 4, 4, 1)
  {
    var s1 := Snap([Runner(Running)], [], 0, Cpu(0, 1, 5), 1, 0, 0);
    var s2 := Snap([Runner(Running)], [], 0, Cpu(0, 2, 8), 2, 0, 0);
    var s3 := Snap([Runner(Running)], [], 0, Cpu(0, 3, 7), 3, 0, 0);
    var s4 := Snap([Runner(Terminated)], [], -1, Cpu(0, 4, 7), 4, 4, 1);
    Example1(files);
    Example2(files);
    Example3(files);
    Example4(files);
    assert Run(s3, files, 0) == s3;
    assert Run(s4, files, 0) == s4;
    assert Run(s3, files, 1) == Run(s4, files, 0);
    assert Run(s2, files, 1) == Run(s3, files, 0);
    assert Run(s2, files, 2) == Run(s3, files, 1);
    assert Run(s1, files, 2) == Run(s2, files, 1);
    assert Run(s1, files, 3) == Run(s2, files, 2);
  }

  /**
   * With `fork` as intended the parent skips S 2 and ends holding 3 at time 3,
   * while the child, created at time 1, goes on after the F, executes S 2 and ends
   * holding 2 at time 5; the turnarounds 4 and 5 add up to 9.
   */
  lemma ForkDemoAsIntended(files: Loader.FileSystem)
    ensures Run(Initial(ForkDemo), files, 3)
         == Snap([Parent(Running), Child(ForkDemo, Ready)], [1], 0, Cpu(0, 5, 3), 3, 0, 0)
    ensures Run(Initial(ForkDemo), files, 6)
         == Snap([Parent(Terminated), Child(ForkDemo, Terminated)], [], -1, Cpu(1, 4, 2), 6, 9, 2)
  {
    var s1 := Snap([Parent(Running)], [], 0, Cpu(0, 1, 1), 1, 0, 0);
    var s2 := Snap([Parent(Running), Child(ForkDemo, Ready)], [1], 0, Cpu(0, 4, 1), 2, 0, 0);
    var s3 := Snap([Parent(Running), Child(ForkDemo, Ready)], [1], 0, Cpu(0, 5, 3), 3, 0, 0);
    var s4 := Snap([Parent(Terminated), Child(ForkDemo, Running)], [], 1, Cpu(1, 2, 1), 4, 4, 1);
    var s5 := Snap([Parent(Terminated), Child(ForkDemo, Running)], [], 1, Cpu(1, 3, 2), 5, 4, 1);
    var s6 := Snap([Parent(Terminated), Child(ForkDemo, Terminated)], [], -1, Cpu(1, 4, 2), 6, 9, 2);
    Intended1(files);
    Intended2(files);
    Intended3(files);
    Intended4(files);
    Intended5(files);
    Intended6(files);
    assert Run(s3, files, 0) == s3;
    assert Run(s2, files, 1) == Run(s3, files, 0);
    assert Run(s1, files, 2) == Run(s2, files, 1);
    assert Run(s6, files, 0) == s6;
    assert Run(s5, files, 1) == Run(s6, files, 0);
    assert Run(s4, files, 2) == Run(s5, files, 1);
    assert Run(s3, files, 3) == Run(s4, files, 2);
    assert Run(s2, files, 4) == Run(s3, files, 3);
    assert Run(s1, files, 5) == Run(s2, files, 4);
  }

  /**
   * With `fork` as written the child is scheduled at time 4 with an empty program:
   * its first quantum finds the counter past the end and ends it holding the 1 it
   * inherited, without executing S 2.
   */
  lemma ForkDemoAsWritten(files: Loader.FileSystem)
    ensures Schedule(Tick(ForkAsWritten(Fetch(Run(Initial(ForkDemo), files, 1)), 2)))
         == Snap([Parent(Running), Child([], Ready)], [1], 0, Cpu(0, 4, 1), 2, 0, 0)
    ensures Run(Snap([Parent(Running), Child([], Ready)], [1], 0, Cpu(0, 4, 1), 2, 0, 0), files, 2)
         == Snap([Parent(Terminated), Child([], Running)], [], 1, Cpu(1, 2, 1), 4, 4, 1)
    ensures Run(Snap([Parent(Running), Child([], Ready)], [1], 0, Cpu(0, 4, 1), 2, 0, 0), files, 3)
         == Snap([Parent(Terminated), Child([], Terminated)], [], -1, Cpu(1, 2, 1), 5, 8, 2)
  {
    var s1 := Snap([Parent(Running)], [], 0, Cpu(0, 1, 1), 1, 0, 0);
    var s3 := Snap([Parent(Running), Child([], Ready)], [1], 0, Cpu(0, 5, 3), 3, 0, 0);
    var s4 := Snap([Parent(Terminated), Child([], Running)], [], 1, Cpu(1, 2, 1), 4, 4, 1);
    var s5 := Snap([Parent(Terminated), Child([], Terminated)], [], -1, Cpu(1, 2, 1), 5, 8, 2);
    Intended1(files);
    assert Run(Initial(ForkDemo), files, 1) == s1 by {
      assert Run(s1, files, 0) == s1;
    }
    AsWritten2(files);
    AsWritten3(files);
    AsWritten4(files);
    AsWritten5(files);
    assert Run(s4, files, 0) == s4;
    assert Run(s5, files, 0) == s5;
    assert Run(s4, files, 1) == Run(s5, files, 0);
    assert Run(s3, files, 1) == Run(s4, files, 0);
    assert Run(s3, files, 2) == Run(s4, files, 1);
  }
}

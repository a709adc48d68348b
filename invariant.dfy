/**
 * Every operation of the process manager keeps its invariant: queue membership
 * matches the lifecycle state, at most one process runs, slots are handed out in
 * order and never freed, and the turnaround accounts match the table.
 */
module Invariant {
  import Loader
  import opened Machine

  /** Replacing one slot changes the terminated count by what the slot contributes. */
  lemma {:induction false} CountUpdate(t: seq<Pcb>, i: nat, e: Pcb)
    requires i < |t|
    ensures TerminatedCount(t[i := e]) + Terminal(t[i]) == TerminatedCount(t) + Terminal(e)
  {
    var n := |t| - 1;
    if i == n {
      assert t[i := e][..n] == t[..n];
    } else {
      assert t[i := e][..n] == t[..n][i := e];
      CountUpdate(t[..n], i, e);
    }
  }

  /** Dropping the front of a queue without duplicates removes exactly that process. */
  lemma PopFront(q: seq<nat>)
    requires q != [] && Distinct(q)
    ensures Distinct(q[1..])
    ensures forall x :: x in q[1..] <==> x in q && x != q[0]
  {
    forall x | x in q && x != q[0] ensures x in q[1..] {
      var k :| 0 <= k < |q| && q[k] == x;
      assert q[1..][k - 1] == x;
    }
  }

  /** Appending a process not yet in a queue without duplicates keeps it free of duplicates. */
  lemma PushBack(q: seq<nat>, p: nat)
    requires Distinct(q) && p !in q
    ensures Distinct(q + [p])
    ensures forall x :: x in q + [p] <==> x in q || x == p
  {
  }

  lemma ScheduleKeeps(s: Sys)
    requires Consistent(s)
    ensures Consistent(Schedule(s))
  {
    if s.runningState == -1 && s.readyState != [] {
      var p := s.readyState[0];
      var r := Schedule(s);
      assert p in s.readyState;
      PopFront(s.readyState);
      CountUpdate(s.pcbEntry, p, r.pcbEntry[p]);
      assert QueuesOk(r);
    }
  }

  lemma BlockKeeps(s: Sys)
    requires Consistent(s)
    ensures Consistent(Block(s))
  {
    if s.runningState != -1 {
      var p := s.runningState;
      var r := Block(s);
      PushBack(s.blockedState, p);
      CountUpdate(s.pcbEntry, p, r.pcbEntry[p]);
      assert QueuesOk(r);
    }
  }

  lemma EndKeeps(s: Sys)
    requires Consistent(s)
    ensures Consistent(End(s))
  {
    if s.runningState != -1 {
      var p := s.runningState;
      CountUpdate(s.pcbEntry, p, End(s).pcbEntry[p]);
      assert QueuesOk(End(s));
    }
  }

  /** The slot `fork` hands out comes after every slot in use, the running one included. */
  lemma FreeSlotAfterUsed(s: Sys)
    requires Consistent(s)
    ensures var i := FirstFree(s.pcbEntry, 0);
      i != -1 ==> i != 0 && s.pcbEntry[i] == FreePcb && forall k: nat | i <= k < TableSize :: !InUse(s.pcbEntry[k])
  {
  }

  lemma ForkAsWrittenKeeps(s: Sys, v: int)
    requires Consistent(s) && ForkDefined(s)
    ensures Consistent(ForkAsWritten(s, v))
  {
    if ForkAllowed(s, v) {
      var i := FirstFree(s.pcbEntry, 0);
      var r := ForkAsWritten(s, v);
      FreeSlotAfterUsed(s);
      PushBack(s.readyState, i);
      CountUpdate(s.pcbEntry, i, r.pcbEntry[i]);
      assert TableOk(r);
      assert QueuesOk(r);
    }
  }

  /** Giving a slot in use another program touches nothing the invariant speaks of. */
  lemma ProgramChangeKeeps(s: Sys, slot: nat, program: seq<Loader.Instruction>)
    requires Consistent(s) && slot < TableSize && InUse(s.pcbEntry[slot])
    ensures Consistent(s.(pcbEntry := s.pcbEntry[slot := s.pcbEntry[slot].(program := program)]))
  {
    var r := s.(pcbEntry := s.pcbEntry[slot := s.pcbEntry[slot].(program := program)]);
    CountUpdate(s.pcbEntry, slot, r.pcbEntry[slot]);
    assert TableOk(r);
    assert QueuesOk(r);
  }

  lemma ForkKeeps(s: Sys, v: int)
    requires Consistent(s) && ForkDefined(s)
    ensures Consistent(Fork(s, v))
  {
    ForkAsWrittenKeeps(s, v);
    if ForkAllowed(s, v) {
      var i := FirstFree(s.pcbEntry, 0);
      ProgramChangeKeeps(ForkAsWritten(s, v), i, CurrentProgram(s));
    }
  }

  lemma ReplaceKeeps(s: Sys, files: Loader.FileSystem, name: string)
    requires Consistent(s)
    ensures Consistent(Replace(s, files, name))
  {
    ProgramChangeKeeps(s, s.cpu.program, Loader.Load(files, name).program);
  }

  /** The first half of `unblock`: the front of the blocked queue moves to the back of the ready queue. */
  lemma ReadyAgainKeeps(s: Sys)
    requires Consistent(s) && s.blockedState != []
    ensures var p := s.blockedState[0];
      Consistent(s.(pcbEntry := s.pcbEntry[p := s.pcbEntry[p].(state := Ready)],
                    readyState := s.readyState + [p],
                    blockedState := s.blockedState[1..]))
  {
    var p := s.blockedState[0];
    var u := s.(pcbEntry := s.pcbEntry[p := s.pcbEntry[p].(state := Ready)],
                readyState := s.readyState + [p],
                blockedState := s.blockedState[1..]);
    assert p in s.blockedState;
    PopFront(s.blockedState);
    PushBack(s.readyState, p);
    CountUpdate(s.pcbEntry, p, u.pcbEntry[p]);
    assert QueuesOk(u);
  }

  lemma UnblockKeeps(s: Sys)
    requires Consistent(s)
    ensures Consistent(Unblock(s))
  {
    if s.blockedState == [] {
      ScheduleKeeps(s);
    } else {
      var p := s.blockedState[0];
      ReadyAgainKeeps(s);
      ScheduleKeeps(s.(pcbEntry := s.pcbEntry[p := s.pcbEntry[p].(state := Ready)],
                       readyState := s.readyState + [p],
                       blockedState := s.blockedState[1..]));
    }
  }

  lemma ExecuteKeeps(s: Sys, ins: Loader.Instruction, files: Loader.FileSystem)
    requires Consistent(s) && (ins.Fork? ==> ForkDefined(s))
    ensures Consistent(Execute(s, ins, files))
  {
    match ins
    case Set(_) =>
    case Add(_) =>
    case Decrement(_) =>
    case Block => BlockKeeps(s);
    case End => EndKeeps(s);
    case Fork(v) => ForkKeeps(s, v);
    case Replace(name) => ReplaceKeeps(s, files, name);
  }

  lemma TickKeeps(s: Sys)
    requires Consistent(s)
    ensures Consistent(Tick(s))
  {
    assert TableOk(Tick(s));
  }

  lemma FetchKeeps(s: Sys)
    requires Consistent(s)
    ensures Consistent(Fetch(s))
  {
    assert TableOk(Fetch(s));
  }

  /** A quantum keeps the invariant. */
  lemma QuantumKeeps(s: Sys, files: Loader.FileSystem)
    requires Consistent(s) && QuantumDefined(s)
    ensures Consistent(Quantum(s, files))
  {
    var f := Fetch(s);
    FetchKeeps(s);
    var e := Execute(f, NextInstruction(s), files);
    ExecuteKeeps(f, NextInstruction(s), files);
    TickKeeps(e);
    ScheduleKeeps(Tick(e));
  }

  /** Every command keeps the invariant. */
  lemma CommandKeeps(s: Sys, ch: char, files: Loader.FileSystem)
    requires Consistent(s) && (ch == 'Q' ==> QuantumDefined(s))
    ensures Consistent(Command(s, ch, files))
  {
    if ch == 'Q' {
      QuantumKeeps(s, files);
    } else if ch == 'U' {
      UnblockKeeps(s);
    }
  }

  /** The state built around `init` satisfies the invariant. */
  lemma InitialConsistent(init: seq<Loader.Instruction>)
    ensures Consistent(Initial(init))
  {
    var s := Initial(init);
    ZeroTerminated(s.pcbEntry, TableSize);
    assert s.pcbEntry[..TableSize] == s.pcbEntry;
  }

  lemma {:induction false} ZeroTerminated(t: seq<Pcb>, n: nat)
    requires n <= |t|
    requires forall k | 0 <= k < n :: t[k].state != Terminated
    ensures TerminatedCount(t[..n]) == 0
  {
    if n > 0 {
      assert t[..n][..n - 1] == t[..n - 1];
      ZeroTerminated(t, n - 1);
    }
  }
}

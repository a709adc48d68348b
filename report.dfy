/**
 * The ready-queue part of `print`: the ready processes listed in one group per
 * priority, ascending, each group in queue order. The groups partition the ready
 * queue, and no group can outgrow the 10 places `print` reserves for it.
 */
module Report {
  import opened Machine

  predicate InTable(t: seq<Pcb>, q: seq<nat>)
  {
    forall k | 0 <= k < |q| :: q[k] < |t|
  }

  /** A process is in the group of priority `p` exactly when it is in the queue with priority `p`. */
  lemma {:induction false} OfPriorityMembers(t: seq<Pcb>, q: seq<nat>, p: nat)
    requires InTable(t, q)
    ensures forall x :: x in OfPriority(t, q, p) <==> x in q && x < |t| && t[x].priority == p
  {
    if q != [] {
      var front := q[..|q| - 1];
      OfPriorityMembers(t, front, p);
      assert q == front + [q[|q| - 1]];
    }
  }

  /** Grouping keeps queue order: the group of a concatenation is the concatenation of the groups. */
  lemma {:induction false} OfPriorityAppend(t: seq<Pcb>, a: seq<nat>, b: seq<nat>, p: nat)
    requires InTable(t, a) && InTable(t, b)
    ensures InTable(t, a + b)
    ensures OfPriority(t, a + b, p) == OfPriority(t, a, p) + OfPriority(t, b, p)
  {
    if b != [] {
      var front := b[..|b| - 1];
      var last := b[|b| - 1];
      assert (a + b)[..|a + b| - 1] == a + front;
      assert (a + b)[|a + b| - 1] == last;
      OfPriorityAppend(t, a, front, p);
    } else {
      assert a + b == a;
    }
  }

  /** The processes of `q` whose priority is below `n`, in queue order. */
  function Below(t: seq<Pcb>, q: seq<nat>, n: nat): seq<nat>
    requires InTable(t, q)
  {
    if q == [] then []
    else
      var last := q[|q| - 1];
      Below(t, q[..|q| - 1], n) + (if t[last].priority < n then [last] else [])
  }

  lemma {:induction false} SplitBelow(t: seq<Pcb>, q: seq<nat>, n: nat)
    requires InTable(t, q)
    ensures multiset(Below(t, q, n + 1)) == multiset(Below(t, q, n)) + multiset(OfPriority(t, q, n))
  {
    if q != [] {
      SplitBelow(t, q[..|q| - 1], n);
    }
  }

  lemma {:induction false} AllBelow(t: seq<Pcb>, q: seq<nat>, n: nat)
    requires InTable(t, q)
    requires forall k | 0 <= k < |q| :: t[q[k]].priority < n
    ensures Below(t, q, n) == q
  {
    if q != [] {
      AllBelow(t, q[..|q| - 1], n);
      assert q[..|q| - 1] + [q[|q| - 1]] == q;
    }
  }

  /** The groups of priorities `0 .. n - 1`. */
  function Groups(t: seq<Pcb>, q: seq<nat>, n: nat): (groups: seq<seq<nat>>)
    requires InTable(t, q)
    ensures |groups| == n
  {
    seq(n, p requires 0 <= p < n => OfPriority(t, q, p))
  }

  lemma {:induction false} FlattenGroups(t: seq<Pcb>, q: seq<nat>, n: nat)
    requires InTable(t, q)
    ensures multiset(Flatten(Groups(t, q, n))) == multiset(Below(t, q, n))
  {
    if n == 0 {
      BelowNothing(t, q);
    } else {
      assert Groups(t, q, n)[..n - 1] == Groups(t, q, n - 1);
      FlattenGroups(t, q, n - 1);
      SplitBelow(t, q, n - 1);
    }
  }

  lemma {:induction false} BelowNothing(t: seq<Pcb>, q: seq<nat>)
    requires InTable(t, q)
    ensures Below(t, q, 0) == []
  {
    if q != [] {
      BelowNothing(t, q[..|q| - 1]);
    }
  }

  /**
   * The groups `print` lists partition the ready queue: every ready process is
   * listed once, in the group of its own priority, and nothing else is listed.
   */
  lemma ReadyGroupsPartition(s: Sys)
    requires Consistent(s)
    ensures multiset(Flatten(ReadyGroups(s))) == multiset(s.readyState)
    ensures forall p, x | 0 <= p < PriorityLevels && x in ReadyGroups(s)[p] ::
      x in s.readyState && s.pcbEntry[x].priority == p
  {
    var t, q := s.pcbEntry, s.readyState;
    assert ReadyGroups(s) == Groups(t, q, PriorityLevels);
    FlattenGroups(t, q, PriorityLevels);
    forall k | 0 <= k < |q| ensures t[q[k]].priority < PriorityLevels {
      assert q[k] in q;
    }
    AllBelow(t, q, PriorityLevels);
    forall p | 0 <= p < PriorityLevels {
      OfPriorityMembers(t, q, p);
    }
  }

  /* ---------------- the size of the ready queue ---------------- */

  /** A queue without duplicates drawn from a set is no longer than the set is large. */
  lemma {:induction false} DistinctWithin(q: seq<nat>, pool: set<nat>)
    requires Distinct(q)
    requires forall k | 0 <= k < |q| :: q[k] in pool
    ensures |q| <= |pool|
  {
    if q != [] {
      assert forall k | 0 <= k < |q| - 1 :: q[1..][k] == q[k + 1];
      DistinctWithin(q[1..], pool - {q[0]});
    }
  }

  /** The slot numbers below `n`. */
  function Slots(n: nat): (r: set<nat>)
    ensures |r| == n
    ensures forall x: int :: x in r <==> 0 <= x < n
  {
    if n == 0 then {} else Slots(n - 1) + {n - 1}
  }

  /** A queue of distinct slot numbers holds at most 10 processes. */
  lemma QueueBound(q: seq<nat>)
    requires Distinct(q) && forall k | 0 <= k < |q| :: q[k] < TableSize
    ensures |q| <= TableSize
  {
    DistinctWithin(q, Slots(TableSize));
  }

  /** The ready queue never holds more than 10 processes. */
  lemma ReadyQueueBound(s: Sys)
    requires Consistent(s)
    ensures |s.readyState| <= TableSize
  {
    QueueBound(s.readyState);
  }

  /** So no priority group of `print` holds more than 10 processes. */
  lemma GroupBound(s: Sys, p: nat)
    requires Consistent(s)
    ensures |OfPriority(s.pcbEntry, s.readyState, p)| <= TableSize
  {
    ReadyQueueBound(s);
  }
}

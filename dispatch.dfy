/** The dispatch rules of the scheduler as functions on an abstract state:
    what `add`, the quantum-expiry check and `so_exec` do to the ready queue,
    the running task and its remaining quantum. */
module Dispatch {
  import opened Tasks
  import opened ReadyQueue

  /** The scheduler once some task holds the CPU: the ready queue, the
      running task and the units left of its quantum. Every queued task has a
      full quantum, so only the running task's counter is kept here. */
  datatype Sched = Sched(queue: seq<Task>, running: Task, time: nat)

  /** The queue is ordered by priority, holds no task twice, does not hold
      the running task, and no queued task outranks the running one. */
  predicate Ordered(s: Sched)
  {
    && Sorted(s.queue)
    && Distinct(s.queue)
    && s.running !in s.queue
    && forall k :: 0 <= k < |s.queue| ==> s.queue[k].priority <= s.running.priority
  }

  /** What holds between scheduling points: the order above and a running
      quantum that is neither exhausted nor above the configured one. */
  predicate Inv(s: Sched, quantum: nat)
  {
    Ordered(s) && 1 <= s.time <= quantum
  }

  /** The tasks the scheduler knows about: the queue and the running task. */
  function Known(s: Sched): multiset<Task>
  {
    multiset(s.queue) + multiset{s.running}
  }

  /** `add`: a newcomer of strictly higher priority takes the CPU (with the
      full quantum it was created with) and the old running task is queued;
      otherwise the running task is charged one unit and the newcomer is
      queued. */
  function Admit(s: Sched, t: Task, quantum: nat): (r: Sched)
    requires 1 <= s.time
    ensures s.running.priority < t.priority <==> r.running == t && t != s.running
    ensures r.running == s.running || r.running == t
    ensures r.running.priority >= s.running.priority && r.running.priority >= t.priority
    ensures |r.queue| == |s.queue| + 1
  {
    if s.running.priority < t.priority then Sched(Insert(s.queue, s.running), t, quantum)
    else Sched(Insert(s.queue, t), s.running, s.time - 1)
  }

  /** The round-robin step taken when the running quantum is exhausted: the
      queue head is dispatched if its priority equals the running task's. */
  predicate Rotates(s: Sched): (b: bool)
    ensures Ordered(s) ==>
      (b <==> s.time == 0 && |s.queue| > 0 && s.queue[0].priority >= s.running.priority)
  {
    s.time == 0 && |s.queue| > 0 && s.queue[0].priority == s.running.priority
  }

  /** The quantum-expiry check of `so_fork` and `so_exec`: on a rotation the
      head runs and the old running task is re-queued; otherwise an exhausted
      quantum is refilled and the running task keeps the CPU. */
  function Expire(s: Sched, quantum: nat): (r: Sched)
    ensures s.time != 0 ==> r == s
    ensures r.running.priority == s.running.priority && |r.queue| == |s.queue|
    ensures 1 <= quantum ==> 1 <= r.time
  {
    if s.time != 0 then s
    else if Rotates(s) then Sched(Insert(s.queue[1..], s.running), s.queue[0], quantum)
    else s.(time := quantum)
  }

  /** `so_exec` with a running task: one unit is charged, then expiry. */
  function Tick(s: Sched, quantum: nat): (r: Sched)
    requires 1 <= s.time && 1 <= quantum
    ensures 1 <= r.time
    ensures r.running.priority == s.running.priority && |r.queue| == |s.queue|
  {
    Expire(s.(time := s.time - 1), quantum)
  }

  /** `so_fork` once a task is running: admission, then expiry. */
  function Fork(s: Sched, t: Task, quantum: nat): (r: Sched)
    requires 1 <= s.time
    ensures r.running.priority >= s.running.priority && r.running.priority >= t.priority
    ensures |r.queue| == |s.queue| + 1
    ensures 1 <= quantum ==> 1 <= r.time
  {
    Expire(Admit(s, t, quantum), quantum)
  }

  /** `n` calls of `so_exec` in a row. */
  function Ticks(s: Sched, n: nat, quantum: nat): (r: Sched)
    requires 1 <= s.time && 1 <= quantum
    ensures 1 <= r.time
    decreases n
  {
    if n == 0 then s else Ticks(Tick(s, quantum), n - 1, quantum)
  }

  /** Under Ordered, the equality test on the head's priority is the same as
      "the head is at least as urgent as the running task". */
  lemma {:induction false} HeadTestIsAtLeast(s: Sched)
    requires Ordered(s) && |s.queue| > 0
    ensures s.queue[0].priority == s.running.priority <==> s.queue[0].priority >= s.running.priority
  {
    assert s.queue[0].priority <= s.running.priority;
  }

  /** Admission keeps the order and at most a full quantum, and adds exactly
      the newcomer to the known tasks. */
  lemma {:induction false} AdmitOrdered(s: Sched, t: Task, quantum: nat)
    requires Inv(s, quantum)
    requires t !in s.queue && t != s.running
    ensures Ordered(Admit(s, t, quantum)) && Admit(s, t, quantum).time <= quantum
    ensures Known(Admit(s, t, quantum)) == Known(s) + multiset{t}
  {
    if s.running.priority < t.priority {
      InsertSorted(s.queue, s.running);
      InsertDistinct(s.queue, s.running);
      InsertMembers(s.queue, s.running);
      InsertPermutes(s.queue, s.running);
      InsertBelow(s.queue, s.running, t.priority);
    } else {
      InsertSorted(s.queue, t);
      InsertDistinct(s.queue, t);
      InsertMembers(s.queue, t);
      InsertPermutes(s.queue, t);
      InsertBelow(s.queue, t, s.running.priority);
    }
  }

  /** The rotation keeps the order, hands the CPU to the head with a full
      quantum and loses no task. */
  lemma {:induction false} RotationRestores(s: Sched, quantum: nat)
    requires Ordered(s) && Rotates(s) && 1 <= quantum
    ensures var r := Sched(Insert(s.queue[1..], s.running), s.queue[0], quantum);
      Inv(r, quantum) && Known(r) == Known(s)
  {
    var head, rest := s.queue[0], s.queue[1..];
    assert s.queue == [head] + rest;
    assert Sorted(rest) && Distinct(rest);
    assert s.running !in rest;
    assert head !in rest;
    assert forall k :: 0 <= k < |rest| ==> rest[k].priority <= head.priority by {
      forall k | 0 <= k < |rest|
        ensures rest[k].priority <= head.priority
      {
        assert rest[k] == s.queue[k + 1];
      }
    }
    InsertSorted(rest, s.running);
    InsertDistinct(rest, s.running);
    InsertMembers(rest, s.running);
    InsertPermutes(rest, s.running);
    InsertBelow(rest, s.running, head.priority);
    assert multiset(s.queue) == multiset{head} + multiset(rest);
  }

  /** Expiry restores the invariant: whatever happens, the running task ends
      with 1..quantum units, the order is kept and no task is lost. */
  lemma {:induction false} ExpireRestores(s: Sched, quantum: nat)
    requires Ordered(s) && s.time <= quantum && 1 <= quantum
    ensures Inv(Expire(s, quantum), quantum)
    ensures Known(Expire(s, quantum)) == Known(s)
  {
    if Rotates(s) {
      RotationRestores(s, quantum);
    }
  }

  /** `so_exec` keeps the invariant and the set of known tasks. */
  lemma {:induction false} TickPreserves(s: Sched, quantum: nat)
    requires Inv(s, quantum)
    ensures Inv(Tick(s, quantum), quantum)
    ensures Known(Tick(s, quantum)) == Known(s)
  {
    ExpireRestores(s.(time := s.time - 1), quantum);
  }

  /** `so_fork` keeps the invariant and adds exactly the new task. */
  lemma {:induction false} ForkPreserves(s: Sched, t: Task, quantum: nat)
    requires Inv(s, quantum)
    requires t !in s.queue && t != s.running
    ensures Inv(Fork(s, t, quantum), quantum)
    ensures Known(Fork(s, t, quantum)) == Known(s) + multiset{t}
  {
    AdmitOrdered(s, t, quantum);
    ExpireRestores(Admit(s, t, quantum), quantum);
  }

  /** A newcomer that outranks the running task runs at once with a full
      quantum; one that does not leaves the CPU where it was unless the
      charge for the fork exhausted an equal-priority rotation. */
  lemma {:induction false} ForkPriority(s: Sched, t: Task, quantum: nat)
    requires Inv(s, quantum)
    ensures s.running.priority < t.priority ==>
      Fork(s, t, quantum).running == t && Fork(s, t, quantum).time == quantum
    ensures s.running.priority >= t.priority && s.time >= 2 ==>
      Fork(s, t, quantum).running == s.running && Fork(s, t, quantum).time == s.time - 1
  {
  }

  /** `so_exec` never hands the CPU to a task of another priority. */
  lemma {:induction false} TicksKeepLevel(s: Sched, n: nat, quantum: nat)
    requires 1 <= s.time && 1 <= quantum
    ensures Ticks(s, n, quantum).running.priority == s.running.priority
    decreases n
  {
    if n > 0 {
      TicksKeepLevel(Tick(s, quantum), n - 1, quantum);
    }
  }

  /** Fewer calls than the units left only count the quantum down. */
  lemma {:induction false} TicksCountDown(s: Sched, n: nat, quantum: nat)
    requires 1 <= quantum && n < s.time
    ensures Ticks(s, n, quantum) == s.(time := s.time - n)
    decreases n
  {
    if n > 0 {
      TicksCountDown(Tick(s, quantum), n - 1, quantum);
    }
  }

  /** Running `a` calls and then `b` calls is running `a + b` calls. */
  lemma {:induction false} TicksSplit(s: Sched, a: nat, b: nat, quantum: nat)
    requires 1 <= s.time && 1 <= quantum
    ensures Ticks(s, a + b, quantum) == Ticks(Ticks(s, a, quantum), b, quantum)
    decreases a
  {
    if a > 0 {
      TicksSplit(Tick(s, quantum), a - 1, b, quantum);
    }
  }

  /** The running task followed by the queue: the order of service. */
  function Ring(s: Sched): seq<Task>
  {
    [s.running] + s.queue
  }

  /** The ring turned by one place: the head moves to the back. */
  function RotateOnce(r: seq<Task>): seq<Task>
  {
    if r == [] then [] else r[1..] + [r[0]]
  }

  /** The ring turned by `k` places. */
  function Rotate(r: seq<Task>, k: nat): seq<Task>
    decreases k
  {
    if k == 0 then r else Rotate(RotateOnce(r), k - 1)
  }

  /** Every task has the running task's priority. */
  predicate OneLevel(s: Sched)
  {
    forall k :: 0 <= k < |s.queue| ==> s.queue[k].priority == s.running.priority
  }

  /** Moving the running task behind an equal-priority queue and running
      the head turns the ring by one place and keeps a single level. */
  lemma {:induction false} HandOverOneLevel(s: Sched, quantum: nat)
    requires OneLevel(s) && s.queue != []
    ensures var r := Sched(s.queue[1..] + [s.running], s.queue[0], quantum);
      Ring(r) == RotateOnce(Ring(s)) && OneLevel(r)
  {
    var head, rest := s.queue[0], s.queue[1..];
    var r := Sched(rest + [s.running], head, quantum);
    assert s.queue == [head] + rest;
    assert Ring(r) == [head] + rest + [s.running];
    forall k | 0 <= k < |r.queue|
      ensures r.queue[k].priority == head.priority
    {
      if k < |rest| {
        assert r.queue[k] == s.queue[k + 1];
      }
    }
  }

  /** The last unit of an equal-priority quantum: the head takes over with
      a full quantum and the old running task goes to the back. */
  lemma {:induction false} LastUnitRotates(s: Sched, quantum: nat)
    requires Inv(s, quantum) && OneLevel(s) && s.time == 1
    ensures var r := Tick(s, quantum);
      Ring(r) == RotateOnce(Ring(s)) && Inv(r, quantum) && OneLevel(r) && r.time == quantum
  {
    TickPreserves(s, quantum);
    if s.queue != [] {
      InsertAppends(s.queue[1..], s.running);
      HandOverOneLevel(s, quantum);
    }
  }

  /** Round robin, one round: with every task at one priority and a fresh
      quantum, `quantum` calls of `so_exec` pass the CPU to the queue head and
      put the old running task at the back. */
  lemma {:induction false} RoundRobinRound(s: Sched, quantum: nat)
    requires Inv(s, quantum) && OneLevel(s) && s.time == quantum
    ensures var r := Ticks(s, quantum, quantum);
      Ring(r) == RotateOnce(Ring(s)) && Inv(r, quantum) && OneLevel(r) && r.time == quantum
  {
    TicksSplit(s, quantum - 1, 1, quantum);
    TicksCountDown(s, quantum - 1, quantum);
    var last := s.(time := 1);
    assert Ticks(last, 1, quantum) == Tick(last, quantum);
    LastUnitRotates(last, quantum);
  }

  /** `k` rounds of `quantum` calls are one round followed by `k - 1`. */
  lemma {:induction false} TicksRounds(s: Sched, quantum: nat, k: nat)
    requires 1 <= s.time && 1 <= quantum && 1 <= k
    ensures Ticks(s, k * quantum, quantum) == Ticks(Ticks(s, quantum, quantum), (k - 1) * quantum, quantum)
  {
    var n, m := k * quantum, (k - 1) * quantum;
    assert n == quantum + m by {
      assert k * quantum == (k - 1) * quantum + 1 * quantum;
    }
    TicksSplit(s, quantum, m, quantum);
  }

  /** Round robin over `k` rounds: the ring of equal-priority tasks is served
      in strict circular order. */
  lemma {:induction false} RoundRobin(s: Sched, quantum: nat, k: nat)
    requires Inv(s, quantum) && OneLevel(s) && s.time == quantum
    ensures Ring(Ticks(s, k * quantum, quantum)) == Rotate(Ring(s), k)
    decreases k
  {
    if k == 0 {
      assert k * quantum == 0;
    } else {
      var next := Ticks(s, quantum, quantum);
      RoundRobinRound(s, quantum);
      TicksRounds(s, quantum, k);
      RoundRobin(next, quantum, k - 1);
      assert Rotate(Ring(s), k) == Rotate(Ring(next), k - 1);
    }
  }

  /** A run of three forks with the corrected insertion: quantum 2, tasks
      a and b at priority 5 and c at priority 3, forked in that order, a
      first. Forking c charges a its last unit, so b takes over (that
      `so_fork` returns 0) and a is queued in front of c.
      ForkExampleAsWritten shows the same run with the shift as written. */
  lemma {:induction false} ForkExample(a: Task, b: Task, c: Task)
    requires a.priority == 5 && b.priority == 5 && c.priority == 3
    ensures Fork(Sched([], a, 2), b, 2) == Sched([b], a, 1)
    ensures Rotates(Admit(Sched([b], a, 1), c, 2))
    ensures Fork(Sched([b], a, 1), c, 2) == Sched([a, c], b, 2)
  {
    assert Insert([], b) == [b];
    assert Insert([b], c) == [b, c];
    assert Insert([c], a) == [a, c];
  }

  /** Two tasks of one priority under a quantum of 2: the second fork
      charges the running task one unit, and the next `so_exec` exhausts
      its quantum and hands the CPU to the newcomer. */
  lemma {:induction false} TwoTaskExample(a: Task, b: Task)
    requires a != b && a.priority == b.priority
    ensures Fork(Sched([], a, 2), b, 2) == Sched([b], a, 1)
    ensures Tick(Sched([b], a, 1), 2) == Sched([a], b, 2)
  {
    assert Insert([], b) == [b];
    assert Insert([], a) == [a];
  }

  /** `add` with the shift of lines 72-74 as written. */
  function AdmitAsWritten(s: Sched, t: Task, quantum: nat): (r: Sched)
    requires 1 <= s.time
    ensures r.running == s.running || r.running == t
    ensures r.running.priority >= s.running.priority && r.running.priority >= t.priority
    ensures |r.queue| == |s.queue| + 1
  {
    if s.running.priority < t.priority then Sched(InsertAsWritten(s.queue, s.running), t, quantum)
    else Sched(InsertAsWritten(s.queue, t), s.running, s.time - 1)
  }

  /** The quantum-expiry check with the shift of lines 72-74 as written. */
  function ExpireAsWritten(s: Sched, quantum: nat): (r: Sched)
    ensures s.time != 0 ==> r == s
    ensures r.running.priority == s.running.priority && |r.queue| == |s.queue|
    ensures 1 <= quantum ==> 1 <= r.time
  {
    if s.time != 0 then s
    else if Rotates(s) then Sched(InsertAsWritten(s.queue[1..], s.running), s.queue[0], quantum)
    else s.(time := quantum)
  }

  /** `so_fork` once a task is running, as written. */
  function ForkAsWritten(s: Sched, t: Task, quantum: nat): (r: Sched)
    requires 1 <= s.time
    ensures r.running.priority >= s.running.priority && r.running.priority >= t.priority
    ensures |r.queue| == |s.queue| + 1
  {
    ExpireAsWritten(AdmitAsWritten(s, t, quantum), quantum)
  }

  /** `so_exec` with a running task, as written. */
  function TickAsWritten(s: Sched, quantum: nat): (r: Sched)
    requires 1 <= s.time && 1 <= quantum
    ensures 1 <= r.time
    ensures r.running.priority == s.running.priority && |r.queue| == |s.queue|
  {
    ExpireAsWritten(s.(time := s.time - 1), quantum)
  }

  /** With every queued task at least as urgent as `p`, InsertPos is the
      length: both insertions append. */
  lemma {:induction false} AppendBoth(q: seq<Task>, t: Task)
    requires forall k :: 0 <= k < |q| ==> q[k].priority >= t.priority
    ensures InsertAsWritten(q, t) == q + [t] && Insert(q, t) == q + [t]
  {
    InsertAppends(q, t);
  }

  /** Among tasks of one priority every insertion appends, so the fork as
      written is the corrected fork. */
  lemma {:induction false} ForkAsWrittenOneLevel(s: Sched, t: Task, quantum: nat)
    requires 1 <= s.time && OneLevel(s) && t.priority == s.running.priority
    ensures ForkAsWritten(s, t, quantum) == Fork(s, t, quantum)
  {
    AppendBoth(s.queue, t);
    var m := Admit(s, t, quantum);
    assert AdmitAsWritten(s, t, quantum) == m;
    if m.time == 0 && Rotates(m) {
      AppendBoth(m.queue[1..], m.running);
    }
  }

  /** Among tasks of one priority `so_exec` as written is the corrected
      `so_exec`, so RoundRobin holds for the code as written. */
  lemma {:induction false} TickAsWrittenOneLevel(s: Sched, quantum: nat)
    requires 1 <= s.time && 1 <= quantum && OneLevel(s)
    ensures TickAsWritten(s, quantum) == Tick(s, quantum)
  {
    if s.time == 1 && Rotates(s.(time := 0)) {
      AppendBoth(s.queue[1..], s.running);
    }
  }

  /** The run of ForkExample with the shift as written: the rotation puts
      a in front of c, the shift reads `ready[-1]` and the queue ends as
      [a, a]. c is lost, and `so_end` would release a twice. */
  lemma {:induction false} ForkExampleAsWritten(a: Task, b: Task, c: Task)
    requires a.priority == 5 && b.priority == 5 && c.priority == 3 && a != c
    ensures ForkAsWritten(Sched([], a, 2), b, 2) == Sched([b], a, 1)
    ensures ForkAsWritten(Sched([b], a, 1), c, 2) == Sched([a, a], b, 2)
    ensures c !in ForkAsWritten(Sched([b], a, 1), c, 2).queue
    ensures ForkAsWritten(Sched([b], a, 1), c, 2) != Fork(Sched([b], a, 1), c, 2)
  {
    assert InsertAsWritten([], b) == [b];
    assert InsertAsWritten([b], c) == [b, c];
    assert InsertAsWritten([c], a) == [a, a];
    ForkExample(a, b, c);
  }

  /** `so_exec` keeps a one-level state one-level: it never changes the
      running priority and only reorders the known tasks. */
  lemma {:induction false} TickKeepsOneLevel(s: Sched, quantum: nat)
    requires Inv(s, quantum) && OneLevel(s)
    ensures OneLevel(Tick(s, quantum))
  {
    var r := Tick(s, quantum);
    TickPreserves(s, quantum);
    forall k | 0 <= k < |r.queue|
      ensures r.queue[k].priority == r.running.priority
    {
      var x := r.queue[k];
      assert x in multiset(r.queue);
      assert x in Known(s);
      if x != s.running {
        assert x in multiset(s.queue);
        assert x in s.queue;
      }
    }
  }

  /** `n` calls of `so_exec` as written. */
  function TicksAsWritten(s: Sched, n: nat, quantum: nat): (r: Sched)
    requires 1 <= s.time && 1 <= quantum
    ensures 1 <= r.time && r.running.priority == s.running.priority
    decreases n
  {
    if n == 0 then s else TicksAsWritten(TickAsWritten(s, quantum), n - 1, quantum)
  }

  /** Among tasks of one priority any number of `so_exec` calls as written
      equals the same number of corrected calls. */
  lemma {:induction false} TicksAsWrittenOneLevel(s: Sched, n: nat, quantum: nat)
    requires Inv(s, quantum) && OneLevel(s)
    ensures TicksAsWritten(s, n, quantum) == Ticks(s, n, quantum)
    decreases n
  {
    if n > 0 {
      TickAsWrittenOneLevel(s, quantum);
      TickPreserves(s, quantum);
      TickKeepsOneLevel(s, quantum);
      TicksAsWrittenOneLevel(Tick(s, quantum), n - 1, quantum);
    }
  }

  /** Round robin for the code as written: among tasks of one priority,
      `k * quantum` calls of `so_exec` turn the ring by `k` places. */
  lemma {:induction false} RoundRobinAsWritten(s: Sched, quantum: nat, k: nat)
    requires Inv(s, quantum) && OneLevel(s) && s.time == quantum
    ensures Ring(TicksAsWritten(s, k * quantum, quantum)) == Rotate(Ring(s), k)
  {
    TicksAsWrittenOneLevel(s, k * quantum, quantum);
    RoundRobin(s, quantum, k);
  }
}

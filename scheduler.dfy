/** The scheduler record (`struct scheduler`) and the operations that change
    it in place: the ready array, the running slot and the counters. */
module Scheduling {
  import opened Tasks
  import opened ReadyQueue
  import opened Dispatch

  /** SO_MAX_UNITS: the largest time quantum `so_init` accepts. */
  const MaxUnits: nat := 32
  /** SO_MAX_THREADS: the number of slots of the ready array. */
  const MaxThreads: nat := 50

  /** Every task of `c` holds a full quantum. */
  ghost predicate AllFull(c: seq<Task>, quantum: nat)
    reads c
  {
    forall x :: x in c ==> x.time == quantum
  }

  /** A task queued with a full quantum keeps the queue full. */
  lemma {:induction false} InsertFull(c: seq<Task>, t: Task, quantum: nat)
    requires AllFull(c, quantum) && t.time == quantum
    ensures AllFull(Insert(c, t), quantum)
  {
    InsertMembers(c, t);
  }

  /** Dropping the head keeps the queue full. */
  lemma {:induction false} DropFull(c: seq<Task>, quantum: nat)
    requires AllFull(c, quantum) && c != []
    ensures AllFull(c[1..], quantum)
  {
    forall x | x in c[1..]
      ensures x.time == quantum
    {
      var k :| 0 <= k < |c[1..]| && c[1..][k] == x;
      assert c[k + 1] == x;
    }
  }

  /** An array prefix laid out as the old queue up to InsertPos, then `t`,
      then the rest of the old queue, is the intended insertion. */
  lemma {:induction false} PlacedIsInsert(a: seq<Task?>, c: seq<Task>, t: Task)
    requires |a| == |c| + 1
    requires a[..InsertPos(c, t.priority)] == c[..InsertPos(c, t.priority)]
    requires a[InsertPos(c, t.priority)] == t
    requires a[InsertPos(c, t.priority) + 1..] == c[InsertPos(c, t.priority)..]
    ensures a == Insert(c, t)
  {
    var i := InsertPos(c, t.priority);
    assert a == a[..i] + [a[i]] + a[i + 1..];
  }

  /** The layout the code as written leaves: the old queue up to InsertPos,
      `t`, the old entries moved up by one, and `t` again in the last slot. */
  lemma {:induction false} PlacedAsWritten(a: seq<Task?>, c: seq<Task>, t: Task)
    requires |a| == |c| + 1
    requires a[..InsertPos(c, t.priority)] == c[..InsertPos(c, t.priority)]
    requires a[InsertPos(c, t.priority)] == t
    requires forall k :: InsertPos(c, t.priority) < k < |c| ==> a[k] == c[k - 1]
    requires a[|c|] == t
    ensures a == InsertAsWritten(c, t)
  {
    var i := InsertPos(c, t.priority);
    var n := |c|;
    if i == n {
      assert a == a[..n] + [a[n]];
    } else {
      assert a[i + 1..n] == c[i..n - 1];
      assert a == a[..i] + [a[i]] + a[i + 1..n] + [a[n]];
    }
  }

  /** The search loop of lines 68-70: the first slot whose task has a lower
      priority than `p`, or `n`. */
  method SearchSlot(a: array<Task?>, n: nat, p: nat, ghost c: seq<Task>) returns (i: nat)
    requires n <= a.Length && a[..n] == c
    ensures i == InsertPos(c, p)
  {
    i := 0;
    while i < n
      invariant 0 <= i <= n
      invariant forall k :: 0 <= k < i ==> c[k].priority >= p
    {
      assert a[i] == c[i];
      if p > a[i].priority {
        break;
      }
      i := i + 1;
    }
    InsertPosUnique(c, p, i);
  }

  /** The shift the loop of lines 72-74 intends: the entries from slot `i`
      on move one slot towards the tail, last one first. */
  method ShiftUp(a: array<Task?>, n: nat, i: nat, ghost c: seq<Task>)
    requires i <= n < a.Length && a[..n] == c
    modifies a
    ensures a[..i] == c[..i] && a[i + 1..n + 1] == c[i..]
    ensures a[n + 1..] == old(a[n + 1..])
  {
    var j: int := n - 1;
    while j >= i
      invariant i - 1 <= j <= n - 1
      invariant a[..j + 1] == c[..j + 1]
      invariant a[j + 2..n + 1] == c[j + 1..]
      invariant a[n + 1..] == old(a[n + 1..])
    {
      a[j + 1] := a[j];
      j := j - 1;
    }
  }

  /** The loop of lines 72-74 as written: slot `j` receives slot `j - 1`
      for `j` from `n - 1` down to `i`. At `j = 0` the code reads
      `ready[-1]`; the slot it writes is overwritten at line 77, so that
      step is skipped here. The last queued entry is never moved. */
  method ShiftUpAsWritten(a: array<Task?>, n: nat, i: nat, ghost c: seq<Task>)
    requires i <= n < a.Length && a[..n] == c
    modifies a
    ensures a[..i] == c[..i]
    ensures forall k :: i < k < n ==> a[k] == c[k - 1]
    ensures a[n..] == old(a[n..])
  {
    var j: int := n - 1;
    while j >= i
      invariant i - 1 <= j <= n - 1
      invariant a[..j + 1] == c[..j + 1]
      invariant forall k :: j < k < n && 0 < k ==> a[k] == c[k - 1]
      invariant a[n..] == old(a[n..])
    {
      if j > 0 {
        a[j] := a[j - 1];
      }
      j := j - 1;
    }
  }

  /** Lines 63-77 on the ready array holding `c` in its first `n` slots,
      with the intended shift: afterwards the first `n + 1` slots hold the
      intended insertion and the slots behind them are untouched. */
  method PlaceInReady(a: array<Task?>, n: nat, t: Task, ghost c: seq<Task>)
    requires n < a.Length && a[..n] == c
    modifies a
    ensures a[..n + 1] == Insert(c, t)
    ensures a[n + 1..] == old(a[n + 1..])
  {
    a[n] := t;
    var i := 0;
    // Never false: slot 0 holds either the queue head or, on an empty
    // queue, the task just stored at slot n = 0.
    assert a[0] != null;
    if a[0] != null {
      i := SearchSlot(a, n, t.priority, c);
      ShiftUp(a, n, i, c);
    }
    ghost var b := a[..n + 1];
    a[i] := t;
    assert a[..n + 1] == b[i := t];
    PlacedIsInsert(b[i := t], c, t);
  }

  /** Lines 63-77 as written, without the `ready[-1]` read: the first
      `n + 1` slots end up as InsertAsWritten describes. */
  method PlaceInReadyAsWritten(a: array<Task?>, n: nat, t: Task, ghost c: seq<Task>)
    requires n < a.Length && a[..n] == c
    modifies a
    ensures a[..n + 1] == InsertAsWritten(c, t)
    ensures a[n + 1..] == old(a[n + 1..])
  {
    a[n] := t;
    var i := 0;
    assert a[0] != null;
    if a[0] != null {
      i := SearchSlot(a, n, t.priority, c);
      ShiftUpAsWritten(a, n, i, c);
    }
    ghost var b := a[..n + 1];
    a[i] := t;
    assert a[..n + 1] == b[i := t];
    PlacedAsWritten(b[i := t], c, t);
  }

  /** The loop of `delete_from_ready` (lines 84-87): every entry moves one
      slot towards the head. Slot `n - 1` keeps its old task. */
  method ShiftDown(a: array<Task?>, n: nat, ghost c: seq<Task>)
    requires 1 <= n <= a.Length && a[..n] == c
    modifies a
    ensures a[..n - 1] == c[1..]
    ensures a[n - 1..] == old(a[n - 1..])
  {
    var i := 0;
    while i < n - 1
      invariant 0 <= i <= n - 1
      invariant a[..i] == c[1..i + 1]
      invariant a[i..] == old(a[i..])
    {
      a[i] := a[i + 1];
      i := i + 1;
    }
  }

  class Scheduler {
    const timeQuantum: nat
    /** The number of devices; valid device ids are below it. */
    const io: nat
    /** The ready array; its first `count` slots hold the queue, head first. */
    const ready: array<Task?>
    /** `no_threads_ready` */
    var count: nat
    var running: Task?
    /** `no_threads`: tasks created so far. */
    var threads: nat

    /** The queued tasks, head first. */
    ghost var Contents: seq<Task>
    /** The objects this scheduler owns: itself, the array and its tasks. */
    ghost var Repr: set<object>

    /** The array holds the queue, every queued task is owned, queued once,
        and waits with a full quantum. */
    ghost predicate Valid()
      reads this, Repr
    {
      && this in Repr && ready in Repr
      && ready.Length == MaxThreads
      && 1 <= timeQuantum <= MaxUnits
      && count == |Contents| <= MaxThreads
      && ready[..count] == Contents
      && (forall x :: x in Contents ==> x in Repr)
      && (running != null ==> running in Repr)
      && Distinct(Contents)
      && AllFull(Contents, timeQuantum)
    }

    /** The abstract dispatch state once a task is running. */
    ghost function View(): Sched
      reads this, running
      requires running != null
    {
      Sched(Contents, running, running.time)
    }

    /** What holds between calls of the library: the head slot is empty
        exactly when the queue is (the test of lines 130 and 164), nothing runs
        before the first fork, every created task is running or queued, and
        the dispatch invariant of Dispatch.Inv. */
    ghost predicate Dispatching()
      reads this, Repr
      requires Valid()
    {
      && (ready[0] == null <==> count == 0)
      && (running == null ==> threads == 0 && count == 0)
      && (running != null ==> threads == count + 1 && Inv(View(), timeQuantum))
    }

    /** The record `so_init` allocates: an empty ready array, no running
        task, no tasks created. */
    constructor (timeQuantum: nat, io: nat)
      requires 1 <= timeQuantum <= MaxUnits
      ensures Valid() && Dispatching() && fresh(Repr)
      ensures this.timeQuantum == timeQuantum && this.io == io
      ensures count == 0 && threads == 0 && running == null && Contents == []
    {
      this.timeQuantum := timeQuantum;
      this.io := io;
      ready := new Task?[MaxThreads](_ => null);
      count, threads, running := 0, 0, null;
      Contents := [];
      Repr := {this, ready};
    }

    /** `insert_in_ready` with the shift the code intends: the task gets a
        full quantum and goes in after every queued task of equal or higher
        priority. The shift of lines 72-74 as written goes the other way
        (PlaceInReadyAsWritten); everything built on this method describes
        the corrected program. */
    method InsertInReady(t: Task)
      requires Valid()
      requires count < MaxThreads && t !in Contents
      modifies this, ready, t
      ensures Valid()
      ensures Contents == Insert(old(Contents), t) && t.time == timeQuantum
      ensures ready[0] != null
      ensures running == old(running) && threads == old(threads) && Repr == old(Repr) + {t}
    {
      t.time := timeQuantum;
      PlaceInReady(ready, count, t, Contents);
      InsertDistinct(Contents, t);
      InsertMembers(Contents, t);
      InsertFull(Contents, t, timeQuantum);
      count := count + 1;
      Contents := Insert(Contents, t);
      Repr := Repr + {t};
    }

    /** `delete_from_ready`: drops the head and moves the rest one slot
        forward. The caller must make sure the queue is not empty: at zero
        the unsigned `no_threads_ready - 1` wraps around. */
    method DeleteFromReady()
      requires Valid() && count >= 1
      modifies this, ready
      ensures Valid()
      ensures Contents == old(Contents)[1..]
      ensures running == old(running) && threads == old(threads) && Repr == old(Repr)
    {
      ShiftDown(ready, count, Contents);
      DropFull(Contents, timeQuantum);
      count := count - 1;
      Contents := Contents[1..];
    }

    /** `add`: admission of a new task while another one runs (lines
        93-106). */
    method Add(t: Task)
      requires Valid() && running != null && Inv(View(), timeQuantum)
      requires count < MaxThreads && t !in Contents && t != running && t.time == timeQuantum
      modifies Repr, t
      ensures Valid() && running != null
      ensures View() == Admit(old(View()), t, timeQuantum)
      ensures ready[0] != null
      ensures threads == old(threads) && Repr == old(Repr) + {t}
    {
      if running.priority < t.priority {
        var aux := running;
        running := t;
        Repr := Repr + {t};
        InsertInReady(aux);
      } else {
        running.time := running.time - 1;
        InsertInReady(t);
      }
    }

    /** The quantum-expiry check of lines 129-138 (`so_fork`) and 163-173
        (`so_exec`); `rotated` tells whether the round-robin branch ran. */
    method CheckQuantum() returns (rotated: bool)
      requires Valid() && running != null && Ordered(View()) && running.time <= timeQuantum
      requires ready[0] == null <==> count == 0
      modifies Repr
      ensures Valid() && running != null
      ensures View() == Expire(old(View()), timeQuantum)
      ensures rotated == Rotates(old(View()))
      ensures ready[0] == null <==> count == 0
      ensures count == old(count) && threads == old(threads) && Repr == old(Repr)
    {
      rotated := false;
      if running.time == 0 {
        if ready[0] != null && running.priority == ready[0].priority {
          var aux := running;
          running := ready[0];
          DeleteFromReady();
          InsertInReady(aux);
          rotated := true;
        } else {
          running.time := timeQuantum;
        }
      }
    }

    /** `so_exec`: charge the running task one unit, then the expiry check;
        nothing happens while no task runs. */
    method Exec()
      requires Valid() && Dispatching()
      modifies Repr
      ensures Valid() && Dispatching() && Repr == old(Repr)
      ensures old(running) == null ==> unchanged(Repr)
      ensures old(running) != null ==> running != null && View() == Tick(old(View()), timeQuantum)
      ensures threads == old(threads)
    {
      if running != null {
        TickPreserves(View(), timeQuantum);
        running.time := running.time - 1;
        var rotated := CheckQuantum();
      }
    }

    /** The body of `so_fork` once its arguments are accepted (lines
        112-142): a new task with the next id and a full quantum; the first
        one runs at once, the others go through `add` and the expiry check.
        `so_fork` returns 0 instead of the id when that check rotated. */
    method Spawn(priority: nat) returns (tid: Tid, ghost t: Task)
      requires Valid() && Dispatching() && count < MaxThreads
      modifies Repr
      ensures Valid() && Dispatching()
      ensures fresh(t) && t.priority == priority && t.id == threads
      ensures threads == old(threads) + 1 && Repr == old(Repr) + {t}
      ensures old(running) == null ==>
        running == t && t.time == timeQuantum && Contents == [] && tid == TaskTid(threads)
      ensures old(running) != null ==>
        && running != null
        && View() == Fork(old(View()), t, timeQuantum)
        && tid == if Rotates(Admit(old(View()), t, timeQuantum)) then ZeroTid else TaskTid(threads)
    {
      threads := threads + 1;
      var task := new Task(threads, priority, timeQuantum);
      t := task;
      if threads == 1 {
        running := task;
        Repr := Repr + {task};
      } else {
        ForkPreserves(View(), task, timeQuantum);
        var rotated := AddAndCheck(task);
        if rotated {
          return ZeroTid, t;
        }
      }
      tid := TaskTid(task.id);
    }

    /** Lines 127-139 of `so_fork`: `add`, then the expiry check. */
    method AddAndCheck(t: Task) returns (rotated: bool)
      requires Valid() && running != null && Inv(View(), timeQuantum)
      requires count < MaxThreads && t !in Contents && t != running && t.time == timeQuantum
      modifies Repr, t
      ensures Valid() && running != null
      ensures View() == Fork(old(View()), t, timeQuantum)
      ensures rotated == Rotates(Admit(old(View()), t, timeQuantum))
      ensures ready[0] != null && count == old(count) + 1
      ensures threads == old(threads) && Repr == old(Repr) + {t}
    {
      AdmitOrdered(View(), t, timeQuantum);
      Add(t);
      rotated := CheckQuantum();
    }

    /** The release of the tasks in `so_end` (lines 181-195): the running
        task's thread is joined, then each queued task, head first, is
        released and joined and its slot cleared. `joined` lists the tasks in
        the order their threads are joined. */
    method Drain() returns (joined: seq<Task>)
      requires Valid()
      modifies this, ready
      ensures running == null
      ensures joined == if old(running) == null then [] else [old(running)] + old(Contents)
      ensures old(running) != null ==> forall k :: 0 <= k < old(count) ==> ready[k] == null
    {
      joined := [];
      if running != null {
        joined := [running];
        var n := count;
        ghost var c := Contents;
        var i := 0;
        while i < n
          invariant 0 <= i <= n
          invariant joined == [old(running)] + c[..i]
          invariant forall k :: 0 <= k < i ==> ready[k] == null
          invariant forall k :: i <= k < n ==> ready[k] == c[k]
          modifies this`running, ready
        {
          var next: Task := ready[i];
          running := next;
          joined := joined + [next];
          ready[i] := null;
          i := i + 1;
        }
        running := null;
      }
    }
  }
}

/** The library entry points of `so_scheduler.c` around the global
    scheduler pointer `sched`. */
module SoScheduler {
  import opened Tasks
  import opened Dispatch
  import opened Scheduling

  /** `so_init`'s success and failure codes. */
  const Ok: int := 0
  const Failed: int := -1

  /** The library state: the global `sched` pointer, null when no scheduler
      exists, and the two limits the header defines. */
  class Library {
    /** SO_MAX_PRIO */
    const maxPrio: nat
    /** SO_MAX_NUM_EVENTS */
    const maxNumEvents: nat
    var sched: Scheduler?

    /** The objects the current scheduler owns. */
    ghost function Footprint(): set<object>
      reads this, sched
    {
      if sched == null then {} else sched.Repr
    }

    /** A scheduler, when one exists, is well formed, satisfies the dispatch
        invariant and does not own the library record. */
    ghost predicate Valid()
      reads this, sched, Footprint()
    {
      sched != null ==> this !in sched.Repr && sched.Valid() && sched.Dispatching()
    }

    /** The program start: no scheduler yet. */
    constructor (maxPrio: nat, maxNumEvents: nat)
      ensures Valid() && sched == null
      ensures this.maxPrio == maxPrio && this.maxNumEvents == maxNumEvents
    {
      this.maxPrio := maxPrio;
      this.maxNumEvents := maxNumEvents;
      sched := null;
    }

    /** `so_init`: creates the scheduler unless one exists or an argument is
        out of range. */
    method SoInit(timeQuantum: nat, io: nat) returns (r: int)
      requires Valid()
      modifies this
      ensures Valid()
      ensures r == Ok || r == Failed
      ensures r == Ok <==> old(sched) == null && 0 < timeQuantum <= MaxUnits && io <= maxNumEvents
      ensures r == Failed ==> sched == old(sched)
      ensures r == Ok ==>
        && fresh(sched) && fresh(Footprint()) && sched.timeQuantum == timeQuantum && sched.io == io
        && sched.threads == 0 && sched.count == 0 && sched.running == null
    {
      if sched != null {
        return Failed;
      }
      if timeQuantum <= MaxUnits && timeQuantum != 0 && io <= maxNumEvents {
        sched := new Scheduler(timeQuantum, io);
        return Ok;
      }
      return Failed;
    }

    /** `so_fork`: rejects a missing handler, a priority above SO_MAX_PRIO
        and a missing scheduler without touching anything; otherwise creates
        the task (`t`) and dispatches as Scheduler.Spawn states. */
    method SoFork(hasHandler: bool, priority: nat) returns (tid: Tid, ghost t: Task?)
      requires Valid()
      requires sched != null ==> sched.count < MaxThreads
      modifies Footprint()
      ensures Valid() && sched == old(sched) && fresh(Footprint() - old(Footprint()))
      ensures tid == InvalidTid <==> !hasHandler || priority > maxPrio || sched == null
      ensures tid == InvalidTid ==> unchanged(old(Footprint()))
      ensures tid != InvalidTid ==>
        && t != null && fresh(t) && t.priority == priority
        && sched.threads == old(sched.threads) + 1 && t.id == sched.threads
      ensures tid != InvalidTid && old(sched.running) == null ==>
        sched.running == t && t.time == sched.timeQuantum && tid == TaskTid(t.id)
      ensures tid != InvalidTid && old(sched.running) != null ==>
        && sched.running != null
        && sched.View() == Fork(old(sched.View()), t, sched.timeQuantum)
        && tid == if Rotates(Admit(old(sched.View()), t, sched.timeQuantum)) then ZeroTid else TaskTid(t.id)
    {
      t := null;
      if !hasHandler || priority > maxPrio || sched == null {
        return InvalidTid, t;
      }
      ghost var task;
      tid, task := sched.Spawn(priority);
      t := task;
    }

    /** `so_exec`: one unit of work for the running task. The code reads
        `sched` without a null check. */
    method SoExec()
      requires Valid() && sched != null
      modifies Footprint()
      ensures Valid() && sched == old(sched) && Footprint() == old(Footprint())
      ensures old(sched.running) == null ==> unchanged(old(Footprint()))
      ensures old(sched.running) != null ==>
        sched.running != null && sched.View() == Tick(old(sched.View()), sched.timeQuantum)
    {
      sched.Exec();
    }

    /** `so_wait`: -1 for a device id out of range, 0 otherwise. */
    function SoWait(io: nat): (r: int)
      reads this
      requires sched != null
      ensures r == -1 <==> io >= sched.io
      ensures r == 0 || r == -1
    {
      if io >= sched.io then -1 else 0
    }

    /** `so_signal`: the device id itself when it is in range, -1 otherwise. */
    function SoSignal(io: nat): (r: int)
      reads this
      requires sched != null
      ensures r == -1 <==> io >= sched.io
      ensures r != -1 ==> r == io
    {
      if io < sched.io then io else -1
    }

    /** `so_end`: releases every task, running task first, then the queue
        head to tail (`joined`), and drops the scheduler. Without a
        scheduler it does nothing. */
    method SoEnd() returns (joined: seq<Task>)
      requires Valid()
      modifies this, Footprint()
      ensures Valid() && sched == null
      ensures old(sched) == null ==> joined == []
      ensures old(sched) != null ==>
        joined == if old(sched.running) == null then [] else [old(sched.running)] + old(sched.Contents)
    {
      joined := [];
      if sched != null {
        joined := sched.Drain();
        sched := null;
      }
    }
  }

  /** The two device checks accept the same ids: `so_wait` succeeds exactly
      when `so_signal` does. */
  lemma DeviceChecksAgree(lib: Library, io: nat)
    requires lib.sched != null
    ensures lib.SoWait(io) == 0 <==> lib.SoSignal(io) == io
  {
  }

  /** `so_end` twice: the second call finds no scheduler, releases nothing
      and leaves none. */
  method EndTwice(lib: Library) returns (first: seq<Task>, second: seq<Task>)
    requires lib.Valid()
    modifies lib, lib.Footprint()
    ensures lib.Valid() && lib.sched == null && second == []
  {
    first := lib.SoEnd();
    second := lib.SoEnd();
  }

  /** A run of the library: a scheduler with a quantum of 2, a rejected
      fork, two tasks of equal priority and one unit of work. The fork of
      `b` charges `a` one unit, the `so_exec` that follows exhausts `a`'s
      quantum and `b` takes over; `so_end` releases `b`, then `a`. */
  method RoundRobinRun() returns (joined: seq<Task>)
    ensures |joined| == 2 && joined[0].id == 2 && joined[1].id == 1
  {
    var lib := new Library(5, 1);
    var r := lib.SoInit(2, 1);
    var bad, none := lib.SoFork(true, 6);
    assert bad == InvalidTid;
    var first, a := lib.SoFork(true, 5);
    var second, b := lib.SoFork(true, 5);
    TwoTaskExample(a, b);
    assert lib.sched.View() == Sched([b], a, 1);
    lib.SoExec();
    assert lib.sched.View() == Sched([a], b, 2);
    joined := lib.SoEnd();
    assert joined == [b, a];
  }
}

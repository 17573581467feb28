# Thread-Scheduler: a Dafny model of the scheduling core

`so_scheduler.c` is a user-level thread scheduler. Tasks are created with
`so_fork` and get a priority. Exactly one task holds the CPU at a time. A
task of strictly higher priority preempts the running one. Tasks of equal
priority take turns once the running task has used up its time quantum,
which is charged one unit per `so_exec` call. All state lives in one
global record, `sched`:

- a fixed array `ready` of 50 task pointers, ordered by priority, whose
  first `no_threads_ready` slots form the ready queue;
- the `running` task;
- the counter `no_threads`;
- the quantum and the number of I/O devices.

The model keeps the code's imperative form and proves it against a
value-level specification.

- `tasks.dfy`, module `Tasks`: the task record (`struct thread`) as a
  class. Its `time` counter is mutable; its id and priority never change.
  `Tid` holds what `so_fork` can return.
- `ready_queue.dfy`, module `ReadyQueue`: the ready queue as a sequence.
  - `InsertPos` and `Insert` define the intended insertion: after every
    task of equal or higher priority, before every lower one.
  - `InsertAsWritten` is the insertion the shift loop actually performs.
  - Lemmas prove order, distinctness, permutation and placement for the
    first, and the defect of the second.
- `dispatch.dfy`, module `Dispatch`: the dispatch rules as functions on an
  abstract state `Sched(queue, running, time)`.
  - `Admit` is `add`; `Expire` is the quantum-expiry check; `Tick` is
    `so_exec`; `Fork` is the tail of `so_fork`.
  - The invariant `Inv` is proved to be preserved. It says: the queue is
    sorted, holds no duplicates and no task outranks the running one, and
    `1 <= time <= quantum`.
  - No task is lost or invented (`Known`).
  - Round robin: among equal priorities, `k * quantum` calls of `so_exec`
    turn the ring of tasks by `k` places.
- `scheduler.dfy`, module `Scheduling`: `struct scheduler` as the class
  `Scheduler`.
  - It owns the `ready` array, the `count` (`no_threads_ready`), the
    `running` slot and the `threads` counter (`no_threads`).
  - The index loops of `insert_in_ready` and `delete_from_ready` are
    array methods with loop invariants.
  - `Add`, `CheckQuantum`, `Exec`, `Spawn` and `AddAndCheck` are proved
    to move the abstract view (`View()`) exactly as `Admit`, `Expire`,
    `Tick` and `Fork` say. `InsertInReady` and `DeleteFromReady` move the
    queue contents as `Insert` and the tail. `Drain` gives the release
    order.
- `library.dfy`, module `SoScheduler`: the global `sched` pointer as the
  class `Library`, with the entry points `so_init`, `so_fork`, `so_exec`,
  `so_wait`, `so_signal` and `so_end`. It also holds one complete run of
  the library.

The handler pointer given to `so_fork` is modelled as `hasHandler: bool`.
`SO_MAX_PRIO` and `SO_MAX_NUM_EVENTS` come from a header that is not part
of this model, so they are the constructor parameters `maxPrio` and
`maxNumEvents` of `Library`. `INVALID_TID` is the constructor `InvalidTid`.
The id `so_fork` returns is modelled as the value of `no_threads` at
creation (line 114). In the code, `pthread_create` overwrites `t->id` at
line 121, so the real value is the thread handle.

What the code does that a reader may not expect:

- `so_wait` and `so_signal` only compare the device id with the device
  count. They do not block, wake or count anything.
- `so_fork` does not check the task count against the array capacity.
- Nothing re-dispatches when a task's function returns.
- A fork whose newcomer does not outrank the running task (equal or lower
  priority) charges the running task one unit (lines 102-104). The fork
  can therefore end the quantum itself and hand the CPU to an
  equal-priority queue head. `so_fork` then returns 0 (line 137) instead
  of the id. `Dispatch.ForkExample` shows this with quantum 2, tasks a and
  b at priority 5 and c at priority 3, forked in that order: forking c
  uses up a's last unit, and b takes over.
- The test `*(sched->ready) != NULL` at line 67 is always true, because
  line 64 has just stored the task at slot `no_threads_ready`.
- At lines 130 and 164 the same test means "the queue is not empty".
  `Scheduler.Dispatching` keeps that as an invariant: `no_threads_ready`
  never drops back to 0, because every removal is followed by an
  insertion.
- Under the invariant, the equality test on the head's priority is the
  same as "the head's priority is at least the running task's"
  (`Dispatch.HeadTestIsAtLeast`, `Dispatch.Rotates`).

The shift loop of `insert_in_ready` (lines 72-74) moves entries the
wrong way; see "## Findings". `Scheduler.InsertInReady` uses the
corrected shift. So the class methods `Add`, `CheckQuantum`, `Exec`,
`Spawn` and `AddAndCheck`, the entry points `SoFork` and `SoExec`, and
the `Dispatch` theorems (`Inv`, `Known`, `ForkExample`) describe the
corrected program. In the code as written, `Distinct` and `Known` break
on the first insertion into the middle of the queue.

The code as written is modelled beside it:

- on the array, by `PlaceInReadyAsWritten`;
- on the abstract state, by `AdmitAsWritten`, `ExpireAsWritten`,
  `ForkAsWritten` and `TickAsWritten`.

`ForkExampleAsWritten` runs the three-fork example above on the code as
written. The queue ends as `[a, a]`, c is lost, and `so_end` would
release a twice and never release c.

Among tasks of one priority every insertion appends, so the two programs
agree there:

- `ForkAsWrittenOneLevel` proves it for one fork.
- `TickAsWrittenOneLevel` and `TicksAsWrittenOneLevel` prove it for any
  number of `so_exec` calls.
- `RoundRobinAsWritten` states the round-robin result for the code as
  written.

`TwoTaskExample` and `RoundRobinRun` only ever append, so they hold for
the code as written as well.

## Model

| member | source | states |
|---|---|---|
| Tasks.Task.constructor | so_scheduler.c:112-117 | a new task carries the id, priority and full quantum it is created with |
| ReadyQueue.InsertPos | so_scheduler.c:68-70 | the index where the search loop stops is within the queue; every task before it has priority >= p; the task at it, if any, has priority < p (the `break` rule) |
| ReadyQueue.InsertPosUnique | so_scheduler.c:68-70 | any index with those three properties is the InsertPos index: the loop's result is determined |
| ReadyQueue.Insert | so_scheduler.c:60-79 | the intended insertion is one entry longer than the queue; its meaning is stated by the lemmas below |
| ReadyQueue.InsertPermutes | so_scheduler.c:60-79 | insertion adds exactly the new task: the multiset of tasks grows by `t` and nothing else changes |
| ReadyQueue.InsertIndex | so_scheduler.c:72-77 | entry by entry: old entries before InsertPos stay in place, `t` sits at InsertPos, later old entries move one place on |
| ReadyQueue.InsertPlacement | so_scheduler.c:67-77 | on a sorted queue, `t` goes after exactly the tasks of equal or higher priority (FIFO within a level), and removing it gives back the old queue |
| ReadyQueue.InsertSorted | so_scheduler.c:60-79 | insertion keeps the queue sorted by non-increasing priority |
| ReadyQueue.InsertDistinct | so_scheduler.c:60-79 | inserting a task that is not queued keeps every task queued at most once |
| ReadyQueue.InsertMembers | so_scheduler.c:60-79 | a task is in the new queue if and only if it was queued or is `t` |
| ReadyQueue.InsertBelow | so_scheduler.c:60-79 | a priority bound that holds for the queue and `t` holds for the result |
| ReadyQueue.InsertAppends | so_scheduler.c:68-70 | when no queued task has lower priority, the task is appended and the old entries keep their order |
| ReadyQueue.InsertAsWritten | so_scheduler.c:63-78 | the insertion the code performs yields one entry more than the queue |
| ReadyQueue.InsertAsWrittenLoses | so_scheduler.c:72-74 | as written, a middle insertion loses the old last entry |
| ReadyQueue.InsertAsWrittenTwice | so_scheduler.c:72-77 | as written, a middle insertion queues the new task twice |
| ReadyQueue.InsertAsWrittenAgreesOnAppend | so_scheduler.c:72-74 | the written and the intended insertion agree when the task is appended and differ whenever it goes in the middle |
| ReadyQueue.ShiftBugExample | so_scheduler.c:72-77 | queue `[a]` with `a` below `t`: as written the result is `[t, t]`, intended `[t, a]` |
| Dispatch.Admit | so_scheduler.c:93-106 | `add`: the newcomer takes the CPU if and only if it strictly outranks the running task; whoever runs afterwards outranks both; the queue grows by one |
| Dispatch.Rotates | so_scheduler.c:163-164 | the rotation condition; under the order invariant it holds exactly when the quantum is used up and the queue head's priority is at least the running task's |
| Dispatch.Expire | so_scheduler.c:129-139 | the expiry check changes nothing while units are left; it never changes the running priority or the queue length, and it leaves at least one unit |
| Dispatch.Fork | so_scheduler.c:127-139 | `so_fork` with a task running: whoever runs afterwards outranks both the old running task and the newcomer; the queue grows by one; at least one unit is left |
| Dispatch.Tick | so_scheduler.c:159-176 | after one `so_exec` the running task has at least one unit left, its priority is unchanged and the queue keeps its length |
| Dispatch.Ticks | so_scheduler.c:159-176 | after any number of `so_exec` calls the running task still has at least one unit left |
| Dispatch.HeadTestIsAtLeast | so_scheduler.c:164 | under the invariant, "head priority equals running priority" holds if and only if "head priority >= running priority" |
| Dispatch.AdmitOrdered | so_scheduler.c:93-106 | `add` keeps the queue sorted and distinct, keeps no queued task above the running one, keeps at most a full quantum, and adds exactly the newcomer to the known tasks |
| Dispatch.RotationRestores | so_scheduler.c:130-137 | the rotation gives the head the CPU with a full quantum, re-queues the old running task, keeps the invariant and loses no task |
| Dispatch.ExpireRestores | so_scheduler.c:129-139 | whichever branch the expiry check takes, the invariant holds afterwards and the known tasks are unchanged |
| Dispatch.TickPreserves | so_scheduler.c:159-176 | `so_exec` keeps the invariant and the known tasks |
| Dispatch.ForkPreserves | so_scheduler.c:123-139 | `so_fork` with a task running keeps the invariant and adds exactly the new task |
| Dispatch.ForkPriority | so_scheduler.c:93-106 | a strictly higher newcomer runs at once with a full quantum; otherwise, with two or more units left, the running task keeps the CPU and loses exactly one unit |
| Dispatch.TicksKeepLevel | so_scheduler.c:164-171 | `so_exec` never hands the CPU to a task of another priority |
| Dispatch.TicksCountDown | so_scheduler.c:161-163 | fewer calls than the units left only count the quantum down |
| Dispatch.TicksSplit | so_scheduler.c:159-176 | `a` calls followed by `b` calls of `so_exec` are `a + b` calls |
| Dispatch.HandOverOneLevel | so_scheduler.c:166-169 | handing the CPU to the head of a one-level queue and re-queuing the running task at the back turns the ring by one place |
| Dispatch.LastUnitRotates | so_scheduler.c:162-171 | the `so_exec` that uses the last unit of a one-level quantum passes the CPU to the head with a full quantum |
| Dispatch.RoundRobinRound | so_scheduler.c:159-176 | with all tasks at one priority, `quantum` calls of `so_exec` turn the ring by one place, keep the invariant and start a fresh quantum |
| Dispatch.RoundRobin | so_scheduler.c:159-176 | with all tasks at one priority, `k * quantum` calls of `so_exec` turn the ring by `k` places: strict circular service |
| Dispatch.ForkExample | so_scheduler.c:108-143 | with the corrected insertion; quantum 2, tasks a and b at priority 5 and c at 3: forking b charges a one unit; forking c ends a's quantum, b runs and a and c are queued in that order |
| Dispatch.TwoTaskExample | so_scheduler.c:108-176 | two tasks of one priority, quantum 2: the second fork leaves one unit, and the next `so_exec` hands the CPU to the newcomer |
| Dispatch.AdmitAsWritten | so_scheduler.c:93-106 | `add` with the shift as written: whoever runs afterwards outranks both tasks; the queue grows by one |
| Dispatch.ExpireAsWritten | so_scheduler.c:129-139 | the expiry check with the shift as written: nothing changes while units are left; the running priority and the queue length are kept; at least one unit is left |
| Dispatch.ForkAsWritten | so_scheduler.c:127-139 | `so_fork` with the shift as written: whoever runs afterwards outranks both tasks; the queue grows by one |
| Dispatch.TickAsWritten | so_scheduler.c:159-176 | `so_exec` with the shift as written: at least one unit left, running priority and queue length kept |
| Dispatch.AppendBoth | so_scheduler.c:68-77 | when no queued task has lower priority, the written and the corrected insertion both append |
| Dispatch.ForkAsWrittenOneLevel | so_scheduler.c:127-139 | among tasks of one priority, `so_fork` as written equals the corrected fork |
| Dispatch.TickAsWrittenOneLevel | so_scheduler.c:159-176 | among tasks of one priority, `so_exec` as written equals the corrected `so_exec` |
| Dispatch.TickKeepsOneLevel | so_scheduler.c:159-176 | `so_exec` on a one-level state leaves a one-level state |
| Dispatch.TicksAsWritten | so_scheduler.c:159-176 | any number of `so_exec` calls as written keeps at least one unit and the running priority |
| Dispatch.TicksAsWrittenOneLevel | so_scheduler.c:159-176 | among tasks of one priority, any number of `so_exec` calls as written equals the same number of corrected calls |
| Dispatch.RoundRobinAsWritten | so_scheduler.c:159-176 | for the code as written, `k * quantum` calls of `so_exec` turn a one-level ring by `k` places |
| Dispatch.ForkExampleAsWritten | so_scheduler.c:108-143 | the three-fork run as written: the rotation leaves the queue `[a, a]`, c is no longer queued, and the result differs from the corrected run |
| Scheduling.InsertFull | so_scheduler.c:62 | a task queued with a full quantum keeps every queued task at a full quantum |
| Scheduling.DropFull | so_scheduler.c:81-91 | removing the head keeps every queued task at a full quantum |
| Scheduling.PlacedIsInsert | so_scheduler.c:72-77 | the array layout left by the intended shift and line 77 is exactly the intended insertion |
| Scheduling.PlacedAsWritten | so_scheduler.c:72-77 | the array layout left by the shift as written and line 77 is exactly InsertAsWritten |
| Scheduling.SearchSlot | so_scheduler.c:68-70 | the search loop returns InsertPos of the queued tasks |
| Scheduling.ShiftUp | so_scheduler.c:72-74 | the intended shift leaves the entries before the slot in place, moves the rest one slot on and touches nothing behind them |
| Scheduling.ShiftUpAsWritten | so_scheduler.c:72-74 | the shift as written leaves the entries before the slot in place, copies each later entry from its predecessor and never moves the last one |
| Scheduling.PlaceInReady | so_scheduler.c:63-77 | with the intended shift, the first `n + 1` slots hold Insert of the queue and the later slots are unchanged |
| Scheduling.PlaceInReadyAsWritten | so_scheduler.c:63-77 | as written, the first `n + 1` slots hold InsertAsWritten of the queue |
| Scheduling.ShiftDown | so_scheduler.c:84-87 | the removal loop moves entries 1..n-1 to 0..n-2 in order and leaves slot n-1 as it was |
| Scheduling.Scheduler.constructor | so_scheduler.c:35-44 | the new record has an empty ready array, no running task, both counters 0, and the given quantum and device count |
| Scheduling.Scheduler.InsertInReady | so_scheduler.c:60-79 | the queue becomes Insert(old queue, t), `t` gets a full quantum, the count grows by one, and the record stays well formed |
| Scheduling.Scheduler.DeleteFromReady | so_scheduler.c:81-91 | given a non-empty queue, the head is dropped, the rest keep their order, and the count drops by one |
| Scheduling.Scheduler.Add | so_scheduler.c:93-106 | the abstract state moves exactly as Admit: preempt by a strictly higher newcomer, or charge one unit and queue it |
| Scheduling.Scheduler.CheckQuantum | so_scheduler.c:129-139 | the abstract state moves exactly as Expire; `rotated` tells whether the head took over |
| Scheduling.Scheduler.Exec | so_scheduler.c:159-176 | with a task running, the abstract state moves exactly as Tick and the invariant is kept; with none, nothing changes |
| Scheduling.Scheduler.Spawn | so_scheduler.c:112-142 | the new task gets the next id; the first task runs at once with a full quantum; later ones move the state exactly as Fork; the result is 0 if and only if the fork rotated |
| Scheduling.Scheduler.AddAndCheck | so_scheduler.c:128-139 | `add` then the expiry check is Fork on the abstract state |
| Scheduling.Scheduler.Drain | so_scheduler.c:181-195 | the tasks are released running task first, then the queue head to tail; their slots are cleared and no task runs afterwards |
| SoScheduler.Library.constructor | so_scheduler.c:29 | the program starts with no scheduler |
| SoScheduler.Library.SoInit | so_scheduler.c:31-48 | returns 0 if and only if no scheduler exists, the quantum is 1..32 and the device count is at most SO_MAX_NUM_EVENTS; otherwise returns -1 and keeps the old pointer; on 0 the fresh record has both counters 0 and no running task |
| SoScheduler.Library.SoFork | so_scheduler.c:108-143 | returns INVALID_TID if and only if the handler is missing, the priority is above SO_MAX_PRIO or there is no scheduler, and then changes nothing; otherwise the task count grows by one and dispatch happens as Spawn states |
| SoScheduler.Library.SoExec | so_scheduler.c:159-176 | with a task running, the state moves as Tick; with none, nothing changes |
| SoScheduler.Library.SoWait | so_scheduler.c:145-150 | returns -1 exactly when the device id is out of range, 0 otherwise |
| SoScheduler.Library.SoSignal | so_scheduler.c:152-157 | returns -1 exactly when the device id is out of range, the id itself otherwise |
| SoScheduler.DeviceChecksAgree | so_scheduler.c:145-157 | `so_wait` succeeds on exactly the ids on which `so_signal` succeeds |
| SoScheduler.Library.SoEnd | so_scheduler.c:178-211 | releases the running task, then the queue in order, and leaves no scheduler; without a scheduler it releases nothing |
| SoScheduler.EndTwice | so_scheduler.c:178-211 | a second `so_end` releases nothing and leaves no scheduler: teardown is idempotent |
| SoScheduler.RoundRobinRun | so_scheduler.c:108-211 | init with quantum 2, a fork rejected for its priority, two forks at priority 5, one `so_exec`: the second task has taken over, and `so_end` releases it before the first |

## Left out

- Semaphores and threads are left out: `sem_*`, `pthread_create`, `pthread_join`, `start_thread` (lines 50-58) and the call of the task's function. The model keeps only their effect, which is the change of `running`.
- Memory management (`calloc`, `free`) is left out. The model's allocation stands for it, and `so_end` drops the pointer.
- The `waiting` and `terminated` arrays (lines 39-40) are allocated but never used, so they are not modelled. The same holds for the `io` and `state` fields of a task.
- Ids returned by `pthread_create` are not modelled; the creation counter stands for them (see above). Whether `INVALID_TID` equals 0, and so clashes with the 0 of line 137, depends on the header; `Tid` keeps the three results apart.
- Integer widths are not modelled. Arguments are unbounded naturals; the unsigned `time` counter never wraps, because the invariant keeps it at 1 or more before each decrement.
- Scheduling.Scheduler.DeleteFromReady: requires a non-empty queue. At zero the unsigned `no_threads_ready - 1` of line 84 wraps around. The callers only remove after seeing a non-null head.
- Scheduling.Scheduler.InsertInReady: uses the corrected shift, not the shift of lines 72-74 as written. Every class method and entry point built on it describes the corrected program. The written shift is modelled by `Scheduling.PlaceInReadyAsWritten` and by the `Dispatch` functions ending in `AsWritten`.
- Scheduling.Scheduler.InsertInReady: requires a free slot (`count < 50`). The code does not check the capacity of the ready array (lines 38, 64).
- SoScheduler.Library.SoFork: requires a free slot in the ready array when a scheduler exists. The code does not check it and would write past the 50 slots.
- SoScheduler.Library.SoExec: requires a scheduler. The code dereferences `sched` without a null check (line 161).
- SoScheduler.Library.SoWait: requires a scheduler, because line 147 dereferences `sched` unchecked.
- SoScheduler.Library.SoSignal: requires a scheduler, because line 154 dereferences `sched` unchecked.
- Scheduling.ShiftUpAsWritten: at `j = 0` the loop reads `ready[-1]`, which is undefined behaviour. The model skips that step, because line 77 overwrites the slot it writes.

## Findings

| source | as written | input that shows it | evidently intended | confidence | as-written member | corrected member |
|---|---|---|---|---|---|---|
| so_scheduler.c:72-74 | `ready[j] = ready[j - 1]` for `j` from `n - 1` down to the insert position `i`: the last queued task is never moved, slot `i - 1` is copied forward, and `ready[-1]` is read when `i = 0` | queue `[a]` (n = 1) and a new task `t` of higher priority than `a`: the result is `[t, t]`, so `a` is lost and `t` is queued twice. Also quantum 2, a and b at priority 5, c at 3, forked in that order: the queue ends as `[a, a]` and c is lost | `ready[j + 1] = ready[j]`: every entry from `i` on moves one slot towards the tail, giving `[t, a]` | not executed | Scheduling.PlaceInReadyAsWritten, ReadyQueue.InsertAsWrittenLoses, ReadyQueue.InsertAsWrittenTwice, ReadyQueue.ShiftBugExample, Dispatch.ForkExampleAsWritten | Scheduling.PlaceInReady, Scheduling.Scheduler.InsertInReady, ReadyQueue.InsertPlacement, ReadyQueue.InsertSorted, ReadyQueue.InsertPermutes |

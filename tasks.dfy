/** The task control block of the scheduler (`struct thread`). */
module Tasks {

  /** A task. Only `priority` and `time` take part in scheduling decisions;
      `id` is the value of the thread counter when the task was created. */
  class Task {
    const id: nat
    const priority: nat
    /** Units left of the task's quantum (unsigned in the source). */
    var time: nat

    constructor (id: nat, priority: nat, time: nat)
      ensures this.id == id && this.priority == priority && this.time == time
    {
      this.id := id;
      this.priority := priority;
      this.time := time;
    }
  }

  /** What `so_fork` hands back: the invalid sentinel, the literal 0 of the
      round-robin path, or the id of the new task. */
  datatype Tid = InvalidTid | ZeroTid | TaskTid(id: nat)
}

/** The ready queue as a value: the tasks in `ready[0 .. no_threads_ready]`,
    head first. Priorities are constant, so nothing here reads the heap. */
module ReadyQueue {
  import opened Tasks

  /** Non-increasing priority from head to tail. */
  predicate Sorted(q: seq<Task>)
  {
    forall i, j :: 0 <= i < j < |q| ==> q[i].priority >= q[j].priority
  }

  /** No task is queued twice. */
  predicate Distinct(q: seq<Task>)
  {
    forall i, j :: 0 <= i < j < |q| ==> q[i] != q[j]
  }

  /** The index where the search loop of `insert_in_ready` stops: the first
      queued task whose priority is strictly lower than `p`, or the length. */
  function InsertPos(q: seq<Task>, p: nat): (i: nat)
    ensures i <= |q|
    ensures forall k :: 0 <= k < i ==> q[k].priority >= p
    ensures i < |q| ==> q[i].priority < p
  {
    if q == [] || p > q[0].priority then 0 else 1 + InsertPos(q[1..], p)
  }

  /** The two ensures of InsertPos pin its result down. */
  lemma {:induction false} InsertPosUnique(q: seq<Task>, p: nat, i: nat)
    requires i <= |q|
    requires forall k :: 0 <= k < i ==> q[k].priority >= p
    requires i < |q| ==> q[i].priority < p
    ensures i == InsertPos(q, p)
  {
    if q != [] && p <= q[0].priority {
      assert i != 0;
      forall k | 0 <= k < i - 1
        ensures q[1..][k].priority >= p
      {
        assert q[1..][k] == q[k + 1];
      }
      InsertPosUnique(q[1..], p, i - 1);
    }
  }

  /** `insert_in_ready` as intended: `t` goes in at InsertPos and the entries
      from there on move one place towards the tail. */
  function Insert(q: seq<Task>, t: Task): (r: seq<Task>)
    ensures |r| == |q| + 1
  {
    var i := InsertPos(q, t.priority);
    q[..i] + [t] + q[i..]
  }

  /** Insertion neither loses nor duplicates a task: it adds exactly `t`. */
  lemma {:induction false} InsertPermutes(q: seq<Task>, t: Task)
    ensures multiset(Insert(q, t)) == multiset(q) + multiset{t}
  {
    var i := InsertPos(q, t.priority);
    assert q == q[..i] + q[i..];
  }

  /** Insert entry by entry: the old entries before InsertPos, then `t`,
      then the old entries from InsertPos on, one place further on. */
  lemma {:induction false} InsertIndex(q: seq<Task>, t: Task)
    ensures var i := InsertPos(q, t.priority);
      && Insert(q, t)[i] == t
      && (forall k :: 0 <= k < i ==> Insert(q, t)[k] == q[k])
      && (forall k :: i < k <= |q| ==> Insert(q, t)[k] == q[k - 1])
  {
    var i := InsertPos(q, t.priority);
    var r := Insert(q, t);
    assert r == q[..i] + [t] + q[i..];
  }

  /** Where the new task lands: after every queued task of equal or higher
      priority (FIFO within a level), before every lower one, with the old
      entries in their old order around it. */
  lemma {:induction false} InsertPlacement(q: seq<Task>, t: Task)
    requires Sorted(q)
    ensures var i := InsertPos(q, t.priority);
      && (forall k :: 0 <= k < |q| ==> (k < i <==> q[k].priority >= t.priority))
      && Insert(q, t)[i] == t
      && Insert(q, t)[..i] + Insert(q, t)[i + 1..] == q
  {
    var i := InsertPos(q, t.priority);
    var r := Insert(q, t);
    assert r == q[..i] + [t] + q[i..];
    forall k | i <= k < |q|
      ensures q[k].priority < t.priority
    {
      assert q[k].priority <= q[i].priority;
    }
    assert r[..i] == q[..i];
    assert r[i + 1..] == q[i..];
    assert q[..i] + q[i..] == q;
  }

  /** Insertion keeps the queue ordered by priority. */
  lemma {:induction false} InsertSorted(q: seq<Task>, t: Task)
    requires Sorted(q)
    ensures Sorted(Insert(q, t))
  {
    var i := InsertPos(q, t.priority);
    var r := Insert(q, t);
    forall a, b | 0 <= a < b < |r|
      ensures r[a].priority >= r[b].priority
    {
      var x := if a < i then q[a] else if a == i then t else q[a - 1];
      var y := if b < i then q[b] else if b == i then t else q[b - 1];
      assert r[a] == x && r[b] == y;
      if a == i && i < |q| {
        assert q[b - 1].priority <= q[i].priority;
      }
    }
  }

  /** Insertion keeps the queue free of duplicates. */
  lemma {:induction false} InsertDistinct(q: seq<Task>, t: Task)
    requires Distinct(q) && t !in q
    ensures Distinct(Insert(q, t))
  {
    var i := InsertPos(q, t.priority);
    var r := Insert(q, t);
    forall a, b | 0 <= a < b < |r|
      ensures r[a] != r[b]
    {
      if a == i {
        assert r[b] == q[b - 1];
      } else if b == i {
        assert r[a] == q[a];
      } else {
        var a' := if a < i then a else a - 1;
        var b' := if b < i then b else b - 1;
        assert r[a] == q[a'] && r[b] == q[b'] && a' < b';
      }
    }
  }

  /** The inserted queue holds the old entries and the new task, nothing else. */
  lemma {:induction false} InsertMembers(q: seq<Task>, t: Task)
    ensures forall x :: x in Insert(q, t) <==> x in q || x == t
  {
    var r := Insert(q, t);
    InsertPermutes(q, t);
    assert forall x :: x in r <==> x in multiset(r);
    assert forall x :: x in q <==> x in multiset(q);
  }

  /** A priority bound on the queue and the new task bounds the result. */
  lemma {:induction false} InsertBelow(q: seq<Task>, t: Task, p: nat)
    requires forall k :: 0 <= k < |q| ==> q[k].priority <= p
    requires t.priority <= p
    ensures forall k :: 0 <= k < |Insert(q, t)| ==> Insert(q, t)[k].priority <= p
  {
    var i := InsertPos(q, t.priority);
    var r := Insert(q, t);
    forall k | 0 <= k < |r|
      ensures r[k].priority <= p
    {
      if k < i {
        assert r[k] == q[k];
      } else if k > i {
        assert r[k] == q[k - 1];
      }
    }
  }

  /** When no queued task has lower priority the task is appended. */
  lemma {:induction false} InsertAppends(q: seq<Task>, t: Task)
    requires forall k :: 0 <= k < |q| ==> q[k].priority >= t.priority
    ensures Insert(q, t) == q + [t]
  {
  }

  /** `insert_in_ready` as lines 63-78 are written: `t` is stored at index
      `n` (line 64), the loop of lines 72-74 copies `ready[j-1]` into
      `ready[j]` for j from n-1 down to the insert position, and line 77
      stores `t` at the insert position. A middle insertion therefore
      overwrites the old last entry and leaves `t` at index `n` as well. */
  function InsertAsWritten(q: seq<Task>, t: Task): (r: seq<Task>)
    ensures |r| == |q| + 1
  {
    var i := InsertPos(q, t.priority);
    if i == |q| then q + [t] else q[..i] + [t] + q[i..|q| - 1] + [t]
  }

  /** A middle insertion as written loses the old last entry. */
  lemma {:induction false} InsertAsWrittenLoses(q: seq<Task>, t: Task)
    requires Distinct(q) && t !in q
    requires InsertPos(q, t.priority) < |q|
    ensures q[|q| - 1] !in InsertAsWritten(q, t)
  {
    var i := InsertPos(q, t.priority);
    var n := |q|;
    var r: seq<Task> := q[..i] + [t] + q[i..n - 1] + [t];
    assert InsertAsWritten(q, t) == r;
    forall k | 0 <= k < |r|
      ensures r[k] != q[n - 1]
    {
      if k < i {
        assert r[k] == q[k];
      } else if i < k < n {
        assert r[k] == q[k - 1];
      }
    }
  }

  /** A middle insertion as written queues the new task twice. */
  lemma {:induction false} InsertAsWrittenTwice(q: seq<Task>, t: Task)
    requires t !in q
    requires InsertPos(q, t.priority) < |q|
    ensures multiset(InsertAsWritten(q, t))[t] == 2
  {
    var i := InsertPos(q, t.priority);
    var front, middle := q[..i], q[i..|q| - 1];
    assert InsertAsWritten(q, t) == front + [t] + middle + [t];
    assert t !in front && t !in middle by {
      assert forall x :: x in front ==> x in q;
      assert forall x :: x in middle ==> x in q;
    }
    assert multiset(front + [t] + middle + [t])
      == multiset(front) + multiset{t} + multiset(middle) + multiset{t};
  }

  /** The code as written agrees with the intended insertion exactly when the
      new task is appended. */
  lemma {:induction false} InsertAsWrittenAgreesOnAppend(q: seq<Task>, t: Task)
    requires t !in q
    ensures InsertPos(q, t.priority) == |q| ==> InsertAsWritten(q, t) == Insert(q, t)
    ensures InsertPos(q, t.priority) < |q| ==> InsertAsWritten(q, t) != Insert(q, t)
  {
    var i := InsertPos(q, t.priority);
    if i < |q| {
      var n := |q|;
      var w := q[..i] + [t] + q[i..n - 1] + [t];
      var c := q[..i] + [t] + q[i..];
      assert InsertAsWritten(q, t) == w && Insert(q, t) == c;
      assert w[n] != c[n];
      assert InsertAsWritten(q, t) != Insert(q, t);
    } else {
      assert InsertAsWritten(q, t) == q + [t] == Insert(q, t);
    }
  }

  /** A concrete input: queue [a] with a below t's priority. As written the
      result is [t, t] and `a` is gone. */
  lemma {:induction false} ShiftBugExample(a: Task, t: Task)
    requires a.priority < t.priority
    ensures InsertAsWritten([a], t) == [t, t]
    ensures Insert([a], t) == [t, a]
  {
  }
}

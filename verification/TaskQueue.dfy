/** The task list of the scheduler: scheduling one task, scheduling a batch and
    the scan a worker makes under the lock (include/schedular.h:24-90,
    src/schedular.cpp:118-147). */
module TaskQueue {
  import opened Types

  /** The thread may take the task: it is unpinned or pinned to this thread. */
  predicate MayRun(t: Task, thread: int) {
    t.thread == -1 || t.thread == thread
  }

  /** A fiber some worker is executing right now is skipped. */
  predicate Busy(t: Task, states: map<FiberId, FiberState>) {
    t.fiber.Some? && t.fiber.value in states && states[t.fiber.value] == EXEC
  }

  predicate Takeable(t: Task, thread: int, states: map<FiberId, FiberState>) {
    MayRun(t, thread) && !Busy(t, states)
  }

  /** A null handle is dropped instead of being queued. */
  function Enqueue(q: seq<Task>, t: Task): (r: seq<Task>)
    ensures t.fiber.Some? || t.cb.Some? ==> r == q + [t]
  {
    if t.fiber.Some? || t.cb.Some? then q + [t] else q
  }

  function CbTasks(cbs: seq<Callback>): (ts: seq<Task>)
    ensures |ts| == |cbs|
    ensures forall i :: 0 <= i < |ts| ==> ts[i] == Task(None, Some(cbs[i]), -1)
  {
    seq(|cbs|, i requires 0 <= i < |cbs| => Task(None, Some(cbs[i]), -1))
  }

  /** The entries of a batch that are not null, in order. */
  function Usable(batch: seq<Task>): seq<Task> {
    if batch == [] then []
    else Enqueue(Usable(batch[..|batch| - 1]), batch[|batch| - 1])
  }

  /** No batch of callbacks has a null entry. */
  lemma {:induction false} UsableCbs(cbs: seq<Callback>, n: nat)
    requires n <= |cbs|
    ensures Usable(CbTasks(cbs)[..n]) == CbTasks(cbs)[..n]
  {
    var ts := CbTasks(cbs);
    if n > 0 {
      UsableCbs(cbs, n - 1);
      assert ts[..n][..n - 1] == ts[..n - 1];
      assert ts[..n] == ts[..n - 1] + [ts[n - 1]];
    } else {
      assert ts[..0] == [];
    }
  }

  /** Where the scan stops: the first task it may take, or the end. */
  function Pick(q: seq<Task>, thread: int, states: map<FiberId, FiberState>): (k: nat)
    ensures k <= |q|
    ensures forall i :: 0 <= i < k ==> !Takeable(q[i], thread, states)
    ensures k < |q| ==> Takeable(q[k], thread, states)
  {
    if q == [] then 0
    else if Takeable(q[0], thread, states) then 0
    else 1 + Pick(q[1..], thread, states)
  }

  /** The stop, written out: everything before it is pinned to another thread or a
      fiber that executes, and the task at it is neither. */
  lemma PickWritten(q: seq<Task>, thread: int, states: map<FiberId, FiberState>)
    ensures var k := Pick(q, thread, states);
            && (forall i :: 0 <= i < k ==>
                  || (q[i].thread != -1 && q[i].thread != thread)
                  || (q[i].fiber.Some? && q[i].fiber.value in states && states[q[i].fiber.value] == EXEC))
            && (k < |q| ==>
                  && (q[k].thread == -1 || q[k].thread == thread)
                  && (q[k].fiber.Some? && q[k].fiber.value in states ==> states[q[k].fiber.value] != EXEC))
  {
    assert forall i :: 0 <= i < Pick(q, thread, states) ==> !Takeable(q[i], thread, states);
  }

  function Without(q: seq<Task>, k: nat): seq<Task>
    requires k < |q|
  {
    q[..k] + q[k + 1..]
  }

  /** Two scans agree when every task before the stop is untakeable in both. */
  lemma PickUnique(q: seq<Task>, thread: int, states: map<FiberId, FiberState>, k: nat)
    requires k <= |q|
    requires forall i :: 0 <= i < k ==> !Takeable(q[i], thread, states)
    requires k < |q| ==> Takeable(q[k], thread, states)
    ensures Pick(q, thread, states) == k
  {
  }

  /** Taking one out and leaving the rest loses and duplicates nothing. */
  lemma TakeOne(q: seq<Task>, k: nat)
    requires k < |q|
    ensures multiset(q) == multiset(Without(q, k)) + multiset{q[k]}
  {
    assert q == q[..k] + [q[k]] + q[k + 1..];
    assert multiset(q) == multiset(q[..k]) + multiset{q[k]} + multiset(q[k + 1..]);
  }

  class Queue {
    var tasks: seq<Task>

    ghost predicate Valid()
      reads this
    {
      forall i :: 0 <= i < |tasks| ==> NonNull(tasks[i])
    }

    constructor ()
      ensures Valid() && tasks == []
    {
      tasks := [];
    }

    /** Appends the task unless its handle is null; says whether the queue was
        empty, in which case the caller must wake a worker. */
    method ScheduleNoLock(t: Task) returns (needTickle: bool)
      requires Valid()
      requires !(t.fiber.Some? && t.cb.Some?)
      modifies this
      ensures Valid()
      ensures tasks == Enqueue(old(tasks), t)
      ensures needTickle <==> old(tasks) == []
    {
      needTickle := tasks == [];
      if t.fiber.Some? || t.cb.Some? {
        tasks := tasks + [t];
      }
    }

    /** Scheduling a batch of fibers or callbacks, none pinned: each that is not
        null is queued once, in order, and a wake-up is asked for exactly when the
        queue was empty at the start and the batch is not. */
    method ScheduleBatch(batch: seq<Task>) returns (needTickle: bool)
      requires Valid()
      requires forall i :: 0 <= i < |batch| ==>
                 batch[i].thread == -1 && !(batch[i].fiber.Some? && batch[i].cb.Some?)
      modifies this
      ensures Valid()
      ensures tasks == old(tasks) + Usable(batch)
      ensures needTickle <==> old(tasks) == [] && batch != []
    {
      needTickle := false;
      var i := 0;
      assert batch[..0] == [];
      while i < |batch|
        invariant 0 <= i <= |batch|
        invariant Valid()
        invariant tasks == old(tasks) + Usable(batch[..i])
        invariant needTickle <==> old(tasks) == [] && i > 0
      {
        assert batch[..i + 1][..i] == batch[..i];
        assert Usable(batch[..i + 1]) == Enqueue(Usable(batch[..i]), batch[i]);
        var first := ScheduleNoLock(batch[i]);
        needTickle := first || needTickle;
        i := i + 1;
      }
      assert batch[..|batch|] == batch;
    }

    /** The walk along the list: where it stops, and whether it passed a task of
        another thread. */
    method FindTask(thread: int, states: map<FiberId, FiberState>) returns (it: nat, passed: bool)
      requires Valid()
      ensures it == Pick(tasks, thread, states)
      ensures passed <==> exists i :: 0 <= i < it && tasks[i].thread != -1 && tasks[i].thread != thread
    {
      it, passed := 0, false;
      while it < |tasks|
        invariant 0 <= it <= |tasks|
        invariant forall i :: 0 <= i < it ==> !Takeable(tasks[i], thread, states)
        invariant passed <==> exists i :: 0 <= i < it && tasks[i].thread != -1 && tasks[i].thread != thread
      {
        if !MayRun(tasks[it], thread) {
          it := it + 1;
          passed := true;
          continue;
        }
        assert tasks[it].fiber.Some? || tasks[it].cb.Some?;  // src/schedular.cpp:129
        if Busy(tasks[it], states) {
          it := it + 1;
          continue;
        }
        break;
      }
      PickUnique(tasks, thread, states, it);
    }

    /** The scan under the lock.  It takes nothing exactly when every task is pinned
        to another thread or is a fiber that executes.  Otherwise it removes the
        first task of which neither is true, keeps the order of the rest, and loses
        or duplicates nothing.  The wake-up of other workers is skipped exactly when
        every task it leaves behind stood before the taken one, was open to this
        thread and is executing. */
    method Scan(thread: int, states: map<FiberId, FiberState>) returns (taken: Option<Task>, tickle: bool)
      requires Valid()
      modifies this
      ensures Valid()
      ensures var k := Pick(old(tasks), thread, states);
              if k < |old(tasks)|
              then taken == Some(old(tasks)[k]) && tasks == Without(old(tasks), k)
              else taken == None && tasks == old(tasks)
      ensures taken.None? <==>
              forall i :: 0 <= i < |old(tasks)| ==>
                || (old(tasks)[i].thread != -1 && old(tasks)[i].thread != thread)
                || (old(tasks)[i].fiber.Some? && old(tasks)[i].fiber.value in states
                    && states[old(tasks)[i].fiber.value] == EXEC)
      ensures taken.Some? ==> exists k ::
                && 0 <= k < |old(tasks)| && taken.value == old(tasks)[k]
                && tasks == old(tasks)[..k] + old(tasks)[k + 1..]
                && (taken.value.thread == -1 || taken.value.thread == thread)
                && (taken.value.fiber.Some? && taken.value.fiber.value in states ==>
                      states[taken.value.fiber.value] != EXEC)
                && forall i :: 0 <= i < k ==>
                     || (old(tasks)[i].thread != -1 && old(tasks)[i].thread != thread)
                     || (old(tasks)[i].fiber.Some? && old(tasks)[i].fiber.value in states
                         && states[old(tasks)[i].fiber.value] == EXEC)
      ensures multiset(old(tasks)) ==
              multiset(tasks) + (if taken.Some? then multiset{taken.value} else multiset{})
      ensures !tickle <==>
              var k := Pick(old(tasks), thread, states);
              && |old(tasks)| <= k + 1
              && forall i :: 0 <= i < k ==>
                   && (old(tasks)[i].thread == -1 || old(tasks)[i].thread == thread)
                   && old(tasks)[i].fiber.Some? && old(tasks)[i].fiber.value in states
                   && states[old(tasks)[i].fiber.value] == EXEC
    {
      ghost var q := tasks;
      PickWritten(q, thread, states);
      var it, passed := FindTask(thread, states);
      tickle, taken := passed, None;
      hide Pick, MayRun, Busy, Takeable;
      if it < |tasks| {
        taken := Some(tasks[it]);
        tasks := tasks[..it] + tasks[it + 1..];
        TakeOne(q, it);
        tickle := passed || it < |tasks|;
      }
    }
  }
}

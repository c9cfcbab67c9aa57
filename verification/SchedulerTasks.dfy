/** No task is lost or run twice by the workers: in every interleaving what was
    scheduled or put back is in the queue, held by a worker, or was dispatched. */
module SchedulerTasks {
  import opened Types
  import opened TaskQueue
  import opened Scheduler

  predicate Holds(w: Worker, t: Task) {
    w.at == Holding(t)
  }

  function HoldsTask(t: Task): Worker -> bool {
    (w: Worker) => Holds(w, t)
  }

  ghost function InQueue(q: seq<Task>, t: Task): nat {
    multiset(q)[t]
  }

  /** How often the task is queued or held. */
  ghost function Present(s: State, t: Task): nat {
    InQueue(s.queue, t) + Count(s.workers, HoldsTask(t))
  }

  /** The action schedules the task, or puts it back as a fiber that yielded. */
  predicate Enters(s: State, a: Action, t: Task)
    requires Enabled(s, a)
  {
    match a
    case Work(_, Schedule(u)) => t == u
    case Work(w, Requeue) => t == Task(Some(s.workers[w].at.fiber), None, -1)
    case External(u) => t == u
    case _ => false
  }

  /** A worker starts to run the task, or drops it as a fiber that has ended. */
  predicate Dispatches(s: State, a: Action, t: Task)
    requires Enabled(s, a)
  {
    a.Work? && a.step.Dispatch? && Holds(s.workers[a.w], t)
  }

  ghost function Entered(s: State, acts: seq<Action>, t: Task): nat
    requires Legal(s, acts)
    decreases |acts|
  {
    if acts == [] then 0 else One(Enters(s, acts[0], t)) + Entered(Next(s, acts[0]), acts[1..], t)
  }

  ghost function Dispatched(s: State, acts: seq<Action>, t: Task): nat
    requires Legal(s, acts)
    decreases |acts|
  {
    if acts == [] then 0 else One(Dispatches(s, acts[0], t)) + Dispatched(Next(s, acts[0]), acts[1..], t)
  }

  lemma QueuePut(q: seq<Task>, u: Task, t: Task)
    ensures InQueue(q + [u], t) == InQueue(q, t) + One(u == t)
  {
  }

  lemma QueueTake(q: seq<Task>, k: nat, t: Task)
    requires k < |q|
    ensures InQueue(q, t) == InQueue(Without(q, k), t) + One(q[k] == t)
  {
    assert q == q[..k] + [q[k]] + q[k + 1..];
    assert multiset(q) == multiset(q[..k]) + multiset{q[k]} + multiset(q[k + 1..]);
    assert multiset(Without(q, k)) == multiset(q[..k]) + multiset(q[k + 1..]);
  }

  /** What the stepping worker does to the queue and to what it holds. */
  lemma WorkMoves(s: State, w: nat, step: Step, t: Task)
    requires w < |s.workers| && CanStep(s, w, step)
    ensures var s' := DoStep(s, w, step);
            && |s'.workers| == |s.workers|
            && InQueue(s.queue, t) + One(Holds(s.workers[w], t)) + One(Enters(s, Work(w, step), t))
            == InQueue(s'.queue, t) + One(Holds(s'.workers[w], t)) + One(Dispatches(s, Work(w, step), t))
  {
    hide InQueue, Without;
    match step
    case Scan =>
      var k := Pick(s.queue, s.workers[w].thread, s.states);
      if k < |s.queue| {
        QueueTake(s.queue, k, t);
      }
    case Dispatch(_) =>
    case SwapOut(_) =>
    case Requeue => QueuePut(s.queue, Task(Some(s.workers[w].at.fiber), None, -1), t);
    case GoIdle =>
    case IdleCheck(_) =>
    case IdleYield =>
    case Schedule(u) => QueuePut(s.queue, u, t);
  }

  lemma StepMoves(s: State, a: Action, t: Task)
    requires Enabled(s, a)
    ensures Present(s, t) + One(Enters(s, a, t)) == Present(Next(s, a), t) + One(Dispatches(s, a, t))
  {
    hide InQueue, DoStep, CanStep;
    match a
    case Work(w, step) =>
      WorkMoves(s, w, step, t);
      StepAccounts(s, w, step);
      CountUpdate(s.workers, w, Next(s, a).workers[w], HoldsTask(t));
      hide Enters, Dispatches, Holds;
    case External(u) => QueuePut(s.queue, u, t);
    case SetAutoStop =>
    case SetStopping =>
  }

  /** For every run and every task: what was there or came in is there still or was
      dispatched. */
  lemma {:induction false} TasksConserved(s: State, acts: seq<Action>, t: Task)
    requires Legal(s, acts)
    ensures Present(s, t) + Entered(s, acts, t) == Present(After(s, acts), t) + Dispatched(s, acts, t)
    decreases |acts|
  {
    hide Present, Enabled, Next, Enters, Dispatches;
    if acts != [] {
      StepMoves(s, acts[0], t);
      TasksConserved(Next(s, acts[0]), acts[1..], t);
    }
  }

  lemma NotPresent(s: State, t: Task)
    requires forall i :: 0 <= i < |s.queue| ==> s.queue[i] != t
    requires forall w :: 0 <= w < |s.workers| ==> !s.workers[w].at.Holding?
    ensures Present(s, t) == 0
  {
    assert t !in multiset(s.queue);
    CountNone(s.workers, HoldsTask(t));
  }

  /** When all workers have left, with nothing scheduled from outside after stop,
      every task that any thread may run has been dispatched exactly as often as it
      was scheduled or put back. */
  lemma EachDispatchedOnce(s: State, acts: seq<Action>, t: Task)
    requires Init(s) && Legal(s, acts) && t.thread == -1
    requires forall w :: 0 <= w < |After(s, acts).workers| ==> After(s, acts).workers[w].at.Gone?
    ensures Dispatched(s, acts, t) == Entered(s, acts, t)
  {
    hide Enabled, Next, Present;
    TasksConserved(s, acts, t);
    ExitSafety(s, acts);
    NotPresent(s, t);
    NotPresent(After(s, acts), t);
  }
}

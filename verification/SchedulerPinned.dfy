/** Exit safety is about tasks any thread may run: a task pinned to one thread can
    be left behind.  The run below shows how, with two workers and one fiber that
    keeps yielding: each worker makes its stop test while the other is between
    swap-out and re-enqueue. */
module SchedulerPinned {
  import opened Types
  import opened Scheduler

  /** A task, of a fiber or a callback, for one thread only. */
  predicate Pinned(p: Task) {
    NonNull(p) && p.thread != -1
  }

  /** The fiber that keeps yielding is another than the pinned one. */
  function LoopFiber(p: Task): FiberId {
    if p.fiber == Some(0) then 1 else 0
  }

  function Loop(p: Task): Task {
    Task(Some(LoopFiber(p)), None, -1)
  }

  /** The second worker's thread. */
  function Other(p: Task): int {
    if p.thread == 1 then 2 else 1
  }

  /** The fiber states before and after the pinned task was scheduled. */
  function Before(p: Task, st: FiberState): map<FiberId, FiberState> {
    map[LoopFiber(p) := st]
  }

  function Since(p: Task, st: FiberState): map<FiberId, FiberState> {
    if p.fiber.Some? then Before(p, st)[p.fiber.value := INIT] else Before(p, st)
  }

  /** Two workers, one of them of the task's thread, that have just started. */
  function Fresh(p: Task): State {
    State([], map[], [Worker(p.thread, Scanning, None, false), Worker(Other(p), Scanning, None, false)],
          0, 0, false, false)
  }

  /** The same workers after stop was asked for. */
  function Two(p: Task, q: seq<Task>, states: map<FiberId, FiberState>, a: Where, aDone: bool, b: Where, bDone: bool,
               active: int, idlers: int): State {
    State(q, states, [Worker(p.thread, a, None, aDone), Worker(Other(p), b, None, bDone)], active, idlers, true, true)
  }

  lemma {:induction false} Snoc(s: State, acts: seq<Action>, a: Action)
    requires Legal(s, acts) && Enabled(After(s, acts), a)
    ensures Legal(s, acts + [a]) && After(s, acts + [a]) == Next(After(s, acts), a)
    decreases |acts|
  {
    hide Enabled, Next;
    if acts == [] {
      assert [a][1..] == [];
      assert acts + [a] == [a];
    } else {
      Snoc(Next(s, acts[0]), acts[1..], a);
      assert (acts + [a])[1..] == acts[1..] + [a];
    }
  }

  /** A run from `s` to `t`. */
  ghost predicate Leads(s: State, t: State) {
    exists acts :: Legal(s, acts) && After(s, acts) == t
  }

  lemma Here(s: State)
    ensures Leads(s, s)
  {
    assert Legal(s, []) && After(s, []) == s;
  }

  lemma Then(s: State, t: State, a: Action, u: State)
    requires Leads(s, t) && Enabled(t, a)
    requires var v := Next(t, a);
             && u == v.(workers := u.workers, queue := u.queue, states := u.states)
             && u.workers == v.workers && u.queue == v.queue && u.states == v.states
    ensures Leads(s, u)
  {
    var acts :| Legal(s, acts) && After(s, acts) == t;
    Snoc(s, acts, a);
  }

  /** The first worker runs the fiber, which yields. */
  lemma FirstYields(p: Task, s: State)
    requires Pinned(p)
    requires Leads(s, Two(p, [Loop(p)], Before(p, INIT), Scanning, false, Scanning, false, 0, 0))
    ensures Leads(s, Two(p, [], Before(p, READY), Requeueing(LoopFiber(p), false), false, Scanning, false, 0, 0))
  {
    hide Leads;
    Then(s, Two(p, [Loop(p)], Before(p, INIT), Scanning, false, Scanning, false, 0, 0), Work(0, Scan),
         Two(p, [], Before(p, INIT), Holding(Loop(p)), false, Scanning, false, 1, 0));
    Then(s, Two(p, [], Before(p, INIT), Holding(Loop(p)), false, Scanning, false, 1, 0), Work(0, Dispatch(9)),
         Two(p, [], Before(p, EXEC), Running(LoopFiber(p), false), false, Scanning, false, 1, 0));
    Then(s, Two(p, [], Before(p, EXEC), Running(LoopFiber(p), false), false, Scanning, false, 1, 0),
         Work(0, SwapOut(READY)),
         Two(p, [], Before(p, READY), Requeueing(LoopFiber(p), false), false, Scanning, false, 0, 0));
  }

  /** Before it is put back, the second worker finds an empty queue and nobody
      active. */
  lemma SecondStops(p: Task, s: State)
    requires Pinned(p)
    requires Leads(s, Two(p, [], Before(p, READY), Requeueing(LoopFiber(p), false), false, Scanning, false, 0, 0))
    ensures Leads(s, Two(p, [], Before(p, READY), Requeueing(LoopFiber(p), false), false, Scanning, true, 0, 0))
  {
    hide Leads;
    Then(s, Two(p, [], Before(p, READY), Requeueing(LoopFiber(p), false), false, Scanning, false, 0, 0), Work(1, Scan),
         Two(p, [], Before(p, READY), Requeueing(LoopFiber(p), false), false, Nothing, false, 0, 0));
    Then(s, Two(p, [], Before(p, READY), Requeueing(LoopFiber(p), false), false, Nothing, false, 0, 0), Work(1, GoIdle),
         Two(p, [], Before(p, READY), Requeueing(LoopFiber(p), false), false, Idle, false, 0, 1));
    Then(s, Two(p, [], Before(p, READY), Requeueing(LoopFiber(p), false), false, Idle, false, 0, 1),
         Work(1, IdleCheck(true)),
         Two(p, [], Before(p, READY), Requeueing(LoopFiber(p), false), false, Scanning, true, 0, 0));
  }

  /** The fiber is put back, and the second worker takes it. */
  lemma SecondTakes(p: Task, s: State)
    requires Pinned(p)
    requires Leads(s, Two(p, [], Before(p, READY), Requeueing(LoopFiber(p), false), false, Scanning, true, 0, 0))
    ensures Leads(s, Two(p, [], Before(p, READY), Scanning, false, Holding(Loop(p)), true, 1, 0))
  {
    hide Leads;
    Then(s, Two(p, [], Before(p, READY), Requeueing(LoopFiber(p), false), false, Scanning, true, 0, 0),
         Work(0, Requeue),
         Two(p, [Loop(p)], Before(p, READY), Scanning, false, Scanning, true, 0, 0));
    Then(s, Two(p, [Loop(p)], Before(p, READY), Scanning, false, Scanning, true, 0, 0), Work(1, Scan),
         Two(p, [], Before(p, READY), Scanning, false, Holding(Loop(p)), true, 1, 0));
  }

  /** It yields again, on the second worker. */
  lemma SecondYields(p: Task, s: State)
    requires Pinned(p)
    requires Leads(s, Two(p, [], Before(p, READY), Scanning, false, Holding(Loop(p)), true, 1, 0))
    ensures Leads(s, Two(p, [], Before(p, READY), Scanning, false, Requeueing(LoopFiber(p), false), true, 0, 0))
  {
    hide Leads;
    Then(s, Two(p, [], Before(p, READY), Scanning, false, Holding(Loop(p)), true, 1, 0), Work(1, Dispatch(9)),
         Two(p, [], Before(p, EXEC), Scanning, false, Running(LoopFiber(p), false), true, 1, 0));
    Then(s, Two(p, [], Before(p, EXEC), Scanning, false, Running(LoopFiber(p), false), true, 1, 0),
         Work(1, SwapOut(READY)),
         Two(p, [], Before(p, READY), Scanning, false, Requeueing(LoopFiber(p), false), true, 0, 0));
  }

  /** Before it is put back, the first worker makes the same discovery. */
  lemma FirstStops(p: Task, s: State)
    requires Pinned(p)
    requires Leads(s, Two(p, [], Before(p, READY), Scanning, false, Requeueing(LoopFiber(p), false), true, 0, 0))
    ensures Leads(s, Two(p, [], Before(p, READY), Scanning, true, Requeueing(LoopFiber(p), false), true, 0, 0))
  {
    hide Leads;
    Then(s, Two(p, [], Before(p, READY), Scanning, false, Requeueing(LoopFiber(p), false), true, 0, 0), Work(0, Scan),
         Two(p, [], Before(p, READY), Nothing, false, Requeueing(LoopFiber(p), false), true, 0, 0));
    Then(s, Two(p, [], Before(p, READY), Nothing, false, Requeueing(LoopFiber(p), false), true, 0, 0), Work(0, GoIdle),
         Two(p, [], Before(p, READY), Idle, false, Requeueing(LoopFiber(p), false), true, 0, 1));
    Then(s, Two(p, [], Before(p, READY), Idle, false, Requeueing(LoopFiber(p), false), true, 0, 1),
         Work(0, IdleCheck(true)),
         Two(p, [], Before(p, READY), Scanning, true, Requeueing(LoopFiber(p), false), true, 0, 0));
  }

  /** The first worker leaves. */
  lemma FirstLeaves(p: Task, s: State)
    requires Pinned(p)
    requires Leads(s, Two(p, [], Before(p, READY), Scanning, true, Requeueing(LoopFiber(p), false), true, 0, 0))
    ensures Leads(s, Two(p, [Loop(p)], Before(p, READY), Gone, true, Scanning, true, 0, 0))
  {
    hide Leads;
    Then(s, Two(p, [], Before(p, READY), Scanning, true, Requeueing(LoopFiber(p), false), true, 0, 0), Work(0, Scan),
         Two(p, [], Before(p, READY), Nothing, true, Requeueing(LoopFiber(p), false), true, 0, 0));
    Then(s, Two(p, [], Before(p, READY), Nothing, true, Requeueing(LoopFiber(p), false), true, 0, 0), Work(0, GoIdle),
         Two(p, [], Before(p, READY), Gone, true, Requeueing(LoopFiber(p), false), true, 0, 0));
    Then(s, Two(p, [], Before(p, READY), Gone, true, Requeueing(LoopFiber(p), false), true, 0, 0), Work(1, Requeue),
         Two(p, [Loop(p)], Before(p, READY), Gone, true, Scanning, true, 0, 0));
  }

  /** The fiber schedules a task for the thread that is gone. */
  lemma SchedulesPinned(p: Task, s: State)
    requires Pinned(p)
    requires Leads(s, Two(p, [Loop(p)], Before(p, READY), Gone, true, Scanning, true, 0, 0))
    ensures Leads(s, Two(p, [p], Since(p, EXEC), Gone, true, Running(LoopFiber(p), false), true, 1, 0))
  {
    hide Leads;
    Then(s, Two(p, [Loop(p)], Before(p, READY), Gone, true, Scanning, true, 0, 0), Work(1, Scan),
         Two(p, [], Before(p, READY), Gone, true, Holding(Loop(p)), true, 1, 0));
    Then(s, Two(p, [], Before(p, READY), Gone, true, Holding(Loop(p)), true, 1, 0), Work(1, Dispatch(9)),
         Two(p, [], Before(p, EXEC), Gone, true, Running(LoopFiber(p), false), true, 1, 0));
    Then(s, Two(p, [], Before(p, EXEC), Gone, true, Running(LoopFiber(p), false), true, 1, 0), Work(1, Schedule(p)),
         Two(p, [p], Since(p, EXEC), Gone, true, Running(LoopFiber(p), false), true, 1, 0));
  }

  /** The second worker may not take that task, and leaves too. */
  lemma SecondLeaves(p: Task, s: State)
    requires Pinned(p)
    requires Leads(s, Two(p, [p], Since(p, EXEC), Gone, true, Running(LoopFiber(p), false), true, 1, 0))
    ensures Leads(s, Two(p, [p], Since(p, TERM), Gone, true, Gone, true, 0, 0))
  {
    hide Leads;
    Then(s, Two(p, [p], Since(p, EXEC), Gone, true, Running(LoopFiber(p), false), true, 1, 0), Work(1, SwapOut(TERM)),
         Two(p, [p], Since(p, TERM), Gone, true, Scanning, true, 0, 0));
    Then(s, Two(p, [p], Since(p, TERM), Gone, true, Scanning, true, 0, 0), Work(1, Scan),
         Two(p, [p], Since(p, TERM), Gone, true, Nothing, true, 0, 0));
    Then(s, Two(p, [p], Since(p, TERM), Gone, true, Nothing, true, 0, 0), Work(1, GoIdle),
         Two(p, [p], Since(p, TERM), Gone, true, Gone, true, 0, 0));
  }

  lemma Opening(p: Task, s: State)
    requires Pinned(p)
    requires s == Fresh(p)
    ensures Leads(s, Two(p, [Loop(p)], Before(p, INIT), Scanning, false, Scanning, false, 0, 0))
  {
    hide Leads;
    Here(s);
    var t := Two(p, [Loop(p)], Before(p, INIT), Scanning, false, Scanning, false, 0, 0);
    Then(s, s, External(Loop(p)), t.(autoStop := false, stopping := false));
    Then(s, t.(autoStop := false, stopping := false), SetAutoStop, t.(stopping := false));
    Then(s, t.(stopping := false), SetStopping, t);
  }

  /** Every pinned task can stay behind: there is a run, with nothing scheduled from
      outside after stop, in which all workers leave and the task is still queued,
      though one of the workers is of its thread. */
  lemma PinnedTaskCanRemain(p: Task) returns (s: State, acts: seq<Action>)
    requires Pinned(p)
    ensures Init(s) && Legal(s, acts) && AllGone(After(s, acts)) && p in After(s, acts).queue
    ensures exists w :: 0 <= w < |After(s, acts).workers| && After(s, acts).workers[w].thread == p.thread
  {
    s := Fresh(p);
    var t := Two(p, [p], Since(p, TERM), Gone, true, Gone, true, 0, 0);
    Opening(p, s);
    FirstYields(p, s);
    SecondStops(p, s);
    SecondTakes(p, s);
    SecondYields(p, s);
    FirstStops(p, s);
    FirstLeaves(p, s);
    SchedulesPinned(p, s);
    SecondLeaves(p, s);
    hide Init, Enabled, Next;
    assert Init(s) by { FreshInit(p); }
    acts :| Legal(s, acts) && After(s, acts) == t;
    assert t.workers[0].thread == p.thread;
  }

  lemma FreshInit(p: Task)
    requires Pinned(p)
    ensures Init(Fresh(p))
  {
  }

  ghost predicate AllGone(s: State) {
    forall w :: 0 <= w < |s.workers| ==> s.workers[w].at.Gone?
  }

  /** Some run in which all workers leave has the task still queued. */
  ghost predicate CanRemain(p: Task) {
    exists s, acts :: Init(s) && Legal(s, acts) && AllGone(After(s, acts)) && p in After(s, acts).queue
  }

  /** A task can stay behind exactly when it is pinned to a thread. */
  lemma RemainsIff(p: Task)
    requires NonNull(p)
    ensures CanRemain(p) <==> p.thread != -1
  {
    hide Init, Enabled, Next;
    if p.thread != -1 {
      var s, acts := PinnedTaskCanRemain(p);
    }
    if CanRemain(p) {
      var s, acts :| Init(s) && Legal(s, acts) && AllGone(After(s, acts)) && p in After(s, acts).queue;
      ExitSafety(s, acts);
    }
  }
}

/** The scheduler with any number of workers (src/schedular.cpp), as steps at lock
    granularity.  A worker scans under the lock, holds the task it took, runs a
    fiber, may have to put a fiber that yielded back into the queue, and idles.
    Swap-out, the decrement of the active counter and the HOLD fix-up are one
    step; the later re-enqueue of a READY fiber is a separate one. */
module Scheduler {
  import opened Types
  import opened TaskQueue

  datatype Where =
    | Scanning
    | Holding(task: Task)
    | Running(fiber: FiberId, viaCb: bool)
    | Requeueing(fiber: FiberId, viaCb: bool)
    | Nothing
    | Idle
    | Waiting
    | Gone

  datatype Worker = Worker(thread: int, at: Where, cbFiber: Option<FiberId>, idleDone: bool)

  datatype State = State(
    queue: seq<Task>,
    states: map<FiberId, FiberState>,
    workers: seq<Worker>,
    active: int,
    idlers: int,
    autoStop: bool,
    stopping: bool)

  /** `more` is what an overriding stop test adds to the base class's. */
  datatype Step =
    | Scan
    | Dispatch(newFiber: FiberId)
    | SwapOut(st: FiberState)
    | Requeue
    | GoIdle
    | IdleCheck(more: bool)
    | IdleYield
    | Schedule(task: Task)

  datatype Action =
    | Work(w: nat, step: Step)
    | External(task: Task)
    | SetAutoStop
    | SetStopping

  predicate Init(s: State) {
    && s.queue == [] && s.states == map[] && s.workers != []
    && (forall w :: 0 <= w < |s.workers| ==>
          s.workers[w].thread != -1 && s.workers[w].at == Scanning
          && s.workers[w].cbFiber == None && !s.workers[w].idleDone)
    && s.active == 0 && s.idlers == 0 && !s.autoStop && !s.stopping
  }

  /** Schedular::stopping, under the lock. */
  predicate StopTest(s: State) {
    s.autoStop && s.stopping && s.queue == [] && s.active == 0
  }

  function At(s: State, w: nat, at: Where): State
    requires w < |s.workers|
  {
    s.(workers := s.workers[w := s.workers[w].(at := at)])
  }

  function Put(s: State, t: Task): State {
    s.(queue := s.queue + [t],
       states := if t.fiber.Some? && t.fiber.value !in s.states then s.states[t.fiber.value := INIT] else s.states)
  }

  // --------------------------------------------------------------------- steps

  function DoScan(s: State, w: nat): State
    requires w < |s.workers|
  {
    var k := Pick(s.queue, s.workers[w].thread, s.states);
    if k < |s.queue| then At(s.(queue := Without(s.queue, k), active := s.active + 1), w, Holding(s.queue[k]))
    else At(s, w, Nothing)
  }

  /** swapIn of a usable fiber or of the fiber that runs callbacks; a finished
      fiber is dropped. */
  function DoDispatch(s: State, w: nat, t: Task, newFiber: FiberId): State
    requires w < |s.workers|
  {
    if t.fiber.Some? && !(t.fiber.value in s.states && Over(s.states[t.fiber.value])) then
      At(s.(states := s.states[t.fiber.value := EXEC]), w, Running(t.fiber.value, false))
    else if t.cb.Some? then
      var g := if s.workers[w].cbFiber.Some? then s.workers[w].cbFiber.value else newFiber;
      s.(states := s.states[g := EXEC],
         workers := s.workers[w := s.workers[w].(at := Running(g, true), cbFiber := Some(g))])
    else At(s.(active := s.active - 1), w, Scanning)
  }

  /** The fiber comes out with state `st`. */
  function DoSwapOut(s: State, w: nat, f: FiberId, viaCb: bool, st: FiberState): State
    requires w < |s.workers|
  {
    var s1 := s.(active := s.active - 1);
    if st == READY then At(s1.(states := s.states[f := READY]), w, Requeueing(f, viaCb))
    else if Over(st) then At(s1.(states := s.states[f := if viaCb then INIT else st]), w, Scanning)
    else
      s1.(states := s.states[f := HOLD],
          workers := s.workers[w := s.workers[w].(at := Scanning,
                                                  cbFiber := if viaCb then None else s.workers[w].cbFiber)])
  }

  function DoRequeue(s: State, w: nat, f: FiberId, viaCb: bool): State
    requires w < |s.workers|
  {
    s.(queue := s.queue + [Task(Some(f), None, -1)],
       workers := s.workers[w := s.workers[w].(at := Scanning,
                                               cbFiber := if viaCb then None else s.workers[w].cbFiber)])
  }

  function DoGoIdle(s: State, w: nat): State
    requires w < |s.workers|
  {
    if s.workers[w].idleDone then At(s, w, Gone) else At(s.(idlers := s.idlers + 1), w, Idle)
  }

  function DoIdleCheck(s: State, w: nat, more: bool): State
    requires w < |s.workers|
  {
    if StopTest(s) && more then
      s.(idlers := s.idlers - 1, workers := s.workers[w := s.workers[w].(at := Scanning, idleDone := true)])
    else At(s, w, Waiting)
  }

  /** Whoever calls schedule is running a fiber, or is the idle fiber between its
      stop test and its yield. */
  predicate CanStep(s: State, w: nat, step: Step)
    requires w < |s.workers|
  {
    var at := s.workers[w].at;
    match step
    case Scan => at.Scanning?
    case Dispatch(g) => at.Holding? && g !in s.states
    case SwapOut(_) => at.Running?
    case Requeue => at.Requeueing?
    case GoIdle => at.Nothing?
    case IdleCheck(_) => at.Idle?
    case IdleYield => at.Waiting?
    case Schedule(t) => (at.Running? || at.Waiting?) && NonNull(t)
  }

  function DoStep(s: State, w: nat, step: Step): State
    requires w < |s.workers| && CanStep(s, w, step)
  {
    var at := s.workers[w].at;
    match step
    case Scan => DoScan(s, w)
    case Dispatch(g) => DoDispatch(s, w, at.task, g)
    case SwapOut(st) => DoSwapOut(s, w, at.fiber, at.viaCb, st)
    case Requeue => DoRequeue(s, w, at.fiber, at.viaCb)
    case GoIdle => DoGoIdle(s, w)
    case IdleCheck(more) => DoIdleCheck(s, w, more)
    case IdleYield => At(s.(idlers := s.idlers - 1), w, Scanning)
    case Schedule(t) => Put(s, t)
  }

  /** Nothing is scheduled from outside once stop has been asked for. */
  predicate Enabled(s: State, a: Action) {
    match a
    case Work(w, step) => w < |s.workers| && CanStep(s, w, step)
    case External(t) => !(s.autoStop && s.stopping) && NonNull(t)
    case SetAutoStop => true
    case SetStopping => true
  }

  function Next(s: State, a: Action): State
    requires Enabled(s, a)
  {
    match a
    case Work(w, step) => DoStep(s, w, step)
    case External(t) => Put(s, t)
    case SetAutoStop => s.(autoStop := true)
    case SetStopping => s.(stopping := true)
  }

  ghost predicate Legal(s: State, acts: seq<Action>)
    decreases |acts|
  {
    acts == [] || (Enabled(s, acts[0]) && Legal(Next(s, acts[0]), acts[1..]))
  }

  ghost function After(s: State, acts: seq<Action>): State
    requires Legal(s, acts)
    decreases |acts|
  {
    if acts == [] then s else After(Next(s, acts[0]), acts[1..])
  }

  // ------------------------------------------------------------ worker accounting

  predicate Busied(w: Worker) {
    w.at.Holding? || w.at.Running?
  }

  predicate Idling(w: Worker) {
    w.at.Idle? || w.at.Waiting?
  }

  ghost function Count(ws: seq<Worker>, p: Worker -> bool): nat {
    if ws == [] then 0 else One(p(ws[0])) + Count(ws[1..], p)
  }

  lemma {:induction false} CountUpdate(ws: seq<Worker>, w: nat, x: Worker, p: Worker -> bool)
    requires w < |ws|
    ensures Count(ws[w := x], p) == Count(ws, p) - One(p(ws[w])) + One(p(x))
  {
    if w == 0 {
      assert ws[w := x][1..] == ws[1..];
    } else {
      assert ws[w := x][1..] == ws[1..][w - 1 := x];
      CountUpdate(ws[1..], w - 1, x, p);
    }
  }

  lemma {:induction false} CountNone(ws: seq<Worker>, p: Worker -> bool)
    requires forall w :: 0 <= w < |ws| ==> !p(ws[w])
    ensures Count(ws, p) == 0
  {
    if ws != [] {
      CountNone(ws[1..], p);
    }
  }

  /** The counters count the workers between dequeue and decrement, and those
      inside the idle fiber. */
  ghost predicate Counted(s: State) {
    s.active == Count(s.workers, Busied) && s.idlers == Count(s.workers, Idling)
  }

  lemma StepWorker(s: State, w: nat, step: Step)
    requires w < |s.workers| && CanStep(s, w, step)
    ensures var s' := DoStep(s, w, step);
            |s'.workers| == |s.workers| && s'.workers == s.workers[w := s'.workers[w]]
  {
    hide Pick, Without;
    match step
    case Scan =>
    case Dispatch(_) =>
    case SwapOut(_) =>
    case Requeue =>
    case GoIdle =>
    case IdleCheck(_) =>
    case IdleYield =>
    case Schedule(_) =>
  }

  lemma StepCounters(s: State, w: nat, step: Step)
    requires w < |s.workers| && CanStep(s, w, step)
    ensures var s' := DoStep(s, w, step);
            && |s'.workers| == |s.workers|
            && s'.active - s.active == One(Busied(s'.workers[w])) - One(Busied(s.workers[w]))
            && s'.idlers - s.idlers == One(Idling(s'.workers[w])) - One(Idling(s.workers[w]))
  {
    hide Pick, Without;
    match step
    case Scan =>
    case Dispatch(_) =>
    case SwapOut(_) =>
    case Requeue =>
    case GoIdle =>
    case IdleCheck(_) =>
    case IdleYield =>
    case Schedule(_) =>
  }

  /** A step changes one worker, and each counter by that worker's share. */
  lemma StepAccounts(s: State, w: nat, step: Step)
    requires w < |s.workers| && CanStep(s, w, step)
    ensures var s' := DoStep(s, w, step);
            && |s'.workers| == |s.workers| && s'.workers == s.workers[w := s'.workers[w]]
            && s'.active - s.active == One(Busied(s'.workers[w])) - One(Busied(s.workers[w]))
            && s'.idlers - s.idlers == One(Idling(s'.workers[w])) - One(Idling(s.workers[w]))
  {
    hide DoStep, CanStep;
    StepWorker(s, w, step);
    StepCounters(s, w, step);
  }

  lemma CountedStep(s: State, a: Action)
    requires Counted(s) && Enabled(s, a)
    ensures Counted(Next(s, a))
  {
    hide CanStep, DoStep;
    if a.Work? {
      StepAccounts(s, a.w, a.step);
      var x := Next(s, a).workers[a.w];
      CountUpdate(s.workers, a.w, x, Busied);
      CountUpdate(s.workers, a.w, x, Idling);
    }
  }

  // --------------------------------------------------------------------- exit

  /** An executing fiber is being run by some worker. */
  ghost predicate RunBySomeone(s: State, f: FiberId) {
    exists w :: 0 <= w < |s.workers| && Runs(s.workers[w], f)
  }

  /** The worker will scan the queue again before it can leave. */
  predicate Alert(w: Worker) {
    !w.at.Gone? && !(w.at.Nothing? && w.idleDone)
  }

  ghost predicate SomeoneAlert(s: State) {
    exists w :: 0 <= w < |s.workers| && Alert(s.workers[w])
  }

  ghost predicate OpenTask(q: seq<Task>) {
    exists i :: 0 <= i < |q| && q[i].thread == -1
  }

  ghost predicate ExitInv(s: State) {
    && s.workers != []
    && (forall f :: f in s.states && s.states[f] == EXEC ==> RunBySomeone(s, f))
    && (forall w :: 0 <= w < |s.workers| && s.workers[w].at.Gone? ==> s.workers[w].idleDone)
    && (forall w :: 0 <= w < |s.workers| && s.workers[w].idleDone ==> s.autoStop && s.stopping)
    && (OpenTask(s.queue) ==> SomeoneAlert(s))
  }

  predicate Runs(w: Worker, f: FiberId) {
    w.at.Running? && w.at.fiber == f
  }

  /** A fiber is executing after a step if the stepping worker runs it, or if it
      was executing before and the stepping worker has not let go of it. */
  lemma StepStates(s: State, w: nat, step: Step, f: FiberId)
    requires w < |s.workers| && CanStep(s, w, step)
    ensures var s' := DoStep(s, w, step);
            && |s'.workers| == |s.workers|
            && (f in s'.states && s'.states[f] == EXEC ==>
                  || Runs(s'.workers[w], f)
                  || (f in s.states && s.states[f] == EXEC && !Runs(s.workers[w], f)))
  {
    hide Pick;
    match step
    case Scan =>
    case Dispatch(_) =>
    case SwapOut(_) =>
    case Requeue =>
    case GoIdle =>
    case IdleCheck(_) =>
    case IdleYield =>
    case Schedule(_) =>
  }

  lemma ExecStep(s: State, a: Action, f: FiberId)
    requires Enabled(s, a) && (f in s.states && s.states[f] == EXEC ==> RunBySomeone(s, f))
    requires f in Next(s, a).states && Next(s, a).states[f] == EXEC
    ensures RunBySomeone(Next(s, a), f)
  {
    var s' := Next(s, a);
    if a.Work? {
      StepStates(s, a.w, a.step, f);
      StepAccounts(s, a.w, a.step);
      hide CanStep, DoStep;
      if !Runs(s'.workers[a.w], f) {
        var v :| 0 <= v < |s.workers| && Runs(s.workers[v], f);
        assert s'.workers[v] == s.workers[v];
      }
    }
  }

  lemma ScanMisses(s: State, w: nat)
    requires ExitInv(s) && w < |s.workers| && s.workers[w].at.Scanning? && OpenTask(s.queue)
    requires Pick(s.queue, s.workers[w].thread, s.states) == |s.queue|
    ensures exists v :: 0 <= v < |s.workers| && v != w && Alert(s.workers[v])
  {
    var i :| 0 <= i < |s.queue| && s.queue[i].thread == -1;
    assert !Takeable(s.queue[i], s.workers[w].thread, s.states);
    var f := s.queue[i].fiber.value;
    assert RunBySomeone(s, f);
    var v :| 0 <= v < |s.workers| && Runs(s.workers[v], f);
    assert Alert(s.workers[v]);
  }

  /** Only a step that looks at the queue, or leaves, can make a worker less than
      alert; and the queue only grows where an alert worker is at work. */
  lemma StepAlert(s: State, w: nat, step: Step)
    requires w < |s.workers| && CanStep(s, w, step)
    ensures var s' := DoStep(s, w, step);
            && |s'.workers| == |s.workers|
            && (Alert(s'.workers[w])
                || (step.GoIdle? && !Alert(s.workers[w]) && s'.queue == s.queue)
                || (step.Scan? && s'.queue == s.queue
                    && Pick(s.queue, s.workers[w].thread, s.states) == |s.queue|))
  {
    hide Pick;
    match step
    case Scan =>
    case Dispatch(_) =>
    case SwapOut(_) =>
    case Requeue =>
    case GoIdle =>
    case IdleCheck(_) =>
    case IdleYield =>
    case Schedule(_) =>
  }

  lemma OpenStep(s: State, w: nat, step: Step)
    requires ExitInv(s) && w < |s.workers| && CanStep(s, w, step) && OpenTask(DoStep(s, w, step).queue)
    ensures SomeoneAlert(DoStep(s, w, step))
  {
    StepAlert(s, w, step);
    StepAccounts(s, w, step);
    assert step.Scan? ==> s.workers[w].at.Scanning?;
    hide DoStep, CanStep;
    var s' := DoStep(s, w, step);
    if !Alert(s'.workers[w]) {
      if step.Scan? {
        ScanMisses(s, w);
      }
      var v :| 0 <= v < |s.workers| && v != w && Alert(s.workers[v]);
      assert s'.workers[v] == s.workers[v];
    }
  }

  lemma StepDone(s: State, w: nat, step: Step)
    requires w < |s.workers| && CanStep(s, w, step)
    ensures var s' := DoStep(s, w, step);
            && s'.autoStop == s.autoStop && s'.stopping == s.stopping && |s'.workers| == |s.workers|
            && (s.workers[w].idleDone ==> s'.workers[w].idleDone)
            && (s'.workers[w].idleDone ==> s.workers[w].idleDone || (s.autoStop && s.stopping))
            && (s'.workers[w].at.Gone? ==> s'.workers[w].idleDone)
  {
    hide Pick;
    match step
    case Scan =>
    case Dispatch(_) =>
    case SwapOut(_) =>
    case Requeue =>
    case GoIdle =>
    case IdleCheck(_) =>
    case IdleYield =>
    case Schedule(_) =>
  }

  lemma ExitStep(s: State, a: Action)
    requires ExitInv(s) && Enabled(s, a)
    ensures ExitInv(Next(s, a))
  {
    var s' := Next(s, a);
    forall f | f in s'.states && s'.states[f] == EXEC ensures RunBySomeone(s', f) {
      ExecStep(s, a, f);
    }
    if a.Work? {
      StepDone(s, a.w, a.step);
      StepAccounts(s, a.w, a.step);
      hide DoStep, CanStep, RunBySomeone;
      if OpenTask(s'.queue) {
        OpenStep(s, a.w, a.step);
      }
    } else {
      hide RunBySomeone;
      if a.External? {
        assert Alert(s.workers[0]);
      }
    }
  }

  lemma {:induction false} RunKeeps(s: State, acts: seq<Action>)
    requires Counted(s) && ExitInv(s) && Legal(s, acts)
    ensures Counted(After(s, acts)) && ExitInv(After(s, acts))
    decreases |acts|
  {
    hide Counted, ExitInv, Enabled, Next;
    if acts != [] {
      CountedStep(s, acts[0]);
      ExitStep(s, acts[0]);
      RunKeeps(Next(s, acts[0]), acts[1..]);
    }
  }

  lemma InitKeeps(s: State)
    requires Init(s)
    ensures Counted(s) && ExitInv(s)
  {
    CountNone(s.workers, Busied);
    CountNone(s.workers, Idling);
  }

  /** In every interleaving the active count is the number of workers between
      taking a task and letting it go, and the idle count the number of workers in
      the idle fiber. */
  lemma WorkerAccounting(s: State, acts: seq<Action>)
    requires Init(s) && Legal(s, acts)
    ensures After(s, acts).active == Count(After(s, acts).workers, Busied)
    ensures After(s, acts).idlers == Count(After(s, acts).workers, Idling)
  {
    hide Init, ExitInv;
    InitKeeps(s);
    RunKeeps(s, acts);
  }

  /** In every interleaving, with nothing scheduled from outside after stop: once
      all workers have left, no task that any thread may run is queued. */
  lemma ExitSafety(s: State, acts: seq<Action>)
    requires Init(s) && Legal(s, acts)
    requires forall w :: 0 <= w < |After(s, acts).workers| ==> After(s, acts).workers[w].at.Gone?
    ensures forall i :: 0 <= i < |After(s, acts).queue| ==> After(s, acts).queue[i].thread != -1
  {
    hide Init, Counted;
    InitKeeps(s);
    RunKeeps(s, acts);
  }

  /** The step schedules nothing for one thread alone. */
  predicate Unpinned(a: Action) {
    match a
    case Work(_, Schedule(t)) => t.thread == -1
    case External(t) => t.thread == -1
    case _ => true
  }

  ghost predicate AllOpen(q: seq<Task>) {
    forall i :: 0 <= i < |q| ==> q[i].thread == -1
  }

  lemma AllOpenStep(s: State, a: Action)
    requires AllOpen(s.queue) && Enabled(s, a) && Unpinned(a)
    ensures AllOpen(Next(s, a).queue)
  {
    hide Pick;
    match a
    case Work(w, step) =>
      match step {
        case Scan =>
        case Dispatch(_) =>
        case SwapOut(_) =>
        case Requeue =>
        case GoIdle =>
        case IdleCheck(_) =>
        case IdleYield =>
        case Schedule(_) =>
      }
    case External(_) =>
    case SetAutoStop =>
    case SetStopping =>
  }

  lemma {:induction false} AllOpenRun(s: State, acts: seq<Action>)
    requires AllOpen(s.queue) && Legal(s, acts) && forall i :: 0 <= i < |acts| ==> Unpinned(acts[i])
    ensures AllOpen(After(s, acts).queue)
    decreases |acts|
  {
    hide AllOpen, Enabled, Next, Unpinned;
    if acts != [] {
      AllOpenStep(s, acts[0]);
      AllOpenRun(Next(s, acts[0]), acts[1..]);
    }
  }

  /** So when no task is ever pinned, all workers leaving means an empty queue. */
  lemma EmptyAfterExit(s: State, acts: seq<Action>)
    requires Init(s) && Legal(s, acts) && forall i :: 0 <= i < |acts| ==> Unpinned(acts[i])
    requires forall w :: 0 <= w < |After(s, acts).workers| ==> After(s, acts).workers[w].at.Gone?
    ensures After(s, acts).queue == []
  {
    hide Unpinned, Enabled, Next, AllOpen;
    ExitSafety(s, acts);
    assert AllOpen(s.queue) by { NoTasks(s.queue); }
    AllOpenRun(s, acts);
    NoTasks(After(s, acts).queue);
  }

  lemma NoTasks(q: seq<Task>)
    ensures q == [] ==> AllOpen(q)
    ensures AllOpen(q) && (forall i :: 0 <= i < |q| ==> q[i].thread != -1) ==> q == []
  {
    if q != [] && AllOpen(q) {
      assert q[0].thread == -1;
    }
  }

  lemma {:induction false} CountZero(ws: seq<Worker>, p: Worker -> bool, w: nat)
    requires Count(ws, p) == 0 && w < |ws|
    ensures !p(ws[w])
  {
    if w > 0 {
      CountZero(ws[1..], p, w - 1);
    }
  }

  /** A worker's idle fiber ends its loop exactly when stop was asked for, the queue
      is empty and no worker holds a task or runs a fiber. */
  lemma IdleEndsIff(s0: State, acts: seq<Action>, w: nat)
    requires Init(s0) && Legal(s0, acts) && w < |After(s0, acts).workers|
    requires After(s0, acts).workers[w].at.Idle? && !After(s0, acts).workers[w].idleDone
    ensures var s := After(s0, acts);
            var s' := DoStep(s, w, IdleCheck(true));
            && |s'.workers| == |s.workers|
            && (s'.workers[w].idleDone <==>
                  && s.autoStop && s.stopping && s.queue == []
                  && forall v :: 0 <= v < |s.workers| ==> !s.workers[v].at.Holding? && !s.workers[v].at.Running?)
  {
    hide Init, ExitInv;
    InitKeeps(s0);
    RunKeeps(s0, acts);
    var s := After(s0, acts);
    if s.active == 0 {
      forall v | 0 <= v < |s.workers| ensures !s.workers[v].at.Holding? && !s.workers[v].at.Running? {
        CountZero(s.workers, Busied, v);
      }
    } else if forall v :: 0 <= v < |s.workers| ==> !s.workers[v].at.Holding? && !s.workers[v].at.Running? {
      CountNone(s.workers, Busied);
    }
  }
}

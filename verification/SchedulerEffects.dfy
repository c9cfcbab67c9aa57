/** What the steps of a worker come to, written out: which task a scan takes, what
    is run for it, and where the fiber goes when it comes out. */
module SchedulerEffects {
  import opened Types
  import opened TaskQueue
  import opened Scheduler
  import opened SchedulerHandles

  /** Only this worker moved. */
  ghost predicate OnlyWorker(s: State, s': State, w: nat) {
    && |s'.workers| == |s.workers| && s'.autoStop == s.autoStop && s'.stopping == s.stopping
    && forall v :: 0 <= v < |s.workers| && v != w ==> s'.workers[v] == s.workers[v]
  }

  /** The task is pinned to another thread, or is a fiber that executes. */
  predicate PassedOver(t: Task, thread: int, states: map<FiberId, FiberState>) {
    || (t.thread != -1 && t.thread != thread)
    || (t.fiber.Some? && t.fiber.value in states && states[t.fiber.value] == EXEC)
  }

  /** A scan takes the first task that is not to be passed over, and the worker counts
      as active from then on; it finds nothing exactly when there is none. */
  lemma ScanTakes(s: State, w: nat)
    requires w < |s.workers| && CanStep(s, w, Scan)
    ensures var s', thread := DoStep(s, w, Scan), s.workers[w].thread;
            && OnlyWorker(s, s', w) && s'.states == s.states && s'.idlers == s.idlers
            && if forall i :: 0 <= i < |s.queue| ==> PassedOver(s.queue[i], thread, s.states)
               then s'.workers[w] == s.workers[w].(at := Nothing) && s'.queue == s.queue && s'.active == s.active
               else exists k :: 0 <= k < |s.queue| && !PassedOver(s.queue[k], thread, s.states)
                      && (forall i :: 0 <= i < k ==> PassedOver(s.queue[i], thread, s.states))
                      && s'.workers[w] == s.workers[w].(at := Holding(s.queue[k]))
                      && s'.queue == s.queue[..k] + s.queue[k + 1..] && s'.active == s.active + 1
  {
    PickWritten(s.queue, s.workers[w].thread, s.states);
    var k := Pick(s.queue, s.workers[w].thread, s.states);
    assert k < |s.queue| ==> !PassedOver(s.queue[k], s.workers[w].thread, s.states);
    hide Pick;
  }

  /** The fiber that runs for a task: the task's own unless it has ended; for a
      callback the worker's recycled fiber or the new one. */
  function RunFor(t: Task, w: Worker, states: map<FiberId, FiberState>, newFiber: FiberId): Option<FiberId> {
    if t.fiber.Some? && t.fiber.value in states && states[t.fiber.value] != TERM && states[t.fiber.value] != EXCEPT
    then t.fiber
    else if t.cb.None? then None
    else if w.cbFiber.Some? then w.cbFiber else Some(newFiber)
  }

  /** What a worker took it runs, on a fiber that nobody else runs; only a fiber that
      has ended is dropped. */
  lemma DispatchRuns(s0: State, acts: seq<Action>, w: nat, newFiber: FiberId)
    requires Init(s0) && Legal(s0, acts) && FairRun(s0, acts)
    requires w < |After(s0, acts).workers| && CanStep(After(s0, acts), w, Dispatch(newFiber))
    ensures var s := After(s0, acts);
            var s' := DoStep(s, w, Dispatch(newFiber));
            var f := RunFor(s.workers[w].at.task, s.workers[w], s.states, newFiber);
            && OnlyWorker(s, s', w) && s'.queue == s.queue && s'.idlers == s.idlers
            && Dispatched(s, s', w, f)
            && (f.Some? ==> forall v :: 0 <= v < |s.workers| ==> !Runs(s.workers[v], f.value))
  {
    hide Init, HandleInv, Enabled, Next, Fair, DoStep;
    InitFair(s0);
    RunFair(s0, acts);
    DispatchFrom(After(s0, acts), w, newFiber);
  }

  /** What comes of a dispatch to `f`. */
  ghost predicate Dispatched(s: State, s': State, w: nat, f: Option<FiberId>)
    requires w < |s.workers| && |s'.workers| == |s.workers| && s.workers[w].at.Holding?
  {
    var own := f == s.workers[w].at.task.fiber;
    if f.Some? then
      && s'.workers[w].at == Running(f.value, !own)
      && s'.workers[w].cbFiber == (if own then s.workers[w].cbFiber else f)
      && s'.states == s.states[f.value := EXEC] && s'.active == s.active
    else
      && s'.workers[w] == s.workers[w].(at := Scanning)
      && s'.states == s.states && s'.active == s.active - 1
  }

  lemma DispatchFrom(s: State, w: nat, newFiber: FiberId)
    requires HandleInv(s) && w < |s.workers| && CanStep(s, w, Dispatch(newFiber))
    ensures var s' := DoStep(s, w, Dispatch(newFiber));
            var f := RunFor(s.workers[w].at.task, s.workers[w], s.states, newFiber);
            && OnlyWorker(s, s', w) && s'.queue == s.queue && s'.idlers == s.idlers
            && Dispatched(s, s', w, f)
            && (f.Some? ==> forall v :: 0 <= v < |s.workers| ==> !Runs(s.workers[v], f.value))
  {
    hide HandleInv, DoStep, Dispatched;
    HoldingOk(s, w);
    DispatchShape(s, w, newFiber);
    var f := RunFor(s.workers[w].at.task, s.workers[w], s.states, newFiber);
    if f.Some? {
      NobodyRuns(s, f.value);
    }
  }

  lemma DispatchShape(s: State, w: nat, newFiber: FiberId)
    requires w < |s.workers| && CanStep(s, w, Dispatch(newFiber)) && ReadyToRun(s, s.workers[w])
    ensures var s' := DoStep(s, w, Dispatch(newFiber));
            var f := RunFor(s.workers[w].at.task, s.workers[w], s.states, newFiber);
            && OnlyWorker(s, s', w) && s'.queue == s.queue && s'.idlers == s.idlers
            && Dispatched(s, s', w, f)
            && (f.Some? && f.value in s.states ==> s.states[f.value] != EXEC)
  {
  }

  lemma NobodyRuns(s: State, f: FiberId)
    requires HandleInv(s) && (f in s.states ==> s.states[f] != EXEC)
    ensures forall v :: 0 <= v < |s.workers| ==> !Runs(s.workers[v], f)
  {
    forall v | 0 <= v < |s.workers| ensures !Runs(s.workers[v], f) {
      assert RunnerOk(s, v, f);
    }
  }

  /** A fiber comes out: on hold it is let go, and one that ended stays with its end;
      a callback fiber on hold is a fiber of its own, and one that ended is reset and
      kept.  One that yielded stays with the worker, which puts it at the end of the
      queue for any thread next, whatever the others did in between. */
  lemma ComesOut(s: State, w: nat, st: FiberState)
    requires w < |s.workers| && CanStep(s, w, SwapOut(st))
    ensures var s', f, viaCb := DoStep(s, w, SwapOut(st)), s.workers[w].at.fiber, s.workers[w].at.viaCb;
            && OnlyWorker(s, s', w) && s'.queue == s.queue && s'.idlers == s.idlers && s'.active == s.active - 1
            && match st
               case READY =>
                 && s'.states == s.states[f := READY]
                 && s'.workers[w] == s.workers[w].(at := Requeueing(f, viaCb))
               case TERM =>
                 && s'.states == s.states[f := if viaCb then INIT else TERM]
                 && s'.workers[w] == s.workers[w].(at := Scanning)
               case EXCEPT =>
                 && s'.states == s.states[f := if viaCb then INIT else EXCEPT]
                 && s'.workers[w] == s.workers[w].(at := Scanning)
               case _ =>
                 && s'.states == s.states[f := HOLD]
                 && s'.workers[w].at == Scanning
                 && s'.workers[w].cbFiber == (if viaCb then None else s.workers[w].cbFiber)
    ensures var f, viaCb := s.workers[w].at.fiber, s.workers[w].at.viaCb;
            st == READY ==> forall s1: State ::
              w < |s1.workers| && s1.workers[w] == DoStep(s, w, SwapOut(st)).workers[w] ==>
                && CanStep(s1, w, Requeue)
                && var s2 := DoStep(s1, w, Requeue);
                   && OnlyWorker(s1, s2, w) && s2.queue == s1.queue + [Task(Some(f), None, -1)]
                   && s2.states == s1.states && s2.active == s1.active && s2.idlers == s1.idlers
                   && s2.workers[w].at == Scanning
                   && s2.workers[w].cbFiber == (if viaCb then None else s.workers[w].cbFiber)
  {
  }

  /** A worker that found nothing leaves if its idle fiber has ended, and else runs
      it; the idle fiber goes back to the scan when it yields. */
  lemma GoesIdle(s: State, w: nat, step: Step)
    requires w < |s.workers| && CanStep(s, w, step) && (step.GoIdle? || step.IdleYield?)
    ensures var s' := DoStep(s, w, step);
            && OnlyWorker(s, s', w) && s'.queue == s.queue && s'.states == s.states && s'.active == s.active
            && s'.workers[w] == s.workers[w].(at := if step.IdleYield? then Scanning
                                                    else if s.workers[w].idleDone then Gone else Idle)
            && s'.idlers == s.idlers + (if step.IdleYield? then -1 else if s.workers[w].idleDone then 0 else 1)
  {
  }
}

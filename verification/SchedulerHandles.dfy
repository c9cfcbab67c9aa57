/** When no fiber is scheduled twice over, no fiber is ever run by two workers, and
    the fiber-state assertions of swapIn and reset hold.  A fiber may be scheduled
    while it runs, by itself or by anyone: the scan then passes it over until it
    has come out on hold or finished. */
module SchedulerHandles {
  import opened Types
  import opened Gathering
  import opened TaskQueue
  import opened Scheduler

  /** The worker's callback fiber, unless the worker is running it. */
  function Spare(w: Worker): Option<FiberId> {
    if w.at.Running? && w.at.viaCb then None else w.cbFiber
  }

  /** The handles a worker keeps: the fiber it took and is not yet, or no longer,
      running, and its callback fiber. */
  function Kept(w: Worker): multiset<FiberId> {
    Handle(Spare(w))
    + match w.at
      case Holding(t) => Handle(t.fiber)
      case Requeueing(f, viaCb) => if viaCb then multiset{} else multiset{f}
      case _ => multiset{}
  }

  /** The handles in the queue and with the workers; a running fiber is not among
      them, unless it has been scheduled again. */
  ghost function Handles(s: State): multiset<FiberId> {
    QueueHandles(s.queue) + Gather(s.workers, Kept)
  }

  /** What the worker's place says about its callback fiber and its task. */
  predicate WorkerOk(w: Worker) {
    && (w.at.Holding? ==> NonNull(w.at.task))
    && ((w.at.Running? || w.at.Requeueing?) && w.at.viaCb ==> w.cbFiber == Some(w.at.fiber))
  }

  /** The callback fiber is in the worker's keeping and not in use. */
  predicate Parked(w: Worker) {
    w.cbFiber.Some? && !((w.at.Running? || w.at.Requeueing?) && w.at.viaCb)
  }

  predicate ParkedOk(w: Worker, states: map<FiberId, FiberState>) {
    Parked(w) ==> w.cbFiber.value in states && states[w.cbFiber.value] == INIT
  }

  /** The worker took this fiber and still has it in hand. */
  predicate Took(at: Where, f: FiberId) {
    match at
    case Holding(t) => t.fiber == Some(f)
    case Requeueing(g, viaCb) => g == f && !viaCb
    case _ => false
  }

  predicate Has(w: Worker, f: FiberId) {
    Spare(w) == Some(f) || Took(w.at, f)
  }

  /** The running fiber executes, and no other worker runs it or has it. */
  ghost predicate RunnerOk(s: State, w: nat, f: FiberId)
    requires w < |s.workers|
  {
    Runs(s.workers[w], f) ==>
      && f in s.states && s.states[f] == EXEC
      && forall v :: 0 <= v < |s.workers| ==>
           !Has(s.workers[v], f) && (Runs(s.workers[v], f) ==> v == w)
  }

  ghost predicate HandleInv(s: State) {
    && (forall f: FiberId :: Handles(s)[f] <= 1)
    && (forall f: FiberId :: f in Handles(s) ==> f in s.states)
    && (forall i :: 0 <= i < |s.queue| ==> NonNull(s.queue[i]))
    && (forall w :: 0 <= w < |s.workers| ==> WorkerOk(s.workers[w]))
    && (forall f :: f in s.states && s.states[f] == EXEC ==> RunBySomeone(s, f))
    && (forall w :: 0 <= w < |s.workers| ==> ParkedOk(s.workers[w], s.states))
    && (forall w, f :: 0 <= w < |s.workers| ==> RunnerOk(s, w, f))
  }

  /** The handle of the running fiber goes back to the scheduler. */
  predicate Returns(viaCb: bool, st: FiberState) {
    st == READY || (viaCb && Over(st))
  }

  /** The caller schedules no fiber whose handle is in the queue or with a worker,
      and a fiber that was scheduled while it ran does not also yield to READY, or
      end as a callback. */
  ghost predicate Fair(s: State, a: Action)
    requires Enabled(s, a)
  {
    match a
    case Work(w, Schedule(t)) => t.fiber.Some? ==> t.fiber.value !in Handles(s)
    case Work(w, SwapOut(st)) =>
      Returns(s.workers[w].at.viaCb, st) ==> s.workers[w].at.fiber !in QueueHandles(s.queue)
    case External(t) => t.fiber.Some? ==> t.fiber.value !in Handles(s)
    case _ => true
  }

  ghost predicate FairRun(s: State, acts: seq<Action>)
    requires Legal(s, acts)
    decreases |acts|
  {
    acts == [] || (Fair(s, acts[0]) && FairRun(Next(s, acts[0]), acts[1..]))
  }

  // ------------------------------------------------------------------ the handles

  lemma HeldBy(s: State, w: nat, f: FiberId)
    requires w < |s.workers| && f in Kept(s.workers[w])
    ensures f in Handles(s)
  {
    GatherMember(s.workers, Kept, f);
  }

  lemma HeldByTwo(s: State, w: nat, v: nat, f: FiberId)
    requires w < v < |s.workers| && f in Kept(s.workers[w]) && f in Kept(s.workers[v])
    ensures Handles(s)[f] >= 2
  {
    GatherSplit(s.workers, v, Kept);
    var rest := s.workers[..v] + s.workers[v + 1..];
    GatherMember(rest, Kept, f);
    assert rest[w] == s.workers[w];
  }

  lemma HeldTwice(s: State, w: nat, f: FiberId)
    requires w < |s.workers|
    ensures Handles(s)[f] >= Kept(s.workers[w])[f]
  {
    GatherSplit(s.workers, w, Kept);
  }

  lemma OneRunner(s: State, w: nat, v: nat, f: FiberId)
    requires HandleInv(s) && w < |s.workers| && v < |s.workers|
    requires f in Kept(s.workers[w]) && f in Kept(s.workers[v])
    ensures w == v
  {
    if w < v {
      HeldByTwo(s, w, v, f);
    } else if v < w {
      HeldByTwo(s, v, w, f);
    }
  }

  // --------------------------------------------------------------------- steps

  lemma KeptCount(w: Worker, f: FiberId)
    ensures Kept(w)[f] == One(Spare(w) == Some(f)) + One(Took(w.at, f))
  {
  }

  lemma QueuedAppend(q: seq<Task>, t: Task, f: FiberId)
    ensures QueueHandles(q + [t])[f] == QueueHandles(q)[f] + One(t.fiber == Some(f))
  {
    GatherAppend(q, t, TaskHandle);
  }

  lemma QueuedRemove(q: seq<Task>, k: nat, f: FiberId)
    requires k < |q|
    ensures QueueHandles(q)[f] == QueueHandles(Without(q, k))[f] + One(q[k].fiber == Some(f))
  {
    GatherSplit(q, k, TaskHandle);
  }

  /** How often a fiber is in the queue and with this worker. */
  ghost function Share(q: seq<Task>, w: Worker, f: FiberId): int {
    QueueHandles(q)[f] + One(Spare(w) == Some(f)) + One(Took(w.at, f))
  }

  lemma Balance(g: multiset<FiberId>, g': multiset<FiberId>, x: multiset<FiberId>, y: multiset<FiberId>, f: FiberId)
    requires g' + x == g + y
    ensures g'[f] + x[f] == g[f] + y[f]
  {
    assert (g' + x)[f] == (g + y)[f];
  }

  /** A step of one worker changes the handles by that worker's share. */
  lemma HandlesChange(s: State, s': State, w: nat, f: FiberId)
    requires w < |s.workers| && |s'.workers| == |s.workers| && s'.workers == s.workers[w := s'.workers[w]]
    ensures Handles(s')[f] + Share(s.queue, s.workers[w], f) == Handles(s)[f] + Share(s'.queue, s'.workers[w], f)
  {
    hide Kept;
    GatherUpdate(s.workers, w, s'.workers[w], Kept);
    Balance(Gather(s.workers, Kept), Gather(s'.workers, Kept), Kept(s.workers[w]), Kept(s'.workers[w]), f);
    KeptCount(s.workers[w], f);
    KeptCount(s'.workers[w], f);
  }

  lemma ScanShare(s: State, w: nat, f: FiberId)
    requires w < |s.workers| && s.workers[w].at.Scanning?
    ensures var s' := DoScan(s, w);
            |s'.workers| == |s.workers| && Share(s'.queue, s'.workers[w], f) == Share(s.queue, s.workers[w], f)
  {
    hide QueueHandles, Without;
    var k := Pick(s.queue, s.workers[w].thread, s.states);
    if k < |s.queue| {
      QueuedRemove(s.queue, k, f);
    }
  }

  lemma DispatchShare(s: State, w: nat, g: FiberId, f: FiberId)
    requires w < |s.workers| && s.workers[w].at.Holding? && NonNull(s.workers[w].at.task)
    ensures var s' := DoDispatch(s, w, s.workers[w].at.task, g);
            && |s'.workers| == |s.workers| && s'.queue == s.queue
            && Share(s'.queue, s'.workers[w], f) <= Share(s.queue, s.workers[w], f)
  {
    hide QueueHandles;
  }

  lemma SwapOutShare(s: State, w: nat, st: FiberState, f: FiberId)
    requires w < |s.workers| && s.workers[w].at.Running? && WorkerOk(s.workers[w])
    ensures var s' := DoSwapOut(s, w, s.workers[w].at.fiber, s.workers[w].at.viaCb, st);
            && |s'.workers| == |s.workers|
            && Share(s'.queue, s'.workers[w], f) <=
               Share(s.queue, s.workers[w], f)
               + One(s.workers[w].at.fiber == f && Returns(s.workers[w].at.viaCb, st))
  {
    hide QueueHandles;
  }

  lemma RequeueShare(s: State, w: nat, f: FiberId)
    requires w < |s.workers| && s.workers[w].at.Requeueing? && WorkerOk(s.workers[w])
    ensures var s' := DoRequeue(s, w, s.workers[w].at.fiber, s.workers[w].at.viaCb);
            |s'.workers| == |s.workers| && Share(s'.queue, s'.workers[w], f) == Share(s.queue, s.workers[w], f)
  {
    hide QueueHandles;
    QueuedAppend(s.queue, Task(Some(s.workers[w].at.fiber), None, -1), f);
  }

  lemma PutShare(s: State, w: nat, t: Task, f: FiberId)
    requires w < |s.workers|
    ensures var s' := Put(s, t);
            s'.workers == s.workers
            && Share(s'.queue, s'.workers[w], f) == Share(s.queue, s.workers[w], f) + One(t.fiber == Some(f))
  {
    hide QueueHandles;
    QueuedAppend(s.queue, t, f);
  }

  /** The fiber, if any, whose handle enters the scheduler with a step. */
  predicate Enters(s: State, w: nat, step: Step, f: FiberId)
    requires w < |s.workers| && CanStep(s, w, step)
  {
    match step
    case SwapOut(st) => s.workers[w].at.fiber == f && Returns(s.workers[w].at.viaCb, st)
    case Schedule(t) => t.fiber == Some(f)
    case _ => false
  }

  lemma StepShare(s: State, w: nat, step: Step, f: FiberId)
    requires w < |s.workers| && CanStep(s, w, step) && WorkerOk(s.workers[w])
    ensures var s' := DoStep(s, w, step);
            && |s'.workers| == |s.workers|
            && Share(s'.queue, s'.workers[w], f) <=
               Share(s.queue, s.workers[w], f) + One(Enters(s, w, step, f))
  {
    hide QueueHandles, DoScan, DoDispatch, DoSwapOut, DoRequeue, Share;
    match step
    case Scan => ScanShare(s, w, f);
    case Dispatch(g) => DispatchShare(s, w, g, f);
    case SwapOut(st) => SwapOutShare(s, w, st, f);
    case Requeue => RequeueShare(s, w, f);
    case GoIdle => IdleShare(s, w, step, f);
    case IdleCheck(more) => IdleShare(s, w, step, f);
    case IdleYield => IdleShare(s, w, step, f);
    case Schedule(t) => PutShare(s, w, t, f);
  }

  lemma IdleShare(s: State, w: nat, step: Step, f: FiberId)
    requires w < |s.workers| && CanStep(s, w, step) && (step.GoIdle? || step.IdleCheck? || step.IdleYield?)
    ensures var s' := DoStep(s, w, step);
            |s'.workers| == |s.workers| && Share(s'.queue, s'.workers[w], f) == Share(s.queue, s.workers[w], f)
  {
    hide QueueHandles;
  }

  // ------------------------------------------------------------------ invariance

  lemma KnownStep(s: State, w: nat, step: Step, f: FiberId)
    requires w < |s.workers| && CanStep(s, w, step) && f in s.states
    ensures f in DoStep(s, w, step).states
  {
  }

  /** A fiber whose handle enters had none in the scheduler, and is known. */
  lemma EntersNew(s: State, w: nat, step: Step, f: FiberId)
    requires HandleInv(s) && Enabled(s, Work(w, step)) && Fair(s, Work(w, step)) && Enters(s, w, step, f)
    ensures f !in Handles(s) && f in DoStep(s, w, step).states
  {
    if step.SwapOut? {
      assert RunnerOk(s, w, f);
      NobodyKeeps(s, f);
    }
  }

  lemma NobodyKeeps(s: State, f: FiberId)
    requires forall v :: 0 <= v < |s.workers| ==> !Has(s.workers[v], f)
    ensures Gather(s.workers, Kept)[f] == 0
  {
    GatherMember(s.workers, Kept, f);
    forall v | 0 <= v < |s.workers| ensures f !in Kept(s.workers[v]) {
      HasKept(s.workers[v], f);
    }
  }

  lemma HandlesWork(s: State, w: nat, step: Step, f: FiberId)
    requires HandleInv(s) && Enabled(s, Work(w, step)) && Fair(s, Work(w, step))
    ensures Handles(DoStep(s, w, step))[f] <= 1
    ensures f in Handles(DoStep(s, w, step)) ==> f in DoStep(s, w, step).states
  {
    if Enters(s, w, step, f) {
      EntersNew(s, w, step, f);
    }
    assert f in Handles(s) ==> f in s.states;
    assert Handles(s)[f] <= 1 && WorkerOk(s.workers[w]);
    hide HandleInv, Fair;
    if f in s.states {
      KnownStep(s, w, step, f);
    }
    hide DoStep, Share, Handles, Enters, WorkerOk;
    StepShare(s, w, step, f);
    StepAccounts(s, w, step);
    HandlesChange(s, DoStep(s, w, step), w, f);
  }

  lemma HandlesPut(s: State, t: Task, f: FiberId)
    requires HandleInv(s) && (t.fiber.Some? ==> t.fiber.value !in Handles(s))
    ensures Handles(Put(s, t))[f] <= 1
    ensures f in Handles(Put(s, t)) ==> f in Put(s, t).states
  {
    GatherAppend(s.queue, t, TaskHandle);
    assert f in Handles(s) ==> f in s.states;
    assert Handles(s)[f] <= 1;
    hide HandleInv;
    assert Handles(Put(s, t))[f] == Handles(s)[f] + TaskHandle(t)[f];
  }

  // ----------------------------------------------------------- tasks and workers

  lemma WorkerStep(s: State, w: nat, step: Step)
    requires w < |s.workers| && CanStep(s, w, step) && WorkerOk(s.workers[w])
    requires forall i :: 0 <= i < |s.queue| ==> NonNull(s.queue[i])
    ensures var s' := DoStep(s, w, step);
            |s'.workers| == |s.workers| && WorkerOk(s'.workers[w])
  {
    hide Pick;
    match step
    case Scan =>
    case Dispatch(_) =>
    case SwapOut(_) =>
    case Requeue =>
    case GoIdle =>
    case IdleCheck(_) =>
    case IdleYield =>
    case Schedule(_) =>
  }

  lemma TasksStep(s: State, w: nat, step: Step)
    requires w < |s.workers| && CanStep(s, w, step)
    requires forall i :: 0 <= i < |s.queue| ==> NonNull(s.queue[i])
    ensures var s' := DoStep(s, w, step);
            forall i :: 0 <= i < |s'.queue| ==> NonNull(s'.queue[i])
  {
  }

  /** A step changes the state only of a fiber its worker has or runs. */
  lemma StateStep(s: State, w: nat, step: Step, g: FiberId)
    requires w < |s.workers| && CanStep(s, w, step) && WorkerOk(s.workers[w]) && g in s.states
    ensures var s' := DoStep(s, w, step);
            g in s'.states && (s'.states[g] != s.states[g] ==> Has(s.workers[w], g) || Runs(s.workers[w], g))
  {
    hide Pick;
    match step
    case Scan =>
    case Dispatch(_) =>
    case SwapOut(_) =>
    case Requeue =>
    case GoIdle =>
    case IdleCheck(_) =>
    case IdleYield =>
    case Schedule(_) =>
  }

  /** The callback fiber the stepping worker ends up with, unused, is INIT. */
  lemma ParkedStep(s: State, w: nat, step: Step)
    requires w < |s.workers| && CanStep(s, w, step) && WorkerOk(s.workers[w])
    requires ParkedOk(s.workers[w], s.states)
    requires s.workers[w].cbFiber.Some? && Spare(s.workers[w]) == s.workers[w].cbFiber ==>
               !Took(s.workers[w].at, s.workers[w].cbFiber.value)
               && !Runs(s.workers[w], s.workers[w].cbFiber.value)
    ensures var s' := DoStep(s, w, step);
            && |s'.workers| == |s.workers|
            && ParkedOk(s'.workers[w], s'.states)
  {
    hide Pick;
    match step
    case Scan =>
    case Dispatch(_) =>
    case SwapOut(_) =>
    case Requeue =>
    case GoIdle =>
    case IdleCheck(_) =>
    case IdleYield =>
    case Schedule(_) =>
  }

  lemma HasKept(w: Worker, f: FiberId)
    ensures Has(w, f) <==> f in Kept(w)
    ensures Kept(w)[f] <= 1 && Spare(w) == Some(f) ==> !Took(w.at, f)
  {
    KeptCount(w, f);
  }

  /** Two workers have no fiber in common, and none has a fiber twice. */
  lemma Apart(s: State, w: nat, v: nat, f: FiberId)
    requires HandleInv(s) && w < |s.workers| && v < |s.workers| && Has(s.workers[w], f) && Has(s.workers[v], f)
    ensures w == v && (Spare(s.workers[w]) == Some(f) ==> !Took(s.workers[w].at, f))
  {
    HasKept(s.workers[w], f);
    HasKept(s.workers[v], f);
    OneRunner(s, w, v, f);
    HeldTwice(s, w, f);
    assert Handles(s)[f] <= 1;
  }

  lemma ParkedElsewhere(s: State, w: nat, step: Step, v: nat)
    requires HandleInv(s) && w < |s.workers| && CanStep(s, w, step) && v < |s.workers| && v != w
    requires Parked(s.workers[v])
    ensures var g := s.workers[v].cbFiber.value;
            var s' := DoStep(s, w, step);
            g in s'.states && s'.states[g] == INIT
  {
    var g := s.workers[v].cbFiber.value;
    assert g in s.states && s.states[g] == INIT && WorkerOk(s.workers[w]);
    StateStep(s, w, step, g);
    if Has(s.workers[w], g) {
      Apart(s, w, v, g);
    }
    assert RunnerOk(s, w, g);
  }

  lemma WorkFibers(s: State, w: nat, step: Step, f: FiberId)
    requires HandleInv(s) && Enabled(s, Work(w, step)) && Fair(s, Work(w, step))
    ensures var s' := DoStep(s, w, step);
            && Handles(s')[f] <= 1 && (f in Handles(s') ==> f in s'.states)
            && (f in s'.states && s'.states[f] == EXEC ==> RunBySomeone(s', f))
  {
    HandlesWork(s, w, step, f);
    assert f in s.states && s.states[f] == EXEC ==> RunBySomeone(s, f);
    hide DoStep, HandleInv, CanStep, Handles, Fair, RunBySomeone;
    var s' := DoStep(s, w, step);
    if f in s'.states && s'.states[f] == EXEC {
      ExecStep(s, Work(w, step), f);
    }
  }

  lemma OwnParked(s: State, w: nat, step: Step)
    requires HandleInv(s) && w < |s.workers| && CanStep(s, w, step)
    ensures var s' := DoStep(s, w, step);
            && |s'.workers| == |s.workers|
            && ParkedOk(s'.workers[w], s'.states)
  {
    if s.workers[w].cbFiber.Some? && Spare(s.workers[w]) == s.workers[w].cbFiber {
      Apart(s, w, w, s.workers[w].cbFiber.value);
      assert RunnerOk(s, w, s.workers[w].cbFiber.value);
    }
    assert WorkerOk(s.workers[w]);
    ParkedStep(s, w, step);
  }

  lemma WorkWorkers(s: State, w: nat, step: Step, v: nat)
    requires HandleInv(s) && w < |s.workers| && CanStep(s, w, step) && v < |s.workers|
    ensures var s' := DoStep(s, w, step);
            && |s'.workers| == |s.workers| && WorkerOk(s'.workers[v])
            && ParkedOk(s'.workers[v], s'.states)
  {
    assert WorkerOk(s.workers[w]) && WorkerOk(s.workers[v]);
    WorkerStep(s, w, step);
    StepAccounts(s, w, step);
    OwnParked(s, w, step);
    hide DoStep, CanStep, HandleInv, WorkerOk;
    if v != w && Parked(s.workers[v]) {
      ParkedElsewhere(s, w, step, v);
    }
  }

  /** A worker starts to run only a fiber it has, or a new one; and a running
      fiber is none it has. */
  lemma StartsOwn(s: State, w: nat, step: Step, f: FiberId)
    requires w < |s.workers| && CanStep(s, w, step) && WorkerOk(s.workers[w])
    ensures var s' := DoStep(s, w, step);
            && |s'.workers| == |s.workers|
            && (Runs(s'.workers[w], f) && !Runs(s.workers[w], f) ==> f in s'.states && s'.states[f] == EXEC)
            && (Runs(s'.workers[w], f) && Runs(s.workers[w], f) && f in s.states ==>
                  f in s'.states && s'.states[f] == s.states[f])
            && (Runs(s'.workers[w], f) && !Runs(s.workers[w], f) ==> Has(s.workers[w], f) || f !in s.states)
  {
    hide Pick;
    match step
    case Scan =>
    case Dispatch(_) =>
    case SwapOut(_) =>
    case Requeue =>
    case GoIdle =>
    case IdleCheck(_) =>
    case IdleYield =>
    case Schedule(_) =>
  }

  /** What a worker comes to have it took from the queue, not executing, or was
      running or had before. */
  lemma ComesToHave(s: State, w: nat, step: Step, f: FiberId)
    requires w < |s.workers| && CanStep(s, w, step) && WorkerOk(s.workers[w])
    ensures var s' := DoStep(s, w, step);
            && |s'.workers| == |s.workers|
            && (Has(s'.workers[w], f) ==>
                  || Has(s.workers[w], f) || Runs(s.workers[w], f)
                  || !(f in s.states && s.states[f] == EXEC))
  {
    hide Without;
    match step
    case Scan =>
    case Dispatch(_) =>
    case SwapOut(_) =>
    case Requeue =>
    case GoIdle =>
    case IdleCheck(_) =>
    case IdleYield =>
    case Schedule(_) =>
  }

  /** A worker has a fiber and runs it only if it had it twice, or before too. */
  lemma HasAndRuns(s: State, w: nat, step: Step, f: FiberId)
    requires w < |s.workers| && CanStep(s, w, step) && WorkerOk(s.workers[w])
    ensures var s' := DoStep(s, w, step);
            && |s'.workers| == |s.workers|
            && (Has(s'.workers[w], f) && Runs(s'.workers[w], f) ==>
                  || (Spare(s.workers[w]) == Some(f) && Took(s.workers[w].at, f))
                  || (Has(s.workers[w], f) && Runs(s.workers[w], f)))
  {
    hide Pick, Without;
    match step
    case Scan =>
    case Dispatch(_) =>
    case SwapOut(_) =>
    case Requeue =>
    case GoIdle =>
    case IdleCheck(_) =>
    case IdleYield =>
    case Schedule(_) =>
  }

  /** A fiber another worker runs is left alone. */
  lemma RunnerElsewhere(s: State, w: nat, step: Step, v: nat, f: FiberId)
    requires HandleInv(s) && w < |s.workers| && CanStep(s, w, step)
    requires v < |s.workers| && v != w && Runs(s.workers[v], f)
    ensures var s' := DoStep(s, w, step);
            && |s'.workers| == |s.workers| && !Has(s'.workers[w], f) && !Runs(s'.workers[w], f)
            && f in s'.states && s'.states[f] == EXEC
  {
    assert RunnerOk(s, v, f) && WorkerOk(s.workers[w]);
    hide HandleInv;
    StateStep(s, w, step, f);
    StartsOwn(s, w, step, f);
    ComesToHave(s, w, step, f);
    hide DoStep, CanStep, Has;
  }

  /** A fiber nobody is running that a worker has, or that is new, is nobody else's. */
  lemma NobodyElse(s: State, w: nat, v: nat, f: FiberId)
    requires HandleInv(s) && w < |s.workers| && v < |s.workers|
    requires !Runs(s.workers[w], f) && (Has(s.workers[w], f) || f !in s.states)
    ensures !Runs(s.workers[v], f) && (Has(s.workers[v], f) ==> v == w)
    ensures Has(s.workers[w], f) ==> !(Spare(s.workers[w]) == Some(f) && Took(s.workers[w].at, f))
  {
    assert RunnerOk(s, v, f);
    if Has(s.workers[v], f) {
      HasKept(s.workers[v], f);
      HeldBy(s, v, f);
      Apart(s, w, v, f);
    }
    if Has(s.workers[w], f) {
      Apart(s, w, w, f);
    }
  }

  lemma RunnerOwn(s: State, w: nat, step: Step, f: FiberId)
    requires HandleInv(s) && w < |s.workers| && CanStep(s, w, step)
    requires |DoStep(s, w, step).workers| == |s.workers| && Runs(DoStep(s, w, step).workers[w], f)
    ensures var s' := DoStep(s, w, step);
            && !Has(s'.workers[w], f) && f in s'.states && s'.states[f] == EXEC
    ensures forall v :: 0 <= v < |s.workers| && v != w ==> !Has(s.workers[v], f) && !Runs(s.workers[v], f)
  {
    assert RunnerOk(s, w, f) && WorkerOk(s.workers[w]);
    StartsOwn(s, w, step, f);
    HasAndRuns(s, w, step, f);
    hide DoStep, CanStep, WorkerOk;
    if !Runs(s.workers[w], f) {
      forall v | 0 <= v < |s.workers| ensures !Runs(s.workers[v], f) && (Has(s.workers[v], f) ==> v == w) {
        NobodyElse(s, w, v, f);
      }
      NobodyElse(s, w, w, f);
    }
  }

  lemma RunnerHere(s: State, w: nat, step: Step, f: FiberId)
    requires HandleInv(s) && w < |s.workers| && CanStep(s, w, step)
    ensures |DoStep(s, w, step).workers| == |s.workers| && RunnerOk(DoStep(s, w, step), w, f)
  {
    hide DoStep, CanStep, HandleInv, Has, Runs;
    StepAccounts(s, w, step);
    if Runs(DoStep(s, w, step).workers[w], f) {
      RunnerOwn(s, w, step, f);
    }
  }

  lemma RunnerThere(s: State, w: nat, step: Step, v: nat, f: FiberId)
    requires HandleInv(s) && w < |s.workers| && CanStep(s, w, step) && v < |s.workers| && v != w
    ensures |DoStep(s, w, step).workers| == |s.workers| && RunnerOk(DoStep(s, w, step), v, f)
  {
    assert RunnerOk(s, v, f);
    hide DoStep, CanStep, HandleInv, Has, Runs;
    StepAccounts(s, w, step);
    if Runs(s.workers[v], f) {
      RunnerElsewhere(s, w, step, v, f);
    }
  }

  lemma RunnerWork(s: State, w: nat, step: Step, v: nat, f: FiberId)
    requires HandleInv(s) && w < |s.workers| && CanStep(s, w, step) && v < |s.workers|
    ensures |DoStep(s, w, step).workers| == |s.workers| && RunnerOk(DoStep(s, w, step), v, f)
  {
    hide DoStep, CanStep, HandleInv, RunnerOk;
    if v == w {
      RunnerHere(s, w, step, f);
    } else {
      RunnerThere(s, w, step, v, f);
    }
  }

  lemma WorkKeeps(s: State, w: nat, step: Step)
    requires HandleInv(s) && Enabled(s, Work(w, step)) && Fair(s, Work(w, step))
    ensures HandleInv(DoStep(s, w, step))
  {
    hide DoStep, CanStep, Handles, RunBySomeone, WorkerOk, ParkedOk, Fair, RunnerOk;
    TasksStep(s, w, step);
    StepAccounts(s, w, step);
    var s' := DoStep(s, w, step);
    forall f: FiberId
      ensures Handles(s')[f] <= 1 && (f in Handles(s') ==> f in s'.states)
      ensures f in s'.states && s'.states[f] == EXEC ==> RunBySomeone(s', f)
    {
      WorkFibers(s, w, step, f);
    }
    forall v | 0 <= v < |s'.workers|
      ensures WorkerOk(s'.workers[v])
      ensures ParkedOk(s'.workers[v], s'.states)
    {
      WorkWorkers(s, w, step, v);
    }
    forall v, f | 0 <= v < |s'.workers| ensures RunnerOk(s', v, f) {
      RunnerWork(s, w, step, v, f);
    }
  }

  lemma PutExec(s: State, t: Task, f: FiberId)
    requires f in Put(s, t).states && Put(s, t).states[f] == EXEC
    requires f in s.states && s.states[f] == EXEC ==> RunBySomeone(s, f)
    ensures RunBySomeone(Put(s, t), f)
  {
  }

  lemma PutRunner(s: State, t: Task, v: nat, f: FiberId)
    requires v < |s.workers| && RunnerOk(s, v, f)
    ensures RunnerOk(Put(s, t), v, f)
  {
    hide Has;
  }

  lemma PutKeeps(s: State, t: Task)
    requires HandleInv(s) && NonNull(t) && (t.fiber.Some? ==> t.fiber.value !in Handles(s))
    ensures HandleInv(Put(s, t))
  {
    hide Handles, RunBySomeone, WorkerOk, Parked, NonNull, RunnerOk;
    var s' := Put(s, t);
    forall v, f | 0 <= v < |s'.workers| ensures RunnerOk(s', v, f) {
      PutRunner(s, t, v, f);
    }
    forall f: FiberId
      ensures Handles(s')[f] <= 1 && (f in Handles(s') ==> f in s'.states)
      ensures f in s'.states && s'.states[f] == EXEC ==> RunBySomeone(s', f)
    {
      HandlesPut(s, t, f);
      if f in s'.states && s'.states[f] == EXEC {
        PutExec(s, t, f);
      }
    }
  }

  /** The stop flags play no part in any of this. */
  lemma FlagsSame(s: State, s': State)
    requires s' == s.(autoStop := s'.autoStop, stopping := s'.stopping)
    ensures Handles(s') == Handles(s)
    ensures forall f :: RunBySomeone(s', f) <==> RunBySomeone(s, f)
    ensures forall w, f :: 0 <= w < |s.workers| ==> (RunnerOk(s', w, f) <==> RunnerOk(s, w, f))
  {
    hide Has, Runs;
  }

  lemma FlagsKeep(s: State, autoStop: bool, stopping: bool)
    requires HandleInv(s)
    ensures HandleInv(s.(autoStop := autoStop, stopping := stopping))
  {
    hide Handles, RunBySomeone, WorkerOk, ParkedOk, RunnerOk, NonNull;
    FlagsSame(s, s.(autoStop := autoStop, stopping := stopping));
  }

  lemma StepKeeps(s: State, a: Action)
    requires HandleInv(s) && Enabled(s, a) && Fair(s, a)
    ensures HandleInv(Next(s, a))
  {
    hide DoStep, CanStep, HandleInv;
    match a
    case Work(w, step) => WorkKeeps(s, w, step);
    case External(t) => PutKeeps(s, t);
    case SetAutoStop => FlagsKeep(s, true, s.stopping);
    case SetStopping => FlagsKeep(s, s.autoStop, true);
  }

  lemma {:induction false} RunFair(s: State, acts: seq<Action>)
    requires HandleInv(s) && Legal(s, acts) && FairRun(s, acts)
    ensures HandleInv(After(s, acts))
    decreases |acts|
  {
    hide HandleInv, Enabled, Next, Fair;
    if acts != [] {
      StepKeeps(s, acts[0]);
      RunFair(Next(s, acts[0]), acts[1..]);
    }
  }

  lemma InitHandles(s: State)
    requires Init(s)
    ensures Handles(s) == multiset{}
  {
    GatherNone(s.workers, Kept);
  }

  lemma InitFair(s: State)
    requires Init(s)
    ensures HandleInv(s)
  {
    InitHandles(s);
    hide Handles;
    assert forall w, f :: 0 <= w < |s.workers| ==> !Runs(s.workers[w], f);
    hide Has;
  }

  /** What swapIn and reset assert of the fiber the worker is about to run. */
  predicate ReadyToRun(s: State, w: Worker)
    requires w.at.Holding?
  {
    var t := w.at.task;
    && (t.fiber.Some? ==> t.fiber.value in s.states && s.states[t.fiber.value] != EXEC)
    && (t.cb.Some? && w.cbFiber.Some? ==> w.cbFiber.value in s.states && s.states[w.cbFiber.value] == INIT)
  }

  /** In every interleaving in which no fiber is scheduled twice over: no two workers
      run one fiber, a fiber about to be swapped in is not executing, and a
      callback fiber about to be reset is INIT. */
  lemma OneWorkerPerFiber(s0: State, acts: seq<Action>)
    requires Init(s0) && Legal(s0, acts) && FairRun(s0, acts)
    ensures var s := After(s0, acts);
            forall w, v, f | 0 <= w < |s.workers| && 0 <= v < |s.workers| ::
              Runs(s.workers[w], f) && Runs(s.workers[v], f) ==> w == v
    ensures var s := After(s0, acts);
            forall w :: 0 <= w < |s.workers| && s.workers[w].at.Holding? ==> ReadyToRun(s, s.workers[w])
  {
    hide Init, HandleInv, Enabled, Next, Fair;
    InitFair(s0);
    RunFair(s0, acts);
    var s := After(s0, acts);
    forall w, v, f | 0 <= w < |s.workers| && 0 <= v < |s.workers| && Runs(s.workers[w], f) && Runs(s.workers[v], f)
      ensures w == v
    {
      RunnersApart(s, w, v, f);
    }
    forall w | 0 <= w < |s.workers| && s.workers[w].at.Holding?
      ensures ReadyToRun(s, s.workers[w])
    {
      HoldingOk(s, w);
    }
  }

  lemma RunnersApart(s: State, w: nat, v: nat, f: FiberId)
    requires HandleInv(s) && w < |s.workers| && v < |s.workers| && Runs(s.workers[w], f) && Runs(s.workers[v], f)
    ensures w == v
  {
    assert RunnerOk(s, w, f);
  }

  lemma ExecNotHeld(s: State, w: nat, f: FiberId)
    requires HandleInv(s) && w < |s.workers| && f in s.states && s.states[f] == EXEC
    ensures !Has(s.workers[w], f)
  {
    var v :| 0 <= v < |s.workers| && Runs(s.workers[v], f);
    assert RunnerOk(s, v, f);
  }

  /** A fiber that was scheduled while it runs is passed over by every scan. */
  lemma RunningIsPassedOver(s0: State, acts: seq<Action>, w: nat, v: nat, i: nat)
    requires Init(s0) && Legal(s0, acts) && FairRun(s0, acts)
    requires var s := After(s0, acts);
             w < |s.workers| && v < |s.workers| && i < |s.queue| && s.queue[i].fiber.Some?
             && Runs(s.workers[v], s.queue[i].fiber.value)
    ensures var s := After(s0, acts);
            Pick(s.queue, s.workers[w].thread, s.states) != i
  {
    hide Init, Enabled, Next, Fair;
    InitFair(s0);
    RunFair(s0, acts);
    var s := After(s0, acts);
    assert RunnerOk(s, v, s.queue[i].fiber.value);
  }

  lemma NotExecuting(s: State, w: nat, f: FiberId)
    requires HandleInv(s) && w < |s.workers| && Has(s.workers[w], f)
    ensures f in s.states && s.states[f] != EXEC
  {
    HasKept(s.workers[w], f);
    HeldBy(s, w, f);
    if s.states[f] == EXEC {
      ExecNotHeld(s, w, f);
    }
  }

  lemma HoldingOk(s: State, w: nat)
    requires HandleInv(s) && w < |s.workers| && s.workers[w].at.Holding?
    ensures ReadyToRun(s, s.workers[w])
  {
    var t := s.workers[w].at.task;
    if t.fiber.Some? {
      NotExecuting(s, w, t.fiber.value);
    }
    if s.workers[w].cbFiber.Some? {
      assert ParkedOk(s.workers[w], s.states);
    }
  }

  lemma FinishedStep(s: State, w: nat, step: Step, f: FiberId)
    requires w < |s.workers| && CanStep(s, w, step) && WorkerOk(s.workers[w]) && ParkedOk(s.workers[w], s.states)
    requires f in s.states && Over(s.states[f]) && !Runs(s.workers[w], f)
    ensures f in DoStep(s, w, step).states && DoStep(s, w, step).states[f] == s.states[f]
  {
    hide Pick, Without;
    match step
    case Scan =>
    case Dispatch(_) =>
    case SwapOut(_) =>
    case Requeue =>
    case GoIdle =>
    case IdleCheck(_) =>
    case IdleYield =>
    case Schedule(_) =>
  }

  lemma FinishedAction(s: State, a: Action, f: FiberId)
    requires HandleInv(s) && Enabled(s, a) && f in s.states && Over(s.states[f])
    ensures f in Next(s, a).states && Next(s, a).states[f] == s.states[f]
  {
    if a.Work? {
      assert WorkerOk(s.workers[a.w]) && ParkedOk(s.workers[a.w], s.states) && RunnerOk(s, a.w, f);
      hide HandleInv, DoStep, CanStep, Has;
      FinishedStep(s, a.w, a.step, f);
    }
  }

  lemma {:induction false} FinishedRun(s: State, acts: seq<Action>, f: FiberId)
    requires HandleInv(s) && Legal(s, acts) && FairRun(s, acts) && f in s.states && Over(s.states[f])
    ensures f in After(s, acts).states && After(s, acts).states[f] == s.states[f]
    decreases |acts|
  {
    hide HandleInv, Enabled, Next, Fair;
    if acts != [] {
      StepKeeps(s, acts[0]);
      FinishedAction(s, acts[0], f);
      FinishedRun(Next(s, acts[0]), acts[1..], f);
    }
  }

  /** A fiber that has ended, normally or by an exception, never runs again. */
  lemma FinishedStays(s0: State, acts: seq<Action>, more: seq<Action>, f: FiberId)
    requires Init(s0) && Legal(s0, acts) && FairRun(s0, acts)
    requires var s := After(s0, acts);
             Legal(s, more) && FairRun(s, more) && f in s.states && Over(s.states[f])
    ensures var s, s' := After(s0, acts), After(After(s0, acts), more);
            && f in s'.states && s'.states[f] == s.states[f]
            && forall w :: 0 <= w < |s'.workers| ==> !Runs(s'.workers[w], f)
  {
    hide Init, HandleInv, Enabled, Next, Fair;
    InitFair(s0);
    RunFair(s0, acts);
    var s := After(s0, acts);
    FinishedRun(s, more, f);
    RunFair(s, more);
    forall w | 0 <= w < |After(s, more).workers| ensures !Runs(After(s, more).workers[w], f) {
      RunnerExecutes(After(s, more), w, f);
    }
  }

  lemma RunnerExecutes(s: State, w: nat, f: FiberId)
    requires HandleInv(s) && w < |s.workers|
    ensures Runs(s.workers[w], f) ==> f in s.states && s.states[f] == EXEC
  {
    assert RunnerOk(s, w, f);
  }

  // --------------------------------------------------------- yielding fibers

  predicate IsReady(s: State, f: FiberId) {
    f in s.states && s.states[f] == READY
  }

  ghost predicate ReadyHeld(s: State) {
    forall f :: IsReady(s, f) ==> f in Handles(s)
  }

  /** A fiber that stays READY keeps its place, and one that becomes READY gets one. */
  lemma ReadyShare(s: State, w: nat, step: Step, f: FiberId)
    requires w < |s.workers| && CanStep(s, w, step) && WorkerOk(s.workers[w]) && IsReady(DoStep(s, w, step), f)
    ensures var s' := DoStep(s, w, step);
            && |s'.workers| == |s.workers|
            && (if IsReady(s, f) then Share(s'.queue, s'.workers[w], f) >= Share(s.queue, s.workers[w], f)
                else Has(s'.workers[w], f))
  {
    hide QueueHandles, Without, Pick;
    match step
    case Scan => ScanShare(s, w, f);
    case Dispatch(_) =>
    case SwapOut(_) =>
    case Requeue => RequeueShare(s, w, f);
    case GoIdle =>
    case IdleCheck(_) =>
    case IdleYield =>
    case Schedule(t) => PutShare(s, w, t, f);
  }

  lemma ReadyWork(s: State, w: nat, step: Step, f: FiberId)
    requires w < |s.workers| && CanStep(s, w, step) && WorkerOk(s.workers[w]) && IsReady(DoStep(s, w, step), f)
    requires IsReady(s, f) ==> f in Handles(s)
    ensures f in Handles(DoStep(s, w, step))
  {
    hide DoStep, CanStep, Share, Handles, WorkerOk, IsReady;
    ReadyShare(s, w, step, f);
    StepAccounts(s, w, step);
    var s' := DoStep(s, w, step);
    if IsReady(s, f) {
      HandlesChange(s, s', w, f);
    } else {
      HasKept(s'.workers[w], f);
      HeldBy(s', w, f);
    }
  }

  lemma ReadyWorks(s: State, w: nat, step: Step)
    requires HandleInv(s) && ReadyHeld(s) && w < |s.workers| && CanStep(s, w, step)
    ensures ReadyHeld(DoStep(s, w, step))
  {
    assert WorkerOk(s.workers[w]);
    hide HandleInv, DoStep, CanStep, Handles, WorkerOk, IsReady;
    forall f | IsReady(DoStep(s, w, step), f) ensures f in Handles(DoStep(s, w, step)) {
      ReadyWork(s, w, step, f);
    }
  }

  lemma ReadyPut(s: State, t: Task)
    requires ReadyHeld(s)
    ensures ReadyHeld(Put(s, t))
  {
    forall f | IsReady(Put(s, t), f) ensures f in Handles(Put(s, t)) {
      assert IsReady(s, f);
      GatherAppend(s.queue, t, TaskHandle);
    }
  }

  lemma ReadyFlags(s: State, s': State)
    requires ReadyHeld(s) && s' == s.(autoStop := s'.autoStop, stopping := s'.stopping)
    ensures ReadyHeld(s')
  {
    FlagsSame(s, s');
    hide Handles;
    forall f | IsReady(s', f) ensures f in Handles(s') {
      assert IsReady(s, f);
    }
  }

  lemma ReadyStep(s: State, a: Action)
    requires HandleInv(s) && ReadyHeld(s) && Enabled(s, a)
    ensures ReadyHeld(Next(s, a))
  {
    hide HandleInv, ReadyHeld, DoStep, CanStep, Put;
    match a
    case Work(w, step) => ReadyWorks(s, w, step);
    case External(t) => ReadyPut(s, t);
    case SetAutoStop => ReadyFlags(s, s.(autoStop := true));
    case SetStopping => ReadyFlags(s, s.(stopping := true));
  }

  lemma {:induction false} ReadyRun(s: State, acts: seq<Action>)
    requires HandleInv(s) && ReadyHeld(s) && Legal(s, acts) && FairRun(s, acts)
    ensures ReadyHeld(After(s, acts))
    decreases |acts|
  {
    hide HandleInv, ReadyHeld, Enabled, Next, Fair;
    if acts != [] {
      StepKeeps(s, acts[0]);
      ReadyStep(s, acts[0]);
      ReadyRun(Next(s, acts[0]), acts[1..]);
    }
  }

  /** No fiber that yielded is forgotten: while it is READY it is in the queue or with
      the worker that is about to put it back or run it. */
  lemma YieldedIsKept(s0: State, acts: seq<Action>, f: FiberId)
    requires Init(s0) && Legal(s0, acts) && FairRun(s0, acts)
    requires f in After(s0, acts).states && After(s0, acts).states[f] == READY
    ensures var s := After(s0, acts);
            || (exists i :: 0 <= i < |s.queue| && s.queue[i].fiber == Some(f))
            || (exists w :: 0 <= w < |s.workers| && Has(s.workers[w], f))
  {
    hide Init, HandleInv, Enabled, Next, Fair, Has;
    InitFair(s0);
    assert ReadyHeld(s0) by { InitReady(s0); }
    ReadyRun(s0, acts);
    var s := After(s0, acts);
    assert IsReady(s, f);
    GatherMember(s.queue, TaskHandle, f);
    GatherMember(s.workers, Kept, f);
    if w :| 0 <= w < |s.workers| && f in Kept(s.workers[w]) {
      HasKept(s.workers[w], f);
    }
  }

  lemma InitReady(s: State)
    requires Init(s)
    ensures ReadyHeld(s)
  {
  }
}

/** The wait rounds of hooked calls: what ends one, and that each is ended once. */
module RuntimeRounds {
  import opened Types
  import opened TaskQueue
  import opened EventTable
  import opened Runtime
  import opened RuntimeInvariant
  import opened RuntimeSteps
  import opened RuntimeRequests
  import opened RuntimeTurns
  import opened RuntimeTheorems
  import T = TimerSet

  // --------------------------------------- operations leave other events alone

  lemma WakeAllOther(io: Io, fd: nat, evs: Events, i: nat, e: Event)
    requires fd < |io.fds| && i < |io.fds| && (i != fd || !evs.Has(e))
    ensures |WakeAll(io, fd, evs).fds| == |io.fds| && WakeAll(io, fd, evs).fds[i].Get(e) == io.fds[i].Get(e)
  {
    var io1 := if evs.read then Wake(io, fd, READ) else io;
    assert |io1.fds| == |io.fds| && io1.fds[i].Get(e) == io.fds[i].Get(e);
  }

  lemma CancelOther(io: Io, fd: nat, ev: Event, refuse: bool, i: nat, e: Event)
    requires i < |io.fds| && (i, e) != (fd, ev)
    ensures var io' := CancelEvent(io, fd, ev, refuse).0;
            |io'.fds| == |io.fds| && io'.fds[i].Get(e) == io.fds[i].Get(e)
  {
  }

  lemma CancelAllOther(io: Io, fd: nat, refuse: bool, i: nat, e: Event)
    requires i < |io.fds| && i != fd
    ensures var io' := CancelAll(io, fd, refuse).0;
            |io'.fds| == |io.fds| && io'.fds[i].Get(e) == io.fds[i].Get(e)
  {
    if fd < |io.fds| && !io.fds[fd].events.IsNone() {
      hide WakeAll;
      var (io1, ok) := Ctl(io, DEL, fd, NO_EVENTS, refuse);
      WakeAllOther(io1, fd, io.fds[fd].events, i, e);
    }
  }

  /** The report is about this event: its bit, or an error or hang-up. */
  predicate Mentions(r: Report, fd: nat, ev: Event) {
    r.Ready? && r.fd == fd && (r.bits.Has(ev) || r.err)
  }

  lemma ReportLeaves(io: Io, r: Report, i: nat, e: Event)
    requires i < |io.fds| && !Mentions(r, i, e)
    ensures |HandleReport(io, r).fds| == |io.fds| && HandleReport(io, r).fds[i].Get(e) == io.fds[i].Get(e)
  {
    if r.Ready? && r.fd < |io.fds| {
      hide WakeAll;
      var c := io.fds[r.fd];
      var fired := if r.err then r.bits.Join(c.events) else r.bits;
      var left := c.events.Minus(fired);
      var (io1, ok) := Ctl(io, if left.IsNone() then DEL else MOD, r.fd, left, r.refuse);
      WakeAllOther(io1, r.fd, fired, i, e);
    }
  }

  lemma {:induction false} ReportsLeave(io: Io, rs: seq<Report>, n: nat, i: nat, e: Event)
    requires n <= |rs| && i < |io.fds| && forall j :: 0 <= j < n ==> !Mentions(rs[j], i, e)
    ensures |HandleReports(io, rs, n).fds| == |io.fds| && HandleReports(io, rs, n).fds[i].Get(e) == io.fds[i].Get(e)
  {
    hide HandleReport;
    if n > 0 {
      ReportsLeave(io, rs, n - 1, i, e);
      ReportLeaves(HandleReports(io, rs, n - 1), rs[n - 1], i, e);
    }
  }

  // ----------------------------------------------------------- what ends a round

  /** The task the worker picks is the timeout of the fiber's own current round,
      and the time of that round is up. */
  ghost predicate OwnTimeout(s: State, f: FiberId, fd: nat, ev: Event) {
    && Picked(s) < |s.io.queue| && IsTimeout(s.io.queue[Picked(s)])
    && var cb := s.io.queue[Picked(s)].cb.value;
    && cb.fd == fd && cb.event == ev
    && f in s.conts && s.conts[f].Wait?
    && cb.call == s.conts[f].frame.call && s.conts[f].timer == Some(cb.timer)
    && Elapsed(s.conts[f], s.clock, s.rolled)
  }

  /** Readiness, the round's own timeout, or somebody's cancel. */
  ghost predicate Cause(s: State, a: Action, f: FiberId, fd: nat, ev: Event) {
    || (a.ATurn? && a.t.IdleHandle? && exists i :: 0 <= i < |a.t.reports| && Mentions(a.t.reports[i], fd, ev))
    || (a.ATurn? && a.t.Take? && OwnTimeout(s, f, fd, ev))
    || (a.ARequest? && a.r.Cancel? && a.r.fd == fd && a.r.event == ev)
    || (a.ARequest? && a.r.CancelFd? && a.r.fd == fd)
  }

  predicate Blocks(s: State, a: Action, f: FiberId) {
    a.AHooked? && a.h.IoBlock? && s.pc.Run? && s.pc.fiber == f
  }

  /** What a step does to one registration of one fiber. */
  ghost predicate StepOk(s: State, s': State, a: Action, f: FiberId, fd: nat, ev: Event) {
    && (At(s', f, Context(fd, ev)) && !At(s, f, Context(fd, ev)) ==> Blocks(s, a, f))
    && (At(s, f, Context(fd, ev)) && !At(s', f, Context(fd, ev)) ==> Cause(s, a, f, fd, ev))
  }

  lemma ShrunkStep(s: State, s': State, f: FiberId, fd: nat, ev: Event)
    requires Shrunk(s.io.fds, s'.io.fds) && At(s', f, Context(fd, ev))
    ensures At(s, f, Context(fd, ev))
  {
    assert s'.io.fds[fd].Get(ev) != NOBODY;
    assert s.io.fds[fd].Get(ev) == s'.io.fds[fd].Get(ev);
  }

  lemma SwapOutFds(s: State, st: FiberState)
    requires s.pc.Run?
    ensures SwapOut(s, st).io.fds == s.io.fds
  {
  }

  lemma SlumberFds(s: State, ms: nat, timer: nat)
    requires s.pc.Run?
    ensures Slumber(s, ms, timer).io.fds == s.io.fds
  {
  }

  lemma HookedFds(s: State, h: Hooked)
    requires CanHooked(s, h) && !h.IoBlock?
    ensures DoHooked(s, h).io.fds == s.io.fds
  {
    hide SwapOut, Slumber, Block, Fits;
    match h
    case Yield => SwapOutFds(s, READY);
    case GoToSleep(ms, timer) => SlumberFds(s, ms, timer);
    case IoCall(_) =>
    case IoReturn =>
    case Finish(ok) => SwapOutFds(s, if ok then TERM else EXCEPT);
  }

  lemma BlockFds(s: State, timer: nat, refuse: bool)
    requires AtRetry(s)
    ensures var fr := s.conts[s.pc.fiber].frame;
            Block(s, timer, refuse).io.fds ==
            AddEvent(s.io, fr.fd, fr.event, WaitFiber(s.pc.fiber, s.states[s.pc.fiber]), refuse).0.fds
  {
    hide AddEvent;
  }

  lemma BlockedFds(s: State, timer: nat, refuse: bool)
    requires CanHooked(s, IoBlock(timer, refuse))
    ensures DoHooked(s, IoBlock(timer, refuse)).io.fds == Block(s, timer, refuse).io.fds
  {
    hide Block;
  }

  /** addEvent touches only its own event, and only when it succeeds. */
  lemma AddLeaves(io: Io, fd: nat, ev: Event, w: Waiter, refuse: bool, i: nat, e: Event)
    requires IoInv(io) && (fd < |io.fds| ==> !io.fds[fd].events.Has(ev))
    ensures var io' := AddEvent(io, fd, ev, w, refuse).0;
            && |io'.fds| >= |io.fds|
            && (i < |io'.fds| ==>
                  io'.fds[i].Get(e) ==
                  if !refuse && (i, e) == (fd, ev) then ContextOf(w)
                  else if i < |io.fds| then io.fds[i].Get(e) else NOBODY)
  {
    if refuse {
      RefusedIo(io, fd, ev, w);
    } else {
      AddShape(io, fd, ev, w);
    }
  }

  lemma BlockStep(s: State, timer: nat, refuse: bool, f: FiberId, fd: nat, ev: Event)
    requires Inv(s) && CanHooked(s, IoBlock(timer, refuse))
    ensures StepOk(s, DoHooked(s, IoBlock(timer, refuse)), AHooked(IoBlock(timer, refuse)), f, fd, ev)
  {
    hide TokenInv, StateInv, OwnerInv, FrameInv, TimerInv, QueueInv, CancelInv, WorkerInv, DoHooked,
         AddEvent, IoInv, Block;
    var fr := s.conts[s.pc.fiber].frame;
    FreeWire(s);
    BlockedFds(s, timer, refuse);
    BlockFds(s, timer, refuse);
    AddLeaves(s.io, fr.fd, fr.event, WaitFiber(s.pc.fiber, s.states[s.pc.fiber]), refuse, fd, ev);
  }

  lemma HookedStep(s: State, h: Hooked, f: FiberId, fd: nat, ev: Event)
    requires Inv(s) && CanHooked(s, h)
    ensures StepOk(s, DoHooked(s, h), AHooked(h), f, fd, ev)
  {
    hide DoHooked, Inv, CanHooked;
    if h.IoBlock? {
      BlockStep(s, h.timer, h.refuse, f, fd, ev);
    } else {
      HookedFds(s, h);
    }
  }

  lemma WatchStep(s: State, i: nat, e: Event, cb: nat, refuse: bool, f: FiberId, fd: nat, ev: Event)
    requires IoInv(s.io) && (i < |s.io.fds| ==> !s.io.fds[i].events.Has(e))
    ensures var s' := s.(io := AddEvent(s.io, i, e, WaitCb(cb), refuse).0);
            At(s', f, Context(fd, ev)) <==> At(s, f, Context(fd, ev))
  {
    assert i < |s.io.fds| ==> FdOk(s.io.fds[i]);
    hide AddEvent;
    AddLeaves(s.io, i, e, WaitCb(cb), refuse, fd, ev);
  }

  lemma ForgetStep(s: State, i: nat, e: Event, refuse: bool, f: FiberId, fd: nat, ev: Event)
    requires i < |s.io.fds| ==> refuse || s.io.fds[i].Get(e).fiber.None?
    ensures var s' := s.(io := DelEvent(s.io, i, e, refuse).0);
            At(s', f, Context(fd, ev)) <==> At(s, f, Context(fd, ev))
  {
    hide DelEvent;
    DelShape(s.io, i, e, refuse);
  }

  lemma CancelStep(s: State, i: nat, e: Event, refuse: bool, f: FiberId, fd: nat, ev: Event)
    requires IoInv(s.io)
    ensures var s' := s.(io := CancelEvent(s.io, i, e, refuse).0);
            && (At(s', f, Context(fd, ev)) ==> At(s, f, Context(fd, ev)))
            && (At(s, f, Context(fd, ev)) && (i, e) != (fd, ev) ==> At(s', f, Context(fd, ev)))
  {
    hide IoInv, CancelEvent, Shrunk, Appended;
    var s' := s.(io := CancelEvent(s.io, i, e, refuse).0);
    CancelKeeps(s.io, i, e, refuse);
    if At(s', f, Context(fd, ev)) {
      ShrunkStep(s, s', f, fd, ev);
    }
    if At(s, f, Context(fd, ev)) && (i, e) != (fd, ev) {
      CancelOther(s.io, i, e, refuse, fd, ev);
    }
  }

  lemma CancelFdStep(s: State, i: nat, refuse: bool, f: FiberId, fd: nat, ev: Event)
    requires IoInv(s.io)
    ensures var s' := s.(io := CancelAll(s.io, i, refuse).0);
            && (At(s', f, Context(fd, ev)) ==> At(s, f, Context(fd, ev)))
            && (At(s, f, Context(fd, ev)) && i != fd ==> At(s', f, Context(fd, ev)))
  {
    hide IoInv, CancelAll, Shrunk, Appended;
    var s' := s.(io := CancelAll(s.io, i, refuse).0);
    CancelAllKeeps(s.io, i, refuse);
    if At(s', f, Context(fd, ev)) {
      ShrunkStep(s, s', f, fd, ev);
    }
    if At(s, f, Context(fd, ev)) && i != fd {
      CancelAllOther(s.io, i, refuse, fd, ev);
    }
  }

  lemma RequestStep(s: State, r: Request, f: FiberId, fd: nat, ev: Event)
    requires Inv(s) && CanRequest(s, r)
    ensures StepOk(s, DoRequest(s, r), ARequest(r), f, fd, ev)
  {
    hide TokenInv, StateInv, OwnerInv, FrameInv, TimerInv, QueueInv, CancelInv, WorkerInv, IoInv,
         AddEvent, CancelEvent, CancelAll, DelEvent, Shrunk;
    match r
    case Schedule(_, _) =>
    case Spawn(_, _) =>
    case Watch(i, e, cb, refuse) => WatchStep(s, i, e, cb, refuse, f, fd, ev);
    case Cancel(i, e, refuse) => CancelStep(s, i, e, refuse, f, fd, ev);
    case CancelFd(i, refuse) => CancelFdStep(s, i, refuse, f, fd, ev);
    case Forget(i, e, refuse) => ForgetStep(s, i, e, refuse, f, fd, ev);
  }

  lemma RunCallbackFds(s: State, cb: Callback, newFiber: FiberId, refuse: bool)
    ensures var fds' := RunCallback(s, cb, newFiber, refuse).io.fds;
            || fds' == s.io.fds
            || (cb.Timeout? && fds' == CancelEvent(Acquire(s, newFiber).io, cb.fd, cb.event, refuse).0.fds)
  {
    hide CancelEvent;
  }

  lemma TakeFds(s: State, newFiber: FiberId, refuse: bool)
    requires Inv(s) && s.pc.Top? && Picked(s) < |s.io.queue|
    ensures var fds' := TakeTask(s, newFiber, refuse).io.fds;
            var t := s.io.queue[Picked(s)];
            || fds' == s.io.fds
            || (IsTimeout(t)
                && fds' == CancelEvent(Acquire(Popped(s), newFiber).io, t.cb.value.fd, t.cb.value.event, refuse).0.fds)
  {
    var t := s.io.queue[Picked(s)];
    assert NonNull(t);
    hide Inv, CancelEvent, Picked, Without, RunCallback, Acquire, TakeTask;
    if t.fiber.Some? {
      QueuedFiber(s, Picked(s));
      TakeFiberShape(s, newFiber, refuse, t.fiber.value);
    } else {
      TakeCbShape(s, newFiber, refuse);
      RunCallbackFds(Popped(s), t.cb.value, newFiber, refuse);
    }
  }

  /** Two fibers cannot wait for one event. */
  lemma SameWire(s: State, f: FiberId, c: nat, a: nat, fd: nat, ev: Event)
    requires Inv(s) && At(s, f, Context(fd, ev)) && Live(s.conts, s.tinfo, c, a, fd, ev)
    ensures s.tinfo[c].owner == f
  {
    hide TokenInv, StateInv, TimerInv, QueueInv, CancelInv, WorkerInv, IoInv;
    assert OwnerOk(s.io.fds[fd].Get(ev), fd, ev, s.conts);
    assert Framed(s.conts[f]);
  }

  lemma TakeStep(s: State, newFiber: FiberId, refuse: bool, f: FiberId, fd: nat, ev: Event)
    requires Inv(s) && CanTurn(s, Take(newFiber, refuse))
    ensures StepOk(s, TakeTask(s, newFiber, refuse), ATurn(Take(newFiber, refuse)), f, fd, ev)
  {
    hide TokenInv, StateInv, OwnerInv, FrameInv, TimerInv, CancelInv, WorkerInv, IoInv,
         CancelEvent, TakeTask, Acquire, Picked, Without;
    TakeFds(s, newFiber, refuse);
    var s' := TakeTask(s, newFiber, refuse);
    if s'.io.fds != s.io.fds {
      var t := s.io.queue[Picked(s)];
      var io1 := Acquire(Popped(s), newFiber).io;
      assert TaskOk(t, s.conts, s.tinfo, s.clock, s.rolled);
      hide QueueInv;
      AcquireIo(s, newFiber);
      CancelKeeps(io1, t.cb.value.fd, t.cb.value.event, refuse);
      if At(s', f, Context(fd, ev)) { ShrunkStep(s, s', f, fd, ev); }
      if At(s, f, Context(fd, ev)) {
        if (t.cb.value.fd, t.cb.value.event) != (fd, ev) {
          CancelOther(io1, t.cb.value.fd, t.cb.value.event, refuse, fd, ev);
        } else {
          SameWire(s, f, t.cb.value.call, t.cb.value.timer, fd, ev);
        }
      }
    }
  }

  lemma AcquireIo(s: State, newFiber: FiberId)
    requires Inv(s) && s.pc.Top? && newFiber !in s.conts && Picked(s) < |s.io.queue|
    ensures IoInv(Acquire(Popped(s), newFiber).io) && Acquire(Popped(s), newFiber).io.fds == s.io.fds
  {
    hide TokenInv, StateInv, OwnerInv, FrameInv, TimerInv, QueueInv, CancelInv, WorkerInv, IoInv, Picked, Without;
    AcquireStates(s.states, s.conts, s.cbFiber, newFiber);
    RemoveIo(s.io, Picked(s));
  }

  lemma HandleStep(s: State, order: seq<nat>, reports: seq<Report>, f: FiberId, fd: nat, ev: Event)
    requires Inv(s) && CanHandle(s, order, reports)
    ensures StepOk(s, HandleIdle(s, order, reports), ATurn(IdleHandle(order, reports)), f, fd, ev)
  {
    hide TokenInv, StateInv, OwnerInv, FrameInv, TimerInv, QueueInv, CancelInv, WorkerInv, IoInv,
         ReleaseQueue, HandleReports, RolledOver, Shrunk, Truthful;
    var io1 := s.io.(queue := ReleaseQueue(s.io.queue, s.timers, order, |order|));
    var s' := HandleIdle(s, order, reports);
    if At(s', f, Context(fd, ev)) {
      HandledIo(s, order);
      ReportsKeep(io1, reports, |reports|);
      ShrunkStep(s, s', f, fd, ev);
    }
    if At(s, f, Context(fd, ev)) && !(exists i :: 0 <= i < |reports| && Mentions(reports[i], fd, ev)) {
      ReportsLeave(io1, reports, |reports|, fd, ev);
    }
  }

  lemma HandledIo(s: State, order: seq<nat>)
    requires Inv(s) && forall i :: 0 <= i < |order| ==> order[i] in s.timers
    ensures IoInv(s.io.(queue := ReleaseQueue(s.io.queue, s.timers, order, |order|)))
  {
    hide TokenInv, StateInv, OwnerInv, FrameInv, TimerInv, QueueInv, CancelInv, WorkerInv;
    ReleaseQueueOk(s.io.queue, s.timers, order, |order|);
  }

  lemma {:induction false} ReleaseQueueOk(q: seq<Task>, m: T.Pending, order: seq<nat>, n: nat)
    requires QueueOk(q) && n <= |order| && forall i :: 0 <= i < |order| ==> order[i] in m
    ensures QueueOk(ReleaseQueue(q, m, order, n))
  {
    if n > 0 {
      ReleaseQueueOk(q, m, order, n - 1);
    }
  }

  lemma StepRegistration(s: State, a: Action, f: FiberId, fd: nat, ev: Event)
    requires Inv(s) && Enabled(s, a)
    ensures StepOk(s, Next(s, a), a, f, fd, ev)
  {
    hide Inv, StepOk, CanWorld, CanHooked, CanRequest, CanTimer, DoHooked, DoRequest, TakeTask, HandleIdle;
    match a
    case AWorld(w) => SameFdsStep(s, a, f, fd, ev);
    case ATimer(c) => SameFdsStep(s, a, f, fd, ev);
    case AHooked(h) => HookedStep(s, h, f, fd, ev);
    case ARequest(r) => RequestStep(s, r, f, fd, ev);
    case ATurn(t) =>
      match t
      case Take(newFiber, refuse) => TakeStep(s, newFiber, refuse, f, fd, ev);
      case IdleHandle(order, reports) => HandleStep(s, order, reports, f, fd, ev);
      case FindNothing => SameFdsStep(s, a, f, fd, ev);
      case IdleCheck => SameFdsStep(s, a, f, fd, ev);
  }

  lemma SameFdsStep(s: State, a: Action, f: FiberId, fd: nat, ev: Event)
    requires Enabled(s, a) && (a.AWorld? || a.ATimer? || (a.ATurn? && (a.t.FindNothing? || a.t.IdleCheck?)))
    ensures StepOk(s, Next(s, a), a, f, fd, ev)
  {
    hide CanWorld, CanTimer, DoWorld, DoTimer, Stopping, Picked, TakeTask, HandleIdle, DoHooked, DoRequest,
         CanHooked, CanRequest, CanHandle;
    match a
    case AWorld(w) => WorldFds(s, w); assert Next(s, a).io.fds == s.io.fds;
    case ATimer(c) => TimerFds(s, c); assert Next(s, a).io.fds == s.io.fds;
    case ATurn(t) => assert Next(s, a).io.fds == s.io.fds;
  }

  lemma WorldFds(s: State, w: World)
    ensures DoWorld(s, w).io.fds == s.io.fds
  {
  }

  lemma TimerFds(s: State, c: TimerCall)
    ensures DoTimer(s, c).io.fds == s.io.fds
  {
  }

  /** For every step: a fiber becomes registered only by blocking itself, and it
      stops being registered only for one of the three causes.  In particular the
      timeout of one round, or of another call, never clears a registration of
      this round. */
  lemma WhatEndsARound(s: State, a: Action, f: FiberId, fd: nat, ev: Event)
    requires Reachable(s) && Enabled(s, a)
    ensures At(Next(s, a), f, Context(fd, ev)) && !At(s, f, Context(fd, ev)) ==> Blocks(s, a, f)
    ensures At(s, f, Context(fd, ev)) && !At(Next(s, a), f, Context(fd, ev)) ==> Cause(s, a, f, fd, ev)
  {
    hide Reachable, Inv, Enabled, Next, Cause;
    ReachableInv(s);
    StepRegistration(s, a, f, fd, ev);
  }

  // ---------------------------------------------------------- each round ends once

  /** The fiber stays in one wait round throughout the run. */
  ghost predicate Waits(s: State, acts: seq<Action>, f: FiberId, w: Cont)
    requires Legal(s, acts)
    decreases |acts|
  {
    && f in s.conts && s.conts[f] == w
    && (acts != [] ==> Waits(Next(s, acts[0]), acts[1..], f, w))
  }

  /** How many steps of the run end the registration. */
  ghost function Endings(s: State, acts: seq<Action>, f: FiberId, p: Place): nat
    requires Legal(s, acts)
    decreases |acts|
  {
    if acts == [] then 0
    else One(At(s, f, p) && !At(Next(s, acts[0]), f, p)) + Endings(Next(s, acts[0]), acts[1..], f, p)
  }

  predicate Holds(s: State, f: FiberId, w: Cont) {
    w.Wait? && f in s.conts && s.conts[f] == w
  }

  lemma NeverReRegistered(s: State, a: Action, f: FiberId, w: Cont, p: Place)
    requires Inv(s) && Enabled(s, a) && Holds(s, f, w) && p.Context?
    ensures At(Next(s, a), f, p) ==> At(s, f, p)
  {
    hide Inv, Enabled, Next, Cause, At;
    StepRegistration(s, a, f, p.fd, p.event);
    if s.pc.Run? && s.pc.fiber == f {
      RunsExec(s);
    }
  }

  /** While a round lasts its registration ends as often as it is gone at the end:
      once it has ended, it is never made or ended again. */
  lemma {:induction false} RoundEndsOnce(s: State, acts: seq<Action>, f: FiberId, w: Cont, p: Place)
    requires Inv(s) && Legal(s, acts) && w.Wait? && Waits(s, acts, f, w) && p.Context?
    ensures Endings(s, acts, f, p) + One(At(After(s, acts), f, p)) == One(At(s, f, p))
    decreases |acts|
  {
    hide Inv, Enabled, Next, At;
    if acts != [] {
      StepKeeps(s, acts[0]);
      NeverReRegistered(s, acts[0], f, w, p);
      RoundEndsOnce(Next(s, acts[0]), acts[1..], f, w, p);
    }
  }

  lemma BlockedShape(s: State, timer: nat)
    requires AtRetry(s) && Executing(s) && CanHooked(s, IoBlock(timer, false))
    ensures Next(s, AHooked(IoBlock(timer, false))) == Block(s, timer, false)
  {
    hide Block, Executing;
  }

  lemma SuspendedAt(s: State, timer: nat, io1: Io)
    requires AtRetry(s)
    ensures var f, fr := s.pc.fiber, s.conts[s.pc.fiber].frame;
            var s' := Suspended(s, timer, io1);
            && f in s'.conts && s'.conts[f] == Waiting(s, timer)
            && (fr.fd < |io1.fds| && io1.fds[fr.fd].Get(fr.event).fiber == Some(f) ==>
                  At(s', f, Context(fr.fd, fr.event)))
  {
  }

  lemma BlockAdds(s: State)
    requires Inv(s) && AtRetry(s)
    ensures var f, fr := s.pc.fiber, s.conts[s.pc.fiber].frame;
            var (io1, ok) := AddEvent(s.io, fr.fd, fr.event, WaitFiber(f, s.states[f]), false);
            ok && fr.fd < |io1.fds| && io1.fds[fr.fd].Get(fr.event).fiber == Some(f)
  {
    var f, fr := s.pc.fiber, s.conts[s.pc.fiber].frame;
    var w := WaitFiber(f, s.states[f]);
    FreeWire(s);
    RunsExec(s);
    hide TokenInv, StateInv, OwnerInv, FrameInv, TimerInv, QueueInv, CancelInv, WorkerInv, AddEvent, IoInv;
    AddShape(s.io, fr.fd, fr.event, w);
    AddKeeps(s.io, fr.fd, fr.event, w, false);
  }

  lemma BlockRegisters(s: State, timer: nat)
    requires Inv(s) && CanHooked(s, IoBlock(timer, false))
    ensures var f, fr := s.pc.fiber, s.conts[s.pc.fiber].frame;
            var s' := Next(s, AHooked(IoBlock(timer, false)));
            At(s', f, Context(fr.fd, fr.event)) && f in s'.conts && s'.conts[f] == Waiting(s, timer)
  {
    assert AtRetry(s);
    hide Inv, Next, Block, At, CanHooked, AddEvent, Suspended;
    RunsExec(s);
    BlockedShape(s, timer);
    var f, fr := s.pc.fiber, s.conts[s.pc.fiber].frame;
    BlockAdds(s);
    BlockShape(s, timer);
    SuspendedAt(s, timer, AddEvent(s.io, fr.fd, fr.event, WaitFiber(f, s.states[f]), false).0);
  }

  /** From the moment a hooked call suspends its fiber until the worker takes that
      fiber again, its registration is ended exactly once. */
  lemma ResumedExactlyOnce(s: State, timer: nat, acts: seq<Action>, f: FiberId)
    requires Reachable(s) && Enabled(s, AHooked(IoBlock(timer, false))) && f == s.pc.fiber
    requires var s1 := Next(s, AHooked(IoBlock(timer, false)));
             Legal(s1, acts) && f in s1.conts && Waits(s1, acts, f, s1.conts[f])
             && At(After(s1, acts), f, Entry(Picked(After(s1, acts))))
    ensures var fr := s.conts[f].frame;
            Endings(Next(s, AHooked(IoBlock(timer, false))), acts, f, Context(fr.fd, fr.event)) == 1
  {
    var a := AHooked(IoBlock(timer, false));
    var fr := s.conts[f].frame;
    assert CanHooked(s, IoBlock(timer, false));
    hide Inv, Reachable, Next, At, Picked, Enabled, CanHooked, After, Endings, Waits;
    ReachableInv(s);
    BlockRegisters(s, timer);
    StepKeeps(s, a);
    var s1 := Next(s, a);
    RunKeeps(s1, acts);
    RoundEndsOnce(s1, acts, f, s1.conts[f], Context(fr.fd, fr.event));
    var s2 := After(s1, acts);
    if At(s2, f, Context(fr.fd, fr.event)) {
      OnePlace(s2, f, Context(fr.fd, fr.event), Entry(Picked(s2)));
    }
  }
}

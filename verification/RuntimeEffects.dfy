/** What the steps of the one-worker runtime come to, written out: where a resumed
    fiber goes on, what a suspended one leaves behind, whom readiness and timeouts
    wake, and what the callbacks do. */
module RuntimeEffects {
  import opened Types
  import opened TaskQueue
  import opened EventTable
  import opened EventEffects
  import opened Runtime
  import opened RuntimeInvariant
  import opened RuntimeSteps
  import opened RuntimeRequests
  import opened RuntimeTurns
  import opened RuntimeTheorems
  import opened RuntimeRounds
  import T = TimerSet

  // ---------------------------------------------------------------- going on

  /** The worker takes a fiber's entry: the fiber runs, and nothing else moves but
      what its suspended call does first.  That call cancels its timer.  do_io goes
      back to `retry` unless it was cancelled; otherwise, and always in connect, the
      call returns and its `timer_info` is gone. */
  lemma WhatResumes(s: State, newFiber: FiberId, refuse: bool, f: FiberId)
    requires Reachable(s) && Enabled(s, ATurn(Take(newFiber, refuse))) && At(s, f, Entry(Picked(s)))
    ensures f in s.conts && f in s.states
    ensures var s' := Next(s, ATurn(Take(newFiber, refuse)));
            && s'.pc == Run(f, false) && s'.states == s.states[f := EXEC]
            && s'.io == s.io.(queue := s.io.queue[..Picked(s)] + s.io.queue[Picked(s) + 1..])
            && match s.conts[f]
               case Wait(frame, timer, _, _) =>
                 && frame.call in s.tinfo
                 && s'.timers == (if timer.Some? then s.timers - {timer.value} else s.timers)
                 && (if frame.kind == DoIo && s.tinfo[frame.call].cancelled == 0
                     then s'.conts == s.conts[f := Retry(frame)] && s'.tinfo == s.tinfo
                     else s'.conts == s.conts[f := User] && s'.tinfo == s.tinfo - {frame.call})
               case Sleep(_) => s'.conts == s.conts[f := User] && s'.tinfo == s.tinfo && s'.timers == s.timers
               case User => s'.conts == s.conts && s'.tinfo == s.tinfo && s'.timers == s.timers
               case _ => false
  {
    hide Reachable, Inv;
    ReachableInv(s);
    ResumeWritten(s, newFiber, refuse, f);
    hide TakeTask, Picked;
  }

  lemma CallKnown(s: State, f: FiberId)
    requires Inv(s) && f in s.conts && s.conts[f].Wait?
    ensures s.conts[f].frame.call in s.tinfo
  {
    hide TokenInv, StateInv, OwnerInv, TimerInv, QueueInv, CancelInv, IoInv, WorkerInv;
    assert Framed(s.conts[f]);
  }

  lemma ResumeWritten(s: State, newFiber: FiberId, refuse: bool, f: FiberId)
    requires Inv(s) && s.pc.Top? && Picked(s) < |s.io.queue| && s.io.queue[Picked(s)].fiber == Some(f)
    ensures f in s.conts && f in s.states
    ensures var s' := TakeTask(s, newFiber, refuse);
            && s'.pc == Run(f, false) && s'.states == s.states[f := EXEC]
            && s'.io == s.io.(queue := s.io.queue[..Picked(s)] + s.io.queue[Picked(s) + 1..])
            && match s.conts[f]
               case Wait(frame, timer, _, _) =>
                 && frame.call in s.tinfo
                 && s'.timers == (if timer.Some? then s.timers - {timer.value} else s.timers)
                 && (if frame.kind == DoIo && s.tinfo[frame.call].cancelled == 0
                     then s'.conts == s.conts[f := Retry(frame)] && s'.tinfo == s.tinfo
                     else s'.conts == s.conts[f := User] && s'.tinfo == s.tinfo - {frame.call})
               case Sleep(_) => s'.conts == s.conts[f := User] && s'.tinfo == s.tinfo && s'.timers == s.timers
               case User => s'.conts == s.conts && s'.tinfo == s.tinfo && s'.timers == s.timers
               case _ => false
  {
    hide Inv, Picked, TakeTask, Asleep;
    QueuedFiber(s, Picked(s));
    TakeFiberShape(s, newFiber, refuse, f);
    if s.conts[f].Wait? {
      CallKnown(s, f);
    } else if s.conts[f] == User {
      assert s.conts[f := User] == s.conts;
    }
  }

  // ----------------------------------------------------------- leaving the worker

  /** addEvent succeeded: the fiber is on hold, registered for its event, and its
      timeout, if it has one, is pending for that long from now. */
  lemma WhatBlocks(s: State, timer: nat)
    requires Reachable(s) && Enabled(s, AHooked(IoBlock(timer, false)))
    ensures var f, fr := s.pc.fiber, s.conts[s.pc.fiber].frame;
            var s' := Next(s, AHooked(IoBlock(timer, false)));
            && s'.pc == Top && s'.states == s.states[f := HOLD] && s'.tinfo == s.tinfo
            && s'.cbFiber == (if s.pc.viaCb then None else s.cbFiber)
            && s'.conts == s.conts[f := Wait(fr, if fr.timeout.Some? then Some(timer) else None, s.clock, s.rolled)]
            && s'.timers == (if fr.timeout.None? then s.timers
                             else s.timers[timer := T.Entry(s.clock + fr.timeout.value, timer, fr.timeout.value, false,
                                                            Timeout(fr.call, timer, fr.fd, fr.event))])
            && At(s', f, Context(fr.fd, fr.event))
            && s'.io.queue == s.io.queue && s'.io.pending == s.io.pending + 1
            && SameExcept(s.io, s'.io, fr.fd, fr.event == READ, fr.event == WRITE)
  {
    hide Reachable;
    ReachableInv(s);
    var f, fr := s.pc.fiber, s.conts[s.pc.fiber].frame;
    BlockWrites(s, timer);
    hide Inv, Next, Block, AddEvent, SameExcept, Watches;
    RunsExec(s);
    BlockedShape(s, timer);
    BlockAdds(s);
    BlockShape(s, timer);
    BlockWritten(s, timer, AddEvent(s.io, fr.fd, fr.event, WaitFiber(f, s.states[f]), false).0);
  }

  lemma BlockWrites(s: State, timer: nat)
    requires Inv(s) && AtRetry(s)
    ensures var f, fr := s.pc.fiber, s.conts[s.pc.fiber].frame;
            var io1 := AddEvent(s.io, fr.fd, fr.event, WaitFiber(f, s.states[f]), false).0;
            && io1.queue == s.io.queue && io1.pending == s.io.pending + 1
            && SameExcept(s.io, io1, fr.fd, fr.event == READ, fr.event == WRITE)
  {
    var f, fr := s.pc.fiber, s.conts[s.pc.fiber].frame;
    FreeWire(s);
    RunsExec(s);
    hide TokenInv, StateInv, OwnerInv, FrameInv, TimerInv, QueueInv, CancelInv, WorkerInv, IoInv,
         AddEvent, SameExcept, Watches;
    AddWritten(s.io, fr.fd, fr.event, WaitFiber(f, s.states[f]));
  }

  lemma BlockWritten(s: State, timer: nat, io1: Io)
    requires AtRetry(s)
    ensures var f, fr := s.pc.fiber, s.conts[s.pc.fiber].frame;
            var s' := Suspended(s, timer, io1);
            && s'.pc == Top && s'.states == s.states[f := HOLD] && s'.tinfo == s.tinfo && s'.io == io1
            && s'.cbFiber == (if s.pc.viaCb then None else s.cbFiber)
            && s'.conts == s.conts[f := Wait(fr, if fr.timeout.Some? then Some(timer) else None, s.clock, s.rolled)]
            && s'.timers == (if fr.timeout.None? then s.timers
                             else s.timers[timer := T.Entry(s.clock + fr.timeout.value, timer, fr.timeout.value, false,
                                                            Timeout(fr.call, timer, fr.fd, fr.event))])
            && (fr.fd < |io1.fds| && io1.fds[fr.fd].Get(fr.event).fiber == Some(f) ==>
                  At(s', f, Context(fr.fd, fr.event)))
  {
  }

  /** A hooked sleep: the fiber is on hold, and a timer will schedule it when the
      time is over. */
  lemma WhatSleeps(s: State, ms: nat, timer: nat)
    requires Reachable(s) && Enabled(s, AHooked(GoToSleep(ms, timer)))
    ensures var f, s' := s.pc.fiber, Next(s, AHooked(GoToSleep(ms, timer)));
            && s'.pc == Top && s'.states == s.states[f := HOLD] && s'.io == s.io && s'.tinfo == s.tinfo
            && s'.cbFiber == (if s.pc.viaCb then None else s.cbFiber)
            && s'.conts == s.conts[f := Sleep(timer)]
            && s'.timers == s.timers[timer := T.Entry(s.clock + ms, timer, ms, false, WakeFiber(f))]
            && At(s', f, Alarm(timer))
  {
    hide Reachable, Inv;
    ReachableInv(s);
    RunsExec(s);
    SlumberShape(s, ms, timer);
    hide Slumber, SwapOut;
  }

  /** YieldToReady: the fiber goes to the end of the queue.  A callback fiber is then
      a fiber of its own. */
  lemma WhatYields(s: State)
    requires Reachable(s) && Enabled(s, AHooked(Yield))
    ensures var f, s' := s.pc.fiber, Next(s, AHooked(Yield));
            && s'.pc == Top && s'.states == s.states[f := READY] && s'.conts == s.conts
            && s'.cbFiber == (if s.pc.viaCb then None else s.cbFiber)
            && s'.io == s.io.(queue := s.io.queue + [Task(Some(f), None, -1)])
            && s'.timers == s.timers && s'.tinfo == s.tinfo
  {
    hide Reachable, Inv;
    ReachableInv(s);
    RunsExec(s);
  }

  /** The fiber ends, normally or by an exception; the callback fiber is reset and
      kept. */
  lemma WhatEnds(s: State, ok: bool)
    requires Reachable(s) && Enabled(s, AHooked(Finish(ok)))
    ensures var f, s' := s.pc.fiber, Next(s, AHooked(Finish(ok)));
            && s'.pc == Top && s'.conts == s.conts[f := Ended] && s'.cbFiber == s.cbFiber
            && s'.states == s.states[f := if s.pc.viaCb then INIT else if ok then TERM else EXCEPT]
            && s'.io == s.io && s'.timers == s.timers && s'.tinfo == s.tinfo
  {
    hide Reachable, CanTurn, CanRequest, CanTimer, CanWorld, DoTurn, DoRequest, DoTimer, DoWorld, Slumber, Block, Begin;
  }

  // ----------------------------------------------------------------- callbacks

  /** The fiber a callback runs on: the recycled one if there is one. */
  function CbFiber(s: State, newFiber: FiberId): FiberId {
    if s.cbFiber.Some? then s.cbFiber.value else newFiber
  }

  /** The queue without the entry the worker takes. */
  function Rest(s: State): seq<Task>
    requires Picked(s) < |s.io.queue|
  {
    s.io.queue[..Picked(s)] + s.io.queue[Picked(s) + 1..]
  }

  predicate PicksCb(s: State, cb: Callback) {
    Picked(s) < |s.io.queue| && s.io.queue[Picked(s)].cb == Some(cb)
  }

  /** A callback of the runtime's own has run on the callback fiber, which is then
      ended and kept. */
  ghost predicate RanOn(s: State, s': State, g: FiberId) {
    && s'.pc == Top && s'.cbFiber == Some(g)
    && s'.states == s.states[g := INIT] && s'.conts == s.conts[g := Ended] && s'.timers == s.timers
  }

  lemma AcquireWritten(s: State, newFiber: FiberId)
    requires Inv(s) && s.pc.Top? && Picked(s) < |s.io.queue| && newFiber !in s.conts
    ensures var g, s1 := CbFiber(s, newFiber), Acquire(Popped(s), newFiber);
            && s1 == s.(io := s.io.(queue := Rest(s)), states := s.states[g := EXEC], conts := s.conts[g := User],
                        cbFiber := Some(g), active := s.active + 1, pc := Run(g, true))
            && !Alive(s.conts, g)
  {
    hide TokenInv, OwnerInv, FrameInv, TimerInv, QueueInv, CancelInv, IoInv, WorkerInv, Picked;
    AcquireStates(s.states, s.conts, s.cbFiber, newFiber);
  }

  lemma TakesCb(s: State, newFiber: FiberId, refuse: bool, cb: Callback)
    requires Inv(s) && PicksCb(s, cb)
    ensures TakeTask(s, newFiber, refuse) == RunCallback(Popped(s), cb, newFiber, refuse)
  {
    assert NonNull(s.io.queue[Picked(s)]);
    hide Inv, TakeTask, RunCallback;
    TakeCbShape(s, newFiber, refuse);
  }

  /** A user's callback starts to run on the callback fiber. */
  lemma WhatRuns(s: State, newFiber: FiberId, refuse: bool, id: nat)
    requires Reachable(s) && Enabled(s, ATurn(Take(newFiber, refuse))) && PicksCb(s, UserCb(id))
    ensures var g, s' := CbFiber(s, newFiber), Next(s, ATurn(Take(newFiber, refuse)));
            && s'.pc == Run(g, true) && s'.cbFiber == Some(g)
            && s'.states == s.states[g := EXEC] && s'.conts == s.conts[g := User]
            && s'.io == s.io.(queue := Rest(s)) && s'.timers == s.timers && s'.tinfo == s.tinfo
  {
    hide Reachable, Inv, Acquire, TakeTask, Picked, Rest;
    ReachableInv(s);
    TakesCb(s, newFiber, refuse, UserCb(id));
    AcquireWritten(s, newFiber);
  }

  /** A sleep is over: the sleeper goes to the end of the queue. */
  lemma WhatWakes(s: State, newFiber: FiberId, refuse: bool, f: FiberId)
    requires Reachable(s) && Enabled(s, ATurn(Take(newFiber, refuse))) && PicksCb(s, WakeFiber(f))
    ensures var s' := Next(s, ATurn(Take(newFiber, refuse)));
            && RanOn(s, s', CbFiber(s, newFiber))
            && s'.io == s.io.(queue := Rest(s) + [Task(Some(f), None, -1)]) && s'.tinfo == s.tinfo
  {
    hide Reachable, Inv, Acquire, TakeTask, Picked, Rest;
    ReachableInv(s);
    TakesCb(s, newFiber, refuse, WakeFiber(f));
    AcquireWritten(s, newFiber);
    var g := CbFiber(s, newFiber);
    assert s.states[g := EXEC][g := INIT] == s.states[g := INIT];
    assert s.conts[g := User][g := Ended] == s.conts[g := Ended];
  }

  lemma FiredWritten(s: State, newFiber: FiberId, refuse: bool, c: nat, fd: nat, ev: Event)
    requires Inv(s) && s.pc.Top? && Picked(s) < |s.io.queue| && newFiber !in s.conts
    requires c in s.tinfo && s.tinfo[c].cancelled == 0
    ensures var g, s1 := CbFiber(s, newFiber), Fire(Acquire(Popped(s), newFiber), c, fd, ev, refuse);
            && s1.pc == Run(g, true)
            && RanOn(s, SwapOut(s1, TERM), g)
            && SwapOut(s1, TERM).tinfo == s.tinfo[c := TimerInfo(110, s.tinfo[c].owner)]
            && SwapOut(s1, TERM).io == CancelEvent(s.io.(queue := Rest(s)), fd, ev, refuse).0
  {
    hide Inv, Acquire, Picked, Rest, CancelEvent;
    AcquireWritten(s, newFiber);
    var g := CbFiber(s, newFiber);
    assert s.states[g := EXEC][g := INIT] == s.states[g := INIT];
    assert s.conts[g := User][g := Ended] == s.conts[g := Ended];
  }

  /** Whoever waits for the event of a live timeout is the call's own fiber. */
  lemma OwnWaiter(s: State, i: nat, c: nat, t: nat, fd: nat, ev: Event)
    requires Inv(s) && i < |s.io.queue| && s.io.queue[i].cb == Some(Timeout(c, t, fd, ev))
    ensures c in s.tinfo && Live(s.conts, s.tinfo, c, t, fd, ev)
    ensures fd < |s.io.fds| && s.io.fds[fd].events.Has(ev) ==>
              s.io.fds[fd].Get(ev) == EventContext(true, Some(s.tinfo[c].owner), None)
  {
    assert TaskOk(s.io.queue[i], s.conts, s.tinfo, s.clock, s.rolled);
    hide TokenInv, StateInv, TimerInv, QueueInv, CancelInv, WorkerInv;
    if fd < |s.io.fds| && s.io.fds[fd].events.Has(ev) {
      var ctx, f := s.io.fds[fd].Get(ev), s.tinfo[c].owner;
      assert FdOk(s.io.fds[fd]) && OwnerOk(ctx, fd, ev, s.conts);
      assert OnWire(s.conts[f], fd, ev);
      if ctx.fiber.Some? {
        SameWire(s, ctx.fiber.value, c, t, fd, ev);
      }
    }
  }

  /** The timeout of a call that was not cancelled yet: the call is cancelled with
      ETIMEDOUT, and if the kernel agrees and the fiber is still registered, the
      registration ends and the fiber goes to the end of the queue. */
  lemma WhatTimesOut(s: State, newFiber: FiberId, refuse: bool, c: nat, t: nat, fd: nat, ev: Event)
    requires Reachable(s) && Enabled(s, ATurn(Take(newFiber, refuse))) && PicksCb(s, Timeout(c, t, fd, ev))
    requires c in s.tinfo && s.tinfo[c].cancelled == 0
    ensures var f, s' := s.tinfo[c].owner, Next(s, ATurn(Take(newFiber, refuse)));
            && RanOn(s, s', CbFiber(s, newFiber))
            && s'.tinfo == s.tinfo[c := TimerInfo(110, f)]
            && (if !refuse && fd < |s.io.fds| && s.io.fds[fd].events.Has(ev)
                then EventsEnded(s.io.(queue := Rest(s)), s'.io, fd, ev == READ, ev == WRITE)
                     && s'.io.queue == Rest(s) + [Task(Some(f), None, -1)]
                else s'.io == s.io.(queue := Rest(s)))
  {
    hide Reachable, Inv, Acquire, TakeTask, Rest, CancelEvent, Fire, SwapOut, RanOn, EventsEnded;
    ReachableInv(s);
    TakesCb(s, newFiber, refuse, Timeout(c, t, fd, ev));
    FiredWritten(s, newFiber, refuse, c, fd, ev);
    TimeoutTable(s, refuse, c, t, fd, ev);
    hide Picked;
  }

  lemma TimeoutTable(s: State, refuse: bool, c: nat, t: nat, fd: nat, ev: Event)
    requires Inv(s) && PicksCb(s, Timeout(c, t, fd, ev))
    ensures c in s.tinfo
    ensures var io, f := s.io.(queue := Rest(s)), s.tinfo[c].owner;
            var io' := CancelEvent(io, fd, ev, refuse).0;
            if !refuse && fd < |s.io.fds| && s.io.fds[fd].events.Has(ev)
            then EventsEnded(io, io', fd, ev == READ, ev == WRITE) && io'.queue == Rest(s) + [Task(Some(f), None, -1)]
            else io' == io
  {
    hide Inv, IoInv, CancelEvent, Picked, EventsEnded;
    OwnWaiter(s, Picked(s), c, t, fd, ev);
    InvIo(s);
    RemoveIo(s.io, Picked(s));
    var io := s.io.(queue := Rest(s));
    Unchanged(io, fd, ev, refuse);
    if !refuse && fd < |s.io.fds| && s.io.fds[fd].events.Has(ev) {
      CancelWritten(io, fd, ev);
      OneQueued(io, CancelEvent(io, fd, ev, refuse).0, fd, ev, s.tinfo[c].owner);
    }
  }

  lemma OneQueued(io: Io, io': Io, fd: nat, ev: Event, f: FiberId)
    requires fd < |io.fds| && EventsEnded(io, io', fd, ev == READ, ev == WRITE)
    requires io.fds[fd].Get(ev) == EventContext(true, Some(f), None)
    ensures io'.queue == io.queue + [Task(Some(f), None, -1)]
  {
    hide Watches, SameExcept;
  }

  /** So an unrefused timeout leaves the call's fiber in the queue, for reading and
      writing alike, whether it was woken just now or had been before. */
  lemma TimeoutWakes(s: State, newFiber: FiberId, c: nat, t: nat, fd: nat, ev: Event)
    requires Reachable(s) && Enabled(s, ATurn(Take(newFiber, false))) && PicksCb(s, Timeout(c, t, fd, ev))
    requires c in s.tinfo && s.tinfo[c].cancelled == 0
    ensures var f, s' := s.tinfo[c].owner, Next(s, ATurn(Take(newFiber, false)));
            && c in s'.tinfo && s'.tinfo[c].cancelled == 110 && !At(s', f, Context(fd, ev))
            && exists i :: At(s', f, Entry(i))
  {
    hide Reachable, Inv, Enabled, Next, RanOn;
    ReachableInv(s);
    WhatTimesOut(s, newFiber, false, c, t, fd, ev);
    var f, s' := s.tinfo[c].owner, Next(s, ATurn(Take(newFiber, false)));
    OwnWaiter(s, Picked(s), c, t, fd, ev);
    hide Picked;
    if fd < |s.io.fds| && s.io.fds[fd].events.Has(ev) {
      assert At(s', f, Entry(|Rest(s)|));
    } else {
      var i := StillQueued(s, f, c, t, fd, ev);
      assert At(s', f, Entry(if i < Picked(s) then i else i - 1));
    }
  }

  /** A fiber in a wait round that is no longer registered is queued. */
  lemma StillQueued(s: State, f: FiberId, c: nat, t: nat, fd: nat, ev: Event) returns (i: nat)
    requires Reachable(s) && PicksCb(s, Timeout(c, t, fd, ev)) && c in s.tinfo && s.tinfo[c].owner == f
    requires !(fd < |s.io.fds| && s.io.fds[fd].events.Has(ev))
    ensures At(s, f, Entry(i)) && i != Picked(s) && !At(s, f, Context(fd, ev))
  {
    hide Reachable, Inv;
    ReachableInv(s);
    OwnWaiter(s, Picked(s), c, t, fd, ev);
    if fd < |s.io.fds| {
      EmptyContext(s, fd, ev);
    }
    assert NonNull(s.io.queue[Picked(s)]) by { QueueNonNull(s); }
    hide Picked;
    var p := SomePlace(s, f);
    PlaceOfCont(s, f, p);
    assert p.Entry?;
    i := p.index;
  }

  lemma QueueNonNull(s: State)
    requires Inv(s)
    ensures forall i :: 0 <= i < |s.io.queue| ==> NonNull(s.io.queue[i])
  {
    hide TokenInv, StateInv, OwnerInv, FrameInv, TimerInv, QueueInv, CancelInv, WorkerInv;
  }

  lemma EmptyContext(s: State, fd: nat, ev: Event)
    requires Inv(s) && fd < |s.io.fds| && !s.io.fds[fd].events.Has(ev)
    ensures s.io.fds[fd].Get(ev) == EventContext(false, None, None)
  {
    hide TokenInv, StateInv, OwnerInv, FrameInv, TimerInv, QueueInv, CancelInv, WorkerInv;
    assert FdOk(s.io.fds[fd]);
  }

  // ---------------------------------------------------------------------- idling

  /** The callbacks of the released timers, as queue entries. */
  function TimerTasks(m: T.Pending, order: seq<nat>): seq<Task>
    requires forall i :: 0 <= i < |order| ==> order[i] in m
  {
    seq(|order|, i requires 0 <= i < |order| => Task(None, Some(m[order[i]].cb), -1))
  }

  lemma {:induction false} ReleasedTasks(q: seq<Task>, m: T.Pending, order: seq<nat>, n: nat)
    requires n <= |order| && forall i :: 0 <= i < |order| ==> order[i] in m
    ensures ReleaseQueue(q, m, order, n) == q + TimerTasks(m, order)[..n]
  {
    if n > 0 {
      ReleasedTasks(q, m, order, n - 1);
      assert TimerTasks(m, order)[..n] == TimerTasks(m, order)[..n - 1] + [TimerTasks(m, order)[n - 1]];
    }
  }

  /** One idle pass: the queue grows by the callbacks of the due timers, in set order,
      and then by the waiters of the reported events, in the order of the reports. */
  lemma WhatIdleQueues(s: State, order: seq<nat>, reports: seq<Report>)
    requires Reachable(s) && Enabled(s, ATurn(IdleHandle(order, reports)))
    ensures forall i :: 0 <= i < |order| ==> order[i] in s.timers
    ensures var all := s.timers != map[] && s.clock > s.previous + 3_600_000;
            && (forall a :: a in s.timers && (all || s.timers[a].next <= s.clock) <==> a in order)
            && forall i, j :: 0 <= i < j < |order| ==>
                 var d, e := s.timers[order[i]], s.timers[order[j]];
                 d.next < e.next || (d.next == e.next && d.id < e.id)
    ensures forall i :: 0 <= i < |reports| && reports[i].Ready? ==> reports[i].fd < |s.io.fds|
    ensures var s' := Next(s, ATurn(IdleHandle(order, reports)));
            && s'.io.queue ==
               s.io.queue + TimerTasks(s.timers, order) + Delivered(s.io.fds, reports, |reports|)
            && |s'.io.fds| == |s.io.fds|
            && (forall fd, ev :: 0 <= fd < |s.io.fds| ==>
                  EventAfter(s.io.fds, s'.io.fds, reports, |reports|, fd, ev))
            && s'.conts == s.conts && s'.states == s.states && s'.tinfo == s.tinfo && s'.pc == Top
            && s'.rolled == s.rolled + One(s.timers != map[] && s.clock > s.previous + 3_600_000)
            && s'.previous == (if s.timers == map[] then s.previous else s.clock)
  {
    hide Reachable, Inv;
    ReachableInv(s);
    var io1 := s.io.(queue := ReleaseQueue(s.io.queue, s.timers, order, |order|));
    HandledIo(s, order);
    hide IoInv, HandleReports, ReleaseQueue, Truthful, EventAfter, Delivered, T.AfterRelease;
    ReportsWritten(io1, reports, |reports|);
    ReleasedTasks(s.io.queue, s.timers, order, |order|);
    assert TimerTasks(s.timers, order)[..|order|] == TimerTasks(s.timers, order);
  }

  /** The fiber that waits for an event reported ready, or on whose descriptor there
      is an error or a hang-up, is registered no longer and is queued. */
  lemma ReadinessWakes(s: State, order: seq<nat>, reports: seq<Report>, f: FiberId, fd: nat, ev: Event, k: nat)
    requires Reachable(s) && Enabled(s, ATurn(IdleHandle(order, reports))) && At(s, f, Context(fd, ev))
    requires k < |reports| && reports[k].Ready? && reports[k].fd == fd && !reports[k].refuse
    requires reports[k].err || (if ev == READ then reports[k].bits.read else reports[k].bits.write)
    ensures var s' := Next(s, ATurn(IdleHandle(order, reports)));
            !At(s', f, Context(fd, ev)) && exists i :: At(s', f, Entry(i))
  {
    hide Reachable, Inv, Enabled, Next;
    ReachableInv(s);
    WhatIdleQueues(s, order, reports);
    if !s.io.fds[fd].events.Has(ev) {
      EmptyContext(s, fd, ev);
    }
    assert Fires(reports[k], fd, ev);
    WaiterDelivered(s.io.fds, reports, |reports|, k, ev);
    var s' := Next(s, ATurn(IdleHandle(order, reports)));
    FiredIsOver(s.io.fds, s'.io.fds, reports, k, fd, ev);
    hide Delivered, TimerTasks, Fires, EventAfter;
    var i := InTail(s'.io.queue, s.io.queue + TimerTasks(s.timers, order), Delivered(s.io.fds, reports, |reports|), f);
    assert At(s', f, Entry(i));
  }

  lemma FiredIsOver(fds: seq<FdContext>, fds': seq<FdContext>, rs: seq<Report>, k: nat, fd: nat, ev: Event)
    requires k < |rs| && fd < |fds| && |fds'| == |fds| && Fires(rs[k], fd, ev) && fds[fd].events.Has(ev)
    requires EventAfter(fds, fds', rs, |rs|, fd, ev)
    ensures fds'[fd].Get(ev) == EventContext(false, None, None)
  {
    hide Fires;
    assert FiredBefore(rs, |rs|, fd, ev);
  }

  lemma InTail(q': seq<Task>, q: seq<Task>, d: seq<Task>, f: FiberId) returns (i: nat)
    requires q' == q + d && Task(Some(f), None, -1) in d
    ensures i < |q'| && q'[i].fiber == Some(f)
  {
    var j :| 0 <= j < |d| && d[j] == Task(Some(f), None, -1);
    i := |q| + j;
  }

  /** The stop test of the idle fiber passes exactly when stop was asked for and no
      timer, event or task is left; otherwise the worker waits for events. */
  lemma WhatIdleTests(s: State)
    requires Reachable(s) && Enabled(s, ATurn(IdleCheck))
    ensures var s' := Next(s, ATurn(IdleCheck));
            if s.stop && s.timers == map[] && s.io.pending == 0 && s.io.queue == []
            then s'.pc == Top && s'.idle == TERM else s'.pc == Polling && s'.idle == EXEC
  {
    hide Reachable;
    ReachableInv(s);
    if Stopping(s) {
      StoppingMeansQuiet(s);
    }
    hide TokenInv, StateInv, OwnerInv, FrameInv, TimerInv, QueueInv, CancelInv, IoInv;
  }

  /** What an idle pass leaves of the timers: of the due ones only the recurring, one
      period after the reading; the others as they were. */
  lemma WhatIdleKeeps(s: State, order: seq<nat>, reports: seq<Report>, a: nat)
    requires Reachable(s) && Enabled(s, ATurn(IdleHandle(order, reports)))
    ensures var s' := Next(s, ATurn(IdleHandle(order, reports)));
            var all := s.clock > s.previous + 3_600_000;
            && (a in s'.timers <==> a in s.timers && (all || s.timers[a].next <= s.clock ==> s.timers[a].recurring))
            && (a in s'.timers ==>
                  s'.timers[a] == if all || s.timers[a].next <= s.clock
                                  then s.timers[a].(next := s.clock + s.timers[a].ms) else s.timers[a])
  {
    hide Reachable, HandleReports, ReleaseQueue;
  }

  // ----------------------------------------------------- calls that do not suspend

  /** A hooked call begins at its `retry` label with a fresh `timer_info`, and
      returns to the caller with none. */
  lemma WhatBeginsAndReturns(s: State, frame: Frame)
    ensures Enabled(s, AHooked(IoCall(frame))) ==>
              Next(s, AHooked(IoCall(frame))) ==
              s.(conts := s.conts[s.pc.fiber := Retry(frame)],
                 tinfo := s.tinfo[frame.call := TimerInfo(0, s.pc.fiber)], usedCalls := s.usedCalls + {frame.call})
    ensures Enabled(s, AHooked(IoReturn)) ==>
              Next(s, AHooked(IoReturn)) ==
              s.(conts := s.conts[s.pc.fiber := User], tinfo := s.tinfo - {s.conts[s.pc.fiber].frame.call})
  {
    hide CanTurn, CanRequest, CanTimer, CanWorld, DoTurn, DoRequest, DoTimer, DoWorld, Slumber, Block, SwapOut;
  }

  /** Whoever schedules, the task goes to the end of the queue for the thread asked
      for, and a new fiber is INIT. */
  lemma WhatSchedules(s: State, cb: nat, g: FiberId, thread: int)
    ensures var t := Task(None, Some(UserCb(cb)), thread);
            && (Enabled(s, AWorld(External(cb, thread))) ==>
                  Next(s, AWorld(External(cb, thread))) == s.(io := s.io.(queue := s.io.queue + [t])))
            && (Enabled(s, ARequest(Schedule(cb, thread))) ==>
                  Next(s, ARequest(Schedule(cb, thread))) == s.(io := s.io.(queue := s.io.queue + [t])))
    ensures var s' := s.(io := s.io.(queue := s.io.queue + [Task(Some(g), None, thread)]),
                         states := s.states[g := INIT], conts := s.conts[g := User]);
            && (Enabled(s, AWorld(ExternalFiber(g, thread))) ==> Next(s, AWorld(ExternalFiber(g, thread))) == s')
            && (Enabled(s, ARequest(Spawn(g, thread))) ==> Next(s, ARequest(Spawn(g, thread))) == s')
  {
    hide CanTurn, CanHooked, CanTimer, DoTurn, DoHooked, DoTimer;
  }

  /** Another thread's timer is due its period from now. */
  lemma WhatOthersTime(s: State, ms: nat, recurring: bool, cb: nat, t: nat)
    requires Enabled(s, AWorld(ExternalTimer(ms, recurring, cb, t)))
    ensures var s' := Next(s, AWorld(ExternalTimer(ms, recurring, cb, t)));
            && s' == s.(timers := s'.timers, usedTimers := s.usedTimers + {t})
            && s'.timers == s.timers[t := T.Entry(s.clock + ms, t, ms, recurring, UserCb(cb))]
  {
    hide CanTurn, CanHooked, CanRequest, CanTimer, DoTurn, DoHooked, DoRequest, DoTimer;
  }

  /** The user's timers: a new one is due its period from now, a stopped one is gone,
      a refreshed one is due its period from now, and a reset one gets the new period
      counted from now or from its old start. */
  lemma WhatTimerCalls(s: State, c: TimerCall)
    requires Reachable(s) && Enabled(s, ATimer(c))
    ensures var s' := Next(s, ATimer(c));
            && s' == s.(timers := s'.timers, usedTimers := s'.usedTimers)
            && match c
               case StartTimer(ms, recurring, cb, t) =>
                 s'.timers == s.timers[t := T.Entry(s.clock + ms, t, ms, recurring, UserCb(cb))]
               case StopTimer(t) => s'.timers == s.timers - {t}
               case RefreshTimer(t) =>
                 if t !in s.timers then s'.timers == s.timers
                 else s'.timers == s.timers[t := s.timers[t].(next := s.clock + s.timers[t].ms)]
               case ResetTimer(t, ms, fromNow) =>
                 if t !in s.timers then s'.timers == s.timers
                 else
                   && s.timers[t].ms <= s.timers[t].next
                   && s'.timers == s.timers[t := s.timers[t].(ms := ms, next := if fromNow then s.clock + ms
                                                              else s.timers[t].next - s.timers[t].ms + ms)]
  {
    hide Reachable, Inv;
    ReachableInv(s);
    PeriodsFit(s);
    hide CanTurn, CanHooked, CanRequest, CanWorld, DoTurn, DoHooked, DoRequest, DoWorld;
  }

  /** What the running fiber asks of the event table: a watched event is registered
      with its callback, a forgotten one is over without waking anybody, and a
      cancelled one is over and wakes its waiter. */
  lemma WhatTableCalls(s: State, r: Request)
    requires Reachable(s) && Enabled(s, ARequest(r))
    ensures var s', io, io' := Next(s, ARequest(r)), s.io, Next(s, ARequest(r)).io;
            match r
            case Watch(fd, ev, cb, refuse) =>
              && s' == s.(io := io')
              && (if refuse then io' == io.(fds := io'.fds) && SameExcept(io, io', fd, false, false)
                  else
                    && io'.pending == io.pending + 1 && io'.queue == io.queue && fd < |io'.fds|
                    && SameExcept(io, io', fd, ev == READ, ev == WRITE)
                    && Watches(io', fd, ev == READ || (fd < |io.fds| && io.fds[fd].events.read),
                               ev == WRITE || (fd < |io.fds| && io.fds[fd].events.write))
                    && (if ev == READ then io'.fds[fd].read else io'.fds[fd].write) ==
                       EventContext(true, None, Some(cb)))
            case Forget(fd, ev, refuse) =>
              && s' == s.(io := io')
              && (if refuse || fd >= |io.fds| || !io.fds[fd].events.Has(ev) then io' == io
                  else
                    && io'.pending == io.pending - 1 && io'.queue == io.queue
                    && |io'.fds| == |io.fds| && SameExcept(io, io', fd, ev == READ, ev == WRITE)
                    && Watches(io', fd, ev != READ && io.fds[fd].events.read, ev != WRITE && io.fds[fd].events.write)
                    && io'.fds[fd].Get(ev) == EventContext(false, None, None))
            case Cancel(fd, ev, refuse) =>
              && s' == s.(io := io')
              && (if refuse || fd >= |io.fds| || !io.fds[fd].events.Has(ev) then io' == io
                  else EventsEnded(io, io', fd, ev == READ, ev == WRITE))
            case CancelFd(fd, refuse) =>
              && s' == s.(io := io')
              && (if refuse || fd >= |io.fds| || io.fds[fd].events == Events(false, false) then io' == io
                  else EventsEnded(io, io', fd, io.fds[fd].events.read, io.fds[fd].events.write))
            case _ => true
  {
    hide Reachable, Inv, IoInv, AddEvent, DelEvent, CancelEvent, CancelAll, SameExcept, Watches, EventsEnded;
    ReachableInv(s);
    InvIo(s);
    match r
    case Watch(fd, ev, cb, refuse) =>
      if refuse {
        AddRefusedWritten(s.io, fd, ev, WaitCb(cb));
      } else {
        AddWritten(s.io, fd, ev, WaitCb(cb));
      }
    case Forget(fd, ev, refuse) =>
      Unchanged(s.io, fd, ev, refuse);
      if !refuse && fd < |s.io.fds| && s.io.fds[fd].events.Has(ev) {
        DelWritten(s.io, fd, ev);
      }
    case Cancel(fd, ev, refuse) =>
      Unchanged(s.io, fd, ev, refuse);
      if !refuse && fd < |s.io.fds| && s.io.fds[fd].events.Has(ev) {
        CancelWritten(s.io, fd, ev);
      }
    case CancelFd(fd, refuse) =>
      Unchanged(s.io, fd, READ, refuse);
      if !refuse && fd < |s.io.fds| && s.io.fds[fd].events != Events(false, false) {
        CancelAllWritten(s.io, fd);
      }
    case _ =>
  }

  /** A worker that finds no task, because every one is pinned to another thread or a
      fiber that executes, leaves if its idle fiber has ended and else runs it. */
  lemma WhatNoTaskMeans(s: State)
    requires Reachable(s) && s.pc.Top?
    ensures Enabled(s, ATurn(FindNothing)) <==>
              forall i :: 0 <= i < |s.io.queue| ==>
                || (s.io.queue[i].thread != -1 && s.io.queue[i].thread != s.thread)
                || (s.io.queue[i].fiber.Some? && s.io.queue[i].fiber.value in s.states
                    && s.states[s.io.queue[i].fiber.value] == EXEC)
    ensures Enabled(s, ATurn(FindNothing)) ==>
              Next(s, ATurn(FindNothing)) ==
              if s.idle == TERM then s.(pc := Left) else s.(pc := Idle, idle := EXEC, idlers := s.idlers + 1)
  {
    hide Reachable;
    ReachableInv(s);
    PickWritten(s.io.queue, s.thread, s.states);
    hide TokenInv, StateInv, OwnerInv, FrameInv, TimerInv, QueueInv, CancelInv, IoInv, Pick;
  }

  lemma PeriodsFit(s: State)
    requires Inv(s)
    ensures forall t :: t in s.timers ==> s.timers[t].ms <= s.timers[t].next && s.timers[t].id == t
  {
    hide TokenInv, StateInv, OwnerInv, FrameInv, QueueInv, CancelInv, IoInv, WorkerInv;
    assert forall t :: t in s.timers ==> EntryOk(s.timers[t], t, s.conts, s.tinfo);
  }

  /** A fiber whose event or descriptor is cancelled by the running one, the kernel
      agreeing, is registered no longer and is queued. */
  lemma CancelWakes(s: State, r: Request, f: FiberId, fd: nat, ev: Event)
    requires Reachable(s) && Enabled(s, ARequest(r)) && At(s, f, Context(fd, ev))
    requires r == Cancel(fd, ev, false) || r == CancelFd(fd, false)
    ensures var s' := Next(s, ARequest(r));
            !At(s', f, Context(fd, ev)) && exists i :: At(s', f, Entry(i))
  {
    hide Reachable, Inv, CancelEvent, CancelAll, CanRequest;
    ReachableInv(s);
    InvIo(s);
    if !s.io.fds[fd].events.Has(ev) {
      EmptyContext(s, fd, ev);
    }
    var s' := Next(s, ARequest(r));
    assert s' == s.(io := s'.io);
    var n := |s.io.queue|;
    if r.Cancel? {
      CancelWritten(s.io, fd, ev);
      assert s'.io == CancelEvent(s.io, fd, ev, false).0;
      assert At(s', f, Entry(n));
    } else {
      CancelAllWritten(s.io, fd);
      assert s'.io == CancelAll(s.io, fd, false).0;
      assert At(s', f, Entry(if ev == READ then n else |s'.io.queue| - 1));
    }
  }

  lemma InvIo(s: State)
    requires Inv(s)
    ensures IoInv(s.io)
  {
    hide TokenInv, StateInv, OwnerInv, FrameInv, TimerInv, QueueInv, CancelInv, WorkerInv, IoInv;
  }
}

/** Calls of the running fiber into the I/O manager and the timer set, and what
    the outside world does, keep the invariant. */
module RuntimeRequests {
  import opened Types
  import opened Gathering
  import opened EventTable
  import opened Runtime
  import opened RuntimeInvariant
  import opened RuntimeSteps
  import T = TimerSet

  // ---------------------------------------------------------- waking waiters

  lemma WokeTokens(io: Io, io': Io, conts: Conts, timers: T.Pending, pc: Pc)
    requires TokenInv(io.queue, io.fds, conts, timers, pc) && Woke(io, io')
    ensures TokenInv(io'.queue, io'.fds, conts, timers, pc)
  {
    forall f: FiberId ensures Tokens(io'.queue, io'.fds, conts, timers, pc, f) == One(Alive(conts, f)) {
      assert Tokens(io.queue, io.fds, conts, timers, pc, f) == One(Alive(conts, f));
      assert (QueueHandles(io'.queue) + TableHandles(io'.fds))[f] == (QueueHandles(io.queue) + TableHandles(io.fds))[f];
    }
  }

  lemma WokeOwner(fds: seq<FdContext>, fds': seq<FdContext>, conts: Conts)
    requires OwnerInv(fds, conts) && Shrunk(fds, fds')
    ensures OwnerInv(fds', conts)
  {
    forall fd, ev | 0 <= fd < |fds'| ensures OwnerOk(fds'[fd].Get(ev), fd, ev, conts) {
      assert OwnerOk(fds[fd].Get(ev), fd, ev, conts);
    }
  }

  lemma WokeQueue(q: seq<Task>, q': seq<Task>, conts: Conts, tinfo: Infos, clock: nat, rolled: nat)
    requires QueueInv(q, conts, tinfo, clock, rolled) && Appended(q, q')
    ensures QueueInv(q', conts, tinfo, clock, rolled)
  {
    forall i | 0 <= i < |q'| ensures TaskOk(q'[i], conts, tinfo, clock, rolled) {
      assert i < |q| ==> q'[i] == q[i] && TaskOk(q[i], conts, tinfo, clock, rolled);
    }
    forall i, j | 0 <= i < j < |q'| ensures InOrder(q'[i], q'[j], tinfo) {
      assert j < |q| ==> q'[i] == q[i] && q'[j] == q[j] && InOrder(q[i], q[j], tinfo);
    }
  }

  /** Whatever wakes registered waiters keeps the whole invariant. */
  lemma WokeKeeps(s: State, io': Io)
    requires Inv(s) && IoInv(io') && Woke(s.io, io') && (s.pc.Run? || (s.pc.Top? && s.idle != TERM))
    ensures Inv(s.(io := io'))
  {
    hide TokenInv, StateInv, OwnerInv, FrameInv, TimerInv, QueueInv, CancelInv, IoInv, Shrunk, Appended;
    WokeTokens(s.io, io', s.conts, s.timers, s.pc);
    WokeOwner(s.io.fds, io'.fds, s.conts);
    WokeQueue(s.io.queue, io'.queue, s.conts, s.tinfo, s.clock, s.rolled);
    Together(s.(io := io'));
  }

  lemma CancelRequest(s: State, fd: nat, ev: Event, refuse: bool)
    requires Inv(s) && s.pc.Run?
    ensures Inv(s.(io := CancelEvent(s.io, fd, ev, refuse).0))
  {
    hide TokenInv, StateInv, OwnerInv, FrameInv, TimerInv, QueueInv, CancelInv, IoInv, Woke, CancelEvent;
    CancelKeeps(s.io, fd, ev, refuse);
    WokeKeeps(s, CancelEvent(s.io, fd, ev, refuse).0);
  }

  lemma CancelFdRequest(s: State, fd: nat, refuse: bool)
    requires Inv(s) && s.pc.Run?
    ensures Inv(s.(io := CancelAll(s.io, fd, refuse).0))
  {
    hide TokenInv, StateInv, OwnerInv, FrameInv, TimerInv, QueueInv, CancelInv, IoInv, Woke, CancelAll;
    CancelAllKeeps(s.io, fd, refuse);
    WokeKeeps(s, CancelAll(s.io, fd, refuse).0);
  }

  // ------------------------------------------------------------------ new fiber

  lemma BornTokens(q: seq<Task>, t: Task, fds: seq<FdContext>, conts: Conts, timers: T.Pending, pc: Pc, g: FiberId)
    requires TokenInv(q, fds, conts, timers, pc) && g !in conts && t.fiber == Some(g) && t.cb == None
    ensures TokenInv(q + [t], fds, conts[g := User], timers, pc)
  {
    hide QueueHandles, QueueWakes, TableHandles;
    var conts' := conts[g := User];
    forall f: FiberId ensures Tokens(q + [t], fds, conts', timers, pc, f) == One(Alive(conts', f)) {
      AppendTokens(q, t, f);
      assert Tokens(q, fds, conts, timers, pc, f) == One(Alive(conts, f));
    }
  }

  /** Nothing refers to a fiber that has ended or was never made. */
  lemma DeadFree(s: State, g: FiberId)
    requires Inv(s) && !Alive(s.conts, g)
    ensures Unregistered(s.io.fds, g) && Unarmed(s.timers, s.tinfo, g) && Unqueued(s.io.queue, s.tinfo, g)
  {
    hide StateInv, FrameInv, CancelInv, OwnerInv, IoInv;
    assert Tokens(s.io.queue, s.io.fds, s.conts, s.timers, s.pc, g) == 0;
    NoHandle(s.io.fds, g);
    forall a | a in s.timers ensures !Concerns(s.timers[a].cb, s.tinfo, g) {
      assert EntryOk(s.timers[a], a, s.conts, s.tinfo);
    }
    forall i | 0 <= i < |s.io.queue| && s.io.queue[i].cb.Some?
      ensures !Concerns(s.io.queue[i].cb.value, s.tinfo, g)
    {
      assert TaskOk(s.io.queue[i], s.conts, s.tinfo, s.clock, s.rolled);
    }
  }

  lemma WakenFrames(conts: Conts, tinfo: Infos, used: set<nat>, g: FiberId)
    requires FrameInv(conts, tinfo, used) && !Alive(conts, g)
    ensures FrameInv(conts[g := User], tinfo, used) && Change(conts, tinfo, conts[g := User], tinfo, g)
  {
    forall c | c in tinfo ensures CallOf(conts[g := User], tinfo, c) {
      assert CallOf(conts, tinfo, c);
    }
  }

  lemma BornStates(states: map<FiberId, FiberState>, conts: Conts, pc: Pc, cbFiber: Option<FiberId>, g: FiberId)
    requires StateInv(states, conts, pc, cbFiber) && g !in conts
    ensures StateInv(states[g := INIT], conts[g := User], pc, cbFiber)
  {
  }

  lemma SpawnKeeps(s: State, g: FiberId, thread: int)
    requires Inv(s) && s.idle != TERM && g !in s.conts
    ensures Inv(Born(s, g, thread))
  {
    hide TokenInv, StateInv, OwnerInv, FrameInv, TimerInv, QueueInv, CancelInv, IoInv;
    var t, conts' := Task(Some(g), None, thread), s.conts[g := User];
    DeadFree(s, g);
    WakenFrames(s.conts, s.tinfo, s.usedCalls, g);
    ChangeAll(s, conts', s.tinfo, g);
    BornStates(s.states, s.conts, s.pc, s.cbFiber, g);
    BornTokens(s.io.queue, t, s.io.fds, s.conts, s.timers, s.pc, g);
    AppendIo(s.io, t);
    AppendQueue(s.io.queue, t, conts', s.tinfo, s.clock, s.rolled);
    Together(Born(s, g, thread));
  }

  // ------------------------------------------------------- callbacks on events

  lemma WatchOwner(fds: seq<FdContext>, fds': seq<FdContext>, conts: Conts, fd: nat, ev: Event, cb: nat)
    requires OwnerInv(fds, conts) && (forall f :: f in conts ==> !OnWire(conts[f], fd, ev))
    requires |fds'| >= |fds|
    requires forall i, e :: 0 <= i < |fds'| ==>
               fds'[i].Get(e) == if i == fd && e == ev then EventContext(true, None, Some(cb))
                                 else if i < |fds| then fds[i].Get(e) else NOBODY
    ensures OwnerInv(fds', conts)
  {
    forall i, e | 0 <= i < |fds'| ensures OwnerOk(fds'[i].Get(e), i, e, conts) {
      if !(i == fd && e == ev) && i < |fds| {
        assert OwnerOk(fds[i].Get(e), i, e, conts);
      }
    }
  }

  lemma TableTokens(q: seq<Task>, fds: seq<FdContext>, fds': seq<FdContext>, conts: Conts, timers: T.Pending, pc: Pc)
    requires TokenInv(q, fds, conts, timers, pc) && TableHandles(fds') == TableHandles(fds)
    ensures TokenInv(q, fds', conts, timers, pc)
  {
    forall f: FiberId ensures Tokens(q, fds', conts, timers, pc, f) == One(Alive(conts, f)) {
      assert Tokens(q, fds, conts, timers, pc, f) == One(Alive(conts, f));
    }
  }

  /** Another table with the same fibers in it. */
  lemma TableKeeps(s: State, io': Io)
    requires Inv(s) && s.pc.Run? && IoInv(io') && io'.queue == s.io.queue
    requires TableHandles(io'.fds) == TableHandles(s.io.fds) && OwnerInv(io'.fds, s.conts)
    ensures Inv(s.(io := io'))
  {
    hide TokenInv, StateInv, OwnerInv, FrameInv, TimerInv, QueueInv, CancelInv, IoInv;
    TableTokens(s.io.queue, s.io.fds, io'.fds, s.conts, s.timers, s.pc);
    Together(s.(io := io'));
  }

  lemma WatchKeeps(s: State, fd: nat, ev: Event, cb: nat, refuse: bool)
    requires Inv(s) && s.pc.Run? && Unwatched(s, fd, ev)
    ensures Inv(s.(io := AddEvent(s.io, fd, ev, WaitCb(cb), refuse).0))
  {
    hide TokenInv, StateInv, OwnerInv, FrameInv, TimerInv, QueueInv, CancelInv, IoInv, AddEvent;
    var io' := AddEvent(s.io, fd, ev, WaitCb(cb), refuse).0;
    AddKeeps(s.io, fd, ev, WaitCb(cb), refuse);
    if refuse {
      RefusedIo(s.io, fd, ev, WaitCb(cb));
      GrowHandles(s.io.fds, fd);
      GrownOwner(s.io.fds, fd, s.conts);
    } else {
      AddShape(s.io, fd, ev, WaitCb(cb));
      WatchOwner(s.io.fds, io'.fds, s.conts, fd, ev, cb);
    }
    TableKeeps(s, io');
  }

  lemma DelShape(io: Io, fd: nat, ev: Event, refuse: bool)
    ensures var io' := DelEvent(io, fd, ev, refuse).0;
            && io'.queue == io.queue
            && (refuse ==> io'.fds == io.fds)
            && (io'.fds == io.fds
                || (fd < |io.fds| && io.fds[fd].events.Has(ev)
                    && io'.fds == io.fds[fd := io.fds[fd].Put(ev, false, NOBODY)]))
  {
  }

  /** Forgetting a registration that no fiber holds. */
  lemma ForgetHandles(fds: seq<FdContext>, fd: nat, ev: Event)
    requires fd < |fds| && FdOk(fds[fd]) && fds[fd].events.Has(ev) && fds[fd].Get(ev).fiber.None?
    ensures TableHandles(fds[fd := fds[fd].Put(ev, false, NOBODY)]) == TableHandles(fds)
  {
    var c := fds[fd].Put(ev, false, NOBODY);
    ClearHandles(fds[fd], ev);
    GatherUpdate(fds, fd, c, FdHandles);
    AddBalance(TableHandles(fds), TableHandles(fds[fd := c]), FdHandles(c), multiset{});
  }

  lemma ForgetShape(io: Io, fd: nat, ev: Event, refuse: bool)
    requires FdsOk(io.fds) && (fd < |io.fds| ==> refuse || io.fds[fd].Get(ev).fiber.None?)
    ensures var io' := DelEvent(io, fd, ev, refuse).0;
            io'.queue == io.queue && Shrunk(io.fds, io'.fds) && TableHandles(io'.fds) == TableHandles(io.fds)
  {
    hide DelEvent;
    DelShape(io, fd, ev, refuse);
    if DelEvent(io, fd, ev, refuse).0.fds != io.fds {
      ClearContext(io.fds[fd], ev);
      ForgetHandles(io.fds, fd, ev);
    }
  }

  lemma ForgetKeeps(s: State, fd: nat, ev: Event, refuse: bool)
    requires Inv(s) && s.pc.Run? && (fd < |s.io.fds| ==> refuse || s.io.fds[fd].Get(ev).fiber.None?)
    ensures Inv(s.(io := DelEvent(s.io, fd, ev, refuse).0))
  {
    hide TokenInv, StateInv, OwnerInv, FrameInv, TimerInv, QueueInv, CancelInv, DelEvent, Shrunk;
    var io' := DelEvent(s.io, fd, ev, refuse).0;
    DelKeeps(s.io, fd, ev, refuse);
    ForgetShape(s.io, fd, ev, refuse);
    WokeOwner(s.io.fds, io'.fds, s.conts);
    TableKeeps(s, io');
  }

  /** Any request of the running fiber. */
  lemma RequestKeeps(s: State, r: Request)
    requires Inv(s) && CanRequest(s, r)
    ensures Inv(DoRequest(s, r))
  {
    hide TokenInv, StateInv, OwnerInv, FrameInv, TimerInv, QueueInv, CancelInv, IoInv,
         AddEvent, CancelEvent, CancelAll, DelEvent, Born;
    match r
    case Schedule(cb, thread) => PushCbKeeps(s, cb, thread);
    case Spawn(g, thread) => SpawnKeeps(s, g, thread);
    case Watch(fd, ev, cb, refuse) => WatchKeeps(s, fd, ev, cb, refuse);
    case Cancel(fd, ev, refuse) => CancelRequest(s, fd, ev, refuse);
    case CancelFd(fd, refuse) => CancelFdRequest(s, fd, refuse);
    case Forget(fd, ev, refuse) => ForgetKeeps(s, fd, ev, refuse);
  }

  // ----------------------------------------------------------------- user timers

  /** Sleepers depend only on the timers that wake fibers. */
  lemma TimerTokens(q: seq<Task>, fds: seq<FdContext>, conts: Conts, timers: T.Pending, timers': T.Pending, pc: Pc)
    requires TokenInv(q, fds, conts, timers, pc)
    requires forall a :: (a in timers && timers[a].cb.WakeFiber?) || (a in timers' && timers'[a].cb.WakeFiber?) ==>
               a in timers && a in timers' && timers[a].cb == timers'[a].cb
    ensures TokenInv(q, fds, conts, timers', pc)
  {
    forall f: FiberId ensures Tokens(q, fds, conts, timers', pc, f) == One(Alive(conts, f)) {
      assert Tokens(q, fds, conts, timers, pc, f) == One(Alive(conts, f));
    }
  }

  lemma TimersKeep(s: State, timers': T.Pending, used: set<nat>)
    requires Inv(s) && s.idle != TERM && TimerInv(timers', s.conts, s.tinfo, used)
    requires TokenInv(s.io.queue, s.io.fds, s.conts, timers', s.pc)
    ensures Inv(s.(timers := timers', usedTimers := used))
  {
    hide TokenInv, StateInv, OwnerInv, FrameInv, TimerInv, QueueInv, CancelInv, IoInv;
    Together(s.(timers := timers', usedTimers := used));
  }

  /** A timer of the user's, new or already there, is put in the set. */
  lemma PutTimer(s: State, e: T.Entry)
    requires Inv(s) && s.idle != TERM && e.cb.UserCb? && e.ms <= e.next < T.TWO_64
    requires e.id in s.usedTimers ==> e.id in s.timers && s.timers[e.id].cb.UserCb?
    ensures Inv(s.(timers := s.timers[e.id := e], usedTimers := s.usedTimers + {e.id}))
  {
    hide TokenInv, StateInv, OwnerInv, FrameInv, QueueInv, CancelInv, IoInv;
    var timers' := s.timers[e.id := e];
    MoreUsed(s.timers, s.conts, s.tinfo, s.usedTimers, e.id);
    AddEntry(s.timers, s.conts, s.tinfo, s.usedTimers + {e.id}, e);
    TimerTokens(s.io.queue, s.io.fds, s.conts, s.timers, timers', s.pc);
    hide TimerInv;
    TimersKeep(s, timers', s.usedTimers + {e.id});
  }

  lemma DropTimer(s: State, timer: nat)
    requires Inv(s) && s.pc.Run? && UserTimer(s, timer)
    ensures Inv(s.(timers := s.timers - {timer}))
  {
    hide TokenInv, StateInv, OwnerInv, FrameInv, QueueInv, CancelInv, IoInv;
    TimerTokens(s.io.queue, s.io.fds, s.conts, s.timers, s.timers - {timer}, s.pc);
    assert TimerInv(s.timers - {timer}, s.conts, s.tinfo, s.usedTimers);
    hide TimerInv;
    TimersKeep(s, s.timers - {timer}, s.usedTimers);
  }

  lemma TimerCallKeeps(s: State, c: TimerCall)
    requires Inv(s) && CanTimer(s, c)
    ensures Inv(DoTimer(s, c))
  {
    hide TokenInv, StateInv, OwnerInv, FrameInv, QueueInv, CancelInv, IoInv;
    match c
    case StartTimer(ms, recurring, cb, timer) =>
      PutTimer(s, T.Entry(s.clock + ms, timer, ms, recurring, UserCb(cb)));
    case StopTimer(timer) => DropTimer(s, timer);
    case RefreshTimer(timer) =>
      if timer in s.timers {
        assert EntryOk(s.timers[timer], timer, s.conts, s.tinfo);
        PutTimer(s, T.Refreshed(s.timers[timer], s.clock));
        assert s.usedTimers + {timer} == s.usedTimers;
      }
    case ResetTimer(timer, ms, fromNow) =>
      if timer in s.timers {
        assert EntryOk(s.timers[timer], timer, s.conts, s.tinfo);
        PutTimer(s, T.Restarted(s.timers[timer], ms, fromNow, s.clock));
        assert s.usedTimers + {timer} == s.usedTimers;
      }
  }

  // --------------------------------------------------------- the world, the calls

  lemma StopKeeps(s: State)
    requires Inv(s)
    ensures Inv(s.(stop := true))
  {
    hide TokenInv, StateInv, OwnerInv, FrameInv, TimerInv, QueueInv, CancelInv, IoInv;
    Together(s.(stop := true));
  }

  lemma WorldKeeps(s: State, w: World)
    requires Inv(s) && CanWorld(s, w)
    ensures Inv(DoWorld(s, w))
  {
    hide TokenInv, StateInv, OwnerInv, FrameInv, TimerInv, QueueInv, CancelInv, IoInv;
    match w
    case Tick(now) => TickKeeps(s, now);
    case External(cb, thread) => PushCbKeeps(s, cb, thread);
    case ExternalFiber(g, thread) => SpawnKeeps(s, g, thread);
    case ExternalTimer(ms, recurring, cb, timer) =>
      PutTimer(s, T.Entry(s.clock + ms, timer, ms, recurring, UserCb(cb)));
    case Stop => StopKeeps(s);
  }

  lemma HookedKeeps(s: State, h: Hooked)
    requires Inv(s) && CanHooked(s, h)
    ensures Inv(DoHooked(s, h))
  {
    hide TokenInv, StateInv, OwnerInv, FrameInv, TimerInv, QueueInv, CancelInv, IoInv, SwapOut, Slumber, Begin, Block;
    RunsExec(s);
    match h
    case Yield => YieldKeeps(s);
    case GoToSleep(ms, timer) => SleepKeeps(s, ms, timer);
    case IoCall(frame) => BeginKeeps(s, frame);
    case IoReturn => ReturnKeeps(s);
    case IoBlock(timer, refuse) => if refuse { RefusedKeeps(s, timer); } else { BlockKeeps(s, timer); }
    case Finish(ok) => FinishKeeps(s, if ok then TERM else EXCEPT);
  }
}

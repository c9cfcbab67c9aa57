/** Every action of the one-worker runtime keeps the invariant. */
module RuntimeSteps {
  import opened Types
  import opened Gathering
  import opened EventTable
  import opened Runtime
  import opened RuntimeInvariant
  import T = TimerSet

  // ------------------------------------------------- the running fiber leaves

  lemma YieldTokens(q: seq<Task>, fds: seq<FdContext>, conts: Conts, timers: T.Pending, pc: Pc)
    requires TokenInv(q, fds, conts, timers, pc) && pc.Run?
    ensures TokenInv(q + [Task(Some(pc.fiber), None, -1)], fds, conts, timers, Top)
  {
    var t := Task(Some(pc.fiber), None, -1);
    forall f: FiberId ensures Tokens(q + [t], fds, conts, timers, Top, f) == One(Alive(conts, f)) {
      AppendTokens(q, t, f);
      assert Tokens(q, fds, conts, timers, pc, f) == One(Alive(conts, f));
    }
  }

  lemma YieldStates(states: map<FiberId, FiberState>, conts: Conts, pc: Pc, cbFiber: Option<FiberId>)
    requires StateInv(states, conts, pc, cbFiber) && pc.Run? && conts[pc.fiber] == User
    ensures StateInv(states[pc.fiber := READY], conts, Top, if pc.viaCb then None else cbFiber)
  {
    LeaveStates(states, conts, pc, cbFiber, READY, User, if pc.viaCb then None else cbFiber);
    assert conts[pc.fiber := User] == conts;
  }

  lemma YieldKeeps(s: State)
    requires Inv(s) && InUser(s)
    ensures Inv(SwapOut(s, READY))
  {
    hide TokenInv, OwnerInv, FrameInv, TimerInv, QueueInv, CancelInv, IoInv;
    var t := Task(Some(s.pc.fiber), None, -1);
    YieldStates(s.states, s.conts, s.pc, s.cbFiber);
    AppendIo(s.io, t);
    AppendQueue(s.io.queue, t, s.conts, s.tinfo, s.clock, s.rolled);
    YieldTokens(s.io.queue, s.io.fds, s.conts, s.timers, s.pc);
    Together(SwapOut(s, READY));
  }

  lemma EndTokens(q: seq<Task>, fds: seq<FdContext>, conts: Conts, timers: T.Pending, pc: Pc)
    requires TokenInv(q, fds, conts, timers, pc) && pc.Run? && Alive(conts, pc.fiber)
    ensures TokenInv(q, fds, conts[pc.fiber := Ended], timers, Top)
  {
    var conts' := conts[pc.fiber := Ended];
    forall f: FiberId ensures Tokens(q, fds, conts', timers, Top, f) == One(Alive(conts', f)) {
      assert Tokens(q, fds, conts, timers, pc, f) == One(Alive(conts, f));
    }
  }

  /** The running fiber, outside any hooked call, may go to any such place. */
  lemma QuietPlace(s: State, c: Cont)
    requires Inv(s) && InUser(s) && (c == User || c == Ended)
    ensures var conts' := s.conts[s.pc.fiber := c];
            && OwnerInv(s.io.fds, conts')
            && FrameInv(conts', s.tinfo, s.usedCalls)
            && TimerInv(s.timers, conts', s.tinfo, s.usedTimers)
            && QueueInv(s.io.queue, conts', s.tinfo, s.clock, s.rolled)
            && CancelInv(s.tinfo, conts', s.clock, s.rolled)
  {
    RunningFree(s);
    PlainFrames(s.conts, s.tinfo, s.usedCalls, s.pc.fiber, c);
    ChangeAll(s, s.conts[s.pc.fiber := c], s.tinfo, s.pc.fiber);
  }

  lemma PlainFrames(conts: Conts, tinfo: Infos, used: set<nat>, f: FiberId, c: Cont)
    requires FrameInv(conts, tinfo, used) && f in conts && !Framed(conts[f]) && !Framed(c)
    ensures FrameInv(conts[f := c], tinfo, used) && Change(conts, tinfo, conts[f := c], tinfo, f)
  {
    assert forall k :: k in tinfo ==> CallOf(conts, tinfo, k);
  }

  lemma FinishKeeps(s: State, st: FiberState)
    requires Inv(s) && InUser(s) && Over(st)
    ensures Inv(SwapOut(s, st))
  {
    hide TokenInv, OwnerInv, FrameInv, TimerInv, QueueInv, CancelInv, IoInv;
    QuietPlace(s, Ended);
    EndTokens(s.io.queue, s.io.fds, s.conts, s.timers, s.pc);
    LeaveStates(s.states, s.conts, s.pc, s.cbFiber, if s.pc.viaCb then INIT else st, Ended, s.cbFiber);
    Together(SwapOut(s, st));
  }

  /** The assertions of YieldToReady and YieldToHold hold. */
  lemma RunsExec(s: State)
    requires Inv(s) && s.pc.Run?
    ensures Executing(s) && (s.conts[s.pc.fiber] == User || s.conts[s.pc.fiber].Retry?)
  {
    var f := s.pc.fiber;
    assert FiberOk(s.states[f], s.conts[f], true, s.cbFiber == Some(f));
  }

  // ------------------------------------------------------------------- sleeping

  lemma SleepTokens(q: seq<Task>, fds: seq<FdContext>, conts: Conts, timers: T.Pending, pc: Pc, e: T.Entry)
    requires TokenInv(q, fds, conts, timers, pc) && pc.Run? && Alive(conts, pc.fiber) && !conts[pc.fiber].Sleep?
    requires e.cb == WakeFiber(pc.fiber) && e.id !in timers
    requires forall f :: f in conts && conts[f].Sleep? ==> conts[f].alarm != e.id
    ensures TokenInv(q, fds, conts[pc.fiber := Sleep(e.id)], timers[e.id := e], Top)
  {
    var conts', timers' := conts[pc.fiber := Sleep(e.id)], timers[e.id := e];
    forall f: FiberId ensures Tokens(q, fds, conts', timers', Top, f) == One(Alive(conts', f)) {
      assert Tokens(q, fds, conts, timers, pc, f) == One(Alive(conts, f));
      assert f != pc.fiber ==> (Asleep(conts', timers', f) <==> Asleep(conts, timers, f));
    }
  }

  lemma AddEntry(timers: T.Pending, conts: Conts, tinfo: Infos, used: set<nat>, e: T.Entry)
    requires TimerInv(timers, conts, tinfo, used) && e.id in used && EntryOk(e, e.id, conts, tinfo)
    requires forall f :: f in conts && conts[f].Wait? && conts[f].timer == Some(e.id) ==> e.cb.Timeout?
    ensures TimerInv(timers[e.id := e], conts, tinfo, used)
  {
  }

  lemma MoreUsed(timers: T.Pending, conts: Conts, tinfo: Infos, used: set<nat>, a: nat)
    requires TimerInv(timers, conts, tinfo, used)
    ensures TimerInv(timers, conts, tinfo, used + {a})
  {
  }

  /** The parts about calls and closures when the running fiber goes to sleep. */
  lemma SleepPlace(s: State, e: T.Entry)
    requires Inv(s) && InUser(s) && e.id !in s.usedTimers
    requires e.cb == WakeFiber(s.pc.fiber) && !e.recurring && e.ms <= e.next < T.TWO_64
    ensures var conts' := s.conts[s.pc.fiber := Sleep(e.id)];
            && OwnerInv(s.io.fds, conts')
            && FrameInv(conts', s.tinfo, s.usedCalls)
            && TimerInv(s.timers[e.id := e], conts', s.tinfo, s.usedTimers + {e.id})
            && QueueInv(s.io.queue, conts', s.tinfo, s.clock, s.rolled)
            && CancelInv(s.tinfo, conts', s.clock, s.rolled)
  {
    hide TokenInv, StateInv, OwnerInv, QueueInv, CancelInv, FrameInv, IoInv;
    var f, used := s.pc.fiber, s.usedTimers + {e.id};
    var conts' := s.conts[f := Sleep(e.id)];
    RunningFree(s);
    PlainFrames(s.conts, s.tinfo, s.usedCalls, f, Sleep(e.id));
    ChangeOwner(s.io.fds, s.conts, conts', f);
    MoreUsed(s.timers, s.conts, s.tinfo, s.usedTimers, e.id);
    ChangeTimers(s.timers, s.conts, s.tinfo, conts', s.tinfo, used, f);
    NewAlarm(s, e);
    AddEntry(s.timers, conts', s.tinfo, used, e);
    ChangeQueue(s.io.queue, s.conts, s.tinfo, conts', s.tinfo, s.clock, s.rolled, f);
    ChangeCancel(s.conts, s.tinfo, conts', s.tinfo, s.clock, s.rolled, f);
  }

  /** A new timer is nobody's yet. */
  lemma NewAlarm(s: State, e: T.Entry)
    requires Inv(s) && e.id !in s.usedTimers
    ensures e.id !in s.timers
    ensures forall f :: f in s.conts && s.conts[f].Sleep? ==> s.conts[f].alarm != e.id
    ensures forall f :: f in s.conts && s.conts[f].Wait? ==> s.conts[f].timer != Some(e.id)
  {
  }

  lemma SlumberTokens(s: State, e: T.Entry)
    requires Inv(s) && InUser(s) && e.id !in s.usedTimers && e.cb == WakeFiber(s.pc.fiber)
    ensures TokenInv(s.io.queue, s.io.fds, s.conts[s.pc.fiber := Sleep(e.id)], s.timers[e.id := e], Top)
  {
    NewAlarm(s, e);
    SleepTokens(s.io.queue, s.io.fds, s.conts, s.timers, s.pc, e);
  }

  /** What YieldToHold leaves behind. */
  function Held(s: State): State
    requires s.pc.Run?
  {
    s.(active := s.active - 1, pc := Top, states := s.states[s.pc.fiber := HOLD],
       cbFiber := if s.pc.viaCb then None else s.cbFiber)
  }

  lemma SlumberShape(s: State, ms: nat, timer: nat)
    requires s.pc.Run? && Executing(s)
    ensures Slumber(s, ms, timer) ==
            Held(s).(timers := s.timers[timer := T.Entry(s.clock + ms, timer, ms, false, WakeFiber(s.pc.fiber))],
                     usedTimers := s.usedTimers + {timer}, conts := s.conts[s.pc.fiber := Sleep(timer)])
  {
  }

  /** A fiber on hold is not the worker's callback fiber. */
  lemma HoldCbFiber(states: map<FiberId, FiberState>, conts: Conts, pc: Pc, cbFiber: Option<FiberId>)
    requires StateInv(states, conts, pc, cbFiber) && pc.Run?
    ensures (if pc.viaCb then None else cbFiber) != Some(pc.fiber)
  {
  }

  lemma SleepKeeps(s: State, ms: nat, timer: nat)
    requires Inv(s) && InUser(s) && timer !in s.usedTimers && Fits(s.clock, ms)
    ensures Inv(Slumber(s, ms, timer))
  {
    hide TokenInv, StateInv, OwnerInv, FrameInv, TimerInv, QueueInv, CancelInv, IoInv, Slumber;
    var e := T.Entry(s.clock + ms, timer, ms, false, WakeFiber(s.pc.fiber));
    RunsExec(s);
    HoldCbFiber(s.states, s.conts, s.pc, s.cbFiber);
    SlumberShape(s, ms, timer);
    SleepPlace(s, e);
    SlumberTokens(s, e);
    LeaveStates(s.states, s.conts, s.pc, s.cbFiber, HOLD, Sleep(timer), if s.pc.viaCb then None else s.cbFiber);
    Together(Slumber(s, ms, timer));
  }

  // --------------------------------------------------------------- hooked calls

  lemma SameTokens(q: seq<Task>, fds: seq<FdContext>, conts: Conts, timers: T.Pending, pc: Pc, f: FiberId, c: Cont)
    requires TokenInv(q, fds, conts, timers, pc) && Alive(conts, f) && !conts[f].Sleep?
    requires c != Ended && !c.Sleep?
    ensures TokenInv(q, fds, conts[f := c], timers, pc)
  {
    var conts' := conts[f := c];
    forall g: FiberId ensures Tokens(q, fds, conts', timers, pc, g) == One(Alive(conts', g)) {
      assert Tokens(q, fds, conts, timers, pc, g) == One(Alive(conts, g));
    }
  }

  lemma StayStates(states: map<FiberId, FiberState>, conts: Conts, pc: Pc, cbFiber: Option<FiberId>, c: Cont)
    requires StateInv(states, conts, pc, cbFiber) && pc.Run? && (c == User || c.Retry?)
    ensures StateInv(states, conts[pc.fiber := c], pc, cbFiber)
  {
    assert FiberOk(states[pc.fiber], conts[pc.fiber], true, cbFiber == Some(pc.fiber));
  }

  lemma BeginFrames(conts: Conts, tinfo: Infos, used: set<nat>, f: FiberId, frame: Frame)
    requires FrameInv(conts, tinfo, used) && f in conts && !Framed(conts[f]) && frame.call !in used
    requires forall g :: g in conts ==> !OnWire(conts[g], frame.fd, frame.event)
    ensures var conts', tinfo' := conts[f := Retry(frame)], tinfo[frame.call := TimerInfo(0, f)];
            FrameInv(conts', tinfo', used + {frame.call}) && Change(conts, tinfo, conts', tinfo', f)
  {
    var conts', tinfo' := conts[f := Retry(frame)], tinfo[frame.call := TimerInfo(0, f)];
    forall c | c in tinfo' ensures CallOf(conts', tinfo', c) {
      assert c != frame.call ==> CallOf(conts, tinfo, c);
    }
  }

  lemma BeginPlace(s: State, frame: Frame)
    requires Inv(s) && InUser(s) && frame.call !in s.usedCalls && Unwatched(s, frame.fd, frame.event)
    ensures var conts', tinfo' := s.conts[s.pc.fiber := Retry(frame)], s.tinfo[frame.call := TimerInfo(0, s.pc.fiber)];
            && OwnerInv(s.io.fds, conts')
            && FrameInv(conts', tinfo', s.usedCalls + {frame.call})
            && TimerInv(s.timers, conts', tinfo', s.usedTimers)
            && QueueInv(s.io.queue, conts', tinfo', s.clock, s.rolled)
            && CancelInv(tinfo', conts', s.clock, s.rolled)
  {
    hide TokenInv, StateInv, OwnerInv, QueueInv, CancelInv, FrameInv, TimerInv;
    var f := s.pc.fiber;
    RunningFree(s);
    BeginFrames(s.conts, s.tinfo, s.usedCalls, f, frame);
    assert frame.fd < |s.io.fds| ==> FdOk(s.io.fds[frame.fd]);
    ChangeAll(s, s.conts[f := Retry(frame)], s.tinfo[frame.call := TimerInfo(0, f)], f);
  }

  lemma BeginKeeps(s: State, frame: Frame)
    requires Inv(s) && InUser(s) && frame.call !in s.usedCalls && Unwatched(s, frame.fd, frame.event)
    ensures Inv(Begin(s, frame))
  {
    hide TokenInv, OwnerInv, FrameInv, TimerInv, QueueInv, CancelInv, IoInv;
    BeginPlace(s, frame);
    SameTokens(s.io.queue, s.io.fds, s.conts, s.timers, s.pc, s.pc.fiber, Retry(frame));
    StayStates(s.states, s.conts, s.pc, s.cbFiber, Retry(frame));
    Together(Begin(s, frame));
  }

  lemma ReturnFrames(conts: Conts, tinfo: Infos, used: set<nat>, f: FiberId)
    requires FrameInv(conts, tinfo, used) && f in conts && Framed(conts[f])
    ensures var conts', tinfo' := conts[f := User], tinfo - {conts[f].frame.call};
            FrameInv(conts', tinfo', used) && Change(conts, tinfo, conts', tinfo', f)
  {
    var conts', tinfo' := conts[f := User], tinfo - {conts[f].frame.call};
    forall c | c in tinfo' ensures CallOf(conts', tinfo', c) {
      assert CallOf(conts, tinfo, c);
    }
    forall c | c in tinfo && tinfo[c].owner == f ensures c == conts[f].frame.call {
      assert CallOf(conts, tinfo, c);
    }
  }

  lemma ReturnPlace(s: State)
    requires Inv(s) && AtRetry(s)
    ensures var conts', tinfo' := s.conts[s.pc.fiber := User], s.tinfo - {s.conts[s.pc.fiber].frame.call};
            && OwnerInv(s.io.fds, conts')
            && FrameInv(conts', tinfo', s.usedCalls)
            && TimerInv(s.timers, conts', tinfo', s.usedTimers)
            && QueueInv(s.io.queue, conts', tinfo', s.clock, s.rolled)
            && CancelInv(tinfo', conts', s.clock, s.rolled)
  {
    var f := s.pc.fiber;
    RunningFree(s);
    ReturnFrames(s.conts, s.tinfo, s.usedCalls, f);
    ChangeAll(s, s.conts[f := User], s.tinfo - {s.conts[f].frame.call}, f);
  }

  lemma ReturnKeeps(s: State)
    requires Inv(s) && AtRetry(s)
    ensures Inv(Return(s, s.pc.fiber, s.conts[s.pc.fiber].frame.call))
  {
    hide TokenInv, OwnerInv, FrameInv, TimerInv, QueueInv, CancelInv, IoInv;
    ReturnPlace(s);
    SameTokens(s.io.queue, s.io.fds, s.conts, s.timers, s.pc, s.pc.fiber, User);
    StayStates(s.states, s.conts, s.pc, s.cbFiber, User);
    Together(Return(s, s.pc.fiber, s.conts[s.pc.fiber].frame.call));
  }

  // ------------------------------------------------------------------ blocking

  /** A successful addEvent puts one context into the table, grown if need be. */
  lemma AddTable(io: Io, fd: nat, ev: Event, w: Waiter)
    requires IoInv(io) && (fd < |io.fds| ==> !io.fds[fd].events.Has(ev))
    ensures var g, io' := Grow(io.fds, fd), AddEvent(io, fd, ev, w, false).0;
            && fd < |g| && FdOk(g[fd]) && !g[fd].events.Has(ev)
            && io'.queue == io.queue && io'.fds == g[fd := g[fd].Put(ev, true, ContextOf(w))]
  {
    GrowKeeps(io, fd);
    CtlAlwaysLegal(io.(fds := Grow(io.fds, fd)), fd);
    hide TableHandles, Bits, QueueHandles;
    assert FdOk(Grow(io.fds, fd)[fd]);
  }

  /** The new context is where it was put, and the others stay. */
  lemma AddContexts(fds: seq<FdContext>, fd: nat, ev: Event, ctx: EventContext)
    requires fd < |Grow(fds, fd)|
    ensures var g := Grow(fds, fd);
            var fds' := g[fd := g[fd].Put(ev, true, ctx)];
            && |fds'| >= |fds|
            && (forall i, e :: 0 <= i < |fds'| ==>
                  fds'[i].Get(e) == if i == fd && e == ev then ctx
                                    else if i < |fds| then fds[i].Get(e) else NOBODY)
  {
    var g := Grow(fds, fd);
    hide Grow;
    assert forall e :: g[fd].Put(ev, true, ctx).Get(e) == if e == ev then ctx else g[fd].Get(e);
  }

  /** The table holds one fiber more, if a fiber is waiting. */
  lemma AddCount(fds: seq<FdContext>, fd: nat, ev: Event, ctx: EventContext)
    requires fd < |Grow(fds, fd)| && Grow(fds, fd)[fd].Get(ev).fiber.None?
    ensures var g := Grow(fds, fd);
            TableHandles(g[fd := g[fd].Put(ev, true, ctx)]) == TableHandles(fds) + Handle(ctx.fiber)
  {
    GrowHandles(fds, fd);
    var g := Grow(fds, fd);
    var c := g[fd].Put(ev, true, ctx);
    AddHandles(g[fd], ev, ctx);
    GatherUpdate(g, fd, c, FdHandles);
    hide Grow, FdHandles, Handle;
    AddBalance(TableHandles(g), TableHandles(g[fd := c]), FdHandles(g[fd]), Handle(ctx.fiber));
  }

  /** What a successful addEvent does to the table. */
  lemma AddShape(io: Io, fd: nat, ev: Event, w: Waiter)
    requires IoInv(io) && (fd < |io.fds| ==> !io.fds[fd].events.Has(ev))
    ensures var io' := AddEvent(io, fd, ev, w, false).0;
            && io'.queue == io.queue
            && |io'.fds| >= |io.fds| && fd < |io'.fds|
            && (forall i, e :: 0 <= i < |io'.fds| ==>
                  io'.fds[i].Get(e) ==
                  if i == fd && e == ev then ContextOf(w)
                  else if i < |io.fds| then io.fds[i].Get(e) else NOBODY)
            && TableHandles(io'.fds) == TableHandles(io.fds) + Handle(ContextOf(w).fiber)
  {
    hide IoInv, AddEvent, Grow, TableHandles, Handle;
    AddTable(io, fd, ev, w);
    AddContexts(io.fds, fd, ev, ContextOf(w));
    AddCount(io.fds, fd, ev, ContextOf(w));
  }

  lemma AddHandles(c: FdContext, ev: Event, ctx: EventContext)
    requires c.Get(ev).fiber.None?
    ensures FdHandles(c.Put(ev, true, ctx)) == FdHandles(c) + Handle(ctx.fiber)
  {
    var r, w := Handle(c.read.fiber), Handle(c.write.fiber);
    var h := Handle(ctx.fiber);
    assert FdHandles(c.Put(ev, true, ctx)) == if ev == READ then h + w else r + h;
    assert FdHandles(c) == if ev == READ then w else r;
  }

  lemma AddBalance(t: multiset<FiberId>, t': multiset<FiberId>, x: multiset<FiberId>, h: multiset<FiberId>)
    requires t' + x == t + (x + h)
    ensures t' == t + h
  {
    forall f ensures t'[f] == (t + h)[f] {
      assert (t' + x)[f] == (t + (x + h))[f];
    }
  }

  /** The event of a call that is about to register is free. */
  lemma FreeWire(s: State)
    requires Inv(s) && AtRetry(s)
    ensures var fr := s.conts[s.pc.fiber].frame;
            fr.fd < |s.io.fds| ==>
              !s.io.fds[fr.fd].events.Has(fr.event) && s.io.fds[fr.fd].Get(fr.event) == NOBODY
  {
    var f := s.pc.fiber;
    var fr := s.conts[f].frame;
    if fr.fd < |s.io.fds| {
      var ctx := s.io.fds[fr.fd].Get(fr.event);
      assert OwnerOk(ctx, fr.fd, fr.event, s.conts) && FdOk(s.io.fds[fr.fd]);
      assert OnWire(s.conts[f], fr.fd, fr.event);
    }
  }

  lemma BlockFrames(conts: Conts, tinfo: Infos, used: set<nat>, clock: nat, rolled: nat,
                    f: FiberId, w: Cont)
    requires FrameInv(conts, tinfo, used) && f in conts && conts[f].Retry?
    requires w.Wait? && w.frame == conts[f].frame
    requires CancelInv(tinfo, conts, clock, rolled)
    ensures var conts' := conts[f := w];
            FrameInv(conts', tinfo, used) && Change(conts, tinfo, conts', tinfo, f)
  {
    var conts' := conts[f := w];
    forall c | c in tinfo ensures CallOf(conts', tinfo, c) {
      assert CallOf(conts, tinfo, c);
    }
  }

  lemma BlockOwner(fds: seq<FdContext>, fds': seq<FdContext>, conts: Conts, f: FiberId, w: Cont)
    requires OwnerInv(fds, conts) && Unregistered(fds, f) && f in conts && conts[f].Retry?
    requires w.Wait? && w.frame == conts[f].frame
    requires |fds'| >= |fds|
    requires var fr := conts[f].frame;
             forall i, e :: 0 <= i < |fds'| ==>
               fds'[i].Get(e) == if i == fr.fd && e == fr.event then EventContext(true, Some(f), None)
                                 else if i < |fds| then fds[i].Get(e) else NOBODY
    ensures OwnerInv(fds', conts[f := w])
  {
    var fr := conts[f].frame;
    var conts' := conts[f := w];
    forall i, e | 0 <= i < |fds'| ensures OwnerOk(fds'[i].Get(e), i, e, conts') {
      if !(i == fr.fd && e == fr.event) && i < |fds| {
        assert OwnerOk(fds[i].Get(e), i, e, conts);
      }
    }
  }

  lemma BlockTokens(q: seq<Task>, fds: seq<FdContext>, fds': seq<FdContext>, conts: Conts,
                    timers: T.Pending, timers': T.Pending, pc: Pc, c: Cont)
    requires TokenInv(q, fds, conts, timers, pc) && pc.Run? && Alive(conts, pc.fiber) && !conts[pc.fiber].Sleep?
    requires c.Wait? && TableHandles(fds') == TableHandles(fds) + multiset{pc.fiber}
    requires forall f :: f in conts ==> (Asleep(conts, timers', f) <==> Asleep(conts, timers, f))
    ensures TokenInv(q, fds', conts[pc.fiber := c], timers', Top)
  {
    var conts' := conts[pc.fiber := c];
    forall f: FiberId ensures Tokens(q, fds', conts', timers', Top, f) == One(Alive(conts', f)) {
      assert Tokens(q, fds, conts, timers, pc, f) == One(Alive(conts, f));
      assert f != pc.fiber ==> (Asleep(conts', timers', f) <==> Asleep(conts, timers', f));
    }
  }

  function Waiting(s: State, timer: nat): Cont
    requires AtRetry(s)
  {
    var fr := s.conts[s.pc.fiber].frame;
    Wait(fr, if fr.timeout.Some? then Some(timer) else None, s.clock, s.rolled)
  }

  lemma BlockPlace(s: State, timer: nat)
    requires Inv(s) && AtRetry(s) && timer !in s.usedTimers
    requires s.conts[s.pc.fiber].frame.timeout.Some? ==> Fits(s.clock, s.conts[s.pc.fiber].frame.timeout.value)
    ensures var conts' := s.conts[s.pc.fiber := Waiting(s, timer)];
            && FrameInv(conts', s.tinfo, s.usedCalls)
            && TimerInv(ArmedWith(s, timer), conts', s.tinfo, s.usedTimers + {timer})
            && QueueInv(s.io.queue, conts', s.tinfo, s.clock, s.rolled)
            && CancelInv(s.tinfo, conts', s.clock, s.rolled)
  {
    hide TokenInv, StateInv, OwnerInv, QueueInv, IoInv;
    var f, used, c := s.pc.fiber, s.usedTimers + {timer}, Waiting(s, timer);
    var conts' := s.conts[f := c];
    RunningFree(s);
    BlockFrames(s.conts, s.tinfo, s.usedCalls, s.clock, s.rolled, f, c);
    MoreUsed(s.timers, s.conts, s.tinfo, s.usedTimers, timer);
    assert timer !in s.timers;
    ChangeTimers(s.timers, s.conts, s.tinfo, conts', s.tinfo, used, f);
    if c.timer.Some? {
      assert CallOf(conts', s.tinfo, c.frame.call);
      AddEntry(s.timers, conts', s.tinfo, used, TimeoutOf(s, timer));
    }
    ChangeQueue(s.io.queue, s.conts, s.tinfo, conts', s.tinfo, s.clock, s.rolled, f);
    ChangeCancel(s.conts, s.tinfo, conts', s.tinfo, s.clock, s.rolled, f);
  }

  lemma BlockIo(s: State, timer: nat)
    requires Inv(s) && AtRetry(s)
    ensures var f, fr := s.pc.fiber, s.conts[s.pc.fiber].frame;
            var (io1, ok) := AddEvent(s.io, fr.fd, fr.event, WaitFiber(f, s.states[f]), false);
            && ok && IoInv(io1) && io1.queue == s.io.queue
            && OwnerInv(io1.fds, s.conts[f := Waiting(s, timer)])
            && TableHandles(io1.fds) == TableHandles(s.io.fds) + multiset{f}
  {
    hide TokenInv, StateInv, FrameInv, TimerInv, QueueInv, CancelInv, AddEvent, OwnerInv;
    var f, fr := s.pc.fiber, s.conts[s.pc.fiber].frame;
    var w := WaitFiber(f, s.states[f]);
    FreeWire(s);
    RunsExec(s);
    RunningFree(s);
    AddKeeps(s.io, fr.fd, fr.event, w, false);
    AddShape(s.io, fr.fd, fr.event, w);
    var io1 := AddEvent(s.io, fr.fd, fr.event, w, false).0;
    BlockOwner(s.io.fds, io1.fds, s.conts, f, Waiting(s, timer));
  }

  lemma BlockToken(s: State, timer: nat, fds': seq<FdContext>)
    requires Inv(s) && AtRetry(s) && timer !in s.usedTimers
    requires TableHandles(fds') == TableHandles(s.io.fds) + multiset{s.pc.fiber}
    ensures TokenInv(s.io.queue, fds', s.conts[s.pc.fiber := Waiting(s, timer)], ArmedWith(s, timer), Top)
  {
    assert timer !in s.timers;
    BlockTokens(s.io.queue, s.io.fds, fds', s.conts, s.timers, ArmedWith(s, timer), s.pc, Waiting(s, timer));
  }

  /** The state after a hooked call suspended its fiber. */
  function Suspended(s: State, timer: nat, io: Io): State
    requires AtRetry(s)
  {
    Held(s).(io := io, timers := ArmedWith(s, timer), usedTimers := s.usedTimers + {timer},
             conts := s.conts[s.pc.fiber := Waiting(s, timer)])
  }

  lemma BlockShape(s: State, timer: nat)
    requires AtRetry(s)
    ensures var f, fr := s.pc.fiber, s.conts[s.pc.fiber].frame;
            var (io1, ok) := AddEvent(s.io, fr.fd, fr.event, WaitFiber(f, s.states[f]), false);
            ok ==> Block(s, timer, false) == Suspended(s, timer, io1)
  {
    hide AddEvent;
  }

  lemma BlockKeeps(s: State, timer: nat)
    requires Inv(s) && AtRetry(s) && timer !in s.usedTimers
    requires s.conts[s.pc.fiber].frame.timeout.Some? ==> Fits(s.clock, s.conts[s.pc.fiber].frame.timeout.value)
    ensures Inv(Block(s, timer, false))
  {
    hide TokenInv, OwnerInv, FrameInv, TimerInv, QueueInv, CancelInv, IoInv, AddEvent;
    var f, fr := s.pc.fiber, s.conts[s.pc.fiber].frame;
    var io1 := AddEvent(s.io, fr.fd, fr.event, WaitFiber(f, s.states[f]), false).0;
    BlockIo(s, timer);
    BlockPlace(s, timer);
    BlockToken(s, timer, io1.fds);
    LeaveStates(s.states, s.conts, s.pc, s.cbFiber, HOLD, Waiting(s, timer), if s.pc.viaCb then None else s.cbFiber);
    RunsExec(s);
    BlockShape(s, timer);
    BlockWorker(s, timer, io1);
    Together(Suspended(s, timer, io1));
  }

  lemma BlockWorker(s: State, timer: nat, io: Io)
    requires WorkerInv(s) && AtRetry(s)
    ensures WorkerInv(Suspended(s, timer, io))
  {
  }

  /** The timer the round armed is the one that is cancelled. */
  lemma DisarmArmed(s: State, timer: nat)
    requires Inv(s) && AtRetry(s) && timer !in s.usedTimers
    ensures Disarm(ArmedWith(s, timer), Waiting(s, timer).timer) == s.timers
  {
    hide TokenInv, StateInv, OwnerInv, FrameInv, QueueInv, CancelInv, IoInv;
    assert timer !in s.timers;
  }

  lemma RefusedShape(s: State, timer: nat)
    requires AtRetry(s)
    ensures var f, fr := s.pc.fiber, s.conts[s.pc.fiber].frame;
            var (io1, ok) := AddEvent(s.io, fr.fd, fr.event, WaitFiber(f, s.states[f]), true);
            !ok ==> Block(s, timer, true) ==
                    Return(s.(io := io1, usedTimers := s.usedTimers + {timer},
                              timers := Disarm(ArmedWith(s, timer), Waiting(s, timer).timer)), f, fr.call)
  {
    hide AddEvent;
  }

  /** addEvent was refused: the call fails and leaves nothing behind.  The timer it
      had armed is out of the set again, every registration is as it was, nothing
      was queued, and the call and its `timer_info` are gone. */
  lemma RefusedKeeps(s: State, timer: nat)
    requires Inv(s) && AtRetry(s) && timer !in s.usedTimers
    ensures var s' := Block(s, timer, true);
            && Inv(s')
            && s'.timers == s.timers
            && s'.io.queue == s.io.queue && s'.io.epoll == s.io.epoll && s'.io.pending == s.io.pending
            && |s'.io.fds| >= |s.io.fds|
            && (forall i, e :: 0 <= i < |s'.io.fds| ==>
                  s'.io.fds[i].Get(e) == if i < |s.io.fds| then s.io.fds[i].Get(e) else NOBODY)
            && s'.conts == s.conts[s.pc.fiber := User]
            && s'.tinfo == s.tinfo - {s.conts[s.pc.fiber].frame.call}
  {
    hide TokenInv, StateInv, OwnerInv, FrameInv, TimerInv, QueueInv, CancelInv, IoInv, AddEvent, Grow, Block,
         ArmedWith, Waiting, Disarm;
    var f, fr := s.pc.fiber, s.conts[s.pc.fiber].frame;
    FreeWire(s);
    RefusedIo(s.io, fr.fd, fr.event, WaitFiber(f, s.states[f]));
    RefusedShape(s, timer);
    DisarmArmed(s, timer);
    GrownKeeps(s, fr.fd, timer);
    ReturnKeeps(s.(io := s.io.(fds := Grow(s.io.fds, fr.fd)), usedTimers := s.usedTimers + {timer}));
  }

  lemma RefusedIo(io: Io, fd: nat, ev: Event, w: Waiter)
    requires IoInv(io) && (fd < |io.fds| ==> !io.fds[fd].events.Has(ev))
    ensures AddEvent(io, fd, ev, w, true) == (io.(fds := Grow(io.fds, fd)), false)
  {
    GrowKeeps(io, fd);
    CtlAlwaysLegal(io.(fds := Grow(io.fds, fd)), fd);
    assert fd < |io.fds| || Grow(io.fds, fd)[fd] == FRESH_FD;
  }

  lemma GrownOwner(fds: seq<FdContext>, fd: nat, conts: Conts)
    requires OwnerInv(fds, conts)
    ensures OwnerInv(Grow(fds, fd), conts)
  {
    var g := Grow(fds, fd);
    forall i, e | 0 <= i < |g| ensures OwnerOk(g[i].Get(e), i, e, conts) {
      if i < |fds| {
        assert OwnerOk(fds[i].Get(e), i, e, conts);
      }
    }
  }

  lemma GrownTokens(q: seq<Task>, fds: seq<FdContext>, fd: nat, conts: Conts, timers: T.Pending, pc: Pc)
    requires TokenInv(q, fds, conts, timers, pc)
    ensures TokenInv(q, Grow(fds, fd), conts, timers, pc)
  {
    GrowHandles(fds, fd);
    forall f: FiberId ensures Tokens(q, Grow(fds, fd), conts, timers, pc, f) == One(Alive(conts, f)) {
      assert Tokens(q, fds, conts, timers, pc, f) == One(Alive(conts, f));
    }
  }

  lemma GrownKeeps(s: State, fd: nat, timer: nat)
    requires Inv(s)
    ensures Inv(s.(io := s.io.(fds := Grow(s.io.fds, fd)), usedTimers := s.usedTimers + {timer}))
  {
    hide TokenInv, StateInv, OwnerInv, FrameInv, TimerInv, QueueInv, CancelInv, IoInv;
    GrowKeeps(s.io, fd);
    GrownOwner(s.io.fds, fd, s.conts);
    GrownTokens(s.io.queue, s.io.fds, fd, s.conts, s.timers, s.pc);
    MoreUsed(s.timers, s.conts, s.tinfo, s.usedTimers, timer);
    Together(s.(io := s.io.(fds := Grow(s.io.fds, fd)), usedTimers := s.usedTimers + {timer}));
  }
}

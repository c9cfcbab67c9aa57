/** The worker loop and the idle fiber keep the invariant. */
module RuntimeTurns {
  import opened Types
  import opened Gathering
  import opened TaskQueue
  import opened EventTable
  import opened Runtime
  import opened RuntimeInvariant
  import opened RuntimeSteps
  import opened RuntimeRequests
  import T = TimerSet

  // ------------------------------------------------------ resuming a queued fiber

  /** Where a resumed fiber goes on, what remains of the calls and the timers. */
  function LandCont(c: Cont, cancelled: bool): Cont {
    if c.Wait? && !cancelled && c.frame.kind == DoIo then Retry(c.frame) else User
  }

  predicate Cancelled(c: Cont, tinfo: Infos) {
    c.Wait? && c.frame.call in tinfo && tinfo[c.frame.call].cancelled != 0
  }

  function LandInfo(c: Cont, tinfo: Infos): Infos {
    if c.Wait? && LandCont(c, Cancelled(c, tinfo)).User? then tinfo - {c.frame.call} else tinfo
  }

  function Disarmed(c: Cont, timers: T.Pending): T.Pending {
    if c.Wait? then Disarm(timers, c.timer) else timers
  }

  /** The state in which the fiber of the `k`-th task runs. */
  function Resumed(s: State, k: nat, f: FiberId): State
    requires k < |s.io.queue| && f in s.conts
  {
    var c := s.conts[f];
    s.(io := s.io.(queue := Without(s.io.queue, k)),
       states := s.states[f := EXEC], active := s.active + 1, pc := Run(f, false),
       timers := Disarmed(c, s.timers),
       conts := s.conts[f := LandCont(c, Cancelled(c, s.tinfo))],
       tinfo := LandInfo(c, s.tinfo))
  }

  predicate Suspends(c: Cont) {
    c == User || c.Wait? || c.Sleep?
  }

  lemma ResumeShape(s: State, f: FiberId)
    requires f in s.conts && Suspends(s.conts[f])
    ensures var c := s.conts[f];
            Resume(s, f) == s.(timers := Disarmed(c, s.timers),
                               conts := s.conts[f := LandCont(c, Cancelled(c, s.tinfo))],
                               tinfo := LandInfo(c, s.tinfo))
  {
    if s.conts[f] == User {
      assert s.conts[f := User] == s.conts;
    }
  }

  /** A queued fiber is suspended, alive and in no other place. */
  lemma QueuedFiber(s: State, k: nat)
    requires Inv(s) && s.pc.Top? && k < |s.io.queue| && s.io.queue[k].fiber.Some?
    ensures var f := s.io.queue[k].fiber.value;
            && f in s.conts && f in s.states && Suspends(s.conts[f])
            && !Over(s.states[f]) && s.states[f] != EXEC && s.cbFiber != Some(f)
            && QueueHandles(s.io.queue)[f] == 1 && QueueWakes(s.io.queue)[f] == 0
            && TableHandles(s.io.fds)[f] == 0 && !Asleep(s.conts, s.timers, f)
  {
    hide OwnerInv, FrameInv, TimerInv, QueueInv, CancelInv, IoInv;
    var f := s.io.queue[k].fiber.value;
    RemoveTokens(s.io.queue, k, f);
    assert Tokens(s.io.queue, s.io.fds, s.conts, s.timers, s.pc, f) == One(Alive(s.conts, f));
    assert FiberOk(s.states[f], s.conts[f], false, s.cbFiber == Some(f));
  }

  /** No timeout of the picked fiber is queued: one before it would have been
      picked, and none stands after it. */
  lemma NoTimeoutLeft(q: seq<Task>, k: nat, thread: int, states: map<FiberId, FiberState>,
                      conts: Conts, tinfo: Infos, clock: nat, rolled: nat)
    requires QueueInv(q, conts, tinfo, clock, rolled) && QueueOk(q)
    requires k == Pick(q, thread, states) && k < |q| && q[k].fiber.Some?
    requires QueueWakes(q)[q[k].fiber.value] == 0
    ensures Unqueued(Without(q, k), tinfo, q[k].fiber.value)
  {
    NotWoken(q, q[k].fiber.value);
    var r, f := Without(q, k), q[k].fiber.value;
    forall i | 0 <= i < |r| && r[i].cb.Some? ensures !Concerns(r[i].cb.value, tinfo, f) {
      var j := if i < k then i else i + 1;
      assert q[j] == r[i];
      if IsTimeout(q[j]) {
        assert TaskOk(q[j], conts, tinfo, clock, rolled) && NonNull(q[j]);
        assert Takeable(q[j], thread, states);
        assert InOrder(q[k], q[j], tinfo);
      }
    }
  }

  /** Once its own timer is out, no pending timer concerns a resumed fiber. */
  lemma NoTimerLeft(timers: T.Pending, conts: Conts, tinfo: Infos, used: set<nat>, f: FiberId)
    requires TimerInv(timers, conts, tinfo, used) && f in conts && !Asleep(conts, timers, f)
    ensures Unarmed(Disarmed(conts[f], timers), tinfo, f)
    ensures TimerInv(Disarmed(conts[f], timers), conts, tinfo, used)
  {
    var timers' := Disarmed(conts[f], timers);
    forall a | a in timers' ensures !Concerns(timers'[a].cb, tinfo, f) {
      assert EntryOk(timers[a], a, conts, tinfo);
    }
  }

  lemma RetryFrames(conts: Conts, tinfo: Infos, used: set<nat>, f: FiberId)
    requires FrameInv(conts, tinfo, used) && f in conts && conts[f].Wait? && !Cancelled(conts[f], tinfo)
    ensures var conts' := conts[f := Retry(conts[f].frame)];
            FrameInv(conts', tinfo, used) && Change(conts, tinfo, conts', tinfo, f)
  {
    var conts' := conts[f := Retry(conts[f].frame)];
    forall c | c in tinfo ensures CallOf(conts', tinfo, c) {
      assert CallOf(conts, tinfo, c);
    }
  }

  lemma LandFrames(conts: Conts, tinfo: Infos, used: set<nat>, f: FiberId)
    requires FrameInv(conts, tinfo, used) && f in conts && Suspends(conts[f])
    ensures var conts' := conts[f := LandCont(conts[f], Cancelled(conts[f], tinfo))];
            var tinfo' := LandInfo(conts[f], tinfo);
            FrameInv(conts', tinfo', used) && Change(conts, tinfo, conts', tinfo', f)
  {
    hide FrameInv;
    if !conts[f].Wait? {
      PlainFrames(conts, tinfo, used, f, User);
    } else if LandCont(conts[f], Cancelled(conts[f], tinfo)).User? {
      ReturnFrames(conts, tinfo, used, f);
    } else {
      RetryFrames(conts, tinfo, used, f);
    }
  }

  lemma LandTokens(q: seq<Task>, k: nat, fds: seq<FdContext>, conts: Conts, timers: T.Pending, timers': T.Pending,
                   f: FiberId, c: Cont)
    requires TokenInv(q, fds, conts, timers, Top) && k < |q| && q[k] == Task(Some(f), None, q[k].thread)
    requires Alive(conts, f) && (c == User || c.Retry?)
    requires forall a :: (a in timers && timers[a].cb.WakeFiber?) || (a in timers' && timers'[a].cb.WakeFiber?) ==>
               a in timers && a in timers' && timers[a].cb == timers'[a].cb
    ensures TokenInv(Without(q, k), fds, conts[f := c], timers', Run(f, false))
  {
    var q', conts' := Without(q, k), conts[f := c];
    forall g: FiberId ensures Tokens(q', fds, conts', timers', Run(f, false), g) == One(Alive(conts', g)) {
      RemoveTokens(q, k, g);
      assert Tokens(q, fds, conts, timers, Top, g) == One(Alive(conts, g));
      assert Asleep(conts, timers', g) <==> Asleep(conts, timers, g);
    }
  }

  lemma LandStates(states: map<FiberId, FiberState>, conts: Conts, cbFiber: Option<FiberId>, f: FiberId, c: Cont)
    requires StateInv(states, conts, Top, cbFiber) && f in conts && cbFiber != Some(f) && (c == User || c.Retry?)
    ensures StateInv(states[f := EXEC], conts[f := c], Run(f, false), cbFiber)
  {
  }

  lemma LandPlace(s: State, f: FiberId)
    requires Inv(s) && s.pc.Top? && Picked(s) < |s.io.queue| && s.io.queue[Picked(s)].fiber == Some(f)
    requires f in s.conts && Suspends(s.conts[f]) && TableHandles(s.io.fds)[f] == 0 && !Asleep(s.conts, s.timers, f)
    requires QueueWakes(s.io.queue)[f] == 0
    ensures var s' := Resumed(s, Picked(s), f);
            && OwnerInv(s'.io.fds, s'.conts)
            && FrameInv(s'.conts, s'.tinfo, s'.usedCalls)
            && TimerInv(s'.timers, s'.conts, s'.tinfo, s'.usedTimers)
            && QueueInv(s'.io.queue, s'.conts, s'.tinfo, s'.clock, s'.rolled)
            && CancelInv(s'.tinfo, s'.conts, s'.clock, s'.rolled)
  {
    hide TokenInv, StateInv, FrameInv, TimerInv, QueueInv, CancelInv, Change;
    var k, c := Picked(s), s.conts[f];
    var s' := Resumed(s, k, f);
    LandFrames(s.conts, s.tinfo, s.usedCalls, f);
    NoHandle(s.io.fds, f);
    LandOwner(s.io.fds, s.conts, s'.conts, s.tinfo, s'.tinfo, f);
    NoTimerLeft(s.timers, s.conts, s.tinfo, s.usedTimers, f);
    ChangeTimers(s'.timers, s.conts, s.tinfo, s'.conts, s'.tinfo, s.usedTimers, f);
    NoTimeoutLeft(s.io.queue, k, s.thread, s.states, s.conts, s.tinfo, s.clock, s.rolled);
    RemoveQueue(s.io.queue, k, s.conts, s.tinfo, s.clock, s.rolled);
    ChangeQueue(s'.io.queue, s.conts, s.tinfo, s'.conts, s'.tinfo, s.clock, s.rolled, f);
    ChangeCancel(s.conts, s.tinfo, s'.conts, s'.tinfo, s.clock, s.rolled, f);
  }

  lemma LandOwner(fds: seq<FdContext>, conts: Conts, conts': Conts, tinfo: Infos, tinfo': Infos, f: FiberId)
    requires OwnerInv(fds, conts) && Unregistered(fds, f) && f in conts && f in conts'
    requires Change(conts, tinfo, conts', tinfo', f)
    requires Framed(conts'[f]) ==> conts[f].Wait? && conts'[f].frame == conts[f].frame
    ensures OwnerInv(fds, conts')
  {
    if Framed(conts'[f]) {
      var fr := conts'[f].frame;
      assert fr.fd < |fds| ==> OwnerOk(fds[fr.fd].Get(fr.event), fr.fd, fr.event, conts);
      assert OnWire(conts[f], fr.fd, fr.event);
    }
    ChangeOwner(fds, conts, conts', f);
  }

  lemma DisarmedWakes(timers: T.Pending, conts: Conts, tinfo: Infos, used: set<nat>, f: FiberId)
    requires TimerInv(timers, conts, tinfo, used) && f in conts
    ensures var timers' := Disarmed(conts[f], timers);
            forall a :: (a in timers && timers[a].cb.WakeFiber?) || (a in timers' && timers'[a].cb.WakeFiber?) ==>
              a in timers && a in timers' && timers[a].cb == timers'[a].cb
  {
  }

  lemma RemoveIo(io: Io, k: nat)
    requires IoInv(io) && k < |io.queue|
    ensures IoInv(io.(queue := Without(io.queue, k)))
  {
  }

  lemma ResumedTokens(s: State, k: nat, f: FiberId)
    requires Inv(s) && s.pc.Top? && k < |s.io.queue| && s.io.queue[k].fiber == Some(f)
    requires f in s.conts && Suspends(s.conts[f])
    ensures var s' := Resumed(s, k, f);
            && TokenInv(s'.io.queue, s'.io.fds, s'.conts, s'.timers, s'.pc)
            && IoInv(s'.io)
  {
    assert NonNull(s.io.queue[k]);
    hide TokenInv, StateInv, OwnerInv, FrameInv, TimerInv, QueueInv, CancelInv, IoInv, WorkerInv, Without,
         Disarmed, Cancelled, LandInfo, Asleep;
    var s' := Resumed(s, k, f);
    DisarmedWakes(s.timers, s.conts, s.tinfo, s.usedTimers, f);
    LandTokens(s.io.queue, k, s.io.fds, s.conts, s.timers, s'.timers, f, s'.conts[f]);
    RemoveIo(s.io, k);
  }

  lemma ResumedWorker(s: State, k: nat, f: FiberId)
    requires WorkerInv(s) && s.pc.Top? && s.io.queue != [] && k < |s.io.queue| && f in s.conts
    ensures WorkerInv(Resumed(s, k, f))
  {
    hide Without, Disarmed, Cancelled, LandInfo, LandCont, IdleQueue;
  }

  lemma ResumedKeeps(s: State, f: FiberId)
    requires Inv(s) && s.pc.Top? && Picked(s) < |s.io.queue| && s.io.queue[Picked(s)].fiber == Some(f)
    ensures f in s.conts && Inv(Resumed(s, Picked(s), f))
  {
    hide TokenInv, StateInv, OwnerInv, FrameInv, TimerInv, QueueInv, CancelInv, IoInv, WorkerInv, Picked, Without,
         Disarmed, Cancelled, LandInfo, Asleep;
    var k := Picked(s);
    QueuedFiber(s, k);
    var s' := Resumed(s, k, f);
    LandPlace(s, f);
    ResumedTokens(s, k, f);
    LandStates(s.states, s.conts, s.cbFiber, f, s'.conts[f]);
    ResumedWorker(s, k, f);
    hide LandCont;
    Together(s');
  }

  // ------------------------------------------------------------ running a callback

  lemma AcquireTokens(q: seq<Task>, fds: seq<FdContext>, conts: Conts, timers: T.Pending, g: FiberId)
    requires TokenInv(q, fds, conts, timers, Top) && !Alive(conts, g)
    ensures TokenInv(q, fds, conts[g := User], timers, Run(g, true))
  {
    var conts' := conts[g := User];
    forall f: FiberId ensures Tokens(q, fds, conts', timers, Run(g, true), f) == One(Alive(conts', f)) {
      assert Tokens(q, fds, conts, timers, Top, f) == One(Alive(conts, f));
    }
  }

  lemma AcquireStates(states: map<FiberId, FiberState>, conts: Conts, cbFiber: Option<FiberId>, newFiber: FiberId)
    requires StateInv(states, conts, Top, cbFiber) && newFiber !in conts
    ensures var g := if cbFiber.Some? then cbFiber.value else newFiber;
            && !Alive(conts, g) && (cbFiber.Some? ==> g in states && states[g] == INIT)
            && StateInv(states[g := EXEC], conts[g := User], Run(g, true), Some(g))
  {
    if cbFiber.Some? {
      var g := cbFiber.value;
      assert FiberOk(states[g], conts[g], false, true);
    }
  }

  lemma AcquireKeeps(s: State, newFiber: FiberId)
    requires Inv(s) && s.pc.Top? && s.idle != TERM && newFiber !in s.conts
    ensures Inv(Acquire(s, newFiber)) && InUser(Acquire(s, newFiber))
  {
    hide TokenInv, StateInv, OwnerInv, FrameInv, TimerInv, QueueInv, CancelInv, IoInv, Change;
    var g := if s.cbFiber.Some? then s.cbFiber.value else newFiber;
    AcquireStates(s.states, s.conts, s.cbFiber, newFiber);
    DeadFree(s, g);
    WakenFrames(s.conts, s.tinfo, s.usedCalls, g);
    ChangeAll(s, s.conts[g := User], s.tinfo, g);
    AcquireTokens(s.io.queue, s.io.fds, s.conts, s.timers, g);
    assert Acquire(s, newFiber).io == s.io;
    Together(Acquire(s, newFiber));
  }

  lemma RemovedTokens(q: seq<Task>, k: nat, fds: seq<FdContext>, conts: Conts, timers: T.Pending, pc: Pc)
    requires TokenInv(q, fds, conts, timers, pc) && k < |q|
    requires q[k].fiber.None? && (q[k].cb.Some? ==> !q[k].cb.value.WakeFiber?)
    ensures TokenInv(Without(q, k), fds, conts, timers, pc)
  {
    forall f: FiberId ensures Tokens(Without(q, k), fds, conts, timers, pc, f) == One(Alive(conts, f)) {
      RemoveTokens(q, k, f);
      assert Tokens(q, fds, conts, timers, pc, f) == One(Alive(conts, f));
    }
  }

  /** A task that is no wake token leaves the queue. */
  lemma RemovedKeeps(s: State, k: nat)
    requires Inv(s) && s.pc.Top? && k < |s.io.queue|
    requires s.io.queue[k].fiber.None? && (s.io.queue[k].cb.Some? ==> !s.io.queue[k].cb.value.WakeFiber?)
    ensures Inv(s.(io := s.io.(queue := Without(s.io.queue, k))))
  {
    hide TokenInv, StateInv, OwnerInv, FrameInv, TimerInv, QueueInv, CancelInv, IoInv, Without;
    RemovedTokens(s.io.queue, k, s.io.fds, s.conts, s.timers, s.pc);
    RemoveQueue(s.io.queue, k, s.conts, s.tinfo, s.clock, s.rolled);
    RemoveIo(s.io, k);
    Together(s.(io := s.io.(queue := Without(s.io.queue, k))));
  }

  lemma WakenTokens(q: seq<Task>, k: nat, fds: seq<FdContext>, conts: Conts, timers: T.Pending, pc: Pc, f: FiberId)
    requires TokenInv(q, fds, conts, timers, pc) && k < |q|
    requires q[k].fiber.None? && q[k].cb == Some(WakeFiber(f))
    ensures TokenInv(Without(q, k) + [Task(Some(f), None, -1)], fds, conts, timers, pc)
  {
    var t := Task(Some(f), None, -1);
    forall g: FiberId ensures Tokens(Without(q, k) + [t], fds, conts, timers, pc, g) == One(Alive(conts, g)) {
      RemoveTokens(q, k, g);
      AppendTokens(Without(q, k), t, g);
      assert Tokens(q, fds, conts, timers, pc, g) == One(Alive(conts, g));
    }
  }

  /** A wake-up callback is traded for the fiber it wakes. */
  lemma WakenKeeps(s: State, k: nat, f: FiberId)
    requires Inv(s) && s.pc.Top? && k < |s.io.queue|
    requires s.io.queue[k].fiber.None? && s.io.queue[k].cb == Some(WakeFiber(f))
    ensures Inv(s.(io := s.io.(queue := Without(s.io.queue, k) + [Task(Some(f), None, -1)])))
  {
    hide TokenInv, StateInv, OwnerInv, FrameInv, TimerInv, QueueInv, CancelInv, IoInv, Without;
    var t := Task(Some(f), None, -1);
    var r := Without(s.io.queue, k);
    WakenTokens(s.io.queue, k, s.io.fds, s.conts, s.timers, s.pc, f);
    RemoveQueue(s.io.queue, k, s.conts, s.tinfo, s.clock, s.rolled);
    AppendQueue(r, t, s.conts, s.tinfo, s.clock, s.rolled);
    RemoveIo(s.io, k);
    AppendIo(s.io.(queue := r), t);
    Together(s.(io := s.io.(queue := r + [t])));
  }

  // --------------------------------------------------------------- a timeout fires

  lemma MarkedFrames(conts: Conts, tinfo: Infos, used: set<nat>, c: nat)
    requires FrameInv(conts, tinfo, used) && c in tinfo
    ensures FrameInv(conts, tinfo[c := tinfo[c].(cancelled := ETIMEDOUT)], used)
  {
    var tinfo' := tinfo[c := tinfo[c].(cancelled := ETIMEDOUT)];
    forall d | d in tinfo' ensures CallOf(conts, tinfo', d) {
      assert CallOf(conts, tinfo, d);
    }
  }

  lemma MarkedTimers(timers: T.Pending, conts: Conts, tinfo: Infos, used: set<nat>, c: nat)
    requires TimerInv(timers, conts, tinfo, used) && c in tinfo
    ensures TimerInv(timers, conts, tinfo[c := tinfo[c].(cancelled := ETIMEDOUT)], used)
  {
    var tinfo' := tinfo[c := tinfo[c].(cancelled := ETIMEDOUT)];
    forall a | a in timers ensures EntryOk(timers[a], a, conts, tinfo') {
      assert EntryOk(timers[a], a, conts, tinfo);
    }
  }

  lemma MarkedQueue(q: seq<Task>, conts: Conts, tinfo: Infos, clock: nat, rolled: nat, c: nat)
    requires QueueInv(q, conts, tinfo, clock, rolled) && c in tinfo
    ensures QueueInv(q, conts, tinfo[c := tinfo[c].(cancelled := ETIMEDOUT)], clock, rolled)
  {
    var tinfo' := tinfo[c := tinfo[c].(cancelled := ETIMEDOUT)];
    forall i | 0 <= i < |q| ensures TaskOk(q[i], conts, tinfo', clock, rolled) {
      assert TaskOk(q[i], conts, tinfo, clock, rolled);
    }
    forall i, j | 0 <= i < j < |q| ensures InOrder(q[i], q[j], tinfo') {
      assert InOrder(q[i], q[j], tinfo);
    }
  }

  /** A queued timeout's round is over time. */
  ghost predicate Ripe(s: State, c: nat) {
    && c in s.tinfo && s.tinfo[c].owner in s.conts && s.conts[s.tinfo[c].owner].Wait?
    && Elapsed(s.conts[s.tinfo[c].owner], s.clock, s.rolled)
  }

  lemma MarkKeeps(s: State, c: nat)
    requires Inv(s) && Ripe(s, c)
    ensures Inv(s.(tinfo := s.tinfo[c := s.tinfo[c].(cancelled := ETIMEDOUT)]))
  {
    hide TokenInv, StateInv, OwnerInv, FrameInv, TimerInv, QueueInv, IoInv;
    MarkedFrames(s.conts, s.tinfo, s.usedCalls, c);
    MarkedTimers(s.timers, s.conts, s.tinfo, s.usedTimers, c);
    MarkedQueue(s.io.queue, s.conts, s.tinfo, s.clock, s.rolled, c);
    Together(s.(tinfo := s.tinfo[c := s.tinfo[c].(cancelled := ETIMEDOUT)]));
  }

  lemma FireKeeps(s: State, c: nat, fd: nat, ev: Event, refuse: bool)
    requires Inv(s) && s.pc.Run? && Ripe(s, c)
    ensures Inv(Fire(s, c, fd, ev, refuse)) && Fire(s, c, fd, ev, refuse).conts == s.conts
    ensures Fire(s, c, fd, ev, refuse).pc == s.pc
  {
    hide TokenInv, StateInv, OwnerInv, FrameInv, TimerInv, QueueInv, CancelInv, IoInv, CancelEvent;
    MarkKeeps(s, c);
    CancelRequest(s.(tinfo := s.tinfo[c := s.tinfo[c].(cancelled := ETIMEDOUT)]), fd, ev, refuse);
  }

  lemma RipeTask(s: State, k: nat, newFiber: FiberId)
    requires Inv(s) && s.pc.Top? && k < |s.io.queue| && IsTimeout(s.io.queue[k]) && newFiber !in s.conts
    ensures Ripe(Acquire(s.(io := s.io.(queue := Without(s.io.queue, k))), newFiber), s.io.queue[k].cb.value.call)
  {
    hide TokenInv, OwnerInv, FrameInv, TimerInv, CancelInv, IoInv, Without;
    assert TaskOk(s.io.queue[k], s.conts, s.tinfo, s.clock, s.rolled);
    AcquireStates(s.states, s.conts, s.cbFiber, newFiber);
  }

  // ------------------------------------------------------------------- one turn

  /** The queue without the picked task. */
  function Popped(s: State): State
    requires Picked(s) < |s.io.queue|
  {
    s.(io := s.io.(queue := Without(s.io.queue, Picked(s))))
  }

  lemma TakeFiberShape(s: State, newFiber: FiberId, refuse: bool, f: FiberId)
    requires Picked(s) < |s.io.queue| && s.io.queue[Picked(s)].fiber == Some(f)
    requires f in s.conts && f in s.states && Suspends(s.conts[f]) && !Over(s.states[f]) && s.states[f] != EXEC
    ensures TakeTask(s, newFiber, refuse) == Resumed(s, Picked(s), f)
  {
    hide Resume, Picked, Without;
    var s1 := Popped(s).(states := s.states[f := EXEC], active := s.active + 1, pc := Run(f, false));
    ResumeShape(s1, f);
  }

  lemma TakeFiberKeeps(s: State, newFiber: FiberId, refuse: bool)
    requires Inv(s) && s.pc.Top? && Picked(s) < |s.io.queue| && s.io.queue[Picked(s)].fiber.Some?
    ensures Inv(TakeTask(s, newFiber, refuse))
  {
    hide *;
    var k := Picked(s);
    var f := s.io.queue[k].fiber.value;
    QueuedFiber(s, k);
    TakeFiberShape(s, newFiber, refuse, f);
    ResumedKeeps(s, f);
  }

  lemma TakeCbShape(s: State, newFiber: FiberId, refuse: bool)
    requires Picked(s) < |s.io.queue| && s.io.queue[Picked(s)].fiber.None? && s.io.queue[Picked(s)].cb.Some?
    ensures TakeTask(s, newFiber, refuse) ==
            RunCallback(Popped(s), s.io.queue[Picked(s)].cb.value, newFiber, refuse)
  {
    hide RunCallback, Picked, Without;
  }

  lemma WakeCommutes(s: State, newFiber: FiberId, t: Task)
    ensures Push(Acquire(s, newFiber), t) == Acquire(Push(s, t), newFiber)
  {
  }

  lemma BusyQueue(s: State)
    requires Inv(s) && s.io.queue != []
    ensures s.idle != TERM
  {
    hide TokenInv, StateInv, OwnerInv, FrameInv, TimerInv, QueueInv, CancelInv, IoInv;
  }

  lemma TakeUserCb(s: State, newFiber: FiberId)
    requires Inv(s) && s.pc.Top? && Picked(s) < |s.io.queue| && newFiber !in s.conts
    requires s.io.queue[Picked(s)].fiber.None? && s.io.queue[Picked(s)].cb.Some?
    requires s.io.queue[Picked(s)].cb.value.UserCb?
    ensures Inv(Acquire(Popped(s), newFiber))
  {
    hide TokenInv, StateInv, OwnerInv, FrameInv, TimerInv, QueueInv, CancelInv, IoInv, WorkerInv, Inv, Picked, Without;
    BusyQueue(s);
    RemovedKeeps(s, Picked(s));
    AcquireKeeps(Popped(s), newFiber);
  }

  lemma TakeWake(s: State, newFiber: FiberId, f: FiberId)
    requires Inv(s) && s.pc.Top? && Picked(s) < |s.io.queue| && newFiber !in s.conts
    requires s.io.queue[Picked(s)].fiber.None? && s.io.queue[Picked(s)].cb == Some(WakeFiber(f))
    ensures var s1 := Push(Acquire(Popped(s), newFiber), Task(Some(f), None, -1));
            s1.pc.Run? && Inv(SwapOut(s1, TERM))
  {
    hide TokenInv, StateInv, OwnerInv, FrameInv, TimerInv, QueueInv, CancelInv, IoInv, WorkerInv, Inv,
         Picked, Without, SwapOut, Acquire;
    BusyQueue(s);
    WakenKeeps(s, Picked(s), f);
    var s0 := Push(Popped(s), Task(Some(f), None, -1));
    AcquireKeeps(s0, newFiber);
    WakeCommutes(Popped(s), newFiber, Task(Some(f), None, -1));
    FinishKeeps(Acquire(s0, newFiber), TERM);
  }

  lemma TakeTimeout(s: State, newFiber: FiberId, refuse: bool, c: nat, a: nat, fd: nat, ev: Event)
    requires Inv(s) && s.pc.Top? && Picked(s) < |s.io.queue| && newFiber !in s.conts
    requires s.io.queue[Picked(s)].fiber.None? && s.io.queue[Picked(s)].cb == Some(Timeout(c, a, fd, ev))
    ensures var s1 := Fire(Acquire(Popped(s), newFiber), c, fd, ev, refuse);
            s1.pc.Run? && Inv(SwapOut(s1, TERM))
  {
    hide TokenInv, StateInv, OwnerInv, FrameInv, TimerInv, QueueInv, CancelInv, IoInv, WorkerInv, Inv,
         Picked, Without, SwapOut, Acquire, Fire, Ripe;
    BusyQueue(s);
    RemovedKeeps(s, Picked(s));
    RipeTask(s, Picked(s), newFiber);
    AcquireKeeps(Popped(s), newFiber);
    var s1 := Acquire(Popped(s), newFiber);
    FireKeeps(s1, c, fd, ev, refuse);
    FinishKeeps(Fire(s1, c, fd, ev, refuse), TERM);
  }

  lemma TakeKeeps(s: State, newFiber: FiberId, refuse: bool)
    requires Inv(s) && CanTurn(s, Take(newFiber, refuse))
    ensures Inv(TakeTask(s, newFiber, refuse))
  {
    var t := s.io.queue[Picked(s)];
    assert NonNull(t);
    hide TokenInv, StateInv, OwnerInv, FrameInv, TimerInv, QueueInv, CancelInv, IoInv, WorkerInv, Inv,
         Picked, Without, SwapOut, Acquire, Fire, Push, TakeTask;
    if t.fiber.Some? {
      TakeFiberKeeps(s, newFiber, refuse);
    } else {
      TakeCbShape(s, newFiber, refuse);
      match t.cb.value
      case UserCb(_) => TakeUserCb(s, newFiber);
      case WakeFiber(f) => TakeWake(s, newFiber, f);
      case Timeout(c, a, fd, ev) => TakeTimeout(s, newFiber, refuse, c, a, fd, ev);
    }
  }

  // -------------------------------------------------------------------- idling

  /** Nothing could be picked and no fiber runs: no fiber in a wait round is queued,
      for it would have been queued for any thread. */
  lemma NothingToRun(q: seq<Task>, thread: int, states: map<FiberId, FiberState>, conts: Conts,
                     cbFiber: Option<FiberId>, tinfo: Infos, clock: nat, rolled: nat)
    requires StateInv(states, conts, Top, cbFiber) && QueueInv(q, conts, tinfo, clock, rolled)
    requires Pick(q, thread, states) == |q|
    ensures IdleQueue(q, conts)
  {
    forall i | 0 <= i < |q| && q[i].fiber.Some? && q[i].fiber.value in conts
      ensures !conts[q[i].fiber.value].Wait?
    {
      assert !Takeable(q[i], thread, states) && TaskOk(q[i], conts, tinfo, clock, rolled);
      assert FiberOk(states[q[i].fiber.value], conts[q[i].fiber.value], false, cbFiber == q[i].fiber);
    }
  }

  lemma EnterKeeps(s: State)
    requires Inv(s) && s.pc.Top? && Picked(s) == |s.io.queue|
    ensures Inv(EnterIdle(s))
  {
    NothingToRun(s.io.queue, s.thread, s.states, s.conts, s.cbFiber, s.tinfo, s.clock, s.rolled);
    hide StateInv, OwnerInv, FrameInv, TimerInv, QueueInv, CancelInv, IdleQueue, Picked;
    SamePcStates(s.states, s.conts, s.pc, EnterIdle(s).pc, s.cbFiber);
    SamePcTokens(s.io.queue, s.io.fds, s.conts, s.timers, s.pc, EnterIdle(s).pc);
    hide TokenInv;
    Together(EnterIdle(s));
  }

  lemma SamePcStates(states: map<FiberId, FiberState>, conts: Conts, pc: Pc, pc': Pc, cbFiber: Option<FiberId>)
    requires StateInv(states, conts, pc, cbFiber) && !pc.Run? && !pc'.Run?
    ensures StateInv(states, conts, pc', cbFiber)
  {
  }

  lemma SamePcTokens(q: seq<Task>, fds: seq<FdContext>, conts: Conts, timers: T.Pending, pc: Pc, pc': Pc)
    requires TokenInv(q, fds, conts, timers, pc) && !pc.Run? && !pc'.Run?
    ensures TokenInv(q, fds, conts, timers, pc')
  {
    forall f: FiberId ensures Tokens(q, fds, conts, timers, pc', f) == One(Alive(conts, f)) {
      assert Tokens(q, fds, conts, timers, pc, f) == One(Alive(conts, f));
    }
  }

  /** "No next timer" is answered only when there is none: no deadline reaches 2^64
      and the clock has left zero. */
  lemma NoneIsNone(s: State)
    requires Inv(s)
    ensures NoNextTimer(s.timers, s.clock) ==> s.timers == map[]
  {
    hide TokenInv, StateInv, OwnerInv, FrameInv, QueueInv, CancelInv, IoInv;
    forall a | a in s.timers ensures s.timers[a].next - s.clock < T.NO_TIMER {
      assert EntryOk(s.timers[a], a, s.conts, s.tinfo);
    }
  }

  /** The stop test can only pass with no timer pending. */
  lemma StoppingMeansQuiet(s: State)
    requires Inv(s) && Stopping(s)
    ensures Quiet(s)
  {
    hide Inv, NoNextTimer;
    NoneIsNone(s);
  }

  lemma CheckKeeps(s: State)
    requires Inv(s) && s.pc.Idle?
    ensures Inv(CheckIdle(s))
  {
    if Stopping(s) {
      StoppingMeansQuiet(s);
    }
    hide TokenInv, StateInv, OwnerInv, FrameInv, TimerInv, QueueInv, CancelInv, IoInv, IdleQueue, Stopping;
    SamePcStates(s.states, s.conts, s.pc, CheckIdle(s).pc, s.cbFiber);
    SamePcTokens(s.io.queue, s.io.fds, s.conts, s.timers, s.pc, CheckIdle(s).pc);
    Together(CheckIdle(s));
  }

  // ------------------------------------------------------------ releasing timers

  /** The first `n` listed timers are released from the set. */
  function PartReleased(m: T.Pending, order: seq<nat>, n: nat, now: nat): T.Pending
    requires n <= |order|
  {
    map a | a in m && (a in order[..n] ==> m[a].recurring) ::
      if a in order[..n] then m[a].(next := m[a].ms + now) else m[a]
  }

  /** One timer is released. */
  function ReleaseOne(m: T.Pending, a: nat, now: nat): T.Pending
    requires a in m
  {
    if m[a].recurring then m[a := m[a].(next := m[a].ms + now)] else m - {a}
  }

  lemma PartStep(m: T.Pending, order: seq<nat>, n: nat, now: nat)
    requires n < |order| && order[n] in m
    requires forall i, j :: 0 <= i < j < |order| ==> order[i] != order[j]
    ensures order[n] in PartReleased(m, order, n, now) && PartReleased(m, order, n, now)[order[n]] == m[order[n]]
    ensures PartReleased(m, order, n + 1, now) == ReleaseOne(PartReleased(m, order, n, now), order[n], now)
  {
    assert order[..n + 1] == order[..n] + [order[n]];
  }

  lemma ReleaseTokens(q: seq<Task>, fds: seq<FdContext>, conts: Conts, timers: T.Pending, pc: Pc, a: nat, now: nat)
    requires TokenInv(q, fds, conts, timers, pc) && a in timers
    requires timers[a].cb.WakeFiber? ==>
               !timers[a].recurring && timers[a].cb.fiber in conts && conts[timers[a].cb.fiber] == Sleep(a)
    ensures TokenInv(q + [Task(None, Some(timers[a].cb), -1)], fds, conts, ReleaseOne(timers, a, now), pc)
  {
    hide Asleep, ReleaseOne;
    var t, timers' := Task(None, Some(timers[a].cb), -1), ReleaseOne(timers, a, now);
    forall f: FiberId ensures Tokens(q + [t], fds, conts, timers', pc, f) == One(Alive(conts, f)) {
      AppendTokens(q, t, f);
      assert Tokens(q, fds, conts, timers, pc, f) == One(Alive(conts, f));
      ReleaseSleeper(conts, timers, a, now, f);
    }
  }

  /** A sleeper trades its timer for the queued wake-up. */
  lemma ReleaseSleeper(conts: Conts, timers: T.Pending, a: nat, now: nat, f: FiberId)
    requires a in timers
    requires timers[a].cb.WakeFiber? ==>
               !timers[a].recurring && timers[a].cb.fiber in conts && conts[timers[a].cb.fiber] == Sleep(a)
    ensures One(Asleep(conts, timers, f)) ==
            One(Asleep(conts, ReleaseOne(timers, a, now), f)) + One(timers[a].cb == WakeFiber(f))
  {
  }

  lemma ReleaseTimers(timers: T.Pending, conts: Conts, tinfo: Infos, used: set<nat>, a: nat, now: nat)
    requires TimerInv(timers, conts, tinfo, used) && a in timers
    requires timers[a].recurring ==> Fits(now, timers[a].ms)
    ensures TimerInv(ReleaseOne(timers, a, now), conts, tinfo, used)
  {
    assert EntryOk(timers[a], a, conts, tinfo);
  }

  /** Every round that is on began before the last reported rollover. */
  ghost predicate AllSeen(conts: Conts, rolled: nat) {
    forall f :: f in conts && conts[f].Wait? ==> conts[f].seen < rolled
  }

  /** A timeout that is due joins the queue before its owner could. */
  lemma ReleaseTask(q: seq<Task>, e: T.Entry, a: nat, conts: Conts, tinfo: Infos, clock: nat, rolled: nat)
    requires QueueInv(q, conts, tinfo, clock, rolled) && EntryOk(e, a, conts, tinfo)
    requires IdleQueue(q, conts) && (AllSeen(conts, rolled) || e.next <= clock)
    ensures var t := Task(None, Some(e.cb), -1);
            QueueInv(q + [t], conts, tinfo, clock, rolled) && IdleQueue(q + [t], conts)
  {
    var t := Task(None, Some(e.cb), -1);
    if e.cb.Timeout? {
      forall i | 0 <= i < |q| ensures InOrder(q[i], t, tinfo) {
        assert TaskOk(q[i], conts, tinfo, clock, rolled);
      }
    }
    AppendQueue(q, t, conts, tinfo, clock, rolled);
  }

  lemma ReleaseKeeps(s: State, a: nat)
    requires Inv(s) && s.pc.Top? && s.idle != TERM && IdleQueue(s.io.queue, s.conts)
    requires a in s.timers && (AllSeen(s.conts, s.rolled) || s.timers[a].next <= s.clock)
    requires s.timers[a].recurring ==> Fits(s.clock, s.timers[a].ms)
    ensures var s' := s.(io := s.io.(queue := s.io.queue + [Task(None, Some(s.timers[a].cb), -1)]),
                         timers := ReleaseOne(s.timers, a, s.clock));
            Inv(s') && IdleQueue(s'.io.queue, s.conts)
  {
    var e, t := s.timers[a], Task(None, Some(s.timers[a].cb), -1);
    assert EntryOk(e, a, s.conts, s.tinfo);
    hide TokenInv, StateInv, OwnerInv, FrameInv, TimerInv, QueueInv, CancelInv, IoInv, IdleQueue, ReleaseOne;
    ReleaseTokens(s.io.queue, s.io.fds, s.conts, s.timers, s.pc, a, s.clock);
    ReleaseTimers(s.timers, s.conts, s.tinfo, s.usedTimers, a, s.clock);
    ReleaseTask(s.io.queue, e, a, s.conts, s.tinfo, s.clock, s.rolled);
    AppendIo(s.io, t);
    Together(s.(io := s.io.(queue := s.io.queue + [t]), timers := ReleaseOne(s.timers, a, s.clock)));
  }

  /** The idle fiber has come back from epoll_wait and looked at the clock. */
  function Roused(s: State): State {
    s.(previous := if s.timers == map[] then s.previous else s.clock,
       rolled := Rollovers(s), idle := HOLD, idlers := s.idlers - 1, pc := Top)
  }

  lemma RousedQueue(q: seq<Task>, conts: Conts, tinfo: Infos, clock: nat, rolled: nat, rolled': nat)
    requires QueueInv(q, conts, tinfo, clock, rolled) && rolled <= rolled'
    ensures QueueInv(q, conts, tinfo, clock, rolled')
  {
    forall i | 0 <= i < |q| ensures TaskOk(q[i], conts, tinfo, clock, rolled') {
      assert TaskOk(q[i], conts, tinfo, clock, rolled);
    }
  }

  lemma RousedKeeps(s: State)
    requires Inv(s) && s.pc.Polling?
    ensures Inv(Roused(s)) && IdleQueue(s.io.queue, s.conts)
    ensures RolledOver(s) ==> AllSeen(s.conts, Roused(s).rolled)
  {
    hide TokenInv, StateInv, OwnerInv, FrameInv, TimerInv, QueueInv, IoInv, IdleQueue, RolledOver;
    SamePcStates(s.states, s.conts, s.pc, Top, s.cbFiber);
    SamePcTokens(s.io.queue, s.io.fds, s.conts, s.timers, s.pc, Top);
    RousedQueue(s.io.queue, s.conts, s.tinfo, s.clock, s.rolled, Roused(s).rolled);
    Together(Roused(s));
  }

  /** After `n` of the listed timers have been released. */
  function Partly(s: State, order: seq<nat>, n: nat): State
    requires n <= |order| && forall i :: 0 <= i < |order| ==> order[i] in s.timers
  {
    Roused(s).(io := s.io.(queue := ReleaseQueue(s.io.queue, s.timers, order, n)),
               timers := PartReleased(s.timers, order, n, s.clock))
  }

  lemma PartNone(m: T.Pending, order: seq<nat>, now: nat)
    ensures PartReleased(m, order, 0, now) == m
  {
  }

  lemma PartAll(m: T.Pending, order: seq<nat>, now: nat, rollover: bool)
    requires Lists(order, m, now, rollover)
    ensures PartReleased(m, order, |order|, now) == T.AfterRelease(m, now, rollover)
  {
    assert order[..|order|] == order;
  }

  lemma {:induction false} PartlyKeeps(s: State, order: seq<nat>, n: nat)
    requires Inv(s) && s.pc.Polling? && Lists(order, s.timers, s.clock, RolledOver(s)) && n <= |order|
    requires forall a :: a in s.timers && T.Due(s.timers[a], s.clock, RolledOver(s)) && s.timers[a].recurring ==>
               Fits(s.clock, s.timers[a].ms)
    ensures Inv(Partly(s, order, n)) && IdleQueue(Partly(s, order, n).io.queue, s.conts)
  {
    hide TokenInv, StateInv, OwnerInv, FrameInv, TimerInv, QueueInv, CancelInv, IoInv, WorkerInv, Inv, IdleQueue,
         PartReleased, ReleaseOne, RolledOver;
    if n == 0 {
      RousedKeeps(s);
      PartNone(s.timers, order, s.clock);
      assert Partly(s, order, 0) == Roused(s);
    } else {
      PartlyKeeps(s, order, n - 1);
      PartStep(s.timers, order, n - 1, s.clock);
      assert order[n - 1] in s.timers && T.Due(s.timers[order[n - 1]], s.clock, RolledOver(s));
      RousedKeeps(s);
      ReleaseKeeps(Partly(s, order, n - 1), order[n - 1]);
    }
  }

  lemma HandleShape(s: State, order: seq<nat>, reports: seq<Report>)
    requires Lists(order, s.timers, s.clock, RolledOver(s))
    ensures var s1 := Partly(s, order, |order|);
            HandleIdle(s, order, reports) == s1.(io := HandleReports(s1.io, reports, |reports|))
  {
    PartAll(s.timers, order, s.clock, RolledOver(s));
    hide PartReleased, RolledOver;
  }

  lemma HandleKeeps(s: State, order: seq<nat>, reports: seq<Report>)
    requires Inv(s) && CanHandle(s, order, reports)
    ensures Inv(HandleIdle(s, order, reports))
  {
    hide TokenInv, StateInv, OwnerInv, FrameInv, TimerInv, QueueInv, CancelInv, IoInv, IdleQueue,
         PartReleased, RolledOver, HandleIdle, Woke, Truthful;
    PartlyKeeps(s, order, |order|);
    HandleShape(s, order, reports);
    var s1 := Partly(s, order, |order|);
    ReportsKeep(s1.io, reports, |reports|);
    WokeKeeps(s1, HandleReports(s1.io, reports, |reports|));
  }

  lemma TurnKeeps(s: State, t: Turn)
    requires Inv(s) && CanTurn(s, t)
    ensures Inv(DoTurn(s, t))
  {
    hide TokenInv, StateInv, OwnerInv, FrameInv, TimerInv, QueueInv, CancelInv, IoInv, WorkerInv, Inv,
         HandleIdle, TakeTask, EnterIdle, CheckIdle;
    match t
    case Take(newFiber, refuse) => TakeKeeps(s, newFiber, refuse);
    case FindNothing => EnterKeeps(s);
    case IdleCheck => CheckKeeps(s);
    case IdleHandle(order, reports) => HandleKeeps(s, order, reports);
  }
}

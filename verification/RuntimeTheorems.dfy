/** What holds in every run of the one-worker runtime. */
module RuntimeTheorems {
  import opened Types
  import opened Gathering
  import opened TaskQueue
  import opened EventTable
  import opened Runtime
  import opened RuntimeInvariant
  import opened RuntimeRequests
  import opened RuntimeTurns
  import T = TimerSet

  lemma StepKeeps(s: State, a: Action)
    requires Inv(s) && Enabled(s, a)
    ensures Inv(Next(s, a))
  {
    hide Inv, CanWorld, CanTurn, CanHooked, CanRequest, CanTimer, DoWorld, DoTurn, DoHooked, DoRequest, DoTimer;
    match a
    case AWorld(w) => WorldKeeps(s, w);
    case ATurn(t) => TurnKeeps(s, t);
    case AHooked(h) => HookedKeeps(s, h);
    case ARequest(r) => RequestKeeps(s, r);
    case ATimer(c) => TimerCallKeeps(s, c);
  }

  lemma {:induction false} RunKeeps(s: State, acts: seq<Action>)
    requires Inv(s) && Legal(s, acts)
    ensures Inv(After(s, acts))
    decreases |acts|
  {
    hide Inv, Enabled, Next;
    if acts != [] {
      StepKeeps(s, acts[0]);
      RunKeeps(Next(s, acts[0]), acts[1..]);
    }
  }

  /** `s` is reached by some run of a new manager. */
  ghost predicate Reachable(s: State) {
    exists s0, acts :: Init(s0) && Legal(s0, acts) && After(s0, acts) == s
  }

  lemma ReachableInv(s: State)
    requires Reachable(s)
    ensures Inv(s)
  {
    hide Inv, Init, Enabled, Next;
    var s0, acts :| Init(s0) && Legal(s0, acts) && After(s0, acts) == s;
    InitInv(s0);
    RunKeeps(s0, acts);
  }

  // -------------------------------------------------------- the single wake token

  /** Where the runtime holds a fiber. */
  datatype Place =
    | Running
    | Entry(index: nat)
    | Context(fd: nat, event: Event)
    | Alarm(timer: nat)
    | WakeUp(index: nat)

  predicate At(s: State, f: FiberId, p: Place) {
    match p
    case Running => s.pc.Run? && s.pc.fiber == f
    case Entry(i) => i < |s.io.queue| && s.io.queue[i].fiber == Some(f)
    case Context(fd, ev) => fd < |s.io.fds| && s.io.fds[fd].Get(ev).fiber == Some(f)
    case Alarm(a) => a in s.timers && s.timers[a].cb == WakeFiber(f)
    case WakeUp(i) => i < |s.io.queue| && s.io.queue[i].cb == Some(WakeFiber(f))
  }

  /** How often the kind of place `p` is counts in the token sum. */
  ghost function Weight(s: State, f: FiberId, p: Place): nat {
    match p
    case Running => One(s.pc.Run? && s.pc.fiber == f)
    case Entry(_) => QueueHandles(s.io.queue)[f]
    case Context(_, _) => TableHandles(s.io.fds)[f]
    case Alarm(_) => One(Asleep(s.conts, s.timers, f))
    case WakeUp(_) => QueueWakes(s.io.queue)[f]
  }

  predicate SameKind(p: Place, q: Place) {
    match p
    case Running => q.Running?
    case Entry(_) => q.Entry?
    case Context(_, _) => q.Context?
    case Alarm(_) => q.Alarm?
    case WakeUp(_) => q.WakeUp?
  }

  lemma AtWeighs(s: State, f: FiberId, p: Place)
    requires Inv(s) && At(s, f, p)
    ensures Weight(s, f, p) >= 1
  {
    hide TokenInv, StateInv, OwnerInv, FrameInv, QueueInv, CancelInv, IoInv, WorkerInv;
    match p
    case Running =>
    case Entry(i) => RemoveTokens(s.io.queue, i, f);
    case Context(fd, ev) =>
      GatherSplit(s.io.fds, fd, FdHandles);
      assert f in Handle(s.io.fds[fd].Get(ev).fiber);
    case Alarm(a) => assert EntryOk(s.timers[a], a, s.conts, s.tinfo);
    case WakeUp(i) => RemoveTokens(s.io.queue, i, f);
  }

  lemma WeightSum(s: State, f: FiberId, p: Place, q: Place)
    requires Inv(s) && !SameKind(p, q)
    ensures Weight(s, f, p) + Weight(s, f, q) <= 1 && Weight(s, f, p) <= One(Alive(s.conts, f))
  {
    hide StateInv, OwnerInv, FrameInv, TimerInv, QueueInv, CancelInv, IoInv, WorkerInv, Asleep, Alive;
    assert Tokens(s.io.queue, s.io.fds, s.conts, s.timers, s.pc, f) == One(Alive(s.conts, f));
  }

  lemma TwoEntries(q: seq<Task>, i: nat, j: nat, f: FiberId)
    requires i < j < |q|
    ensures q[i].fiber == Some(f) && q[j].fiber == Some(f) ==> QueueHandles(q)[f] >= 2
    ensures q[i].cb == Some(WakeFiber(f)) && q[j].cb == Some(WakeFiber(f)) ==> QueueWakes(q)[f] >= 2
  {
    RemoveTokens(q, j, f);
    RemoveTokens(Without(q, j), i, f);
  }

  lemma TwoContexts(fds: seq<FdContext>, fd: nat, ev: Event, fd': nat, ev': Event, f: FiberId)
    requires fd <= fd' < |fds| && (fd, ev) != (fd', ev')
    requires fds[fd].Get(ev).fiber == Some(f) && fds[fd'].Get(ev').fiber == Some(f)
    ensures TableHandles(fds)[f] >= 2
  {
    GatherSplit(fds, fd', FdHandles);
    if fd == fd' {
      assert FdHandles(fds[fd])[f] == 2;
    } else {
      var rest := fds[..fd'] + fds[fd' + 1..];
      GatherSplit(rest, fd, FdHandles);
      assert f in Handle(fds[fd].Get(ev).fiber) && f in Handle(fds[fd'].Get(ev').fiber);
    }
  }

  lemma SameKindSamePlace(s: State, f: FiberId, p: Place, q: Place)
    requires Inv(s) && At(s, f, p) && At(s, f, q) && SameKind(p, q) && Weight(s, f, p) <= 1
    ensures p == q
  {
    hide TokenInv, StateInv, OwnerInv, FrameInv, QueueInv, CancelInv, IoInv, WorkerInv;
    match p
    case Running =>
    case Entry(i) =>
      if i != q.index {
        TwoEntries(s.io.queue, if i < q.index then i else q.index, if i < q.index then q.index else i, f);
      }
    case Context(fd, ev) =>
      if p != q {
        if fd <= q.fd {
          TwoContexts(s.io.fds, fd, ev, q.fd, q.event, f);
        } else {
          TwoContexts(s.io.fds, q.fd, q.event, fd, ev, f);
        }
      }
    case Alarm(a) =>
      assert EntryOk(s.timers[a], a, s.conts, s.tinfo);
      assert EntryOk(s.timers[q.timer], q.timer, s.conts, s.tinfo);
    case WakeUp(i) =>
      if i != q.index {
        TwoEntries(s.io.queue, if i < q.index then i else q.index, if i < q.index then q.index else i, f);
      }
  }

  lemma OnePlace(s: State, f: FiberId, p: Place, q: Place)
    requires Inv(s) && At(s, f, p) && At(s, f, q)
    ensures p == q && Alive(s.conts, f)
  {
    hide Inv, At, Weight;
    AtWeighs(s, f, p);
    AtWeighs(s, f, q);
    if SameKind(p, q) {
      WeightSum(s, f, p, if p.Running? then Alarm(0) else Running);
      SameKindSamePlace(s, f, p, q);
    } else {
      WeightSum(s, f, p, q);
    }
  }

  lemma OnlyOnePlace(s: State, f: FiberId, p: Place, q: Place)
    requires Reachable(s) && At(s, f, p) && At(s, f, q)
    ensures p == q && Alive(s.conts, f)
  {
    hide Inv, Reachable, At;
    ReachableInv(s);
    OnePlace(s, f, p, q);
  }

  lemma QueuePlace(q: seq<Task>, f: FiberId) returns (i: nat)
    requires QueueHandles(q)[f] > 0
    ensures i < |q| && q[i].fiber == Some(f)
  {
    GatherMember(q, TaskHandle, f);
    i :| 0 <= i < |q| && f in TaskHandle(q[i]);
  }

  lemma WakePlace(q: seq<Task>, f: FiberId) returns (i: nat)
    requires QueueWakes(q)[f] > 0
    ensures i < |q| && q[i].cb == Some(WakeFiber(f))
  {
    GatherMember(q, TaskWake, f);
    i :| 0 <= i < |q| && f in TaskWake(q[i]);
  }

  lemma FdHolds(c: FdContext, f: FiberId)
    ensures f in FdHandles(c) <==> c.read.fiber == Some(f) || c.write.fiber == Some(f)
  {
    assert f in FdHandles(c) <==> f in Handle(c.read.fiber) || f in Handle(c.write.fiber);
  }

  lemma TablePlace(fds: seq<FdContext>, f: FiberId) returns (fd: nat, ev: Event)
    requires TableHandles(fds)[f] > 0
    ensures fd < |fds| && fds[fd].Get(ev).fiber == Some(f)
  {
    hide FdHandles;
    GatherMember(fds, FdHandles, f);
    fd :| 0 <= fd < |fds| && f in FdHandles(fds[fd]);
    FdHolds(fds[fd], f);
    ev := if fds[fd].read.fiber == Some(f) then READ else WRITE;
  }

  lemma TokenOf(s: State, f: FiberId)
    requires Inv(s)
    ensures Tokens(s.io.queue, s.io.fds, s.conts, s.timers, s.pc, f) == One(Alive(s.conts, f))
  {
    hide StateInv, OwnerInv, FrameInv, TimerInv, QueueInv, CancelInv, IoInv, WorkerInv, Tokens, Alive;
  }

  lemma SomePlace(s: State, f: FiberId) returns (p: Place)
    requires Inv(s) && Alive(s.conts, f)
    ensures At(s, f, p)
  {
    hide Inv, QueueHandles, QueueWakes, TableHandles;
    TokenOf(s, f);
    if s.pc.Run? && s.pc.fiber == f {
      p := Running;
    } else if QueueHandles(s.io.queue)[f] > 0 {
      var i := QueuePlace(s.io.queue, f);
      p := Entry(i);
    } else if TableHandles(s.io.fds)[f] > 0 {
      var fd, ev := TablePlace(s.io.fds, f);
      p := Context(fd, ev);
    } else if QueueWakes(s.io.queue)[f] > 0 {
      var i := WakePlace(s.io.queue, f);
      p := WakeUp(i);
    } else {
      p := Alarm(s.conts[f].alarm);
    }
  }

  /** Every unfinished fiber is in exactly one place, a finished one in none. */
  lemma SingleWakeToken(s: State, f: FiberId)
    requires Reachable(s)
    ensures Alive(s.conts, f) <==> exists p :: At(s, f, p)
    ensures forall p, q :: At(s, f, p) && At(s, f, q) ==> p == q
  {
    hide Inv, Reachable, At;
    ReachableInv(s);
    if Alive(s.conts, f) {
      var p := SomePlace(s, f);
    }
    forall p, q | At(s, f, p) && At(s, f, q) ensures p == q && Alive(s.conts, f) {
      OnlyOnePlace(s, f, p, q);
    }
    assert forall p :: At(s, f, p) ==> At(s, f, p) && Alive(s.conts, f);
  }

  /** A fiber in a wait round is registered for the event it waits for, or has
      been woken and is queued; a sleeper has its timer, its queued wake-up or
      is queued; any other suspended fiber is queued. */
  lemma PlaceOfCont(s: State, f: FiberId, p: Place)
    requires Reachable(s) && At(s, f, p)
    ensures f in s.conts
    ensures match s.conts[f]
            case Ended => false
            case User => p.Running? || p.Entry?
            case Retry(_) => p.Running?
            case Wait(frame, _, _, _) => p.Entry? || p == Context(frame.fd, frame.event)
            case Sleep(alarm) => p.Entry? || p.WakeUp? || p == Alarm(alarm)
  {
    OnlyOnePlace(s, f, p, p);
    ReachableInv(s);
    hide TokenInv, FrameInv, CancelInv, IoInv, WorkerInv, Reachable;
    assert FiberOk(s.states[f], s.conts[f], s.pc.Run? && s.pc.fiber == f, s.cbFiber == Some(f));
    match p
    case Running =>
    case Entry(i) =>
      if s.pc.Run? && s.pc.fiber == f {
        OnlyOnePlace(s, f, p, Running);
      }
    case Context(fd, ev) => assert OwnerOk(s.io.fds[fd].Get(ev), fd, ev, s.conts);
    case Alarm(a) => assert EntryOk(s.timers[a], a, s.conts, s.tinfo);
    case WakeUp(i) => assert TaskOk(s.io.queue[i], s.conts, s.tinfo, s.clock, s.rolled);
  }

  // ------------------------------------------------------------- complete drain

  lemma NoContexts(fds: seq<FdContext>, f: FiberId)
    requires FdsOk(fds) && Bits(fds) == 0
    ensures forall fd :: 0 <= fd < |fds| ==> fds[fd] == FRESH_FD
    ensures TableHandles(fds)[f] == 0
  {
    forall fd | 0 <= fd < |fds| ensures fds[fd] == FRESH_FD {
      NoBits(fds, fd);
      assert FdOk(fds[fd]);
    }
    GatherNone(fds, FdHandles);
  }

  /** When the worker has left its loop, nothing is left: no task, no timer, no
      registration, no hooked call, and every fiber has ended.  The one fiber
      that is not TERM or EXCEPT is the recycled callback fiber, which has run
      its callback to the end and been reset. */
  lemma CompleteDrain(s: State)
    requires Reachable(s) && s.pc.Left?
    ensures s.stop && s.io.queue == [] && s.timers == map[] && s.io.pending == 0 && s.io.epoll == map[]
    ensures forall fd :: 0 <= fd < |s.io.fds| ==> s.io.fds[fd] == FRESH_FD
    ensures s.tinfo == map[]
    ensures s.conts.Keys == s.states.Keys
    ensures forall f :: f in s.states && f in s.conts ==>
              s.conts[f] == Ended && (Over(s.states[f]) || (s.states[f] == INIT && s.cbFiber == Some(f)))
  {
    hide Reachable;
    ReachableInv(s);
    DrainIo(s);
    forall f: FiberId ensures !Alive(s.conts, f) {
      DrainFiber(s, f);
    }
    DrainCalls(s);
    hide TokenInv, OwnerInv, FrameInv, TimerInv, QueueInv, CancelInv, IoInv, WorkerInv;
    forall f | f in s.states && f in s.conts
      ensures s.conts[f] == Ended && (Over(s.states[f]) || (s.states[f] == INIT && s.cbFiber == Some(f)))
    {
      assert !Alive(s.conts, f);
      assert FiberOk(s.states[f], s.conts[f], false, s.cbFiber == Some(f));
    }
  }

  /** Conversely, once nothing is left the worker leaves: at once if its idle fiber
      has ended, else after one stop test. */
  lemma LeavesWhenDrained(s: State)
    requires Reachable(s) && s.pc.Top? && Quiet(s)
    ensures Picked(s) == |s.io.queue|
    ensures var s1 := EnterIdle(s);
            || s1.pc.Left?
            || (s1.pc.Idle? && CheckIdle(s1).pc.Top? && Picked(CheckIdle(s1)) == |CheckIdle(s1).io.queue|
                && EnterIdle(CheckIdle(s1)).pc.Left?)
  {
    hide Reachable;
    ReachableInv(s);
    hide TokenInv, StateInv, OwnerInv, FrameInv, TimerInv, QueueInv, CancelInv, IoInv;
  }

  lemma DrainIo(s: State)
    requires Inv(s) && s.pc.Left?
    ensures Quiet(s) && s.io.epoll == map[] && Bits(s.io.fds) == 0
    ensures forall fd :: 0 <= fd < |s.io.fds| ==> s.io.fds[fd] == FRESH_FD
  {
    hide TokenInv, StateInv, OwnerInv, FrameInv, TimerInv, QueueInv, CancelInv;
    NoContexts(s.io.fds, 0);
  }

  lemma DrainFiber(s: State, f: FiberId)
    requires Inv(s) && s.pc.Left?
    ensures !Alive(s.conts, f)
  {
    hide StateInv, OwnerInv, FrameInv, TimerInv, QueueInv, CancelInv, TokenInv;
    DrainIo(s);
    NoContexts(s.io.fds, f);
    TokenOf(s, f);
  }

  /** Every `timer_info` belongs to an unfinished fiber. */
  lemma CallAlive(s: State, c: nat)
    requires Inv(s) && c in s.tinfo
    ensures Alive(s.conts, s.tinfo[c].owner)
  {
    hide TokenInv, StateInv, OwnerInv, TimerInv, QueueInv, CancelInv, IoInv, WorkerInv;
    assert CallOf(s.conts, s.tinfo, c);
  }

  lemma DrainCalls(s: State)
    requires Inv(s) && forall f: FiberId :: !Alive(s.conts, f)
    ensures s.tinfo == map[]
  {
    hide Inv, Alive;
    forall c | c in s.tinfo ensures Alive(s.conts, s.tinfo[c].owner) {
      CallAlive(s, c);
    }
  }

  // ------------------------------------------------------------ the event table

  /** In every reachable state the kernel set holds exactly the descriptors with
      events, each with EPOLLET and those events. */
  lemma KernelMirror(s: State)
    requires Reachable(s)
    ensures forall fd: nat :: fd in s.io.epoll <==> fd < |s.io.fds| && !s.io.fds[fd].events.IsNone()
    ensures forall fd :: fd in s.io.epoll ==> s.io.epoll[fd] == Mask(true, s.io.fds[fd].events)
  {
    hide Reachable;
    ReachableInv(s);
    hide TokenInv, StateInv, OwnerInv, FrameInv, TimerInv, QueueInv, CancelInv, WorkerInv;
  }

  /** In every run no control request is of the wrong kind, and no assertion on
      event bits, contexts, queue entries or fiber states fails. */
  lemma AssertionsUnreachable(s: State)
    requires Reachable(s)
    ensures !s.io.badCtl && !s.io.fault
  {
    hide Reachable;
    ReachableInv(s);
    hide TokenInv, StateInv, OwnerInv, FrameInv, TimerInv, QueueInv, CancelInv, WorkerInv;
  }

  /** The pending counter is the number of set bits, and a bit is set exactly
      when its context has a scheduler and one of a fiber and a callback. */
  lemma PendingConservation(s: State)
    requires Reachable(s)
    ensures s.io.pending == Bits(s.io.fds)
    ensures forall fd, ev :: 0 <= fd < |s.io.fds| ==>
              var ctx := s.io.fds[fd].Get(ev);
              if s.io.fds[fd].events.Has(ev) then ctx.scheduler && ctx.fiber.Some? != ctx.cb.Some?
              else ctx == NOBODY
  {
    hide Reachable;
    ReachableInv(s);
    hide TokenInv, StateInv, OwnerInv, FrameInv, TimerInv, QueueInv, CancelInv, WorkerInv;
    assert forall fd :: 0 <= fd < |s.io.fds| ==> FdOk(s.io.fds[fd]);
  }

  // -------------------------------------------------------- hooked calls returned

  /** A call without a live `timer_info` (it has returned, or never began) has
      left nothing behind: no registration, no pending timer, no queued timeout. */
  lemma CleanReturn(s: State, c: nat)
    requires Reachable(s) && c !in s.tinfo
    ensures forall f: FiberId, fd: nat, ev :: At(s, f, Context(fd, ev)) ==>
              f in s.conts && s.conts[f].Wait? && s.conts[f].frame.call != c
    ensures forall a :: a in s.timers && s.timers[a].cb.Timeout? ==> s.timers[a].cb.call != c
    ensures forall i :: 0 <= i < |s.io.queue| && IsTimeout(s.io.queue[i]) ==> s.io.queue[i].cb.value.call != c
  {
    hide Reachable;
    ReachableInv(s);
    hide TokenInv, StateInv, CancelInv, IoInv, WorkerInv;
    forall f: FiberId, fd: nat, ev | At(s, f, Context(fd, ev))
      ensures f in s.conts && s.conts[f].Wait? && s.conts[f].frame.call != c
    {
      assert OwnerOk(s.io.fds[fd].Get(ev), fd, ev, s.conts);
    }
    forall a | a in s.timers && s.timers[a].cb.Timeout? ensures s.timers[a].cb.call != c {
      assert EntryOk(s.timers[a], a, s.conts, s.tinfo);
    }
    forall i | 0 <= i < |s.io.queue| && IsTimeout(s.io.queue[i]) ensures s.io.queue[i].cb.value.call != c {
      assert TaskOk(s.io.queue[i], s.conts, s.tinfo, s.clock, s.rolled);
    }
  }

  /** A call is cancelled only with ETIMEDOUT, only while its owner is in a wait
      round, and only when that round has lasted the configured timeout, unless a
      clock rollover was reported since that very round began. */
  lemma TimedOutMeansElapsed(s: State, c: nat)
    requires Reachable(s) && c in s.tinfo && s.tinfo[c].cancelled != 0
    ensures s.tinfo[c].cancelled == ETIMEDOUT
    ensures var f := s.tinfo[c].owner;
            && f in s.conts && s.conts[f].Wait? && s.conts[f].frame.call == c
            && s.conts[f].began <= s.clock && s.conts[f].seen <= s.rolled
            && (s.conts[f].seen < s.rolled
                || (s.conts[f].frame.timeout.Some?
                    && s.conts[f].began + s.conts[f].frame.timeout.value <= s.clock))
  {
    hide Reachable;
    ReachableInv(s);
    hide TokenInv, StateInv, OwnerInv, TimerInv, QueueInv, IoInv, WorkerInv;
    assert CallOf(s.conts, s.tinfo, c);
  }

  // ------------------------------------------------------------------- delEvent

  /** delEvent wakes nobody: it loses a fiber exactly when a fiber was waiting
      there. */
  lemma ForgetIff(s: State, fd: nat, ev: Event)
    requires Reachable(s) && InUser(s)
    ensures var s' := s.(io := DelEvent(s.io, fd, ev, false).0);
            (forall f :: Alive(s'.conts, f) ==> exists p :: At(s', f, p))
            <==> (fd < |s.io.fds| ==> s.io.fds[fd].Get(ev).fiber.None?)
  {
    hide Reachable, Inv, DelEvent;
    ReachableInv(s);
    var s' := s.(io := DelEvent(s.io, fd, ev, false).0);
    if fd < |s.io.fds| && s.io.fds[fd].Get(ev).fiber.Some? {
      ForgetLoses(s, fd, ev, s.io.fds[fd].Get(ev).fiber.value);
    } else {
      ForgetKeeps(s, fd, ev, false);
      forall f | Alive(s'.conts, f) ensures exists p :: At(s', f, p) {
        var p := SomePlace(s', f);
      }
    }
  }

  lemma ForgetLoses(s: State, fd: nat, ev: Event, f: FiberId)
    requires Reachable(s) && InUser(s) && At(s, f, Context(fd, ev))
    ensures var s' := s.(io := DelEvent(s.io, fd, ev, false).0);
            Alive(s'.conts, f) && forall p :: !At(s', f, p)
  {
    hide Reachable, Inv, DelEvent, At;
    ReachableInv(s);
    ForgetDrops(s, fd, ev, f);
  }

  lemma ForgetDrops(s: State, fd: nat, ev: Event, f: FiberId)
    requires Inv(s) && At(s, f, Context(fd, ev))
    ensures var s' := s.(io := DelEvent(s.io, fd, ev, false).0);
            Alive(s'.conts, f) && forall p :: !At(s', f, p)
  {
    hide Inv, DelEvent;
    var s' := s.(io := DelEvent(s.io, fd, ev, false).0);
    OnePlace(s, f, Context(fd, ev), Context(fd, ev));
    ForgottenShape(s, fd, ev, f);
    forall p ensures !At(s', f, p) {
      if At(s', f, p) {
        assert At(s, f, p);
        OnePlace(s, f, p, Context(fd, ev));
      }
    }
  }

  /** A request of the running fiber keeps the invariant exactly when it is not a
      delEvent, obeyed by the kernel, on an event a fiber waits for. */
  lemma RequestKeepsIff(s: State, r: Request)
    requires Inv(s) && MayRequest(s, r)
    ensures Inv(DoRequest(s, r)) <==> !Loses(s, r)
  {
    hide Inv, MayRequest, DelEvent, At;
    if Loses(s, r) {
      hide DoRequest;
      var f := s.io.fds[r.fd].Get(r.event).fiber.value;
      LosesPlace(s, r, f);
      if Inv(DoRequest(s, r)) {
        var p := SomePlace(DoRequest(s, r), f);
      }
    } else {
      hide DoRequest;
      RequestKeeps(s, r);
    }
  }

  lemma LosesPlace(s: State, r: Request, f: FiberId)
    requires Inv(s) && Loses(s, r) && s.io.fds[r.fd].Get(r.event).fiber == Some(f)
    ensures var s' := DoRequest(s, r);
            Alive(s'.conts, f) && forall p :: !At(s', f, p)
  {
    hide Inv, DelEvent;
    ForgetDrops(s, r.fd, r.event, f);
    assert DoRequest(s, r) == s.(io := DelEvent(s.io, r.fd, r.event, false).0);
    hide DoRequest;
  }

  lemma ForgottenShape(s: State, fd: nat, ev: Event, f: FiberId)
    requires Inv(s) && At(s, f, Context(fd, ev))
    ensures var io' := DelEvent(s.io, fd, ev, false).0;
            && io'.queue == s.io.queue
            && io'.fds == s.io.fds[fd := s.io.fds[fd].Put(ev, false, NOBODY)]
  {
    hide TokenInv, StateInv, OwnerInv, FrameInv, TimerInv, QueueInv, CancelInv, WorkerInv;
    assert FdOk(s.io.fds[fd]);
    CtlAlwaysLegal(s.io, fd);
  }

  // --------------------------------------------------------------- a run that ends

  /** A manager that is stopped at once leaves its loop: the premise of the drain
      theorem is met by some run. */
  lemma SomeRunLeaves() returns (s0: State, acts: seq<Action>)
    ensures Init(s0) && Legal(s0, acts) && After(s0, acts).pc.Left?
  {
    var io := Io(seq(INITIAL_FDS, _ => FRESH_FD), 0, map[], [], false, false);
    s0 := State(io, map[], 0, 1, map[], map[], map[], {}, {}, 0, Top, None, INIT, 0, 0, false, 0);
    var s1 := s0.(stop := true);
    var s2 := s1.(idle := EXEC, idlers := 1, pc := Idle);
    var s3 := s1.(idle := TERM);
    var s4 := s3.(pc := Left);
    assert Next(s0, AWorld(Stop)) == s1;
    assert Next(s1, ATurn(FindNothing)) == s2;
    assert Next(s2, ATurn(IdleCheck)) == s3;
    assert Next(s3, ATurn(FindNothing)) == s4;
    hide Next, Enabled;
    assert Legal(s4, []);
    acts := [ATurn(FindNothing)];
    assert acts[1..] == [];
    assert Legal(s3, acts) && After(s3, acts) == s4;
    acts := [ATurn(IdleCheck)] + acts;
    assert acts[1..] == [ATurn(FindNothing)];
    assert Legal(s2, acts) && After(s2, acts) == s4;
    var last := acts;
    acts := [ATurn(FindNothing)] + acts;
    assert acts[1..] == last;
    assert Legal(s1, acts) && After(s1, acts) == s4;
    last := acts;
    acts := [AWorld(Stop)] + acts;
    assert acts[1..] == last;
  }
}

/** The one-worker I/O runtime as a state machine: `Schedular::run`,
    `IOManager::idle`, the timer set and the hooked blocking calls
    (src/schedular.cpp, src/iomanager.cpp, src/timer.cpp, src/hook.cpp).

    With one worker scheduling is cooperative.  A suspended C++ stack is a
    `Cont`: where the fiber goes on when it is resumed.  User code is arbitrary:
    while a user fiber runs, any action marked as a call may come next. */
module Runtime {
  import opened Types
  import opened TaskQueue
  import opened EventTable
  import T = TimerSet

  const ETIMEDOUT := 110
  const MAX_EVENTS := 256

  /** do_io retries after a wake-up, connect_with_timeout does not. */
  datatype Kind = DoIo | Connect

  /** A live hooked call; `timeout` is none for (uint64_t)-1. */
  datatype Frame = Frame(call: nat, kind: Kind, fd: nat, event: Event, timeout: Option<nat>)

  /** Where a fiber stands: it has ended (or is the recycled callback fiber, with
      no callback in it), is in user code, is at the `retry` label of a hooked
      call, or is suspended in a hooked call or a hooked sleep. */
  datatype Cont =
    | Ended
    | User
    | Retry(frame: Frame)
    | Wait(frame: Frame, timer: Option<nat>, began: nat, seen: nat)
    | Sleep(alarm: nat)

  /** The `timer_info` of a live call and the fiber whose stack owns it. */
  datatype TimerInfo = TimerInfo(cancelled: nat, owner: FiberId)

  /** Where the worker is: at the head of the loop, in the idle fiber before its
      stop test, in epoll_wait, running a fiber, or out of `run`. */
  datatype Pc = Top | Idle | Polling | Run(fiber: FiberId, viaCb: bool) | Left

  datatype State = State(
    io: Io,
    timers: T.Pending,
    previous: nat,
    clock: nat,
    states: map<FiberId, FiberState>,
    conts: map<FiberId, Cont>,
    tinfo: map<nat, TimerInfo>,
    usedCalls: set<nat>,
    usedTimers: set<nat>,
    thread: int,
    pc: Pc,
    cbFiber: Option<FiberId>,
    idle: FiberState,
    active: int,
    idlers: int,
    stop: bool,
    rolled: nat)  // how many rollovers have been reported

  /** What the world does: the clock, other threads, stop(). */
  datatype World =
    | Tick(now: nat)
    | External(cb: nat, thread: int)
    | ExternalFiber(newFiber: FiberId, thread: int)
    | ExternalTimer(ms: nat, recurring: bool, cb: nat, timer: nat)
    | Stop

  /** What the worker loop and the idle fiber do. */
  datatype Turn =
    | Take(newFiber: FiberId, refuse: bool)
    | FindNothing
    | IdleCheck
    | IdleHandle(order: seq<nat>, reports: seq<Report>)

  /** Hooked calls of the running fiber, and its end. */
  datatype Hooked =
    | Yield
    | GoToSleep(ms: nat, timer: nat)
    | IoCall(frame: Frame)
    | IoReturn
    | IoBlock(timer: nat, refuse: bool)
    | Finish(ok: bool)

  /** Other calls of the running fiber into the manager. */
  datatype Request =
    | Schedule(cb: nat, thread: int)
    | Spawn(newFiber: FiberId, thread: int)
    | Watch(fd: nat, event: Event, cb: nat, refuse: bool)
    | Cancel(fd: nat, event: Event, refuse: bool)
    | CancelFd(fd: nat, refuse: bool)
    | Forget(fd: nat, event: Event, refuse: bool)

  datatype TimerCall =
    | StartTimer(ms: nat, recurring: bool, cb: nat, timer: nat)
    | StopTimer(timer: nat)
    | RefreshTimer(timer: nat)
    | ResetTimer(timer: nat, ms: nat, fromNow: bool)

  datatype Action = AWorld(w: World) | ATurn(t: Turn) | AHooked(h: Hooked) | ARequest(r: Request) | ATimer(c: TimerCall)

  predicate Init(s: State) {
    && s.io == Io(seq(INITIAL_FDS, _ => FRESH_FD), 0, map[], [], false, false)
    && s.timers == map[] && s.states == map[] && s.conts == map[] && s.tinfo == map[]
    && s.usedCalls == {} && s.usedTimers == {}
    && 0 < s.clock && s.thread != -1
    && s.pc == Top && s.cbFiber == None && s.idle == INIT
    && s.active == 0 && s.idlers == 0 && s.rolled == 0
  }

  // ------------------------------------------------------------------- pieces

  function Push(s: State, t: Task): State {
    s.(io := s.io.(queue := Enqueue(s.io.queue, t)))
  }

  function Fault(s: State, bad: bool): State {
    s.(io := s.io.(fault := s.io.fault || bad))
  }

  /** The running fiber leaves in state `st`, and `run` deals with it
      (src/schedular.cpp:152-158 and 170-180). */
  function SwapOut(s: State, st: FiberState): State
    requires s.pc.Run?
  {
    var f := s.pc.fiber;
    var s1 := s.(active := s.active - 1, pc := Top);
    if st == READY then
      Push(s1.(states := s.states[f := READY],
                cbFiber := if s.pc.viaCb then None else s.cbFiber), Task(Some(f), None, -1))
    else if Over(st) then
      if s.pc.viaCb then s1.(states := s.states[f := INIT], conts := s.conts[f := Ended])
      else s1.(states := s.states[f := st], conts := s.conts[f := Ended])
    else
      s1.(states := s.states[f := HOLD], cbFiber := if s.pc.viaCb then None else s.cbFiber)
  }

  /** A hooked call returns: its `timer_info` dies with the stack frame. */
  function Return(s: State, f: FiberId, call: nat): State {
    s.(conts := s.conts[f := User], tinfo := s.tinfo - {call})
  }

  /** A fiber goes on after YieldToHold (src/hook.cpp:140-147 and 242-248). */
  function Resume(s: State, f: FiberId): State
    requires f in s.conts
  {
    match s.conts[f]
    case Wait(frame, timer, _, _) =>
      var s1 := s.(timers := Disarm(s.timers, timer));
      if frame.call in s.tinfo && s.tinfo[frame.call].cancelled != 0 then Return(s1, f, frame.call)
      else if frame.kind == DoIo then s1.(conts := s1.conts[f := Retry(frame)])
      else Return(s1, f, frame.call)
    case Sleep(_) => s.(conts := s.conts[f := User])
    case _ => s
  }

  /** The timeout closure of a hooked call (src/hook.cpp:121-128, src/timer.cpp:105-110). */
  function Fire(s: State, call: nat, fd: nat, ev: Event, refuse: bool): State {
    if call !in s.tinfo || s.tinfo[call].cancelled != 0 then s
    else
      s.(tinfo := s.tinfo[call := s.tinfo[call].(cancelled := ETIMEDOUT)],
         io := CancelEvent(s.io, fd, ev, refuse).0)
  }

  /** The worker takes the fiber that runs callbacks: the recycled one or a new
      one (src/schedular.cpp:160-168). */
  function Acquire(s: State, newFiber: FiberId): State {
    var g := if s.cbFiber.Some? then s.cbFiber.value else newFiber;
    var bad := s.cbFiber.Some? && !(g in s.states && (Over(s.states[g]) || s.states[g] == INIT));
    Fault(s.(states := s.states[g := EXEC], conts := s.conts[g := User], cbFiber := Some(g),
             active := s.active + 1, pc := Run(g, true)), bad)
  }

  function RunCallback(s: State, cb: Callback, newFiber: FiberId, refuse: bool): State {
    var s1 := Acquire(s, newFiber);
    match cb
    case UserCb(_) => s1
    case WakeFiber(f) => SwapOut(Push(s1, Task(Some(f), None, -1)), TERM)
    case Timeout(call, _, fd, ev) => SwapOut(Fire(s1, call, fd, ev, refuse), TERM)
  }

  function RunFiber(s: State, f: FiberId): State
    requires f in s.states && f in s.conts
  {
    Resume(Fault(s.(states := s.states[f := EXEC], active := s.active + 1, pc := Run(f, false)),
                 s.states[f] == EXEC), f)
  }

  function Picked(s: State): nat {
    Pick(s.io.queue, s.thread, s.states)
  }

  /** One turn of the worker loop that found a task. */
  function TakeTask(s: State, newFiber: FiberId, refuse: bool): State
    requires Picked(s) < |s.io.queue|
  {
    var t := s.io.queue[Picked(s)];
    var s1 := s.(io := s.io.(queue := Without(s.io.queue, Picked(s)),
                             fault := s.io.fault || !(t.fiber.Some? || t.cb.Some?)));
    if t.fiber.Some? && t.fiber.value in s.states && t.fiber.value in s.conts
       && !Over(s.states[t.fiber.value]) then
      RunFiber(s1, t.fiber.value)
    else if t.cb.Some? then RunCallback(s1, t.cb.value, newFiber, refuse)
    else s1
  }

  /** getNextTimer returns the "none" value. */
  predicate NoNextTimer(m: T.Pending, now: nat) {
    m == map[] || exists a :: a in m && IsFirst(m, a) && m[a].next - now == T.NO_TIMER
  }

  predicate IsFirst(m: T.Pending, a: nat)
    requires a in m
  {
    forall b :: b in m ==> m[a].next <= m[b].next
  }

  /** IOManager::stopping (src/iomanager.cpp:237-243). */
  predicate Stopping(s: State) {
    && NoNextTimer(s.timers, s.clock)
    && s.io.pending == 0 && s.stop && s.io.queue == [] && s.active == 0
  }

  /** Releasing the first `n` of the listed timers. */
  function ReleaseQueue(q: seq<Task>, m: T.Pending, order: seq<nat>, n: nat): seq<Task>
    requires n <= |order| && forall i :: 0 <= i < |order| ==> order[i] in m
  {
    if n == 0 then q
    else ReleaseQueue(q, m, order, n - 1) + [Task(None, Some(m[order[n - 1]].cb), -1)]
  }

  predicate RolledOver(s: State) {
    s.timers != map[] && s.clock > s.previous + T.ROLLOVER_MS
  }

  /** How many rollovers have been reported after this pass. */
  function Rollovers(s: State): nat {
    if RolledOver(s) then s.rolled + 1 else s.rolled
  }

  /** The listed timers are those to be released, each once, in set order. */
  predicate Lists(order: seq<nat>, m: T.Pending, now: nat, rollover: bool) {
    && (forall i :: 0 <= i < |order| ==> order[i] in m && T.Due(m[order[i]], now, rollover))
    && (forall a :: a in m && T.Due(m[a], now, rollover) ==> a in order)
    && (forall i, j :: 0 <= i < j < |order| ==> order[i] != order[j] && T.Less(m[order[i]], m[order[j]]))
  }

  /** The rest of an idle pass after epoll_wait returned. */
  function HandleIdle(s: State, order: seq<nat>, reports: seq<Report>): State
    requires forall i :: 0 <= i < |order| ==> order[i] in s.timers
  {
    var io1 := s.io.(queue := ReleaseQueue(s.io.queue, s.timers, order, |order|));
    s.(io := HandleReports(io1, reports, |reports|),
       timers := T.AfterRelease(s.timers, s.clock, RolledOver(s)),
       previous := if s.timers == map[] then s.previous else s.clock,
       rolled := Rollovers(s),
       idle := HOLD, idlers := s.idlers - 1, pc := Top)
  }

  predicate AtRetry(s: State) {
    s.pc.Run? && s.pc.fiber in s.conts && s.pc.fiber in s.states && s.conts[s.pc.fiber].Retry?
  }

  /** The condition timer of the wait round that is about to begin. */
  function TimeoutOf(s: State, timer: nat): T.Entry
    requires AtRetry(s) && s.conts[s.pc.fiber].frame.timeout.Some?
  {
    var fr := s.conts[s.pc.fiber].frame;
    T.Entry(s.clock + fr.timeout.value, timer, fr.timeout.value, false, Timeout(fr.call, timer, fr.fd, fr.event))
  }

  /** The timers once the round's own has been added, if it has a timeout. */
  function ArmedWith(s: State, timer: nat): T.Pending
    requires AtRetry(s)
  {
    if s.conts[s.pc.fiber].frame.timeout.Some? then s.timers[timer := TimeoutOf(s, timer)] else s.timers
  }

  function Arm(s: State, timer: nat): State
    requires AtRetry(s)
  {
    s.(timers := ArmedWith(s, timer), usedTimers := s.usedTimers + {timer})
  }

  /** `if(timer) timer->cancel()`. */
  function Disarm(timers: T.Pending, timer: Option<nat>): T.Pending {
    if timer.Some? then timers - {timer.value} else timers
  }

  /** do_io found EAGAIN: arm the timeout, register, then yield, or cancel the timer
      and give up if the registration was refused (src/hook.cpp:113-139). */
  function Block(s: State, timer: nat, refuse: bool): State
    requires AtRetry(s)
  {
    var f := s.pc.fiber;
    var fr := s.conts[f].frame;
    var own := if fr.timeout.Some? then Some(timer) else None;
    var s1 := Arm(s, timer);
    var (io1, ok) := AddEvent(s1.io, fr.fd, fr.event, WaitFiber(f, s1.states[f]), refuse);
    if !ok then Return(s1.(io := io1, timers := Disarm(s1.timers, own)), f, fr.call)
    else SwapOut(s1.(io := io1, conts := s1.conts[f := Wait(fr, own, s.clock, s.rolled)]), HOLD)
  }

  // ------------------------------------------------------------------- actions

  predicate InUser(s: State) {
    s.pc.Run? && s.pc.fiber in s.conts && s.conts[s.pc.fiber] == User
  }

  predicate OnWire(c: Cont, fd: nat, ev: Event) {
    (c.Retry? || c.Wait?) && c.frame.fd == fd && c.frame.event == ev
  }

  /** Nobody else waits for this event of this descriptor. */
  ghost predicate Unwatched(s: State, fd: nat, ev: Event) {
    && (fd < |s.io.fds| ==> !s.io.fds[fd].events.Has(ev))
    && (forall f :: f in s.conts ==> !OnWire(s.conts[f], fd, ev))
  }

  /** The user got this timer from addTimer. */
  predicate UserTimer(s: State, timer: nat) {
    timer in s.timers ==> s.timers[timer].cb.UserCb?
  }

  predicate Fits(clock: nat, ms: nat) {
    clock + ms < T.TWO_64
  }

  predicate CanWorld(s: State, w: World) {
    match w
    case Tick(now) => s.clock <= now
    case External(_, _) => !s.stop
    case ExternalFiber(newFiber, _) => !s.stop && newFiber !in s.conts && newFiber !in s.states
    case ExternalTimer(ms, _, _, timer) => !s.stop && timer !in s.usedTimers && Fits(s.clock, ms)
    case Stop => true
  }

  function DoWorld(s: State, w: World): State {
    match w
    case Tick(now) => s.(clock := now)
    case External(cb, thread) => Push(s, Task(None, Some(UserCb(cb)), thread))
    case ExternalFiber(newFiber, thread) => Born(s, newFiber, thread)
    case ExternalTimer(ms, recurring, cb, timer) => StartedTimer(s, ms, recurring, cb, timer)
    case Stop => s.(stop := true)
  }

  /** The kernel's answer and the listing the timer set produces. */
  ghost predicate CanHandle(s: State, order: seq<nat>, reports: seq<Report>) {
    && s.pc.Polling?
    && Lists(order, s.timers, s.clock, RolledOver(s))
    && (forall a :: a in s.timers && T.Due(s.timers[a], s.clock, RolledOver(s)) && s.timers[a].recurring ==>
          Fits(s.clock, s.timers[a].ms))
    && |reports| <= MAX_EVENTS && Truthful(s.io.epoll, reports)
  }

  ghost predicate CanTurn(s: State, t: Turn) {
    match t
    case Take(newFiber, _) => s.pc.Top? && Picked(s) < |s.io.queue| && newFiber !in s.conts && newFiber !in s.states
    case FindNothing => s.pc.Top? && Picked(s) == |s.io.queue|
    case IdleCheck => s.pc.Idle?
    case IdleHandle(order, reports) => CanHandle(s, order, reports)
  }

  ghost function DoTurn(s: State, t: Turn): State
    requires CanTurn(s, t)
  {
    match t
    case Take(newFiber, refuse) => TakeTask(s, newFiber, refuse)
    case FindNothing => EnterIdle(s)
    case IdleCheck => CheckIdle(s)
    case IdleHandle(order, reports) => HandleIdle(s, order, reports)
  }

  /** Nothing to run: leave if the idle fiber has ended, else run it. */
  function EnterIdle(s: State): State {
    if s.idle == TERM then s.(pc := Left)
    else Fault(s.(idle := EXEC, idlers := s.idlers + 1, pc := Idle), s.idle == EXEC)
  }

  function CheckIdle(s: State): State {
    if Stopping(s) then s.(idle := TERM, idlers := s.idlers - 1, pc := Top) else s.(pc := Polling)
  }

  ghost predicate CanHooked(s: State, h: Hooked) {
    match h
    case Yield => InUser(s)
    case GoToSleep(ms, timer) => InUser(s) && timer !in s.usedTimers && Fits(s.clock, ms)
    case IoCall(frame) => InUser(s) && frame.call !in s.usedCalls && Unwatched(s, frame.fd, frame.event)
    case IoReturn => AtRetry(s)
    case IoBlock(timer, _) =>
      && AtRetry(s) && timer !in s.usedTimers
      && (s.conts[s.pc.fiber].frame.timeout.Some? ==> Fits(s.clock, s.conts[s.pc.fiber].frame.timeout.value))
    case Finish(_) => InUser(s)
  }

  ghost function DoHooked(s: State, h: Hooked): State
    requires CanHooked(s, h)
  {
    match h
    case Yield => Fault(SwapOut(s, READY), !Executing(s))
    case GoToSleep(ms, timer) => Slumber(s, ms, timer)
    case IoCall(frame) => Begin(s, frame)
    case IoReturn => Return(s, s.pc.fiber, s.conts[s.pc.fiber].frame.call)
    case IoBlock(timer, refuse) => Fault(Block(s, timer, refuse), !Executing(s))
    case Finish(ok) => SwapOut(s, if ok then TERM else EXCEPT)
  }

  /** A hooked sleep: a timer that schedules the fiber, then yield. */
  function Slumber(s: State, ms: nat, timer: nat): State
    requires s.pc.Run?
  {
    var f := s.pc.fiber;
    Fault(SwapOut(s.(timers := s.timers[timer := T.Entry(s.clock + ms, timer, ms, false, WakeFiber(f))],
                     usedTimers := s.usedTimers + {timer},
                     conts := s.conts[f := Sleep(timer)]), HOLD), !Executing(s))
  }

  /** A hooked call on a socket in blocking mode starts. */
  function Begin(s: State, frame: Frame): State
    requires s.pc.Run?
  {
    s.(conts := s.conts[s.pc.fiber := Retry(frame)],
       tinfo := s.tinfo[frame.call := TimerInfo(0, s.pc.fiber)],
       usedCalls := s.usedCalls + {frame.call})
  }

  /** A new fiber is new, and an event is watched once. */
  ghost predicate MayRequest(s: State, r: Request) {
    InUser(s)
    && match r
       case Spawn(newFiber, _) => newFiber !in s.conts && newFiber !in s.states
       case Watch(fd, ev, _, _) => Unwatched(s, fd, ev)
       case _ => true
  }

  /** delEvent, not refused, on an event a fiber waits for. */
  predicate Loses(s: State, r: Request) {
    r.Forget? && !r.refuse && r.fd < |s.io.fds| && s.io.fds[r.fd].Get(r.event).fiber.Some?
  }

  ghost predicate CanRequest(s: State, r: Request) {
    MayRequest(s, r) && !Loses(s, r)
  }

  function DoRequest(s: State, r: Request): State {
    match r
    case Schedule(cb, thread) => Push(s, Task(None, Some(UserCb(cb)), thread))
    case Spawn(newFiber, thread) => Born(s, newFiber, thread)
    case Watch(fd, ev, cb, refuse) => s.(io := AddEvent(s.io, fd, ev, WaitCb(cb), refuse).0)
    case Cancel(fd, ev, refuse) => s.(io := CancelEvent(s.io, fd, ev, refuse).0)
    case CancelFd(fd, refuse) => s.(io := CancelAll(s.io, fd, refuse).0)
    case Forget(fd, ev, refuse) => s.(io := DelEvent(s.io, fd, ev, refuse).0)
  }

  /** A new fiber is scheduled. */
  function Born(s: State, newFiber: FiberId, thread: int): State {
    Push(s.(states := s.states[newFiber := INIT], conts := s.conts[newFiber := User]),
         Task(Some(newFiber), None, thread))
  }

  ghost predicate CanTimer(s: State, c: TimerCall) {
    InUser(s)
    && match c
       case StartTimer(ms, _, _, timer) => timer !in s.usedTimers && Fits(s.clock, ms)
       case StopTimer(timer) => UserTimer(s, timer)
       case RefreshTimer(timer) => UserTimer(s, timer) && (timer in s.timers ==> Fits(s.clock, s.timers[timer].ms))
       case ResetTimer(timer, ms, fromNow) =>
         && UserTimer(s, timer)
         && (timer in s.timers && s.timers[timer].ms <= s.timers[timer].next ==>
               T.Restarted(s.timers[timer], ms, fromNow, s.clock).next < T.TWO_64)
  }

  /** addTimer with a callback of the user's. */
  function StartedTimer(s: State, ms: nat, recurring: bool, cb: nat, timer: nat): State {
    s.(timers := s.timers[timer := T.Entry(s.clock + ms, timer, ms, recurring, UserCb(cb))],
       usedTimers := s.usedTimers + {timer})
  }

  function DoTimer(s: State, c: TimerCall): State {
    match c
    case StartTimer(ms, recurring, cb, timer) =>
      StartedTimer(s, ms, recurring, cb, timer)
    case StopTimer(timer) => s.(timers := s.timers - {timer})
    case RefreshTimer(timer) =>
      if timer in s.timers then s.(timers := s.timers[timer := T.Refreshed(s.timers[timer], s.clock)]) else s
    case ResetTimer(timer, ms, fromNow) =>
      if timer in s.timers && s.timers[timer].ms <= s.timers[timer].next
      then s.(timers := s.timers[timer := T.Restarted(s.timers[timer], ms, fromNow, s.clock)])
      else s
  }

  ghost predicate Enabled(s: State, a: Action) {
    match a
    case AWorld(w) => CanWorld(s, w)
    case ATurn(t) => CanTurn(s, t)
    case AHooked(h) => CanHooked(s, h)
    case ARequest(r) => CanRequest(s, r)
    case ATimer(c) => CanTimer(s, c)
  }

  ghost function Next(s: State, a: Action): State
    requires Enabled(s, a)
  {
    match a
    case AWorld(w) => DoWorld(s, w)
    case ATurn(t) => DoTurn(s, t)
    case AHooked(h) => DoHooked(s, h)
    case ARequest(r) => DoRequest(s, r)
    case ATimer(c) => DoTimer(s, c)
  }

  /** The assertion in YieldToReady and YieldToHold. */
  predicate Executing(s: State) {
    s.pc.Run? && s.pc.fiber in s.states && s.states[s.pc.fiber] == EXEC
  }

  // ---------------------------------------------------------------------- runs

  ghost predicate Legal(s: State, acts: seq<Action>)
    decreases |acts|
  {
    acts == [] || (Enabled(s, acts[0]) && Legal(Next(s, acts[0]), acts[1..]))
  }

  ghost function After(s: State, acts: seq<Action>): State
    requires Legal(s, acts)
    decreases |acts|
  {
    if acts == [] then s else After(Next(s, acts[0]), acts[1..])
  }
}

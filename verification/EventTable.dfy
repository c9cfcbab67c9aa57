/** The descriptor table of the I/O manager (src/iomanager.cpp): per-descriptor
    event contexts, the pending-event counter and the kernel's epoll set, which
    the table must mirror.  The functions say what each operation does to the
    table and the task queue; `IoManagement.IOManager` performs them in place. */
module EventTable {
  import opened Types
  import opened Gathering
  import opened TaskQueue

  datatype Events = Events(read: bool, write: bool) {
    predicate Has(ev: Event) {
      match ev case READ => read case WRITE => write
    }
    function Set(ev: Event, on: bool): Events {
      match ev case READ => this.(read := on) case WRITE => this.(write := on)
    }
    predicate IsNone() {
      !read && !write
    }
    function Count(): nat {
      (if read then 1 else 0) + (if write then 1 else 0)
    }
    function Minus(that: Events): Events {
      Events(read && !that.read, write && !that.write)
    }
    function Meet(that: Events): Events {
      Events(read && that.read, write && that.write)
    }
    function Join(that: Events): Events {
      Events(read || that.read, write || that.write)
    }
  }

  /** Who is waiting; `cb` is the number of a user callback. */
  datatype EventContext = EventContext(scheduler: bool, fiber: Option<FiberId>, cb: Option<nat>)

  const NOBODY := EventContext(false, None, None)

  datatype FdContext = FdContext(events: Events, read: EventContext, write: EventContext) {
    function Get(ev: Event): EventContext {
      match ev case READ => read case WRITE => write
    }
    function Put(ev: Event, on: bool, ctx: EventContext): FdContext {
      match ev
      case READ => FdContext(events.Set(READ, on), ctx, write)
      case WRITE => FdContext(events.Set(WRITE, on), read, ctx)
    }
  }

  const NO_EVENTS := Events(false, false)
  const FRESH_FD := FdContext(NO_EVENTS, NOBODY, NOBODY)
  const INITIAL_FDS := 32

  datatype CtlOp = ADD | MOD | DEL

  /** An epoll interest mask; `edge` is EPOLLET. */
  datatype Mask = Mask(edge: bool, events: Events)

  type Epoll = map<nat, Mask>

  /** `badCtl` records a request the kernel would reject for the wrong kind of
      operation, `fault` a failed internal assertion. */
  datatype Io = Io(fds: seq<FdContext>, pending: int, epoll: Epoll, queue: seq<Task>, fault: bool, badCtl: bool)

  // --------------------------------------------------------------------- epoll

  /** ADD wants an absent descriptor, MOD and DEL a present one. */
  predicate CtlLegal(epoll: Epoll, op: CtlOp, fd: nat) {
    op.ADD? <==> fd !in epoll
  }

  function CtlEffect(epoll: Epoll, op: CtlOp, fd: nat, events: Events): Epoll {
    if op.DEL? then epoll - {fd} else epoll[fd := Mask(true, events)]
  }

  /** A control request; the kernel may also refuse it for reasons of its own. */
  function Ctl(io: Io, op: CtlOp, fd: nat, events: Events, refuse: bool): (Io, bool) {
    var legal := CtlLegal(io.epoll, op, fd);
    var io' := io.(badCtl := io.badCtl || !legal);
    if legal && !refuse then (io'.(epoll := CtlEffect(io.epoll, op, fd, events)), true) else (io', false)
  }

  // ---------------------------------------------------------------- operations

  function NewSize(fd: nat): nat {
    fd * 3 / 2
  }

  /** Growing the table keeps what is there and fills up with fresh contexts. */
  function Grow(fds: seq<FdContext>, fd: nat): (r: seq<FdContext>)
    ensures |r| == if fd < |fds| then |fds| else fd * 3 / 2
    ensures |r| >= |fds|
    ensures forall i :: 0 <= i < |r| ==> r[i] == if i < |fds| then fds[i] else FRESH_FD
  {
    if fd < |fds| then fds
    else fds + seq(NewSize(fd) - |fds|, _ => FRESH_FD)
  }

  /** The task a waiter becomes when it is woken. */
  function TaskOf(ctx: EventContext): Task {
    if ctx.cb.Some? then Task(None, Some(UserCb(ctx.cb.value)), -1) else Task(ctx.fiber, None, -1)
  }

  /** triggerEvent: clears the bit and moves the waiter's handle to the queue. */
  function Trigger(io: Io, fd: nat, ev: Event): Io
    requires fd < |io.fds|
  {
    var c := io.fds[fd];
    var ctx := c.Get(ev);
    var left := if ctx.cb.Some? then EventContext(false, ctx.fiber, None) else NOBODY;
    io.(fds := io.fds[fd := c.Put(ev, false, left)],
        queue := Enqueue(io.queue, TaskOf(ctx)),
        fault := io.fault || !c.events.Has(ev) || !ctx.scheduler)
  }

  /** addEvent: `waiter` is the current fiber (with its state) or a callback. */
  datatype Waiter = WaitFiber(fiber: FiberId, state: FiberState) | WaitCb(cb: nat)

  function ContextOf(w: Waiter): EventContext {
    match w
    case WaitFiber(f, _) => EventContext(true, Some(f), None)
    case WaitCb(cb) => EventContext(true, None, Some(cb))
  }

  function AddEvent(io0: Io, fd: nat, ev: Event, w: Waiter, refuse: bool): (Io, bool) {
    var io := io0.(fds := Grow(io0.fds, fd));
    if fd >= |io.fds| then (io.(fault := true), false)
    else
      var c := io.fds[fd];
      var (io1, ok) := Ctl(io.(fault := io.fault || c.events.Has(ev)),
                           if c.events.IsNone() then ADD else MOD, fd, c.events.Set(ev, true), refuse);
      if !ok then (io1, false)
      else
        (io1.(pending := io1.pending + 1,
              fds := io1.fds[fd := c.Put(ev, true, ContextOf(w))],
              fault := io1.fault || c.Get(ev) != NOBODY || (w.WaitFiber? && w.state != EXEC)),
         true)
  }

  /** delEvent: forgets the waiter without waking it. */
  function DelEvent(io: Io, fd: nat, ev: Event, refuse: bool): (Io, bool) {
    if fd >= |io.fds| || !io.fds[fd].events.Has(ev) then (io, false)
    else
      var c := io.fds[fd];
      var left := c.events.Set(ev, false);
      var (io1, ok) := Ctl(io, if left.IsNone() then DEL else MOD, fd, left, refuse);
      if !ok then (io1, false)
      else (io1.(pending := io1.pending - 1, fds := io1.fds[fd := c.Put(ev, false, NOBODY)]), true)
  }

  /** cancelEvent: forgets the registration and wakes the waiter. */
  function CancelEvent(io: Io, fd: nat, ev: Event, refuse: bool): (Io, bool) {
    if fd >= |io.fds| || !io.fds[fd].events.Has(ev) then (io, false)
    else
      var left := io.fds[fd].events.Set(ev, false);
      var (io1, ok) := Ctl(io, if left.IsNone() then DEL else MOD, fd, left, refuse);
      if !ok then (io1, false) else (Wake(io1, fd, ev), true)
  }

  function Wake(io: Io, fd: nat, ev: Event): Io
    requires fd < |io.fds|
  {
    var io' := Trigger(io, fd, ev);
    io'.(pending := io'.pending - 1)
  }

  /** Wakes the waiters of the given events, reading first. */
  function WakeAll(io: Io, fd: nat, evs: Events): Io
    requires fd < |io.fds|
  {
    var io1 := if evs.read then Wake(io, fd, READ) else io;
    if evs.write then Wake(io1, fd, WRITE) else io1
  }

  function CancelAll(io: Io, fd: nat, refuse: bool): (Io, bool) {
    if fd >= |io.fds| || io.fds[fd].events.IsNone() then (io, false)
    else
      var (io1, ok) := Ctl(io, DEL, fd, NO_EVENTS, refuse);
      if !ok then (io1, false)
      else
        var io2 := WakeAll(io1, fd, io.fds[fd].events);
        (io2.(fault := io2.fault || !io2.fds[fd].events.IsNone()), true)
  }

  // ------------------------------------------------------- events from the kernel

  /** What epoll_wait reports: the wake-up pipe, or a descriptor with ready bits
      and possibly EPOLLERR/EPOLLHUP.  `refuse` is the kernel's answer to the
      control request that follows. */
  datatype Report = Tickle | Ready(fd: nat, bits: Events, err: bool, refuse: bool)

  function HandleReport(io: Io, r: Report): Io {
    if r.Tickle? || r.fd >= |io.fds| then io
    else
      var c := io.fds[r.fd];
      var fired := if r.err then r.bits.Join(c.events) else r.bits;
      if c.events.Meet(fired).IsNone() then io
      else
        var left := c.events.Minus(fired);
        var (io1, ok) := Ctl(io, if left.IsNone() then DEL else MOD, r.fd, left, r.refuse);
        if !ok then io1 else WakeAll(io1, r.fd, fired)
  }

  function HandleReports(io: Io, rs: seq<Report>, n: nat): Io
    requires n <= |rs|
  {
    if n == 0 then io else HandleReport(HandleReports(io, rs, n - 1), rs[n - 1])
  }

  /** The kernel reports only registered descriptors and only registered bits. */
  predicate Reportable(epoll: Epoll, r: Report) {
    r.Ready? ==> r.fd in epoll && r.bits.Minus(epoll[r.fd].events).IsNone()
  }

  /** Each descriptor is reported at most once. */
  predicate Truthful(epoll: Epoll, rs: seq<Report>) {
    && (forall i :: 0 <= i < |rs| ==> Reportable(epoll, rs[i]))
    && (forall i, j :: 0 <= i < j < |rs| && rs[i].Ready? && rs[j].Ready? ==> rs[i].fd != rs[j].fd)
  }

  // ----------------------------------------------------------------- invariants

  /** A bit is set exactly when its context has a scheduler and either a fiber or
      a callback, and not both. */
  predicate ContextOk(on: bool, ctx: EventContext) {
    if on then ctx.scheduler && ctx.fiber.Some? != ctx.cb.Some? else ctx == NOBODY
  }

  predicate FdOk(c: FdContext) {
    ContextOk(c.events.read, c.read) && ContextOk(c.events.write, c.write)
  }

  ghost predicate FdsOk(fds: seq<FdContext>) {
    |fds| >= INITIAL_FDS && forall fd :: 0 <= fd < |fds| ==> FdOk(fds[fd])
  }

  /** The kernel set mirrors the table. */
  ghost predicate Mirror(fds: seq<FdContext>, epoll: Epoll) {
    && (forall fd :: fd in epoll ==> fd < |fds|)
    && (forall fd :: 0 <= fd < |fds| ==>
          if fds[fd].events.IsNone() then fd !in epoll
          else fd in epoll && epoll[fd] == Mask(true, fds[fd].events))
  }

  /** How many event bits are set. */
  function Bits(fds: seq<FdContext>): nat {
    if fds == [] then 0 else fds[0].events.Count() + Bits(fds[1..])
  }

  ghost predicate QueueOk(q: seq<Task>) {
    forall i :: 0 <= i < |q| ==> NonNull(q[i])
  }

  ghost predicate IoInv(io: Io) {
    && FdsOk(io.fds)
    && Mirror(io.fds, io.epoll)
    && io.pending == Bits(io.fds)
    && QueueOk(io.queue)
    && !io.fault
    && !io.badCtl
  }

  lemma {:induction false} BitsUpdate(fds: seq<FdContext>, fd: nat, c: FdContext)
    requires fd < |fds|
    ensures Bits(fds[fd := c]) + fds[fd].events.Count() == Bits(fds) + c.events.Count()
  {
    if fd == 0 {
      assert fds[fd := c][1..] == fds[1..];
    } else {
      assert fds[fd := c][1..] == fds[1..][fd - 1 := c];
      BitsUpdate(fds[1..], fd - 1, c);
    }
  }

  lemma {:induction false} BitsFresh(fds: seq<FdContext>, n: nat)
    ensures Bits(fds + seq(n, _ => FRESH_FD)) == Bits(fds)
  {
    var more := seq(n, _ => FRESH_FD);
    if fds != [] {
      assert (fds + more)[1..] == fds[1..] + more;
      BitsFresh(fds[1..], n);
    } else if n > 0 {
      assert (fds + more)[1..] == fds + seq(n - 1, _ => FRESH_FD);
      BitsFresh(fds, n - 1);
    }
  }

  lemma {:induction false} NoBits(fds: seq<FdContext>, fd: nat)
    requires Bits(fds) == 0 && fd < |fds|
    ensures fds[fd].events.IsNone()
  {
    if fd > 0 {
      NoBits(fds[1..], fd - 1);
    }
  }

  // ------------------------------------------------------------- who holds whom

  function FdHandles(c: FdContext): multiset<FiberId> {
    Handle(c.read.fiber) + Handle(c.write.fiber)
  }

  function TaskWake(t: Task): multiset<FiberId> {
    if t.cb.Some? && t.cb.value.WakeFiber? then multiset{t.cb.value.fiber} else multiset{}
  }

  ghost function QueueWakes(q: seq<Task>): multiset<FiberId> { Gather(q, TaskWake) }
  ghost function TableHandles(fds: seq<FdContext>): multiset<FiberId> { Gather(fds, FdHandles) }

  /** A task put there by waking a registration. */
  predicate WokenTask(t: Task) {
    t.thread == -1 && NonNull(t) && (t.cb.Some? ==> t.cb.value.UserCb?)
  }

  ghost predicate Appended(q: seq<Task>, q': seq<Task>) {
    q <= q' && forall i :: |q| <= i < |q'| ==> WokenTask(q'[i])
  }

  /** Registrations either stay or are cleared. */
  ghost predicate Shrunk(fds: seq<FdContext>, fds': seq<FdContext>) {
    |fds'| == |fds|
    && forall fd, ev :: 0 <= fd < |fds| ==> fds'[fd].Get(ev) == fds[fd].Get(ev) || fds'[fd].Get(ev) == NOBODY
  }

  /** Some waiters were woken: each fiber handle that left the table is in the
      queue, and nothing else happened to either. */
  ghost predicate Woke(io: Io, io': Io) {
    && Appended(io.queue, io'.queue)
    && Shrunk(io.fds, io'.fds)
    && QueueHandles(io'.queue) + TableHandles(io'.fds) == QueueHandles(io.queue) + TableHandles(io.fds)
    && QueueWakes(io'.queue) == QueueWakes(io.queue)
  }

  lemma WokeTrans(a: Io, b: Io, c: Io)
    requires Woke(a, b) && Woke(b, c)
    ensures Woke(a, c)
  {
  }

  lemma WokeSame(a: Io, b: Io)
    requires a.queue == b.queue && a.fds == b.fds
    ensures Woke(a, b)
  {
  }

  lemma WakeShape(io: Io, fd: nat, ev: Event)
    requires fd < |io.fds| && FdOk(io.fds[fd]) && io.fds[fd].events.Has(ev)
    ensures Wake(io, fd, ev) ==
            io.(fds := io.fds[fd := io.fds[fd].Put(ev, false, NOBODY)],
                queue := io.queue + [TaskOf(io.fds[fd].Get(ev))],
                pending := io.pending - 1)
  {
  }

  lemma ClearHandles(c: FdContext, ev: Event)
    requires FdOk(c) && c.events.Has(ev)
    ensures FdHandles(c) == FdHandles(c.Put(ev, false, NOBODY)) + TaskHandle(TaskOf(c.Get(ev)))
    ensures TaskWake(TaskOf(c.Get(ev))) == multiset{} && WokenTask(TaskOf(c.Get(ev)))
  {
    var r, w := Handle(c.read.fiber), Handle(c.write.fiber);
    assert TaskOf(c.Get(ev)).fiber == c.Get(ev).fiber;
    assert FdHandles(c.Put(ev, false, NOBODY)) == if ev == READ then w else r;
    assert r + w == w + r;
  }

  lemma ClearContext(c: FdContext, ev: Event)
    requires FdOk(c) && c.events.Has(ev)
    ensures var c' := c.Put(ev, false, NOBODY);
            && FdOk(c')
            && c'.events == c.events.Set(ev, false)
            && c'.events.Count() == c.events.Count() - 1
            && forall e :: c'.Get(e) == if e == ev then NOBODY else c.Get(e)
  {
  }

  lemma Balance(q: multiset<FiberId>, t: multiset<FiberId>, q': multiset<FiberId>, t': multiset<FiberId>,
                h: multiset<FiberId>, x: multiset<FiberId>, y: multiset<FiberId>)
    requires q' == q + h && t' + x == t + y && x == y + h
    ensures q' + t' == q + t
  {
    forall f ensures (q' + t')[f] == (q + t)[f] {
      assert (t' + x)[f] == (t + y)[f];
    }
  }

  lemma MoveHandle(q: seq<Task>, fds: seq<FdContext>, fd: nat, c: FdContext, task: Task)
    requires fd < |fds| && FdHandles(fds[fd]) == FdHandles(c) + TaskHandle(task)
    ensures QueueHandles(q + [task]) + TableHandles(fds[fd := c]) == QueueHandles(q) + TableHandles(fds)
  {
    GatherAppend(q, task, TaskHandle);
    GatherUpdate(fds, fd, c, FdHandles);
    Balance(QueueHandles(q), TableHandles(fds), QueueHandles(q + [task]), TableHandles(fds[fd := c]),
            TaskHandle(task), FdHandles(fds[fd]), FdHandles(c));
  }

  lemma QuietAppend(q: seq<Task>, task: Task)
    requires TaskWake(task) == multiset{}
    ensures QueueWakes(q + [task]) == QueueWakes(q)
  {
    GatherAppend(q, task, TaskWake);
  }

  lemma WokeByMove(io: Io, io': Io, fd: nat, c: FdContext, task: Task)
    requires fd < |io.fds| && io'.queue == io.queue + [task] && io'.fds == io.fds[fd := c]
    requires WokenTask(task) && TaskWake(task) == multiset{}
    requires FdHandles(io.fds[fd]) == FdHandles(c) + TaskHandle(task)
    requires forall e :: c.Get(e) == io.fds[fd].Get(e) || c.Get(e) == NOBODY
    ensures Woke(io, io')
  {
    MoveHandle(io.queue, io.fds, fd, c, task);
    QuietAppend(io.queue, task);
  }

  /** One registration is cleared and its waiter queued. */
  lemma WakeOne(io: Io, fd: nat, ev: Event)
    requires fd < |io.fds| && FdOk(io.fds[fd]) && io.fds[fd].events.Has(ev)
    ensures Woke(io, Wake(io, fd, ev))
    ensures QueueOk(io.queue) ==> QueueOk(Wake(io, fd, ev).queue)
    ensures Bits(Wake(io, fd, ev).fds) == Bits(io.fds) - 1
  {
    WakeShape(io, fd, ev);
    var c := io.fds[fd];
    var c', task := c.Put(ev, false, NOBODY), TaskOf(c.Get(ev));
    ClearHandles(c, ev);
    ClearContext(c, ev);
    WokeByMove(io, Wake(io, fd, ev), fd, c', task);
    BitsUpdate(io.fds, fd, c');
  }

  /** Waking a set of registrations of one descriptor, all of them set. */
  lemma WakeMany(io: Io, fd: nat, evs: Events)
    requires fd < |io.fds| && FdOk(io.fds[fd]) && evs.Minus(io.fds[fd].events).IsNone()
    ensures var io' := WakeAll(io, fd, evs);
            && Woke(io, io')
            && (QueueOk(io.queue) ==> QueueOk(io'.queue))
            && Bits(io'.fds) - io'.pending == Bits(io.fds) - io.pending
            && |io'.fds| == |io.fds| && FdOk(io'.fds[fd])
            && io'.fds[fd].events == io.fds[fd].events.Minus(evs)
            && (forall i :: 0 <= i < |io.fds| && i != fd ==> io'.fds[i] == io.fds[i])
            && io'.epoll == io.epoll && io'.fault == io.fault && io'.badCtl == io.badCtl
  {
    hide Wake, Enqueue, QueueHandles, TableHandles, Woke;
    var io1 := if evs.read then Wake(io, fd, READ) else io;
    if evs.read {
      WakeShape(io, fd, READ);
      WakeOne(io, fd, READ);
      ClearContext(io.fds[fd], READ);
    } else {
      WokeSame(io, io1);
    }
    var io2 := WakeAll(io, fd, evs);
    if evs.write {
      WakeShape(io1, fd, WRITE);
      WakeOne(io1, fd, WRITE);
      ClearContext(io1.fds[fd], WRITE);
      WokeTrans(io, io1, io2);
    }
  }

  // ------------------------------------------------- what every operation keeps

  function OpFor(left: Events): CtlOp {
    if left.IsNone() then DEL else MOD
  }

  /** A descriptor with events is in the kernel set, so MOD and DEL are legal;
      one without is not, so ADD is. */
  lemma CtlAlwaysLegal(io: Io, fd: nat)
    requires IoInv(io) && fd < |io.fds|
    ensures var evs := io.fds[fd].events;
            if evs.IsNone() then CtlLegal(io.epoll, ADD, fd)
            else CtlLegal(io.epoll, MOD, fd) && CtlLegal(io.epoll, DEL, fd)
  {
  }

  lemma MirrorUpdate(fds: seq<FdContext>, epoll: Epoll, fds': seq<FdContext>, epoll': Epoll, fd: nat)
    requires Mirror(fds, epoll) && FdsOk(fds) && |fds'| == |fds| && fd < |fds|
    requires forall i :: 0 <= i < |fds| && i != fd ==> fds'[i] == fds[i]
    requires FdOk(fds'[fd])
    requires epoll' == CtlEffect(epoll, if fds'[fd].events.IsNone() then DEL else MOD, fd, fds'[fd].events)
    ensures Mirror(fds', epoll') && FdsOk(fds')
  {
  }

  /** The shared core of cancelEvent, cancelAll and the idle loop: taking some
      set events of one descriptor out of the kernel set and waking them. */
  lemma SettleKeeps(io: Io, fd: nat, evs: Events, op: CtlOp, refuse: bool)
    requires IoInv(io) && fd < |io.fds|
    requires !evs.IsNone() && evs.Minus(io.fds[fd].events).IsNone()
    requires op == OpFor(io.fds[fd].events.Minus(evs))
    ensures var (io1, ok) := Ctl(io, op, fd, io.fds[fd].events.Minus(evs), refuse);
            && ok == !refuse
            && (refuse ==> io1 == io)
            && (ok ==> |io1.fds| == |io.fds| && IoInv(WakeAll(io1, fd, evs)) && Woke(io, WakeAll(io1, fd, evs)))
  {
    CtlAlwaysLegal(io, fd);
    var (io1, ok) := Ctl(io, op, fd, io.fds[fd].events.Minus(evs), refuse);
    if ok {
      WakeMany(io1, fd, evs);
      var io2 := WakeAll(io1, fd, evs);
      MirrorUpdate(io.fds, io.epoll, io2.fds, io2.epoll, fd);
      WokeSame(io, io1);
      WokeTrans(io, io1, io2);
    }
  }

  lemma CancelKeeps(io: Io, fd: nat, ev: Event, refuse: bool)
    requires IoInv(io)
    ensures IoInv(CancelEvent(io, fd, ev, refuse).0) && Woke(io, CancelEvent(io, fd, ev, refuse).0)
    ensures CancelEvent(io, fd, ev, refuse).1 <==> fd < |io.fds| && io.fds[fd].events.Has(ev) && !refuse
  {
    if fd < |io.fds| && io.fds[fd].events.Has(ev) {
      var evs := NO_EVENTS.Set(ev, true);
      var left := io.fds[fd].events.Set(ev, false);
      assert left == io.fds[fd].events.Minus(evs);
      SettleKeeps(io, fd, evs, OpFor(left), refuse);
    } else {
      WokeSame(io, io);
    }
  }

  lemma CancelAllKeeps(io: Io, fd: nat, refuse: bool)
    requires IoInv(io)
    ensures IoInv(CancelAll(io, fd, refuse).0) && Woke(io, CancelAll(io, fd, refuse).0)
    ensures CancelAll(io, fd, refuse).1 ==>
              fd < |CancelAll(io, fd, refuse).0.fds| && CancelAll(io, fd, refuse).0.fds[fd].events.IsNone()
  {
    if fd < |io.fds| && !io.fds[fd].events.IsNone() {
      var evs := io.fds[fd].events;
      assert evs.Minus(evs) == NO_EVENTS;
      SettleKeeps(io, fd, evs, DEL, refuse);
      var (io1, ok) := Ctl(io, DEL, fd, NO_EVENTS, refuse);
      if ok {
        WakeMany(io1, fd, evs);
      }
    } else {
      WokeSame(io, io);
    }
  }

  lemma ReportKeeps(io: Io, r: Report)
    requires IoInv(io) && Reportable(io.epoll, r)
    ensures IoInv(HandleReport(io, r)) && Woke(io, HandleReport(io, r))
  {
    if r.Ready? {
      var c := io.fds[r.fd];
      var fired := if r.err then r.bits.Join(c.events) else r.bits;
      if !c.events.Meet(fired).IsNone() {
        var left := c.events.Minus(fired);
        SettleKeeps(io, r.fd, fired, OpFor(left), r.refuse);
      } else {
        WokeSame(io, io);
      }
    } else {
      WokeSame(io, io);
    }
  }

  /** A report about one descriptor leaves a report about another one true. */
  lemma ReportOther(io: Io, r: Report, q: Report)
    requires IoInv(io) && Reportable(io.epoll, r) && Reportable(io.epoll, q)
    requires r.Ready? && q.Ready? ==> r.fd != q.fd
    ensures Reportable(HandleReport(io, r).epoll, q)
  {
    if r.Ready? && q.Ready? {
      EpollOnlyAt(io, r);
    }
  }

  lemma EpollOnlyAt(io: Io, r: Report)
    requires r.Ready?
    ensures HandleReport(io, r).epoll - {r.fd} == io.epoll - {r.fd}
  {
  }

  /** One idle pass over everything the kernel reported. */
  lemma {:induction false} ReportsKeep(io: Io, rs: seq<Report>, n: nat)
    requires IoInv(io) && Truthful(io.epoll, rs) && n <= |rs|
    ensures var io' := HandleReports(io, rs, n);
            && IoInv(io') && Woke(io, io')
            && (forall j :: n <= j < |rs| ==> Reportable(io'.epoll, rs[j]))
  {
    if n == 0 {
      WokeSame(io, io);
    } else {
      ReportsKeep(io, rs, n - 1);
      var io1 := HandleReports(io, rs, n - 1);
      ReportKeeps(io1, rs[n - 1]);
      forall j | n <= j < |rs| ensures Reportable(HandleReport(io1, rs[n - 1]).epoll, rs[j]) {
        ReportOther(io1, rs[n - 1], rs[j]);
      }
      WokeTrans(io, io1, HandleReport(io1, rs[n - 1]));
    }
  }

  lemma DelKeeps(io: Io, fd: nat, ev: Event, refuse: bool)
    requires IoInv(io)
    ensures IoInv(DelEvent(io, fd, ev, refuse).0)
  {
    if fd < |io.fds| && io.fds[fd].events.Has(ev) {
      CtlAlwaysLegal(io, fd);
      ClearContext(io.fds[fd], ev);
      BitsUpdate(io.fds, fd, io.fds[fd].Put(ev, false, NOBODY));
    }
  }

  lemma GrowHandles(fds: seq<FdContext>, fd: nat)
    ensures TableHandles(Grow(fds, fd)) == TableHandles(fds)
    ensures Bits(Grow(fds, fd)) == Bits(fds)
  {
    if fd >= |fds| {
      var more := seq(NewSize(fd) - |fds|, _ => FRESH_FD);
      BitsFresh(fds, NewSize(fd) - |fds|);
      GatherConcat(fds, more, FdHandles);
      GatherNone(more, FdHandles);
    }
  }

  lemma GrowKeeps(io: Io, fd: nat)
    requires IoInv(io)
    ensures IoInv(io.(fds := Grow(io.fds, fd)))
    ensures fd < |Grow(io.fds, fd)|
  {
    GrowHandles(io.fds, fd);
  }

  /** A registration put into a table that has room for it. */
  lemma PutKeeps(io: Io, fd: nat, ev: Event, ctx: EventContext)
    requires IoInv(io) && fd < |io.fds| && !io.fds[fd].events.Has(ev) && ContextOk(true, ctx)
    ensures var c := io.fds[fd].Put(ev, true, ctx);
            IoInv(io.(pending := io.pending + 1, fds := io.fds[fd := c],
                      epoll := io.epoll[fd := Mask(true, c.events)]))
  {
    var c := io.fds[fd].Put(ev, true, ctx);
    assert FdOk(io.fds[fd]);
    assert FdOk(c) && c.events.Count() == io.fds[fd].events.Count() + 1 && !c.events.IsNone();
    BitsUpdate(io.fds, fd, c);
    MirrorUpdate(io.fds, io.epoll, io.fds[fd := c], io.epoll[fd := Mask(true, c.events)], fd);
    hide Bits, Mirror, FdsOk, QueueOk;
  }

  lemma AddResult(io: Io, fd: nat, ev: Event, w: Waiter, refuse: bool)
    requires IoInv(io) && fd < |io.fds| && !io.fds[fd].events.Has(ev) && (w.WaitFiber? ==> w.state == EXEC)
    ensures var c := io.fds[fd].Put(ev, true, ContextOf(w));
            AddEvent(io, fd, ev, w, refuse) ==
            if refuse then (io, false)
            else (io.(pending := io.pending + 1, fds := io.fds[fd := c],
                      epoll := io.epoll[fd := Mask(true, c.events)]), true)
  {
    assert FdOk(io.fds[fd]);
    CtlAlwaysLegal(io, fd);
    hide Bits, Mirror, FdsOk, QueueOk, IoInv;
  }

  lemma AddGrown(io: Io, fd: nat, ev: Event, w: Waiter, refuse: bool)
    requires fd < |Grow(io.fds, fd)|
    ensures AddEvent(io, fd, ev, w, refuse) == AddEvent(io.(fds := Grow(io.fds, fd)), fd, ev, w, refuse)
  {
    hide Ctl;
  }

  lemma AddKeeps(io: Io, fd: nat, ev: Event, w: Waiter, refuse: bool)
    requires IoInv(io)
    requires fd < |io.fds| ==> !io.fds[fd].events.Has(ev)
    requires w.WaitFiber? ==> w.state == EXEC
    ensures IoInv(AddEvent(io, fd, ev, w, refuse).0)
    ensures AddEvent(io, fd, ev, w, refuse).1 == !refuse
  {
    GrowKeeps(io, fd);
    hide IoInv, AddEvent;
    var io1 := io.(fds := Grow(io.fds, fd));
    AddGrown(io, fd, ev, w, refuse);
    AddResult(io1, fd, ev, w, refuse);
    if !refuse {
      PutKeeps(io1, fd, ev, ContextOf(w));
    }
  }
}

/** What each operation on the event table comes to, written out on the fields of
    the table, the queue, the counter and the kernel set. */
module EventEffects {
  import opened Types
  import opened TaskQueue
  import opened EventTable

  /** The events a descriptor is watched for, in the kernel's set. */
  ghost predicate Watches(io: Io, fd: nat, read: bool, write: bool) {
    && fd < |io.fds| && io.fds[fd].events == Events(read, write)
    && (if read || write then fd in io.epoll && io.epoll[fd] == Mask(true, Events(read, write)) else fd !in io.epoll)
  }

  /** All other events are as before, and nobody waits beyond the old table. */
  ghost predicate SameExcept(io: Io, io': Io, fd: nat, read: bool, write: bool) {
    && |io.fds| <= |io'.fds|
    && (forall i :: i in io.epoll + io'.epoll && i != fd ==>
          i in io.epoll && i in io'.epoll && io.epoll[i] == io'.epoll[i])
    && (forall i :: 0 <= i < |io'.fds| && i != fd ==> io'.fds[i] == if i < |io.fds| then io.fds[i] else FRESH_FD)
    && (fd < |io'.fds| ==>
          && (!read ==> io'.fds[fd].read == (if fd < |io.fds| then io.fds[fd].read else NOBODY))
          && (!write ==> io'.fds[fd].write == (if fd < |io.fds| then io.fds[fd].write else NOBODY)))
  }

  /** The queue entries of waiters, the reader's first: a fiber itself, or its
      callback; any thread may run them. */
  function Waiting(c: FdContext, read: bool, write: bool): seq<Task> {
    (if !read then []
     else if c.read.fiber.Some? then [Task(Some(c.read.fiber.value), None, -1)]
     else if c.read.cb.Some? then [Task(None, Some(UserCb(c.read.cb.value)), -1)]
     else [])
    + (if !write then []
       else if c.write.fiber.Some? then [Task(Some(c.write.fiber.value), None, -1)]
       else if c.write.cb.Some? then [Task(None, Some(UserCb(c.write.cb.value)), -1)]
       else [])
  }

  /** The given events of a descriptor were ended: they are no longer watched, their
      contexts are empty, each counts one less, and their waiters are queued. */
  ghost predicate EventsEnded(io: Io, io': Io, fd: nat, read: bool, write: bool)
    requires fd < |io.fds|
  {
    var c := io.fds[fd];
    && io'.pending == io.pending - One(read) - One(write)
    && |io'.fds| == |io.fds| && SameExcept(io, io', fd, read, write)
    && Watches(io', fd, c.events.read && !read, c.events.write && !write)
    && (read ==> io'.fds[fd].read == EventContext(false, None, None))
    && (write ==> io'.fds[fd].write == EventContext(false, None, None))
    && io'.queue == io.queue + Waiting(c, read, write)
  }

  // ------------------------------------------------------------------- addEvent

  lemma PutSame(io: Io, fd: nat, ev: Event, ctx: EventContext)
    requires fd < |io.fds| && FdOk(io.fds[fd])
    ensures var c := io.fds[fd].Put(ev, true, ctx);
            var io' := io.(pending := io.pending + 1, fds := io.fds[fd := c],
                           epoll := io.epoll[fd := Mask(true, c.events)]);
            && SameExcept(io, io', fd, ev == READ, ev == WRITE)
            && Watches(io', fd, ev == READ || io.fds[fd].events.read, ev == WRITE || io.fds[fd].events.write)
            && (if ev == READ then io'.fds[fd].read else io'.fds[fd].write) == ctx
  {
  }

  lemma GrownSame(io: Io, io1: Io, io': Io, fd: nat, read: bool, write: bool)
    requires io1 == io.(fds := Grow(io.fds, fd)) && fd < |io1.fds| && SameExcept(io1, io', fd, read, write)
    ensures SameExcept(io, io', fd, read, write)
  {
  }

  /** addEvent: on success the event is watched, its context holds the waiter, one
      more event is pending, and nothing else changes. */
  lemma AddWritten(io: Io, fd: nat, ev: Event, w: Waiter)
    requires IoInv(io) && (fd < |io.fds| ==> !io.fds[fd].events.Has(ev)) && (w.WaitFiber? ==> w.state == EXEC)
    ensures var (io', ok) := AddEvent(io, fd, ev, w, false);
            && ok && io'.pending == io.pending + 1 && io'.queue == io.queue
            && fd < |io'.fds| == (if fd < |io.fds| then |io.fds| else fd * 3 / 2)
            && SameExcept(io, io', fd, ev == READ, ev == WRITE)
            && Watches(io', fd, ev == READ || (fd < |io.fds| && io.fds[fd].events.read),
                       ev == WRITE || (fd < |io.fds| && io.fds[fd].events.write))
            && (if ev == READ then io'.fds[fd].read else io'.fds[fd].write) ==
               EventContext(true, if w.WaitFiber? then Some(w.fiber) else None, if w.WaitCb? then Some(w.cb) else None)
  {
    GrowKeeps(io, fd);
    var io1 := io.(fds := Grow(io.fds, fd));
    assert FdOk(io1.fds[fd]);
    hide IoInv, AddEvent, SameExcept, Watches;
    AddGrown(io, fd, ev, w, false);
    AddResult(io1, fd, ev, w, false);
    PutSame(io1, fd, ev, ContextOf(w));
    GrownSame(io, io1, AddEvent(io, fd, ev, w, false).0, fd, ev == READ, ev == WRITE);
  }

  /** A refused addEvent only makes room. */
  lemma AddRefusedWritten(io: Io, fd: nat, ev: Event, w: Waiter)
    requires IoInv(io) && (fd < |io.fds| ==> !io.fds[fd].events.Has(ev)) && (w.WaitFiber? ==> w.state == EXEC)
    ensures var (io', ok) := AddEvent(io, fd, ev, w, true);
            !ok && io' == io.(fds := io'.fds) && SameExcept(io, io', fd, false, false)
  {
    GrowKeeps(io, fd);
    AddGrown(io, fd, ev, w, true);
    AddResult(io.(fds := Grow(io.fds, fd)), fd, ev, w, true);
    hide IoInv, AddEvent;
  }

  /** A refused or failed call of the others changes nothing. */
  lemma Unchanged(io: Io, fd: nat, ev: Event, refuse: bool)
    requires IoInv(io)
    ensures refuse || fd >= |io.fds| || !io.fds[fd].events.Has(ev) ==>
              DelEvent(io, fd, ev, refuse) == (io, false) && CancelEvent(io, fd, ev, refuse) == (io, false)
    ensures refuse || fd >= |io.fds| || io.fds[fd].events == Events(false, false) ==>
              CancelAll(io, fd, refuse) == (io, false)
  {
    if fd < |io.fds| {
      CtlAlwaysLegal(io, fd);
    }
  }

  // ------------------------------------------------------------------- delEvent

  /** delEvent: the event is no longer watched and its context is empty, one event
      less is pending, and nobody is queued. */
  lemma DelWritten(io: Io, fd: nat, ev: Event)
    requires IoInv(io) && fd < |io.fds| && io.fds[fd].events.Has(ev)
    ensures var (io', ok) := DelEvent(io, fd, ev, false);
            && ok && io'.pending == io.pending - 1 && io'.queue == io.queue
            && |io'.fds| == |io.fds| && SameExcept(io, io', fd, ev == READ, ev == WRITE)
            && Watches(io', fd, ev != READ && io.fds[fd].events.read, ev != WRITE && io.fds[fd].events.write)
            && io'.fds[fd].Get(ev) == EventContext(false, None, None)
  {
    var c := io.fds[fd];
    assert FdOk(c);
    SettledEpoll(io, fd, c.events.Set(ev, false));
    ClearContext(c, ev);
    hide Ctl, IoInv;
  }

  // ------------------------------------------------- ending events and waking waiters

  lemma WakeWritten(io: Io, fd: nat, evs: Events)
    requires fd < |io.fds| && FdOk(io.fds[fd]) && evs.Minus(io.fds[fd].events).IsNone()
    ensures var io', c := WakeAll(io, fd, evs), io.fds[fd];
            && io' == io.(pending := io'.pending, fds := io'.fds, queue := io'.queue)
            && io'.pending == io.pending - One(evs.read) - One(evs.write)
            && io'.fds == io.fds[fd := FdContext(Events(c.events.read && !evs.read, c.events.write && !evs.write),
                                                 if evs.read then NOBODY else c.read,
                                                 if evs.write then NOBODY else c.write)]
            && io'.queue == io.queue + Waiting(c, evs.read, evs.write)
  {
    hide Wake, Waiting;
    var c := io.fds[fd];
    var io1 := if evs.read then Wake(io, fd, READ) else io;
    if evs.read {
      WakeShape(io, fd, READ);
      ClearContext(c, READ);
    }
    if evs.write {
      WakeShape(io1, fd, WRITE);
    }
    WakeQueued(io.queue, c, evs);
    assert io.fds[fd := io.fds[fd]] == io.fds;
  }

  lemma WakeQueued(q: seq<Task>, c: FdContext, evs: Events)
    requires FdOk(c) && evs.Minus(c.events).IsNone()
    ensures var q1 := if evs.read then q + [TaskOf(c.read)] else q;
            (if evs.write then q1 + [TaskOf(c.write)] else q1) == q + Waiting(c, evs.read, evs.write)
  {
  }

  lemma SettledEpoll(io: Io, fd: nat, left: Events)
    requires IoInv(io) && fd < |io.fds| && !io.fds[fd].events.IsNone()
    ensures var (io1, ok) := Ctl(io, OpFor(left), fd, left, false);
            && ok && io1 == io.(epoll := io1.epoll)
            && (if left.IsNone() then fd !in io1.epoll else fd in io1.epoll && io1.epoll[fd] == Mask(true, left))
            && (forall i :: i in io.epoll + io1.epoll && i != fd ==>
                  i in io.epoll && i in io1.epoll && io.epoll[i] == io1.epoll[i])
  {
    CtlAlwaysLegal(io, fd);
    hide Bits, IoInv;
  }

  lemma EndedFrom(io: Io, io1: Io, io2: Io, fd: nat, evs: Events)
    requires fd < |io.fds| && io1 == io.(epoll := io1.epoll)
    requires var left := io.fds[fd].events.Minus(evs);
             && (if left.IsNone() then fd !in io1.epoll else fd in io1.epoll && io1.epoll[fd] == Mask(true, left))
             && (forall i :: i in io.epoll + io1.epoll && i != fd ==>
                   i in io.epoll && i in io1.epoll && io.epoll[i] == io1.epoll[i])
    requires var c := io.fds[fd];
             && io2 == io1.(pending := io2.pending, fds := io2.fds, queue := io2.queue)
             && io2.pending == io1.pending - One(evs.read) - One(evs.write)
             && io2.fds == io1.fds[fd := FdContext(Events(c.events.read && !evs.read, c.events.write && !evs.write),
                                                   if evs.read then NOBODY else c.read,
                                                   if evs.write then NOBODY else c.write)]
             && io2.queue == io1.queue + Waiting(c, evs.read, evs.write)
    ensures EventsEnded(io, io2, fd, evs.read, evs.write)
  {
    hide Waiting;
  }

  /** The common core of cancelEvent, cancelAll and the idle loop. */
  lemma SettleWritten(io: Io, fd: nat, evs: Events)
    requires IoInv(io) && fd < |io.fds| && !evs.IsNone() && evs.Minus(io.fds[fd].events).IsNone()
    ensures var left := io.fds[fd].events.Minus(evs);
            var (io1, ok) := Ctl(io, OpFor(left), fd, left, false);
            ok && |io1.fds| == |io.fds| && EventsEnded(io, WakeAll(io1, fd, evs), fd, evs.read, evs.write)
  {
    var left := io.fds[fd].events.Minus(evs);
    assert FdOk(io.fds[fd]);
    SettledEpoll(io, fd, left);
    hide IoInv, Ctl, WakeAll, Waiting, EventsEnded, FdOk;
    var io1 := Ctl(io, OpFor(left), fd, left, false).0;
    WakeWritten(io1, fd, evs);
    EndedFrom(io, io1, WakeAll(io1, fd, evs), fd, evs);
  }

  /** cancelEvent: on success the event has ended. */
  lemma CancelWritten(io: Io, fd: nat, ev: Event)
    requires IoInv(io) && fd < |io.fds| && io.fds[fd].events.Has(ev)
    ensures var (io', ok) := CancelEvent(io, fd, ev, false);
            ok && EventsEnded(io, io', fd, ev == READ, ev == WRITE)
  {
    var evs := Events(ev == READ, ev == WRITE);
    assert io.fds[fd].events.Set(ev, false) == io.fds[fd].events.Minus(evs);
    hide IoInv, Ctl, Wake, EventsEnded;
    SettleWritten(io, fd, evs);
  }

  /** cancelAll: on success all events of the descriptor have ended. */
  lemma CancelAllWritten(io: Io, fd: nat)
    requires IoInv(io) && fd < |io.fds| && io.fds[fd].events != Events(false, false)
    ensures var (io', ok) := CancelAll(io, fd, false);
            ok && EventsEnded(io, io', fd, io.fds[fd].events.read, io.fds[fd].events.write)
  {
    var evs := io.fds[fd].events;
    assert evs.Minus(evs) == NO_EVENTS;
    hide IoInv, Ctl, WakeAll;
    SettleWritten(io, fd, evs);
  }

  // ------------------------------------------------------------ the idle delivery

  /** A report fires an event when its bit is ready, or on an error or hang-up; one
      whose control request is refused does nothing. */
  predicate Fires(r: Report, fd: nat, ev: Event) {
    r.Ready? && r.fd == fd && !r.refuse && (r.err || (if ev == READ then r.bits.read else r.bits.write))
  }

  /** Exactly the events the report fires have ended. */
  ghost predicate ReportDone(io: Io, io': Io, r: Report)
    requires r.Ready? ==> r.fd < |io.fds|
  {
    if r.Ready? then
      var c := io.fds[r.fd];
      var read, write := c.events.read && Fires(r, r.fd, READ), c.events.write && Fires(r, r.fd, WRITE);
      if read || write then EventsEnded(io, io', r.fd, read, write) else io' == io
    else io' == io
  }

  /** Handling a report ends exactly the events it fires. */
  lemma ReportWritten(io: Io, r: Report)
    requires IoInv(io) && Reportable(io.epoll, r)
    ensures r.Ready? ==> r.fd < |io.fds|
    ensures ReportDone(io, HandleReport(io, r), r)
  {
    if r.Ready? {
      var c := io.fds[r.fd];
      CtlAlwaysLegal(io, r.fd);
      var fired := if r.err then r.bits.Join(c.events) else r.bits;
      var read, write := c.events.read && Fires(r, r.fd, READ), c.events.write && Fires(r, r.fd, WRITE);
      if read || write {
        assert fired == Events(read, write);
        hide IoInv, Ctl, WakeAll, EventsEnded;
        SettleWritten(io, r.fd, fired);
      } else {
        hide IoInv, WakeAll;
      }
    }
  }

  /** The waiters a sequence of reports wakes, in the order of the reports. */
  function Delivered(fds: seq<FdContext>, rs: seq<Report>, n: nat): seq<Task>
    requires n <= |rs| && forall i :: 0 <= i < |rs| && rs[i].Ready? ==> rs[i].fd < |fds|
  {
    if n == 0 then [] else Delivered(fds, rs, n - 1) + Wakes(fds, rs[n - 1])
  }

  ghost predicate FiredBefore(rs: seq<Report>, n: nat, fd: nat, ev: Event)
    requires n <= |rs|
  {
    exists k :: 0 <= k < n && Fires(rs[k], fd, ev)
  }

  /** The events that were fired are over, the others are as before. */
  ghost predicate EventAfter(fds: seq<FdContext>, fds': seq<FdContext>, rs: seq<Report>, n: nat, fd: nat, ev: Event)
    requires n <= |rs| && fd < |fds| && |fds'| == |fds|
  {
    if fds[fd].events.Has(ev) && FiredBefore(rs, n, fd, ev)
    then !fds'[fd].events.Has(ev) && fds'[fd].Get(ev) == EventContext(false, None, None)
    else (fds'[fd].events.Has(ev) <==> fds[fd].events.Has(ev)) && fds'[fd].Get(ev) == fds[fd].Get(ev)
  }

  lemma Untouched(fds: seq<FdContext>, fds': seq<FdContext>, rs: seq<Report>, n: nat, fd: nat)
    requires n < |rs| && fd < |fds| && |fds'| == |fds|
    requires forall e :: EventAfter(fds, fds', rs, n, fd, e)
    requires rs[n].Ready? && rs[n].fd == fd
    requires forall i, j :: 0 <= i < j < |rs| && rs[i].Ready? && rs[j].Ready? ==> rs[i].fd != rs[j].fd
    ensures fds'[fd] == fds[fd]
  {
    assert !FiredBefore(rs, n, fd, READ) && !FiredBefore(rs, n, fd, WRITE);
    assert EventAfter(fds, fds', rs, n, fd, READ) && EventAfter(fds, fds', rs, n, fd, WRITE);
  }

  lemma EventStep(fds: seq<FdContext>, io1: Io, io2: Io, rs: seq<Report>, n: nat, fd: nat, ev: Event)
    requires n < |rs| && fd < |fds| && |io1.fds| == |fds| && |io2.fds| == |fds|
    requires EventAfter(fds, io1.fds, rs, n, fd, ev)
    requires rs[n].Ready? ==> rs[n].fd < |fds| && (rs[n].fd == fd ==> io1.fds[fd] == fds[fd])
    requires ReportDone(io1, io2, rs[n])
    ensures EventAfter(fds, io2.fds, rs, n + 1, fd, ev)
  {
    assert FiredBefore(rs, n + 1, fd, ev) <==> FiredBefore(rs, n, fd, ev) || Fires(rs[n], fd, ev);
    hide FiredBefore, Waiting;
  }

  /** What handling the first `n` reports comes to. */
  ghost predicate DeliveredOk(io: Io, io': Io, rs: seq<Report>, n: nat)
    requires n <= |rs| && forall i :: 0 <= i < |rs| && rs[i].Ready? ==> rs[i].fd < |io.fds|
  {
    && io'.queue == io.queue + Delivered(io.fds, rs, n)
    && |io'.fds| == |io.fds|
    && forall fd, ev :: 0 <= fd < |io.fds| ==> EventAfter(io.fds, io'.fds, rs, n, fd, ev)
  }

  lemma DeliverStep(io: Io, io1: Io, io2: Io, rs: seq<Report>, n: nat)
    requires n < |rs| && forall i :: 0 <= i < |rs| && rs[i].Ready? ==> rs[i].fd < |io.fds|
    requires forall i, j :: 0 <= i < j < |rs| && rs[i].Ready? && rs[j].Ready? ==> rs[i].fd != rs[j].fd
    requires DeliveredOk(io, io1, rs, n) && ReportDone(io1, io2, rs[n])
    ensures DeliveredOk(io, io2, rs, n + 1)
  {
    var r := rs[n];
    if r.Ready? {
      Untouched(io.fds, io1.fds, rs, n, r.fd);
    }
    DeliverQueue(io, io1, io2, rs, n);
    hide Waiting, Fires, EventAfter, Delivered;
    var m := n + 1;
    forall fd, ev | 0 <= fd < |io.fds| ensures EventAfter(io.fds, io2.fds, rs, m, fd, ev) {
      EventStep(io.fds, io1, io2, rs, n, fd, ev);
    }
  }

  /** What one report adds to the queue. */
  function Wakes(fds: seq<FdContext>, r: Report): seq<Task>
    requires r.Ready? ==> r.fd < |fds|
  {
    if r.Ready? then
      Waiting(fds[r.fd], fds[r.fd].events.read && Fires(r, r.fd, READ), fds[r.fd].events.write && Fires(r, r.fd, WRITE))
    else []
  }

  lemma ReportQueue(io: Io, io': Io, r: Report)
    requires (r.Ready? ==> r.fd < |io.fds|) && ReportDone(io, io', r)
    ensures io'.queue == io.queue + Wakes(io.fds, r) && |io'.fds| == |io.fds|
  {
    hide Fires;
  }

  lemma DeliverQueue(io: Io, io1: Io, io2: Io, rs: seq<Report>, n: nat)
    requires n < |rs| && forall i :: 0 <= i < |rs| && rs[i].Ready? ==> rs[i].fd < |io.fds|
    requires io1.queue == io.queue + Delivered(io.fds, rs, n) && |io1.fds| == |io.fds|
    requires rs[n].Ready? ==> io1.fds[rs[n].fd] == io.fds[rs[n].fd]
    requires ReportDone(io1, io2, rs[n])
    ensures io2.queue == io.queue + Delivered(io.fds, rs, n + 1) && |io2.fds| == |io.fds|
  {
    hide Waiting, Fires, Wakes, ReportDone;
    ReportQueue(io1, io2, rs[n]);
    WakesSame(io.fds, io1.fds, rs[n]);
    Rejoin(io.queue, Delivered(io.fds, rs, n), Wakes(io.fds, rs[n]));
  }

  lemma WakesSame(fds: seq<FdContext>, fds': seq<FdContext>, r: Report)
    requires |fds'| == |fds| && (r.Ready? ==> r.fd < |fds| && fds'[r.fd] == fds[r.fd])
    ensures Wakes(fds', r) == Wakes(fds, r)
  {
  }

  lemma Rejoin(q: seq<Task>, d: seq<Task>, w: seq<Task>)
    ensures (q + d) + w == q + (d + w)
  {
  }

  lemma DeliverNone(io: Io, rs: seq<Report>)
    requires forall i :: 0 <= i < |rs| && rs[i].Ready? ==> rs[i].fd < |io.fds|
    ensures DeliveredOk(io, io, rs, 0)
  {
    hide Fires;
  }

  lemma ReadyKnown(io: Io, rs: seq<Report>)
    requires IoInv(io) && Truthful(io.epoll, rs)
    ensures forall i :: 0 <= i < |rs| && rs[i].Ready? ==> rs[i].fd < |io.fds|
    ensures forall i, j :: 0 <= i < j < |rs| && rs[i].Ready? && rs[j].Ready? ==> rs[i].fd != rs[j].fd
  {
    assert forall i :: 0 <= i < |rs| ==> Reportable(io.epoll, rs[i]);
    hide Bits, QueueOk;
  }

  /** A whole idle delivery: the queue grows by exactly the waiters of the events that
      were fired, in the order of the reports and readers first; those events are
      over, and no other is touched. */
  lemma {:induction false} ReportsWritten(io: Io, rs: seq<Report>, n: nat)
    requires IoInv(io) && Truthful(io.epoll, rs) && n <= |rs|
    ensures forall i :: 0 <= i < |rs| && rs[i].Ready? ==> rs[i].fd < |io.fds|
    ensures DeliveredOk(io, HandleReports(io, rs, n), rs, n)
  {
    hide IoInv, Truthful, HandleReport, Woke, DeliveredOk, ReportDone, Reportable;
    ReadyKnown(io, rs);
    if n == 0 {
      DeliverNone(io, rs);
    } else {
      var io1 := HandleReports(io, rs, n - 1);
      ReportsWritten(io, rs, n - 1);
      ReportsKeep(io, rs, n - 1);
      ReportWritten(io1, rs[n - 1]);
      DeliverStep(io, io1, HandleReport(io1, rs[n - 1]), rs, n - 1);
    }
  }

  lemma WaiterWoken(fds: seq<FdContext>, r: Report, ev: Event)
    requires r.Ready? && r.fd < |fds| && Fires(r, r.fd, ev) && fds[r.fd].events.Has(ev)
    ensures var ctx := fds[r.fd].Get(ev);
            && (ctx.fiber.Some? ==> Task(Some(ctx.fiber.value), None, -1) in Wakes(fds, r))
            && (ctx.fiber.None? && ctx.cb.Some? ==> Task(None, Some(UserCb(ctx.cb.value)), -1) in Wakes(fds, r))
  {
    hide Fires;
    assert Fires(r, r.fd, if ev == READ then READ else WRITE);
  }

  /** So the waiter of an event that is reported ready, or whose descriptor has an
      error or hang-up, is among the new queue entries. */
  lemma {:induction false} WaiterDelivered(fds: seq<FdContext>, rs: seq<Report>, n: nat, k: nat, ev: Event)
    requires k < n <= |rs| && forall i :: 0 <= i < |rs| && rs[i].Ready? ==> rs[i].fd < |fds|
    requires rs[k].Ready? && Fires(rs[k], rs[k].fd, ev) && fds[rs[k].fd].events.Has(ev)
    ensures var ctx := fds[rs[k].fd].Get(ev);
            && (ctx.fiber.Some? ==> Task(Some(ctx.fiber.value), None, -1) in Delivered(fds, rs, n))
            && (ctx.fiber.None? && ctx.cb.Some? ==> Task(None, Some(UserCb(ctx.cb.value)), -1) in Delivered(fds, rs, n))
  {
    hide Fires, Wakes;
    if k < n - 1 {
      WaiterDelivered(fds, rs, n - 1, k, ev);
    } else {
      WaiterWoken(fds, rs[k], ev);
    }
  }
}

/** The I/O manager's event operations in place (src/iomanager.cpp).  Every method
    keeps the table invariant, does what the function of `EventTable` says, makes
    only control requests the kernel finds legal, and passes its assertions. */
module IoManagement {
  import opened Types
  import opened TaskQueue
  import opened EventTable

  class IOManager {
    var fdContexts: seq<FdContext>
    var pendingEventCount: int
    var fibers: seq<Task>
    /** The kernel's side. */
    var epoll: Epoll

    ghost function View(): Io
      reads this
    {
      Io(fdContexts, pendingEventCount, epoll, fibers, false, false)
    }

    ghost predicate Valid()
      reads this
    {
      IoInv(View())
    }

    constructor ()
      ensures Valid() && fibers == [] && epoll == map[] && pendingEventCount == 0
      ensures |fdContexts| == 32
    {
      fdContexts, pendingEventCount, fibers, epoll := [], 0, [], map[];
      new;
      ContextResize(INITIAL_FDS);
      BitsFresh([], INITIAL_FDS);
    }

    /** epoll_ctl: `refuse` is a failure for the kernel's own reasons. */
    method EpollCtl(op: CtlOp, fd: nat, events: Events, refuse: bool) returns (ok: bool)
      requires CtlLegal(epoll, op, fd)
      modifies this`epoll
      ensures ok == !refuse
      ensures epoll == if ok then CtlEffect(old(epoll), op, fd, events) else old(epoll)
    {
      if !refuse {
        epoll := if op.DEL? then epoll - {fd} else epoll[fd := Mask(true, events)];
      }
      ok := !refuse;
    }

    method ContextResize(size: nat)
      requires |fdContexts| <= size
      modifies this`fdContexts
      ensures fdContexts == old(fdContexts) + seq(size - |old(fdContexts)|, _ => FRESH_FD)
    {
      while |fdContexts| < size
        invariant |old(fdContexts)| <= |fdContexts| <= size
        invariant fdContexts == old(fdContexts) + seq(|fdContexts| - |old(fdContexts)|, _ => FRESH_FD)
      {
        fdContexts := fdContexts + [FRESH_FD];
      }
    }

    method Schedule(t: Task)
      modifies this`fibers
      ensures fibers == Enqueue(old(fibers), t)
    {
      if t.fiber.Some? || t.cb.Some? {
        fibers := fibers + [t];
      }
    }

    /** Moves the waiter's handle to the task queue. */
    method TriggerEvent(fd: nat, event: Event)
      requires fd < |fdContexts| && FdOk(fdContexts[fd]) && fdContexts[fd].events.Has(event)
      modifies this`fdContexts, this`fibers
      ensures View() == Trigger(old(View()), fd, event)
    {
      assert fdContexts[fd].events.Has(event);  // src/iomanager.cpp:74
      var ctx := fdContexts[fd].Get(event);
      if ctx.cb.Some? {
        Schedule(Task(None, Some(UserCb(ctx.cb.value)), -1));
        ctx := ctx.(cb := None);
      } else {
        Schedule(Task(ctx.fiber, None, -1));
        ctx := ctx.(fiber := None);
      }
      ctx := ctx.(scheduler := false);
      fdContexts := fdContexts[fd := fdContexts[fd].Put(event, false, ctx)];
    }

    /** The common tail: the events given are triggered, reading first. */
    method TriggerAll(fd: nat, events: Events)
      requires fd < |fdContexts| && FdOk(fdContexts[fd]) && events.Minus(fdContexts[fd].events).IsNone()
      modifies this`fdContexts, this`fibers, this`pendingEventCount
      ensures View() == WakeAll(old(View()), fd, events)
    {
      if events.read {
        TriggerEvent(fd, READ);
        pendingEventCount := pendingEventCount - 1;
      }
      if events.write {
        TriggerEvent(fd, WRITE);
        pendingEventCount := pendingEventCount - 1;
      }
    }

    method AddEvent(fd: nat, event: Event, w: Waiter, refuse: bool) returns (ok: bool)
      requires Valid()
      requires fd < |fdContexts| ==> !fdContexts[fd].events.Has(event)
      requires w.WaitFiber? ==> w.state == EXEC
      modifies this
      ensures Valid() && ok == !refuse
      ensures View() == EventTable.AddEvent(old(View()), fd, event, w, refuse).0
    {
      hide Bits, Mirror, QueueOk;
      AddKeeps(View(), fd, event, w, refuse);
      GrowKeeps(View(), fd);
      if fd >= |fdContexts| {
        ContextResize(NewSize(fd));
      }
      assert fdContexts == Grow(old(fdContexts), fd);
      var c := fdContexts[fd];
      assert !c.events.Has(event);  // src/iomanager.cpp:102
      CtlAlwaysLegal(View(), fd);
      ok := EpollCtl(if c.events.IsNone() then ADD else MOD, fd, c.events.Set(event, true), refuse);
      if !ok {
        return;
      }
      pendingEventCount := pendingEventCount + 1;
      assert FdOk(c);
      assert c.Get(event) == NOBODY;  // src/iomanager.cpp:119-121
      match w
      case WaitCb(cb) =>
        fdContexts := fdContexts[fd := c.Put(event, true, EventContext(true, None, Some(cb)))];
      case WaitFiber(f, state) =>
        fdContexts := fdContexts[fd := c.Put(event, true, EventContext(true, Some(f), None))];
        assert state == EXEC;  // src/iomanager.cpp:129
    }

    method DelEvent(fd: nat, event: Event, refuse: bool) returns (ok: bool)
      requires Valid()
      modifies this
      ensures Valid()
      ensures (View(), ok) == EventTable.DelEvent(old(View()), fd, event, refuse)
    {
      DelKeeps(View(), fd, event, refuse);
      if |fdContexts| <= fd {
        return false;
      }
      var c := fdContexts[fd];
      if !c.events.Has(event) {
        return false;
      }
      var left := c.events.Set(event, false);
      CtlAlwaysLegal(View(), fd);
      ok := EpollCtl(if left.IsNone() then DEL else MOD, fd, left, refuse);
      if !ok {
        return;
      }
      pendingEventCount := pendingEventCount - 1;
      fdContexts := fdContexts[fd := c.Put(event, false, NOBODY)];
    }

    method CancelEvent(fd: nat, event: Event, refuse: bool) returns (ok: bool)
      requires Valid()
      modifies this
      ensures Valid()
      ensures (View(), ok) == EventTable.CancelEvent(old(View()), fd, event, refuse)
    {
      hide Woke;
      CancelKeeps(View(), fd, event, refuse);
      if |fdContexts| <= fd {
        return false;
      }
      if !fdContexts[fd].events.Has(event) {
        return false;
      }
      var left := fdContexts[fd].events.Set(event, false);
      CtlAlwaysLegal(View(), fd);
      ok := EpollCtl(if left.IsNone() then DEL else MOD, fd, left, refuse);
      if !ok {
        return;
      }
      assert FdOk(fdContexts[fd]);
      TriggerEvent(fd, event);
      pendingEventCount := pendingEventCount - 1;
    }

    method CancelAll(fd: nat, refuse: bool) returns (ok: bool)
      requires Valid()
      modifies this
      ensures Valid()
      ensures (View(), ok) == EventTable.CancelAll(old(View()), fd, refuse)
    {
      hide Woke;
      CancelAllKeeps(View(), fd, refuse);
      if |fdContexts| <= fd {
        return false;
      }
      if fdContexts[fd].events.IsNone() {
        return false;
      }
      CtlAlwaysLegal(View(), fd);
      ok := EpollCtl(DEL, fd, NO_EVENTS, refuse);
      if !ok {
        return;
      }
      assert FdOk(fdContexts[fd]);
      WakeMany(View(), fd, fdContexts[fd].events);
      TriggerAll(fd, fdContexts[fd].events);
      assert fdContexts[fd].events.IsNone();  // src/iomanager.cpp:229
    }

    /** The loop of an idle pass over what epoll_wait delivered. */
    method HandleEvents(rs: seq<Report>)
      requires Valid() && Truthful(epoll, rs)
      modifies this
      ensures Valid()
      ensures View() == HandleReports(old(View()), rs, |rs|)
    {
      var i := 0;
      ghost var before := View();
      ReportsKeep(before, rs, 0);
      while i < |rs|
        invariant 0 <= i <= |rs| && Valid()
        invariant View() == HandleReports(before, rs, i)
      {
        ReportsKeep(before, rs, i);
        HandleEvent(rs[i]);
        i := i + 1;
      }
    }

    /** One delivered event. */
    method HandleEvent(r: Report)
      requires Valid() && Reportable(epoll, r)
      modifies this
      ensures Valid()
      ensures View() == HandleReport(old(View()), r)
    {
      hide Woke;
      ReportKeeps(View(), r);
      if r.Tickle? {
        return;
      }
      var c := fdContexts[r.fd];
      var ready := r.bits;
      if r.err {
        ready := ready.Join(c.events);
      }
      if c.events.Meet(ready).IsNone() {
        return;
      }
      var left := c.events.Minus(ready);
      CtlAlwaysLegal(View(), r.fd);
      var ok := EpollCtl(if left.IsNone() then DEL else MOD, r.fd, left, r.refuse);
      if !ok {
        return;
      }
      assert FdOk(c);
      TriggerAll(r.fd, ready);
    }
  }
}

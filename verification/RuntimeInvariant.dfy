/** The inductive invariant of the one-worker runtime.  Each part speaks about as
    few components as possible. */
module RuntimeInvariant {
  import opened Types
  import opened Gathering
  import opened TaskQueue
  import opened EventTable
  import opened Runtime
  import T = TimerSet

  type Conts = map<FiberId, Cont>
  type Infos = map<nat, TimerInfo>

  // --------------------------------------------------------------- wake tokens

  /** The fiber sleeps on a pending timer. */
  predicate Asleep(conts: Conts, timers: T.Pending, f: FiberId) {
    && f in conts && conts[f].Sleep?
    && conts[f].alarm in timers && timers[conts[f].alarm].cb == WakeFiber(f)
  }

  predicate Alive(conts: Conts, f: FiberId) {
    f in conts && conts[f] != Ended
  }

  /** In how many places a fiber is: running, in a queue entry, in an event
      context, in a queued wake-up callback, or on a pending sleep timer. */
  ghost function Tokens(q: seq<Task>, fds: seq<FdContext>, conts: Conts, timers: T.Pending, pc: Pc, f: FiberId): nat {
    One(pc.Run? && pc.fiber == f)
    + QueueHandles(q)[f]
    + TableHandles(fds)[f]
    + QueueWakes(q)[f]
    + One(Asleep(conts, timers, f))
  }

  ghost predicate TokenInv(q: seq<Task>, fds: seq<FdContext>, conts: Conts, timers: T.Pending, pc: Pc) {
    forall f: FiberId :: Tokens(q, fds, conts, timers, pc, f) == One(Alive(conts, f))
  }

  // -------------------------------------------------------------- fiber states

  ghost predicate FiberOk(st: FiberState, c: Cont, running: bool, parked: bool) {
    && (running ==> st == EXEC && (c == User || c.Retry?))
    && (!running ==> st != EXEC && !c.Retry?)
    && (c == Ended ==> Over(st) || (st == INIT && parked))
    && (c != Ended ==> !Over(st))
    && (parked ==> running || (c == Ended && st == INIT))
  }

  ghost predicate StateInv(states: map<FiberId, FiberState>, conts: Conts, pc: Pc, cbFiber: Option<FiberId>) {
    && states.Keys == conts.Keys
    && (forall f :: f in conts ==> FiberOk(states[f], conts[f], pc.Run? && pc.fiber == f, cbFiber == Some(f)))
    && (pc.Run? ==> pc.fiber in conts)
    && (pc.Run? && pc.viaCb ==> cbFiber == Some(pc.fiber))
    && (pc.Run? && !pc.viaCb ==> cbFiber != Some(pc.fiber))
    && (cbFiber.Some? ==> cbFiber.value in conts)
  }

  // ----------------------------------------------------- registrations and calls

  predicate Framed(c: Cont) {
    c.Retry? || c.Wait?
  }

  ghost predicate OwnerOk(ctx: EventContext, fd: nat, ev: Event, conts: Conts) {
    && (ctx.fiber.Some? ==>
          ctx.fiber.value in conts && conts[ctx.fiber.value].Wait? && OnWire(conts[ctx.fiber.value], fd, ev))
    && (ctx.cb.Some? ==> forall f :: f in conts ==> !OnWire(conts[f], fd, ev))
  }

  /** A registered fiber is suspended in a hooked call on that very event, and a
      registered callback shares its event with no hooked call. */
  ghost predicate OwnerInv(fds: seq<FdContext>, conts: Conts) {
    forall fd, ev :: 0 <= fd < |fds| ==> OwnerOk(fds[fd].Get(ev), fd, ev, conts)
  }

  ghost predicate CallOf(conts: Conts, tinfo: Infos, c: nat) {
    && c in tinfo && tinfo[c].owner in conts
    && Framed(conts[tinfo[c].owner]) && conts[tinfo[c].owner].frame.call == c
  }

  /** Live calls and their `timer_info` belong together one to one, and no two
      calls wait for the same event. */
  ghost predicate FrameInv(conts: Conts, tinfo: Infos, usedCalls: set<nat>) {
    && (forall f :: f in conts && Framed(conts[f]) ==>
          conts[f].frame.call in tinfo && tinfo[conts[f].frame.call].owner == f)
    && (forall c :: c in tinfo ==> c in usedCalls && CallOf(conts, tinfo, c))
    && (forall f, g :: f in conts && g in conts && f != g && Framed(conts[f]) ==>
          !OnWire(conts[g], conts[f].frame.fd, conts[f].frame.event))
  }

  // ------------------------------------------------------------------- timeouts

  /** The closure belongs to the round its owner is suspended in. */
  ghost predicate Live(conts: Conts, tinfo: Infos, c: nat, t: nat, fd: nat, ev: Event) {
    && CallOf(conts, tinfo, c)
    && conts[tinfo[c].owner].Wait?
    && conts[tinfo[c].owner].timer == Some(t)
    && OnWire(conts[tinfo[c].owner], fd, ev)
  }

  /** The timeout of the round has passed, unless a rollover was reported since the
      round began: `rolled` is how many there have been, `seen` how many before. */
  predicate Elapsed(c: Cont, clock: nat, rolled: nat) {
    c.Wait? && (c.seen < rolled || (c.frame.timeout.Some? && c.began + c.frame.timeout.value <= clock))
  }

  ghost predicate EntryOk(e: T.Entry, a: nat, conts: Conts, tinfo: Infos) {
    && e.id == a && e.ms <= e.next < T.TWO_64
    && match e.cb
       case UserCb(_) => true
       case WakeFiber(f) => !e.recurring && f in conts && conts[f] == Sleep(a)
       case Timeout(c, t, fd, ev) =>
         && !e.recurring && t == a && Live(conts, tinfo, c, t, fd, ev)
         && Elapsed(conts[tinfo[c].owner], e.next, 0)
  }

  ghost predicate TimerInv(timers: T.Pending, conts: Conts, tinfo: Infos, usedTimers: set<nat>) {
    && (forall a :: a in timers ==> a in usedTimers && EntryOk(timers[a], a, conts, tinfo))
    && (forall f :: f in conts && conts[f].Wait? && conts[f].timer.Some? ==>
          conts[f].timer.value in usedTimers
          && (conts[f].timer.value in timers ==> timers[conts[f].timer.value].cb.Timeout?))
    && (forall f :: f in conts && conts[f].Sleep? ==> conts[f].alarm in usedTimers)
  }

  predicate IsTimeout(t: Task) {
    t.cb.Some? && t.cb.value.Timeout?
  }

  ghost predicate TaskOk(t: Task, conts: Conts, tinfo: Infos, clock: nat, rolled: nat) {
    && (IsTimeout(t) ==>
          && t.thread == -1
          && Live(conts, tinfo, t.cb.value.call, t.cb.value.timer, t.cb.value.fd, t.cb.value.event)
          && Elapsed(conts[tinfo[t.cb.value.call].owner], clock, rolled))
    && (t.fiber.Some? && t.fiber.value in conts && conts[t.fiber.value].Wait? ==> t.thread == -1)
    && (t.cb.Some? && t.cb.value.WakeFiber? ==> t.cb.value.fiber in conts && conts[t.cb.value.fiber].Sleep?)
  }

  /** A queued timeout stands before its owner, never after. */
  predicate InOrder(t: Task, u: Task, tinfo: Infos) {
    t.fiber.Some? && IsTimeout(u) && u.cb.value.call in tinfo ==>
      tinfo[u.cb.value.call].owner != t.fiber.value
  }

  ghost predicate QueueInv(q: seq<Task>, conts: Conts, tinfo: Infos, clock: nat, rolled: nat) {
    && (forall i :: 0 <= i < |q| ==> TaskOk(q[i], conts, tinfo, clock, rolled))
    && (forall i, j :: 0 <= i < j < |q| ==> InOrder(q[i], q[j], tinfo))
  }

  /** A round began in the past. */
  predicate BeganOk(c: Cont, clock: nat, rolled: nat) {
    c.Wait? ==> c.began <= clock && c.seen <= rolled
  }

  /** Only a timeout cancels a call, and only when its time is up. */
  ghost predicate CancelInv(tinfo: Infos, conts: Conts, clock: nat, rolled: nat) {
    && (forall f :: f in conts ==> BeganOk(conts[f], clock, rolled))
    && (forall c :: c in tinfo && tinfo[c].cancelled != 0 ==>
          && tinfo[c].cancelled == ETIMEDOUT
          && tinfo[c].owner in conts && conts[tinfo[c].owner].Wait?
          && Elapsed(conts[tinfo[c].owner], clock, rolled))
  }

  // ---------------------------------------------------------------- the worker

  /** While the worker idles, no fiber in a wait round is queued: it could have run. */
  ghost predicate IdleQueue(q: seq<Task>, conts: Conts) {
    forall i :: 0 <= i < |q| && q[i].fiber.Some? && q[i].fiber.value in conts ==> !conts[q[i].fiber.value].Wait?
  }

  /** Nothing is left to do. */
  predicate Quiet(s: State) {
    s.stop && s.timers == map[] && s.io.pending == 0 && s.io.queue == []
  }

  ghost predicate WorkerInv(s: State) {
    && s.thread != -1 && 0 < s.clock
    && s.active == One(s.pc.Run?)
    && s.idlers == One(s.pc.Idle? || s.pc.Polling?)
    && (s.idle == EXEC <==> s.pc.Idle? || s.pc.Polling?)
    && (s.pc.Idle? || s.pc.Polling? ==> IdleQueue(s.io.queue, s.conts))
    && (s.idle == TERM ==> Quiet(s) && (s.pc.Top? || s.pc.Left?))
    && (s.pc.Left? ==> s.idle == TERM)
  }

  ghost predicate Inv(s: State) {
    && IoInv(s.io)
    && TokenInv(s.io.queue, s.io.fds, s.conts, s.timers, s.pc)
    && StateInv(s.states, s.conts, s.pc, s.cbFiber)
    && OwnerInv(s.io.fds, s.conts)
    && FrameInv(s.conts, s.tinfo, s.usedCalls)
    && TimerInv(s.timers, s.conts, s.tinfo, s.usedTimers)
    && QueueInv(s.io.queue, s.conts, s.tinfo, s.clock, s.rolled)
    && CancelInv(s.tinfo, s.conts, s.clock, s.rolled)
    && WorkerInv(s)
  }

  lemma Together(s: State)
    requires IoInv(s.io)
    requires TokenInv(s.io.queue, s.io.fds, s.conts, s.timers, s.pc)
    requires StateInv(s.states, s.conts, s.pc, s.cbFiber)
    requires OwnerInv(s.io.fds, s.conts)
    requires FrameInv(s.conts, s.tinfo, s.usedCalls)
    requires TimerInv(s.timers, s.conts, s.tinfo, s.usedTimers)
    requires QueueInv(s.io.queue, s.conts, s.tinfo, s.clock, s.rolled)
    requires CancelInv(s.tinfo, s.conts, s.clock, s.rolled)
    requires WorkerInv(s)
    ensures Inv(s)
  {
  }

  // ------------------------------------------------------- keeping the parts

  lemma AppendTokens(q: seq<Task>, t: Task, f: FiberId)
    ensures QueueHandles(q + [t])[f] == QueueHandles(q)[f] + One(t.fiber == Some(f))
    ensures QueueWakes(q + [t])[f] == QueueWakes(q)[f] + One(t.cb == Some(WakeFiber(f)))
  {
    GatherAppend(q, t, TaskHandle);
    GatherAppend(q, t, TaskWake);
  }

  lemma RemoveTokens(q: seq<Task>, k: nat, f: FiberId)
    requires k < |q|
    ensures QueueHandles(q)[f] == QueueHandles(Without(q, k))[f] + One(q[k].fiber == Some(f))
    ensures QueueWakes(q)[f] == QueueWakes(Without(q, k))[f] + One(q[k].cb == Some(WakeFiber(f)))
  {
    GatherSplit(q, k, TaskHandle);
    GatherSplit(q, k, TaskWake);
  }

  lemma AppendQueue(q: seq<Task>, t: Task, conts: Conts, tinfo: Infos, clock: nat, rolled: nat)
    requires QueueInv(q, conts, tinfo, clock, rolled) && TaskOk(t, conts, tinfo, clock, rolled)
    requires IsTimeout(t) ==> forall i :: 0 <= i < |q| ==> InOrder(q[i], t, tinfo)
    ensures QueueInv(q + [t], conts, tinfo, clock, rolled)
  {
  }

  lemma RemoveQueue(q: seq<Task>, k: nat, conts: Conts, tinfo: Infos, clock: nat, rolled: nat)
    requires QueueInv(q, conts, tinfo, clock, rolled) && k < |q|
    ensures QueueInv(Without(q, k), conts, tinfo, clock, rolled)
  {
    var r := Without(q, k);
    forall i, j | 0 <= i < j < |r| ensures InOrder(r[i], r[j], tinfo) {
      var i', j' := if i < k then i else i + 1, if j < k then j else j + 1;
      assert InOrder(q[i'], q[j'], tinfo);
    }
  }

  lemma AppendIo(io: Io, t: Task)
    requires IoInv(io) && NonNull(t)
    ensures IoInv(io.(queue := io.queue + [t]))
  {
  }

  /** A task without a wake token. */
  lemma AppendQuiet(q: seq<Task>, t: Task, fds: seq<FdContext>, conts: Conts, timers: T.Pending, pc: Pc)
    requires TokenInv(q, fds, conts, timers, pc) && t.fiber.None? && (t.cb.Some? ==> !t.cb.value.WakeFiber?)
    ensures TokenInv(q + [t], fds, conts, timers, pc)
  {
    forall f: FiberId ensures Tokens(q + [t], fds, conts, timers, pc, f) == One(Alive(conts, f)) {
      AppendTokens(q, t, f);
    }
  }

  lemma InitTokens(fds: seq<FdContext>)
    requires forall k :: 0 <= k < |fds| ==> fds[k] == FRESH_FD
    ensures TokenInv([], fds, map[], map[], Top)
  {
    GatherNone(fds, FdHandles);
    assert QueueHandles([]) == multiset{} && QueueWakes([]) == multiset{};
  }

  lemma InitIo(io: Io)
    requires io == Io(seq(INITIAL_FDS, _ => FRESH_FD), 0, map[], [], false, false)
    ensures IoInv(io) && OwnerInv(io.fds, map[])
    ensures forall k :: 0 <= k < |io.fds| ==> io.fds[k] == FRESH_FD
  {
    assert [] + io.fds == io.fds;
    BitsFresh([], INITIAL_FDS);
  }

  lemma InitInv(s: State)
    requires Init(s)
    ensures Inv(s)
  {
    InitIo(s.io);
    InitTokens(s.io.fds);
    hide IoInv, TokenInv, OwnerInv;
    Together(s);
  }

  lemma TickKeeps(s: State, now: nat)
    requires Inv(s) && s.clock <= now
    ensures Inv(s.(clock := now))
  {
  }

  /** Queueing a user callback. */
  lemma PushCbKeeps(s: State, cb: nat, thread: int)
    requires Inv(s) && s.idle != TERM
    ensures Inv(Push(s, Task(None, Some(UserCb(cb)), thread)))
  {
    var t := Task(None, Some(UserCb(cb)), thread);
    AppendIo(s.io, t);
    AppendQueue(s.io.queue, t, s.conts, s.tinfo, s.clock, s.rolled);
    AppendQuiet(s.io.queue, t, s.io.fds, s.conts, s.timers, s.pc);
  }

  // ------------------------------------------------- changing one fiber's place

  /** No registration and no closure refers to the fiber. */
  ghost predicate Unregistered(fds: seq<FdContext>, f: FiberId) {
    forall fd, ev :: 0 <= fd < |fds| ==> fds[fd].Get(ev).fiber != Some(f)
  }

  predicate Concerns(cb: Callback, tinfo: Infos, f: FiberId) {
    || cb == WakeFiber(f)
    || (cb.Timeout? && cb.call in tinfo && tinfo[cb.call].owner == f)
  }

  ghost predicate Unarmed(timers: T.Pending, tinfo: Infos, f: FiberId) {
    forall a :: a in timers ==> !Concerns(timers[a].cb, tinfo, f)
  }

  ghost predicate Unqueued(q: seq<Task>, tinfo: Infos, f: FiberId) {
    forall i :: 0 <= i < |q| && q[i].cb.Some? ==> !Concerns(q[i].cb.value, tinfo, f)
  }

  lemma NoHandle(fds: seq<FdContext>, f: FiberId)
    requires TableHandles(fds)[f] == 0
    ensures Unregistered(fds, f)
  {
    forall fd, ev | 0 <= fd < |fds| ensures fds[fd].Get(ev).fiber != Some(f) {
      GatherMember(fds, FdHandles, f);
      assert f !in FdHandles(fds[fd]);
      assert f !in Handle(fds[fd].Get(ev).fiber);
    }
  }

  /** Only `f` and the calls it owns changed. */
  ghost predicate Change(conts: Conts, tinfo: Infos, conts': Conts, tinfo': Infos, f: FiberId) {
    && (forall g :: g != f ==> (g in conts <==> g in conts') && (g in conts ==> conts'[g] == conts[g]))
    && (forall c :: c in tinfo && tinfo[c].owner != f ==> c in tinfo' && tinfo'[c] == tinfo[c])
    && (forall c :: c in tinfo' && (c !in tinfo || tinfo[c].owner == f) ==>
          tinfo'[c].owner == f && tinfo'[c].cancelled == 0)
  }

  lemma ChangeOwner(fds: seq<FdContext>, conts: Conts, conts': Conts, f: FiberId)
    requires OwnerInv(fds, conts) && Unregistered(fds, f)
    requires forall g :: g != f ==> (g in conts <==> g in conts') && (g in conts ==> conts'[g] == conts[g])
    requires f in conts' && Framed(conts'[f]) && conts'[f].frame.fd < |fds| ==>
               fds[conts'[f].frame.fd].Get(conts'[f].frame.event).cb.None?
    ensures OwnerInv(fds, conts')
  {
  }

  lemma ChangeTimers(timers: T.Pending, conts: Conts, tinfo: Infos, conts': Conts, tinfo': Infos,
                     used: set<nat>, f: FiberId)
    requires TimerInv(timers, conts, tinfo, used) && Change(conts, tinfo, conts', tinfo', f)
    requires Unarmed(timers, tinfo, f)
    requires f in conts' && conts'[f].Wait? && conts'[f].timer.Some? ==>
               conts'[f].timer.value in used && conts'[f].timer.value !in timers
    requires f in conts' && conts'[f].Sleep? ==> conts'[f].alarm in used
    ensures TimerInv(timers, conts', tinfo', used)
  {
    forall a | a in timers ensures EntryOk(timers[a], a, conts', tinfo') {
      assert EntryOk(timers[a], a, conts, tinfo) && !Concerns(timers[a].cb, tinfo, f);
    }
  }

  lemma ChangeQueue(q: seq<Task>, conts: Conts, tinfo: Infos, conts': Conts, tinfo': Infos,
                    clock: nat, rolled: nat, f: FiberId)
    requires QueueInv(q, conts, tinfo, clock, rolled) && Change(conts, tinfo, conts', tinfo', f)
    requires Unqueued(q, tinfo, f)
    requires f in conts' && conts'[f].Wait? ==> forall i :: 0 <= i < |q| ==> q[i].fiber != Some(f)
    ensures QueueInv(q, conts', tinfo', clock, rolled)
  {
    forall i | 0 <= i < |q| ensures TaskOk(q[i], conts', tinfo', clock, rolled) {
      assert TaskOk(q[i], conts, tinfo, clock, rolled);
    }
    forall i, j | 0 <= i < j < |q| ensures InOrder(q[i], q[j], tinfo') {
      assert InOrder(q[i], q[j], tinfo) && TaskOk(q[j], conts, tinfo, clock, rolled);
    }
  }

  lemma ChangeCancel(conts: Conts, tinfo: Infos, conts': Conts, tinfo': Infos, clock: nat, rolled: nat, f: FiberId)
    requires CancelInv(tinfo, conts, clock, rolled) && Change(conts, tinfo, conts', tinfo', f)
    requires f in conts' ==> BeganOk(conts'[f], clock, rolled)
    ensures CancelInv(tinfo', conts', clock, rolled)
  {
  }

  /** Nothing refers to a running fiber. */
  lemma RunningFree(s: State)
    requires Inv(s) && s.pc.Run?
    ensures var f := s.pc.fiber;
            && Unregistered(s.io.fds, f) && Unarmed(s.timers, s.tinfo, f) && Unqueued(s.io.queue, s.tinfo, f)
            && (forall i :: 0 <= i < |s.io.queue| ==> s.io.queue[i].fiber != Some(f))
            && TableHandles(s.io.fds)[f] == 0 && QueueHandles(s.io.queue)[f] == 0
            && QueueWakes(s.io.queue)[f] == 0 && !Asleep(s.conts, s.timers, f)
  {
    var f := s.pc.fiber;
    assert Tokens(s.io.queue, s.io.fds, s.conts, s.timers, s.pc, f) == One(Alive(s.conts, f));
    NoHandle(s.io.fds, f);
    assert FiberOk(s.states[f], s.conts[f], true, s.cbFiber == Some(f));
    forall a | a in s.timers ensures !Concerns(s.timers[a].cb, s.tinfo, f) {
      assert EntryOk(s.timers[a], a, s.conts, s.tinfo);
    }
    NotQueued(s.io.queue, f);
    NotWoken(s.io.queue, f);
    forall i | 0 <= i < |s.io.queue| && s.io.queue[i].cb.Some?
      ensures !Concerns(s.io.queue[i].cb.value, s.tinfo, f)
    {
      assert TaskOk(s.io.queue[i], s.conts, s.tinfo, s.clock, s.rolled);
    }
  }

  lemma NotWoken(q: seq<Task>, f: FiberId)
    requires QueueWakes(q)[f] == 0
    ensures forall i :: 0 <= i < |q| ==> q[i].cb != Some(WakeFiber(f))
  {
    forall i | 0 <= i < |q| ensures q[i].cb != Some(WakeFiber(f)) {
      GatherMember(q, TaskWake, f);
      assert f !in TaskWake(q[i]);
    }
  }

  lemma NotQueued(q: seq<Task>, f: FiberId)
    requires QueueHandles(q)[f] == 0
    ensures forall i :: 0 <= i < |q| ==> q[i].fiber != Some(f)
  {
    forall i | 0 <= i < |q| ensures q[i].fiber != Some(f) {
      GatherMember(q, TaskHandle, f);
      assert f !in TaskHandle(q[i]);
    }
  }

  /** The parts that mention calls and closures, when only one fiber changes. */
  lemma ChangeAll(s: State, conts': Conts, tinfo': Infos, f: FiberId)
    requires Inv(s) && Change(s.conts, s.tinfo, conts', tinfo', f)
    requires Unregistered(s.io.fds, f) && Unarmed(s.timers, s.tinfo, f) && Unqueued(s.io.queue, s.tinfo, f)
    requires f in conts' && !conts'[f].Wait? && !conts'[f].Sleep?
    requires Framed(conts'[f]) && conts'[f].frame.fd < |s.io.fds| ==>
               s.io.fds[conts'[f].frame.fd].Get(conts'[f].frame.event).cb.None?
    ensures OwnerInv(s.io.fds, conts')
    ensures TimerInv(s.timers, conts', tinfo', s.usedTimers)
    ensures QueueInv(s.io.queue, conts', tinfo', s.clock, s.rolled)
    ensures CancelInv(tinfo', conts', s.clock, s.rolled)
  {
    ChangeOwner(s.io.fds, s.conts, conts', f);
    ChangeTimers(s.timers, s.conts, s.tinfo, conts', tinfo', s.usedTimers, f);
    ChangeQueue(s.io.queue, s.conts, s.tinfo, conts', tinfo', s.clock, s.rolled, f);
    ChangeCancel(s.conts, s.tinfo, conts', tinfo', s.clock, s.rolled, f);
  }

  /** The running fiber leaves with a new state and place. */
  lemma LeaveStates(states: map<FiberId, FiberState>, conts: Conts, pc: Pc, cbFiber: Option<FiberId>,
                    st: FiberState, c: Cont, cbFiber': Option<FiberId>)
    requires StateInv(states, conts, pc, cbFiber) && pc.Run?
    requires cbFiber' == cbFiber || (cbFiber' == None && pc.viaCb)
    requires FiberOk(st, c, false, cbFiber' == Some(pc.fiber))
    ensures StateInv(states[pc.fiber := st], conts[pc.fiber := c], Top, cbFiber')
  {
  }
}

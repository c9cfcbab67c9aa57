/** A run of the one-worker runtime in which a hooked read waits, times out and
    returns, and the worker leaves: the premises of the theorems about wait rounds
    and about the drain are met.  And a run on which delEvent loses a fiber. */
module RuntimeExample {
  import opened Types
  import opened TaskQueue
  import opened EventTable
  import opened Runtime
  import opened RuntimeInvariant
  import opened RuntimeTheorems
  import opened RuntimeTurns
  import T = TimerSet

  lemma {:induction false} Snoc(s: State, acts: seq<Action>, a: Action)
    requires Legal(s, acts) && Enabled(After(s, acts), a)
    ensures Legal(s, acts + [a]) && After(s, acts + [a]) == Next(After(s, acts), a)
    decreases |acts|
  {
    hide Enabled, Next;
    if acts == [] {
      assert [a][1..] == [];
      assert acts + [a] == [a];
    } else {
      Snoc(Next(s, acts[0]), acts[1..], a);
      assert (acts + [a])[1..] == acts[1..] + [a];
    }
  }

  /** Reachable states stay reachable. */
  lemma ReachableStep(s: State, a: Action)
    requires Reachable(s) && Enabled(s, a)
    ensures Reachable(Next(s, a))
  {
    hide Enabled, Next, Init;
    var s0, acts :| Init(s0) && Legal(s0, acts) && After(s0, acts) == s;
    Snoc(s0, acts, a);
  }

  // ------------------------------------------------------------------- the states

  function Empty(): seq<FdContext> {
    seq(INITIAL_FDS, _ => FRESH_FD)
  }

  const FRAME := Frame(0, DoIo, 5, READ, Some(10))
  const WATCHED := FdContext(Events(true, false), EventContext(true, Some(0), None), NOBODY)
  const ROUND := Wait(FRAME, Some(0), 1, 0)
  const TIMER := T.Entry(11, 0, 10, false, Timeout(0, 0, 5, READ))

  function Start(): State {
    State(Io(Empty(), 0, map[], [], false, false), map[], 0, 1, map[], map[], map[], {}, {}, 0,
          Top, None, INIT, 0, 0, false, 0)
  }

  function Queued(): State {
    var s := Start();
    s.(io := s.io.(queue := [Task(None, Some(UserCb(0)), -1)]))
  }

  /** A callback runs on fiber 0. */
  function Started(): State {
    Start().(states := map[0 := EXEC], conts := map[0 := User], cbFiber := Some(0), active := 1, pc := Run(0, true))
  }

  function Called(): State {
    Started().(conts := map[0 := Retry(FRAME)], tinfo := map[0 := TimerInfo(0, 0)], usedCalls := {0})
  }

  function Blocked(): State {
    Start().(io := Io(Empty()[5 := WATCHED], 1, map[5 := Mask(true, Events(true, false))], [], false, false),
             timers := map[0 := TIMER], states := map[0 := HOLD], conts := map[0 := ROUND],
             tinfo := map[0 := TimerInfo(0, 0)], usedCalls := {0}, usedTimers := {0})
  }

  function Idling(): State {
    Blocked().(idle := EXEC, idlers := 1, pc := Polling)
  }

  function Expired(): State {
    Blocked().(io := Blocked().io.(queue := [Task(None, Some(Timeout(0, 0, 5, READ)), -1)]),
               timers := map[], previous := 11, clock := 11, idle := HOLD)
  }

  /** The closure has run on fiber 1. */
  function TimedOut(): State {
    Start().(io := Io(Empty(), 0, map[], [Task(Some(0), None, -1)], false, false),
             states := map[0 := HOLD, 1 := INIT], conts := map[0 := ROUND, 1 := Ended],
             tinfo := map[0 := TimerInfo(ETIMEDOUT, 0)], usedCalls := {0}, usedTimers := {0},
             previous := 11, clock := 11, idle := HOLD, cbFiber := Some(1))
  }

  function Returned(): State {
    TimedOut().(io := TimedOut().io.(queue := []), states := map[0 := EXEC, 1 := INIT],
                conts := map[0 := User, 1 := Ended], tinfo := map[], active := 1, pc := Run(0, false))
  }

  // -------------------------------------------------------------------- the steps

  lemma Starts()
    ensures Reachable(Started())
  {
    var s := Start();
    assert Init(s) && Legal(s, []) && After(s, []) == s;
    ReachableStep(s, AWorld(External(0, -1)));
    assert Next(s, AWorld(External(0, -1))) == Queued();
    Picks();
    ReachableStep(Queued(), ATurn(Take(0, false)));
  }

  lemma Picks()
    ensures Enabled(Queued(), ATurn(Take(0, false))) && Next(Queued(), ATurn(Take(0, false))) == Started()
  {
    assert Picked(Queued()) == 0;
    assert Without(Queued().io.queue, 0) == [];
  }

  lemma Calls()
    ensures Enabled(Started(), AHooked(IoCall(FRAME))) && Next(Started(), AHooked(IoCall(FRAME))) == Called()
  {
    assert Started().io.fds[5] == FRESH_FD;
  }

  lemma Adds()
    ensures AddEvent(Called().io, 5, READ, WaitFiber(0, EXEC), false) == (Blocked().io, true)
  {
    assert Grow(Empty(), 5) == Empty() && Empty()[5] == FRESH_FD;
  }

  lemma Blocks()
    ensures Enabled(Called(), AHooked(IoBlock(0, false))) && Next(Called(), AHooked(IoBlock(0, false))) == Blocked()
  {
    Adds();
    hide AddEvent;
    assert Block(Called(), 0, false) == Blocked();
  }

  lemma Idles()
    requires Reachable(Blocked())
    ensures Reachable(Idling())
  {
    hide Reachable;
    var s := Blocked().(idle := EXEC, idlers := 1, pc := Idle);
    assert Next(Blocked(), ATurn(FindNothing)) == s;
    ReachableStep(Blocked(), ATurn(FindNothing));
    assert Next(s, ATurn(IdleCheck)) == Idling();
    ReachableStep(s, ATurn(IdleCheck));
  }

  lemma Expires()
    requires Reachable(Idling())
    ensures Reachable(Expired())
  {
    hide Reachable;
    var s := Idling().(clock := 11);
    assert Next(Idling(), AWorld(Tick(11))) == s;
    ReachableStep(Idling(), AWorld(Tick(11)));
    var a := ATurn(IdleHandle([0], []));
    assert Lists([0], s.timers, 11, false);
    assert !RolledOver(s);
    assert ReleaseQueue([], s.timers, [0], 0) == [];
    assert ReleaseQueue([], s.timers, [0], 1) == Expired().io.queue;
    assert T.AfterRelease(s.timers, 11, false) == map[];
    assert Next(s, a) == Expired();
    ReachableStep(s, a);
  }

  /** The queue without the closure, which runs on fiber 1. */
  function Firing(): State {
    Acquire(Popped(Expired()), 1)
  }

  lemma Cancels()
    ensures var io := Expired().io.(queue := []);
            CancelEvent(io, 5, READ, false) == (TimedOut().io, true)
  {
    assert Empty()[5 := WATCHED][5 := FRESH_FD] == Empty();
    assert map[5 := Mask(true, Events(true, false))] - {5} == map[];
    assert WATCHED.Put(READ, false, NOBODY) == FRESH_FD;
    var r := CancelEvent(Expired().io.(queue := []), 5, READ, false).0;
    assert r.fds == Empty() && r.queue == TimedOut().io.queue && r.epoll == map[];
  }

  lemma Fired()
    ensures var s := Firing();
            s.pc.Run? && SwapOut(Fire(s, 0, 5, READ, false), TERM) == TimedOut()
  {
    assert Picked(Expired()) == 0;
    assert Without(Expired().io.queue, 0) == [];
    Cancels();
    hide CancelEvent;
    var s := Firing();
    assert s.states == map[0 := HOLD, 1 := EXEC] && s.io == Expired().io.(queue := []);
    var t := Fire(s, 0, 5, READ, false);
    assert t.io == TimedOut().io && t.tinfo == TimedOut().tinfo;
    assert SwapOut(t, TERM).states == TimedOut().states && SwapOut(t, TERM).conts == TimedOut().conts;
  }

  lemma Fires()
    ensures Enabled(Expired(), ATurn(Take(1, false))) && Next(Expired(), ATurn(Take(1, false))) == TimedOut()
  {
    Fired();
    assert Picked(Expired()) == 0;
    hide Fire, SwapOut, Acquire, Picked, Without, RunFiber;
    TakeCbShape(Expired(), 1, false);
  }

  lemma Returns()
    ensures Enabled(TimedOut(), ATurn(Take(2, false))) && Next(TimedOut(), ATurn(Take(2, false))) == Returned()
  {
    assert Picked(TimedOut()) == 0;
    assert Without(TimedOut().io.queue, 0) == [];
    TakeFiberShape(TimedOut(), 2, false, 0);
    hide TakeTask, Picked, Without;
    var s := Resumed(TimedOut(), 0, 0);
    assert s.tinfo == map[] && s.timers == map[];
    assert s.conts == Returned().conts && s.states == Returned().states;
  }

  /** Some run registers a fiber, lets its timeout pass, cancels the call, and
      returns from it: each of these states is reachable. */
  lemma SomeCallTimesOut()
    ensures Reachable(Called()) && Enabled(Called(), AHooked(IoBlock(0, false)))
    ensures Next(Called(), AHooked(IoBlock(0, false))) == Blocked() && At(Blocked(), 0, Context(5, READ))
    ensures Reachable(TimedOut()) && TimedOut().tinfo[0].cancelled == ETIMEDOUT && At(TimedOut(), 0, Entry(0))
    ensures Reachable(Returned()) && 0 !in Returned().tinfo && At(Returned(), 0, Running)
  {
    hide Reachable, Enabled, Next;
    Starts();
    Calls();
    ReachableStep(Started(), AHooked(IoCall(FRAME)));
    Blocks();
    ReachableStep(Called(), AHooked(IoBlock(0, false)));
    Idles();
    Expires();
    Fires();
    ReachableStep(Expired(), ATurn(Take(1, false)));
    Returns();
    ReachableStep(TimedOut(), ATurn(Take(2, false)));
  }

  // ------------------------------------------------------- the same run to its end

  /** The fiber has ended, and `stop` was called. */
  function Ending(): State {
    Returned().(states := map[0 := TERM, 1 := INIT], conts := map[0 := Ended, 1 := Ended], active := 0, pc := Top,
                stop := true)
  }

  function Exited(): State {
    Ending().(idle := TERM, pc := Left)
  }

  lemma Ends()
    requires Reachable(Returned())
    ensures Reachable(Ending())
  {
    hide Reachable;
    var s := Ending().(stop := false);
    var a := AHooked(Finish(true));
    assert SwapOut(Returned(), TERM).states == s.states && SwapOut(Returned(), TERM).conts == s.conts;
    assert Enabled(Returned(), a) && Next(Returned(), a) == s;
    ReachableStep(Returned(), a);
    assert Next(s, AWorld(Stop)) == Ending();
    ReachableStep(s, AWorld(Stop));
  }

  lemma Exits()
    requires Reachable(Ending())
    ensures Reachable(Exited())
  {
    hide Reachable;
    var idling := Ending().(idle := EXEC, idlers := 1, pc := Idle);
    var stopped := Ending().(idle := TERM);
    assert Next(Ending(), ATurn(FindNothing)) == idling;
    ReachableStep(Ending(), ATurn(FindNothing));
    assert Next(idling, ATurn(IdleCheck)) == stopped;
    ReachableStep(idling, ATurn(IdleCheck));
    assert Next(stopped, ATurn(FindNothing)) == Exited();
    ReachableStep(stopped, ATurn(FindNothing));
  }

  /** A run in which a fiber waited, timed out, returned and ended does leave the
      loop: the premise of the drain theorem is met with something to drain. */
  lemma SomeRunDrains()
    ensures Reachable(Exited()) && Exited().pc.Left? && Exited().states[0] == TERM
  {
    hide Reachable;
    SomeCallTimesOut();
    Ends();
    Exits();
  }

  // ---------------------------------------------------------- delEvent on a waiter

  /** While fiber 0 waits a callback runs on fiber 1. */
  function Beside(): State {
    Blocked().(states := map[0 := HOLD, 1 := EXEC], conts := map[0 := ROUND, 1 := User], cbFiber := Some(1),
               active := 1, pc := Run(1, true))
  }

  lemma Besides()
    requires Reachable(Blocked())
    ensures Reachable(Beside())
  {
    hide Reachable;
    var s := Blocked().(io := Blocked().io.(queue := [Task(None, Some(UserCb(1)), -1)]));
    assert Next(Blocked(), AWorld(External(1, -1))) == s;
    ReachableStep(Blocked(), AWorld(External(1, -1)));
    assert Picked(s) == 0;
    assert Without(s.io.queue, 0) == [];
    assert Enabled(s, ATurn(Take(1, false))) && Next(s, ATurn(Take(1, false))) == Beside();
    ReachableStep(s, ATurn(Take(1, false)));
  }

  /** A reachable state in which delEvent loses a fiber: it is unfinished and in no
      place at all. */
  lemma DelEventLosesAFiber()
    ensures Reachable(Beside()) && InUser(Beside()) && At(Beside(), 0, Context(5, READ))
    ensures var s' := Beside().(io := DelEvent(Beside().io, 5, READ, false).0);
            Alive(s'.conts, 0) && forall p :: !At(s', 0, p)
  {
    hide Reachable, Enabled, Next, DelEvent;
    Starts();
    Calls();
    ReachableStep(Started(), AHooked(IoCall(FRAME)));
    Blocks();
    ReachableStep(Called(), AHooked(IoBlock(0, false)));
    Besides();
    ForgetLoses(Beside(), 5, READ, 0);
  }
}

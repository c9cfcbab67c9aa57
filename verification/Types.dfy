/** Values shared by the scheduler, the timer set, the event table and the runtime. */
module Types {

  datatype Option<+T> = None | Some(value: T)

  type FiberId = nat

  type Byte = b: nat | b < 256

  /** The states of a fiber (include/fiber.h:15-22). */
  datatype FiberState = INIT | HOLD | EXEC | TERM | READY | EXCEPT

  /** The two events a descriptor can be watched for. */
  datatype Event = READ | WRITE

  /** Every closure the runtime itself builds has its own constructor:
      `WakeFiber` is the one a hooked sleep binds, `Timeout` the one a hooked
      I/O call arms.  A `Timeout` names the call whose `timer_info` it watches
      and the timer it was armed with.  All other callbacks are the user's. */
  datatype Callback =
    | UserCb(id: nat)
    | WakeFiber(fiber: FiberId)
    | Timeout(call: nat, timer: nat, fd: nat, event: Event)

  /** An entry of the task queue; `thread` is -1 when any thread may run it. */
  datatype Task = Task(fiber: Option<FiberId>, cb: Option<Callback>, thread: int)

  predicate NonNull(t: Task) {
    t.fiber.Some? != t.cb.Some?
  }

  predicate Over(s: FiberState) {
    s == TERM || s == EXCEPT
  }

  function One(b: bool): nat { if b then 1 else 0 }

  lemma Associate(a: string, b: string, c: string)
    ensures (a + b) + c == a + (b + c)
  {
  }
}

/** Collecting, over a sequence, the fibers each element holds. */
module Gathering {
  import opened Types

  ghost function Gather<T>(xs: seq<T>, f: T -> multiset<FiberId>): multiset<FiberId> {
    if xs == [] then multiset{} else f(xs[0]) + Gather(xs[1..], f)
  }

  lemma {:induction false} GatherConcat<T>(xs: seq<T>, ys: seq<T>, f: T -> multiset<FiberId>)
    ensures Gather(xs + ys, f) == Gather(xs, f) + Gather(ys, f)
  {
    if xs == [] {
      assert xs + ys == ys;
    } else {
      assert (xs + ys)[1..] == xs[1..] + ys;
      GatherConcat(xs[1..], ys, f);
    }
  }

  lemma GatherAppend<T>(xs: seq<T>, x: T, f: T -> multiset<FiberId>)
    ensures Gather(xs + [x], f) == Gather(xs, f) + f(x)
  {
    GatherConcat(xs, [x], f);
    assert Gather([x], f) == f(x) + Gather([], f);
  }

  lemma GatherSplit<T>(xs: seq<T>, k: nat, f: T -> multiset<FiberId>)
    requires k < |xs|
    ensures Gather(xs, f) == Gather(xs[..k] + xs[k + 1..], f) + f(xs[k])
  {
    assert xs == xs[..k] + [xs[k]] + xs[k + 1..];
    GatherConcat(xs[..k] + [xs[k]], xs[k + 1..], f);
    GatherAppend(xs[..k], xs[k], f);
    GatherConcat(xs[..k], xs[k + 1..], f);
  }

  lemma GatherUpdate<T>(xs: seq<T>, k: nat, x: T, f: T -> multiset<FiberId>)
    requires k < |xs|
    ensures Gather(xs[k := x], f) + f(xs[k]) == Gather(xs, f) + f(x)
  {
    var ys := xs[k := x];
    assert ys[..k] + ys[k + 1..] == xs[..k] + xs[k + 1..];
    GatherSplit(xs, k, f);
    GatherSplit(ys, k, f);
  }

  /** What is gathered comes from some element, and each element is gathered. */
  lemma {:induction false} GatherMember<T>(xs: seq<T>, f: T -> multiset<FiberId>, v: FiberId)
    ensures v in Gather(xs, f) <==> exists k :: 0 <= k < |xs| && v in f(xs[k])
  {
    if xs != [] {
      GatherMember(xs[1..], f, v);
      if v in Gather(xs[1..], f) {
        var k :| 0 <= k < |xs[1..]| && v in f(xs[1..][k]);
        assert v in f(xs[k + 1]);
      }
      if k :| 0 <= k < |xs| && v in f(xs[k]) {
        if k > 0 {
          assert xs[1..][k - 1] == xs[k];
        }
      }
    }
  }

  lemma {:induction false} GatherNone<T>(xs: seq<T>, f: T -> multiset<FiberId>)
    requires forall k :: 0 <= k < |xs| ==> f(xs[k]) == multiset{}
    ensures Gather(xs, f) == multiset{}
  {
    if xs != [] {
      assert f(xs[0]) == multiset{};
      GatherNone(xs[1..], f);
    }
  }

  function Handle(f: Option<FiberId>): multiset<FiberId> {
    if f.Some? then multiset{f.value} else multiset{}
  }

  function TaskHandle(t: Task): multiset<FiberId> {
    Handle(t.fiber)
  }

  /** The fibers queued, as often as they are. */
  ghost function QueueHandles(q: seq<Task>): multiset<FiberId> { Gather(q, TaskHandle) }
}

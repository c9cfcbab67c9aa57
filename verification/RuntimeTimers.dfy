/** The timer part of the one-worker runtime is what the timer manager does: the
    runtime's map of pending timers is the manager's ordered set with its order
    forgotten. */
module RuntimeTimers {
  import opened Types
  import opened TaskQueue
  import opened EventTable
  import opened Runtime
  import T = TimerSet

  function Ids(es: seq<T.Entry>): (r: seq<nat>)
    ensures |r| == |es|
  {
    seq(|es|, i requires 0 <= i < |es| => es[i].id)
  }

  /** The order in which the set gives up its due timers is a listing of them. */
  lemma ReleasedIsListing(ts: T.TimerState, now: nat)
    requires T.Sorted(ts.entries) && T.Distinct(ts.entries)
    ensures Lists(Ids(T.Released(ts, now)), T.AsMap(ts.entries), now, T.Rollover(ts, now))
  {
    var rs, m, roll := T.Released(ts, now), T.AsMap(ts.entries), T.Rollover(ts, now);
    var order := Ids(rs);
    T.ReleaseOrdered(ts, now);
    hide T.Released, T.AsMap, T.Sorted, T.Distinct, T.Rollover, T.AfterRelease, T.Expire;
    forall i | 0 <= i < |order| ensures order[i] in m && T.Due(m[order[i]], now, roll) && m[order[i]] == rs[i] {
      T.MapAt(rs, i);
      T.ExpireAt(ts, now, order[i]);
    }
    forall a | a in m && T.Due(m[a], now, roll) ensures a in order {
      T.ExpireAt(ts, now, a);
      var i := T.Position(rs, a);
      assert order[i] == a;
    }
    forall i, j | 0 <= i < j < |order|
      ensures order[i] != order[j] && T.Less(m[order[i]], m[order[j]])
    {
      T.HoldsOnce(rs, i, j);
      T.LessAcross(rs, i, j);
    }
  }

  /** Two listings of the same timers are the same: the order leaves no choice. */
  lemma {:induction false} ListingUnique(o: seq<nat>, q: seq<nat>, m: T.Pending, now: nat, rollover: bool, i: nat)
    requires Lists(o, m, now, rollover) && Lists(q, m, now, rollover)
    requires i <= |o| && i <= |q| && o[..i] == q[..i]
    ensures o == q
    decreases |o| - i
  {
    if i < |o| && i < |q| {
      SameNext(o, q, m, now, rollover, i);
      assert o[..i + 1] == o[..i] + [o[i]] && q[..i + 1] == q[..i] + [q[i]];
      ListingUnique(o, q, m, now, rollover, i + 1);
    } else if i == |q| {
      assert q[..i] == q;
      NoMore(o, q, m, now, rollover, i);
      assert o[..i] == o;
    } else {
      assert o[..i] == o;
      NoMore(q, o, m, now, rollover, i);
    }
  }

  lemma NoMore(o: seq<nat>, q: seq<nat>, m: T.Pending, now: nat, rollover: bool, i: nat)
    requires Lists(o, m, now, rollover) && Lists(q, m, now, rollover)
    requires |q| == i <= |o| && o[..i] == q
    ensures |o| == i
  {
    hide Lists;
    var j := Matching(o, q, m, now, rollover, i);
    OnceEach(o, m, now, rollover, j, i);
  }

  lemma Matching(o: seq<nat>, q: seq<nat>, m: T.Pending, now: nat, rollover: bool, k: nat) returns (j: nat)
    requires Lists(o, m, now, rollover) && Lists(q, m, now, rollover)
    ensures k < |o| ==> j < |q| && q[j] == o[k]
  {
    j := 0;
    if k < |o| {
      var a := o[k];
      assert a in m && T.Due(m[a], now, rollover);
      assert a in q;
      j :| 0 <= j < |q| && q[j] == a;
    }
  }

  lemma OnceEach(o: seq<nat>, m: T.Pending, now: nat, rollover: bool, j: nat, k: nat)
    requires Lists(o, m, now, rollover)
    ensures j < k < |o| ==> o[j] != o[k]
  {
  }

  lemma SameNext(o: seq<nat>, q: seq<nat>, m: T.Pending, now: nat, rollover: bool, i: nat)
    requires Lists(o, m, now, rollover) && Lists(q, m, now, rollover)
    requires i < |o| && i < |q| && o[..i] == q[..i]
    ensures o[i] == q[i]
  {
    var j := Later(o, q, m, now, rollover, i);
    var k := Later(q, o, m, now, rollover, i);
    assert j > i ==> T.Less(m[q[i]], m[q[j]]);
    assert k > i ==> T.Less(m[o[i]], m[o[k]]);
  }

  /** What stands at `i` in one listing stands there or later in the other. */
  lemma Later(o: seq<nat>, q: seq<nat>, m: T.Pending, now: nat, rollover: bool, i: nat) returns (j: nat)
    requires Lists(o, m, now, rollover) && Lists(q, m, now, rollover)
    requires i < |o| && i < |q| && o[..i] == q[..i]
    ensures i <= j < |q| && q[j] == o[i]
  {
    j := Matching(o, q, m, now, rollover, i);
    assert forall k :: 0 <= k < i ==> o[k] == o[..i][k] && q[k] == q[..i][k];
  }

  lemma {:induction false} QueuesCallbacks(q: seq<Task>, es: seq<T.Entry>, m: T.Pending, n: nat)
    requires n <= |es| && forall i :: 0 <= i < |es| ==> es[i].id in m && m[es[i].id] == es[i]
    ensures ReleaseQueue(q, m, Ids(es), n) == q + CbTasks(T.Callbacks(es))[..n]
  {
    if n > 0 {
      QueuesCallbacks(q, es, m, n - 1);
      var ts := CbTasks(T.Callbacks(es));
      assert ts[..n] == ts[..n - 1] + [ts[n - 1]];
    }
  }

  lemma QueueAfterPass(s: State, ts: T.TimerState, order: seq<nat>)
    requires T.Sorted(ts.entries) && T.Distinct(ts.entries) && s.timers == T.AsMap(ts.entries)
    requires Lists(order, s.timers, s.clock, T.Rollover(ts, s.clock))
    ensures ReleaseQueue(s.io.queue, s.timers, order, |order|)
         == s.io.queue + CbTasks(T.Callbacks(T.Released(ts, s.clock)))
  {
    var rs, roll := T.Released(ts, s.clock), T.Rollover(ts, s.clock);
    ReleasedIsListing(ts, s.clock);
    T.ReleaseOrdered(ts, s.clock);
    hide T.Released, T.AsMap, T.Sorted, T.Distinct, T.Rollover, T.AfterRelease, T.Expire;
    ListingUnique(order, Ids(rs), s.timers, s.clock, roll, 0);
    forall i | 0 <= i < |rs| ensures rs[i].id in s.timers && s.timers[rs[i].id] == rs[i] {
      T.MapAt(rs, i);
      T.ExpireAt(ts, s.clock, rs[i].id);
    }
    QueuesCallbacks(s.io.queue, rs, s.timers, |rs|);
    var tasks := CbTasks(T.Callbacks(rs));
    assert tasks[..|rs|] == tasks;
  }

  /** With no timer there is nothing to list, and no rollover is looked for. */
  lemma EmptyPass(s: State, ts: T.TimerState, order: seq<nat>)
    requires ts.entries == [] && s.timers == map[] && Lists(order, s.timers, s.clock, RolledOver(s))
    ensures order == [] && T.Released(ts, s.clock) == [] && T.Expire(ts, s.clock) == ts
    ensures T.AfterRelease(s.timers, s.clock, RolledOver(s)) == map[]
  {
    hide RolledOver;
    NothingListed(order, s.timers, s.clock, RolledOver(s));
  }

  lemma NothingListed(order: seq<nat>, m: T.Pending, now: nat, rollover: bool)
    requires Lists(order, m, now, rollover)
    ensures m == map[] ==> order == []
  {
    if order != [] {
      assert order[0] in m;
    }
  }

  /** One idle pass of the runtime treats its timers as listExpiredCb treats the
      set, an empty one included: whatever listing it is given, it queues exactly
      the callbacks of the released timers in set order, before the events are
      handled, and keeps exactly the remaining timers and the reading for the next
      rollover test. */
  lemma PassReleases(s: State, ts: T.TimerState, order: seq<nat>, reports: seq<Report>)
    requires T.Sorted(ts.entries) && T.Distinct(ts.entries) && s.timers == T.AsMap(ts.entries)
    requires s.previous == ts.previous && Lists(order, s.timers, s.clock, RolledOver(s))
    ensures var s', after := HandleIdle(s, order, reports), T.Expire(ts, s.clock);
            && s'.timers == T.AsMap(after.entries)
            && s'.previous == after.previous
            && s'.io == HandleReports(s.io.(queue := s.io.queue + CbTasks(T.Callbacks(T.Released(ts, s.clock)))),
                                      reports, |reports|)
  {
    if ts.entries == [] {
      EmptyPass(s, ts, order);
      assert s.io.queue + CbTasks(T.Callbacks([])) == s.io.queue;
      hide HandleReports;
    } else {
      assert ts.entries[0].id in s.timers;
      assert RolledOver(s) == T.Rollover(ts, s.clock);
      QueueAfterPass(s, ts, order);
      T.ExpireExact(ts, s.clock);
      hide T.Released, T.AsMap, T.Sorted, T.Distinct, T.Rollover, T.AfterRelease, RolledOver, HandleReports;
    }
  }

  /** The runtime's test for "no next timer" is getNextTimer's answer. */
  lemma NoNextIsNone(es: seq<T.Entry>, now: nat)
    requires T.Sorted(es) && T.Distinct(es)
    ensures NoNextTimer(T.AsMap(es), now) <==> T.NextTimeout(es, now) == T.NO_TIMER
  {
    var m := T.AsMap(es);
    if es != [] {
      var f := es[0].id;
      T.MapAt(es, 0);
      forall b | b in m ensures m[f].next <= m[b].next {
        T.FrontLeast(es, b);
      }
      assert IsFirst(m, f);
      hide T.AsMap, T.Sorted, T.Distinct;
      assert forall a :: a in m && IsFirst(m, a) ==> m[a].next == m[f].next;
    }
  }
}

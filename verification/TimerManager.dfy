/** The timer manager as it is written (src/timer.cpp, include/timer.h): timer
    objects whose fields change in place, and an ordered set of them.  The
    objects live in a store indexed by address; an element of the set carries
    the fields its object had when it was inserted, which is what the order was
    computed from.  That the two never drift apart while a timer is pending is
    part of the invariant. */
module TimerManagement {
  import opened Types
  import opened TimerSet

  /** The fields of a timer object; a null callback is `None`. */
  datatype Timer = Timer(recurring: bool, ms: nat, next: nat, cb: Option<Callback>)

  type Store = map<nat, Timer>

  /** The object as an element of the set. */
  function View(store: Store, a: nat): Entry
    requires a in store && store[a].cb.Some?
  {
    Entry(store[a].next, a, store[a].ms, store[a].recurring, store[a].cb.value)
  }

  /** The objects that have a callback. */
  function Armed(store: Store): Pending {
    map a | a in store && store[a].cb.Some? :: View(store, a)
  }

  /** The set holds each object with a callback, once and as it is now. */
  ghost predicate Coherent(store: Store, timers: seq<Entry>) {
    Sorted(timers) && Distinct(timers) && AsMap(timers) == Armed(store)
  }

  lemma AddCoherent(store: Store, timers: seq<Entry>, a: nat, t: Timer)
    requires Coherent(store, timers) && a !in AsMap(timers) && t.cb.Some?
    ensures Coherent(store[a := t], Insert(timers, View(store[a := t], a)))
  {
    var e := View(store[a := t], a);
    InsertSorted(timers, e);
    InsertDistinct(timers, e);
    InsertMap(timers, e);
    assert Armed(store[a := t]) == Armed(store)[a := e];
  }

  lemma CancelCoherent(store: Store, timers: seq<Entry>, a: nat)
    requires Coherent(store, timers) && a in store
    ensures Coherent(store[a := store[a].(cb := None)], Remove(timers, a))
    ensures a !in AsMap(Remove(timers, a))
  {
    RemoveSorted(timers, a);
    RemoveDistinct(timers, a);
    RemoveMap(timers, a);
    assert Armed(store[a := store[a].(cb := None)]) == Armed(store) - {a};
  }

  lemma ReinsertCoherent(store: Store, timers: seq<Entry>, a: nat, t: Timer)
    requires Coherent(store, timers) && a in store && t.cb.Some?
    ensures Coherent(store[a := t], Insert(Remove(timers, a), View(store[a := t], a)))
  {
    CancelCoherent(store, timers, a);
    var store' := store[a := store[a].(cb := None)];
    AddCoherent(store', Remove(timers, a), a, t);
    assert store'[a := t] == store[a := t];
  }

  /** A released object: re-armed one period after the reading, or without its
      callback. */
  function ReleasedTimer(t: Timer, now: nat): Timer {
    if t.recurring then t.(next := t.ms + now) else t.(cb := None)
  }

  /** The objects after the first `n` released timers were dealt with. */
  ghost predicate StoreAfter(store: Store, store0: Store, released: seq<Entry>, n: nat, now: nat) {
    && store.Keys == store0.Keys
    && (forall j :: 0 <= j < |released| ==> released[j].id in store0)
    && (forall j :: 0 <= j < |released| ==>
          store[released[j].id] ==
          if j < n then ReleasedTimer(store0[released[j].id], now) else store0[released[j].id])
    && (forall a :: a in store && a !in AsMap(released) ==> store[a] == store0[a])
  }

  lemma StoreStep(store: Store, store0: Store, released: seq<Entry>, n: nat, now: nat)
    requires n < |released| && Distinct(released) && StoreAfter(store, store0, released, n, now)
    ensures var a := released[n].id;
            a in store && StoreAfter(store[a := ReleasedTimer(store[a], now)], store0, released, n + 1, now)
  {
    MapAt(released, n);
    forall j | 0 <= j < |released| && j != n ensures released[j].id != released[n].id {
      HoldsOnce(released, if j < n then j else n, if j < n then n else j);
    }
  }

  /** When all released timers were dealt with, the set again holds exactly the
      objects with a callback. */
  lemma StoreDone(store: Store, store0: Store, ts: TimerState, now: nat, a: nat)
    requires Sorted(ts.entries) && Distinct(ts.entries) && AsMap(ts.entries) == Armed(store0)
    requires var released := Released(ts, now); StoreAfter(store, store0, released, |released|, now)
    ensures var es := AsMap(Expire(ts, now).entries);
            (a in es <==> a in Armed(store)) && (a in es ==> es[a] == Armed(store)[a])
  {
    var released := Released(ts, now);
    ReleaseOrdered(ts, now);
    ExpireAt(ts, now, a);
    if a in AsMap(released) {
      var i := Position(released, a);
      assert store[released[i].id] == ReleasedTimer(store0[released[i].id], now);
    } else if a in store {
      assert store[a] == store0[a];
    }
  }

  lemma StoreEnd(store: Store, store0: Store, ts: TimerState, now: nat)
    requires Coherent(store0, ts.entries)
    requires var released := Released(ts, now); StoreAfter(store, store0, released, |released|, now)
    ensures Coherent(store, Expire(ts, now).entries)
  {
    ExpireExact(ts, now);
    var es := Expire(ts, now).entries;
    forall a
      ensures a in AsMap(es) <==> a in Armed(store)
      ensures a in AsMap(es) ==> AsMap(es)[a] == Armed(store)[a]
    {
      StoreDone(store, store0, ts, now, a);
    }
  }

  lemma StoreStart(store: Store, ts: TimerState, now: nat)
    requires Coherent(store, ts.entries)
    ensures Distinct(Released(ts, now)) && StoreAfter(store, store, Released(ts, now), 0, now)
  {
    var released := Released(ts, now);
    ReleaseOrdered(ts, now);
    forall j | 0 <= j < |released| ensures released[j].id in store {
      MapAt(released, j);
      ExpireAt(ts, now, released[j].id);
      assert released[j].id in Armed(store);
    }
  }

  /** What a pass makes of a timer object: one that is due, or any that is pending
      when the clock has gone on for more than an hour, loses its callback unless it
      recurs, and then is due one period after the reading. */
  function Passed(t: Timer, previous: nat, now: nat): Timer {
    if t.cb.Some? && (t.next <= now || now > previous + 3_600_000) then
      if t.recurring then Timer(true, t.ms, now + t.ms, t.cb) else Timer(false, t.ms, t.next, None)
    else t
  }

  lemma ArmedHas(store: Store, timers: seq<Entry>, a: nat)
    requires Coherent(store, timers) && a in store
    ensures a in AsMap(timers) <==> store[a].cb.Some?
    ensures a in AsMap(timers) ==> AsMap(timers)[a] == View(store, a)
  {
  }

  /** Later the set is as sound as it was. */
  lemma StillSound(store: Store, ts: TimerState, clock: nat, now: nat, sampled: Option<nat>, told: bool)
    requires Coherent(store, ts.entries) && Sound(AsMap(ts.entries), ts.tickled, clock, sampled, told) && clock <= now
    ensures Integrity(ts, now, sampled, told)
  {
  }

  /** What reset does to a pending timer. */
  lemma ResetPending(store: Store, ts: TimerState, a: nat, ms: nat, fromNow: bool, clock: nat, now: nat,
                     sampled: Option<nat>, told: bool)
    requires Coherent(store, ts.entries) && Sound(AsMap(ts.entries), ts.tickled, clock, sampled, told) && clock <= now
    requires a in store && store[a].cb.Some? && (ms != store[a].ms || fromNow)
    ensures store[a].ms <= store[a].next
    ensures var e := Restarted(View(store, a), ms, fromNow, now);
            && e == Entry(if fromNow then now + ms else store[a].next - store[a].ms + ms, a, ms, store[a].recurring,
                          store[a].cb.value)
            && ResetTimer(ts, a, ms, fromNow, now) == AddTimer(CancelTimer(ts, a), e)
            && var (ts', notify) := ResetTimer(ts, a, ms, fromNow, now);
               Integrity(ts', now, sampled, told || notify)
  {
    ArmedHas(store, ts.entries, a);
    StillSound(store, ts, clock, now, sampled, told);
    hide Coherent, Integrity, AddTimer, CancelTimer;
    ResetKeeps(ts, a, ms, fromNow, now, sampled, told);
  }

  lemma PassedNone(store: Store, previous: nat, now: nat)
    requires Coherent(store, [])
    ensures forall a :: a in store ==> store[a] == Passed(store[a], previous, now)
  {
    forall a | a in store ensures store[a].cb.None? {
      ArmedHas(store, [], a);
    }
  }

  lemma PassedAll(store: Store, store0: Store, ts: TimerState, now: nat)
    requires Coherent(store0, ts.entries)
    requires StoreAfter(store, store0, Released(ts, now), |Released(ts, now)|, now)
    ensures store.Keys == store0.Keys
    ensures forall a :: a in store ==> a in store0 && store[a] == Passed(store0[a], ts.previous, now)
  {
    hide Coherent, Passed, Released;
    forall a | a in store ensures a in store0 && store[a] == Passed(store0[a], ts.previous, now) {
      PassedOne(store, store0, ts, now, a);
    }
  }

  lemma PassedOne(store: Store, store0: Store, ts: TimerState, now: nat, a: nat)
    requires Coherent(store0, ts.entries) && a in store
    requires StoreAfter(store, store0, Released(ts, now), |Released(ts, now)|, now)
    ensures a in store0 && store[a] == Passed(store0[a], ts.previous, now)
  {
    var rs := Released(ts, now);
    ReleaseOrdered(ts, now);
    ExpireAt(ts, now, a);
    assert a in AsMap(ts.entries) <==> store0[a].cb.Some?;
    assert a in AsMap(ts.entries) ==> AsMap(ts.entries)[a] == View(store0, a);
    if a in AsMap(rs) {
      var i := Position(rs, a);
    }
  }

  class TimerManager {
    var store: Store
    var timers: seq<Entry>
    var tickled: bool
    var previous: nat
    ghost var clock: nat
    ghost var sampled: Option<nat>
    /** Some call has notified since the last sampling. */
    ghost var told: bool

    /** Besides, no front-of-set wake-up is lost. */
    ghost predicate Valid()
      reads this
    {
      Coherent(store, timers) && Sound(AsMap(timers), tickled, clock, sampled, told)
    }

    ghost function State(): TimerState
      reads this
    {
      TimerState(timers, tickled, previous)
    }

    constructor (now: nat)
      ensures Valid()
      ensures State() == TimerState([], false, now) && clock == now && sampled == None && !told
    {
      store, timers, tickled, previous := map[], [], false, now;
      clock, sampled, told := now, None, false;
    }

    /** Insertion into the ordered set; says whether the timer became the first. */
    method InsertSet(e: Entry) returns (first: bool)
      modifies this`timers
      ensures timers == Insert(old(timers), e)
      ensures first ==> timers[0] == e
      ensures !first ==> timers[0] != e
    {
      var k := 0;
      while k < |timers| && Less(timers[k], e)
        invariant 0 <= k <= |timers|
        invariant forall i :: 0 <= i < k ==> Less(timers[i], e)
      {
        k := k + 1;
      }
      InsertShape(timers, e, k);
      first := k == 0;
      timers := timers[..k] + [e] + timers[k..];
    }

    /** Erasing the timer with this address, if it is in the set. */
    method EraseSet(a: nat)
      modifies this`timers
      ensures timers == Remove(old(timers), a)
    {
      var k := 0;
      while k < |timers| && timers[k].id != a
        invariant 0 <= k <= |timers|
        invariant forall i :: 0 <= i < k ==> timers[i].id != a
      {
        k := k + 1;
      }
      RemoveShape(timers, a, k);
      if k < |timers| {
        timers := timers[..k] + timers[k + 1..];
      }
    }

    /** addTimer: the new timer is due `ms` after the reading; the owner is
        notified exactly when it became the first and no notification is open. */
    method Add(a: nat, ms: nat, cb: Callback, recurring: bool, now: nat) returns (notify: bool)
      requires Valid() && a !in store && clock <= now
      modifies this
      ensures Valid()
      ensures store == old(store)[a := Timer(recurring, ms, ms + now, Some(cb))]
      ensures clock == now && sampled == old(sampled)
      ensures (State(), notify) == AddTimer(old(State()), Entry(now + ms, a, ms, recurring, cb))
      ensures notify <==> !old(tickled) && timers[0] == Entry(now + ms, a, ms, recurring, cb)
      ensures tickled == (old(tickled) || notify) && told == (old(told) || notify)
    {
      hide Insert, Sorted, Distinct;
      var t := Timer(recurring, ms, ms + now, Some(cb));
      AddCoherent(store, timers, a, t);
      AddKeeps(State(), View(store[a := t], a), now, sampled, told);
      store := store[a := t];
      var first := InsertSet(View(store, a));
      notify := first && !tickled;
      if notify {
        tickled := true;
        told := true;
      }
      clock := now;
    }

    /** True exactly for a timer still pending, which then never fires. */
    method Cancel(a: nat, now: nat) returns (ok: bool)
      requires Valid() && a in store && clock <= now
      modifies this
      ensures Valid()
      ensures ok <==> a in old(AsMap(timers))
      ensures a !in AsMap(timers) && store == old(store)[a := old(store)[a].(cb := None)]
      ensures clock == now && sampled == old(sampled) && tickled == old(tickled) && told == old(told)
      ensures ok ==> State() == CancelTimer(old(State()), a)
      ensures !ok ==> State() == old(State())
    {
      clock := now;
      if store[a].cb.None? {
        assert store == store[a := store[a].(cb := None)];
        return false;
      }
      CancelCoherent(store, timers, a);
      CancelKeeps(State(), a, now, sampled, told);
      store := store[a := store[a].(cb := None)];
      EraseSet(a);
      ok := true;
    }

    /** Takes a pending timer out, changes its period and deadline, and puts it
        back where the order wants it. */
    method Reinsert(a: nat, e: Entry) returns (first: bool)
      requires Coherent(store, timers) && a in store && store[a].cb.Some?
      requires e == View(store, a).(ms := e.ms, next := e.next)
      modifies this`store, this`timers
      ensures Coherent(store, timers)
      ensures store == old(store)[a := old(store)[a].(ms := e.ms, next := e.next)]
      ensures timers == Insert(Remove(old(timers), a), e)
      ensures first ==> timers[0] == e
      ensures !first ==> timers[0] != e
    {
      ReinsertCoherent(store, timers, a, store[a].(ms := e.ms, next := e.next));
      EraseSet(a);
      store := store[a := store[a].(ms := e.ms, next := e.next)];
      first := InsertSet(e);
    }

    /** refresh: a pending timer starts over at the reading, and nobody is
        notified. */
    method Refresh(a: nat, now: nat) returns (ok: bool)
      requires Valid() && a in store && clock <= now
      modifies this
      ensures Valid()
      ensures ok <==> a in old(AsMap(timers))
      ensures clock == now && sampled == old(sampled) && tickled == old(tickled) && told == old(told)
      ensures State() == RefreshTimer(old(State()), a, now)
      ensures store == if ok then old(store)[a := old(store)[a].(next := now + old(store)[a].ms)] else old(store)
    {
      clock := now;
      if store[a].cb.None? {
        return false;
      }
      RefreshKeeps(State(), a, now, sampled, told);
      var first := Reinsert(a, Refreshed(View(store, a), now));
      ok := true;
    }

    /** reset: the same period kept running is left alone whether or not the
        timer is pending; otherwise a pending timer gets the new period, counted
        from the reading or from its old start. */
    method Reset(a: nat, ms: nat, fromNow: bool, now: nat) returns (ok: bool, notify: bool)
      requires Valid() && a in store && clock <= now
      modifies this
      ensures Valid()
      ensures ok <==> a in old(AsMap(timers)) || (ms == old(store)[a].ms && !fromNow)
      ensures clock == now && sampled == old(sampled)
      ensures (State(), notify) == ResetTimer(old(State()), a, ms, fromNow, now)
      ensures var t := old(store)[a];
              store == if t.cb.None? || (ms == t.ms && !fromNow) then old(store)
                       else old(store)[a := Timer(t.recurring, ms, if fromNow then now + ms else t.next - t.ms + ms,
                                                  t.cb)]
      ensures tickled == (old(tickled) || notify) && told == (old(told) || notify)
    {
      ArmedHas(store, timers, a);
      hide Insert, Remove, Sorted, Distinct, AsMap, Coherent, Armed, Restarted;
      clock := now;
      if ms == store[a].ms && !fromNow {
        return true, false;
      }
      if store[a].cb.None? {
        return false, false;
      }
      ResetPending(store, State(), a, ms, fromNow, old(clock), now, sampled, told);
      var first := Reinsert(a, Restarted(View(store, a), ms, fromNow, now));
      notify := first && !tickled;
      if notify {
        tickled := true;
        told := true;
      }
      ok := true;
    }

    /** getNextTimer: re-opens the notification and returns the time left. */
    method GetNextTimer(now: nat) returns (timeout: int)
      requires Valid() && clock <= now
      modifies this`tickled, this`clock, this`sampled, this`told
      ensures Valid()
      ensures timeout == NextTimeout(timers, now)
      ensures !tickled && !told && clock == now
      ensures timers == [] ==> timeout == 0xffff_ffff_ffff_ffff
      ensures timers != [] ==> timeout == if timers[0].next <= now then 0 else timers[0].next - now
      ensures sampled == if timers == [] then None else Some(timers[0].next)
    {
      SampleKeeps(State(), now, sampled, told);
      tickled := false;
      clock, sampled, told := now, None, false;
      if timers == [] {
        return NO_TIMER;
      }
      var next := timers[0].next;
      sampled := Some(next);
      timeout := if now >= next then 0 else next - now;
    }

    /** The first position not below the probe, then past every equal deadline:
        the due timers, whatever address the probe object got. */
    method ReleaseBound(now: nat, probe: nat) returns (k: nat)
      requires Sorted(timers)
      ensures k <= |timers|
      ensures timers[..k] == TakeDue(timers, now) && timers[k..] == DropDue(timers, now)
    {
      k := 0;
      var at := Entry(now, probe, 0, false, UserCb(0));
      while k < |timers| && Less(timers[k], at)
        invariant 0 <= k <= |timers|
        invariant forall i :: 0 <= i < k ==> timers[i].next <= now
      {
        k := k + 1;
      }
      while k < |timers| && timers[k].next == now
        invariant 0 <= k <= |timers|
        invariant forall i :: 0 <= i < k ==> timers[i].next <= now
        invariant k < |timers| ==> timers[k].next >= now
      {
        if k + 1 < |timers| {
          SortedAt(timers, k);
        }
        k := k + 1;
      }
      DueShape(timers, now, k);
    }

    /** listExpiredCb, as one step under the lock. */
    method ListExpired(now: nat, probe: nat) returns (cbs: seq<Callback>)
      requires Valid() && clock <= now
      modifies this
      ensures Valid()
      ensures clock == now && sampled == old(sampled) && tickled == old(tickled) && told == old(told)
      ensures State() == Expire(old(State()), now)
      ensures store.Keys == old(store).Keys
      ensures forall a :: a in store ==> store[a] == Passed(old(store)[a], old(previous), now)
      ensures cbs == Callbacks(Released(old(State()), now))
    {
      ghost var ts, store0 := State(), store;
      ExpireKeeps(State(), now, sampled, told);
      cbs := [];
      clock := now;
      hide Passed, Coherent, Sound, StoreAfter;
      if timers == [] {
        PassedNone(store, previous, now);
        return;
      }
      var rollover := now > previous && now > previous + ROLLOVER_MS;
      var k := |timers|;
      if !rollover {
        k := ReleaseBound(now, probe);
      }
      assert timers[..k] == Released(State(), now) && timers[k..] == Kept(State(), now);
      cbs := ReleaseFirst(k, now);
      previous := now;
      PassedAll(store, store0, ts, now);
    }

    /** Takes the first `k` timers out of the set and deals with them in order. */
    method ReleaseFirst(k: nat, now: nat) returns (cbs: seq<Callback>)
      requires Coherent(store, timers) && timers != [] && k <= |timers|
      requires timers[..k] == Released(State(), now) && timers[k..] == Kept(State(), now)
      modifies this`store, this`timers
      ensures Coherent(store, timers)
      ensures timers == Expire(old(State()), now).entries
      ensures cbs == Callbacks(Released(old(State()), now))
      ensures StoreAfter(store, old(store), Released(old(State()), now), |Released(old(State()), now)|, now)
    {
      ghost var ts, store0 := State(), store;
      StoreStart(store, ts, now);
      var expired := timers[..k];
      timers := timers[k..];
      cbs := ReleaseAll(expired, now);
      StoreEnd(store, store0, ts, now);
    }

    /** The loop over the timers taken out. */
    method ReleaseAll(expired: seq<Entry>, now: nat) returns (cbs: seq<Callback>)
      requires Distinct(expired) && StoreAfter(store, store, expired, 0, now)
      modifies this`store, this`timers
      ensures timers == Rearm(old(timers), expired, |expired|, now)
      ensures StoreAfter(store, old(store), expired, |expired|, now)
      ensures cbs == Callbacks(expired)
    {
      hide StoreAfter, Distinct, Insert;
      cbs := [];
      var i := 0;
      while i < |expired|
        invariant 0 <= i <= |expired|
        invariant timers == Rearm(old(timers), expired, i, now)
        invariant StoreAfter(store, old(store), expired, i, now)
        invariant |cbs| == i && forall j :: 0 <= j < i ==> cbs[j] == expired[j].cb
      {
        var e := expired[i];
        cbs := cbs + [e.cb];
        StoreStep(store, old(store), expired, i, now);
        store := store[e.id := ReleasedTimer(store[e.id], now)];
        if e.recurring {
          var first := InsertSet(e.(next := e.ms + now));
        }
        i := i + 1;
      }
    }
  }
}

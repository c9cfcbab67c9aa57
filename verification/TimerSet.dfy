/** The timer set at two levels (src/timer.cpp).  The simple one is a map from
    timer address to timer: what is pending, without an order.  The ordered one
    is the sequence the comparator produces.  The runtime machine uses the
    simple level; the class in TimerManager.dfy implements the ordered one; the
    lemmas here connect the two. */
module TimerSet {
  import opened Types

  const TWO_64: int := 0x1_0000_0000_0000_0000
  /** What getNextTimer returns for an empty set. */
  const NO_TIMER: int := TWO_64 - 1
  const ROLLOVER_MS := 60 * 60 * 1000

  /** A pending timer; `id` is the address of the timer object. */
  datatype Entry = Entry(next: nat, id: nat, ms: nat, recurring: bool, cb: Callback)

  // ------------------------------------------------------------ the simple level

  type Pending = map<nat, Entry>

  predicate Due(e: Entry, now: nat, rollover: bool) {
    rollover || e.next <= now
  }

  /** Released timers leave, unless they recur: then they are due one period
      after the reading. */
  function AfterRelease(m: Pending, now: nat, rollover: bool): (m': Pending)
    ensures forall a :: a in m' ==> a in m
  {
    map a | a in m && (Due(m[a], now, rollover) ==> m[a].recurring) ::
      if Due(m[a], now, rollover) then m[a].(next := m[a].ms + now) else m[a]
  }

  function Refreshed(e: Entry, now: nat): Entry {
    e.(next := now + e.ms)
  }

  function Restarted(e: Entry, ms: nat, fromNow: bool, now: nat): Entry
    requires e.ms <= e.next
  {
    e.(ms := ms, next := (if fromNow then now else e.next - e.ms) + ms)
  }

  // ----------------------------------------------------------- the ordered level

  /** By deadline, then by address. */
  predicate Less(a: Entry, b: Entry) {
    a.next < b.next || (a.next == b.next && a.id < b.id)
  }

  predicate Below(e: Entry, es: seq<Entry>) {
    es == [] || (Less(e, es[0]) && Below(e, es[1..]))
  }

  predicate Sorted(es: seq<Entry>) {
    es == [] || (Below(es[0], es[1..]) && Sorted(es[1..]))
  }

  predicate Distinct(es: seq<Entry>) {
    es == [] || (es[0].id !in AsMap(es[1..]) && Distinct(es[1..]))
  }

  function AsMap(es: seq<Entry>): (m: Pending)
    ensures forall a :: a in m ==> m[a].id == a
  {
    if es == [] then map[] else AsMap(es[1..])[es[0].id := es[0]]
  }

  function Insert(es: seq<Entry>, e: Entry): (r: seq<Entry>)
    ensures |r| == |es| + 1
  {
    if es == [] then [e]
    else if Less(es[0], e) then [es[0]] + Insert(es[1..], e)
    else [e] + es
  }

  function Remove(es: seq<Entry>, id: nat): seq<Entry> {
    if es == [] then []
    else if es[0].id == id then es[1..]
    else [es[0]] + Remove(es[1..], id)
  }

  /** The timers from the front on that are due. */
  function TakeDue(es: seq<Entry>, now: nat): (r: seq<Entry>)
    ensures |r| <= |es|
  {
    if es == [] || es[0].next > now then [] else [es[0]] + TakeDue(es[1..], now)
  }

  function DropDue(es: seq<Entry>, now: nat): seq<Entry> {
    if es == [] || es[0].next > now then es else DropDue(es[1..], now)
  }

  /** The set after the first `n` released timers were dealt with. */
  function Rearm(es: seq<Entry>, released: seq<Entry>, n: nat, now: nat): seq<Entry>
    requires n <= |released|
  {
    if n == 0 then es
    else
      var e := released[n - 1];
      if e.recurring then Insert(Rearm(es, released, n - 1, now), e.(next := e.ms + now))
      else Rearm(es, released, n - 1, now)
  }

  function Callbacks(es: seq<Entry>): (cbs: seq<Callback>)
    ensures |cbs| == |es|
    ensures forall i :: 0 <= i < |es| ==> cbs[i] == es[i].cb
  {
    seq(|es|, i requires 0 <= i < |es| => es[i].cb)
  }

  // ---------------------------------------------------------- order and insertion

  lemma {:induction false} BelowTrans(x: Entry, y: Entry, es: seq<Entry>)
    requires Less(x, y) && Below(y, es)
    ensures Below(x, es)
  {
    if es != [] {
      BelowTrans(x, y, es[1..]);
    }
  }

  lemma {:induction false} InsertBelow(x: Entry, es: seq<Entry>, e: Entry)
    requires Below(x, es) && Less(x, e)
    ensures Below(x, Insert(es, e))
  {
    if es != [] && Less(es[0], e) {
      InsertBelow(x, es[1..], e);
    }
  }

  lemma {:induction false} InsertSorted(es: seq<Entry>, e: Entry)
    requires Sorted(es) && e.id !in AsMap(es)
    ensures Sorted(Insert(es, e))
  {
    if es != [] {
      if Less(es[0], e) {
        InsertSorted(es[1..], e);
        InsertBelow(es[0], es[1..], e);
      } else {
        BelowTrans(e, es[0], es[1..]);
      }
    }
  }

  lemma {:induction false} InsertAt(es: seq<Entry>, e: Entry, a: nat)
    requires e.id !in AsMap(es)
    ensures a in AsMap(Insert(es, e)) <==> a == e.id || a in AsMap(es)
    ensures a in AsMap(Insert(es, e)) ==> AsMap(Insert(es, e))[a] == if a == e.id then e else AsMap(es)[a]
  {
    if es != [] && Less(es[0], e) {
      InsertAt(es[1..], e, a);
      assert Insert(es, e)[1..] == Insert(es[1..], e);
    } else {
      assert Insert(es, e)[1..] == es;
    }
  }

  lemma {:induction false} InsertDistinct(es: seq<Entry>, e: Entry)
    requires Distinct(es) && e.id !in AsMap(es)
    ensures Distinct(Insert(es, e))
  {
    if es != [] && Less(es[0], e) {
      InsertDistinct(es[1..], e);
      InsertAt(es[1..], e, es[0].id);
      assert Insert(es, e)[1..] == Insert(es[1..], e);
    } else {
      assert Insert(es, e)[1..] == es;
    }
  }

  lemma InsertMap(es: seq<Entry>, e: Entry)
    requires e.id !in AsMap(es)
    ensures AsMap(Insert(es, e)) == AsMap(es)[e.id := e]
  {
    forall a
      ensures a in AsMap(Insert(es, e)) <==> a == e.id || a in AsMap(es)
      ensures a in AsMap(Insert(es, e)) ==> AsMap(Insert(es, e))[a] == if a == e.id then e else AsMap(es)[a]
    {
      InsertAt(es, e, a);
    }
  }

  lemma {:induction false} RemoveBelow(x: Entry, es: seq<Entry>, id: nat)
    requires Below(x, es)
    ensures Below(x, Remove(es, id))
  {
    if es != [] && es[0].id != id {
      RemoveBelow(x, es[1..], id);
    }
  }

  lemma {:induction false} RemoveSorted(es: seq<Entry>, id: nat)
    requires Sorted(es)
    ensures Sorted(Remove(es, id))
  {
    if es != [] && es[0].id != id {
      RemoveSorted(es[1..], id);
      RemoveBelow(es[0], es[1..], id);
      assert Remove(es, id)[1..] == Remove(es[1..], id);
    }
  }

  lemma {:induction false} RemoveAt(es: seq<Entry>, id: nat, a: nat)
    requires Distinct(es)
    ensures a in AsMap(Remove(es, id)) <==> a in AsMap(es) && a != id
    ensures a in AsMap(Remove(es, id)) ==> AsMap(Remove(es, id))[a] == AsMap(es)[a]
  {
    if es != [] && es[0].id != id {
      RemoveAt(es[1..], id, a);
      assert Remove(es, id)[1..] == Remove(es[1..], id);
    }
  }

  lemma {:induction false} RemoveDistinct(es: seq<Entry>, id: nat)
    requires Distinct(es)
    ensures Distinct(Remove(es, id))
  {
    if es != [] && es[0].id != id {
      RemoveDistinct(es[1..], id);
      RemoveAt(es[1..], id, es[0].id);
      assert Remove(es, id)[1..] == Remove(es[1..], id);
    }
  }

  lemma RemoveMap(es: seq<Entry>, id: nat)
    requires Distinct(es)
    ensures AsMap(Remove(es, id)) == AsMap(es) - {id}
  {
    forall a
      ensures a in AsMap(Remove(es, id)) <==> a in AsMap(es) && a != id
      ensures a in AsMap(Remove(es, id)) ==> AsMap(Remove(es, id))[a] == AsMap(es)[a]
    {
      RemoveAt(es, id, a);
    }
  }

  lemma {:induction false} InsertShape(es: seq<Entry>, e: Entry, k: nat)
    requires k <= |es|
    requires forall i :: 0 <= i < k ==> Less(es[i], e)
    requires k < |es| ==> !Less(es[k], e)
    ensures Insert(es, e) == es[..k] + [e] + es[k..]
  {
    if es != [] && k > 0 {
      InsertShape(es[1..], e, k - 1);
      assert es[..k] == [es[0]] + es[1..][..k - 1];
      assert es[1..][k - 1..] == es[k..];
    }
  }

  lemma {:induction false} RemoveShape(es: seq<Entry>, id: nat, k: nat)
    requires k <= |es|
    requires forall i :: 0 <= i < k ==> es[i].id != id
    requires k < |es| ==> es[k].id == id
    ensures Remove(es, id) == if k < |es| then es[..k] + es[k + 1..] else es
  {
    if es != [] && k > 0 {
      RemoveShape(es[1..], id, k - 1);
      assert es == [es[0]] + es[1..];
      if k < |es| {
        assert es[..k] == [es[0]] + es[1..][..k - 1];
        assert es[k + 1..] == es[1..][k..];
      }
    }
  }

  lemma {:induction false} DueShape(es: seq<Entry>, now: nat, k: nat)
    requires k <= |es|
    requires forall i :: 0 <= i < k ==> es[i].next <= now
    requires k < |es| ==> es[k].next > now
    ensures TakeDue(es, now) == es[..k] && DropDue(es, now) == es[k..]
  {
    if es != [] && k > 0 {
      DueShape(es[1..], now, k - 1);
      assert es[..k] == [es[0]] + es[1..][..k - 1];
      assert es[1..][k - 1..] == es[k..];
    }
  }

  lemma {:induction false} SortedAt(es: seq<Entry>, i: nat)
    requires Sorted(es) && i + 1 < |es|
    ensures Less(es[i], es[i + 1])
  {
    if i > 0 {
      SortedAt(es[1..], i - 1);
    }
  }

  /** The first timer of a sorted set has the least deadline. */
  lemma {:induction false} FrontLeast(es: seq<Entry>, a: nat)
    requires Sorted(es) && es != [] && a in AsMap(es)
    ensures es[0].next <= AsMap(es)[a].next
  {
    if a != es[0].id {
      BelowLeast(es[0], es[1..], a);
    }
  }

  lemma {:induction false} BelowLeast(e: Entry, es: seq<Entry>, a: nat)
    requires Below(e, es) && a in AsMap(es)
    ensures e.next <= AsMap(es)[a].next
  {
    if a != es[0].id {
      BelowLeast(e, es[1..], a);
    }
  }

  // ------------------------------------------------------------------ releasing

  lemma {:induction false} TakeDueAt(es: seq<Entry>, now: nat, a: nat)
    requires Sorted(es) && Distinct(es)
    ensures a in AsMap(TakeDue(es, now)) <==> a in AsMap(es) && AsMap(es)[a].next <= now
    ensures a in AsMap(TakeDue(es, now)) ==> AsMap(TakeDue(es, now))[a] == AsMap(es)[a]
  {
    if es != [] {
      if es[0].next > now {
        if a in AsMap(es) {
          FrontLeast(es, a);
        }
      } else {
        TakeDueAt(es[1..], now, a);
        assert TakeDue(es, now)[1..] == TakeDue(es[1..], now);
      }
    }
  }

  lemma {:induction false} DropDueAt(es: seq<Entry>, now: nat, a: nat)
    requires Sorted(es) && Distinct(es)
    ensures a in AsMap(DropDue(es, now)) <==> a in AsMap(es) && AsMap(es)[a].next > now
    ensures a in AsMap(DropDue(es, now)) ==> AsMap(DropDue(es, now))[a] == AsMap(es)[a]
  {
    if es != [] {
      if es[0].next > now {
        if a in AsMap(es) {
          FrontLeast(es, a);
        }
      } else {
        DropDueAt(es[1..], now, a);
      }
    }
  }

  lemma {:induction false} DropDueOrdered(es: seq<Entry>, now: nat)
    requires Sorted(es) && Distinct(es)
    ensures Sorted(DropDue(es, now)) && Distinct(DropDue(es, now))
  {
    if es != [] && es[0].next <= now {
      DropDueOrdered(es[1..], now);
    }
  }

  lemma {:induction false} TakeDueOrdered(es: seq<Entry>, now: nat)
    requires Sorted(es) && Distinct(es)
    ensures Sorted(TakeDue(es, now)) && Distinct(TakeDue(es, now))
  {
    if es != [] && es[0].next <= now {
      TakeDueOrdered(es[1..], now);
      TakeDueBelow(es[0], es[1..], now);
      TakeDueAt(es[1..], now, es[0].id);
      assert TakeDue(es, now)[1..] == TakeDue(es[1..], now);
    }
  }

  lemma {:induction false} TakeDueBelow(x: Entry, es: seq<Entry>, now: nat)
    requires Below(x, es)
    ensures Below(x, TakeDue(es, now))
  {
    if es != [] && es[0].next <= now {
      TakeDueBelow(x, es[1..], now);
      assert TakeDue(es, now)[1..] == TakeDue(es[1..], now);
    }
  }

  lemma {:induction false} MapAt(es: seq<Entry>, i: nat)
    requires Distinct(es) && i < |es|
    ensures es[i].id in AsMap(es) && AsMap(es)[es[i].id] == es[i]
  {
    if i > 0 {
      MapAt(es[1..], i - 1);
    }
  }

  lemma {:induction false} HoldsOnce(es: seq<Entry>, i: nat, j: nat)
    requires Distinct(es) && i < j < |es|
    ensures es[i].id != es[j].id
  {
    if i == 0 {
      MapAt(es[1..], j - 1);
    } else {
      HoldsOnce(es[1..], i - 1, j - 1);
    }
  }

  lemma {:induction false} Position(es: seq<Entry>, a: nat) returns (i: nat)
    requires Distinct(es) && a in AsMap(es)
    ensures i < |es| && es[i].id == a && es[i] == AsMap(es)[a]
  {
    if es[0].id == a {
      i := 0;
    } else {
      var j := Position(es[1..], a);
      i := j + 1;
    }
  }

  /** No timer is both kept and released. */
  ghost predicate Apart(es: seq<Entry>, xs: seq<Entry>) {
    forall a :: a in AsMap(es) ==> a !in AsMap(xs)
  }

  /** What became of one timer when the first `n` released ones were dealt with. */
  lemma {:induction false} RearmAt(es: seq<Entry>, released: seq<Entry>, n: nat, now: nat, i: nat)
    requires i < |released| && n <= |released|
    requires Sorted(es) && Distinct(es) && Distinct(released) && Apart(es, released)
    ensures var r, a := Rearm(es, released, n, now), released[i].id;
            && Sorted(r) && Distinct(r)
            && (a in AsMap(r) <==> i < n && released[i].recurring)
            && (a in AsMap(r) ==> AsMap(r)[a] == released[i].(next := released[i].ms + now))
    decreases n, 0
  {
    MapAt(released, i);
    if n > 0 {
      RearmAt(es, released, n - 1, now, i);
      RearmAt(es, released, n - 1, now, n - 1);
      var e, r := released[n - 1], Rearm(es, released, n - 1, now);
      if i < n - 1 {
        HoldsOnce(released, i, n - 1);
      } else if n - 1 < i {
        HoldsOnce(released, n - 1, i);
      }
      if e.recurring {
        InsertSorted(r, e.(next := e.ms + now));
        InsertDistinct(r, e.(next := e.ms + now));
        InsertAt(r, e.(next := e.ms + now), released[i].id);
      }
    }
  }

  /** Dealing with released timers does not touch the others. */
  lemma {:induction false} RearmOther(es: seq<Entry>, released: seq<Entry>, n: nat, now: nat, a: nat)
    requires n <= |released| && a !in AsMap(released)
    requires Sorted(es) && Distinct(es) && Distinct(released) && Apart(es, released)
    ensures var r := Rearm(es, released, n, now);
            && Sorted(r) && Distinct(r)
            && (a in AsMap(r) <==> a in AsMap(es))
            && (a in AsMap(r) ==> AsMap(r)[a] == AsMap(es)[a])
  {
    if n > 0 {
      RearmOther(es, released, n - 1, now, a);
      RearmAt(es, released, n - 1, now, n - 1);
      MapAt(released, n - 1);
      var e, r := released[n - 1], Rearm(es, released, n - 1, now);
      if e.recurring {
        InsertSorted(r, e.(next := e.ms + now));
        InsertDistinct(r, e.(next := e.ms + now));
        InsertAt(r, e.(next := e.ms + now), a);
      }
    }
  }

  // -------------------------------------------------- every run of the manager

  datatype TimerState = TimerState(entries: seq<Entry>, tickled: bool, previous: nat)

  predicate Rollover(ts: TimerState, now: nat) {
    now > ts.previous && now > ts.previous + ROLLOVER_MS
  }

  function Released(ts: TimerState, now: nat): seq<Entry> {
    if Rollover(ts, now) then ts.entries else TakeDue(ts.entries, now)
  }

  function Kept(ts: TimerState, now: nat): seq<Entry> {
    if Rollover(ts, now) then [] else DropDue(ts.entries, now)
  }

  /** Insertion that notifies of a new front timer, once per sampling. */
  function AddTimer(ts: TimerState, e: Entry): (TimerState, bool) {
    var es := Insert(ts.entries, e);
    var notify := es[0] == e && !ts.tickled;
    (ts.(entries := es, tickled := ts.tickled || notify), notify)
  }

  function CancelTimer(ts: TimerState, id: nat): TimerState {
    ts.(entries := Remove(ts.entries, id))
  }

  function RefreshTimer(ts: TimerState, id: nat, now: nat): TimerState {
    if id in AsMap(ts.entries) then
      ts.(entries := Insert(Remove(ts.entries, id), Refreshed(AsMap(ts.entries)[id], now)))
    else ts
  }

  function ResetTimer(ts: TimerState, id: nat, ms: nat, fromNow: bool, now: nat): (TimerState, bool) {
    var m := AsMap(ts.entries);
    if id in m && m[id].ms <= m[id].next && (ms != m[id].ms || fromNow) then
      AddTimer(CancelTimer(ts, id), Restarted(m[id], ms, fromNow, now))
    else (ts, false)
  }

  /** Milliseconds until the first deadline. */
  function NextTimeout(es: seq<Entry>, now: nat): int {
    if es == [] then NO_TIMER
    else if now >= es[0].next then 0
    else es[0].next - now
  }

  /** listExpiredCb: an empty set does not even look at the clock. */
  function Expire(ts: TimerState, now: nat): TimerState {
    if ts.entries == [] then ts
    else
      var released := Released(ts, now);
      ts.(entries := Rearm(Kept(ts, now), released, |released|, now), previous := now)
  }

  /** Exact expiry, one timer at a time: it is released if and only if it is
      due at the reading (or a rollover is reported); a released timer stays
      only if it recurs, and is then due one period after the reading; any other
      timer is as it was. */
  lemma ExpireAt(ts: TimerState, now: nat, a: nat)
    requires Sorted(ts.entries) && Distinct(ts.entries)
    ensures var m, released := AsMap(ts.entries), AsMap(Released(ts, now));
            && (a in released <==> a in m && Due(m[a], now, Rollover(ts, now)))
            && (a in released ==> released[a] == m[a])
    ensures var m, m' := AsMap(ts.entries), AsMap(Expire(ts, now).entries);
            && (a in m' <==> a in AfterRelease(m, now, Rollover(ts, now)))
            && (a in m' ==> m'[a] == AfterRelease(m, now, Rollover(ts, now))[a])
  {
    ReleaseOrdered(ts, now);
    var es, kept, released := ts.entries, Kept(ts, now), Released(ts, now);
    if !Rollover(ts, now) {
      TakeDueAt(es, now, a);
      DropDueAt(es, now, a);
    }
    if a in AsMap(released) {
      var i := Position(released, a);
      RearmAt(kept, released, |released|, now, i);
    } else {
      RearmOther(kept, released, |released|, now, a);
    }
  }

  /** The released timers are in set order, each occurs once, and none of them
      is also kept. */
  lemma ReleaseOrdered(ts: TimerState, now: nat)
    requires Sorted(ts.entries) && Distinct(ts.entries)
    ensures Sorted(Released(ts, now)) && Distinct(Released(ts, now))
    ensures Sorted(Kept(ts, now)) && Distinct(Kept(ts, now))
    ensures Apart(Kept(ts, now), Released(ts, now))
  {
    if !Rollover(ts, now) {
      TakeDueOrdered(ts.entries, now);
      DropDueOrdered(ts.entries, now);
      forall a | a in AsMap(Kept(ts, now)) ensures a !in AsMap(Released(ts, now)) {
        TakeDueAt(ts.entries, now, a);
        DropDueAt(ts.entries, now, a);
      }
    }
  }

  /** The whole release, against the simple level. */
  lemma ExpireExact(ts: TimerState, now: nat)
    requires Sorted(ts.entries) && Distinct(ts.entries)
    ensures Sorted(Expire(ts, now).entries) && Distinct(Expire(ts, now).entries)
    ensures AsMap(Expire(ts, now).entries) == AfterRelease(AsMap(ts.entries), now, Rollover(ts, now))
  {
    ReleaseOrdered(ts, now);
    RearmOrdered(Kept(ts, now), Released(ts, now), now);
    forall a
      ensures a in AsMap(Expire(ts, now).entries) <==> a in AfterRelease(AsMap(ts.entries), now, Rollover(ts, now))
      ensures a in AsMap(Expire(ts, now).entries) ==>
                AsMap(Expire(ts, now).entries)[a] == AfterRelease(AsMap(ts.entries), now, Rollover(ts, now))[a]
    {
      ExpireAt(ts, now, a);
    }
  }

  lemma RearmOrdered(es: seq<Entry>, released: seq<Entry>, now: nat)
    requires Sorted(es) && Distinct(es) && Distinct(released) && Apart(es, released)
    ensures var r := Rearm(es, released, |released|, now); Sorted(r) && Distinct(r)
  {
    if released != [] {
      RearmAt(es, released, |released|, now, 0);
    }
  }

  /** One call into the manager, with the address of a new timer object. */
  datatype Op =
    | Add(ms: nat, id: nat, recurring: bool, cb: Callback)
    | Cancel(id: nat)
    | Refresh(id: nat)
    | Reset(id: nat, ms: nat, fromNow: bool)
    | Sample
    | List

  datatype Call = Call(op: Op, now: nat)

  /** The manager, the last clock reading, the first deadline seen by the last
      getNextTimer (none: it saw no timer, or has not been called), and whether
      the owner has been notified since. */
  datatype Tracked = Tracked(ts: TimerState, clock: nat, sampled: Option<nat>, told: bool)

  /** The call came back with a new state and may have notified. */
  function Notified(t: Tracked, now: nat, r: (TimerState, bool)): Tracked {
    t.(clock := now, ts := r.0, told := t.told || r.1)
  }

  function Apply(t: Tracked, c: Call): Tracked {
    match c.op
    case Add(ms, id, recurring, cb) =>
      Notified(t, c.now, AddTimer(t.ts, Entry(c.now + ms, id, ms, recurring, cb)))
    case Cancel(id) => t.(clock := c.now, ts := CancelTimer(t.ts, id))
    case Refresh(id) => t.(clock := c.now, ts := RefreshTimer(t.ts, id, c.now))
    case Reset(id, ms, fromNow) => Notified(t, c.now, ResetTimer(t.ts, id, ms, fromNow, c.now))
    case Sample =>
      Tracked(t.ts.(tickled := false), c.now,
              if t.ts.entries == [] then None else Some(t.ts.entries[0].next), false)
    case List => t.(clock := c.now, ts := Expire(t.ts, c.now))
  }

  /** The clock does not go back, and a new timer object has an address of its own. */
  predicate Allowed(t: Tracked, c: Call) {
    t.clock <= c.now && (c.op.Add? ==> c.op.id !in AsMap(t.ts.entries))
  }

  predicate Legal(t: Tracked, calls: seq<Call>)
    decreases |calls|
  {
    calls == [] || (Allowed(t, calls[0]) && Legal(Apply(t, calls[0]), calls[1..]))
  }

  function ApplyAll(t: Tracked, calls: seq<Call>): Tracked
    decreases |calls|
  {
    if calls == [] then t else ApplyAll(Apply(t, calls[0]), calls[1..])
  }

  predicate Before(next: nat, sampled: Option<nat>) {
    sampled.None? || next < sampled.value
  }

  /** The period is part of the deadline, and the timer was started no later
      than the last reading. */
  predicate Started(e: Entry, clock: nat) {
    e.ms <= e.next <= clock + e.ms
  }

  /** Timer set integrity, and: of a timer due before the deadline last sampled
      the owner has been notified since, and the flag says whether it has. */
  ghost predicate Integrity(ts: TimerState, clock: nat, sampled: Option<nat>, told: bool) {
    && Sorted(ts.entries)
    && Distinct(ts.entries)
    && Sound(AsMap(ts.entries), ts.tickled, clock, sampled, told)
  }

  ghost predicate Sound(m: Pending, tickled: bool, clock: nat, sampled: Option<nat>, told: bool) {
    && (tickled <==> told)
    && (forall a :: a in m ==> Started(m[a], clock) && (Before(m[a].next, sampled) ==> told))
  }

  lemma AddKeeps(ts: TimerState, e: Entry, clock: nat, sampled: Option<nat>, told: bool)
    requires Integrity(ts, clock, sampled, told) && e.id !in AsMap(ts.entries) && Started(e, clock)
    ensures var (ts', notify) := AddTimer(ts, e); Integrity(ts', clock, sampled, told || notify)
  {
    InsertSorted(ts.entries, e);
    InsertDistinct(ts.entries, e);
    InsertMap(ts.entries, e);
    if ts.entries != [] && Less(ts.entries[0], e) {
      assert ts.entries[0].id in AsMap(ts.entries);
      assert AsMap(ts.entries)[ts.entries[0].id] == ts.entries[0];
    }
  }

  lemma CancelKeeps(ts: TimerState, id: nat, clock: nat, sampled: Option<nat>, told: bool)
    requires Integrity(ts, clock, sampled, told)
    ensures Integrity(CancelTimer(ts, id), clock, sampled, told)
    ensures id !in AsMap(CancelTimer(ts, id).entries)
  {
    RemoveSorted(ts.entries, id);
    RemoveDistinct(ts.entries, id);
    RemoveMap(ts.entries, id);
  }

  /** Refreshing bypasses the notifying insertion, but only moves a deadline
      later. */
  lemma RefreshKeeps(ts: TimerState, id: nat, clock: nat, sampled: Option<nat>, told: bool)
    requires Integrity(ts, clock, sampled, told)
    ensures Integrity(RefreshTimer(ts, id, clock), clock, sampled, told)
  {
    if id in AsMap(ts.entries) {
      var e, es := AsMap(ts.entries)[id], Remove(ts.entries, id);
      CancelKeeps(ts, id, clock, sampled, told);
      InsertSorted(es, Refreshed(e, clock));
      InsertDistinct(es, Refreshed(e, clock));
      InsertMap(es, Refreshed(e, clock));
      RemoveMap(ts.entries, id);
    }
  }

  lemma ResetKeeps(ts: TimerState, id: nat, ms: nat, fromNow: bool, clock: nat, sampled: Option<nat>, told: bool)
    requires Integrity(ts, clock, sampled, told)
    ensures var (ts', notify) := ResetTimer(ts, id, ms, fromNow, clock);
            Integrity(ts', clock, sampled, told || notify)
  {
    if id in AsMap(ts.entries) {
      CancelKeeps(ts, id, clock, sampled, told);
      AddKeeps(CancelTimer(ts, id), Restarted(AsMap(ts.entries)[id], ms, fromNow, clock), clock, sampled, told);
    }
  }

  lemma SampleKeeps(ts: TimerState, clock: nat, sampled: Option<nat>, told: bool)
    requires Integrity(ts, clock, sampled, told)
    ensures Integrity(ts.(tickled := false), clock,
                      if ts.entries == [] then None else Some(ts.entries[0].next), false)
  {
    forall a | a in AsMap(ts.entries) ensures ts.entries[0].next <= AsMap(ts.entries)[a].next {
      FrontLeast(ts.entries, a);
    }
  }

  /** Re-arming bypasses the notifying insertion too, and only moves deadlines
      later. */
  lemma ExpireKeeps(ts: TimerState, clock: nat, sampled: Option<nat>, told: bool)
    requires Integrity(ts, clock, sampled, told)
    ensures Integrity(Expire(ts, clock), clock, sampled, told)
  {
    ExpireExact(ts, clock);
  }

  lemma ApplyKeeps(t: Tracked, c: Call)
    requires Integrity(t.ts, t.clock, t.sampled, t.told) && Allowed(t, c)
    ensures var t' := Apply(t, c); Integrity(t'.ts, t'.clock, t'.sampled, t'.told)
  {
    var ts, now := t.ts, c.now;
    assert Integrity(ts, now, t.sampled, t.told);
    match c.op
    case Add(ms, id, recurring, cb) => AddKeeps(ts, Entry(now + ms, id, ms, recurring, cb), now, t.sampled, t.told);
    case Cancel(id) => CancelKeeps(ts, id, now, t.sampled, t.told);
    case Refresh(id) => RefreshKeeps(ts, id, now, t.sampled, t.told);
    case Reset(id, ms, fromNow) => ResetKeeps(ts, id, ms, fromNow, now, t.sampled, t.told);
    case Sample => SampleKeeps(ts, now, t.sampled, t.told);
    case List => ExpireKeeps(ts, now, t.sampled, t.told);
  }

  /** Over every sequence of calls with a non-decreasing clock the set stays
      strictly ordered, no timer occurs twice, every deadline contains its
      period, and no front-of-set wake-up is lost: of a timer due before the
      deadline last sampled the owner has been notified since. */
  lemma {:induction false} ManagerRun(t: Tracked, calls: seq<Call>)
    requires Integrity(t.ts, t.clock, t.sampled, t.told) && Legal(t, calls)
    ensures var t' := ApplyAll(t, calls);
            && Integrity(t'.ts, t'.clock, t'.sampled, t'.told)
            && (t'.ts.tickled ==> t'.told)
            && (forall a :: a in AsMap(t'.ts.entries) ==>
                  var e := AsMap(t'.ts.entries)[a];
                  && e.ms <= e.next
                  && (t'.sampled.None? || e.next < t'.sampled.value ==> t'.told))
    decreases |calls|
  {
    if calls != [] {
      ApplyKeeps(t, calls[0]);
      ManagerRun(Apply(t, calls[0]), calls[1..]);
    }
  }

  /** refresh and reset at the simple level, with every field of the new entry;
      insertion and removal are InsertMap and RemoveMap. */
  lemma RefreshMap(ts: TimerState, id: nat, now: nat)
    requires Distinct(ts.entries) && id in AsMap(ts.entries)
    ensures var e := AsMap(ts.entries)[id];
            AsMap(RefreshTimer(ts, id, now).entries) ==
            AsMap(ts.entries)[id := Entry(now + e.ms, id, e.ms, e.recurring, e.cb)]
  {
    RemoveMap(ts.entries, id);
    InsertMap(Remove(ts.entries, id), Refreshed(AsMap(ts.entries)[id], now));
  }

  lemma ResetMap(ts: TimerState, id: nat, ms: nat, fromNow: bool, now: nat)
    requires Distinct(ts.entries) && id in AsMap(ts.entries)
    requires AsMap(ts.entries)[id].ms <= AsMap(ts.entries)[id].next
    ensures var e := AsMap(ts.entries)[id];
            AsMap(ResetTimer(ts, id, ms, fromNow, now).0.entries) ==
            AsMap(ts.entries)[id := Entry(if fromNow then now + ms else e.next - e.ms + ms, id, ms, e.recurring, e.cb)]
  {
    RemoveMap(ts.entries, id);
    InsertMap(Remove(ts.entries, id), Restarted(AsMap(ts.entries)[id], ms, fromNow, now));
  }

  /** When a call notifies: the timer goes to the front and the owner was not
      notified since the last sampling; and only then the flag goes up. */
  lemma WhenNotified(ts: TimerState, e: Entry)
    requires Sorted(ts.entries) && Distinct(ts.entries) && e.id !in AsMap(ts.entries)
    ensures var (ts', notify) := AddTimer(ts, e);
            && (notify <==> !ts.tickled && forall a :: a in AsMap(ts.entries) ==>
                  var f := AsMap(ts.entries)[a]; e.next < f.next || (e.next == f.next && e.id < f.id))
            && (ts'.tickled <==> ts.tickled || notify)
  {
    var m, front := AsMap(ts.entries), AddTimer(ts, e).0.entries[0] == e;
    if front {
      InsertSorted(ts.entries, e);
      forall a | a in m ensures Less(e, m[a]) {
        BelowMap(e, ts.entries, a);
      }
    } else {
      MapAt(ts.entries, 0);
      assert Less(ts.entries[0], e);
    }
  }

  lemma {:induction false} BelowMap(e: Entry, es: seq<Entry>, a: nat)
    requires Below(e, es) && a in AsMap(es)
    ensures Less(e, AsMap(es)[a])
  {
    if a != es[0].id {
      BelowMap(e, es[1..], a);
    }
  }

  /** The "none" value is returned exactly for an empty set, as long as no
      deadline reaches 2^64 and the clock has left zero. */
  lemma NoTimerMeansEmpty(es: seq<Entry>, now: nat)
    requires 0 < now && (es != [] ==> es[0].next < TWO_64)
    ensures NextTimeout(es, now) == NO_TIMER <==> es == []
  {
  }

  /** getNextTimer: 0 if some timer is due, else the time left to the least
      deadline, which is some timer's. */
  lemma NextWritten(es: seq<Entry>, now: nat)
    requires Sorted(es) && Distinct(es) && es != []
    ensures var m, left := AsMap(es), NextTimeout(es, now);
            && left >= 0
            && (left == 0 <==> exists a :: a in m && m[a].next <= now)
            && (left > 0 ==> (exists a :: a in m && m[a].next == now + left)
                             && forall a :: a in m ==> now + left <= m[a].next)
  {
    MapAt(es, 0);
    forall a | a in AsMap(es) ensures es[0].next <= AsMap(es)[a].next {
      FrontLeast(es, a);
    }
  }

  lemma {:induction false} LessAcross(es: seq<Entry>, i: nat, j: nat)
    requires Sorted(es) && i < j < |es|
    ensures Less(es[i], es[j])
    decreases j - i
  {
    SortedAt(es, i);
    if i + 1 < j {
      LessAcross(es, i + 1, j);
    }
  }

  /** Exact expiry, written out: the timers released are those due at the reading,
      or all if the clock has gone on for more than an hour since the last one, each
      once, by deadline and then address. */
  lemma ReleasedWritten(ts: TimerState, now: nat)
    requires Sorted(ts.entries) && Distinct(ts.entries)
    ensures var m, rs := AsMap(ts.entries), Released(ts, now);
            var all := now > ts.previous + 3_600_000;
            && (forall i :: 0 <= i < |rs| ==>
                  rs[i].id in m && m[rs[i].id] == rs[i] && (all || rs[i].next <= now))
            && (forall a :: a in m && (all || m[a].next <= now) ==> exists i :: 0 <= i < |rs| && rs[i] == m[a])
            && (forall i, j :: 0 <= i < j < |rs| ==>
                  rs[i].next < rs[j].next || (rs[i].next == rs[j].next && rs[i].id < rs[j].id))
  {
    var m, rs := AsMap(ts.entries), Released(ts, now);
    assert Rollover(ts, now) <==> now > ts.previous + 3_600_000;
    ReleaseOrdered(ts, now);
    hide Released, AsMap, Sorted, Distinct, Rollover, AfterRelease, Expire;
    forall i | 0 <= i < |rs| ensures rs[i].id in m && m[rs[i].id] == rs[i] && Due(rs[i], now, Rollover(ts, now)) {
      MapAt(rs, i);
      ExpireAt(ts, now, rs[i].id);
    }
    forall a | a in m && Due(m[a], now, Rollover(ts, now)) ensures exists i :: 0 <= i < |rs| && rs[i] == m[a] {
      ExpireAt(ts, now, a);
      var i := Position(rs, a);
    }
    forall i, j | 0 <= i < j < |rs| ensures Less(rs[i], rs[j]) {
      LessAcross(rs, i, j);
    }
  }

  /** And of those only the recurring ones stay, one period after the reading; the
      others are as they were. */
  lemma KeptWritten(ts: TimerState, now: nat, a: nat)
    requires Sorted(ts.entries) && Distinct(ts.entries)
    ensures var m, m' := AsMap(ts.entries), AsMap(Expire(ts, now).entries);
            var all := now > ts.previous + 3_600_000;
            && (a in m' <==> a in m && (all || m[a].next <= now ==> m[a].recurring))
            && (a in m' ==>
                  m'[a] == if all || m[a].next <= now then Entry(now + m[a].ms, a, m[a].ms, true, m[a].cb) else m[a])
            && Expire(ts, now).previous == (if ts.entries == [] then ts.previous else now)
            && Expire(ts, now).tickled == ts.tickled
  {
    ExpireAt(ts, now, a);
  }
}

/** The text the comment at src/address.cpp:64-74 asks for, and when the printer
    writes it: the comment wants the longest run of zero groups compressed, the
    first of equals, and no single zero group; the printer compresses the first
    run, whatever its length. */
module Ipv6Recommended {
  import opened Ipv6Text

  /** How many zero groups there are from `i` on. */
  function RunLength(g: seq<nat>, i: nat): nat
    requires i <= |g|
  {
    RunEnd(g, i) - i
  }

  /** From `i` on, where the longest run of zeros starts, the first of equals. */
  function Longest(g: seq<nat>, i: nat): (b: nat)
    requires i <= |g|
    ensures i <= b <= |g|
    ensures forall j :: i <= j < |g| ==> RunLength(g, j) <= RunLength(g, b)
    ensures forall j :: i <= j < b ==> RunLength(g, j) < RunLength(g, b)
    decreases |g| - i
  {
    if i == |g| then i
    else
      var b := Longest(g, i + 1);
      if RunLength(g, i) >= RunLength(g, b) then i else b
  }

  function Around(g: seq<nat>, k: nat): string
    requires k <= |g|
  {
    Joined(g[..k]) + "::" + Joined(g[RunEnd(g, k)..])
  }

  /** The recommended text. */
  function Recommended(g: seq<nat>): string {
    var b := Longest(g, 0);
    if RunLength(g, b) < 2 then Joined(g) else Around(g, b)
  }

  /** The first run of zeros is no single group, and none is longer. */
  predicate FirstRunBest(g: seq<nat>) {
    var k := FirstZero(g);
    k < |g| ==> RunLength(g, k) >= 2 && forall j :: 0 <= j < |g| ==> RunLength(g, j) <= RunLength(g, k)
  }

  /** Before the first zero there is no run. */
  lemma NoRunBefore(g: seq<nat>, j: nat)
    requires j < FirstZero(g)
    ensures RunLength(g, j) == 0
  {
  }

  /** Where the `::` is tells which run was compressed. */
  lemma GapShows(g: seq<nat>, k: nat, i: nat)
    requires k <= |g|
    ensures GapAt(Around(g, k), i) <==> i == |Joined(g[..k])|
  {
    hide Joined, RunEnd, GapAt;
    JoinedTidy(g[..k]);
    JoinedTidy(g[RunEnd(g, k)..]);
    GapOnlyBetween(Joined(g[..k]), Joined(g[RunEnd(g, k)..]), i);
  }

  lemma {:induction false} JoinedLonger(g: seq<nat>, k: nat, b: nat)
    requires k < b <= |g|
    ensures |Joined(g[..k])| < |Joined(g[..b])|
  {
    if b == 1 {
      assert g[..0] == [] && g[..1] == [g[0]];
    } else {
      assert g[..b][..b - 1] == g[..b - 1];
      if k < b - 1 {
        JoinedLonger(g, k, b - 1);
      }
    }
  }

  /** Compressing different runs gives different texts. */
  lemma AroundDiffers(g: seq<nat>, k: nat, b: nat)
    requires k < b <= |g|
    ensures Around(g, k) != Around(g, b)
  {
    hide Around, Joined, GapAt;
    JoinedLonger(g, k, b);
    GapShows(g, k, |Joined(g[..k])|);
    GapShows(g, b, |Joined(g[..k])|);
  }

  lemma AroundCompresses(g: seq<nat>, k: nat)
    requires k <= |g|
    ensures Around(g, k) != Joined(g)
  {
    hide Around, Joined;
    JoinedTidy(g);
    TidyNone(Joined(g));
    GapShows(g, k, |Joined(g[..k])|);
  }

  lemma BestIsLongest(g: seq<nat>)
    requires FirstZero(g) < |g|
    ensures FirstRunBest(g) <==> Longest(g, 0) == FirstZero(g) && RunLength(g, FirstZero(g)) >= 2
    ensures FirstZero(g) <= Longest(g, 0) && RunLength(g, FirstZero(g)) <= RunLength(g, Longest(g, 0))
  {
    hide FirstZero, RunEnd, RunLength;
    LongestAfter(g);
    var k, b := FirstZero(g), Longest(g, 0);
    assert k < b ==> b < |g| || RunLength(g, b) == 0 by { EndRun(g); }
  }

  lemma EndRun(g: seq<nat>)
    ensures RunLength(g, |g|) == 0
  {
  }

  /** The printer writes the recommended text exactly when there is no zero group,
      or the first run of zeros has at least two groups and no other is longer. */
  lemma RecommendedIff(g: seq<nat>)
    requires Address(g)
    ensures Compressed(g) == Recommended(g) <==> FirstRunBest(g)
  {
    var k, b := FirstZero(g), Longest(g, 0);
    if k == |g| {
      NoLongRun(g, b);
    } else {
      PrintsAround(g);
      BestIsLongest(g);
      hide Joined, Around, FirstZero, RunEnd, Longest, FirstRunBest, RunLength, Compressed;
      if RunLength(g, b) < 2 {
        AroundCompresses(g, k);
      } else if k < b {
        AroundDiffers(g, k, b);
      }
    }
  }

  lemma PrintsAround(g: seq<nat>)
    requires FirstZero(g) < |g|
    ensures Compressed(g) == Around(g, FirstZero(g))
  {
  }

  lemma NoLongRun(g: seq<nat>, b: nat)
    requires FirstZero(g) == |g| && b <= |g|
    ensures RunLength(g, b) == 0
  {
    if b < |g| {
      NoRunBefore(g, b);
    }
  }

  /** The longest run does not start before the first zero. */
  lemma LongestAfter(g: seq<nat>)
    requires FirstZero(g) < |g|
    ensures FirstZero(g) <= Longest(g, 0) && RunLength(g, FirstZero(g)) > 0
  {
    var k, b := FirstZero(g), Longest(g, 0);
    assert RunEnd(g, k) > k;
    assert RunLength(g, k) <= RunLength(g, b);
    if b < k {
      NoRunBefore(g, b);
    }
  }

  /** A longer run after the first is passed over, and a single zero compressed. */
  lemma ShorterRunCompressed()
    ensures !FirstRunBest([1, 0, 2, 0, 0, 0, 0, 3])
    ensures Compressed([1, 0, 2, 0, 0, 0, 0, 3]) != Recommended([1, 0, 2, 0, 0, 0, 0, 3])
  {
    var g := [1, 0, 2, 0, 0, 0, 0, 3];
    assert FirstZero(g[1..]) == 0;
    assert FirstZero(g) == 1;
    assert RunEnd(g, 2) == 2 && RunEnd(g, 1) == 2;
    RecommendedIff(g);
  }
}

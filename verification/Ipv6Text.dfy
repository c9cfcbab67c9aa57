/** The text of an IPv6 address: what IPv6Address::insert writes
    (src/address.cpp:462-496), read back by the rules of section 2.2 of RFC 4291. */
module Ipv6Text {
  import opened Types

  // ------------------------------------------------------------------- numbers

  function DigitChar(d: nat): char
    requires d < 16
  {
    if d < 10 then '0' + d as char else 'a' + (d - 10) as char
  }

  /** A number as a stream prints it: no leading zeros, lower case. */
  function Numeral(v: nat, base: nat): (t: string)
    requires base == 10 || base == 16
    ensures t != []
  {
    if v < base then [DigitChar(v)] else Numeral(v / base, base) + [DigitChar(v % base)]
  }

  function Hex(v: nat): string { Numeral(v, 16) }
  function Dec(v: nat): string { Numeral(v, 10) }

  /** The value of a digit of either case. */
  function DigitOf(c: char): Option<nat> {
    if '0' <= c <= '9' then Some((c - '0') as nat)
    else if 'a' <= c <= 'f' then Some((c - 'a') as nat + 10)
    else if 'A' <= c <= 'F' then Some((c - 'A') as nat + 10)
    else None
  }

  function NumberOf(t: string, base: nat): Option<nat> {
    if t == "" then None
    else
      var d := DigitOf(t[|t| - 1]);
      if d.None? || d.value >= base then None
      else if |t| == 1 then d
      else
        var high := NumberOf(t[..|t| - 1], base);
        if high.None? then None else Some(high.value * base + d.value)
  }

  lemma DigitValue(d: nat)
    requires d < 16
    ensures DigitOf(DigitChar(d)) == Some(d)
  {
  }

  lemma NumberStep(t: string, c: char, base: nat)
    ensures NumberOf(t + [c], base) ==
            var d := DigitOf(c);
            if d.None? || d.value >= base then None
            else if t == "" then d
            else if NumberOf(t, base).None? then None
            else Some(NumberOf(t, base).value * base + d.value)
  {
    assert (t + [c])[..|t|] == t;
  }

  lemma DivMod(v: nat, base: nat)
    requires base == 10 || base == 16
    ensures v / base * base + v % base == v && (v >= base ==> v / base < v)
  {
    if base == 10 {
      assert v / 10 * 10 + v % 10 == v;
    } else {
      assert v / 16 * 16 + v % 16 == v;
    }
  }

  lemma NumberOne(c: char, base: nat)
    requires DigitOf(c).Some? && DigitOf(c).value < base
    ensures NumberOf([c], base) == DigitOf(c)
  {
  }

  /** What is printed reads as the number printed. */
  lemma {:induction false} NumeralValue(v: nat, base: nat)
    requires base == 10 || base == 16
    ensures NumberOf(Numeral(v, base), base) == Some(v)
  {
    hide NumberOf, DigitOf, DigitChar;
    if v < base {
      DigitValue(v);
      NumberOne(DigitChar(v), base);
    } else {
      DigitValue(v % base);
      DivMod(v, base);
      NumeralValue(v / base, base);
      NumberStep(Numeral(v / base, base), DigitChar(v % base), base);
    }
  }

  /** Only digits are printed. */
  lemma {:induction false} NumeralDigits(v: nat, base: nat)
    requires base == 10 || base == 16
    ensures forall i :: 0 <= i < |Numeral(v, base)| ==> DigitOf(Numeral(v, base)[i]).Some?
  {
    hide DigitOf, DigitChar;
    if v < base {
      DigitValue(v);
    } else {
      DigitValue(v % base);
      NumeralDigits(v / base, base);
    }
  }

  /** Digits are lower case, and a number does not begin with a needless zero. */
  lemma {:induction false} NumeralShape(v: nat, base: nat)
    requires base == 10 || base == 16
    ensures var t := Numeral(v, base);
            && (forall i :: 0 <= i < |t| ==> '0' <= t[i] <= '9' || 'a' <= t[i] <= 'f')
            && (t[0] == '0' ==> t == "0")
  {
    if v >= base {
      DivMod(v, base);
      NumeralShape(v / base, base);
      NumeralNotZero(v / base, base);
    }
  }

  lemma {:induction false} NumeralNotZero(v: nat, base: nat)
    requires (base == 10 || base == 16) && v > 0
    ensures Numeral(v, base)[0] != '0'
  {
    if v >= base {
      DivMod(v, base);
      NumeralNotZero(v / base, base);
    }
  }

  lemma HexLength(v: nat)
    requires v < 0x1_0000
    ensures 1 <= |Hex(v)| <= 4
  {
    assert v / 16 / 16 / 16 < 16;
    assert |Numeral(v / 16 / 16 / 16, 16)| == 1;
    assert |Numeral(v / 16 / 16, 16)| <= 2;
    assert |Numeral(v / 16, 16)| <= 3;
  }

  // ------------------------------------------------------- reading, by RFC 4291

  /** A group is one to four hexadecimal digits. */
  function Group(t: string): Option<nat> {
    if 1 <= |t| <= 4 then NumberOf(t, 16) else None
  }

  /** The pieces between colons. */
  function Fields(t: string): (fs: seq<string>)
    ensures fs != []
  {
    if t == "" then [""]
    else
      var fs := Fields(t[..|t| - 1]);
      var c := t[|t| - 1];
      if c == ':' then fs + [""] else fs[..|fs| - 1] + [fs[|fs| - 1] + [c]]
  }

  function ReadAll(fs: seq<string>): Option<seq<nat>> {
    if fs == [] then Some([])
    else
      var gs, g := ReadAll(fs[..|fs| - 1]), Group(fs[|fs| - 1]);
      if gs.None? || g.None? then None else Some(gs.value + [g.value])
  }

  function Groups(t: string): Option<seq<nat>> {
    if t == "" then Some([]) else ReadAll(Fields(t))
  }

  predicate GapAt(t: string, i: nat) {
    i + 1 < |t| && t[i] == ':' && t[i + 1] == ':'
  }

  /** Where the first `::` is, or the end. */
  function FindGap(t: string, i: nat): (k: nat)
    requires i <= |t|
    ensures i <= k <= |t| && (k < |t| ==> GapAt(t, k))
    ensures forall j :: i <= j < k ==> !GapAt(t, j)
    decreases |t| - i
  {
    if i == |t| then i else if GapAt(t, i) then i else FindGap(t, i + 1)
  }

  function Zeros(n: nat): seq<nat> {
    seq(n, _ => 0)
  }

  /** Eight groups, or fewer around one `::` that stands for the missing ones, of
      which there is at least one. */
  function Expand(t: string): Option<seq<nat>> {
    var k := FindGap(t, 0);
    if k == |t| then
      var gs := Groups(t);
      if gs.Some? && |gs.value| == 8 then gs else None
    else
      var l, r := Groups(t[..k]), Groups(t[k + 2..]);
      if l.Some? && r.Some? && |l.value| + |r.value| <= 7
      then Some(l.value + Zeros(8 - |l.value| - |r.value|) + r.value)
      else None
  }

  // ------------------------------------------------------------------- printing

  predicate Address(g: seq<nat>) {
    |g| == 8 && forall i :: 0 <= i < 8 ==> g[i] < 0x1_0000
  }

  /** Groups with colons between them. */
  function Joined(g: seq<nat>): string {
    if |g| == 0 then "" else if |g| == 1 then Hex(g[0])
    else Joined(g[..|g| - 1]) + ":" + Hex(g[|g| - 1])
  }

  function FirstZero(g: seq<nat>): (k: nat)
    ensures k <= |g| && (k < |g| ==> g[k] == 0)
    ensures forall i :: 0 <= i < k ==> g[i] != 0
  {
    if g == [] || g[0] == 0 then 0 else 1 + FirstZero(g[1..])
  }

  function RunEnd(g: seq<nat>, k: nat): (m: nat)
    requires k <= |g|
    ensures k <= m <= |g| && (m < |g| ==> g[m] != 0)
    ensures forall i :: k <= i < m ==> g[i] == 0
    decreases |g| - k
  {
    if k == |g| || g[k] != 0 then k else RunEnd(g, k + 1)
  }

  /** The first run of zero groups is written `::`. */
  function Compressed(g: seq<nat>): string {
    var k := FirstZero(g);
    if k == |g| then Joined(g) else Joined(g[..k]) + "::" + Joined(g[RunEnd(g, k)..])
  }

  /** A 16-bit load on a little-endian machine, and byteswapOnLittleEndian. */
  function Load(bytes: seq<Byte>, i: nat): nat
    requires 2 * i + 1 < |bytes|
  {
    bytes[2 * i] as int + 256 * (bytes[2 * i + 1] as int)
  }

  function Swap16(v: nat): nat
    requires v < 0x1_0000
  {
    v % 256 * 256 + v / 256
  }

  /** The eight groups of an address, most significant byte first. */
  function GroupsOf(bytes: seq<Byte>): (g: seq<nat>)
    requires |bytes| == 16
    ensures Address(g)
  {
    seq(8, i requires 0 <= i < 8 => 256 * (bytes[2 * i] as int) + bytes[2 * i + 1] as int)
  }

  lemma LoadSwap(bytes: seq<Byte>, i: nat)
    requires |bytes| == 16 && i < 8
    ensures Load(bytes, i) < 0x1_0000 && Swap16(Load(bytes, i)) == GroupsOf(bytes)[i]
    ensures Load(bytes, i) == 0 <==> GroupsOf(bytes)[i] == 0
  {
  }

  lemma JoinedAppend(g: seq<nat>, j: nat, i: nat)
    requires j <= i < |g|
    ensures Joined(g[j..i + 1]) == (if j == i then "" else Joined(g[j..i]) + ":") + Hex(g[i])
  {
    assert g[j..i + 1][..i - j] == g[j..i];
  }

  /** What has been written before group `i`. */
  function Written(g: seq<nat>, i: nat): string
    requires i <= |g|
  {
    var k := FirstZero(g);
    if i <= k then Joined(g[..i])
    else
      var m := RunEnd(g, k);
      if i <= m then Joined(g[..k]) else Joined(g[..k]) + "::" + Joined(g[m..i])
  }

  /** What goes between the groups written so far and group `i`. */
  function Separator(gap: bool, i: nat): string {
    if gap then "::" else if i > 0 then ":" else ""
  }

  /** What has been written with group `i` added. */
  function Extended(g: seq<nat>, i: nat, gap: bool): string
    requires i < |g|
  {
    Written(g, i) + Separator(gap, i) + Hex(g[i])
  }

  lemma WrittenBefore(g: seq<nat>, i: nat)
    requires i < |g| && i < FirstZero(g)
    ensures Written(g, i + 1) == Extended(g, i, false)
  {
    hide Joined, Hex, FirstZero, RunEnd;
    assert g[0..i] == g[..i] && g[0..i + 1] == g[..i + 1];
    if i == 0 {
      JoinedNone(g[..i]);
    }
    JoinedAppend(g, 0, i);
  }

  lemma JoinedNone(g: seq<nat>)
    ensures g == [] ==> Joined(g) == ""
  {
  }

  lemma WrittenAtRunEnd(g: seq<nat>, k: nat, m: nat)
    requires k == FirstZero(g) && k < |g| && m == RunEnd(g, k) && m < |g|
    ensures Written(g, m + 1) == Extended(g, m, true)
  {
    hide Joined, Hex, FirstZero, RunEnd;
    JoinedAppend(g, m, m);
    assert "" + Hex(g[m]) == Hex(g[m]);
  }

  lemma WrittenAfter(g: seq<nat>, k: nat, m: nat, i: nat)
    requires k == FirstZero(g) && k < |g| && m == RunEnd(g, k) && m < i < |g|
    ensures Written(g, i + 1) == Extended(g, i, false)
  {
    hide Joined, Hex, FirstZero, RunEnd;
    JoinedAppend(g, m, i);
    var a, b := Joined(g[..k]) + "::", Joined(g[m..i]);
    Associate(a, b + ":", Hex(g[i]));
    Associate(a, b, ":");
  }

  lemma WrittenInside(g: seq<nat>, k: nat, m: nat, i: nat)
    requires k == FirstZero(g) && k < |g| && m == RunEnd(g, k) && k <= i < m
    ensures Written(g, i + 1) == Written(g, i)
  {
    hide Joined, Hex, FirstZero, RunEnd;
  }

  lemma WrittenStep(g: seq<nat>, i: nat, usedZero: bool)
    requires i < |g| && usedZero == (FirstZero(g) < |g| && RunEnd(g, FirstZero(g)) < i)
    ensures var gap := i > 0 && g[i - 1] == 0 && !usedZero;
            if g[i] == 0 && !usedZero then
              Written(g, i + 1) == Written(g, i)
              && !(FirstZero(g) < |g| && RunEnd(g, FirstZero(g)) < i + 1)
            else
              Written(g, i + 1) == Extended(g, i, gap)
              && (usedZero || gap <==> FirstZero(g) < |g| && RunEnd(g, FirstZero(g)) < i + 1)
  {
    hide Joined, Hex, Written, FirstZero, RunEnd, Extended;
    var k := FirstZero(g);
    if i < k {
      WrittenBefore(g, i);
    } else {
      var m := RunEnd(g, k);
      if i > m {
        WrittenAfter(g, k, m, i);
      } else if i == m {
        WrittenAtRunEnd(g, k, m);
      } else {
        WrittenInside(g, k, m, i);
      }
    }
  }

  method Insert(bytes: seq<Byte>, port: nat) returns (os: string)
    requires |bytes| == 16
    ensures os == "[" + Compressed(GroupsOf(bytes)) + "]:" + Dec(port)
  {
    hide Hex, Dec, Joined, GroupsOf;
    ghost var g := GroupsOf(bytes);
    os := "[";
    JoinedNone(g[..0]);
    var usedZero := false;
    var i := 0;
    while i < 8
      invariant 0 <= i <= 8
      invariant os == "[" + Written(g, i)
      invariant usedZero == (FirstZero(g) < 8 && RunEnd(g, FirstZero(g)) < i)
    {
      WrittenStep(g, i, usedZero);
      LoadSwap(bytes, i);
      if Load(bytes, i) == 0 && !usedZero {
        i := i + 1;
        continue;
      }
      if i > 0 {
        LoadSwap(bytes, i - 1);
      }
      ghost var gap, before := i > 0 && g[i - 1] == 0 && !usedZero, os;
      if i > 0 && Load(bytes, i - 1) == 0 && !usedZero {
        os := os + ":";
        usedZero := true;
      }
      if i > 0 {
        os := os + ":";
      }
      assert os == before + Separator(gap, i);
      os := os + Hex(Swap16(Load(bytes, i)));
      Associate("[", Written(g, i), Separator(gap, i));
      Associate("[", Written(g, i) + Separator(gap, i), Hex(g[i]));
      i := i + 1;
    }
    LoadSwap(bytes, 7);
    if !usedZero && Load(bytes, 7) == 0 {
      os := os + "::";
    }
    assert g[..8] == g && g[8..] == [];
    os := os + "]:" + Dec(port);
  }

  // ------------------------------------------------------------ what was printed

  /** No colon in it. */
  predicate Plain(t: string) {
    forall i :: 0 <= i < |t| ==> t[i] != ':'
  }

  lemma HexPlain(v: nat)
    ensures Plain(Hex(v)) && NumberOf(Hex(v), 16) == Some(v)
  {
    NumeralValue(v, 16);
    NumeralDigits(v, 16);
    assert DigitOf(':').None?;
  }

  /** Groups with single colons strictly between them. */
  predicate Tidy(t: string) {
    && (t != "" ==> t[0] != ':' && t[|t| - 1] != ':')
    && forall i :: 0 <= i < |t| ==> !GapAt(t, i)
  }

  lemma TidyAppend(t: string, w: string)
    requires Tidy(t) && t != "" && Plain(w) && w != ""
    ensures Tidy(t + ":" + w)
  {
    var u := t + ":" + w;
    forall i | 0 <= i < |u| ensures !GapAt(u, i) {
      if i + 1 < |t| {
        assert !GapAt(t, i);
      } else if i + 1 < |u| {
        assert i + 1 == |t| ==> u[i] == t[i];
        assert i + 1 > |t| ==> u[i + 1] == w[i - |t|];
      }
    }
  }

  lemma {:induction false} JoinedTidy(g: seq<nat>)
    ensures Tidy(Joined(g)) && (g != [] ==> Joined(g) != "")
  {
    if |g| == 1 {
      HexPlain(g[0]);
    } else if |g| > 1 {
      JoinedTidy(g[..|g| - 1]);
      HexPlain(g[|g| - 1]);
      TidyAppend(Joined(g[..|g| - 1]), Hex(g[|g| - 1]));
    }
  }

  /** In two tidy texts around a `::` that is the only one. */
  lemma GapOnlyBetween(l: string, r: string, i: nat)
    requires Tidy(l) && Tidy(r)
    ensures GapAt(l + "::" + r, i) <==> i == |l|
  {
    var t := l + "::" + r;
    if i + 1 < |l| {
      assert !GapAt(l, i);
    } else if i > |l| + 1 && i + 1 < |t| {
      assert !GapAt(r, i - |l| - 2);
      assert t[i] == r[i - |l| - 2] && t[i + 1] == r[i - |l| - 1];
    }
  }

  lemma FieldsPut(t: string, c: char)
    ensures var fs := Fields(t);
            Fields(t + [c]) == if c == ':' then fs + [""] else fs[..|fs| - 1] + [fs[|fs| - 1] + [c]]
  {
    assert (t + [c])[..|t|] == t;
  }

  lemma {:induction false} FieldsAppend(t: string, w: string)
    requires Plain(w)
    ensures var fs := Fields(t);
            Fields(t + w) == fs[..|fs| - 1] + [fs[|fs| - 1] + w]
    decreases |w|
  {
    hide Fields;
    var fs := Fields(t);
    if w == "" {
      assert t + w == t && fs[|fs| - 1] + w == fs[|fs| - 1];
    } else {
      var v, c := w[..|w| - 1], w[|w| - 1];
      FieldsAppend(t, v);
      FieldsPut(t + v, c);
      assert t + w == t + v + [c];
      assert fs[|fs| - 1] + v + [c] == fs[|fs| - 1] + w;
    }
  }

  lemma FieldsSnoc(t: string, w: string)
    requires Plain(w)
    ensures Fields(t + ":" + w) == Fields(t) + [w]
  {
    hide Fields;
    FieldsPut(t, ':');
    FieldsAppend(t + ":", w);
    assert "" + w == w;
  }

  lemma FieldsOne(w: string)
    requires Plain(w)
    ensures Fields(w) == [w]
  {
    FieldsAppend("", w);
    assert "" + w == w;
  }

  lemma JoinedSnoc(g: seq<nat>)
    requires |g| > 1
    ensures Joined(g) == Joined(g[..|g| - 1]) + ":" + Hex(g[|g| - 1])
  {
  }

  lemma FieldsJoined(g: seq<nat>)
    requires |g| > 1
    ensures Fields(Joined(g)) == Fields(Joined(g[..|g| - 1])) + [Hex(g[|g| - 1])]
  {
    hide Fields, Joined, Hex;
    JoinedSnoc(g);
    HexPlain(g[|g| - 1]);
    FieldsSnoc(Joined(g[..|g| - 1]), Hex(g[|g| - 1]));
  }

  lemma HexGroup(v: nat)
    requires v < 0x1_0000
    ensures Group(Hex(v)) == Some(v)
  {
    HexPlain(v);
    HexLength(v);
  }

  lemma ReadOne(v: nat)
    requires v < 0x1_0000
    ensures ReadAll(Fields(Hex(v))) == Some([v])
  {
    HexPlain(v);
    HexGroup(v);
    FieldsOne(Hex(v));
    hide Fields, Hex, Group;
    ReadSnoc([], Hex(v));
    assert [] + [Hex(v)] == [Hex(v)] && [] + [v] == [v];
  }

  lemma ReadJoinedOne(g: seq<nat>)
    requires |g| == 1 && g[0] < 0x1_0000
    ensures ReadAll(Fields(Joined(g))) == Some(g)
  {
    assert Joined(g) == Hex(g[0]);
    hide Fields, Joined, Hex, ReadAll;
    ReadOne(g[0]);
    assert [g[0]] == g;
  }

  /** Reading what was joined gives the groups back. */
  lemma {:induction false} ReadJoined(g: seq<nat>)
    requires g != [] && forall i :: 0 <= i < |g| ==> g[i] < 0x1_0000
    ensures ReadAll(Fields(Joined(g))) == Some(g)
  {
    hide Fields, Joined, Hex, ReadAll, Group;
    if |g| == 1 {
      ReadJoinedOne(g);
    } else {
      var init, last := g[..|g| - 1], g[|g| - 1];
      ReadJoined(init);
      FieldsJoined(g);
      HexGroup(last);
      ReadSnoc(Fields(Joined(init)), Hex(last));
      assert g == init + [last];
    }
  }

  lemma ReadSnoc(fs: seq<string>, f: string)
    ensures ReadAll(fs + [f]) ==
            if ReadAll(fs).None? || Group(f).None? then None else Some(ReadAll(fs).value + [Group(f).value])
  {
    assert (fs + [f])[..|fs|] == fs;
  }

  lemma ReadGroups(g: seq<nat>)
    requires forall i :: 0 <= i < |g| ==> g[i] < 0x1_0000
    ensures Groups(Joined(g)) == Some(g)
  {
    JoinedTidy(g);
    if g != [] {
      ReadJoined(g);
    }
  }

  lemma FindsGap(l: string, r: string)
    requires Tidy(l) && Tidy(r)
    ensures FindGap(l + "::" + r, 0) == |l|
  {
    var t := l + "::" + r;
    GapOnlyBetween(l, r, |l|);
    GapOnlyBetween(l, r, FindGap(t, 0));
  }

  lemma GapParts(l: string, r: string)
    ensures var t := l + "::" + r;
            |t| == |l| + 2 + |r| && t[..|l|] == l && t[|l| + 2..] == r
  {
  }

  lemma ExpandAt(t: string, k: nat, a: seq<nat>, b: seq<nat>)
    requires k + 2 <= |t| && FindGap(t, 0) == k && |a| + |b| <= 7
    requires Groups(t[..k]) == Some(a) && Groups(t[k + 2..]) == Some(b)
    ensures Expand(t) == Some(a + Zeros(8 - |a| - |b|) + b)
  {
    hide Groups, Zeros, FindGap;
  }

  /** Two runs of groups around a `::` are read back with zeros between. */
  lemma ExpandAround(a: seq<nat>, b: seq<nat>)
    requires |a| + |b| <= 7
    requires forall i :: 0 <= i < |a| ==> a[i] < 0x1_0000
    requires forall i :: 0 <= i < |b| ==> b[i] < 0x1_0000
    ensures Expand(Joined(a) + "::" + Joined(b)) == Some(a + Zeros(8 - |a| - |b|) + b)
  {
    hide Joined, Groups, Zeros, FindGap, Expand, Tidy;
    var l, r := Joined(a), Joined(b);
    JoinedTidy(a);
    JoinedTidy(b);
    FindsGap(l, r);
    ReadGroups(a);
    ReadGroups(b);
    GapParts(l, r);
    ExpandAt(l + "::" + r, |l|, a, b);
  }

  lemma ExpandWhole(g: seq<nat>)
    requires Address(g)
    ensures Expand(Joined(g)) == Some(g)
  {
    hide Joined, Groups;
    JoinedTidy(g);
    ReadGroups(g);
    assert FindGap(Joined(g), 0) == |Joined(g)|;
  }

  /** Every address is read back from its text: leading, inner, trailing, whole or
      no run of zeros alike. */
  lemma RoundTrip(g: seq<nat>)
    requires Address(g)
    ensures Expand(Compressed(g)) == Some(g)
  {
    hide Joined, Expand;
    var k := FirstZero(g);
    if k == 8 {
      ExpandWhole(g);
    } else {
      var m := RunEnd(g, k);
      assert m > k;
      ExpandAround(g[..k], g[m..]);
      assert g == g[..k] + Zeros(m - k) + g[m..];
    }
  }

  /** The text has a `::` exactly when some group is zero, and then only one. */
  lemma OneGap(g: seq<nat>, i: nat, j: nat)
    requires Address(g)
    ensures GapAt(Compressed(g), i) && GapAt(Compressed(g), j) ==> i == j
    ensures (exists k :: GapAt(Compressed(g), k)) <==> 0 in g
  {
    hide Joined, GapAt;
    var k := FirstZero(g);
    if k == 8 {
      JoinedTidy(g);
      TidyNone(Joined(g));
    } else {
      var m := RunEnd(g, k);
      JoinedTidy(g[..k]);
      JoinedTidy(g[m..]);
      var l, r := Joined(g[..k]), Joined(g[m..]);
      GapOnlyBetween(l, r, |l|);
      GapOnlyBetween(l, r, i);
      GapOnlyBetween(l, r, j);
      assert GapAt(Compressed(g), |l|) && g[k] == 0;
    }
  }

  lemma TidyNone(t: string)
    requires Tidy(t)
    ensures forall i: nat :: !GapAt(t, i)
  {
    forall i: nat ensures !GapAt(t, i) {
      if i < |t| {
        assert !GapAt(t, i);
      }
    }
  }

  /** Different addresses have different texts. */
  lemma DifferentTexts(a: seq<Byte>, b: seq<Byte>)
    requires |a| == 16 && |b| == 16 && Compressed(GroupsOf(a)) == Compressed(GroupsOf(b))
    ensures a == b
  {
    hide Compressed, Expand;
    RoundTrip(GroupsOf(a));
    RoundTrip(GroupsOf(b));
    forall i | 0 <= i < 8 ensures a[2 * i] == b[2 * i] && a[2 * i + 1] == b[2 * i + 1] {
      assert GroupsOf(a)[i] == GroupsOf(b)[i];
    }
    forall i | 0 <= i < 16 ensures a[i] == b[i] {
      assert i == 2 * (i / 2) || i == 2 * (i / 2) + 1;
    }
  }
}

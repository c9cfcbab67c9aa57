/** The log pattern parser, LogFormatter::init (src/qlc_log.cpp:421-545): a pattern
    is split into literal text and items `%key` or `%key{fmt}`. */
module LogPattern {
  import opened Types

  /** A parsed triple; `item` is false for literal text. */
  datatype Piece = Piece(text: string, fmt: string, item: bool)

  /** What the formatter runs. */
  datatype FormatItem = Literal(text: string) | Field(key: string, fmt: string)

  const KEYS: set<string> := {"m", "p", "r", "c", "t", "n", "d", "f", "l", "T", "F", "N"}

  predicate IsAlpha(c: char) {
    'a' <= c <= 'z' || 'A' <= c <= 'Z'
  }

  /** A character the key of an item goes on over. */
  predicate KeyChar(c: char) {
    IsAlpha(c) || c == '}'
  }

  // --------------------------------------------------------------- what is parsed

  function SkipKey(p: string, n: nat): (k: nat)
    requires n <= |p|
    ensures n <= k <= |p| && (k < |p| ==> !KeyChar(p[k]))
    ensures forall j :: n <= j < k ==> KeyChar(p[j])
    decreases |p| - n
  {
    if n == |p| || !KeyChar(p[n]) then n else SkipKey(p, n + 1)
  }

  function FindClose(p: string, n: nat): (k: nat)
    requires n <= |p|
    ensures n <= k <= |p| && (k < |p| ==> p[k] == '}')
    ensures forall j :: n <= j < k ==> p[j] != '}'
    decreases |p| - n
  {
    if n == |p| || p[n] == '}' then n else FindClose(p, n + 1)
  }

  datatype Directive = Item(key: string, fmt: string, braced: bool, next: nat) | Unclosed

  /** The item whose `%` is at `i`. */
  function DirectiveAt(p: string, i: nat): (d: Directive)
    requires i < |p|
    ensures d.Item? ==> i < d.next <= |p|
  {
    var k := SkipKey(p, i + 1);
    if k == |p| || p[k] != '{' then Item(p[i + 1..k], "", false, k)
    else
      var q := FindClose(p, k + 1);
      if q == |p| then Unclosed else Item(p[i + 1..k], p[k + 1..q], true, q + 1)
  }

  predicate Escaped(p: string, i: nat) {
    i + 1 < |p| && p[i] == '%' && p[i + 1] == '%'
  }

  datatype Parsed = Parsed(pieces: seq<Piece>, error: bool) {
    function After(ps: seq<Piece>): Parsed {
      Parsed(ps + pieces, error)
    }
  }

  /** The pending literal text, if any. */
  function Flush(nstr: string): seq<Piece> {
    if nstr == "" then [] else [Piece(nstr, "", false)]
  }

  const ERROR_PIECE := Piece("pattern error", "", false)

  /** What the scan from `i` on adds, with `nstr` pending. */
  function Scanned(p: string, i: nat, nstr: string): Parsed
    requires i <= |p|
    decreases |p| - i
  {
    if i == |p| then Parsed(Flush(nstr), false)
    else if p[i] != '%' then Scanned(p, i + 1, nstr + [p[i]])
    else if Escaped(p, i) then Scanned(p, i + 2, nstr + "%")
    else
      match DirectiveAt(p, i)
      case Item(key, fmt, _, next) => Scanned(p, next, "").After(Flush(nstr) + [Piece(key, fmt, true)])
      case Unclosed => Parsed([ERROR_PIECE] + Scanned(p, i + 1, nstr).pieces, true)
  }

  function ItemOf(t: Piece): FormatItem {
    if !t.item then Literal(t.text)
    else if t.text in KEYS then Field(t.text, t.fmt)
    else Literal("error format" + " " + t.text)
  }

  function ItemsOf(ps: seq<Piece>): seq<FormatItem> {
    seq(|ps|, k requires 0 <= k < |ps| => ItemOf(ps[k]))
  }

  predicate AllKnown(ps: seq<Piece>) {
    forall k :: 0 <= k < |ps| && ps[k].item ==> ps[k].text in KEYS
  }

  // ------------------------------------------------------------------ the program

  /** The inner loop: one item, from the `%` at `i`.  `status` is 1 while a brace
      is open. */
  method ScanDirective(pattern: string, i: nat) returns (str: string, fmt: string, status: nat, n: nat)
    requires i < |pattern|
    ensures var d := DirectiveAt(pattern, i);
            if d.Item? then status == 0 && str == d.key && fmt == d.fmt && n == d.next
            else status == 1 && fmt == ""
  {
    status, n, str, fmt := 0, i + 1, "", "";
    var begin := 0;
    ghost var k := SkipKey(pattern, i + 1);
    ghost var key, rest := pattern[i + 1..k], pattern[i + 1..];
    assert k == |pattern| ==> key == rest;
    assert n == |pattern| ==> rest == "";
    while n < |pattern|
      invariant i + 1 <= n <= |pattern| && fmt == ""
      invariant status == 0 ==> n <= k && SkipKey(pattern, n) == k
      invariant status == 0 ==> str == if n == |pattern| then rest else ""
      invariant status == 1 ==> k < n && pattern[k] == '{' && begin == k
      invariant status == 1 ==> FindClose(pattern, n) == FindClose(pattern, k + 1)
      invariant status == 1 ==> str == key || (key == "" && n == |pattern|)
      invariant status == 0 || status == 1
      decreases |pattern| - n
    {
      var c := pattern[n];
      if status == 0 && !IsAlpha(c) && c != '{' && c != '}' {
        str := pattern[i + 1..n];
        break;
      }
      if status == 0 {
        if c == '{' {
          str := pattern[i + 1..n];
          status := 1;
          begin := n;
          n := n + 1;
          continue;
        }
      } else if status == 1 {
        if c == '}' {
          fmt := pattern[begin + 1..n];
          status := 0;
          n := n + 1;
          break;
        }
      }
      n := n + 1;
      if n == |pattern| {
        if str == "" {
          str := pattern[i + 1..];
        }
      }
    }
  }

  /** One step of the scan. */
  lemma ScannedStep(p: string, i: nat, nstr: string)
    requires i < |p|
    ensures p[i] != '%' ==> Scanned(p, i, nstr) == Scanned(p, i + 1, nstr + [p[i]])
    ensures Escaped(p, i) ==> Scanned(p, i, nstr) == Scanned(p, i + 2, nstr + "%")
    ensures p[i] == '%' && !Escaped(p, i) ==>
              match DirectiveAt(p, i)
              case Item(key, fmt, _, next) =>
                && Scanned(p, i, nstr).error == Scanned(p, next, "").error
                && Scanned(p, i, nstr).pieces == Flush(nstr) + [Piece(key, fmt, true)] + Scanned(p, next, "").pieces
              case Unclosed =>
                && Scanned(p, i, nstr).error
                && Scanned(p, i, nstr).pieces == [Piece("pattern error", "", false)] + Scanned(p, i + 1, nstr).pieces
  {
    hide DirectiveAt, Flush;
  }

  lemma ScannedEnd(p: string, nstr: string)
    ensures Scanned(p, |p|, nstr) == Parsed(Flush(nstr), false)
  {
  }

  /** What was found so far and what the rest of the scan adds make up the whole. */
  predicate Completes(vec: seq<Piece>, error: bool, rest: Parsed, whole: Parsed) {
    vec + rest.pieces == whole.pieces && (error || rest.error <==> whole.error)
  }

  lemma CompletesItem(vec: seq<Piece>, error: bool, nstr: string, t: Piece, rest: Parsed, next: Parsed, whole: Parsed)
    requires Completes(vec, error, rest, whole)
    requires rest.pieces == Flush(nstr) + [t] + next.pieces && rest.error == next.error
    ensures Completes((if nstr == "" then vec else vec + [Piece(nstr, "", false)]) + [t], error, next, whole)
  {
  }

  lemma CompletesError(vec: seq<Piece>, error: bool, rest: Parsed, next: Parsed, whole: Parsed)
    requires Completes(vec, error, rest, whole)
    requires rest.pieces == [ERROR_PIECE] + next.pieces && rest.error
    ensures Completes(vec + [ERROR_PIECE], true, next, whole)
  {
  }

  lemma CompletesEnd(vec: seq<Piece>, error: bool, nstr: string, whole: Parsed)
    requires Completes(vec, error, Parsed(Flush(nstr), false), whole)
    ensures (if nstr == "" then vec else vec + [Piece(nstr, "", false)]) == whole.pieces && error == whole.error
  {
  }

  /** The keys the formatter knows. */
  predicate Known(key: string) {
    || key == "m" || key == "p" || key == "r" || key == "c" || key == "t" || key == "n"
    || key == "d" || key == "f" || key == "l" || key == "T" || key == "F" || key == "N"
  }

  /** What the formatter makes of a piece: text is itself, an item has its key and its
      format, and an item of unknown key is replaced by a message. */
  predicate Makes(t: Piece, x: FormatItem) {
    if !t.item then x == Literal(t.text)
    else if Known(t.text) then x == Field(t.text, t.fmt)
    else x == Literal("error format " + t.text)
  }

  lemma ItemsWritten(ps: seq<Piece>)
    ensures |ItemsOf(ps)| == |ps| && forall k :: 0 <= k < |ps| ==> Makes(ps[k], ItemsOf(ps)[k])
    ensures AllKnown(ps) <==> forall k :: 0 <= k < |ps| && ps[k].item ==> Known(ps[k].text)
  {
    assert "error format" + " " == "error format ";
    forall k | 0 <= k < |ps| ensures Makes(ps[k], ItemOf(ps[k])) && (Known(ps[k].text) <==> ps[k].text in KEYS) {
      Associate("error format", " ", ps[k].text);
    }
  }

  /** A formatter on the pattern that canonical pieces print as has exactly their
      items, each with its own format, and no error. */
  lemma FormatsBack(ps: seq<Piece>)
    requires Canonical(ps)
    ensures var scanned := Scanned(Print(ps), 0, "");
            && scanned.pieces == ps && !scanned.error && AllKnown(ps)
            && |ItemsOf(ps)| == |ps|
            && forall k :: 0 <= k < |ps| ==>
                 ItemsOf(ps)[k] == if ps[k].item then Field(ps[k].text, ps[k].fmt) else Literal(ps[k].text)
  {
    ParsesBack(ps);
    ItemsWritten(ps);
  }

  class LogFormatter {
    const pattern: string
    var items: seq<FormatItem>
    var error: bool

    constructor (pattern: string)
      ensures this.pattern == pattern
      ensures items == ItemsOf(Scanned(pattern, 0, "").pieces)
      ensures error <==> Scanned(pattern, 0, "").error || !AllKnown(Scanned(pattern, 0, "").pieces)
      ensures forall ps: seq<Piece> :: Canonical(ps) && pattern == Print(ps) ==>
                && !error && |items| == |ps|
                && forall k :: 0 <= k < |ps| ==>
                     items[k] == if ps[k].item then Field(ps[k].text, ps[k].fmt) else Literal(ps[k].text)
    {
      this.pattern, items, error := pattern, [], false;
      new;
      Init();
      hide Canonical, Print, Scanned, AllKnown, ItemsOf;
      forall ps: seq<Piece> | Canonical(ps) && pattern == Print(ps)
        ensures && !error && |items| == |ps|
                && forall k :: 0 <= k < |ps| ==>
                     items[k] == if ps[k].item then Field(ps[k].text, ps[k].fmt) else Literal(ps[k].text)
      {
        FormatsBack(ps);
      }
    }

    method Init()
      requires items == [] && !error
      modifies this
      ensures items == ItemsOf(Scanned(pattern, 0, "").pieces)
      ensures error <==> Scanned(pattern, 0, "").error || !AllKnown(Scanned(pattern, 0, "").pieces)
      ensures var ps := Scanned(pattern, 0, "").pieces;
              && |items| == |ps| && (forall k :: 0 <= k < |ps| ==> Makes(ps[k], items[k]))
              && ((exists k :: 0 <= k < |ps| && ps[k].item && !Known(ps[k].text)) ==> error)
    {
      ghost var whole := Scanned(pattern, 0, "");
      var vec: seq<Piece> := [];
      var nstr := "";
      var i := 0;
      assert Completes(vec, error, whole, whole);
      hide Scanned, DirectiveAt, ItemsOf, AllKnown, Completes, Flush;
      while i < |pattern|
        invariant 0 <= i <= |pattern|
        invariant items == []
        invariant Completes(vec, error, Scanned(pattern, i, nstr), whole)
        decreases |pattern| - i
      {
        ScannedStep(pattern, i, nstr);
        if pattern[i] != '%' {
          nstr := nstr + [pattern[i]];
          i := i + 1;
          continue;
        }
        if i + 1 < |pattern| {
          if pattern[i + 1] == '%' {
            nstr := nstr + "%";
            i := i + 2;
            continue;
          }
        }
        var str, fmt, status, n := ScanDirective(pattern, i);
        ghost var rest := Scanned(pattern, i, nstr);
        if status == 0 {
          CompletesItem(vec, error, nstr, Piece(str, fmt, true), rest, Scanned(pattern, n, ""), whole);
          if nstr != "" {
            vec := vec + [Piece(nstr, "", false)];
            nstr := "";
          }
          vec := vec + [Piece(str, fmt, true)];
          i := n;
        } else {
          CompletesError(vec, error, rest, Scanned(pattern, i + 1, nstr), whole);
          error := true;
          vec := vec + [Piece("pattern error", fmt, false)];
          i := i + 1;
        }
      }
      ScannedEnd(pattern, nstr);
      CompletesEnd(vec, error, nstr, whole);
      if nstr != "" {
        vec := vec + [Piece(nstr, "", false)];
      }
      MakeItems(vec);
      ItemsWritten(vec);
    }

    method MakeItems(vec: seq<Piece>)
      requires items == []
      modifies this
      ensures items == ItemsOf(vec)
      ensures error <==> old(error) || !AllKnown(vec)
    {
      for k := 0 to |vec|
        invariant items == ItemsOf(vec)[..k]
        invariant error <==> old(error) || !AllKnown(vec[..k])
      {
        var t := vec[k];
        assert vec[..k + 1] == vec[..k] + [t];
        if !t.item {
          items := items + [Literal(t.text)];
        } else if t.text !in KEYS {
          items := items + [Literal("error format" + " " + t.text)];
          error := true;
        } else {
          items := items + [Field(t.text, t.fmt)];
        }
      }
      assert vec[..|vec|] == vec;
    }
  }

  // ------------------------------------------------------------- lossless parsing

  /** A character of literal text as a pattern writes it. */
  function Twice(c: char): string {
    if c == '%' then "%%" else [c]
  }

  /** Literal text as a pattern writes it. */
  function Doubled(t: string): string {
    if t == "" then ""
    else Doubled(t[..|t| - 1]) + Twice(t[|t| - 1])
  }

  function RenderPiece(t: Piece, braced: bool): string {
    if !t.item then Doubled(t.text)
    else "%" + t.text + (if braced then "{" + t.fmt + "}" else "")
  }

  /** The pieces written as a pattern; `braced` says which items show braces. */
  function Render(ps: seq<Piece>, braced: seq<bool>): string
    requires |braced| == |ps|
  {
    if ps == [] then "" else RenderPiece(ps[0], braced[0]) + Render(ps[1..], braced[1..])
  }

  /** Braces where there is something to put in them. */
  function Needed(ps: seq<Piece>): (r: seq<bool>)
    ensures |r| == |ps|
  {
    seq(|ps|, k requires 0 <= k < |ps| => ps[k].fmt != "")
  }

  function Print(ps: seq<Piece>): string {
    Render(ps, Needed(ps))
  }

  /** Which of the pieces found from `i` on were written with braces. */
  function Braces(p: string, i: nat, nstr: string): (bs: seq<bool>)
    requires i <= |p|
    decreases |p| - i
  {
    if i == |p| then (if nstr == "" then [] else [false])
    else if p[i] != '%' then Braces(p, i + 1, nstr + [p[i]])
    else if Escaped(p, i) then Braces(p, i + 2, nstr + "%")
    else
      match DirectiveAt(p, i)
      case Item(_, _, braced, next) => (if nstr == "" then [] else [false]) + [braced] + Braces(p, next, "")
      case Unclosed => [false] + Braces(p, i + 1, nstr)
  }

  lemma DoubledSnoc(t: string, c: char)
    ensures Doubled(t + [c]) == Doubled(t) + Twice(c)
  {
    assert (t + [c])[..|t|] == t;
  }

  lemma RenderHead(ps: seq<Piece>, bs: seq<bool>, t: Piece, b: bool)
    requires |bs| == |ps|
    ensures Render([t] + ps, [b] + bs) == RenderPiece(t, b) + Render(ps, bs)
  {
    assert ([t] + ps)[1..] == ps && ([b] + bs)[1..] == bs;
  }

  lemma RenderNone(qs: seq<Piece>, cs: seq<bool>)
    requires |cs| == |qs|
    ensures Render([] + qs, [] + cs) == Render([], []) + Render(qs, cs)
  {
    assert [] + qs == qs && [] + cs == cs;
  }

  lemma Regroup<T>(x: T, us: seq<T>, qs: seq<T>)
    ensures ([x] + us) + qs == [x] + (us + qs)
  {
  }

  lemma Uncons<T>(xs: seq<T>)
    requires xs != []
    ensures xs == [xs[0]] + xs[1..]
  {
  }

  lemma {:induction false} RenderConcat(ps: seq<Piece>, qs: seq<Piece>, bs: seq<bool>, cs: seq<bool>)
    requires |bs| == |ps| && |cs| == |qs|
    ensures Render(ps + qs, bs + cs) == Render(ps, bs) + Render(qs, cs)
    decreases |ps|
  {
    hide Render, RenderPiece;
    if ps == [] {
      assert bs == [];
      RenderNone(qs, cs);
    } else {
      var t, b, us, ds := ps[0], bs[0], ps[1..], bs[1..];
      RenderConcat(us, qs, ds, cs);
      RenderHead(us, ds, t, b);
      RenderHead(us + qs, ds + cs, t, b);
      Uncons(ps);
      Uncons(bs);
      Regroup(t, us, qs);
      Regroup(b, ds, cs);
      Associate(RenderPiece(t, b), Render(us, ds), Render(qs, cs));
    }
  }

  lemma RenderOne(t: Piece, b: bool)
    ensures Render([t], [b]) == RenderPiece(t, b)
  {
    assert Render([t][1..], [b][1..]) == "";
  }

  lemma RenderFlush(nstr: string)
    ensures var bs := if nstr == "" then [] else [false];
            |bs| == |Flush(nstr)| && Render(Flush(nstr), bs) == Doubled(nstr)
  {
    if nstr != "" {
      RenderOne(Piece(nstr, "", false), false);
    }
  }

  lemma BracesText(p: string, k: nat, q: nat)
    requires k < q < |p| && p[k] == '{' && p[q] == '}'
    ensures p[k..q + 1] == "{" + p[k + 1..q] + "}"
  {
  }

  lemma Cut(p: string, i: nat, k: nat, n: nat)
    requires i <= k <= n <= |p|
    ensures p[i..n] == p[i..k] + p[k..n]
  {
  }

  lemma KeyText(p: string, i: nat, k: nat)
    requires i < k <= |p| && p[i] == '%'
    ensures "%" + p[i + 1..k] == p[i..k]
  {
  }

  /** The text of an item is what stands between its `%` and its end. */
  lemma DirectiveText(p: string, i: nat)
    requires i < |p| && p[i] == '%' && DirectiveAt(p, i).Item?
    ensures var d := DirectiveAt(p, i);
            RenderPiece(Piece(d.key, d.fmt, true), d.braced) == p[i..d.next]
  {
    hide SkipKey, FindClose;
    var k := SkipKey(p, i + 1);
    KeyText(p, i, k);
    if k < |p| && p[k] == '{' {
      var q := FindClose(p, k + 1);
      BracesText(p, k, q);
      Cut(p, i, k, q + 1);
    } else {
      assert p[i..k] + "" == p[i..k];
    }
  }

  lemma KeepsItem(nstr: string, t: Piece, b: bool, ps: seq<Piece>, bs: seq<bool>)
    requires |bs| == |ps|
    ensures var fs := if nstr == "" then [] else [false];
            && |fs| == |Flush(nstr)|
            && Render(Flush(nstr) + [t] + ps, fs + [b] + bs) == Doubled(nstr) + (RenderPiece(t, b) + Render(ps, bs))
  {
    hide Render, RenderPiece, Doubled;
    var fs := if nstr == "" then [] else [false];
    RenderFlush(nstr);
    RenderOne(t, b);
    RenderConcat(Flush(nstr), [t], fs, [b]);
    RenderConcat(Flush(nstr) + [t], ps, fs + [b], bs);
    Associate(Doubled(nstr), RenderPiece(t, b), Render(ps, bs));
  }

  /** What holds of the scan from `i` on. */
  ghost predicate Kept(p: string, i: nat, nstr: string)
    requires i <= |p|
  {
    && |Braces(p, i, nstr)| == |Scanned(p, i, nstr).pieces|
    && Render(Scanned(p, i, nstr).pieces, Braces(p, i, nstr)) == Doubled(nstr) + p[i..]
  }

  lemma KeptEnd(p: string, nstr: string)
    ensures Kept(p, |p|, nstr)
  {
    RenderFlush(nstr);
  }

  lemma KeptChar(p: string, i: nat, nstr: string)
    requires i < |p| && p[i] != '%' && Kept(p, i + 1, nstr + [p[i]])
    ensures Kept(p, i, nstr)
  {
    hide Render, Doubled;
    DoubledSnoc(nstr, p[i]);
    Associate(Doubled(nstr), [p[i]], p[i + 1..]);
    assert p[i..] == [p[i]] + p[i + 1..];
  }

  lemma KeptEscape(p: string, i: nat, nstr: string)
    requires Escaped(p, i) && Kept(p, i + 2, nstr + "%")
    ensures Kept(p, i, nstr)
  {
    hide Render, Doubled;
    DoubledSnoc(nstr, '%');
    Associate(Doubled(nstr), "%%", p[i + 2..]);
    assert p[i..] == "%%" + p[i + 2..];
  }

  lemma ScannedItem(p: string, i: nat, nstr: string)
    requires i < |p| && p[i] == '%' && !Escaped(p, i) && DirectiveAt(p, i).Item?
    ensures var d := DirectiveAt(p, i);
            && Scanned(p, i, nstr).pieces == Flush(nstr) + [Piece(d.key, d.fmt, true)] + Scanned(p, d.next, "").pieces
            && Scanned(p, i, nstr).error == Scanned(p, d.next, "").error
            && Braces(p, i, nstr) == (if nstr == "" then [] else [false]) + [d.braced] + Braces(p, d.next, "")
  {
    hide DirectiveAt, Flush;
  }

  lemma KeptRest(p: string, i: nat)
    requires i <= |p| && Kept(p, i, "")
    ensures |Braces(p, i, "")| == |Scanned(p, i, "").pieces|
    ensures Render(Scanned(p, i, "").pieces, Braces(p, i, "")) == p[i..]
  {
    hide Render, Scanned, Braces;
    assert Doubled("") + p[i..] == p[i..];
  }

  lemma KeptItem(p: string, i: nat, nstr: string)
    requires i < |p| && p[i] == '%' && !Escaped(p, i) && DirectiveAt(p, i).Item?
    requires Kept(p, DirectiveAt(p, i).next, "")
    ensures Kept(p, i, nstr)
  {
    hide Render, RenderPiece, Doubled, DirectiveAt, Scanned, Braces, Flush, SkipKey, FindClose;
    var d := DirectiveAt(p, i);
    ScannedItem(p, i, nstr);
    DirectiveText(p, i);
    KeptRest(p, d.next);
    KeepsItem(nstr, Piece(d.key, d.fmt, true), d.braced, Scanned(p, d.next, "").pieces, Braces(p, d.next, ""));
    Cut(p, i, d.next, |p|);
    assert p[i..|p|] == p[i..] && p[d.next..|p|] == p[d.next..];
  }

  /** Whatever the scan accepts it has kept: written back, with braces where they
      were, the pieces are the pattern. */
  lemma {:induction false} KeepsAll(p: string, i: nat, nstr: string)
    requires i <= |p| && !Scanned(p, i, nstr).error
    ensures Kept(p, i, nstr)
    decreases |p| - i
  {
    hide Kept, DirectiveAt;
    if i == |p| {
      KeptEnd(p, nstr);
    } else if p[i] != '%' {
      KeepsAll(p, i + 1, nstr + [p[i]]);
      KeptChar(p, i, nstr);
    } else if Escaped(p, i) {
      KeepsAll(p, i + 2, nstr + "%");
      KeptEscape(p, i, nstr);
    } else {
      KeepsAll(p, DirectiveAt(p, i).next, "");
      KeptItem(p, i, nstr);
    }
  }

  predicate EmptyBracesAt(p: string, j: nat) {
    j + 1 < |p| && p[j] == '{' && p[j + 1] == '}'
  }

  /** Where the item whose `%` is at `i` ends: after its key, or its closing brace. */
  function ItemEnd(p: string, i: nat): (e: nat)
    requires i < |p|
    ensures i < e <= |p|
  {
    var k := SkipKey(p, i + 1);
    if k == |p| || p[k] != '{' then k
    else if FindClose(p, k + 1) == |p| then |p|
    else FindClose(p, k + 1) + 1
  }

  /** Reading from `from` on, past doubled `%` and whole items, an item's `%` stands
      at `j`. */
  predicate StartsItem(p: string, from: nat, j: nat)
    requires from <= |p|
    ensures StartsItem(p, from, j) ==> from <= j < |p| && p[j] == '%'
    decreases |p| - from
  {
    from < |p|
    && if p[from] != '%' then StartsItem(p, from + 1, j)
       else if Escaped(p, from) then StartsItem(p, from + 2, j)
       else j == from || StartsItem(p, ItemEnd(p, from), j)
  }

  /** From `from` on, the key of some item is followed by `{}`. */
  ghost predicate EmptyItem(p: string, from: nat)
    requires from <= |p|
  {
    exists j: nat :: StartsItem(p, from, j) && EmptyBracesAt(p, SkipKey(p, j + 1))
  }

  /** Some item of the pattern is followed by `{}`. */
  ghost predicate HasEmptyBraces(p: string) {
    EmptyItem(p, 0)
  }

  /** Braces are shown wherever needed, and only items have a format. */
  predicate Proper(ps: seq<Piece>, bs: seq<bool>)
    requires |bs| == |ps|
  {
    forall k :: 0 <= k < |ps| ==> (ps[k].fmt != "" ==> ps[k].item && bs[k]) && (bs[k] ==> ps[k].item)
  }

  lemma {:induction false} ScannedProper(p: string, i: nat, nstr: string)
    requires i <= |p|
    ensures |Braces(p, i, nstr)| == |Scanned(p, i, nstr).pieces|
    ensures Proper(Scanned(p, i, nstr).pieces, Braces(p, i, nstr))
    decreases |p| - i
  {
    if i < |p| {
      if p[i] != '%' {
        ScannedProper(p, i + 1, nstr + [p[i]]);
      } else if Escaped(p, i) {
        ScannedProper(p, i + 2, nstr + "%");
      } else if DirectiveAt(p, i).Item? {
        ScannedProper(p, DirectiveAt(p, i).next, "");
      } else {
        ScannedProper(p, i + 1, nstr);
      }
    }
  }

  /** Some braces have nothing in them. */
  predicate Spare(ps: seq<Piece>, bs: seq<bool>)
    requires |bs| == |ps|
  {
    exists k :: 0 <= k < |ps| && bs[k] && ps[k].fmt == ""
  }

  lemma SpareHead(ps: seq<Piece>, bs: seq<bool>)
    requires |bs| == |ps| && ps != [] && Proper(ps, bs)
    ensures Spare(ps, bs) <==> (bs[0] && ps[0].fmt == "") || Spare(ps[1..], bs[1..])
    ensures Proper(ps[1..], bs[1..])
  {
    var qs, cs := ps[1..], bs[1..];
    assert forall k :: 0 <= k < |qs| ==> qs[k] == ps[k + 1] && cs[k] == bs[k + 1];
    if k :| 0 <= k < |ps| && bs[k] && ps[k].fmt == "" {
      assert k > 0 ==> cs[k - 1] && qs[k - 1].fmt == "";
    }
  }

  lemma SparePiece(t: Piece, b: bool)
    requires (t.fmt != "" ==> t.item && b) && (b ==> t.item)
    ensures b && t.fmt == "" ==> |RenderPiece(t, t.fmt != "")| + 2 == |RenderPiece(t, b)|
    ensures !(b && t.fmt == "") ==> RenderPiece(t, t.fmt != "") == RenderPiece(t, b)
  {
  }

  lemma PrintHead(ps: seq<Piece>)
    requires ps != []
    ensures Print(ps) == RenderPiece(ps[0], ps[0].fmt != "") + Print(ps[1..])
  {
    assert Needed(ps)[1..] == Needed(ps[1..]);
  }

  lemma RenderTail(ps: seq<Piece>, bs: seq<bool>)
    requires |bs| == |ps| && ps != []
    ensures Render(ps, bs) == RenderPiece(ps[0], bs[0]) + Render(ps[1..], bs[1..])
  {
  }

  /** Leaving needless braces out shortens the text. */
  lemma {:induction false} NeededShorter(ps: seq<Piece>, bs: seq<bool>)
    requires |bs| == |ps| && Proper(ps, bs)
    ensures |Print(ps)| <= |Render(ps, bs)|
    ensures if Spare(ps, bs) then |Print(ps)| < |Render(ps, bs)| else Print(ps) == Render(ps, bs)
    decreases |ps|
  {
    if ps != [] {
      SparePiece(ps[0], bs[0]);
      hide Print, Render, RenderPiece, Spare, Proper;
      SpareHead(ps, bs);
      NeededShorter(ps[1..], bs[1..]);
      PrintHead(ps);
      RenderTail(ps, bs);
    }
  }

  lemma SpareConcat(ps: seq<Piece>, qs: seq<Piece>, bs: seq<bool>, cs: seq<bool>)
    requires |bs| == |ps| && |cs| == |qs|
    ensures Spare(ps + qs, bs + cs) <==> Spare(ps, bs) || Spare(qs, cs)
  {
    var us, ds := ps + qs, bs + cs;
    if k :| 0 <= k < |us| && ds[k] && us[k].fmt == "" {
      assert if k < |ps| then bs[k] && ps[k].fmt == "" else cs[k - |ps|] && qs[k - |ps|].fmt == "";
    }
    if k :| 0 <= k < |ps| && bs[k] && ps[k].fmt == "" {
      assert ds[k] && us[k].fmt == "";
    }
    if k :| 0 <= k < |qs| && cs[k] && qs[k].fmt == "" {
      assert ds[|ps| + k] && us[|ps| + k].fmt == "";
    }
  }

  lemma SpareItem(nstr: string, t: Piece, b: bool)
    ensures var fs := if nstr == "" then [] else [false];
            |fs| == |Flush(nstr)|
            && (Spare(Flush(nstr) + [t], fs + [b]) <==> b && t.fmt == "")
  {
    var fs := if nstr == "" then [] else [false];
    var us, ds := Flush(nstr) + [t], fs + [b];
    assert ds[|fs|] == b && us[|fs|] == t;
  }

  lemma EmptyHere(p: string, i: nat)
    requires i < |p| && p[i] == '%' && !Escaped(p, i) && DirectiveAt(p, i).Item?
    ensures var d := DirectiveAt(p, i);
            && d.next == ItemEnd(p, i)
            && (d.braced && d.fmt == "" <==> EmptyBracesAt(p, SkipKey(p, i + 1)))
  {
    var k := SkipKey(p, i + 1);
    if k < |p| && p[k] == '{' {
      assert EmptyBracesAt(p, k) ==> FindClose(p, k + 1) == k + 1;
    }
  }

  lemma EmptyItemHere(p: string, i: nat)
    requires i < |p| && p[i] == '%' && !Escaped(p, i)
    ensures EmptyItem(p, i) <==> EmptyBracesAt(p, SkipKey(p, i + 1)) || EmptyItem(p, ItemEnd(p, i))
  {
    hide EmptyBracesAt, SkipKey, ItemEnd;
    assert StartsItem(p, i, i);
    if EmptyItem(p, ItemEnd(p, i)) {
      var j: nat :| StartsItem(p, ItemEnd(p, i), j) && EmptyBracesAt(p, SkipKey(p, j + 1));
      assert StartsItem(p, i, j);
    }
    if EmptyItem(p, i) {
      var j: nat :| StartsItem(p, i, j) && EmptyBracesAt(p, SkipKey(p, j + 1));
      assert j == i || StartsItem(p, ItemEnd(p, i), j);
    }
    assert EmptyBracesAt(p, SkipKey(p, i + 1)) ==> EmptyItem(p, i);
  }

  lemma EmptyItemLater(p: string, i: nat)
    requires i < |p| && (p[i] != '%' || Escaped(p, i))
    ensures EmptyItem(p, i) <==> EmptyItem(p, if p[i] != '%' then i + 1 else i + 2)
  {
    hide EmptyBracesAt, SkipKey, ItemEnd;
    var n := if p[i] != '%' then i + 1 else i + 2;
    assert forall j: nat :: StartsItem(p, i, j) <==> StartsItem(p, n, j);
  }

  /** The needless braces of the pieces are the `{}` after keys in the text. */
  lemma {:induction false} SpareIsEmpty(p: string, i: nat, nstr: string)
    requires i <= |p| && !Scanned(p, i, nstr).error
    ensures |Braces(p, i, nstr)| == |Scanned(p, i, nstr).pieces|
    ensures Spare(Scanned(p, i, nstr).pieces, Braces(p, i, nstr)) <==> EmptyItem(p, i)
    decreases |p| - i
  {
    hide EmptyItem, DirectiveAt, SkipKey, EmptyBracesAt;
    if i == |p| {
      NoItemAtEnd(p);
    } else if p[i] != '%' {
      EmptyItemLater(p, i);
      SpareIsEmpty(p, i + 1, nstr + [p[i]]);
    } else if Escaped(p, i) {
      EmptyItemLater(p, i);
      SpareIsEmpty(p, i + 2, nstr + "%");
    } else {
      var d := DirectiveAt(p, i);
      var t := Piece(d.key, d.fmt, true);
      EmptyItemHere(p, i);
      EmptyHere(p, i);
      SpareIsEmpty(p, d.next, "");
      ScannedItem(p, i, nstr);
      SpareItem(nstr, t, d.braced);
      var fs := if nstr == "" then [] else [false];
      SpareConcat(Flush(nstr) + [t], Scanned(p, d.next, "").pieces, fs + [d.braced], Braces(p, d.next, ""));
      hide Scanned, Braces, Flush;
    }
  }

  lemma NoItemAtEnd(p: string)
    ensures !EmptyItem(p, |p|)
  {
  }

  /** Whenever init leaves the error flag clear, printing the parsed pieces gives
      the pattern back, except for empty braces after an item, which are lost: it
      gives the very pattern exactly when the key of no item is followed by `{}`. */
  lemma Lossless(p: string)
    requires !Scanned(p, 0, "").error
    ensures Print(Scanned(p, 0, "").pieces) == p <==> !HasEmptyBraces(p)
    ensures var ps, bs := Scanned(p, 0, "").pieces, Braces(p, 0, "");
            && |bs| == |ps| && Proper(ps, bs) && Render(ps, bs) == p
  {
    KeepsAll(p, 0, "");
    ScannedProper(p, 0, "");
    SpareIsEmpty(p, 0, "");
    assert Doubled("") + p[0..] == p;
    hide Scanned, Braces, Render, Print, EmptyItem;
    NeededShorter(Scanned(p, 0, "").pieces, Braces(p, 0, ""));
  }

  lemma EmptyItemShows(p: string)
    requires HasEmptyBraces(p)
    ensures exists j :: 0 <= j < |p| && EmptyBracesAt(p, j)
  {
    var j: nat :| StartsItem(p, 0, j) && EmptyBracesAt(p, SkipKey(p, j + 1));
  }

  /** A pattern without `{}` in it is printed back as it was. */
  lemma NoEmptyBraces(p: string)
    requires !Scanned(p, 0, "").error && forall j :: 0 <= j < |p| ==> !EmptyBracesAt(p, j)
    ensures Print(Scanned(p, 0, "").pieces) == p
  {
    hide HasEmptyBraces, Scanned, Print;
    Lossless(p);
    if HasEmptyBraces(p) {
      EmptyItemShows(p);
    }
  }

  lemma EmptyBracesAreLost()
    ensures HasEmptyBraces("%d{}") && !Scanned("%d{}", 0, "").error && AllKnown(Scanned("%d{}", 0, "").pieces)
    ensures Print(Scanned("%d{}", 0, "").pieces) == "%d"
  {
    var p := "%d{}";
    assert SkipKey(p, 2) == 2 && SkipKey(p, 1) == 2;
    assert StartsItem(p, 0, 0) && EmptyBracesAt(p, 2);
    assert FindClose(p, 3) == 3;
    assert p[1..2] == "d" && p[3..3] == "";
    assert DirectiveAt(p, 0) == Item("d", "", true, 4);
    assert Scanned(p, 4, "").pieces == [];
    assert Scanned(p, 0, "").pieces == [Piece("d", "", true)];
    assert Braces(p, 4, "") == [];
    assert Braces(p, 0, "") == [true];
    RenderOne(Piece("d", "", true), false);
    assert Needed([Piece("d", "", true)]) == [false];
  }

  // -------------------------------------------------------- patterns from pieces

  /** A key the formatter knows with a format it can hold, or some text. */
  predicate PieceOk(t: Piece) {
    if t.item then t.text in KEYS && (forall k :: 0 <= k < |t.fmt| ==> t.fmt[k] != '}')
    else t.text != "" && t.fmt == ""
  }

  /** Texts do not touch, and text after an item without braces does not go on
      with its key or open its braces. */
  predicate Follows(t: Piece, u: Piece) {
    if t.item then t.fmt == "" && !u.item && u.text != "" ==> !KeyChar(u.text[0]) && u.text[0] != '{'
    else u.item
  }

  predicate Canonical(ps: seq<Piece>) {
    ps == [] || (PieceOk(ps[0]) && (|ps| > 1 ==> Follows(ps[0], ps[1])) && Canonical(ps[1..]))
  }

  lemma {:induction false} DoubledHead(c: char, t: string)
    ensures Doubled([c] + t) == Twice(c) + Doubled(t)
  {
    if t == "" {
      DoubledSnoc("", c);
      assert [c] + t == "" + [c];
    } else {
      var u, d := t[..|t| - 1], t[|t| - 1];
      DoubledHead(c, u);
      DoubledSnoc([c] + u, d);
      assert [c] + t == [c] + u + [d];
      Associate(Twice(c), Doubled(u), Twice(d));
    }
  }

  lemma Advance(p: string, i: nat, a: string, b: string)
    requires i <= |p| && p[i..] == a + b
    ensures i + |a| <= |p| && p[i + |a|..] == b
    ensures forall k :: 0 <= k < |a| ==> p[i + k] == a[k]
  {
    assert |p| - i == |a| + |b|;
    assert p[i + |a|..] == p[i..][|a|..];
    forall k | 0 <= k < |a| ensures p[i + k] == a[k] {
      assert p[i + k] == p[i..][k];
    }
  }

  lemma ScanFirst(p: string, i: nat, nstr: string, c: char, rest: string)
    requires i <= |p| && p[i..] == Twice(c) + rest
    ensures i + |Twice(c)| <= |p| && p[i + |Twice(c)|..] == rest
    ensures Scanned(p, i, nstr) == Scanned(p, i + |Twice(c)|, nstr + [c])
  {
    Advance(p, i, Twice(c), rest);
    ScanHead(p, i, nstr, c);
  }

  lemma DoubledFirst(t: string, rest: string)
    requires t != ""
    ensures Doubled(t) + rest == Twice(t[0]) + (Doubled(t[1..]) + rest)
    ensures |Doubled(t)| == |Twice(t[0])| + |Doubled(t[1..])|
  {
    hide Doubled, Twice;
    Uncons(t);
    DoubledHead(t[0], t[1..]);
    Associate(Twice(t[0]), Doubled(t[1..]), rest);
  }

  lemma NothingDoubled(nstr: string)
    ensures |Doubled("")| == 0 && nstr + "" == nstr
  {
  }

  /** Doubled text is scanned as the text. */
  lemma {:induction false} ScanLiteral(p: string, i: nat, nstr: string, t: string, rest: string)
    requires i <= |p| && p[i..] == Doubled(t) + rest
    ensures i + |Doubled(t)| <= |p| && Scanned(p, i, nstr) == Scanned(p, i + |Doubled(t)|, nstr + t)
    decreases |t|
  {
    hide Doubled, Twice, Scanned;
    if t == "" {
      NothingDoubled(nstr);
    } else {
      ScanTail(p, i, nstr, t, rest);
      ScanLiteral(p, i + |Twice(t[0])|, nstr + [t[0]], t[1..], rest);
      Reattach(nstr, t);
    }
  }

  /** The first character is scanned, and the rest is left. */
  lemma ScanTail(p: string, i: nat, nstr: string, t: string, rest: string)
    requires t != "" && i <= |p| && p[i..] == Doubled(t) + rest
    ensures var i' := i + |Twice(t[0])|;
            && i' <= |p| && p[i'..] == Doubled(t[1..]) + rest
            && Scanned(p, i, nstr) == Scanned(p, i', nstr + [t[0]])
            && i' + |Doubled(t[1..])| == i + |Doubled(t)|
  {
    hide Doubled, Twice, Scanned;
    DoubledFirst(t, rest);
    ScanFirst(p, i, nstr, t[0], Doubled(t[1..]) + rest);
  }

  lemma Reattach(s: string, t: string)
    requires t != ""
    ensures s + [t[0]] + t[1..] == s + t
  {
  }

  lemma ScanHead(p: string, i: nat, nstr: string, c: char)
    requires var head := Twice(c);
             i + |head| <= |p| && forall k :: 0 <= k < |head| ==> p[i + k] == head[k]
    ensures Scanned(p, i, nstr) == Scanned(p, i + |Twice(c)|, nstr + [c])
  {
    hide DirectiveAt;
    var head := Twice(c);
    assert p[i + 0] == head[0];
    if c == '%' {
      assert p[i + 1] == head[1];
    }
  }

  /** The text after an item without braces ends its key. */
  predicate Ends(rest: string) {
    rest == "" || (!KeyChar(rest[0]) && rest[0] != '{')
  }

  lemma KeyLetter(key: string)
    requires key in KEYS
    ensures |key| == 1 && IsAlpha(key[0])
  {
  }

  lemma PlainItem(p: string, i: nat, key: string, rest: string)
    requires key in KEYS && i <= |p| && p[i..] == "%" + key + rest && Ends(rest)
    ensures i + 2 <= |p| && p[i] == '%' && !Escaped(p, i) && DirectiveAt(p, i) == Item(key, "", false, i + 2)
  {
    KeyLetter(key);
    Advance(p, i, "%" + key, rest);
    assert p[i + 0] == '%' && p[i + 1] == key[0];
    assert rest != "" ==> p[i + 2] == p[i + 2..][0];
    assert SkipKey(p, i + 1) == SkipKey(p, i + 2) == i + 2;
    assert p[i + 1..i + 2] == key;
  }

  lemma BracedChars(p: string, i: nat, key: string, fmt: string, rest: string)
    requires |key| == 1 && i <= |p| && p[i..] == "%" + key + ("{" + fmt + "}") + rest
    ensures i + |fmt| + 4 <= |p|
    ensures p[i] == '%' && p[i + 1] == key[0] && p[i + 2] == '{' && p[i + 3 + |fmt|] == '}'
    ensures p[i + 1..i + 2] == key && p[i + 3..i + 3 + |fmt|] == fmt
  {
    var head := "%" + key + ("{" + fmt + "}");
    Advance(p, i, head, rest);
    assert p[i + 0] == head[0] && p[i + 1] == head[1] && p[i + 2] == head[2];
    assert p[i + (|fmt| + 3)] == head[|fmt| + 3];
    forall k | 0 <= k < |fmt| ensures p[i + 3 + k] == fmt[k] {
      assert p[i + (k + 3)] == head[k + 3];
    }
  }

  lemma BracedItem(p: string, i: nat, key: string, fmt: string, rest: string)
    requires key in KEYS && i <= |p| && p[i..] == "%" + key + ("{" + fmt + "}") + rest
    requires forall k :: 0 <= k < |fmt| ==> fmt[k] != '}'
    ensures var next := i + |fmt| + 4;
            && next <= |p| && p[i] == '%' && !Escaped(p, i)
            && DirectiveAt(p, i) == Item(key, fmt, true, next)
  {
    KeyLetter(key);
    BracedChars(p, i, key, fmt, rest);
    assert SkipKey(p, i + 1) == SkipKey(p, i + 2) == i + 2;
    var q := i + 3 + |fmt|;
    forall k | i + 3 <= k < q ensures p[k] != '}' {
      assert p[k] == p[i + 3..q][k - i - 3];
    }
    assert FindClose(p, i + 3) == q;
  }

  lemma ItemAt(p: string, i: nat, t: Piece, rest: string)
    requires i <= |p| && p[i..] == RenderPiece(t, t.fmt != "") + rest
    requires t.item && PieceOk(t) && (t.fmt == "" ==> Ends(rest))
    ensures var next := i + |RenderPiece(t, t.fmt != "")|;
            && i < next <= |p| && p[i] == '%' && !Escaped(p, i)
            && DirectiveAt(p, i) == Item(t.text, t.fmt, t.fmt != "", next)
  {
    hide Ends, DirectiveAt;
    KeyLetter(t.text);
    if t.fmt == "" {
      assert "%" + t.text + "" == "%" + t.text;
      PlainItem(p, i, t.text, rest);
    } else {
      BracedItem(p, i, t.text, t.fmt, rest);
    }
  }

  lemma ScanItem(p: string, i: nat, nstr: string, t: Piece, rest: string)
    requires i <= |p| && p[i..] == RenderPiece(t, t.fmt != "") + rest
    requires t.item && PieceOk(t) && (t.fmt == "" ==> Ends(rest))
    ensures var next := i + |RenderPiece(t, t.fmt != "")|;
            && next <= |p| && Scanned(p, next, "").error == Scanned(p, i, nstr).error
            && Scanned(p, i, nstr).pieces == Flush(nstr) + [t] + Scanned(p, next, "").pieces
  {
    hide DirectiveAt, PieceOk, Ends, RenderPiece, Scanned, Flush, Escaped;
    ItemAt(p, i, t, rest);
    ScannedItem(p, i, nstr);
    assert t == Piece(t.text, t.fmt, true);
  }

  lemma PrintEnds(t: Piece, ps: seq<Piece>)
    requires t.item && t.fmt == "" && Canonical([t] + ps)
    ensures Ends(Print(ps))
  {
    var qs := [t] + ps;
    assert qs[1..] == ps;
    if ps != [] {
      assert qs[1] == ps[0] && Follows(t, ps[0]) && PieceOk(ps[0]);
      PrintHead(ps);
      var u := ps[0];
      if !u.item {
        assert u.text == [u.text[0]] + u.text[1..];
        DoubledHead(u.text[0], u.text[1..]);
      }
    }
  }

  lemma CanonicalHead(ps: seq<Piece>)
    requires ps != [] && Canonical(ps)
    ensures PieceOk(ps[0]) && Canonical(ps[1..])
    ensures !ps[0].item ==> ps[0] == Piece(ps[0].text, "", false) && ps[0].text != "" && (|ps| > 1 ==> ps[1].item)
  {
  }

  lemma LiteralText(t: Piece)
    requires !t.item
    ensures RenderPiece(t, t.fmt != "") == Doubled(t.text)
  {
  }

  lemma BackItem(p: string, i: nat, nstr: string, t: Piece, ps: seq<Piece>, next: nat)
    requires i <= |p| && p[i..] == RenderPiece(t, t.fmt != "") + Print(ps)
    requires t.item && PieceOk(t) && Canonical([t] + ps)
    requires next == i + |RenderPiece(t, t.fmt != "")| <= |p| && Scanned(p, next, "") == Parsed(ps, false)
    ensures Scanned(p, i, nstr) == Parsed(Flush(nstr) + ([t] + ps), false)
  {
    hide Print, RenderPiece, Scanned, Flush, PieceOk, Canonical, Ends;
    if t.fmt == "" {
      PrintEnds(t, ps);
    }
    ScanItem(p, i, nstr, t, Print(ps));
    assert Flush(nstr) + [t] + ps == Flush(nstr) + ([t] + ps);
  }

  lemma BackText(p: string, i: nat, text: string, ps: seq<Piece>, next: nat)
    requires i <= |p| && p[i..] == Doubled(text) + Print(ps) && text != ""
    requires next == i + |Doubled(text)| <= |p| && Scanned(p, next, text) == Parsed(Flush(text) + ps, false)
    ensures Scanned(p, i, "") == Parsed([Piece(text, "", false)] + ps, false)
  {
    hide Print, Scanned, Doubled;
    ScanLiteral(p, i, "", text, Print(ps));
    assert "" + text == text;
  }

  /** Canonical pieces, printed, are scanned as those very pieces. */
  lemma {:induction false} ScansBack(p: string, i: nat, nstr: string, ps: seq<Piece>)
    requires i <= |p| && p[i..] == Print(ps) && Canonical(ps)
    requires nstr == "" || ps == [] || ps[0].item
    ensures Scanned(p, i, nstr) == Parsed(Flush(nstr) + ps, false)
    decreases |ps|
  {
    if ps == [] {
      assert Print(ps) == "";
      assert Flush(nstr) + ps == Flush(nstr);
    } else {
      var next := i + |RenderPiece(ps[0], ps[0].fmt != "")|;
      PrintHead(ps);
      CanonicalHead(ps);
      hide Print, RenderPiece, Scanned, Flush, PieceOk, Canonical;
      Advance(p, i, RenderPiece(ps[0], ps[0].fmt != ""), Print(ps[1..]));
      ScansBack(p, next, if ps[0].item then "" else ps[0].text, ps[1..]);
      if ps[0].item {
        ItemBack(p, i, nstr, ps, next);
      } else {
        TextBack(p, i, ps, next);
      }
    }
  }

  lemma ItemBack(p: string, i: nat, nstr: string, ps: seq<Piece>, next: nat)
    requires ps != [] && i <= |p| && p[i..] == RenderPiece(ps[0], ps[0].fmt != "") + Print(ps[1..])
    requires ps[0].item && PieceOk(ps[0]) && Canonical(ps)
    requires next == i + |RenderPiece(ps[0], ps[0].fmt != "")| <= |p|
    requires Scanned(p, next, "") == Parsed(Flush("") + ps[1..], false)
    ensures Scanned(p, i, nstr) == Parsed(Flush(nstr) + ps, false)
  {
    BackRest(ps[1..]);
    assert ps == [ps[0]] + ps[1..];
    hide Print, RenderPiece, Scanned, Flush, PieceOk, Canonical;
    BackItem(p, i, nstr, ps[0], ps[1..], next);
  }

  lemma TextBack(p: string, i: nat, ps: seq<Piece>, next: nat)
    requires ps != [] && i <= |p| && p[i..] == RenderPiece(ps[0], ps[0].fmt != "") + Print(ps[1..])
    requires ps[0] == Piece(ps[0].text, "", false) && ps[0].text != ""
    requires next == i + |RenderPiece(ps[0], ps[0].fmt != "")| <= |p|
    requires Scanned(p, next, ps[0].text) == Parsed(Flush(ps[0].text) + ps[1..], false)
    ensures Scanned(p, i, "") == Parsed(Flush("") + ps, false)
  {
    BackRest(ps);
    assert ps == [ps[0]] + ps[1..];
    LiteralText(ps[0]);
    hide Print, RenderPiece, Scanned, Flush, Doubled;
    BackText(p, i, ps[0].text, ps[1..], next);
  }

  lemma BackRest(qs: seq<Piece>)
    ensures Flush("") + qs == qs
  {
  }

  /** Printing canonical pieces and parsing the pattern gives them back, without
      error. */
  lemma ParsesBack(ps: seq<Piece>)
    requires Canonical(ps)
    ensures Scanned(Print(ps), 0, "") == Parsed(ps, false) && AllKnown(ps)
  {
    ScansBack(Print(ps), 0, "", ps);
    CanonicalKnown(ps);
    assert Flush("") + ps == ps;
  }

  lemma {:induction false} CanonicalKnown(ps: seq<Piece>)
    requires Canonical(ps)
    ensures AllKnown(ps)
  {
    if ps != [] {
      CanonicalKnown(ps[1..]);
      assert forall k :: 0 < k < |ps| ==> ps[k] == ps[1..][k - 1];
    }
  }

  // ----------------------------------------------------------- items, written out

  predicate Letter(c: char) {
    'a' <= c <= 'z' || 'A' <= c <= 'Z'
  }

  lemma {:induction false} SkipsKey(p: string, n: nat, e: nat)
    requires n <= e <= |p| && forall j :: n <= j < e ==> Letter(p[j]) || p[j] == '}'
    requires e < |p| ==> !Letter(p[e]) && p[e] != '}'
    ensures SkipKey(p, n) == e
    decreases e - n
  {
    if n < e {
      SkipsKey(p, n + 1, e);
    }
  }

  lemma {:induction false} FindsClose(p: string, n: nat, e: nat)
    requires n <= e <= |p| && forall j :: n <= j < e ==> p[j] != '}'
    requires e < |p| ==> p[e] == '}'
    ensures FindClose(p, n) == e
    decreases e - n
  {
    if n < e {
      FindsClose(p, n + 1, e);
    }
  }

  /** After `%` letters and closing braces are the key; if no opening brace follows,
      the item has no format and ends there. */
  lemma PlainWritten(p: string, i: nat, e: nat)
    requires i < e <= |p| && (forall j :: i < j < e ==> Letter(p[j]) || p[j] == '}')
    requires e < |p| ==> !Letter(p[e]) && p[e] != '}' && p[e] != '{'
    ensures DirectiveAt(p, i) == Item(p[i + 1..e], "", false, e)
  {
    SkipsKey(p, i + 1, e);
  }

  /** With an opening brace behind the key, the format goes up to the first closing
      brace, with which the item ends; without one it is unclosed. */
  lemma BracedWritten(p: string, i: nat, e: nat, c: nat)
    requires i < e < c <= |p| && (forall j :: i < j < e ==> Letter(p[j]) || p[j] == '}')
    requires p[e] == '{' && (forall j :: e < j < c ==> p[j] != '}') && (c < |p| ==> p[c] == '}')
    ensures DirectiveAt(p, i) == if c == |p| then Unclosed else Item(p[i + 1..e], p[e + 1..c], true, c + 1)
  {
    SkipsKey(p, i + 1, e);
    FindsClose(p, e + 1, c);
  }
}

/**
 * What is left of a printed tree when the spans of its named nodes are cut
 * (scripts/gen_wkt_vectors.py:141-196), whatever node begins with whatever argument.
 */
module WktStrip {
  import opened Basics
  import opened WktScan
  import opened WktTree

  // ---- what the cut leaves between two positions --------------------------------------------------

  /** Spans between two positions; one may begin before the one before it ends. */
  ghost predicate Within(spans: seq<Span>, i: nat, j: nat) {
    i <= j && forall k :: 0 <= k < |spans| ==> i <= spans[k].start <= spans[k].end <= j
  }

  function Later(a: nat, b: nat): nat {
    if a > b then a else b
  }

  /** What is left from `last` up to a position. */
  ghost function Keep(s: string, spans: seq<Span>, last: nat, j: nat): string
    requires last <= j <= |s| && Within(spans, 0, j)
    decreases |spans|
  {
    if spans == [] then s[last..j]
    else s[last..Later(spans[0].start, last)] + Keep(s, spans[1..], Later(spans[0].end, last), j)
  }

  ghost predicate Leaves(s: string, spans: seq<Span>, last: nat, j: nat, text: string)
    requires last <= j <= |s| && Within(spans, 0, j)
  {
    Keep(s, spans, last, j) == text
  }

  lemma Cutting(s: string, i: nat, j: nat, k: nat)
    requires i <= j <= k <= |s|
    ensures s[i..j] + s[j..k] == s[i..k]
  {
  }

  lemma WithinConcat(a: seq<Span>, b: seq<Span>, i: nat, j: nat, k: nat)
    requires Within(a, i, j) && Within(b, j, k)
    ensures Within(a + b, i, k)
  {
  }

  /** What is left before a position, and after it. */
  lemma {:induction false} KeepConcat(s: string, a: seq<Span>, b: seq<Span>, i: nat, j: nat, k: nat)
    requires i <= j && Within(a, 0, j) && Within(b, j, k) && k <= |s|
    ensures Within(a + b, 0, k) && Keep(s, a + b, i, k) == Keep(s, a, i, j) + Keep(s, b, j, k)
    decreases |a|
  {
    WithinConcat(a, b, 0, j, k);
    if a == [] {
      assert a + b == b;
      KeepFrom(s, b, i, j, k);
    } else {
      assert (a + b)[1..] == a[1..] + b;
      var start, end := Later(a[0].start, i), Later(a[0].end, i);
      KeepConcat(s, a[1..], b, end, j, k);
      Assoc(s[i..start], Keep(s, a[1..], end, j), Keep(s, b, j, k));
    }
  }

  lemma {:induction false} KeepFrom(s: string, b: seq<Span>, i: nat, j: nat, k: nat)
    requires i <= j && Within(b, j, k) && k <= |s|
    ensures Within(b, 0, k) && Keep(s, b, i, k) == s[i..j] + Keep(s, b, j, k)
  {
    if b == [] {
      Cutting(s, i, j, k);
    } else {
      var start, rest := b[0].start, Keep(s, b[1..], b[0].end, k);
      assert Keep(s, b, i, k) == s[i..start] + rest && Keep(s, b, j, k) == s[j..start] + rest;
      Cutting(s, i, j, start);
      Assoc(s[i..j], s[j..start], rest);
    }
  }

  lemma SliceIs(s: string, low: nat, high: nat)
    requires low <= high <= |s|
    ensures Slice(s, low, high) == s[low..high]
  {
  }

  /** The text between the spans is what is left. */
  lemma {:induction false} CutKeeps(s: string, spans: seq<Span>, last: nat)
    requires Within(spans, 0, |s|) && last <= |s|
    ensures Cut(s, spans, last) == Keep(s, spans, last, |s|)
    decreases |spans|
  {
    if spans == [] {
      SliceIs(s, last, |s|);
    } else {
      SliceIs(s, last, Later(spans[0].start, last));
      CutKeeps(s, spans[1..], Later(spans[0].end, last));
    }
  }

  lemma KeepNothing(s: string, i: nat, j: nat)
    requires i <= j <= |s|
    ensures Within([], 0, j) && Keep(s, [], i, j) == s[i..j]
    ensures Within([Span(i, j)], 0, j) && Keep(s, [Span(i, j)], i, j) == ""
  {
    assert [Span(i, j)][1..] == [];
  }

  // ---- what the cut leaves of a tree ----------------------------------------------------------------

  /** The text left of an argument that is kept. */
  function Stripped(ch: Chars, keywords: set<string>, arg: Arg): string
    decreases arg, 1
  {
    match arg
    case Node(name, gap, round, items) => name + (gap + Bracketed(round, StrippedItems(ch, keywords, items)))
    case _ => Print(arg)
  }

  /**
   * The text left of a node's arguments. A named one takes the comma before it; if it
   * comes first, the comma and the whitespace after it, and leaves its own whitespace.
   */
  function StrippedItems(ch: Chars, keywords: set<string>, items: seq<Item>): string
    decreases items, 0
  {
    if items == [] then ""
    else if !Kept(ch, keywords, items[0].arg) && |items| <= 2 then
      items[0].pad + if |items| == 2 then AfterCut(ch, keywords, items[1]) else ""
    else
      StrippedItems(ch, keywords, items[..|items| - 1]) + Left(ch, keywords, items[|items| - 1], |items| == 1)
  }

  /** What is left of a second argument after the cut of the first. */
  function AfterCut(ch: Chars, keywords: set<string>, item: Item): string
    decreases item, 2
  {
    if !Kept(ch, keywords, item.arg) then ""
    else
      match item.arg
      case Bare(word) => word[SpaceEnd(ch, word, 0)..]
      case _ => Stripped(ch, keywords, item.arg)
  }

  /** What is left of an argument that no cut before it reaches. */
  function Left(ch: Chars, keywords: set<string>, item: Item, first: bool): string
    decreases item, 2
  {
    if Kept(ch, keywords, item.arg) then Pad(item, first) + Stripped(ch, keywords, item.arg) else ""
  }

  function Pad(item: Item, first: bool): string {
    (if first then "" else ",") + item.pad
  }

  // ---- where the spans are ----------------------------------------------------------------------

  lemma {:induction false} SpansWithin(ch: Chars, keywords: set<string>, arg: Arg, i: nat, end: nat)
    requires end == i + |Print(arg)|
    ensures Within(SpansOf(ch, keywords, arg, i), i, end)
    decreases arg, 1
  {
    if arg.Node? {
      PrintLength(arg);
      ItemsWithin(ch, keywords, arg.items, BracketAt(arg, i) + 1, Reach(ch, arg.items), end - 1);
    }
  }

  /** The reach of the node is that of its first arguments, unless there is just one of them. */
  ghost predicate Reaches(ch: Chars, keywords: set<string>, items: seq<Item>, reach: nat) {
    items != [] && !Kept(ch, keywords, items[0].arg) ==> reach == Reach(ch, items)
  }

  lemma {:induction false} ItemLength(item: Item, first: bool)
    ensures |PrintItem(item, first)| == Comma(first) + |item.pad| + |Print(item.arg)|
  {
  }

  lemma {:induction false} TwoLengths(items: seq<Item>)
    requires 1 <= |items| <= 2
    ensures PrintItems(items[..|items| - 1]) == if |items| == 1 then "" else PrintItem(items[0], true)
    ensures PrintItems(items) == PrintItems(items[..|items| - 1]) + PrintItem(items[|items| - 1], |items| == 1)
  {
    if |items| == 2 {
      assert items[..1][..0] == [];
      assert PrintItems(items[..1]) == "" + PrintItem(items[0], true);
    }
  }

  lemma {:induction false} ItemsWithin(ch: Chars, keywords: set<string>, items: seq<Item>, i: nat, reach: nat, end: nat)
    requires end == i + |PrintItems(items)| && Reaches(ch, keywords, items, reach)
    ensures Within(SpansOfItems(ch, keywords, items, i, reach), i, end)
    decreases items, 0
  {
    if items != [] {
      var before, last := items[..|items| - 1], items[|items| - 1];
      var j := i + |PrintItems(before)|;
      ItemWithin(ch, keywords, last, |items| == 1, j, reach, end);
      if !Kept(ch, keywords, items[0].arg) && |items| <= 2 {
        TwoWithin(ch, keywords, items, i, reach, j, end);
      } else {
        ItemsWithin(ch, keywords, before, i, reach, j);
      }
      SpansLast(ch, keywords, items, i, reach, j);
    }
  }

  /** The cut of a first argument ends within the second. */
  lemma {:induction false} TwoWithin(ch: Chars, keywords: set<string>, items: seq<Item>, i: nat, reach: nat, j: nat,
                                     end: nat)
    requires 1 <= |items| <= 2 && !Kept(ch, keywords, items[0].arg) && reach == Reach(ch, items)
    requires j == i + |PrintItems(items[..|items| - 1])| && end == i + |PrintItems(items)|
    ensures Within(SpansOfItems(ch, keywords, items[..|items| - 1], i, reach), i, end)
    ensures i + |PrintItem(items[0], true)| + reach <= end
  {
    TwoLengths(items);
    ItemLength(items[0], true);
    if |items| == 2 {
      ItemLength(items[1], false);
      OneSpan(ch, keywords, items[..1], i, reach);
    }
  }

  lemma {:induction false} OneSpan(ch: Chars, keywords: set<string>, items: seq<Item>, i: nat, reach: nat)
    requires |items| == 1 && !Kept(ch, keywords, items[0].arg)
    ensures SpansOfItems(ch, keywords, items, i, reach)
            == [Span(i + |items[0].pad|, i + |PrintItem(items[0], true)| + reach)]
  {
    assert items[..0] == [];
  }

  lemma {:induction false} ItemWithin(ch: Chars, keywords: set<string>, item: Item, first: bool, i: nat, reach: nat,
                                      end: nat)
    requires end == i + |PrintItem(item, first)| && (first && !Kept(ch, keywords, item.arg) ==> reach == 0)
    ensures Within(SpansOfItem(ch, keywords, item, first, i, reach), i, end)
    decreases item, 2
  {
    ItemLength(item, first);
    if Kept(ch, keywords, item.arg) {
      SpansWithin(ch, keywords, item.arg, i + Comma(first) + |item.pad|, end);
    }
  }

  // ---- what is left -----------------------------------------------------------------------------

  /** An argument that is kept leaves what is left of its arguments, in its brackets. */
  lemma {:induction false} KeepsArg(ch: Chars, keywords: set<string>, s: string, i: nat, arg: Arg, end: nat)
    requires At(s, i, Print(arg)) && end == i + |Print(arg)|
    ensures end <= |s| && Within(SpansOf(ch, keywords, arg, i), i, end)
    ensures Keep(s, SpansOf(ch, keywords, arg, i), i, end) == Stripped(ch, keywords, arg)
    decreases arg, 1
  {
    SpansWithin(ch, keywords, arg, i, end);
    if arg.Node? {
      KeepsNode(ch, keywords, s, i, arg, BracketAt(arg, i) + 1, end);
    } else {
      AtSlice(s, i, Print(arg));
      KeepNothing(s, i, end);
    }
  }

  function Head(arg: Arg): string
    requires arg.Node?
  {
    arg.name + (arg.gap + Open(arg.round))
  }

  /** What is between a node's head and its closing bracket. */
  lemma {:induction false} HeadSplits(arg: Arg, inner: string)
    requires arg.Node?
    ensures arg.name + (arg.gap + Bracketed(arg.round, inner)) == Head(arg) + (inner + Close(arg.round))
    ensures |Head(arg)| == |arg.name| + |arg.gap| + 1 && |Close(arg.round)| == 1
  {
    var tail := inner + Close(arg.round);
    Assoc(arg.gap, Open(arg.round), tail);
    Assoc(arg.name, arg.gap + Open(arg.round), tail);
  }

  lemma SlicesOf(s: string, i: nat, a: string, b: string, c: string)
    requires At(s, i, a + (b + c))
    ensures At(s, i + |a|, b) && i + |a| + |b| + |c| <= |s|
    ensures s[i..i + |a|] == a && s[i + |a| + |b|..i + |a| + |b| + |c|] == c
  {
    AtParts(s, i, a, b + c);
    AtParts(s, i + |a|, b, c);
    AtSlice(s, i, a);
    AtSlice(s, i + |a| + |b|, c);
  }

  /** The text before a node's items, and after them. */
  lemma {:induction false} NodeSlices(s: string, i: nat, arg: Arg, q: nat, end: nat)
    requires arg.Node? && At(s, i, Print(arg)) && end == i + |Print(arg)| && q == BracketAt(arg, i) + 1
    ensures end <= |s| && i <= q <= end - 1 == q + |PrintItems(arg.items)|
    ensures At(s, q, PrintItems(arg.items))
    ensures s[i..q] == Head(arg) && s[end - 1..end] == Close(arg.round)
  {
    HeadSplits(arg, PrintItems(arg.items));
    SlicesOf(s, i, Head(arg), PrintItems(arg.items), Close(arg.round));
  }

  lemma {:induction false} KeepsNode(ch: Chars, keywords: set<string>, s: string, i: nat, arg: Arg, q: nat, end: nat)
    requires arg.Node? && At(s, i, Print(arg)) && end == i + |Print(arg)| && q == BracketAt(arg, i) + 1
    requires end <= |s| && Within(SpansOf(ch, keywords, arg, i), i, end)
    ensures Keep(s, SpansOf(ch, keywords, arg, i), i, end) == Stripped(ch, keywords, arg)
    decreases arg, 0
  {
    NodeSlices(s, i, arg, q, end);
    SpansOfNode(ch, keywords, arg, i);
    KeepsItems(ch, keywords, s, q, arg.items, Reach(ch, arg.items), end - 1);
    NodeJoins(ch, keywords, s, i, arg, SpansOfItems(ch, keywords, arg.items, q, Reach(ch, arg.items)), q, end);
  }

  lemma {:induction false} NodeJoins(ch: Chars, keywords: set<string>, s: string, i: nat, arg: Arg, spans: seq<Span>,
                                     q: nat, end: nat)
    requires arg.Node? && i <= q < end <= |s| && s[i..q] == Head(arg) && s[end - 1..end] == Close(arg.round)
    requires Within(spans, q, end - 1) && Keep(s, spans, q, end - 1) == StrippedItems(ch, keywords, arg.items)
    ensures Within(spans, 0, end) && Keep(s, spans, i, end) == Stripped(ch, keywords, arg)
  {
    KeepBetween(s, spans, i, q, end - 1, end);
    HeadSplits(arg, StrippedItems(ch, keywords, arg.items));
  }

  /** Text around the spans stays. */
  lemma KeepBetween(s: string, spans: seq<Span>, i: nat, q: nat, r: nat, end: nat)
    requires i <= q && Within(spans, q, r) && r <= end <= |s|
    ensures Within(spans, 0, end) && Keep(s, spans, i, end) == s[i..q] + (Keep(s, spans, q, r) + s[r..end])
  {
    KeepNothing(s, r, end);
    KeepConcat(s, spans, [], q, r, end);
    assert spans + [] == spans;
    KeepFrom(s, spans, i, q, end);
  }

  lemma {:induction false} KeepsItems(ch: Chars, keywords: set<string>, s: string, i: nat, items: seq<Item>, reach: nat,
                                      end: nat)
    requires At(s, i, PrintItems(items)) && end == i + |PrintItems(items)| && Reaches(ch, keywords, items, reach)
    ensures end <= |s| && Within(SpansOfItems(ch, keywords, items, i, reach), i, end)
    ensures Keep(s, SpansOfItems(ch, keywords, items, i, reach), i, end) == StrippedItems(ch, keywords, items)
    decreases items, 1
  {
    ItemsWithin(ch, keywords, items, i, reach, end);
    if items != [] {
      var before, last := items[..|items| - 1], items[|items| - 1];
      var j := i + |PrintItems(before)|;
      ItemsAt(s, i, items, end, j);
      if !Kept(ch, keywords, items[0].arg) && |items| <= 2 {
        TwoLengths(items);
        if |items| == 1 {
          KeepsOne(ch, keywords, s, i, items, end);
        } else {
          KeepsTwo(ch, keywords, s, i, items, reach, j, end);
        }
      } else {
        KeepsItems(ch, keywords, s, i, before, reach, j);
        KeepsItem(ch, keywords, s, j, last, |items| == 1, reach, end);
        SpansLast(ch, keywords, items, i, reach, j);
        KeepConcat(s, SpansOfItems(ch, keywords, before, i, reach),
                   SpansOfItem(ch, keywords, last, |items| == 1, j, reach), i, j, end);
      }
    }
  }

  /** What is left of a first argument that is cut, where it is the only one. */
  lemma {:induction false} KeepsOne(ch: Chars, keywords: set<string>, s: string, i: nat, items: seq<Item>, end: nat)
    requires |items| == 1 && !Kept(ch, keywords, items[0].arg) && At(s, i, PrintItem(items[0], true))
    requires end == i + |PrintItem(items[0], true)|
    ensures end <= |s| && Within(SpansOfItems(ch, keywords, items, i, 0), 0, end)
    ensures Keep(s, SpansOfItems(ch, keywords, items, i, 0), i, end) == items[0].pad
  {
    OneSpan(ch, keywords, items, i, 0);
    assert [Span(i + |items[0].pad|, end)] + [] == [Span(i + |items[0].pad|, end)];
    LoneLeft(s, i, items[0], end);
  }

  /** And where there is a second. */
  lemma {:induction false} KeepsTwo(ch: Chars, keywords: set<string>, s: string, i: nat, items: seq<Item>, reach: nat,
                                    j: nat, end: nat)
    requires |items| == 2 && !Kept(ch, keywords, items[0].arg) && reach == 1 + Lead(ch, items[1])
    requires At(s, i, PrintItem(items[0], true)) && j == i + |PrintItem(items[0], true)|
    requires At(s, j, PrintItem(items[1], false)) && end == j + |PrintItem(items[1], false)|
    ensures end <= |s| && Within(SpansOfItems(ch, keywords, items, i, reach), 0, end)
    ensures Keep(s, SpansOfItems(ch, keywords, items, i, reach), i, end)
            == items[0].pad + AfterCut(ch, keywords, items[1])
    decreases items, 0
  {
    TwoSpans(ch, keywords, items, i, reach, j);
    SecondLeft(ch, keywords, s, j, items[1], reach, end);
    FirstLeft(s, i, items[0], SpansOfItem(ch, keywords, items[1], false, j, reach), j + reach, end,
              AfterCut(ch, keywords, items[1]), SpansOfItems(ch, keywords, items, i, reach));
  }

  lemma {:induction false} TwoSpans(ch: Chars, keywords: set<string>, items: seq<Item>, i: nat, reach: nat, j: nat)
    requires |items| == 2 && !Kept(ch, keywords, items[0].arg) && j == i + |PrintItem(items[0], true)|
    ensures SpansOfItems(ch, keywords, items, i, reach)
            == [Span(i + |items[0].pad|, j + reach)] + SpansOfItem(ch, keywords, items[1], false, j, reach)
  {
    TwoLengths(items);
    OneSpan(ch, keywords, items[..1], i, reach);
    SpansLast(ch, keywords, items, i, reach, j);
  }

  lemma {:induction false} LoneLeft(s: string, i: nat, item: Item, end: nat)
    requires At(s, i, PrintItem(item, true)) && end == i + |PrintItem(item, true)|
    ensures end <= |s| && Within([Span(i + |item.pad|, end)] + [], 0, end)
    ensures Keep(s, [Span(i + |item.pad|, end)] + [], i, end) == item.pad
  {
    ItemLength(item, true);
    KeepNothing(s, end, end);
    FirstLeft(s, i, item, [], end, end, "", [Span(i + |item.pad|, end)] + []);
  }

  /** The whitespace before a first argument stays. */
  lemma {:induction false} FirstLeft(s: string, i: nat, item: Item, rest: seq<Span>, cut: nat, end: nat, left: string,
                                     all: seq<Span>)
    requires At(s, i, PrintItem(item, true)) && i + |PrintItem(item, true)| <= cut <= end <= |s|
    requires Within(rest, i, end) && Leaves(s, rest, cut, end, left)
    requires all == [Span(i + |item.pad|, cut)] + rest
    ensures Within(all, 0, end) && Keep(s, all, i, end) == item.pad + left
  {
    ItemAt(s, i, item, true);
    AtSlice(s, i, item.pad);
    OneCut(s, rest, i, i + |item.pad|, cut, end, all);
  }

  lemma OneCut(s: string, rest: seq<Span>, i: nat, p: nat, cut: nat, end: nat, all: seq<Span>)
    requires i <= p <= cut <= end <= |s| && Within(rest, i, end) && all == [Span(p, cut)] + rest
    ensures Within(all, 0, end) && Keep(s, all, i, end) == s[i..p] + Keep(s, rest, cut, end)
  {
    assert all[1..] == rest;
  }

  /** What is left of a second argument, after the cut of the first. */
  lemma {:induction false} SecondLeft(ch: Chars, keywords: set<string>, s: string, j: nat, item: Item, reach: nat,
                                      end: nat)
    requires At(s, j, PrintItem(item, false)) && end == j + |PrintItem(item, false)| && reach == 1 + Lead(ch, item)
    ensures end <= |s| && j + reach <= end && Within(SpansOfItem(ch, keywords, item, false, j, reach), j, end)
    ensures Leaves(s, SpansOfItem(ch, keywords, item, false, j, reach), j + reach, end, AfterCut(ch, keywords, item))
    decreases item, 3
  {
    ItemAt(s, j, item, false);
    ItemLength(item, false);
    if Kept(ch, keywords, item.arg) {
      SpansOfKept(ch, keywords, item, j, reach, j + 1 + |item.pad|);
      SecondKept(ch, keywords, s, item, SpansOfItem(ch, keywords, item, false, j, reach), j + 1 + |item.pad|, j + reach,
                 end);
    } else {
      SecondCut(ch, keywords, s, j, item, reach, end);
    }
  }

  lemma {:induction false} SecondKept(ch: Chars, keywords: set<string>, s: string, item: Item, spans: seq<Span>, p: nat,
                                      from: nat, end: nat)
    requires Kept(ch, keywords, item.arg) && At(s, p, Print(item.arg)) && end == p + |Print(item.arg)|
    requires spans == SpansOf(ch, keywords, item.arg, p) && |item.pad| <= p && from == p - |item.pad| + Lead(ch, item)
    ensures end <= |s| && from <= end && Within(spans, p, end)
    ensures Leaves(s, spans, from, end, AfterCut(ch, keywords, item))
    decreases item, 2
  {
    SpansWithin(ch, keywords, item.arg, p, end);
    KeptAfterCut(ch, keywords, s, item, spans, p, from, end);
  }

  lemma {:induction false} SpansOfKept(ch: Chars, keywords: set<string>, item: Item, j: nat, reach: nat, p: nat)
    requires Kept(ch, keywords, item.arg) && p == j + 1 + |item.pad|
    ensures SpansOfItem(ch, keywords, item, false, j, reach) == SpansOf(ch, keywords, item.arg, p)
  {
  }

  lemma {:induction false} SecondCut(ch: Chars, keywords: set<string>, s: string, j: nat, item: Item, reach: nat,
                                     end: nat)
    requires !Kept(ch, keywords, item.arg) && reach == 1 + Lead(ch, item)
    requires At(s, j, PrintItem(item, false)) && end == j + |PrintItem(item, false)|
    ensures end <= |s| && j + reach <= end && Within(SpansOfItem(ch, keywords, item, false, j, reach), j, end)
    ensures Leaves(s, SpansOfItem(ch, keywords, item, false, j, reach), j + reach, end, AfterCut(ch, keywords, item))
  {
    ItemLength(item, false);
    CutTwice(s, j, j + reach, end);
  }

  lemma CutTwice(s: string, j: nat, cut: nat, end: nat)
    requires j <= cut <= end <= |s|
    ensures Within([Span(j, end)], 0, end) && Keep(s, [Span(j, end)], cut, end) == ""
  {
    assert [Span(j, end)][1..] == [];
  }

  lemma {:induction false} KeptAfterCut(ch: Chars, keywords: set<string>, s: string, item: Item, spans: seq<Span>,
                                        p: nat, from: nat, end: nat)
    requires Kept(ch, keywords, item.arg) && At(s, p, Print(item.arg)) && end == p + |Print(item.arg)|
    requires spans == SpansOf(ch, keywords, item.arg, p) && from == p - |item.pad| + Lead(ch, item)
    ensures end <= |s| && from <= end && Within(spans, 0, end)
    ensures Leaves(s, spans, from, end, AfterCut(ch, keywords, item))
    decreases item, 1
  {
    if item.arg.Bare? {
      WordLeft(s, p, item.arg.word, SpaceEnd(ch, item.arg.word, 0), end);
      KeepNothing(s, from, end);
    } else {
      KeepsArg(ch, keywords, s, p, item.arg, end);
      assert from == p && AfterCut(ch, keywords, item) == Stripped(ch, keywords, item.arg);
    }
  }

  lemma WordLeft(s: string, p: nat, word: string, lead: nat, end: nat)
    requires At(s, p, word) && end == p + |word| && lead <= |word|
    ensures end <= |s| && s[p + lead..end] == word[lead..]
  {
    AtSlice(s, p, word);
    assert s[p..end][lead..] == s[p + lead..end];
  }

  lemma {:induction false} KeepsItem(ch: Chars, keywords: set<string>, s: string, i: nat, item: Item, first: bool,
                                     reach: nat, end: nat)
    requires first ==> Kept(ch, keywords, item.arg)
    requires At(s, i, PrintItem(item, first)) && end == i + |PrintItem(item, first)|
    ensures end <= |s| && Within(SpansOfItem(ch, keywords, item, first, i, reach), i, end)
    ensures Keep(s, SpansOfItem(ch, keywords, item, first, i, reach), i, end) == Left(ch, keywords, item, first)
    decreases item, 3
  {
    ItemWithin(ch, keywords, item, first, i, reach, end);
    if Kept(ch, keywords, item.arg) {
      KeepsKept(ch, keywords, s, i, item, first, i + Comma(first) + |item.pad|, end);
    } else {
      KeepNothing(s, i, end);
    }
  }

  lemma {:induction false} KeepsKept(ch: Chars, keywords: set<string>, s: string, i: nat, item: Item, first: bool,
                                     p: nat, end: nat)
    requires p == i + Comma(first) + |item.pad|
    requires At(s, i, PrintItem(item, first)) && end == i + |PrintItem(item, first)|
    ensures end <= |s| && Within(SpansOf(ch, keywords, item.arg, p), 0, end)
    ensures Keep(s, SpansOf(ch, keywords, item.arg, p), i, end) == Pad(item, first) + Stripped(ch, keywords, item.arg)
    decreases item, 2
  {
    ItemAt(s, i, item, first);
    PadSlice(s, i, item, first, p);
    KeepsArg(ch, keywords, s, p, item.arg, end);
    KeepFrom(s, SpansOf(ch, keywords, item.arg, p), i, p, end);
  }

  lemma {:induction false} PadSlice(s: string, i: nat, item: Item, first: bool, p: nat)
    requires At(s, i, PrintItem(item, first)) && p == i + Comma(first) + |item.pad|
    ensures p <= |s| && s[i..p] == Pad(item, first)
  {
    Assoc(if first then "" else ",", item.pad, Print(item.arg));
    AtParts(s, i, Pad(item, first), Print(item.arg));
    AtSlice(s, i, Pad(item, first));
  }

  /** Stripping a printed tree whose root is kept leaves `Stripped` of the tree. */
  lemma StripsTo(ch: Chars, keywords: set<string>, root: Arg)
    requires ch.Valid() && Proper(ch, root) && Kept(ch, keywords, root)
    ensures StripIds(ch, keywords, Print(root)) == Some(Stripped(ch, keywords, root))
  {
    var s := Print(root);
    var spans := SpansOf(ch, keywords, root, 0);
    AtSlice(s, 0, s);
    assert s[0..0 + |s|] == s;
    ScansArg(ch, keywords, s, 0, root, |s|);
    assert spans + [] == spans;
    KeepsArg(ch, keywords, s, 0, root, |s|);
    CutKeeps(s, spans, 0);
  }
}

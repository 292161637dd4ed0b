/**
 * When stripping a printed tree prints the tree without its named nodes
 * (scripts/gen_wkt_vectors.py:141-196): exactly where, in every kept node, the
 * whitespace of a first argument that is cut is that of what comes to its place.
 */
module WktExact {
  import opened Basics
  import opened WktScan
  import opened WktTree
  import opened WktStrip

  predicate AllNamed(ch: Chars, keywords: set<string>, items: seq<Item>) {
    forall k :: 0 <= k < |items| ==> !Kept(ch, keywords, items[k].arg)
  }

  /** The whitespace an argument begins with. */
  function LeadText(ch: Chars, item: Item): string {
    item.pad + if item.arg.Bare? then item.arg.word[..SpaceEnd(ch, item.arg.word, 0)] else ""
  }

  /**
   * A node's first argument is kept; or all are named, and no whitespace is before
   * them; or it alone is named and has the whitespace of the second.
   */
  predicate LeadsFit(ch: Chars, keywords: set<string>, items: seq<Item>) {
    || items == []
    || Kept(ch, keywords, items[0].arg)
    || (AllNamed(ch, keywords, items) && items[0].pad == "")
    || (|items| > 1 && Kept(ch, keywords, items[1].arg) && items[0].pad == LeadText(ch, items[1]))
  }

  /** So it is for a node and for the kept nodes below it. */
  predicate Fits(ch: Chars, keywords: set<string>, arg: Arg)
    decreases arg
  {
    arg.Node? ==>
      && LeadsFit(ch, keywords, arg.items)
      && forall k :: 0 <= k < |arg.items| && Kept(ch, keywords, arg.items[k].arg) ==>
           Fits(ch, keywords, arg.items[k].arg)
  }

  predicate AllFit(ch: Chars, keywords: set<string>, items: seq<Item>) {
    && LeadsFit(ch, keywords, items)
    && forall k :: 0 <= k < |items| && Kept(ch, keywords, items[k].arg) ==> Fits(ch, keywords, items[k].arg)
  }

  // ---- the tree without the named nodes, printed ----------------------------------------------------

  lemma {:induction false} NothingWithout(ch: Chars, keywords: set<string>, items: seq<Item>)
    ensures WithoutItems(ch, keywords, items) == [] <==> AllNamed(ch, keywords, items)
  {
    if items != [] {
      var before := items[..|items| - 1];
      NothingWithout(ch, keywords, before);
      if AllNamed(ch, keywords, before) && !Kept(ch, keywords, items[|items| - 1].arg) {
        forall k | 0 <= k < |items| ensures !Kept(ch, keywords, items[k].arg) {
          assert k < |before| ==> items[k] == before[k];
        }
      }
    }
  }

  function Want(ch: Chars, keywords: set<string>, items: seq<Item>): string {
    PrintItems(WithoutItems(ch, keywords, items))
  }

  lemma {:induction false} PrintMore(left: seq<Item>, item: Item)
    ensures PrintItems(left + [item]) == PrintItems(left) + (Pad(item, left == []) + Print(item.arg))
  {
    assert (left + [item])[..|left|] == left;
    Assoc(if left == [] then "" else ",", item.pad, Print(item.arg));
  }

  lemma {:induction false} WithoutMore(ch: Chars, keywords: set<string>, items: seq<Item>)
    requires items != []
    ensures var last := items[|items| - 1];
            WithoutItems(ch, keywords, items)
            == WithoutItems(ch, keywords, items[..|items| - 1])
               + if Kept(ch, keywords, last.arg) then [Item(last.pad, Without(ch, keywords, last.arg))] else []
  {
  }

  /** A kept argument is printed with a comma unless it is the first that is kept. */
  lemma {:induction false} WantMore(ch: Chars, keywords: set<string>, items: seq<Item>)
    requires items != []
    ensures var before, last := items[..|items| - 1], items[|items| - 1];
            Want(ch, keywords, items)
            == Want(ch, keywords, before)
               + if Kept(ch, keywords, last.arg)
                 then Pad(last, AllNamed(ch, keywords, before)) + Print(Without(ch, keywords, last.arg))
                 else ""
  {
    var before, last := items[..|items| - 1], items[|items| - 1];
    var left := WithoutItems(ch, keywords, before);
    NothingWithout(ch, keywords, before);
    WithoutMore(ch, keywords, items);
    if Kept(ch, keywords, last.arg) {
      PrintMore(left, Item(last.pad, Without(ch, keywords, last.arg)));
    } else {
      assert left + [] == left && PrintItems(left) + "" == PrintItems(left);
    }
  }

  lemma {:induction false} WantNothing(ch: Chars, keywords: set<string>, items: seq<Item>)
    requires AllNamed(ch, keywords, items)
    ensures Want(ch, keywords, items) == ""
  {
    NothingWithout(ch, keywords, items);
  }

  /** A node of two arguments, of which the second is kept. */
  lemma {:induction false} WantSecond(ch: Chars, keywords: set<string>, items: seq<Item>)
    requires |items| == 2 && !Kept(ch, keywords, items[0].arg) && Kept(ch, keywords, items[1].arg)
    ensures Want(ch, keywords, items) == items[1].pad + Print(Without(ch, keywords, items[1].arg))
  {
    WantMore(ch, keywords, items);
    WantNothing(ch, keywords, items[..1]);
  }

  // ---- it suffices --------------------------------------------------------------------------------------

  /** A second argument comes to the place of the first. */
  lemma {:induction false} SecondFits(ch: Chars, keywords: set<string>, item: Item)
    requires Kept(ch, keywords, item.arg)
    requires Stripped(ch, keywords, item.arg) == Print(Without(ch, keywords, item.arg))
    ensures LeadText(ch, item) + AfterCut(ch, keywords, item) == item.pad + Print(Without(ch, keywords, item.arg))
  {
    if item.arg.Bare? {
      var word, n := item.arg.word, SpaceEnd(ch, item.arg.word, 0);
      assert word == word[..n] + word[n..];
      Assoc(item.pad, word[..n], word[n..]);
    }
  }

  lemma {:induction false} FitsSuffices(ch: Chars, keywords: set<string>, arg: Arg)
    requires Fits(ch, keywords, arg)
    ensures Stripped(ch, keywords, arg) == Print(Without(ch, keywords, arg))
    decreases arg, 0
  {
    if arg.Node? {
      AllFitSuffices(ch, keywords, arg.items);
    }
  }

  lemma {:induction false} AllFitSuffices(ch: Chars, keywords: set<string>, items: seq<Item>)
    requires AllFit(ch, keywords, items)
    ensures StrippedItems(ch, keywords, items) == Want(ch, keywords, items)
    decreases items, 1
  {
    if items == [] {
    } else if !Kept(ch, keywords, items[0].arg) && |items| <= 2 {
      TwoFitSuffice(ch, keywords, items);
    } else {
      var before, last := items[..|items| - 1], items[|items| - 1];
      FitsBefore(ch, keywords, items);
      AllFitSuffices(ch, keywords, before);
      if Kept(ch, keywords, last.arg) {
        FitsSuffices(ch, keywords, last.arg);
      }
      WantMore(ch, keywords, items);
    }
  }

  /** What fits still does without the last argument, and a kept last one is not the first kept. */
  lemma {:induction false} FitsBefore(ch: Chars, keywords: set<string>, items: seq<Item>)
    requires items != [] && AllFit(ch, keywords, items) && (Kept(ch, keywords, items[0].arg) || |items| > 2)
    ensures AllFit(ch, keywords, items[..|items| - 1])
    ensures Kept(ch, keywords, items[|items| - 1].arg) && |items| > 1 ==> !AllNamed(ch, keywords, items[..|items| - 1])
  {
    var before := items[..|items| - 1];
    if |items| > 1 {
      assert before[0] == items[0];
      if |items| > 2 {
        assert before[1] == items[1];
      }
    }
  }

  lemma {:induction false} TwoFitSuffice(ch: Chars, keywords: set<string>, items: seq<Item>)
    requires 1 <= |items| <= 2 && !Kept(ch, keywords, items[0].arg) && AllFit(ch, keywords, items)
    ensures StrippedItems(ch, keywords, items) == Want(ch, keywords, items)
    decreases items, 0
  {
    if |items| == 2 && Kept(ch, keywords, items[1].arg) {
      FitsSuffices(ch, keywords, items[1].arg);
      SecondFits(ch, keywords, items[1]);
      WantSecond(ch, keywords, items);
    } else {
      WantNothing(ch, keywords, items);
    }
  }

  // ---- and it is needed ---------------------------------------------------------------------------------

  lemma SameEnd(a: string, b: string, end: string)
    requires a + end == b + end
    ensures a == b
  {
    assert |a| == |b|;
    assert a == (a + end)[..|a|] && b == (b + end)[..|b|];
  }

  predicate EndsOpen(u: string) {
    u != "" && Opens(u[|u| - 1])
  }

  lemma CharThere(u: string, a: string, k: nat)
    requires k < |u|
    ensures (u + a)[k] == u[k]
  {
  }

  lemma SpaceThere(ch: Chars, u: string, a: string, k: nat)
    requires Spaces(ch, a) && |u| <= k < |u + a|
    ensures ch.space((u + a)[k])
  {
    assert (u + a)[k] == a[k - |u|];
  }

  /** After an opening bracket, whitespace is what it is. */
  lemma SameSpaces(ch: Chars, u: string, v: string, a: string, b: string)
    requires ch.Valid() && EndsOpen(u) && EndsOpen(v) && Spaces(ch, a) && Spaces(ch, b) && u + a == v + b
    ensures u == v && a == b
  {
    SpecialStops(ch, u[|u| - 1]);
    SpecialStops(ch, v[|v| - 1]);
    if |u| < |v| {
      CharThere(v, b, |v| - 1);
      SpaceThere(ch, u, a, |v| - 1);
      assert false;
    }
    if |v| < |u| {
      CharThere(u, a, |u| - 1);
      SpaceThere(ch, v, b, |u| - 1);
      assert false;
    }
    assert u == (u + a)[..|u|] && v == (v + b)[..|v|];
    assert a == (u + a)[|u|..] && b == (v + b)[|v|..];
  }

  lemma {:induction false} LeadIsSpace(ch: Chars, word: string, k: nat)
    requires k <= |word|
    ensures forall i :: k <= i < SpaceEnd(ch, word, k) ==> ch.space(word[i])
    decreases |word| - k
  {
    if k < |word| && ch.space(word[k]) {
      LeadIsSpace(ch, word, k + 1);
    }
  }

  lemma {:induction false} LeadTextIsSpace(ch: Chars, item: Item)
    requires Spaces(ch, item.pad)
    ensures Spaces(ch, LeadText(ch, item))
  {
    if item.arg.Bare? {
      LeadIsSpace(ch, item.arg.word, 0);
    }
  }

  /** Texts that end in the same argument, stripped and printed without: it fits, and they begin the same. */
  lemma {:induction false} FitsIsNeeded(ch: Chars, keywords: set<string>, arg: Arg, u: string, v: string)
    requires ch.Valid() && Proper(ch, arg)
    requires u + Stripped(ch, keywords, arg) == v + Print(Without(ch, keywords, arg))
    ensures u == v && Fits(ch, keywords, arg)
    decreases arg, 0
  {
    if arg.Node? {
      var head := Head(arg);
      Around(arg, StrippedItems(ch, keywords, arg.items), Want(ch, keywords, arg.items), u, v);
      AllFitIsNeeded(ch, keywords, arg.items, u + head, v + head);
      SameEnd(u, v, head);
    } else {
      SameEnd(u, v, Print(arg));
    }
  }

  /** The head and the closing bracket of a node are the same on both sides. */
  lemma {:induction false} Around(arg: Arg, a: string, b: string, u: string, v: string)
    requires arg.Node?
    requires u + (arg.name + (arg.gap + Bracketed(arg.round, a)))
             == v + (arg.name + (arg.gap + Bracketed(arg.round, b)))
    ensures u + Head(arg) + a == v + Head(arg) + b
    ensures EndsOpen(u + Head(arg)) && EndsOpen(v + Head(arg))
  {
    HeadSplits(arg, a);
    HeadSplits(arg, b);
    Assoc(u, Head(arg), a + Close(arg.round));
    Assoc(v, Head(arg), b + Close(arg.round));
    Assoc(u + Head(arg), a, Close(arg.round));
    Assoc(v + Head(arg), b, Close(arg.round));
    SameEnd(u + Head(arg) + a, v + Head(arg) + b, Close(arg.round));
  }

  lemma {:induction false} AllFitIsNeeded(ch: Chars, keywords: set<string>, items: seq<Item>, u: string, v: string)
    requires ch.Valid() && ItemsProper(ch, items) && EndsOpen(u) && EndsOpen(v)
    requires u + StrippedItems(ch, keywords, items) == v + Want(ch, keywords, items)
    ensures u == v && AllFit(ch, keywords, items)
    decreases items, 2
  {
    if items == [] {
      assert u + "" == u && v + "" == v;
    } else if !Kept(ch, keywords, items[0].arg) && |items| <= 2 {
      TwoFitIsNeeded(ch, keywords, items, u, v);
    } else {
      var before, last := items[..|items| - 1], items[|items| - 1];
      WantMore(ch, keywords, items);
      if Kept(ch, keywords, last.arg) {
        LastFits(ch, keywords, items, StrippedItems(ch, keywords, before), Want(ch, keywords, before), u, v);
      } else {
        assert StrippedItems(ch, keywords, before) + "" == StrippedItems(ch, keywords, before);
        assert Want(ch, keywords, before) + "" == Want(ch, keywords, before);
      }
      AllFitIsNeeded(ch, keywords, before, u, v);
      FitsAfter(ch, keywords, items);
    }
  }

  lemma {:induction false} FitsAfter(ch: Chars, keywords: set<string>, items: seq<Item>)
    requires items != [] && (Kept(ch, keywords, items[0].arg) || |items| > 2)
    requires AllFit(ch, keywords, items[..|items| - 1])
    requires var last := items[|items| - 1];
             Kept(ch, keywords, last.arg) ==>
               && Fits(ch, keywords, last.arg)
               && (|items| > 1 ==> !AllNamed(ch, keywords, items[..|items| - 1]))
    ensures AllFit(ch, keywords, items)
  {
    var before := items[..|items| - 1];
    forall k | 0 <= k < |items| && Kept(ch, keywords, items[k].arg) ensures Fits(ch, keywords, items[k].arg) {
      assert k < |before| ==> items[k] == before[k];
    }
    if |items| > 2 {
      assert before[0] == items[0] && before[1] == items[1];
      if AllNamed(ch, keywords, before) {
        forall k | 0 <= k < |items| ensures !Kept(ch, keywords, items[k].arg) {
          assert k < |before| ==> items[k] == before[k];
        }
      }
    }
  }

  /** A kept last argument has its comma on both sides, so it is not the first that is kept. */
  lemma {:induction false} LastFits(ch: Chars, keywords: set<string>, items: seq<Item>, a: string, b: string, u: string,
                                    v: string)
    requires ch.Valid() && items != [] && EndsOpen(v)
    requires Kept(ch, keywords, items[0].arg) || |items| > 2
    requires var before, last := items[..|items| - 1], items[|items| - 1];
             && Proper(ch, last.arg) && Kept(ch, keywords, last.arg)
             && b == Want(ch, keywords, before)
             && u + (a + (Pad(last, |items| == 1) + Stripped(ch, keywords, last.arg)))
                == v + (b + (Pad(last, AllNamed(ch, keywords, before)) + Print(Without(ch, keywords, last.arg))))
    ensures u + a == v + b
    ensures Fits(ch, keywords, items[|items| - 1].arg)
    ensures |items| > 1 ==> !AllNamed(ch, keywords, items[..|items| - 1])
    decreases items, 1
  {
    var before, last := items[..|items| - 1], items[|items| - 1];
    var p, q := Pad(last, |items| == 1), Pad(last, AllNamed(ch, keywords, before));
    Regroup(u, a, p, Stripped(ch, keywords, last.arg));
    Regroup(v, b, q, Print(Without(ch, keywords, last.arg)));
    FitsIsNeeded(ch, keywords, last.arg, u + a + p, v + b + q);
    if |items| > 1 && AllNamed(ch, keywords, before) {
      WantNothing(ch, keywords, before);
      CommaThere(u + a, v, last.pad);
      assert false;
    }
    SameEnd(u + a, v + b, p);
  }

  lemma Regroup(u: string, a: string, p: string, t: string)
    ensures u + (a + (p + t)) == u + a + p + t
  {
    Assoc(a, p, t);
    Assoc(u, a + p, t);
    Assoc(u, a, p);
  }

  lemma CommaThere(u: string, v: string, pad: string)
    requires u + ("," + pad) == v + "" + ("" + pad)
    ensures v != "" && v[|v| - 1] == ','
  {
    Assoc(u, ",", pad);
    assert v + "" + ("" + pad) == v + pad;
    SameEnd(u + ",", v, pad);
    assert (u + ",")[|u|] == ',';
  }

  lemma {:induction false} TwoFitIsNeeded(ch: Chars, keywords: set<string>, items: seq<Item>, u: string, v: string)
    requires ch.Valid() && 1 <= |items| <= 2 && ItemsProper(ch, items) && EndsOpen(u) && EndsOpen(v)
    requires !Kept(ch, keywords, items[0].arg)
    requires u + StrippedItems(ch, keywords, items) == v + Want(ch, keywords, items)
    ensures u == v && AllFit(ch, keywords, items)
    decreases items, 1
  {
    if |items| == 2 && Kept(ch, keywords, items[1].arg) {
      SecondFit(ch, keywords, items, items[1], u, v);
    } else {
      NamedFit(ch, keywords, items, u, v);
    }
  }

  lemma {:induction false} SecondFit(ch: Chars, keywords: set<string>, items: seq<Item>, second: Item, u: string,
                                     v: string)
    requires ch.Valid() && |items| == 2 && second == items[1] && ItemsProper(ch, items) && EndsOpen(u) && EndsOpen(v)
    requires !Kept(ch, keywords, items[0].arg) && Kept(ch, keywords, second.arg)
    requires u + StrippedItems(ch, keywords, items) == v + Want(ch, keywords, items)
    ensures u == v && items[0].pad == LeadText(ch, second) && Fits(ch, keywords, second.arg)
    decreases items, 0
  {
    WantSecond(ch, keywords, items);
    SecondIsNeeded(ch, keywords, items[0].pad, second, u, v);
  }

  lemma {:induction false} NamedFit(ch: Chars, keywords: set<string>, items: seq<Item>, u: string, v: string)
    requires ch.Valid() && items != [] && ItemsProper(ch, items) && EndsOpen(u) && EndsOpen(v)
    requires AllNamed(ch, keywords, items)
    requires u + StrippedItems(ch, keywords, items) == v + Want(ch, keywords, items)
    ensures u == v && AllFit(ch, keywords, items)
  {
    WantNothing(ch, keywords, items);
    NamedLeaveNothing(ch, keywords, items);
    SameSpaces(ch, u, v, items[0].pad, "");
  }

  lemma {:induction false} SecondIsNeeded(ch: Chars, keywords: set<string>, pad: string, item: Item, u: string,
                                          v: string)
    requires ch.Valid() && Spaces(ch, pad) && Spaces(ch, item.pad) && Proper(ch, item.arg) && EndsOpen(u) && EndsOpen(v)
    requires Kept(ch, keywords, item.arg)
    requires u + (pad + AfterCut(ch, keywords, item)) == v + (item.pad + Print(Without(ch, keywords, item.arg)))
    ensures u == v && pad == LeadText(ch, item) && Fits(ch, keywords, item.arg)
    decreases item
  {
    var lead := LeadText(ch, item);
    Assoc(u, pad, AfterCut(ch, keywords, item));
    LeadTextIsSpace(ch, item);
    if item.arg.Bare? {
      SecondFits(ch, keywords, item);
      Assoc(v, lead, AfterCut(ch, keywords, item));
      SameEnd(u + pad, v + lead, AfterCut(ch, keywords, item));
    } else {
      Assoc(v, item.pad, Print(Without(ch, keywords, item.arg)));
      FitsIsNeeded(ch, keywords, item.arg, u + pad, v + item.pad);
      assert lead == item.pad;
    }
    SameSpaces(ch, u, v, pad, lead);
  }

  /**
   * Stripping commutes with printing exactly where the tree fits: for every tree
   * whose root is kept, the text that is left is the tree without the named nodes,
   * printed, if and only if `Fits` holds.
   */
  lemma StripsPrinted(ch: Chars, keywords: set<string>, root: Arg)
    requires ch.Valid() && Proper(ch, root) && Kept(ch, keywords, root)
    ensures StripIds(ch, keywords, Print(root)) == Some(Print(Without(ch, keywords, root)))
            <==> Fits(ch, keywords, root)
  {
    StripsTo(ch, keywords, root);
    if Fits(ch, keywords, root) {
      FitsSuffices(ch, keywords, root);
    }
    if Stripped(ch, keywords, root) == Print(Without(ch, keywords, root)) {
      FitsIsNeeded(ch, keywords, root, "", "");
    }
  }

  // ---- where it does not ------------------------------------------------------------------------

  lemma {:induction false} NamedLeaveNothing(ch: Chars, keywords: set<string>, items: seq<Item>)
    requires items != [] && AllNamed(ch, keywords, items)
    ensures StrippedItems(ch, keywords, items) == items[0].pad
  {
    if |items| > 2 {
      NamedLeaveNothing(ch, keywords, items[..|items| - 1]);
    }
  }

  lemma {:induction false} CommaStays(ch: Chars, keywords: set<string>, items: seq<Item>)
    requires |items| > 1 && !Kept(ch, keywords, items[0].arg) && !Kept(ch, keywords, items[1].arg)
    requires !AllNamed(ch, keywords, items)
    ensures items[0].pad + "," <= StrippedItems(ch, keywords, items)
  {
    var before, last := items[..|items| - 1], items[|items| - 1];
    assert |items| > 2;
    if AllNamed(ch, keywords, before) {
      NamedLeaveNothing(ch, keywords, before);
      assert Kept(ch, keywords, last.arg);
      Assoc(before[0].pad, ",", last.pad + Stripped(ch, keywords, last.arg));
      Assoc(",", last.pad, Stripped(ch, keywords, last.arg));
    } else {
      CommaStays(ch, keywords, before);
    }
  }

  /** Of two or more named nodes that come first, and a kept argument after them, one comma is left. */
  lemma LeadingNodesLeaveAComma(ch: Chars, keywords: set<string>, root: Arg)
    requires ch.Valid() && root.Node? && Proper(ch, root) && Kept(ch, keywords, root)
    requires |root.items| > 1 && !Kept(ch, keywords, root.items[0].arg) && !Kept(ch, keywords, root.items[1].arg)
    requires !AllNamed(ch, keywords, root.items)
    ensures var text := StripIds(ch, keywords, Print(root));
            text.Some? && Head(root) + (root.items[0].pad + ",") <= text.value
  {
    StripsTo(ch, keywords, root);
    CommaStays(ch, keywords, root.items);
    HeadSplits(root, StrippedItems(ch, keywords, root.items));
  }

  lemma CutsTwo(s: string)
    requires s == "X[A[],A[],Y]"
    ensures Cut(s, [Span(2, 6), Span(5, 9)], 0) == "X[,Y]"
  {
    assert [Span(2, 6), Span(5, 9)][1..] == [Span(5, 9)] && [Span(5, 9)][1..] == [];
    assert Cut(s, [], 9) == s[9..] == ",Y]";
    assert Cut(s, [Span(5, 9)], 6) == "" + ",Y]";
    assert Cut(s, [Span(2, 6), Span(5, 9)], 0) == "X[" + ",Y]" == "X[,Y]";
  }

  /** Of two named nodes that come first, one comma is left: `X[A[],A[],Y]` becomes `X[,Y]`. */
  lemma TwoFirstLeaveAComma(ch: Chars)
    requires ch.Valid() && ch.alpha('A') && ch.alpha('X') && ch.alpha('Y') && ch.upper("A") == "A"
    requires ch.upper("X") == "X"
    ensures StripIds(ch, {"A"}, "X[A[],A[],Y]") == Some("X[,Y]")
  {
    var s := "X[A[],A[],Y]";
    SpecialStops(ch, '[');
    SpecialStops(ch, ']');
    SpecialStops(ch, ',');
    assert Scan(ch, {"A"}, s, 11) == Some([]) && WordEnd(ch, s, 10) == 11 && SpaceEnd(ch, s, 11) == 11;
    assert Scan(ch, {"A"}, s, 9) == Some([]);
    assert CloseFrom(s, 7, 0) == Some(9) && s[6..7] == "A";
    assert WordEnd(ch, s, 6) == 7 && SpaceEnd(ch, s, 7) == 7 && SpaceStart(ch, s, 6) == 6;
    assert [Span(5, 9)] + [] == [Span(5, 9)];
    assert Scan(ch, {"A"}, s, 5) == Some([Span(5, 9)]);
    assert CloseFrom(s, 3, 0) == Some(5) && s[2..3] == "A";
    assert WordEnd(ch, s, 2) == 3 && SpaceEnd(ch, s, 3) == 3 && SpaceStart(ch, s, 2) == 2;
    assert SpaceEnd(ch, s, 5) == 5 && SpaceEnd(ch, s, 6) == 6;
    assert [Span(2, 6)] + [Span(5, 9)] == [Span(2, 6), Span(5, 9)];
    assert Scan(ch, {"A"}, s, 1) == Some([Span(2, 6), Span(5, 9)]);
    assert WordEnd(ch, s, 0) == 1 && SpaceEnd(ch, s, 1) == 1 && s[0..1] == "X";
    CutsTwo(s);
  }
}

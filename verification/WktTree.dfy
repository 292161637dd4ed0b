/**
 * WKT as a tree, printed: cutting nodes out of the text prints the tree without
 * them (scripts/gen_wkt_vectors.py:141-196).
 */
module WktTree {
  import opened Basics
  import opened WktScan

  /** A quoted string, a number or a bare word, or a node with its arguments. */
  datatype Arg =
    | Quoted(text: string)
    | Bare(word: string)
    | Node(name: string, gap: string, round: bool, items: seq<Item>)

  /** An argument, with the whitespace before it. */
  datatype Item = Item(pad: string, arg: Arg)

  // ---- printing -------------------------------------------------------------------------------

  function Escaped(c: char): string {
    if c == '"' then [c, c] else [c]
  }

  /** A quote within a string is doubled. */
  function Doubled(text: string): string {
    if text == "" then ""
    else Doubled(text[..|text| - 1]) + Escaped(text[|text| - 1])
  }

  function OpenChar(round: bool): char {
    if round then '(' else '['
  }

  function CloseChar(round: bool): char {
    if round then ')' else ']'
  }

  function Open(round: bool): string {
    [OpenChar(round)]
  }

  function Close(round: bool): string {
    [CloseChar(round)]
  }

  function Bracketed(round: bool, items: string): string {
    Open(round) + (items + Close(round))
  }

  function Print(arg: Arg): string
    decreases arg, 1
  {
    match arg
    case Quoted(text) => "\"" + Doubled(text) + "\""
    case Bare(word) => word
    case Node(name, gap, round, items) => name + (gap + Bracketed(round, PrintItems(items)))
  }

  function PrintItems(items: seq<Item>): string
    decreases items, 0
  {
    if items == [] then ""
    else PrintItems(items[..|items| - 1]) + PrintItem(items[|items| - 1], |items| == 1)
  }

  function PrintItem(item: Item, first: bool): string
    decreases item, 2
  {
    (if first then "" else ",") + (item.pad + Print(item.arg))
  }

  // ---- the tree without the named nodes ---------------------------------------------------------

  predicate Kept(ch: Chars, keywords: set<string>, arg: Arg) {
    arg.Node? ==> ch.upper(arg.name) !in keywords
  }

  function Without(ch: Chars, keywords: set<string>, arg: Arg): Arg
    decreases arg, 1
  {
    match arg
    case Node(name, gap, round, items) => Node(name, gap, round, WithoutItems(ch, keywords, items))
    case _ => arg
  }

  function WithoutItems(ch: Chars, keywords: set<string>, items: seq<Item>): seq<Item>
    decreases items, 0
  {
    if items == [] then []
    else
      WithoutItems(ch, keywords, items[..|items| - 1]) + WithoutItem(ch, keywords, items[|items| - 1])
  }

  function WithoutItem(ch: Chars, keywords: set<string>, item: Item): seq<Item>
    decreases item, 2
  {
    if Kept(ch, keywords, item.arg) then [Item(item.pad, Without(ch, keywords, item.arg))] else []
  }

  // ---- trees that are WKT -----------------------------------------------------------------------

  predicate Spaces(ch: Chars, pad: string) {
    forall i :: 0 <= i < |pad| ==> ch.space(pad[i])
  }

  predicate IsWord(ch: Chars, name: string) {
    name != "" && ch.Begins(name[0]) && forall i :: 0 <= i < |name| ==> ch.GoesOn(name[i])
  }

  /** No quote, bracket or comma, so that it ends where it is meant to. */
  predicate IsBare(word: string) {
    forall i :: 0 <= i < |word| ==> !Special(word[i])
  }

  /** Bare words and names are such, and whitespace is whitespace. */
  predicate Proper(ch: Chars, arg: Arg)
    decreases arg
  {
    match arg
    case Quoted(_) => true
    case Bare(word) => IsBare(word)
    case Node(name, gap, _, items) =>
      && IsWord(ch, name) && Spaces(ch, gap)
      && forall i :: 0 <= i < |items| ==> Spaces(ch, items[i].pad) && Proper(ch, items[i].arg)
  }

  // ---- texts in texts -----------------------------------------------------------------------------

  predicate Matches(s: string, i: nat, piece: string, n: nat)
    requires i + |piece| <= |s| && n <= |piece|
  {
    n > 0 ==> s[i + n - 1] == piece[n - 1] && Matches(s, i, piece, n - 1)
  }

  /** The piece is in the text at a position. */
  predicate At(s: string, i: nat, piece: string) {
    i + |piece| <= |s| && Matches(s, i, piece, |piece|)
  }

  lemma {:induction false} MatchesAt(s: string, i: nat, piece: string, n: nat, k: nat)
    requires i + |piece| <= |s| && k < n <= |piece| && Matches(s, i, piece, n)
    ensures s[i + k] == piece[k]
    decreases n
  {
    if k < n - 1 {
      MatchesAt(s, i, piece, n - 1, k);
    }
  }

  lemma AtChar(s: string, i: nat, piece: string, k: nat)
    requires At(s, i, piece) && k < |piece|
    ensures s[i + k] == piece[k]
  {
    MatchesAt(s, i, piece, |piece|, k);
  }

  lemma {:induction false} MatchesSlice(s: string, i: nat, piece: string, n: nat)
    requires i + |piece| <= |s| && n <= |piece|
    ensures Matches(s, i, piece, n) <==> s[i..i + n] == piece[..n]
  {
    if n > 0 {
      MatchesSlice(s, i, piece, n - 1);
      assert s[i..i + n] == s[i..i + n - 1] + [s[i + n - 1]] && piece[..n] == piece[..n - 1] + [piece[n - 1]];
    }
  }

  lemma AtSlice(s: string, i: nat, piece: string)
    requires i + |piece| <= |s|
    ensures At(s, i, piece) <==> s[i..i + |piece|] == piece
  {
    MatchesSlice(s, i, piece, |piece|);
    assert piece[..|piece|] == piece;
  }

  lemma AtParts(s: string, i: nat, a: string, b: string)
    requires At(s, i, a + b)
    ensures At(s, i, a) && At(s, i + |a|, b)
  {
    AtSlice(s, i, a + b);
    assert s[i..i + |a + b|][..|a|] == s[i..i + |a|] && s[i..i + |a + b|][|a|..] == s[i + |a|..i + |a| + |b|];
    assert (a + b)[..|a|] == a && (a + b)[|a|..] == b;
    AtSlice(s, i, a);
    AtSlice(s, i + |a|, b);
  }

  /** How long the comma before an argument is. */
  function Comma(first: bool): nat {
    if first then 0 else 1
  }

  lemma {:induction false} ItemAt(s: string, i: nat, item: Item, first: bool)
    requires At(s, i, PrintItem(item, first))
    ensures |PrintItem(item, first)| == Comma(first) + |item.pad| + |Print(item.arg)|
    ensures !first ==> i < |s| && s[i] == ','
    ensures At(s, i + Comma(first), item.pad) && At(s, i + Comma(first) + |item.pad|, Print(item.arg))
  {
    var rest := item.pad + Print(item.arg);
    if !first {
      AtParts(s, i, ",", rest);
      AtChar(s, i, ",", 0);
    } else {
      assert "" + rest == rest;
    }
    AtParts(s, i + Comma(first), item.pad, Print(item.arg));
  }

  /** What comes after an argument ends it. */
  predicate EndsArg(s: string, j: nat) {
    j < |s| ==> s[j] == ',' || Closes(s[j])
  }

  // ---- strings are skipped ------------------------------------------------------------------------

  /** A string's doubled text and closing quote, from a position within it. */
  lemma {:induction false} SkipsText(s: string, i: nat, text: string)
    requires At(s, i, Doubled(text) + "\"") && EndsArg(s, i + |Doubled(text)| + 1)
    ensures SkipFrom(s, i) == Some(i + |Doubled(text)| + 1)
  {
    AtParts(s, i, Doubled(text), "\"");
    AtChar(s, i + |Doubled(text)|, "\"", 0);
    SkipsUpTo(s, i, text, i + |Doubled(text)|);
  }

  /** Without a single quote before `end`, the string goes on to there. */
  lemma {:induction false} SkipsUpTo(s: string, i: nat, text: string, end: nat)
    requires At(s, i, Doubled(text)) && end == i + |Doubled(text)| < |s|
    requires s[end] == '"' && (end + 1 < |s| ==> s[end + 1] != '"')
    ensures SkipFrom(s, i) == Some(end + 1)
  {
    SkipsPrefix(s, i, text, end);
    assert NextQuote(s, end) == Some(end);
  }

  lemma {:induction false} DoubledAt(s: string, i: nat, text: string, j: nat, end: nat)
    requires text != "" && At(s, i, Doubled(text)) && end == i + |Doubled(text)|
    requires j == i + |Doubled(text[..|text| - 1])|
    ensures At(s, i, Doubled(text[..|text| - 1])) && At(s, j, Escaped(text[|text| - 1]))
    ensures end == j + |Escaped(text[|text| - 1])|
  {
    AtParts(s, i, Doubled(text[..|text| - 1]), Escaped(text[|text| - 1]));
  }

  lemma {:induction false} SkipsPrefix(s: string, i: nat, text: string, end: nat)
    requires At(s, i, Doubled(text)) && end == i + |Doubled(text)|
    ensures SkipFrom(s, i) == SkipFrom(s, end)
    decreases |text|
  {
    if text != "" {
      var j := i + |Doubled(text[..|text| - 1])|;
      DoubledAt(s, i, text, j, end);
      SkipsPrefix(s, i, text[..|text| - 1], j);
      SkipsNext(s, j, text[|text| - 1], end);
    }
  }

  lemma {:induction false} SkipsNext(s: string, j: nat, last: char, end: nat)
    requires At(s, j, Escaped(last)) && end == j + |Escaped(last)|
    ensures SkipFrom(s, j) == SkipFrom(s, end)
  {
    SkipsOne(s, j, last);
  }

  lemma {:induction false} SkipsOne(s: string, i: nat, c: char)
    requires At(s, i, Escaped(c))
    ensures SkipFrom(s, i) == SkipFrom(s, i + |Escaped(c)|)
  {
    AtChar(s, i, Escaped(c), 0);
    if c == '"' {
      AtChar(s, i, Escaped(c), 1);
      SkipsDouble(s, i);
    } else {
      SkipsSingle(s, i);
    }
  }

  lemma SkipsDouble(s: string, i: nat)
    requires i + 1 < |s| && s[i] == '"' == s[i + 1]
    ensures SkipFrom(s, i) == SkipFrom(s, i + 2)
  {
  }

  lemma SkipsSingle(s: string, i: nat)
    requires i < |s| && s[i] != '"'
    ensures SkipFrom(s, i) == SkipFrom(s, i + 1)
  {
    assert NextQuote(s, i) == NextQuote(s, i + 1);
  }

  lemma SkipsQuoted(s: string, i: nat, text: string)
    requires At(s, i, Print(Quoted(text))) && EndsArg(s, i + |Print(Quoted(text))|)
    ensures i < |s| && s[i] == '"' && SkipString(s, i) == Some(i + |Print(Quoted(text))|)
  {
    var body := Doubled(text) + "\"";
    assert Print(Quoted(text)) == "\"" + body;
    AtParts(s, i, "\"", body);
    AtChar(s, i, "\"", 0);
    SkipsText(s, i + 1, text);
  }

  // ---- brackets match -----------------------------------------------------------------------------

  lemma {:induction false} ClosesPlain(s: string, i: nat, piece: string, depth: int)
    requires At(s, i, piece)
    requires forall k :: 0 <= k < |piece| ==> !Opens(piece[k]) && !Closes(piece[k]) && piece[k] != '"'
    ensures CloseFrom(s, i, depth) == CloseFrom(s, i + |piece|, depth)
    decreases |piece|
  {
    if piece != "" {
      AtChar(s, i, piece, 0);
      assert piece == piece[..1] + piece[1..];
      AtParts(s, i, piece[..1], piece[1..]);
      ClosesPlain(s, i + 1, piece[1..], depth);
    }
  }

  lemma SpecialStops(ch: Chars, c: char)
    requires ch.Valid()
    ensures ch.GoesOn(c) || ch.space(c) ==> !Special(c)
  {
  }

  lemma WordsArePlain(ch: Chars, name: string)
    requires ch.Valid() && (IsWord(ch, name) || Spaces(ch, name))
    ensures forall k :: 0 <= k < |name| ==> !Special(name[k])
  {
    forall k | 0 <= k < |name| ensures !Special(name[k]) {
      SpecialStops(ch, name[k]);
    }
  }

  lemma ClosesNamed(ch: Chars, s: string, i: nat, name: string, gap: string, rest: string, depth: int)
    requires ch.Valid() && IsWord(ch, name) && Spaces(ch, gap) && At(s, i, name + (gap + rest))
    ensures At(s, i + |name| + |gap|, rest)
    ensures CloseFrom(s, i, depth) == CloseFrom(s, i + |name| + |gap|, depth)
  {
    AtParts(s, i, name, gap + rest);
    AtParts(s, i + |name|, gap, rest);
    WordsArePlain(ch, name);
    WordsArePlain(ch, gap);
    ClosesPlain(s, i, name, depth);
    ClosesPlain(s, i + |name|, gap, depth);
  }

  /** Within brackets, an argument is passed over. */
  lemma {:induction false} ClosesArg(ch: Chars, s: string, i: nat, arg: Arg, depth: int)
    requires ch.Valid() && Proper(ch, arg) && depth >= 1
    requires At(s, i, Print(arg)) && EndsArg(s, i + |Print(arg)|)
    ensures CloseFrom(s, i, depth) == CloseFrom(s, i + |Print(arg)|, depth)
    decreases arg, 2
  {
    match arg
    case Quoted(text) => SkipsQuoted(s, i, text);
    case Bare(word) => ClosesPlain(s, i, word, depth);
    case Node(_, _, _, _) => ClosesWhole(ch, s, i, arg, i + |arg.name| + |arg.gap|, depth);
  }

  lemma {:induction false} ClosesWhole(ch: Chars, s: string, i: nat, arg: Arg, k: nat, depth: int)
    requires ch.Valid() && arg.Node? && Proper(ch, arg) && depth >= 1
    requires At(s, i, Print(arg)) && k == i + |arg.name| + |arg.gap|
    ensures CloseFrom(s, i, depth) == CloseFrom(s, i + |Print(arg)|, depth)
    decreases arg, 1
  {
    ClosesNamed(ch, s, i, arg.name, arg.gap, Bracketed(arg.round, PrintItems(arg.items)), depth);
    PrintLength(arg);
    ClosesNode(ch, s, k, arg, depth);
  }

  lemma {:induction false} PrintLength(arg: Arg)
    requires arg.Node?
    ensures |Print(arg)| == |arg.name| + |arg.gap| + 2 + |PrintItems(arg.items)|
  {
  }

  /** From a node's opening bracket to its closing one. */
  lemma {:induction false} ClosesNode(ch: Chars, s: string, i: nat, arg: Arg, depth: int)
    requires ch.Valid() && arg.Node? && Proper(ch, arg) && depth >= 0
    requires At(s, i, Bracketed(arg.round, PrintItems(arg.items)))
    ensures var end := i + 2 + |PrintItems(arg.items)|;
            CloseFrom(s, i, depth) == if depth == 0 then Some(end) else CloseFrom(s, end, depth)
    decreases arg, 0
  {
    BracketsAt(s, i, arg.round, PrintItems(arg.items));
    ClosesItems(ch, s, i + 1, arg.items, depth + 1);
  }

  lemma BracketsAt(s: string, i: nat, round: bool, items: string)
    requires At(s, i, Bracketed(round, items))
    ensures At(s, i + 1, items) && i + 1 + |items| < |s| && Opens(s[i]) && Closes(s[i + 1 + |items|])
  {
    AtParts(s, i, Open(round), items + Close(round));
    AtParts(s, i + 1, items, Close(round));
    AtChar(s, i, Open(round), 0);
    AtChar(s, i + 1 + |items|, Close(round), 0);
  }

  lemma {:induction false} ClosesItems(ch: Chars, s: string, i: nat, items: seq<Item>, depth: int)
    requires ch.Valid() && depth >= 1
    requires forall k :: 0 <= k < |items| ==> Spaces(ch, items[k].pad) && Proper(ch, items[k].arg)
    requires At(s, i, PrintItems(items)) && EndsArg(s, i + |PrintItems(items)|)
    ensures CloseFrom(s, i, depth) == CloseFrom(s, i + |PrintItems(items)|, depth)
    decreases items, 0
  {
    if items != [] {
      var before, last := items[..|items| - 1], items[|items| - 1];
      var j, end := i + |PrintItems(before)|, i + |PrintItems(items)|;
      ItemsAt(s, i, items, end, j);
      if before != [] {
        ClosesItems(ch, s, i, before, depth);
      }
      ClosesItem(ch, s, j, last, |items| == 1, depth);
    }
  }

  lemma {:induction false} ClosesItem(ch: Chars, s: string, i: nat, item: Item, first: bool, depth: int)
    requires ch.Valid() && Spaces(ch, item.pad) && Proper(ch, item.arg) && depth >= 1
    requires At(s, i, PrintItem(item, first)) && EndsArg(s, i + |PrintItem(item, first)|)
    ensures CloseFrom(s, i, depth) == CloseFrom(s, i + |PrintItem(item, first)|, depth)
    decreases item, 2
  {
    ItemAt(s, i, item, first);
    WordsArePlain(ch, item.pad);
    ClosesPlain(s, i + Comma(first), item.pad, depth);
    ClosesArg(ch, s, i + Comma(first) + |item.pad|, item.arg, depth);
  }

  // ---- the spans of the tree ----------------------------------------------------------------------

  /** Where the opening bracket of a node at `i` is. */
  function BracketAt(arg: Arg, i: nat): nat
    requires arg.Node?
  {
    i + |arg.name| + |arg.gap|
  }

  /** How much whitespace an argument begins with, that of a bare word included. */
  function Lead(ch: Chars, item: Item): (n: nat)
    ensures |item.pad| <= n <= |item.pad| + |Print(item.arg)|
  {
    |item.pad| + if item.arg.Bare? then SpaceEnd(ch, item.arg.word, 0) else 0
  }

  /** The comma after the first argument, and the whitespace after that comma. */
  function Reach(ch: Chars, items: seq<Item>): nat {
    if |items| < 2 then 0 else 1 + Lead(ch, items[1])
  }

  /**
   * The named nodes below an argument that is kept: each with the comma and whitespace
   * before it, a first one with the comma and whitespace after it.
   */
  function SpansOf(ch: Chars, keywords: set<string>, arg: Arg, i: nat): seq<Span>
    decreases arg, 1
  {
    match arg
    case Node(_, _, _, items) => SpansOfItems(ch, keywords, items, BracketAt(arg, i) + 1, Reach(ch, items))
    case _ => []
  }

  function SpansOfItems(ch: Chars, keywords: set<string>, items: seq<Item>, i: nat, reach: nat): seq<Span>
    decreases items, 0
  {
    if items == [] then []
    else
      var before := items[..|items| - 1];
      SpansOfItems(ch, keywords, before, i, reach)
      + SpansOfItem(ch, keywords, items[|items| - 1], |items| == 1, i + |PrintItems(before)|, reach)
  }

  function SpansOfItem(ch: Chars, keywords: set<string>, item: Item, first: bool, i: nat, reach: nat): seq<Span>
    decreases item, 2
  {
    if !Kept(ch, keywords, item.arg) then
      [if first then Span(i + |item.pad|, i + |PrintItem(item, first)| + reach)
       else Span(i, i + |PrintItem(item, first)|)]
    else SpansOf(ch, keywords, item.arg, i + Comma(first) + |item.pad|)
  }

  lemma {:induction false} SpansOfNode(ch: Chars, keywords: set<string>, arg: Arg, i: nat)
    requires arg.Node?
    ensures SpansOf(ch, keywords, arg, i)
            == SpansOfItems(ch, keywords, arg.items, BracketAt(arg, i) + 1, Reach(ch, arg.items))
  {
  }

  // ---- the scan finds them --------------------------------------------------------------------------

  lemma OntoConcat<T>(a: seq<T>, b: seq<T>, rest: Option<seq<T>>)
    ensures Onto(a, Onto(b, rest)) == Onto(a + b, rest)
  {
    if rest.Some? {
      Assoc(a, b, rest.value);
    }
  }

  /** Characters that begin nothing are passed over. */
  lemma {:induction false} ScansPlain(ch: Chars, keywords: set<string>, s: string, i: nat, piece: string)
    requires ch.Valid() && At(s, i, piece)
    requires forall k :: 0 <= k < |piece| ==> piece[k] != '"' && !ch.Begins(piece[k])
    ensures Scan(ch, keywords, s, i) == Scan(ch, keywords, s, i + |piece|)
    decreases |piece|
  {
    if piece != "" {
      AtChar(s, i, piece, 0);
      assert piece == piece[..1] + piece[1..];
      AtParts(s, i, piece[..1], piece[1..]);
      ScansPlain(ch, keywords, s, i + 1, piece[1..]);
    }
  }

  lemma {:induction false} WordRuns(ch: Chars, s: string, i: nat, word: string)
    requires At(s, i, word) && forall k :: 0 <= k < |word| ==> ch.GoesOn(word[k])
    ensures WordEnd(ch, s, i) == WordEnd(ch, s, i + |word|)
    decreases |word|
  {
    if word != "" {
      AtChar(s, i, word, 0);
      assert word == word[..1] + word[1..];
      AtParts(s, i, word[..1], word[1..]);
      WordRuns(ch, s, i + 1, word[1..]);
    }
  }

  lemma {:induction false} SpaceRuns(ch: Chars, s: string, i: nat, pad: string)
    requires At(s, i, pad) && Spaces(ch, pad)
    ensures SpaceEnd(ch, s, i) == SpaceEnd(ch, s, i + |pad|)
    decreases |pad|
  {
    if pad != "" {
      AtChar(s, i, pad, 0);
      assert pad == pad[..1] + pad[1..];
      AtParts(s, i, pad[..1], pad[1..]);
      SpaceRuns(ch, s, i + 1, pad[1..]);
    }
  }

  lemma {:induction false} SpaceRunsBack(ch: Chars, s: string, i: nat, pad: string)
    requires At(s, i, pad) && Spaces(ch, pad)
    ensures SpaceStart(ch, s, i + |pad|) == SpaceStart(ch, s, i)
    decreases |pad|
  {
    if pad != "" {
      var n := |pad| - 1;
      AtChar(s, i, pad, n);
      assert pad == pad[..n] + pad[n..];
      AtParts(s, i, pad[..n], pad[n..]);
      SpaceRunsBack(ch, s, i, pad[..n]);
    }
  }

  /** A word or number is no name of a node: it ends at a comma or a closing bracket. */
  lemma {:induction false} ScansBare(ch: Chars, keywords: set<string>, s: string, i: nat, end: nat)
    requires ch.Valid() && i <= end <= |s| && EndsArg(s, end)
    requires forall k :: i <= k < end ==> !Special(s[k])
    ensures Scan(ch, keywords, s, i) == Scan(ch, keywords, s, end)
    decreases end - i
  {
    if i < end {
      if ch.Begins(s[i]) {
        var j := WordEnd(ch, s, i);
        StopsBefore(ch, s, i, end);
        var k := SpaceEnd(ch, s, j);
        SpacesStop(ch, s, j, end);
        assert k < |s| ==> !Opens(s[k]);
        ScansBare(ch, keywords, s, j, end);
      } else {
        ScansBare(ch, keywords, s, i + 1, end);
      }
    }
  }

  lemma {:induction false} StopsBefore(ch: Chars, s: string, i: nat, end: nat)
    requires ch.Valid() && i <= end <= |s| && EndsArg(s, end)
    ensures WordEnd(ch, s, i) <= end
    decreases end - i
  {
    if i < end {
      StopsBefore(ch, s, i + 1, end);
    } else if end < |s| {
      SpecialStops(ch, s[end]);
    }
  }

  lemma {:induction false} SpacesStop(ch: Chars, s: string, i: nat, end: nat)
    requires ch.Valid() && i <= end <= |s| && EndsArg(s, end)
    ensures SpaceEnd(ch, s, i) <= end
    decreases end - i
  {
    if i < end {
      SpacesStop(ch, s, i + 1, end);
    } else if end < |s| {
      SpecialStops(ch, s[end]);
    }
  }

  /** At a node's name: the name and the whitespace after it are found, then its bracket. */
  lemma NameRuns(ch: Chars, s: string, i: nat, name: string, gap: string, rest: string)
    requires ch.Valid() && IsWord(ch, name) && Spaces(ch, gap) && At(s, i, name + (gap + rest))
    requires rest != "" && Opens(rest[0])
    ensures At(s, i, name) && At(s, i + |name| + |gap|, rest) && At(s, i + |name|, gap)
    ensures i + |name| + |gap| < |s| && s[i + |name| + |gap|] == rest[0]
    ensures ch.Begins(s[i]) && s[i] != '"'
    ensures WordEnd(ch, s, i) == i + |name| && SpaceEnd(ch, s, i + |name|) == i + |name| + |gap|
  {
    AtParts(s, i, name, gap + rest);
    AtParts(s, i + |name|, gap, rest);
    AtChar(s, i, name, 0);
    AtChar(s, i + |name| + |gap|, rest, 0);
    SpecialStops(ch, rest[0]);
    SpecialStops(ch, name[0]);
    WordRuns(ch, s, i, name);
    SpaceRuns(ch, s, i + |name|, gap);
    if gap != "" {
      AtChar(s, i + |name|, gap, 0);
      SpaceIsNoWord(ch, gap[0]);
    }
  }

  lemma SpaceIsNoWord(ch: Chars, c: char)
    requires ch.Valid() && ch.space(c)
    ensures !ch.GoesOn(c) && !ch.Begins(c) && c != '"'
  {
    SpecialStops(ch, c);
  }

  /** An argument that is kept: the scan finds the spans below it, and goes on after it. */
  lemma {:induction false} ScansArg(ch: Chars, keywords: set<string>, s: string, i: nat, arg: Arg, end: nat)
    requires ch.Valid() && Proper(ch, arg) && Kept(ch, keywords, arg)
    requires At(s, i, Print(arg)) && end == i + |Print(arg)| && EndsArg(s, end)
    ensures Scan(ch, keywords, s, i) == Onto(SpansOf(ch, keywords, arg, i), Scan(ch, keywords, s, end))
    decreases arg, 1
  {
    match arg
    case Quoted(text) => SkipsQuoted(s, i, text); OntoNone(Scan(ch, keywords, s, end));
    case Bare(word) => ScansWord(ch, keywords, s, i, word); OntoNone(Scan(ch, keywords, s, end));
    case Node(_, _, _, _) => ScansNode(ch, keywords, s, i, arg, end);
  }

  lemma ScansWord(ch: Chars, keywords: set<string>, s: string, i: nat, word: string)
    requires ch.Valid() && IsBare(word) && At(s, i, word) && EndsArg(s, i + |word|)
    ensures Scan(ch, keywords, s, i) == Scan(ch, keywords, s, i + |word|)
  {
    forall k | i <= k < i + |word| ensures !Special(s[k]) {
      AtChar(s, i, word, k - i);
    }
    ScansBare(ch, keywords, s, i, i + |word|);
  }

  lemma SpacesBeginNothing(ch: Chars, pad: string)
    requires ch.Valid() && Spaces(ch, pad)
    ensures forall k :: 0 <= k < |pad| ==> pad[k] != '"' && !ch.Begins(pad[k])
  {
    forall k | 0 <= k < |pad| ensures pad[k] != '"' && !ch.Begins(pad[k]) {
      SpaceIsNoWord(ch, pad[k]);
    }
  }

  lemma ScansChar(ch: Chars, keywords: set<string>, s: string, i: nat)
    requires ch.Valid() && i < |s| && Special(s[i]) && s[i] != '"'
    ensures Scan(ch, keywords, s, i) == Scan(ch, keywords, s, i + 1)
  {
    SpecialStops(ch, s[i]);
  }

  /** A node that is kept: its name is passed over. */
  lemma NameIsKept(ch: Chars, keywords: set<string>, s: string, i: nat, name: string, gap: string, rest: string)
    requires ch.Valid() && IsWord(ch, name) && Spaces(ch, gap) && At(s, i, name + (gap + rest))
    requires rest != "" && Opens(rest[0]) && ch.upper(name) !in keywords
    ensures At(s, i + |name| + |gap|, rest)
    ensures Scan(ch, keywords, s, i) == Scan(ch, keywords, s, i + |name| + |gap|)
  {
    NameRuns(ch, s, i, name, gap, rest);
    AtSlice(s, i, name);
    SpacesBeginNothing(ch, gap);
    ScansPlain(ch, keywords, s, i + |name|, gap);
  }

  /** A node's name and its opening bracket. */
  lemma {:induction false} HeadRuns(ch: Chars, keywords: set<string>, s: string, i: nat, arg: Arg, b: nat, end: nat)
    requires ch.Valid() && arg.Node? && IsWord(ch, arg.name) && Spaces(ch, arg.gap) && Kept(ch, keywords, arg)
    requires At(s, i, Print(arg)) && b == BracketAt(arg, i) && end == i + |Print(arg)|
    ensures At(s, b + 1, PrintItems(arg.items)) && end == b + 2 + |PrintItems(arg.items)| <= |s|
    ensures Opens(s[b]) && Closes(s[end - 1])
    ensures Scan(ch, keywords, s, i) == Scan(ch, keywords, s, b + 1)
    ensures Scan(ch, keywords, s, end - 1) == Scan(ch, keywords, s, end)
  {
    NameIsKept(ch, keywords, s, i, arg.name, arg.gap, Bracketed(arg.round, PrintItems(arg.items)));
    PrintLength(arg);
    BracketsRun(ch, keywords, s, b, arg.round, PrintItems(arg.items), end);
  }

  lemma {:induction false} BracketsRun(ch: Chars, keywords: set<string>, s: string, b: nat, round: bool, inner: string,
                                       end: nat)
    requires ch.Valid() && At(s, b, Bracketed(round, inner)) && end == b + 2 + |inner|
    ensures At(s, b + 1, inner) && end <= |s| && Opens(s[b]) && Closes(s[end - 1])
    ensures Scan(ch, keywords, s, b) == Scan(ch, keywords, s, b + 1)
    ensures Scan(ch, keywords, s, end - 1) == Scan(ch, keywords, s, end)
  {
    BracketsAt(s, b, round, inner);
    ScansChar(ch, keywords, s, b);
    ScansChar(ch, keywords, s, end - 1);
  }

  lemma {:induction false} ScansNode(ch: Chars, keywords: set<string>, s: string, i: nat, arg: Arg, end: nat)
    requires ch.Valid() && arg.Node? && Proper(ch, arg) && Kept(ch, keywords, arg)
    requires At(s, i, Print(arg)) && end == i + |Print(arg)|
    ensures Scan(ch, keywords, s, i) == Onto(SpansOf(ch, keywords, arg, i), Scan(ch, keywords, s, end))
    decreases arg, 0
  {
    HeadRuns(ch, keywords, s, i, arg, BracketAt(arg, i), end);
    SpansOfNode(ch, keywords, arg, i);
    ScansInner(ch, keywords, s, BracketAt(arg, i) + 1, arg.items, end - 1);
  }

  /** What is between a node's brackets. */
  lemma {:induction false} ScansInner(ch: Chars, keywords: set<string>, s: string, q: nat, items: seq<Item>, end: nat)
    requires ch.Valid() && ItemsProper(ch, items) && 0 < q <= end < |s| && Opens(s[q - 1]) && Closes(s[end])
    requires At(s, q, PrintItems(items)) && end == q + |PrintItems(items)|
    ensures Scan(ch, keywords, s, q)
            == Onto(SpansOfItems(ch, keywords, items, q, Reach(ch, items)), Scan(ch, keywords, s, end))
    decreases items, 1
  {
    if items != [] {
      FirstWidens(ch, s, q, items, end);
    }
    ScansItems(ch, keywords, s, q, items, Reach(ch, items), end);
  }

  predicate ItemsProper(ch: Chars, items: seq<Item>) {
    forall k :: 0 <= k < |items| ==> Spaces(ch, items[k].pad) && Proper(ch, items[k].arg)
  }

  // ---- a first argument takes the comma after it ----------------------------------------------------

  /** The first two arguments, and what ends them. */
  lemma {:induction false} FirstTwo(s: string, i: nat, items: seq<Item>, end: nat)
    requires items != [] && At(s, i, PrintItems(items)) && end == i + |PrintItems(items)| && EndsArg(s, end)
    ensures At(s, i, PrintItem(items[0], true))
    ensures var j := i + |PrintItem(items[0], true)|;
            if |items| == 1 then j == end
            else At(s, j, PrintItem(items[1], false)) && EndsArg(s, j + |PrintItem(items[1], false)|)
    decreases |items|
  {
    var before := items[..|items| - 1];
    var j := i + |PrintItems(before)|;
    ItemsAt(s, i, items, end, j);
    if |items| == 1 {
      assert PrintItems(before) == "";
    } else {
      FirstTwo(s, i, before, j);
    }
  }

  /** Whitespace within a word, from a position on. */
  lemma {:induction false} WordLeads(ch: Chars, s: string, i: nat, word: string, k: nat)
    requires ch.Valid() && At(s, i, word) && k <= |word| && EndsArg(s, i + |word|)
    ensures SpaceEnd(ch, s, i + k) == i + SpaceEnd(ch, word, k)
    decreases |word| - k
  {
    if k < |word| {
      AtChar(s, i, word, k);
      if ch.space(word[k]) {
        WordLeads(ch, s, i, word, k + 1);
      }
    } else if i + k < |s| {
      SpecialStops(ch, s[i + k]);
    }
  }

  lemma {:induction false} PrintBegins(ch: Chars, arg: Arg)
    requires ch.Valid() && Proper(ch, arg) && !arg.Bare?
    ensures Print(arg) != "" && !ch.space(Print(arg)[0])
  {
    match arg
    case Quoted(text) => SpecialStops(ch, '"');
    case Node(name, _, _, _) => NameIsNoSpace(ch, name[0]);
  }

  lemma NameIsNoSpace(ch: Chars, c: char)
    requires ch.Valid() && ch.Begins(c)
    ensures !ch.space(c)
  {
  }

  /** The whitespace that an argument begins with, and no more. */
  lemma {:induction false} LeadRuns(ch: Chars, s: string, i: nat, item: Item)
    requires ch.Valid() && Spaces(ch, item.pad) && Proper(ch, item.arg)
    requires At(s, i, item.pad) && At(s, i + |item.pad|, Print(item.arg))
    requires EndsArg(s, i + |item.pad| + |Print(item.arg)|)
    ensures SpaceEnd(ch, s, i) == i + Lead(ch, item)
  {
    SpaceRuns(ch, s, i, item.pad);
    if item.arg.Bare? {
      WordLeads(ch, s, i + |item.pad|, item.arg.word, 0);
    } else {
      PrintBegins(ch, item.arg);
      AtChar(s, i + |item.pad|, Print(item.arg), 0);
    }
  }

  /** What `widen` makes of a first argument: it has no comma before it. */
  lemma WidensOn(ch: Chars, s: string, q: nat, pad: string, end: nat)
    requires ch.Valid() && 0 < q && q + |pad| <= end < |s| && Opens(s[q - 1]) && Spaces(ch, pad) && At(s, q, pad)
    requires s[end] == ',' || Closes(s[end])
    ensures Widen(ch, s, q + |pad|, end)
            == Span(q + |pad|, if s[end] == ',' then SpaceEnd(ch, s, end + 1) else end)
  {
    SpaceRunsBack(ch, s, q, pad);
    SpecialStops(ch, s[q - 1]);
    SpecialStops(ch, s[end]);
  }

  /** The span of a first argument in its node. */
  predicate WidensFirst(ch: Chars, s: string, i: nat, item: Item, reach: nat) {
    var p, end := i + |item.pad|, i + |PrintItem(item, true)|;
    p <= end <= |s| && Widen(ch, s, p, end) == Span(p, end + reach)
  }

  lemma {:induction false} FirstWidens(ch: Chars, s: string, q: nat, items: seq<Item>, end: nat)
    requires ch.Valid() && items != [] && ItemsProper(ch, items) && 0 < q <= end < |s| && Opens(s[q - 1])
    requires At(s, q, PrintItems(items)) && end == q + |PrintItems(items)| && Closes(s[end])
    ensures WidensFirst(ch, s, q, items[0], Reach(ch, items))
  {
    FirstEnds(ch, s, q, items, end);
    WidensTo(ch, s, q, items[0], Reach(ch, items));
  }

  /** After the first argument comes the end of the node, or a comma and whitespace. */
  lemma {:induction false} FirstEnds(ch: Chars, s: string, q: nat, items: seq<Item>, end: nat)
    requires ch.Valid() && items != [] && ItemsProper(ch, items) && q <= end < |s|
    requires At(s, q, PrintItems(items)) && end == q + |PrintItems(items)| && Closes(s[end])
    ensures At(s, q, PrintItem(items[0], true))
    ensures var j := q + |PrintItem(items[0], true)|; Follows(ch, s, j, Reach(ch, items))
  {
    FirstTwo(s, q, items, end);
    if |items| > 1 {
      SecondLeads(ch, s, q + |PrintItem(items[0], true)|, items[1]);
    }
  }

  predicate Follows(ch: Chars, s: string, j: nat, reach: nat) {
    && j < |s|
    && if reach == 0 then Closes(s[j]) else s[j] == ',' && SpaceEnd(ch, s, j + 1) == j + reach
  }

  lemma {:induction false} WidensTo(ch: Chars, s: string, q: nat, item: Item, reach: nat)
    requires ch.Valid() && Spaces(ch, item.pad) && At(s, q, PrintItem(item, true))
    requires 0 < q <= |s| && Opens(s[q - 1]) && Follows(ch, s, q + |PrintItem(item, true)|, reach)
    ensures WidensFirst(ch, s, q, item, reach)
  {
    ItemAt(s, q, item, true);
    WidensOn(ch, s, q, item.pad, q + |PrintItem(item, true)|);
  }

  lemma {:induction false} SecondLeads(ch: Chars, s: string, j: nat, item: Item)
    requires ch.Valid() && Spaces(ch, item.pad) && Proper(ch, item.arg)
    requires At(s, j, PrintItem(item, false)) && EndsArg(s, j + |PrintItem(item, false)|)
    ensures j < |s| && s[j] == ',' && SpaceEnd(ch, s, j + 1) == j + 1 + Lead(ch, item)
  {
    ItemAt(s, j, item, false);
    LeadRuns(ch, s, j + 1, item);
  }

  lemma {:induction false} ItemsSplit(items: seq<Item>)
    requires items != []
    ensures PrintItems(items) == PrintItems(items[..|items| - 1]) + PrintItem(items[|items| - 1], |items| == 1)
  {
  }

  lemma {:induction false} CommaAt(s: string, j: nat, item: Item)
    requires At(s, j, PrintItem(item, false))
    ensures j < |s| && EndsArg(s, j)
  {
    ItemAt(s, j, item, false);
  }

  /** The last item and those before it. */
  lemma {:induction false} ItemsAt(s: string, i: nat, items: seq<Item>, end: nat, j: nat)
    requires items != [] && At(s, i, PrintItems(items)) && end == i + |PrintItems(items)|
    requires j == i + |PrintItems(items[..|items| - 1])|
    ensures At(s, i, PrintItems(items[..|items| - 1])) && At(s, j, PrintItem(items[|items| - 1], |items| == 1))
    ensures end == j + |PrintItem(items[|items| - 1], |items| == 1)|
    ensures |items| > 1 ==> j < |s| && EndsArg(s, j)
  {
    ItemsSplit(items);
    TwoParts(s, i, PrintItems(items), PrintItems(items[..|items| - 1]), PrintItem(items[|items| - 1], |items| == 1),
             end, j);
    if |items| > 1 {
      CommaAt(s, j, items[|items| - 1]);
    }
  }

  lemma TwoParts(s: string, i: nat, all: string, a: string, b: string, end: nat, j: nat)
    requires all == a + b && At(s, i, all) && end == i + |all| && j == i + |a|
    ensures At(s, i, a) && At(s, j, b) && end == j + |b|
  {
    AtParts(s, i, a, b);
  }

  lemma {:induction false} SpansLast(ch: Chars, keywords: set<string>, items: seq<Item>, i: nat, reach: nat, j: nat)
    requires items != [] && j == i + |PrintItems(items[..|items| - 1])|
    ensures SpansOfItems(ch, keywords, items, i, reach)
            == SpansOfItems(ch, keywords, items[..|items| - 1], i, reach)
               + SpansOfItem(ch, keywords, items[|items| - 1], |items| == 1, j, reach)
  {
  }

  lemma {:induction false} ScansItems(ch: Chars, keywords: set<string>, s: string, i: nat, items: seq<Item>, reach: nat,
                                      end: nat)
    requires ch.Valid() && ItemsProper(ch, items)
    requires items != [] ==> WidensFirst(ch, s, i, items[0], reach)
    requires At(s, i, PrintItems(items)) && end == i + |PrintItems(items)| && EndsArg(s, end)
    ensures Scan(ch, keywords, s, i) == Onto(SpansOfItems(ch, keywords, items, i, reach), Scan(ch, keywords, s, end))
    decreases items, 0
  {
    if items == [] {
      OntoNone(Scan(ch, keywords, s, i));
    } else {
      var before, last := items[..|items| - 1], items[|items| - 1];
      var j := i + |PrintItems(before)|;
      ItemsAt(s, i, items, end, j);
      if before == [] {
        OntoNone(Scan(ch, keywords, s, i));
      } else {
        ScansItems(ch, keywords, s, i, before, reach, j);
      }
      ScansItem(ch, keywords, s, j, last, |items| == 1, reach, end);
      SpansLast(ch, keywords, items, i, reach, j);
      OntoConcat(SpansOfItems(ch, keywords, before, i, reach), SpansOfItem(ch, keywords, last, |items| == 1, j, reach),
                 Scan(ch, keywords, s, end));
    }
  }

  lemma {:induction false} ScansItem(ch: Chars, keywords: set<string>, s: string, i: nat, item: Item, first: bool,
                                     reach: nat, end: nat)
    requires ch.Valid() && Spaces(ch, item.pad) && Proper(ch, item.arg)
    requires first ==> WidensFirst(ch, s, i, item, reach)
    requires At(s, i, PrintItem(item, first)) && end == i + |PrintItem(item, first)| && EndsArg(s, end)
    ensures Scan(ch, keywords, s, i)
            == Onto(SpansOfItem(ch, keywords, item, first, i, reach), Scan(ch, keywords, s, end))
    decreases item, 2
  {
    var p := i + Comma(first) + |item.pad|;
    ItemAt(s, i, item, first);
    PadRuns(ch, keywords, s, i, first, item.pad);
    if Kept(ch, keywords, item.arg) {
      ScansArg(ch, keywords, s, p, item.arg, end);
      ItemJoins(ch, keywords, s, i, item, first, reach, p, end);
    } else {
      if first {
        NodeIsCut(ch, keywords, s, p, item.arg, end);
      } else {
        ScansNamed(ch, keywords, s, i, p, item, end);
      }
      NamedJoins(ch, keywords, s, i, item, first, reach, p, end);
    }
  }

  lemma {:induction false} ItemJoins(ch: Chars, keywords: set<string>, s: string, i: nat, item: Item, first: bool,
                                     reach: nat, p: nat, end: nat)
    requires ch.Valid() && Kept(ch, keywords, item.arg) && p == i + Comma(first) + |item.pad|
    requires Scan(ch, keywords, s, i) == Scan(ch, keywords, s, p)
    requires Scan(ch, keywords, s, p) == Onto(SpansOf(ch, keywords, item.arg, p), Scan(ch, keywords, s, end))
    ensures Scan(ch, keywords, s, i)
            == Onto(SpansOfItem(ch, keywords, item, first, i, reach), Scan(ch, keywords, s, end))
  {
  }

  lemma {:induction false} NamedJoins(ch: Chars, keywords: set<string>, s: string, i: nat, item: Item, first: bool,
                                      reach: nat, p: nat, end: nat)
    requires ch.Valid() && !Kept(ch, keywords, item.arg) && end == i + |PrintItem(item, first)|
    requires p == i + Comma(first) + |item.pad| && Scan(ch, keywords, s, i) == Scan(ch, keywords, s, p)
    requires Scan(ch, keywords, s, p)
             == Onto([if first then Span(p, end + reach) else Span(i, end)], Scan(ch, keywords, s, end))
    ensures Scan(ch, keywords, s, i)
            == Onto(SpansOfItem(ch, keywords, item, first, i, reach), Scan(ch, keywords, s, end))
  {
  }

  lemma {:induction false} ScansNamed(ch: Chars, keywords: set<string>, s: string, i: nat, p: nat, item: Item, end: nat)
    requires ch.Valid() && Spaces(ch, item.pad) && Proper(ch, item.arg) && !Kept(ch, keywords, item.arg)
    requires i < |s| && s[i] == ',' && p == i + 1 + |item.pad| && At(s, i + 1, item.pad)
    requires At(s, p, Print(item.arg)) && end == p + |Print(item.arg)|
    ensures Scan(ch, keywords, s, p) == Onto([Span(i, end)], Scan(ch, keywords, s, end))
  {
    PadRunsBack(ch, s, i, item.pad);
    NodeIsCut(ch, keywords, s, p, item.arg, end);
    WidensBack(ch, s, i, p, end);
  }

  lemma PadRuns(ch: Chars, keywords: set<string>, s: string, i: nat, first: bool, pad: string)
    requires ch.Valid() && Spaces(ch, pad) && At(s, i + Comma(first), pad) && (!first ==> i < |s| && s[i] == ',')
    ensures Scan(ch, keywords, s, i) == Scan(ch, keywords, s, i + Comma(first) + |pad|)
  {
    SpacesBeginNothing(ch, pad);
    ScansPlain(ch, keywords, s, i + Comma(first), pad);
    if !first {
      ScansChar(ch, keywords, s, i);
    }
  }

  lemma WidensBack(ch: Chars, s: string, i: nat, p: nat, end: nat)
    requires i < p <= end <= |s| && SpaceStart(ch, s, p) == i + 1 && s[i] == ','
    ensures Widen(ch, s, p, end) == Span(i, end)
  {
  }

  /** Back over the whitespace to the comma. */
  lemma PadRunsBack(ch: Chars, s: string, i: nat, pad: string)
    requires ch.Valid() && Spaces(ch, pad) && i < |s| && s[i] == ',' && At(s, i + 1, pad)
    ensures SpaceStart(ch, s, i + 1 + |pad|) == i + 1
  {
    SpaceRunsBack(ch, s, i + 1, pad);
    CommaStops(ch, s, i);
  }

  lemma CommaStops(ch: Chars, s: string, i: nat)
    requires ch.Valid() && i < |s| && s[i] == ','
    ensures SpaceStart(ch, s, i + 1) == i + 1
  {
    SpecialStops(ch, ',');
  }

  /** The step of the scan at a node that is cut. */
  lemma ScanCuts(ch: Chars, keywords: set<string>, s: string, p: nat, j: nat, k: nat, end: nat)
    requires ch.Valid() && p < j <= k < |s| && s[p] != '"' && ch.Begins(s[p])
    requires WordEnd(ch, s, p) == j && SpaceEnd(ch, s, j) == k && Opens(s[k]) && ch.upper(s[p..j]) in keywords
    requires p <= end <= |s| && CloseFrom(s, k, 0) == Some(end)
    ensures Scan(ch, keywords, s, p) == Onto([Widen(ch, s, p, end)], Scan(ch, keywords, s, end))
  {
  }

  lemma {:induction false} NodeIsCut(ch: Chars, keywords: set<string>, s: string, p: nat, arg: Arg, end: nat)
    requires ch.Valid() && arg.Node? && Proper(ch, arg) && !Kept(ch, keywords, arg)
    requires At(s, p, Print(arg)) && end == p + |Print(arg)|
    ensures Scan(ch, keywords, s, p) == Onto([Widen(ch, s, p, end)], Scan(ch, keywords, s, end))
  {
    var j, k := p + |arg.name|, p + |arg.name| + |arg.gap|;
    NodeHead(ch, s, p, arg, j, k);
    PrintLength(arg);
    ClosesNode(ch, s, k, arg, 0);
    ScanCuts(ch, keywords, s, p, j, k, end);
  }

  lemma {:induction false} NodeHead(ch: Chars, s: string, p: nat, arg: Arg, j: nat, k: nat)
    requires ch.Valid() && arg.Node? && IsWord(ch, arg.name) && Spaces(ch, arg.gap) && At(s, p, Print(arg))
    requires j == p + |arg.name| && k == j + |arg.gap|
    ensures k < |s| && s[p] != '"' && ch.Begins(s[p]) && Opens(s[k]) && s[p..j] == arg.name
    ensures WordEnd(ch, s, p) == j && SpaceEnd(ch, s, j) == k
    ensures At(s, k, Bracketed(arg.round, PrintItems(arg.items)))
  {
    NameRuns(ch, s, p, arg.name, arg.gap, Bracketed(arg.round, PrintItems(arg.items)));
    AtSlice(s, p, arg.name);
  }
}

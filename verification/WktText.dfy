/** What the scans find in any text, printed from a tree or not (scripts/gen_wkt_vectors.py:115-196). */
module WktText {
  import opened Basics
  import opened WktScan

  // ---- quoted strings ------------------------------------------------------------------------------

  /** No quote is in it that is not one of two. */
  predicate AllDoubled(s: string, i: nat, j: nat)
    requires j <= |s|
    decreases |s| - i
  {
    if i >= j then i == j
    else if s[i] != '"' then AllDoubled(s, i + 1, j)
    else i + 1 < j && s[i + 1] == '"' && AllDoubled(s, i + 2, j)
  }

  /** The quote at `i` ends a string that begins right after another. */
  ghost predicate EndsString(s: string, start: nat, end: nat) {
    && start < end <= |s| && s[end - 1] == '"' && (end < |s| ==> s[end] != '"')
    && AllDoubled(s, start, end - 1)
  }

  ghost predicate NeverEnds(s: string, start: nat) {
    forall end: nat :: !EndsString(s, start, end)
  }

  lemma {:induction false} ManyToo(s: string, i: nat, k: nat, j: nat)
    requires i <= k <= j <= |s| && forall m :: i <= m < k ==> s[m] != '"'
    ensures AllDoubled(s, i, j) <==> AllDoubled(s, k, j)
    decreases k - i
  {
    if i < k {
      ManyToo(s, i + 1, k, j);
    }
  }

  lemma {:induction false} NoQuoteNoEnd(s: string, i: nat, end: nat)
    requires i <= |s| && NextQuote(s, i).None?
    ensures !EndsString(s, i, end)
    decreases |s| - i
  {
    if i < |s| && s[i] != '"' {
      NoQuoteNoEnd(s, i + 1, end);
    }
  }

  /** A quoted string ends exactly where the text up to there has doubled quotes only, and one after them. */
  lemma {:induction false} StringEndsAt(s: string, i: nat, end: nat)
    requires i <= |s|
    ensures SkipFrom(s, i) == Some(end) <==> EndsString(s, i, end)
    decreases |s| - i
  {
    match NextQuote(s, i)
    case None => NoQuoteNoEnd(s, i, end);
    case Some(j) =>
      if j + 1 < |s| && s[j + 1] == '"' {
        StringEndsAt(s, j + 2, end);
        TwoQuotes(s, i, j, end);
      } else {
        OneQuote(s, i, j, end);
      }
  }

  lemma {:induction false} TwoQuotes(s: string, i: nat, j: nat, end: nat)
    requires i <= j && j + 1 < |s| && s[j] == '"' == s[j + 1] && forall m :: i <= m < j ==> s[m] != '"'
    ensures EndsString(s, i, end) <==> EndsString(s, j + 2, end)
  {
    if j < end <= |s| {
      ManyToo(s, i, j, end - 1);
    }
  }

  lemma {:induction false} OneQuote(s: string, i: nat, j: nat, end: nat)
    requires i <= j < |s| && s[j] == '"' && (j + 1 < |s| ==> s[j + 1] != '"')
    requires forall m :: i <= m < j ==> s[m] != '"'
    ensures EndsString(s, i, end) <==> end == j + 1
  {
    if j < end <= |s| {
      ManyToo(s, i, j, end - 1);
    }
  }

  // ---- brackets ------------------------------------------------------------------------------------

  /** Brackets opened less brackets closed, of either kind. */
  function Balance(s: string, i: nat, j: nat): int
    requires i <= j <= |s|
  {
    if i == j then 0
    else
      Balance(s, i, j - 1)
      + if s[j - 1] == '[' || s[j - 1] == '(' then 1 else if s[j - 1] == ']' || s[j - 1] == ')' then -1 else 0
  }

  lemma {:induction false} BalanceFirst(s: string, i: nat, j: nat)
    requires i < j <= |s|
    ensures Balance(s, i, j) == Balance(s, i, i + 1) + Balance(s, i + 1, j)
    decreases j
  {
    if i + 1 < j {
      BalanceFirst(s, i, j - 1);
    }
  }

  /** From a depth on, everything is closed here for the first time. */
  ghost predicate Closed(s: string, i: nat, depth: int, end: nat) {
    && i < end <= |s| && depth + Balance(s, i, end) == 0
    && forall m :: i < m < end ==> depth + Balance(s, i, m) > 0
  }

  /** Without quotes, a bracket is closed where as many brackets are closed as opened for the first time. */
  lemma {:induction false} ClosesAt(s: string, i: nat, end: nat)
    requires i < |s| && Opens(s[i]) && forall m :: i <= m < |s| ==> s[m] != '"'
    ensures CloseFrom(s, i, 0) == Some(end) <==> Closed(s, i, 0, end)
  {
    ClosesAtDepth(s, i + 1, 1, end);
    StepClosed(s, i, 0, end);
  }

  lemma {:induction false} ClosesAtDepth(s: string, i: nat, depth: nat, end: nat)
    requires i <= |s| && depth > 0 && forall m :: i <= m < |s| ==> s[m] != '"'
    ensures CloseFrom(s, i, depth) == Some(end) <==> Closed(s, i, depth, end)
    decreases |s| - i
  {
    if i < |s| {
      var next := depth + Balance(s, i, i + 1);
      StepClosed(s, i, depth, end);
      if next > 0 {
        ClosesAtDepth(s, i + 1, next, end);
      }
    }
  }

  lemma {:induction false} StepClosed(s: string, i: nat, depth: int, end: nat)
    requires i < |s|
    ensures var next := depth + Balance(s, i, i + 1);
            && (next > 0 ==> (Closed(s, i, depth, end) <==> Closed(s, i + 1, next, end)))
            && (next == 0 ==> (Closed(s, i, depth, end) <==> end == i + 1))
  {
    var j := i + 1;
    var next := depth + Balance(s, i, j);
    forall m | i < m <= |s|
      ensures depth + Balance(s, i, m) == next + Balance(s, j, m)
    {
      BalanceFirst(s, i, m);
    }
    if next > 0 && Closed(s, i, depth, end) {
      forall m | j < m < end ensures next + Balance(s, j, m) > 0 {
        assert depth + Balance(s, i, m) > 0;
      }
    }
    if next > 0 && Closed(s, j, next, end) {
      forall m | i < m < end ensures depth + Balance(s, i, m) > 0 {
        assert m > j ==> next + Balance(s, j, m) > 0;
      }
    }
  }

  /** Quoted strings on the way are passed over whole. */
  lemma {:induction false} PassesStrings(s: string, i: nat, depth: int)
    requires i < |s| && s[i] == '"'
    ensures NeverEnds(s, i + 1) ==> CloseFrom(s, i, depth).None?
    ensures forall end: nat :: EndsString(s, i + 1, end) ==> CloseFrom(s, i, depth) == CloseFrom(s, end, depth)
  {
    if SkipFrom(s, i + 1).Some? {
      StringEndsAt(s, i + 1, SkipFrom(s, i + 1).value);
    }
    forall end: nat | EndsString(s, i + 1, end) ensures CloseFrom(s, i, depth) == CloseFrom(s, end, depth) {
      StringEndsAt(s, i + 1, end);
    }
  }

  // ---- the span of a node ----------------------------------------------------------------------------

  ghost predicate AllSpace(ch: Chars, s: string, i: nat, j: nat) {
    i <= j <= |s| && forall m :: i <= m < j ==> ch.space(s[m])
  }

  /** A comma before the node, with nothing but whitespace between them. */
  ghost predicate CommaBefore(ch: Chars, s: string, start: nat, b: nat) {
    b < start <= |s| && s[b] == ',' && AllSpace(ch, s, b + 1, start)
  }

  ghost predicate CommaAfter(ch: Chars, s: string, end: nat, e: nat) {
    end <= e < |s| && s[e] == ',' && AllSpace(ch, s, end, e)
  }

  lemma {:induction false} SpaceStarts(ch: Chars, s: string, i: nat)
    requires i <= |s|
    ensures var b := SpaceStart(ch, s, i);
            AllSpace(ch, s, b, i) && (b > 0 ==> !ch.space(s[b - 1]))
  {
    if i > 0 && ch.space(s[i - 1]) {
      SpaceStarts(ch, s, i - 1);
    }
  }

  lemma {:induction false} SpaceEnds(ch: Chars, s: string, i: nat)
    requires i <= |s|
    ensures var e := SpaceEnd(ch, s, i);
            AllSpace(ch, s, i, e) && (e < |s| ==> !ch.space(s[e]))
    decreases |s| - i
  {
    if i < |s| && ch.space(s[i]) {
      SpaceEnds(ch, s, i + 1);
    }
  }

  /**
   * A node goes with the comma before it, if there is one; else with the comma after it
   * and all the whitespace behind that; else by itself.
   */
  lemma {:induction false} WidensTo(ch: Chars, s: string, start: nat, end: nat)
    requires ch.Valid() && start <= end <= |s|
    ensures forall b: nat :: CommaBefore(ch, s, start, b) ==> Widen(ch, s, start, end) == Span(b, end)
    ensures (forall b: nat :: !CommaBefore(ch, s, start, b)) ==> Widen(ch, s, start, end).start == start
    ensures forall e: nat :: CommaAfter(ch, s, end, e) && (forall b: nat :: !CommaBefore(ch, s, start, b)) ==>
              var last := Widen(ch, s, start, end).end;
              e < last && AllSpace(ch, s, e + 1, last) && (last < |s| ==> !ch.space(s[last]))
    ensures (forall b: nat :: !CommaBefore(ch, s, start, b)) && (forall e: nat :: !CommaAfter(ch, s, end, e)) ==>
              Widen(ch, s, start, end).end == end
  {
    assert Special(',');
    var first := SpaceStart(ch, s, start);
    SpaceStarts(ch, s, start);
    forall b: nat | CommaBefore(ch, s, start, b) ensures b == first - 1 {
      assert !ch.space(s[b]);
    }
    var e := SpaceEnd(ch, s, end);
    SpaceEnds(ch, s, end);
    forall comma: nat | CommaAfter(ch, s, end, comma) ensures comma == e {
      assert !ch.space(s[comma]);
    }
    if first > 0 && s[first - 1] == ',' {
      assert CommaBefore(ch, s, start, first - 1);
    } else if e < |s| && s[e] == ',' {
      assert CommaAfter(ch, s, end, e);
      SpaceEnds(ch, s, e + 1);
    }
  }

  // ---- what cannot be stripped -------------------------------------------------------------------------

  /** A quote that is not closed fails the text, and so does a bracket of a named node. */
  lemma {:induction false} UnclosedFails(ch: Chars, keywords: set<string>, s: string)
    requires ch.Valid() && s != ""
    ensures s[0] == '"' && NeverEnds(s, 1) ==> StripIds(ch, keywords, s).None?
    ensures ch.Begins(s[0]) && IsOpenedNode(ch, keywords, s) && CloseFrom(s, NodeBracket(ch, s), 0).None? ==>
              StripIds(ch, keywords, s).None?
  {
    if s[0] == '"' && SkipString(s, 0).Some? {
      StringEndsAt(s, 1, SkipString(s, 0).value);
    }
    assert ch.Begins('"') ==> ch.alnum('"') && Special('"');
  }

  function NodeBracket(ch: Chars, s: string): nat {
    SpaceEnd(ch, s, WordEnd(ch, s, 0))
  }

  /** The text begins with a named node's name and bracket. */
  predicate IsOpenedNode(ch: Chars, keywords: set<string>, s: string) {
    && NodeBracket(ch, s) < |s| && Opens(s[NodeBracket(ch, s)])
    && WordEnd(ch, s, 0) <= |s| && ch.upper(s[..WordEnd(ch, s, 0)]) in keywords
  }
}

/**
 * Cutting nodes out of a WKT text (scripts/gen_wkt_vectors.py:115-196): the
 * scans as functions of a position, and the loops that compute them.
 */
module WktScan {
  import opened Basics

  /** `str.isalpha`, `isalnum`, `isspace` and `upper`. */
  datatype Chars = Chars(alpha: char -> bool, alnum: char -> bool, space: char -> bool, upper: string -> string) {
    ghost predicate Valid() {
      && (forall c: char :: alpha(c) ==> alnum(c))
      && (forall c: char :: space(c) ==> !alnum(c) && c != '_')
      && (forall c: char :: Special(c) ==> !alnum(c) && !space(c))
    }

    predicate Begins(c: char) {
      alpha(c) || c == '_'
    }

    predicate GoesOn(c: char) {
      alnum(c) || c == '_'
    }
  }

  predicate Opens(c: char) {
    c == '[' || c == '('
  }

  predicate Closes(c: char) {
    c == ']' || c == ')'
  }

  predicate Special(c: char) {
    Opens(c) || Closes(c) || c == ',' || c == '"'
  }

  // ---- strings and brackets -------------------------------------------------------------------

  /** `s.index('"', i)`; `None` where Python raises. */
  function NextQuote(s: string, i: nat): (j: Option<nat>)
    ensures j.Some? ==> i <= j.value < |s| && s[j.value] == '"' && forall k :: i <= k < j.value ==> s[k] != '"'
    decreases |s| - i
  {
    if i >= |s| then None
    else if s[i] == '"' then Some(i)
    else NextQuote(s, i + 1)
  }

  function SkipFrom(s: string, i: nat): (end: Option<nat>)
    ensures end.Some? ==> i < end.value <= |s|
    decreases |s| - i
  {
    match NextQuote(s, i)
    case None => None
    case Some(j) => if j + 1 < |s| && s[j + 1] == '"' then SkipFrom(s, j + 2) else Some(j + 1)
  }

  /** `skip_string`. */
  function SkipString(s: string, i: nat): (end: Option<nat>)
    requires i < |s|
    ensures end.Some? ==> i < end.value <= |s|
  {
    SkipFrom(s, i + 1)
  }

  /** `find_close` at a depth. */
  function CloseFrom(s: string, i: nat, depth: int): (end: Option<nat>)
    ensures end.Some? ==> i < end.value <= |s|
    decreases |s| - i
  {
    if i >= |s| then None
    else if s[i] == '"' then
      match SkipString(s, i)
      case None => None
      case Some(j) => CloseFrom(s, j, depth)
    else if Opens(s[i]) then CloseFrom(s, i + 1, depth + 1)
    else if Closes(s[i]) then (if depth == 1 then Some(i + 1) else CloseFrom(s, i + 1, depth - 1))
    else CloseFrom(s, i + 1, depth)
  }

  // ---- words ------------------------------------------------------------------------------------

  function WordEnd(ch: Chars, s: string, i: nat): (j: nat)
    ensures i <= j && (i <= |s| ==> j <= |s|)
    ensures i < |s| && ch.GoesOn(s[i]) ==> j > i
    decreases |s| - i
  {
    if i < |s| && ch.GoesOn(s[i]) then WordEnd(ch, s, i + 1) else i
  }

  function SpaceEnd(ch: Chars, s: string, i: nat): (j: nat)
    ensures i <= j && (i <= |s| ==> j <= |s|)
    decreases |s| - i
  {
    if i < |s| && ch.space(s[i]) then SpaceEnd(ch, s, i + 1) else i
  }

  function SpaceStart(ch: Chars, s: string, i: nat): (b: nat)
    requires i <= |s|
    ensures b <= i
  {
    if i > 0 && ch.space(s[i - 1]) then SpaceStart(ch, s, i - 1) else i
  }

  // ---- the spans ----------------------------------------------------------------------------------

  datatype Span = Span(start: nat, end: nat)

  /** `widen`. */
  function Widen(ch: Chars, s: string, start: nat, end: nat): (span: Span)
    requires start <= end <= |s|
    ensures span.end <= |s|
  {
    var b := SpaceStart(ch, s, start);
    if b > 0 && s[b - 1] == ',' then Span(b - 1, end)
    else
      var e := SpaceEnd(ch, s, end);
      if e < |s| && s[e] == ',' then Span(start, SpaceEnd(ch, s, e + 1)) else Span(start, end)
  }

  function Prepend<T>(item: T, rest: Option<seq<T>>): Option<seq<T>> {
    match rest
    case None => None
    case Some(items) => Some([item] + items)
  }

  /** The spans to cut, from a position on. */
  function Scan(ch: Chars, keywords: set<string>, s: string, i: nat): Option<seq<Span>>
    requires ch.Valid()
    decreases |s| - i
  {
    if i >= |s| then Some([])
    else if s[i] == '"' then
      match SkipString(s, i)
      case None => None
      case Some(j) => Scan(ch, keywords, s, j)
    else if ch.Begins(s[i]) then
      var j := WordEnd(ch, s, i);
      var k := SpaceEnd(ch, s, j);
      if k < |s| && Opens(s[k]) && ch.upper(s[i..j]) in keywords then
        match CloseFrom(s, k, 0)
        case None => None
        case Some(end) => Prepend(Widen(ch, s, i, end), Scan(ch, keywords, s, end))
      else Scan(ch, keywords, s, j)
    else Scan(ch, keywords, s, i + 1)
  }

  /** A slice as Python takes it: cut at the end. */
  function Slice(s: string, low: nat, high: nat): string {
    var end := if high < |s| then high else |s|;
    if low < end then s[low..end] else ""
  }

  /** What is left of the text from `last` on. */
  function Cut(s: string, spans: seq<Span>, last: nat): string {
    if spans == [] then Slice(s, last, |s|)
    else
      var start := if spans[0].start > last then spans[0].start else last;
      Slice(s, last, start) + Cut(s, spans[1..], if spans[0].end > last then spans[0].end else last)
  }

  /** `strip_ids`; `None` where a bracket or a quote is never closed. */
  function StripIds(ch: Chars, keywords: set<string>, s: string): Option<string>
    requires ch.Valid()
  {
    match Scan(ch, keywords, s, 0)
    case None => None
    case Some(spans) => Some(Cut(s, spans, 0))
  }

  // ---- the loops ----------------------------------------------------------------------------------

  method FindQuote(s: string, i: nat) returns (j: Option<nat>)
    ensures j == NextQuote(s, i)
  {
    var k := i;
    while k < |s|
      invariant NextQuote(s, i) == NextQuote(s, k)
    {
      if s[k] == '"' {
        return Some(k);
      }
      k := k + 1;
    }
    return None;
  }

  method FindStringEnd(s: string, i: nat) returns (end: Option<nat>)
    requires i < |s|
    ensures end == SkipString(s, i)
  {
    var k := i + 1;
    while true
      invariant SkipString(s, i) == SkipFrom(s, k)
      decreases |s| - k
    {
      var j := FindQuote(s, k);
      if j.None? {
        return None;
      }
      if j.value + 1 < |s| && s[j.value + 1] == '"' {
        k := j.value + 2;
      } else {
        return Some(j.value + 1);
      }
    }
  }

  method FindClose(s: string, i: nat) returns (end: Option<nat>)
    ensures end == CloseFrom(s, i, 0)
  {
    var k := i;
    var depth: int := 0;
    while k < |s|
      invariant CloseFrom(s, i, 0) == CloseFrom(s, k, depth)
      decreases |s| - k
    {
      if s[k] == '"' {
        var j := FindStringEnd(s, k);
        if j.None? {
          return None;
        }
        k := j.value;
      } else {
        if Opens(s[k]) {
          depth := depth + 1;
        } else if Closes(s[k]) {
          depth := depth - 1;
          if depth == 0 {
            return Some(k + 1);
          }
        }
        k := k + 1;
      }
    }
    return None;
  }

  method WidenSpan(ch: Chars, s: string, start: nat, end: nat) returns (span: Span)
    requires start <= end <= |s|
    ensures span == Widen(ch, s, start, end)
  {
    var b: nat := start;
    while b > 0 && ch.space(s[b - 1])
      invariant b <= start && SpaceStart(ch, s, start) == SpaceStart(ch, s, b)
    {
      b := b - 1;
    }
    if b > 0 && s[b - 1] == ',' {
      return Span(b - 1, end);
    }
    var e := SkipSpace(ch, s, end);
    if e < |s| && s[e] == ',' {
      e := SkipSpace(ch, s, e + 1);
      return Span(start, e);
    }
    return Span(start, end);
  }

  method SkipSpace(ch: Chars, s: string, i: nat) returns (j: nat)
    requires i <= |s|
    ensures j == SpaceEnd(ch, s, i)
  {
    j := i;
    while j < |s| && ch.space(s[j])
      invariant i <= j <= |s| && SpaceEnd(ch, s, i) == SpaceEnd(ch, s, j)
    {
      j := j + 1;
    }
  }

  method SkipWord(ch: Chars, s: string, i: nat) returns (j: nat)
    requires i <= |s|
    ensures j == WordEnd(ch, s, i)
  {
    j := i;
    while j < |s| && ch.GoesOn(s[j])
      invariant i <= j <= |s| && WordEnd(ch, s, i) == WordEnd(ch, s, j)
    {
      j := j + 1;
    }
  }

  function Onto<T>(spans: seq<T>, rest: Option<seq<T>>): Option<seq<T>> {
    match rest
    case None => None
    case Some(more) => Some(spans + more)
  }

  method FindSpans(ch: Chars, keywords: set<string>, s: string) returns (spans: Option<seq<Span>>)
    requires ch.Valid()
    ensures spans == Scan(ch, keywords, s, 0)
  {
    var found: seq<Span>, i := [], 0;
    OntoNone(Scan(ch, keywords, s, 0));
    while i < |s|
      invariant Scan(ch, keywords, s, 0) == Onto(found, Scan(ch, keywords, s, i))
      decreases |s| - i
    {
      if s[i] == '"' {
        var j := FindStringEnd(s, i);
        if j.None? {
          return None;
        }
        i := j.value;
      } else if ch.Begins(s[i]) {
        var j := SkipWord(ch, s, i);
        var k := SkipSpace(ch, s, j);
        if k < |s| && Opens(s[k]) && ch.upper(s[i..j]) in keywords {
          var end := FindClose(s, k);
          if end.None? {
            return None;
          }
          var span := WidenSpan(ch, s, i, end.value);
          OntoNext(found, span, Scan(ch, keywords, s, end.value));
          found := found + [span];
          i := end.value;
        } else {
          i := j;
        }
      } else {
        i := i + 1;
      }
    }
    assert found + [] == found;
    return Some(found);
  }

  lemma OntoNone<T>(rest: Option<seq<T>>)
    ensures Onto([], rest) == rest
  {
    if rest.Some? {
      assert [] + rest.value == rest.value;
    }
  }

  lemma OntoNext<T>(spans: seq<T>, span: T, rest: Option<seq<T>>)
    ensures Onto(spans, Prepend(span, rest)) == Onto(spans + [span], rest)
  {
    if rest.Some? {
      Assoc(spans, [span], rest.value);
    }
  }

  method Assemble(s: string, spans: seq<Span>) returns (text: string)
    ensures text == Cut(s, spans, 0)
  {
    text := "";
    var last := 0;
    assert spans[0..] == spans && "" + Cut(s, spans, 0) == Cut(s, spans, 0);
    for i := 0 to |spans|
      invariant Cut(s, spans, 0) == text + Cut(s, spans[i..], last)
    {
      var Span(start, end) := spans[i];
      assert spans[i..][1..] == spans[i + 1..];
      var piece := Slice(s, last, if start > last then start else last);
      Assoc(text, piece, Cut(s, spans[i + 1..], if end > last then end else last));
      text := text + piece;
      last := if end > last then end else last;
    }
    text := text + Slice(s, last, |s|);
  }

  method Strip(ch: Chars, keywords: set<string>, s: string) returns (text: Option<string>)
    requires ch.Valid()
    ensures text == StripIds(ch, keywords, s)
  {
    var spans := FindSpans(ch, keywords, s);
    if spans.None? {
      return None;
    }
    var left := Assemble(s, spans.value);
    return Some(left);
  }
}

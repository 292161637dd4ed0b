/**
 * An input made of streams, read in order on one thread: `Sequential`, and
 * `Rest`, an input again, for those who come later
 * (crates/xeibe-core/src/parallel.rs:69-239).
 *
 * A stream is the items it yields; a panic of the input is an item that ends it.
 */
module Streams {
  import opened Basics

  /** What the input gives once no stream is left: its `finish` item, or a panic of the list. */
  datatype Tail<+T> = Last(item: Option<T>) | Broken(panic: T)

  function TailItems<T>(tail: Tail<T>): seq<T> {
    match tail
    case Last(None) => []
    case Last(Some(item)) => [item]
    case Broken(panic) => [panic]
  }

  /** `items` up to and including the first that ends the input; `tail` after them if none does. */
  function Cut<T>(ends: T -> bool, items: seq<T>, tail: seq<T>): seq<T> {
    if items == [] then tail
    else if ends(items[0]) then [items[0]]
    else [items[0]] + Cut(ends, items[1..], tail)
  }

  /** The input in order: its streams one after another, then its tail. */
  function Sequence<T>(ends: T -> bool, streams: seq<seq<T>>, tail: Tail<T>): seq<T> {
    Cut(ends, Flatten(streams), TailItems(tail))
  }

  predicate NoneEnds<T>(ends: T -> bool, items: seq<T>) {
    forall i :: 0 <= i < |items| ==> !ends(items[i])
  }

  lemma {:induction false} CutAfter<T>(ends: T -> bool, before: seq<T>, items: seq<T>, tail: seq<T>)
    requires NoneEnds(ends, before)
    ensures Cut(ends, before + items, tail) == before + Cut(ends, items, tail)
  {
    if before == [] {
      assert before + items == items;
    } else {
      assert (before + items)[1..] == before[1..] + items;
      CutAfter(ends, before[1..], items, tail);
    }
  }

  /** What comes after an item that ends the input makes no difference. */
  lemma {:induction false} CutEnds<T>(ends: T -> bool, before: seq<T>, after: seq<T>, tail: seq<T>)
    requires !NoneEnds(ends, before)
    ensures Cut(ends, before + after, tail) == Cut(ends, before, [])
  {
    if !ends(before[0]) {
      assert (before + after)[1..] == before[1..] + after;
      assert !NoneEnds(ends, before[1..]) by {
        var i :| 0 <= i < |before| && ends(before[i]);
        assert before[1..][i - 1] == before[i];
      }
      CutEnds(ends, before[1..], after, tail);
    }
  }

  lemma FlattenFront<T>(run: seq<T>, runs: seq<seq<T>>)
    ensures Flatten([run] + runs) == run + Flatten(runs)
  {
    FlattenConcat([run], runs);
    assert [run][..0] == [];
    assert Flatten([run]) == [] + run;
  }

  /** What an open stream and the streams after it still give. */
  function Left<T>(ends: T -> bool, open: seq<T>, streams: seq<seq<T>>, tail: Tail<T>): seq<T> {
    Cut(ends, open + Flatten(streams), TailItems(tail))
  }

  lemma LeftItem<T>(ends: T -> bool, open: seq<T>, streams: seq<seq<T>>, tail: Tail<T>)
    requires open != []
    ensures Left(ends, open, streams, tail) ==
            [open[0]] + if ends(open[0]) then [] else Left(ends, open[1..], streams, tail)
  {
    assert (open + Flatten(streams))[1..] == open[1..] + Flatten(streams);
  }

  lemma LeftOpened<T>(ends: T -> bool, streams: seq<seq<T>>, tail: Tail<T>)
    requires streams != []
    ensures Left(ends, [], streams, tail) == Left(ends, streams[0], streams[1..], tail)
  {
    FlattenFront(streams[0], streams[1..]);
    assert [streams[0]] + streams[1..] == streams;
    assert [] + Flatten(streams) == streams[0] + Flatten(streams[1..]);
  }

  lemma TookOne<T>(ends: T -> bool, taken: seq<T>, item: T, rest: seq<T>)
    requires NoneEnds(ends, taken)
    ensures taken + [item] + rest == taken + ([item] + rest)
    ensures (taken + [item])[..|taken + [item]| - 1] == taken
    ensures NoneEnds(ends, taken + [item]) <==> !ends(item)
  {
    assert (taken + [item])[|taken|] == item;
    if ends(item) {
      assert !NoneEnds(ends, taken + [item]);
    }
  }

  /** One thread's way through an input: stream by stream, then the tail. */
  class Sequential<T> {
    const ends: T -> bool
    const tail: Tail<T>
    // The streams not opened yet, and what is left of the open one.
    var streams: seq<seq<T>>
    var current: Option<seq<T>>
    var done: bool
    // The input from its start, and what was taken of it.
    ghost const whole: seq<T>
    ghost var taken: seq<T>

    ghost predicate Valid()
      reads this
    {
      && taken + Remaining() == whole
      && NoneEnds(ends, if taken == [] then [] else taken[..|taken| - 1])
      && (!done ==> NoneEnds(ends, taken))
      && (done && current.Some? ==> !NoneEnds(ends, taken))
    }

    constructor (ends: T -> bool, streams: seq<seq<T>>, tail: Tail<T>)
      ensures Valid() && this.ends == ends && this.tail == tail
      ensures taken == [] && whole == Sequence(ends, streams, tail)
    {
      this.ends := ends;
      this.tail := tail;
      this.streams := streams;
      this.current := None;
      this.done := false;
      this.taken := [];
      this.whole := Sequence(ends, streams, tail);
      new;
      assert [] + Flatten(streams) == Flatten(streams);
    }

    function Open(): seq<T>
      reads this
    {
      if current.Some? then current.value else []
    }

    /** What is still to come. */
    ghost function Remaining(): seq<T>
      reads this
    {
      if done then [] else Left(ends, Open(), streams, tail)
    }

    /** The open stream has ended: the next one is opened. */
    method OpenNext()
      requires Valid() && !done && Open() == [] && streams != []
      modifies this`current, this`streams
      ensures Valid() && Remaining() == old(Remaining())
      ensures current.Some? && streams == old(streams)[1..]
    {
      LeftOpened(ends, streams, tail);
      current, streams := Some(streams[0]), streams[1..];
    }

    /** `stream.next()` on an open stream with items left. */
    method Pull() returns (item: T)
      requires Valid() && !done && Open() != []
      modifies this
      ensures Valid() && old(Remaining()) == [item] + Remaining()
      ensures taken == old(taken) + [item]
    {
      var open := current.value;
      LeftItem(ends, open, streams, tail);
      TookOne(ends, taken, open[0], if ends(open[0]) then [] else Left(ends, open[1..], streams, tail));
      item := open[0];
      current, done := Some(open[1..]), ends(item);
      taken := taken + [item];
    }

    /** No stream is left: the tail, if there is one. */
    method Finish() returns (item: Option<T>)
      requires Valid() && !done && Open() == [] && streams == []
      modifies this
      ensures Valid() && done && Remaining() == []
      ensures old(Remaining()) == if item.Some? then [item.value] else []
      ensures taken == old(taken) + if item.Some? then [item.value] else []
    {
      assert Left(ends, [], streams, tail) == TailItems(tail);
      current, done := None, true;
      item := match tail case Last(last) => last case Broken(panic) => Some(panic);
      if item.Some? {
        TookOne(ends, taken, item.value, []);
        taken := taken + [item.value];
      }
    }

    /** The next item in order, whatever mix of empty and ended streams comes before it. */
    method Next() returns (item: Option<T>)
      requires Valid()
      modifies this
      ensures Valid()
      ensures old(Remaining()) == (if item.Some? then [item.value] else []) + Remaining()
      ensures item == None ==> done
      ensures taken == old(taken) + if item.Some? then [item.value] else []
    {
      while !done
        invariant Valid() && taken == old(taken) && Remaining() == old(Remaining())
        decreases !done, |streams|
      {
        if Open() != [] {
          var next := Pull();
          return Some(next);
        }
        if streams == [] {
          item := Finish();
          return;
        }
        OpenNext();
      }
      return None;
    }

    /** `rest`: the input from here on, behind the items in `taken`. */
    method Rest(taken: seq<T>) returns (rest: Rest<T>)
      ensures fresh(rest) && rest.ends == ends
      ensures rest.Contents() == Resumption(taken, current, done, streams, tail)
    {
      var first := if taken != [] || current.Some? then Some(Resumed(taken, current)) else None;
      rest := new Rest(ends, first, streams, tail, done);
    }
  }

  /** A stream of `Rest`, with the items in front of it that were taken before. */
  datatype Resumed<+T> = Resumed(taken: seq<T>, stream: Option<seq<T>>) {
    function Items(): seq<T> {
      taken + if stream.Some? then stream.value else []
    }

    /** `Resumed::next`. */
    function Next(): (r: (Option<T>, Resumed<T>))
      ensures r.0 == if Items() == [] then None else Some(Items()[0])
      ensures r.1.Items() == if Items() == [] then [] else Items()[1..]
    {
      if taken != [] then (Some(taken[0]), Resumed(taken[1..], stream))
      else if stream.Some? && stream.value != [] then
        (Some(stream.value[0]), Resumed([], Some(stream.value[1..])))
      else (None, this)
    }
  }

  /** Streams and a tail: what an input will give. */
  datatype Given<+T> = Given(streams: seq<seq<T>>, tail: Tail<T>)

  function Resumption<T>(taken: seq<T>, current: Option<seq<T>>, done: bool, streams: seq<seq<T>>,
                         tail: Tail<T>): Given<T> {
    var first := if taken != [] || current.Some? then [Resumed(taken, current).Items()] else [];
    if done then Given(first, Last(None)) else Given(first + streams, tail)
  }

  /** The input that `Sequential.Rest` makes of the one it was going through. */
  class Rest<T> {
    const ends: T -> bool
    const tail: Tail<T>
    const done: bool
    var first: Option<Resumed<T>>
    var streams: seq<seq<T>>

    constructor (ends: T -> bool, first: Option<Resumed<T>>, streams: seq<seq<T>>, tail: Tail<T>, done: bool)
      ensures this.ends == ends && this.first == first && this.streams == streams && this.tail == tail
      ensures this.done == done
    {
      this.ends := ends;
      this.first := first;
      this.streams := streams;
      this.tail := tail;
      this.done := done;
    }

    ghost function Contents(): Given<T>
      reads this
    {
      var begun := if first.Some? then [first.value.Items()] else [];
      if done then Given(begun, Last(None)) else Given(begun + streams, tail)
    }

    method NextStream() returns (stream: Option<Resumed<T>>)
      modifies this
      ensures stream.Some? <==> old(Contents()).streams != []
      ensures stream.Some? ==>
                stream.value.Items() == old(Contents()).streams[0] && Contents().streams == old(Contents()).streams[1..]
      ensures stream == None ==> Contents().streams == []
      ensures Contents().tail == old(Contents()).tail
    {
      if first.Some? {
        stream := first;
        first := None;
        assert Contents().streams == old(Contents()).streams[1..];
      } else if done || streams == [] {
        stream := None;
      } else {
        stream := Some(Resumed([], Some(streams[0])));
        streams := streams[1..];
        assert stream.value.Items() == old(streams[0]);
        assert Contents().streams == old(Contents()).streams[1..];
      }
    }

    method Finish() returns (item: Option<T>)
      requires tail.Last?
      ensures Contents().tail == Last(item)
    {
      item := if done then None else tail.item;
    }
  }

  /** The map on the consumer's own thread (`Inner::Inline`): `next`, called until it gives `None`. */
  method MapHere<T, R>(stream: Sequential<T>, f: T -> R) returns (results: seq<R>)
    requires stream.Valid()
    modifies stream
    ensures results == Mapped(f, old(stream.Remaining()))
  {
    results := [];
    ghost var whole, taken := stream.Remaining(), [];
    while true
      invariant stream.Valid() && whole == taken + stream.Remaining()
      invariant results == Mapped(f, taken)
      decreases |stream.Remaining()|
    {
      var item := stream.Next();
      if item.None? {
        assert whole == taken;
        return;
      }
      Assoc(taken, [item.value], stream.Remaining());
      MappedAppend(f, taken, item.value);
      results := results + [f(item.value)];
      taken := taken + [item.value];
    }
  }

  lemma {:induction false} CutWhole<T>(ends: T -> bool, items: seq<T>)
    requires items != [] ==> NoneEnds(ends, items[..|items| - 1])
    ensures Cut(ends, items, []) == items
  {
    if items == [] {
    } else if |items| == 1 {
      assert items == [items[0]];
    } else {
      assert items[..|items| - 1][0] == items[0];
      assert items[1..][..|items[1..]| - 1] == items[..|items| - 1][1..];
      CutWhole(ends, items[1..]);
    }
  }

  /**
   * Nothing is lost, repeated or reordered: with everything taken from an
   * input handed to `Rest`, the rest is the whole input again.
   */
  lemma RestIsWhole<T>(s: Sequential<T>)
    requires s.Valid()
    ensures var given := Resumption(s.taken, s.current, s.done, s.streams, s.tail);
            Sequence(s.ends, given.streams, given.tail) == s.whole
  {
    var begun := s.taken + s.Open();
    var first := if s.taken != [] || s.current.Some? then [begun] else [];
    FlattenFirst(begun, s.taken != [] || s.current.Some?);
    if s.done {
      RestOfDone(s.ends, s.taken, s.Open());
    } else {
      FlattenConcat(first, s.streams);
      Assoc(s.taken, s.Open(), Flatten(s.streams));
      CutAfter(s.ends, s.taken, s.Open() + Flatten(s.streams), TailItems(s.tail));
    }
  }

  lemma FlattenFirst<T>(begun: seq<T>, any: bool)
    requires !any ==> begun == []
    ensures Flatten(if any then [begun] else []) == begun
  {
    if any {
      assert [begun][..0] == [];
      assert Flatten([begun]) == [] + begun;
    }
  }

  lemma RestOfDone<T>(ends: T -> bool, taken: seq<T>, open: seq<T>)
    requires NoneEnds(ends, if taken == [] then [] else taken[..|taken| - 1])
    requires NoneEnds(ends, taken) ==> open == []
    ensures Cut(ends, taken + open, []) == taken
  {
    CutWhole(ends, taken);
    if NoneEnds(ends, taken) {
      assert taken + open == taken;
    } else {
      CutEnds(ends, taken, open, []);
    }
  }
}

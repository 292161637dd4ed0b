/**
 * A limit of one open stream at a time makes numbering follow the input: entry `k`
 * of the log is the input's `k`-th item, however the workers interleave.
 */
module TakeOrder {
  import opened Basics
  import opened Streams
  import opened TakeInput
  import opened TakeInvariants

  /** The input in order. */
  function Ideal<T>(c: Config<T>): seq<T> {
    Sequence(c.ends, c.streams, c.tail)
  }

  /** The numbered items of the first `n` streams, one stream after another. */
  function Taken<T>(c: Config<T>, nums: seq<seq<nat>>, n: nat): seq<T>
    requires n <= |c.streams| == |nums|
  {
    if n == 0 then []
    else Taken(c, nums, n - 1) + c.streams[n - 1][..Min(|nums[n - 1]|, |c.streams[n - 1]|)]
  }

  ghost predicate Ordered<T>(c: Config<T>, s: Input<T>)
    requires Shape(c, s)
  {
    && |s.open| <= 1
    && (forall j :: j in s.open ==> j == s.started - 1)
    && (!s.stopped && !s.finished ==> s.log == Taken(c, s.nums, s.started))
    && (!s.stopped && s.finished ==> s.log == Ideal(c))
    && (s.stopped ==> |s.log| > 0)
    && (s.stopped && s.origin[|s.log| - 1] != FromHelper ==> s.log == Ideal(c))
    && (s.stopped && s.origin[|s.log| - 1] == FromHelper ==> s.log[..|s.log| - 1] <= Ideal(c))
  }

  // ---- what was taken, as a prefix of the input --------------------------------------

  lemma {:induction false} TakenSame<T>(c: Config<T>, nums: seq<seq<nat>>, nums': seq<seq<nat>>, n: nat)
    requires n <= |c.streams| == |nums| == |nums'|
    requires forall i :: 0 <= i < n ==> nums[i] == nums'[i]
    ensures Taken(c, nums, n) == Taken(c, nums', n)
  {
    if n > 0 {
      TakenSame(c, nums, nums', n - 1);
    }
  }

  lemma {:induction false} TakenFull<T>(c: Config<T>, nums: seq<seq<nat>>, n: nat)
    requires n <= |c.streams| == |nums|
    requires forall i :: 0 <= i < n ==> |nums[i]| == |c.streams[i]|
    ensures Taken(c, nums, n) == Flatten(c.streams[..n])
  {
    if n > 0 {
      TakenFull(c, nums, n - 1);
      assert c.streams[..n][..|c.streams[..n]| - 1] == c.streams[..n - 1];
    }
  }

  lemma Cutting<T>(run: seq<T>, k: nat)
    requires k <= |run|
    ensures run[..k] + run[k..] == run
  {
  }

  /** What was taken of the streams up to a last one begins their items. */
  lemma TakenUpTo<T>(c: Config<T>, nums: seq<seq<nat>>, n: nat)
    requires 0 < n <= |c.streams| == |nums|
    requires forall i :: 0 <= i < n - 1 ==> |nums[i]| == |c.streams[i]|
    requires |nums[n - 1]| <= |c.streams[n - 1]|
    ensures Flatten(c.streams[..n]) == Taken(c, nums, n) + c.streams[n - 1][|nums[n - 1]|..]
  {
    var last, k := c.streams[n - 1], |nums[n - 1]|;
    TakenFull(c, nums, n - 1);
    FlattenAppend(c.streams[..n - 1], last);
    assert c.streams[..n - 1] + [last] == c.streams[..n];
    Cutting(last, k);
    Assoc(Flatten(c.streams[..n - 1]), last[..k], last[k..]);
  }

  /** With every stream before the last one full, what was taken begins the input's items. */
  lemma TakenBegins<T>(c: Config<T>, nums: seq<seq<nat>>, n: nat) returns (rest: seq<T>)
    requires n <= |c.streams| == |nums|
    requires forall i :: 0 <= i < n - 1 ==> |nums[i]| == |c.streams[i]|
    requires n > 0 ==> |nums[n - 1]| <= |c.streams[n - 1]|
    ensures Flatten(c.streams) == Taken(c, nums, n) + rest
    ensures n == |c.streams| && (n > 0 ==> |nums[n - 1]| == |c.streams[n - 1]|) ==> rest == []
  {
    FlattenConcat(c.streams[..n], c.streams[n..]);
    Cutting(c.streams, n);
    var after := Flatten(c.streams[n..]);
    if n == 0 {
      rest := after;
    } else {
      TakenUpTo(c, nums, n);
      var left := c.streams[n - 1][|nums[n - 1]|..];
      Assoc(Taken(c, nums, n), left, after);
      rest := left + after;
    }
  }

  /** Before a stop, no numbered item of a stream ends the input. */
  lemma NoneEnded<T>(c: Config<T>, s: Input<T>)
    requires Inv(c, s) && !s.stopped && !s.finished
    ensures NoneEnds(c.ends, s.log)
  {
    forall k | 0 <= k < |s.log|
      ensures !c.ends(s.log[k])
    {
      assert OriginOk(c, s.nums, s.finished, k, s.log[k], s.origin[k]);
      assert !Stops(c, s.log[k], s.origin[k]);
    }
  }

  /** Before the last started stream, every stream is numbered to its end. */
  lemma EarlierFull<T>(c: Config<T>, s: Input<T>, i: nat)
    requires Inv(c, s) && Ordered(c, s) && !s.stopped && i < s.started
    ensures |s.nums[i]| <= |c.streams[i]|
    ensures i !in s.open ==> |s.nums[i]| == |c.streams[i]|
  {
    assert StreamAt(c, s, i);
  }

  lemma LogBegins<T>(c: Config<T>, s: Input<T>) returns (rest: seq<T>)
    requires Inv(c, s) && Ordered(c, s) && !s.stopped && !s.finished
    ensures Flatten(c.streams) == s.log + rest
    ensures Ideal(c) == s.log + Cut(c.ends, rest, TailItems(c.tail))
    ensures s.open == [] && s.started == |c.streams| ==> rest == []
  {
    forall i | 0 <= i < s.started
      ensures |s.nums[i]| <= |c.streams[i]| && (i !in s.open ==> |s.nums[i]| == |c.streams[i]|)
    {
      EarlierFull(c, s, i);
    }
    rest := TakenBegins(c, s.nums, s.started);
    NoneEnded(c, s);
    CutAfter(c.ends, s.log, rest, TailItems(c.tail));
  }

  // ---- region by region ----------------------------------------------------------------

  /** The step numbers nothing and opens nothing. */
  ghost predicate Quiet<T>(s: Input<T>, s': Input<T>) {
    && s'.log == s.log && s'.origin == s.origin && s'.nums == s.nums
    && s'.started == s.started && s'.finished == s.finished && s'.stopped == s.stopped
    && |s'.open| <= |s.open| && (forall j :: j in s'.open ==> j in s.open)
  }

  lemma OrderedSame<T>(c: Config<T>, s: Input<T>, s': Input<T>)
    requires Shape(c, s) && Ordered(c, s) && Shape(c, s') && Quiet(s, s')
    ensures Ordered(c, s')
  {
  }

  lemma OpenedOrdered<T>(c: Config<T>, s: Input<T>, s': Input<T>)
    requires Inv(c, s) && Ordered(c, s) && Shape(c, s')
    requires s.open == [] && !s.exhausted && s.started < |c.streams|
    requires s'.log == s.log && s'.origin == s.origin && s'.nums == s.nums
    requires s'.started == s.started + 1 && s'.finished == s.finished && s'.stopped == s.stopped
    requires s'.open == [s.started]
    ensures Ordered(c, s')
  {
    assert StreamAt(c, s, s.started);
    assert Taken(c, s.nums, s.started + 1) == Taken(c, s.nums, s.started) + [];
  }

  lemma NumberedOrdered<T>(c: Config<T>, s: Input<T>, w: nat, i: nat, item: T)
    requires Inv(c, s) && Ordered(c, s) && w < |s.takers| && s.takers[w] == Drawn(i, item)
    ensures i < |c.streams| && Shape(c, NumberDrawn(c, s, w, i, item).input)
    ensures Ordered(c, NumberDrawn(c, s, w, i, item).input)
  {
    NumberDrawnKept(c, s, w, i, item);
    if s.stopped {
      OrderedSame(c, s, NumberDrawn(c, s, w, i, item).input);
    } else {
      NumberedNext(c, s, w, i, item);
    }
  }

  /** The item is the next of the last started stream. */
  lemma NumberedNext<T>(c: Config<T>, s: Input<T>, w: nat, i: nat, item: T)
    requires Inv(c, s) && Ordered(c, s) && w < |s.takers| && s.takers[w] == Drawn(i, item) && !s.stopped
    requires i < |c.streams| && Shape(c, NumberDrawn(c, s, w, i, item).input)
    ensures Ordered(c, NumberDrawn(c, s, w, i, item).input)
  {
    assert Known(s, s.takers[w]);
    assert StreamAt(c, s, i);
    var s' := NumberDrawn(c, s, w, i, item).input;
    assert i == s.started - 1;
    NotFinished(c, s, i);
    LogGrows(c, s, s'.nums, i, item);
    if c.ends(item) {
      Ended(c, s, item, s'.log);
    }
  }

  lemma LogGrows<T>(c: Config<T>, s: Input<T>, nums: seq<seq<nat>>, i: nat, item: T)
    requires |c.streams| == |s.nums| && i < |s.nums| && |s.nums[i]| < |c.streams[i]|
    requires item == c.streams[i][|s.nums[i]|]
    requires s.log == Taken(c, s.nums, i + 1) && nums == s.nums[i := s.nums[i] + [|s.log|]]
    ensures Taken(c, nums, i + 1) == s.log + [item]
  {
    TakenSame(c, s.nums, nums, i);
    var k := |s.nums[i]|;
    assert c.streams[i][..k + 1] == c.streams[i][..k] + [item];
    Assoc(Taken(c, s.nums, i), c.streams[i][..k], [item]);
  }

  /** While a stream is open, `finish` was not asked for. */
  lemma NotFinished<T>(c: Config<T>, s: Input<T>, i: nat)
    requires Inv(c, s) && i in s.open
    ensures !s.finished
  {
  }

  /** An item that ends the input makes the log the whole input. */
  lemma Ended<T>(c: Config<T>, s: Input<T>, item: T, log: seq<T>)
    requires Inv(c, s) && Ordered(c, s) && !s.stopped && !s.finished && s.started > 0
    requires var i := s.started - 1; |s.nums[i]| < |c.streams[i]| && item == c.streams[i][|s.nums[i]|]
    requires log == s.log + [item] && c.ends(item)
    ensures log == Ideal(c)
  {
    var i := s.started - 1;
    forall j | 0 <= j < s.started
      ensures |s.nums[j]| <= |c.streams[j]| && (j !in s.open ==> |s.nums[j]| == |c.streams[j]|)
    {
      EarlierFull(c, s, j);
    }
    var nums := s.nums[i := s.nums[i] + [0]];
    var rest := TakenBegins(c, nums, s.started);
    TakenSame(c, s.nums, nums, i);
    var k := |s.nums[i]|;
    assert c.streams[i][..k + 1] == c.streams[i][..k] + [item];
    Assoc(Taken(c, s.nums, i), c.streams[i][..k], [item]);
    assert Flatten(c.streams) == log + rest;
    assert s.log + ([item] + rest) == log + rest;
    NoneEnded(c, s);
    CutAfter(c.ends, s.log, [item] + rest, TailItems(c.tail));
  }

  lemma FinishedOrdered<T>(c: Config<T>, s: Input<T>, w: nat)
    requires w < |s.takers| && InRegion(c, s.(takers := s.takers[w := Top]))
    requires Ordered(c, s.(takers := s.takers[w := Top]))
    ensures Shape(c, Finish(c, s, w).input) && Ordered(c, Finish(c, s, w).input)
  {
    FinishKept(c, s, w);
    var t := s.(takers := s.takers[w := Top]);
    var s' := Finish(c, s, w).input;
    if Finishes(s) {
      // Asked for or not, nothing was numbered since: `t` has a complete log.
      FinishIdeal(c, t);
      assert s'.log == t.log + TailItems(c.tail);
    } else {
      OrderedSame(c, t, s');
    }
  }

  lemma FinishIdeal<T>(c: Config<T>, s: Input<T>)
    requires InRegion(c, s) && Ordered(c, s) && Finishes(s)
    ensures Ideal(c) == s.log + TailItems(c.tail)
  {
    forall i | 0 <= i < s.started
      ensures |s.nums[i]| == |c.streams[i]|
    {
      assert StreamAt(c, s, i);
    }
    var rest := TakenBegins(c, s.nums, s.started);
    assert s.log + [] == s.log;
    forall k | 0 <= k < |s.log|
      ensures !c.ends(s.log[k])
    {
      assert OriginOk(c, s.nums, s.finished, k, s.log[k], s.origin[k]);
      assert !Stops(c, s.log[k], s.origin[k]);
    }
    CutAfter(c.ends, s.log, [], TailItems(c.tail));
  }

  /** A panic of the list comes after every stream, one of the helper anywhere. */
  lemma PanicOrdered<T>(c: Config<T>, s: Input<T>, w: nat, panic: T, origin: Origin)
    requires Inv(c, s) && Ordered(c, s) && w < |s.takers| && !s.stopped
    requires origin == FromHelper
      || (origin == FromList && c.tail == Broken(panic) && s.started == |c.streams| && s.open == [] && !s.exhausted)
    requires Shape(c, Emit(s, w, panic, true, origin).input)
    ensures Ordered(c, Emit(s, w, panic, true, origin).input)
  {
    var s' := Emit(s, w, panic, true, origin).input;
    assert s'.log[..|s'.log| - 1] == s.log;
    if !s.finished {
      var rest := LogBegins(c, s);
    }
  }

  lemma OpenNextOrdered<T>(c: Config<T>, s: Input<T>, w: nat)
    requires Inv(c, s) && Ordered(c, s) && c.Limit() == 1 && w < |s.takers| && s.takers[w] == Opening
    ensures Shape(c, OpenNext(c, s, w).input) && Ordered(c, OpenNext(c, s, w).input)
  {
    OpenNextKept(c, s, w);
    var s' := OpenNext(c, s, w).input;
    if s.exhausted || |s.open| >= c.Limit() {
      OrderedSame(c, s, s');
    } else if s.started < |c.streams| {
      assert s.open + [s.started] == [s.started];
      OpenedOrdered(c, s, s');
    } else {
      match c.tail
      case Last(_) =>
        ExhaustedOrdered(c, s, w);
      case Broken(panic) =>
        PanicOrdered(c, s, w, panic, FromList);
    }
  }

  lemma ExhaustedOrdered<T>(c: Config<T>, s: Input<T>, w: nat)
    requires Inv(c, s) && Ordered(c, s) && w < |s.takers| && s.takers[w] == Opening
    requires !s.exhausted && s.started == |c.streams| && c.tail.Last?
    ensures Shape(c, Finish(c, s.(exhausted := true), w).input)
    ensures Ordered(c, Finish(c, s.(exhausted := true), w).input)
  {
    var t := s.(exhausted := true, takers := s.takers[w := Top]);
    ShapeOf(c, s, t, w, Top);
    LocksSame(s.owner, s.takers, w, Top);
    StreamsSame(c, s, t, w);
    TotalUpdate(s.takers, w, Top, Closes);
    OrderedSame(c, s, t);
    FinishedOrdered(c, s.(exhausted := true), w);
  }

  lemma ClosingOrdered<T>(c: Config<T>, s: Input<T>, w: nat)
    requires Inv(c, s) && Ordered(c, s) && w < |s.takers| && s.takers[w] == Closing
    ensures Shape(c, Finish(c, s.(ended := s.ended + 1), w).input)
    ensures Ordered(c, Finish(c, s.(ended := s.ended + 1), w).input)
  {
    var t := s.(ended := s.ended + 1, takers := s.takers[w := Top]);
    ShapeOf(c, s, t, w, Top);
    LocksSame(s.owner, s.takers, w, Top);
    StreamsSame(c, s, t, w);
    TotalAtLeast(s.takers, w, Closes);
    TotalUpdate(s.takers, w, Top, Closes);
    OrderedSame(c, s, t);
    FinishedOrdered(c, s.(ended := s.ended + 1), w);
  }

  /** Every step keeps the log in input order. */
  lemma OrderKept<T>(c: Config<T>, s: Input<T>, w: nat, help: Help)
    requires Inv(c, s) && Ordered(c, s) && c.Limit() == 1 && CanStep(c, s, w, help)
    ensures Shape(c, Advance(c, s, w, help).input) && Ordered(c, Advance(c, s, w, help).input)
  {
    ShapeKept(c, s, w, help);
    if s.takers[w].Drawn? {
      DrawnOrdered(c, s, w, help);
    } else if s.takers[w].Closing? {
      ClosedOrdered(c, s, w, help);
    } else if s.takers[w].Opening? {
      OpeningOrdered(c, s, w, help);
    } else if Panicking(s, w, help) {
      PanicOrdered(c, s, w, c.helper.value, FromHelper);
    } else {
      QuietStep(c, s, w, help);
      OrderedSame(c, s, Advance(c, s, w, help).input);
    }
  }

  lemma DrawnOrdered<T>(c: Config<T>, s: Input<T>, w: nat, help: Help)
    requires Inv(c, s) && Ordered(c, s) && CanStep(c, s, w, help) && s.takers[w].Drawn?
    ensures Shape(c, Advance(c, s, w, help).input) && Ordered(c, Advance(c, s, w, help).input)
  {
    NumberedOrdered(c, s, w, s.takers[w].stream, s.takers[w].item);
  }

  lemma ClosedOrdered<T>(c: Config<T>, s: Input<T>, w: nat, help: Help)
    requires Inv(c, s) && Ordered(c, s) && CanStep(c, s, w, help) && s.takers[w].Closing?
    ensures Shape(c, Advance(c, s, w, help).input) && Ordered(c, Advance(c, s, w, help).input)
  {
    ClosingOrdered(c, s, w);
    assert Advance(c, s, w, help) == Finish(c, s.(ended := s.ended + 1), w);
  }

  lemma OpeningOrdered<T>(c: Config<T>, s: Input<T>, w: nat, help: Help)
    requires Inv(c, s) && Ordered(c, s) && c.Limit() == 1 && CanStep(c, s, w, help) && s.takers[w].Opening?
    ensures Shape(c, Advance(c, s, w, help).input) && Ordered(c, Advance(c, s, w, help).input)
  {
    OpenNextOrdered(c, s, w);
  }

  predicate Panicking<T>(s: Input<T>, w: nat, help: Help)
    requires w < |s.takers|
  {
    (s.takers[w].Helping? || s.takers[w].AllHeld?) && help == Panics && !s.stopped
  }

  lemma QuietStep<T>(c: Config<T>, s: Input<T>, w: nat, help: Help)
    requires Shape(c, s) && CanStep(c, s, w, help) && !Panicking(s, w, help)
    requires !s.takers[w].Drawn? && !s.takers[w].Closing? && !s.takers[w].Opening?
    ensures Quiet(s, Advance(c, s, w, help).input)
  {
    if Held(s.takers[w]).Some? {
      QuietHeld(c, s, w, help);
    } else if s.takers[w].Trying? || s.takers[w].Blocking? {
      QuietLock(c, s, w, help);
    } else {
      QuietFree(c, s, w, help);
    }
  }

  lemma QuietHeld<T>(c: Config<T>, s: Input<T>, w: nat, help: Help)
    requires Shape(c, s) && CanStep(c, s, w, help) && Held(s.takers[w]).Some? && !s.takers[w].Drawn?
    ensures Quiet(s, Advance(c, s, w, help).input)
  {
  }

  lemma QuietLock<T>(c: Config<T>, s: Input<T>, w: nat, help: Help)
    requires Shape(c, s) && CanStep(c, s, w, help) && (s.takers[w].Trying? || s.takers[w].Blocking?)
    ensures Quiet(s, Advance(c, s, w, help).input)
  {
  }

  lemma QuietFree<T>(c: Config<T>, s: Input<T>, w: nat, help: Help)
    requires Shape(c, s) && CanStep(c, s, w, help) && !Panicking(s, w, help) && Held(s.takers[w]).None?
    requires || s.takers[w].Helping? || s.takers[w].Top? || s.takers[w].Running?
             || s.takers[w].Listing? || s.takers[w].AllHeld?
    ensures Quiet(s, Advance(c, s, w, help).input)
  {
  }
}

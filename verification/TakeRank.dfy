/**
 * Taking comes to an end: every step of `Input::take` either uses up some of
 * the input or moves its worker closer to leaving `take`. A worker that starts
 * its loop over does so only because the input changed since it last looked.
 */
module TakeRank {
  import opened Basics
  import opened TakeInput
  import opened TakeInvariants

  // ---- what is left of the input --------------------------------------------------

  function Undrawn<T>(streams: seq<seq<T>>, pos: seq<nat>): nat
    requires |streams| == |pos|
  {
    if streams == [] then 0
    else Max(|streams[0]| - pos[0], 0) + Undrawn(streams[1..], pos[1..])
  }

  lemma {:induction false} UndrawnUpdate<T>(streams: seq<seq<T>>, pos: seq<nat>, i: nat)
    requires |streams| == |pos| && i < |pos| && pos[i] < |streams[i]|
    ensures Undrawn(streams, pos[i := pos[i] + 1]) + 1 == Undrawn(streams, pos)
  {
    var pos' := pos[i := pos[i] + 1];
    if i == 0 {
      assert pos'[1..] == pos[1..];
    } else {
      UndrawnUpdate(streams[1..], pos[1..], i - 1);
      assert pos'[1..] == pos[1..][i - 1 := pos[i] + 1];
    }
  }

  function Undone(done: bool): nat {
    if done then 0 else 1
  }

  /** Goes down with every item drawn, every stream opened, ended or removed, and every flag set. */
  ghost function InputLeft<T>(c: Config<T>, s: Input<T>): nat
    requires Shape(c, s)
  {
    2 * (|c.streams| - s.started) + |s.open| + Undone(s.exhausted) + Undone(s.stopped) + Undone(s.finished)
    + Undrawn(c.streams, s.pos) + Total(s.done, Undone)
  }

  // ---- how far a worker is from leaving `take` --------------------------------------

  /** What opening the next stream would find. */
  predicate WouldFail<T>(c: Config<T>, s: Input<T>) {
    s.exhausted || |s.open| >= c.Limit()
  }

  /** The input has changed since the worker read what it carries. */
  predicate Stale<T>(c: Config<T>, s: Input<T>, taker: Taker<T>) {
    match taker
    case Running => s.stopped
    case Listing(exhausted) => s.stopped || (!exhausted && s.exhausted)
    case Trying(exhausted, open, at) =>
      || s.stopped
      || (exists j :: j in open && j !in s.open)
      || (!exhausted && |open| < c.Limit() && WouldFail(c, s))
    case AllHeld(head) => s.stopped || head !in s.open
    case Blocking(head) => s.stopped || head !in s.open
    case Opening => WouldFail(c, s)
    case _ => false
  }

  function Again<T>(c: Config<T>): nat {
    |c.streams| + 10
  }

  /** The rank of a worker with an item in hand, which pays for handing the item on. */
  function InHand<T>(c: Config<T>): nat {
    3 * |c.streams| + 60
  }

  function Base<T>(c: Config<T>, taker: Taker<T>): nat {
    var n := |c.streams|;
    match taker
    case Outside => 0
    case Helping => n + 7
    case Top => n + 6
    case Running => n + 5
    case Listing(_) => n + 4
    case Trying(_, open, at) => 3 + Max(Min(|open|, n) - at, 0)
    case AllHeld(_) => 2
    case Opening => 2
    case Blocking(_) => 1
    case Holding(_) => 0
    case Drawn(_, _) => InHand(c)
    case Ending(_) => n + 9
    case Leaving(_) => n + 8
    case Closing => n + 7
  }

  ghost function TakerRank<T>(c: Config<T>, s: Input<T>, taker: Taker<T>): (r: nat)
    ensures r <= InHand(c)
  {
    Base(c, taker) + if Stale(c, s, taker) then Again(c) else 0
  }

  /** What a worker reads of the input is as it was. */
  predicate SameView<T>(s: Input<T>, s': Input<T>) {
    s'.stopped == s.stopped && s'.exhausted == s.exhausted && s'.open == s.open
  }

  lemma SameRank<T>(c: Config<T>, s: Input<T>, s': Input<T>, taker: Taker<T>)
    requires SameView(s, s')
    ensures TakerRank(c, s', taker) == TakerRank(c, s, taker)
  {
  }

  /** A step either uses up some of the input, or only its worker gets closer. */
  ghost predicate Spends<T>(c: Config<T>, s: Input<T>, w: nat, r: Step<T>)
    requires Shape(c, s) && Shape(c, r.input) && w < |s.takers|
  {
    || InputLeft(c, r.input) < InputLeft(c, s)
    || (&& InputLeft(c, r.input) == InputLeft(c, s) && SameView(s, r.input)
        && TakerRank(c, s, r.input.takers[w]) < TakerRank(c, s, s.takers[w])
        && (r.outcome.Got? ==> s.takers[w].Drawn?))
  }

  // ---- region by region ---------------------------------------------------------------

  lemma MovedSpends<T>(c: Config<T>, s: Input<T>, w: nat, taker: Taker<T>, outcome: Outcome)
    requires Shape(c, s) && w < |s.takers| && Shape(c, s.(takers := s.takers[w := taker])) && !outcome.Got?
    requires TakerRank(c, s, taker) < TakerRank(c, s, s.takers[w])
    ensures Spends(c, s, w, Step(s.(takers := s.takers[w := taker]), outcome))
  {
  }

  lemma DrawSpends<T>(c: Config<T>, s: Input<T>, w: nat, i: nat)
    requires Inv(c, s) && w < |s.takers| && s.takers[w] == Holding(i)
    ensures i < |c.streams| && Shape(c, Draw(c, s, w, i).input) && Spends(c, s, w, Draw(c, s, w, i))
  {
    DrawKept(c, s, w, i);
    assert StreamAt(c, s, i);
    DrawnSpends(c, s, w, i);
  }

  lemma DrawnSpends<T>(c: Config<T>, s: Input<T>, w: nat, i: nat)
    requires Shape(c, s) && w < |s.takers| && i < |c.streams| && (s.pos[i] >= |c.streams[i]| ==> !s.done[i])
    requires Shape(c, Draw(c, s, w, i).input)
    ensures Spends(c, s, w, Draw(c, s, w, i))
  {
    if s.pos[i] < |c.streams[i]| {
      UndrawnUpdate(c.streams, s.pos, i);
    } else {
      TotalUpdate(s.done, i, true, Undone);
    }
  }

  lemma NumberSpends<T>(c: Config<T>, s: Input<T>, w: nat, i: nat, item: T)
    requires Inv(c, s) && w < |s.takers| && s.takers[w] == Drawn(i, item)
    ensures i < |c.streams| && Shape(c, NumberDrawn(c, s, w, i, item).input)
    ensures Spends(c, s, w, NumberDrawn(c, s, w, i, item))
  {
    NumberDrawnKept(c, s, w, i, item);
    assert StreamAt(c, s, i);
    if s.stopped {
      assert InputLeft(c, NumberDrawn(c, s, w, i, item).input) == InputLeft(c, s);
    } else {
      NumberedSpends(c, s, w, i, item);
    }
  }

  lemma NumberedSpends<T>(c: Config<T>, s: Input<T>, w: nat, i: nat, item: T)
    requires Shape(c, s) && w < |s.takers| && s.takers[w] == Drawn(i, item) && !s.stopped && i < |c.streams|
    requires Shape(c, NumberDrawn(c, s, w, i, item).input)
    ensures Spends(c, s, w, NumberDrawn(c, s, w, i, item))
  {
    var ends := c.ends(item);
    TotalUpdate(s.done, i, s.done[i] || ends, Undone);
    if !ends {
      assert s.done[i := s.done[i] || ends] == s.done;
    }
  }

  lemma EndingSpends<T>(c: Config<T>, s: Input<T>, w: nat, i: nat)
    requires Inv(c, s) && w < |s.takers| && s.takers[w] == Ending(i)
    requires Shape(c, Goto(s.(open := Without(s.open, i)), w, Leaving(i)).input)
    ensures Spends(c, s, w, Goto(s.(open := Without(s.open, i)), w, Leaving(i)))
  {
    assert i in s.open by {
      assert Known(s, s.takers[w]);
      assert StreamAt(c, s, i);
    }
    WithoutDistinct(s.open, i);
  }

  lemma FinishSpends<T>(c: Config<T>, s: Input<T>, s0: Input<T>, w: nat)
    requires Shape(c, s0) && w < |s0.takers| && TakerRank(c, s0, Top) < TakerRank(c, s0, s0.takers[w])
    requires s == s0.(ended := s.ended)
    requires Shape(c, Finish(c, s, w).input)
    ensures Spends(c, s0, w, Finish(c, s, w))
  {
  }

  lemma ExhaustedSpends<T>(c: Config<T>, s: Input<T>, w: nat)
    requires Shape(c, s) && w < |s.takers| && !s.exhausted && Shape(c, Finish(c, s.(exhausted := true), w).input)
    ensures Spends(c, s, w, Finish(c, s.(exhausted := true), w))
  {
  }

  lemma OpenNextSpends<T>(c: Config<T>, s: Input<T>, w: nat)
    requires Inv(c, s) && w < |s.takers| && s.takers[w] == Opening && Shape(c, OpenNext(c, s, w).input)
    ensures Spends(c, s, w, OpenNext(c, s, w))
  {
    if WouldFail(c, s) {
      MovedSpends(c, s, w, Top, Going);
    } else if s.started == |c.streams| {
      if c.tail.Last? {
        ExhaustedSpends(c, s, w);
      }
    }
  }

  /** A worker that finds its stream ended had an old list. */
  lemma HoldSpends<T>(c: Config<T>, s: Input<T>, w: nat, i: nat)
    requires Inv(c, s) && w < |s.takers| && i < s.started && s.owner[i] == None
    requires s.takers[w].Trying? || s.takers[w].Blocking?
    requires i !in s.open || s.stopped ==> Stale(c, s, s.takers[w])
    requires Shape(c, Hold(s, w, i).input)
    ensures Spends(c, s, w, Hold(s, w, i))
  {
    assert StreamAt(c, s, i);
  }

  lemma TrySpends<T>(c: Config<T>, s: Input<T>, w: nat, exhausted: bool, open: seq<nat>, at: nat)
    requires Inv(c, s) && w < |s.takers| && s.takers[w] == Trying(exhausted, open, at)
    requires Shape(c, TryNext(c, s, w, exhausted, open, at).input)
    ensures Spends(c, s, w, TryNext(c, s, w, exhausted, open, at))
  {
    assert Known(s, s.takers[w]);
    var r := TryNext(c, s, w, exhausted, open, at);
    if at == |open| {
      assert open[0] in open;
      MovedSpends(c, s, w, r.input.takers[w], Going);
    } else {
      assert open[at] in open;
      if s.owner[open[at]].Some? {
        MovedSpends(c, s, w, r.input.takers[w], Going);
      } else {
        HoldSpends(c, s, w, open[at]);
      }
    }
  }

  /** A helper that has work to do, or has it forever, is not a step towards the end. */
  predicate Helped<T>(s: Input<T>, w: nat, help: Help)
    requires w < |s.takers|
  {
    (s.takers[w].Helping? || s.takers[w].AllHeld?) && help == More
  }

  lemma HelpSpends<T>(c: Config<T>, s: Input<T>, w: nat, help: Help)
    requires Inv(c, s) && CanStep(c, s, w, help) && !Helped(s, w, help)
    requires s.takers[w].Helping? || s.takers[w].AllHeld?
    requires Shape(c, Advance(c, s, w, help).input)
    ensures Spends(c, s, w, Advance(c, s, w, help))
  {
    var r := Advance(c, s, w, help);
    if help == Idle {
      MovedSpends(c, s, w, r.input.takers[w], Going);
    }
  }

  lemma ReadSpends<T>(c: Config<T>, s: Input<T>, w: nat, help: Help)
    requires Inv(c, s) && CanStep(c, s, w, help)
    requires s.takers[w].Top? || s.takers[w].Running? || s.takers[w].Listing?
    requires Shape(c, Advance(c, s, w, help).input)
    ensures Spends(c, s, w, Advance(c, s, w, help))
  {
    var r := Advance(c, s, w, help);
    MovedSpends(c, s, w, r.input.takers[w], r.outcome);
  }

  /** Every step but a helper's work brings the end of taking closer. */
  lemma StepSpends<T>(c: Config<T>, s: Input<T>, w: nat, help: Help)
    requires Inv(c, s) && CanStep(c, s, w, help) && !Helped(s, w, help)
    ensures Shape(c, Advance(c, s, w, help).input) && Spends(c, s, w, Advance(c, s, w, help))
  {
    ShapeKept(c, s, w, help);
    if s.takers[w].Helping? || s.takers[w].AllHeld? {
      HelpSpends(c, s, w, help);
    } else if s.takers[w].Top? || s.takers[w].Running? || s.takers[w].Listing? {
      ReadSpends(c, s, w, help);
    } else if Held(s.takers[w]).Some? || s.takers[w].Closing? {
      HeldSpends(c, s, w, help);
    } else {
      LockSpends(c, s, w, help);
    }
  }

  lemma LockSpends<T>(c: Config<T>, s: Input<T>, w: nat, help: Help)
    requires Inv(c, s) && CanStep(c, s, w, help) && Shape(c, Advance(c, s, w, help).input)
    requires s.takers[w].Trying? || s.takers[w].Opening? || s.takers[w].Blocking?
    ensures Spends(c, s, w, Advance(c, s, w, help))
  {
    assert Known(s, s.takers[w]);
    match s.takers[w]
    case Trying(exhausted, open, at) => TrySpends(c, s, w, exhausted, open, at);
    case Opening => OpenNextSpends(c, s, w);
    case Blocking(head) => HoldSpends(c, s, w, head);
  }

  lemma LeavingSpends<T>(c: Config<T>, s: Input<T>, w: nat, i: nat)
    requires Inv(c, s) && w < |s.takers| && s.takers[w] == Leaving(i) && i < |s.owner|
    requires Shape(c, Goto(s.(owner := s.owner[i := None]), w, Closing).input)
    ensures Spends(c, s, w, Goto(s.(owner := s.owner[i := None]), w, Closing))
  {
  }

  lemma HeldSpends<T>(c: Config<T>, s: Input<T>, w: nat, help: Help)
    requires Inv(c, s) && CanStep(c, s, w, help) && Shape(c, Advance(c, s, w, help).input)
    requires Held(s.takers[w]).Some? || s.takers[w].Closing?
    ensures Spends(c, s, w, Advance(c, s, w, help))
  {
    assert Known(s, s.takers[w]);
    if s.takers[w].Holding? {
      DrawSpends(c, s, w, s.takers[w].stream);
    } else if s.takers[w].Drawn? {
      NumberSpends(c, s, w, s.takers[w].stream, s.takers[w].item);
    } else {
      EndSpends(c, s, w, help);
    }
  }

  lemma EndSpends<T>(c: Config<T>, s: Input<T>, w: nat, help: Help)
    requires Inv(c, s) && CanStep(c, s, w, help) && Shape(c, Advance(c, s, w, help).input)
    requires s.takers[w].Ending? || s.takers[w].Leaving? || s.takers[w].Closing?
    ensures Spends(c, s, w, Advance(c, s, w, help))
  {
    assert Known(s, s.takers[w]);
    if s.takers[w].Ending? {
      EndingSpends(c, s, w, s.takers[w].stream);
    } else if s.takers[w].Leaving? {
      LeavingSpends(c, s, w, s.takers[w].stream);
    } else {
      assert Advance(c, s, w, help) == Finish(c, s.(ended := s.ended + 1), w);
      FinishSpends(c, s.(ended := s.ended + 1), s, w);
    }
  }
}

/** What every step of `Input::take` keeps, whichever worker takes it. */
module TakeInvariants {
  import opened Basics
  import opened Streams
  import opened TakeInput

  // ---- the invariant ------------------------------------------------------------

  function Held<T>(taker: Taker<T>): Option<nat> {
    match taker
    case Holding(i) => Some(i)
    case Drawn(i, _) => Some(i)
    case Ending(i) => Some(i)
    case Leaving(i) => Some(i)
    case _ => None
  }

  /** A stream's lock has one holder, the worker that is inside its region. */
  ghost predicate Locks<T>(owner: seq<Option<nat>>, takers: seq<Taker<T>>) {
    && (forall i, w :: 0 <= i < |owner| && 0 <= w < |takers| ==>
         (owner[i] == Some(w) <==> Held(takers[w]) == Some(i)))
    && (forall i :: 0 <= i < |owner| && owner[i].Some? ==> owner[i].value < |takers|)
  }

  /** Where the holder of a lock is in its region; `Outside` when the lock is free. */
  function Phase<T>(owner: Option<nat>, takers: seq<Taker<T>>): Taker<T> {
    if owner.Some? && owner.value < |takers| then takers[owner.value] else Outside
  }

  /**
   * One stream: `pos` items drawn from `items`, `numbered` of them numbered.
   * Drawn items are numbered before the lock is free again unless the input
   * was stopped; a stream leaves the open ones before its lock is free.
   */
  ghost predicate StreamOk<T>(items: seq<T>, pos: nat, done: bool, numbered: nat, open: bool, begun: bool,
                        stopped: bool, phase: Taker<T>)
  {
    && pos <= |items|
    && (!begun ==> pos == 0 && !done && !open && phase == Outside)
    && (begun && !done ==> open)
    && (done && !stopped ==> pos == |items|)
    && match phase
       case Drawn(_, item) =>
         !done && 0 < pos && item == items[pos - 1] && numbered < pos && (!stopped ==> numbered + 1 == pos)
       case Holding(_) => !done && numbered <= pos && (!stopped ==> numbered == pos)
       case Ending(_) => done && open && numbered <= pos && (!stopped ==> numbered == pos)
       case Leaving(_) => done && !open && numbered <= pos && (!stopped ==> numbered == pos)
       case _ => (done && open ==> stopped) && numbered <= pos && (!stopped ==> numbered == pos)
  }

  ghost predicate StreamAt<T>(c: Config<T>, s: Input<T>, i: nat)
    requires Shape(c, s) && i < |c.streams|
  {
    StreamOk(c.streams[i], s.pos[i], s.done[i], |s.nums[i]|, i in s.open, i < s.started, s.stopped,
             Phase(s.owner[i], s.takers))
  }

  ghost predicate AllStreams<T>(c: Config<T>, s: Input<T>)
    requires Shape(c, s)
  {
    forall i :: 0 <= i < |c.streams| ==> StreamAt(c, s, i)
  }

  /** The origin of entry `k` is what it says, and the entry is that item. */
  ghost predicate OriginOk<T>(c: Config<T>, nums: seq<seq<nat>>, finished: bool, k: nat, item: T, origin: Origin) {
    match origin
    case FromStream(i, j) =>
      i < |nums| && i < |c.streams| && j < |nums[i]| && j < |c.streams[i]| && nums[i][j] == k && item == c.streams[i][j]
    case FromFinish => finished && c.tail == Last(Some(item))
    case FromList => c.tail == Broken(item)
    case FromHelper => c.helper == Some(item)
  }

  /**
   * The numbers of each stream's items go up in stream order, every number is
   * the number of one entry, and the `finish` item has at most one.
   */
  ghost predicate Log<T>(c: Config<T>, log: seq<T>, origin: seq<Origin>, nums: seq<seq<nat>>, finished: bool) {
    && |origin| == |log|
    && (forall k :: 0 <= k < |log| ==> OriginOk(c, nums, finished, k, log[k], origin[k]))
    && (forall i, j :: 0 <= i < |nums| && 0 <= j < |nums[i]| ==>
         nums[i][j] < |log| && origin[nums[i][j]] == FromStream(i, j))
    && (forall i, j, l :: 0 <= i < |nums| && 0 <= j < l < |nums[i]| ==> nums[i][j] < nums[i][l])
    && (forall k, l :: 0 <= k < l < |log| && origin[k] == FromFinish ==> origin[l] != FromFinish)
    && (finished && c.tail.Last? && c.tail.item.Some? ==> exists k :: 0 <= k < |log| && origin[k] == FromFinish)
  }

  /** An entry after which nothing is taken. */
  predicate Stops<T>(c: Config<T>, item: T, origin: Origin) {
    match origin
    case FromStream(_, _) => c.ends(item)
    case FromFinish => false
    case FromList => true
    case FromHelper => true
  }

  /** The input is stopped exactly when its last entry ends it; no entry before the last does. */
  ghost predicate Stop<T>(c: Config<T>, log: seq<T>, origin: seq<Origin>, stopped: bool)
    requires |origin| == |log|
  {
    && (stopped ==> |log| > 0 && Stops(c, log[|log| - 1], origin[|log| - 1]))
    && (forall k :: 0 <= k < |log| && Stops(c, log[k], origin[k]) ==> k == |log| - 1 && stopped)
  }

  function Closes<T>(taker: Taker<T>): nat {
    if taker.Leaving? || taker.Closing? then 1 else 0
  }

  ghost predicate Distinct(open: seq<nat>) {
    forall i, j :: 0 <= i < j < |open| ==> open[i] != open[j]
  }

  /**
   * A stream that was started is open, on its way out, or counted as ended;
   * `finish` is asked for only when all of them have ended.
   */
  ghost predicate Lists<T>(c: Config<T>, s: Input<T>) {
    && Distinct(s.open)
    && s.ended + |s.open| + Total(s.takers, Closes) == s.started
    && (s.stopped ==> s.exhausted)
    && (s.exhausted && !s.stopped ==> s.started == |c.streams| && c.tail.Last?)
    && (s.finished ==> s.exhausted && s.ended == s.started == |c.streams| && c.tail.Last?)
  }

  /** `finish` is asked for as soon as all streams have ended. */
  predicate Asked<T>(s: Input<T>) {
    s.exhausted && !s.stopped && s.ended == s.started ==> s.finished
  }

  ghost predicate Inv<T>(c: Config<T>, s: Input<T>) {
    InRegion(c, s) && Asked(s)
  }

  /** The invariant, but for a `finish` that the region is about to ask for. */
  ghost predicate InRegion<T>(c: Config<T>, s: Input<T>) {
    && Shape(c, s)
    && Locks(s.owner, s.takers)
    && AllStreams(c, s)
    && Log(c, s.log, s.origin, s.nums, s.finished)
    && Stop(c, s.log, s.origin, s.stopped)
    && Lists(c, s)
  }

  // ---- its parts, change by change ------------------------------------------------

  lemma ShapeOf<T>(c: Config<T>, s: Input<T>, s': Input<T>, w: nat, taker: Taker<T>)
    requires Shape(c, s) && w < |s.takers|
    requires s'.takers == s.takers[w := taker] && Known(s', taker)
    requires s.started <= s'.started <= |c.streams| && |s'.open| <= |c.streams|
    requires forall j :: j in s'.open ==> j in s.open || j < s'.started
    requires |s'.origin| == |s'.log|
    requires |s'.pos| == |s'.done| == |s'.owner| == |s'.nums| == |c.streams|
    ensures Shape(c, s')
  {
    forall v | 0 <= v < |s'.takers| && v != w
      ensures Known(s', s'.takers[v])
    {
      assert s'.takers[v] == s.takers[v];
      assert Known(s, s.takers[v]);
    }
  }

  lemma LocksSame<T>(owner: seq<Option<nat>>, takers: seq<Taker<T>>, w: nat, taker: Taker<T>)
    requires Locks(owner, takers) && w < |takers| && Held(taker) == Held(takers[w])
    ensures Locks(owner, takers[w := taker])
  {
  }

  lemma LocksTaken<T>(owner: seq<Option<nat>>, takers: seq<Taker<T>>, w: nat, i: nat)
    requires Locks(owner, takers) && w < |takers| && i < |owner|
    requires Held(takers[w]) == None && owner[i] == None
    ensures Locks(owner[i := Some(w)], takers[w := Holding(i)])
  {
  }

  lemma LocksFreed<T>(owner: seq<Option<nat>>, takers: seq<Taker<T>>, w: nat, i: nat, taker: Taker<T>)
    requires Locks(owner, takers) && w < |takers| && i < |owner|
    requires Held(takers[w]) == Some(i) && Held(taker) == None
    ensures Locks(owner[i := None], takers[w := taker])
  {
  }

  /** The step changes only what the acting worker holds: every other stream is as it was. */
  lemma StreamsElse<T>(c: Config<T>, s: Input<T>, s': Input<T>, w: nat, i: nat)
    requires Shape(c, s) && Locks(s.owner, s.takers) && AllStreams(c, s) && Shape(c, s')
    requires w < |s.takers| && s'.takers == s.takers[w := s'.takers[w]]
    requires i < |c.streams| && Held(s.takers[w]) != Some(i)
    requires s'.owner[i] == s.owner[i] && s'.owner[i] != Some(w)
    requires s'.pos[i] == s.pos[i] && s'.done[i] == s.done[i] && s'.nums[i] == s.nums[i]
    requires i in s'.open <==> i in s.open
    requires i < s.started <==> i < s'.started
    requires s.stopped ==> s'.stopped
    ensures StreamAt(c, s', i)
  {
    assert StreamAt(c, s, i);
    assert Phase(s'.owner[i], s'.takers) == Phase(s.owner[i], s.takers);
  }

  /** A worker that holds no stream moves on, and streams are as they were. */
  lemma StreamsSame<T>(c: Config<T>, s: Input<T>, s': Input<T>, w: nat)
    requires Shape(c, s) && Locks(s.owner, s.takers) && AllStreams(c, s) && Shape(c, s')
    requires w < |s.takers| && s'.takers == s.takers[w := s'.takers[w]]
    requires Held(s.takers[w]) == None && Held(s'.takers[w]) == None
    requires s'.owner == s.owner && s'.pos == s.pos && s'.done == s.done && s'.nums == s.nums
    requires s'.open == s.open && s'.started == s.started
    requires s.stopped ==> s'.stopped
    ensures AllStreams(c, s')
  {
    forall i | 0 <= i < |c.streams|
      ensures StreamAt(c, s', i)
    {
      StreamsElse(c, s, s', w, i);
    }
  }

  lemma LogSame<T>(c: Config<T>, s: Input<T>, item: T, ends: bool, origin: Origin)
    requires Log(c, s.log, s.origin, s.nums, s.finished) && Stop(c, s.log, s.origin, s.stopped)
    requires !s.stopped && ends == Stops(c, item, origin)
    requires OriginOk(c, s.nums, s.finished, |s.log|, item, origin)
    requires !origin.FromStream? && !origin.FromFinish?
    ensures Log(c, s.log + [item], s.origin + [origin], s.nums, s.finished)
    ensures Stop(c, s.log + [item], s.origin + [origin], s.stopped || ends)
  {
    if s.finished && c.tail.Last? && c.tail.item.Some? {
      var k :| 0 <= k < |s.log| && s.origin[k] == FromFinish;
      assert (s.origin + [origin])[k] == FromFinish;
    }
  }

  lemma LogFinish<T>(c: Config<T>, s: Input<T>, item: T)
    requires Log(c, s.log, s.origin, s.nums, false) && Stop(c, s.log, s.origin, false)
    requires c.tail == Last(Some(item))
    ensures Log(c, s.log + [item], s.origin + [FromFinish], s.nums, true)
    ensures Stop(c, s.log + [item], s.origin + [FromFinish], false)
  {
    forall k | 0 <= k < |s.log|
      ensures OriginOk(c, s.nums, true, k, s.log[k], s.origin[k]) && s.origin[k] != FromFinish
    {
      assert OriginOk(c, s.nums, false, k, s.log[k], s.origin[k]);
    }
    assert (s.origin + [FromFinish])[|s.log|] == FromFinish;
  }

  /** A stream's next number is the next of all. */
  lemma NumsStream(count: nat, origin: seq<Origin>, nums: seq<seq<nat>>, i: nat)
    requires |origin| == count && i < |nums|
    requires forall i, j :: 0 <= i < |nums| && 0 <= j < |nums[i]| ==>
               nums[i][j] < count && origin[nums[i][j]] == FromStream(i, j)
    requires forall i, j, l :: 0 <= i < |nums| && 0 <= j < l < |nums[i]| ==> nums[i][j] < nums[i][l]
    ensures var nums', origin' := nums[i := nums[i] + [count]], origin + [FromStream(i, |nums[i]|)];
            && (forall i, j :: 0 <= i < |nums'| && 0 <= j < |nums'[i]| ==>
                 nums'[i][j] < count + 1 && origin'[nums'[i][j]] == FromStream(i, j))
            && (forall i, j, l :: 0 <= i < |nums'| && 0 <= j < l < |nums'[i]| ==> nums'[i][j] < nums'[i][l])
  {
  }

  lemma StopStream<T>(c: Config<T>, log: seq<T>, origin: seq<Origin>, item: T, i: nat, j: nat)
    requires |origin| == |log| && Stop(c, log, origin, false)
    ensures Stop(c, log + [item], origin + [FromStream(i, j)], c.ends(item))
  {
  }

  lemma LogStream<T>(c: Config<T>, s: Input<T>, i: nat, item: T)
    requires Log(c, s.log, s.origin, s.nums, s.finished) && Stop(c, s.log, s.origin, false)
    requires i < |s.nums| && i < |c.streams| && |s.nums[i]| < |c.streams[i]| && item == c.streams[i][|s.nums[i]|]
    ensures var nums := s.nums[i := s.nums[i] + [|s.log|]];
            var origin := s.origin + [FromStream(i, |s.nums[i]|)];
            && Log(c, s.log + [item], origin, nums, s.finished)
            && Stop(c, s.log + [item], origin, c.ends(item))
  {
    var nums := s.nums[i := s.nums[i] + [|s.log|]];
    var origin := s.origin + [FromStream(i, |s.nums[i]|)];
    StopStream(c, s.log, s.origin, item, i, |s.nums[i]|);
    NumsStream(|s.log|, s.origin, s.nums, i);
    forall k | 0 <= k < |s.log|
      ensures OriginOk(c, nums, s.finished, k, s.log[k], origin[k])
    {
      assert OriginOk(c, s.nums, s.finished, k, s.log[k], s.origin[k]);
    }
    if s.finished && c.tail.Last? && c.tail.item.Some? {
      var k :| 0 <= k < |s.log| && s.origin[k] == FromFinish;
      assert origin[k] == FromFinish;
    }
  }

  // ---- region by region -------------------------------------------------------------

  lemma MovedKept<T>(c: Config<T>, s: Input<T>, w: nat, taker: Taker<T>)
    requires InRegion(c, s) && w < |s.takers| && Known(s, taker)
    requires Held(s.takers[w]) == None && Held(taker) == None
    requires Closes(s.takers[w]) == 0 && Closes(taker) == 0
    ensures InRegion(c, s.(takers := s.takers[w := taker]))
  {
    var s' := s.(takers := s.takers[w := taker]);
    ShapeOf(c, s, s', w, taker);
    LocksSame(s.owner, s.takers, w, taker);
    StreamsSame(c, s, s', w);
    TotalUpdate(s.takers, w, taker, Closes);
  }

  /** An entry that is not a stream's. */
  lemma EmitKept<T>(c: Config<T>, s: Input<T>, w: nat, item: T, ends: bool, origin: Origin)
    requires InRegion(c, s) && w < |s.takers| && !s.stopped
    requires Held(s.takers[w]) == None && Closes(s.takers[w]) == 0
    requires ends == Stops(c, item, origin) && OriginOk(c, s.nums, s.finished, |s.log|, item, origin)
    requires !origin.FromStream? && !origin.FromFinish?
    ensures InRegion(c, Emit(s, w, item, ends, origin).input)
  {
    var s' := Emit(s, w, item, ends, origin).input;
    ShapeOf(c, s, s', w, Outside);
    LocksSame(s.owner, s.takers, w, Outside);
    StreamsSame(c, s, s', w);
    LogSame(c, s, item, ends, origin);
    TotalUpdate(s.takers, w, Outside, Closes);
  }

  lemma EmitFinishKept<T>(c: Config<T>, s: Input<T>, w: nat, item: T)
    requires InRegion(c, s) && w < |s.takers| && Finishes(s) && c.tail == Last(Some(item))
    requires Held(s.takers[w]) == None && Closes(s.takers[w]) == 0
    ensures Inv(c, Emit(s.(finished := true), w, item, false, FromFinish).input)
  {
    var s' := Emit(s.(finished := true), w, item, false, FromFinish).input;
    ShapeOf(c, s, s', w, Outside);
    LocksSame(s.owner, s.takers, w, Outside);
    StreamsSame(c, s, s', w);
    LogFinish(c, s, item);
    TotalUpdate(s.takers, w, Outside, Closes);
  }

  lemma FinishKept<T>(c: Config<T>, s: Input<T>, w: nat)
    requires w < |s.takers| && InRegion(c, s.(takers := s.takers[w := Top]))
    ensures Inv(c, Finish(c, s, w).input)
  {
    var t := s.(takers := s.takers[w := Top]);
    if Finishes(s) {
      assert c.tail.Last?;
      match c.tail.item
      case Some(item) =>
        EmitFinishKept(c, t, w, item);
        assert t.takers[w := Outside] == s.takers[w := Outside];
      case None =>
        FinishedKept(c, t);
    }
  }

  /** `finish` has nothing to add. */
  lemma FinishedKept<T>(c: Config<T>, s: Input<T>)
    requires InRegion(c, s) && Finishes(s) && c.tail == Last(None)
    ensures Inv(c, s.(finished := true))
  {
    var s' := s.(finished := true);
    forall k | 0 <= k < |s.log|
      ensures OriginOk(c, s.nums, true, k, s.log[k], s.origin[k])
    {
      assert OriginOk(c, s.nums, false, k, s.log[k], s.origin[k]);
    }
    forall w | 0 <= w < |s.takers|
      ensures Known(s', s.takers[w])
    {
      assert Known(s, s.takers[w]);
    }
    forall i | 0 <= i < |c.streams|
      ensures StreamAt(c, s', i)
    {
      assert StreamAt(c, s, i);
    }
  }

  lemma HoldKept<T>(c: Config<T>, s: Input<T>, w: nat, i: nat)
    requires Inv(c, s) && w < |s.takers| && i < s.started && s.owner[i] == None
    requires Held(s.takers[w]) == None && Closes(s.takers[w]) == 0
    ensures Inv(c, Hold(s, w, i).input)
  {
    if s.done[i] {
      MovedKept(c, s, w, Top);
    } else {
      var s' := Hold(s, w, i).input;
      ShapeOf(c, s, s', w, Holding(i));
      LocksTaken(s.owner, s.takers, w, i);
      forall j | 0 <= j < |c.streams|
        ensures StreamAt(c, s', j)
      {
        if j == i {
          assert StreamAt(c, s, i);
        } else {
          StreamsElse(c, s, s', w, j);
        }
      }
      TotalUpdate(s.takers, w, Holding(i), Closes);
    }
  }

  /** The stream the worker holds is the only one its step changes. */
  lemma StreamsHeld<T>(c: Config<T>, s: Input<T>, s': Input<T>, w: nat, i: nat)
    requires Shape(c, s) && Locks(s.owner, s.takers) && AllStreams(c, s) && Shape(c, s')
    requires w < |s.takers| && s'.takers == s.takers[w := s'.takers[w]]
    requires i < |c.streams| && Held(s.takers[w]) == Some(i)
    requires s'.owner[i] == None || s'.owner[i] == Some(w)
    requires s'.owner == s.owner[i := s'.owner[i]]
    requires s'.pos == s.pos[i := s'.pos[i]] && s'.done == s.done[i := s'.done[i]] && s'.nums == s.nums[i := s'.nums[i]]
    requires forall j :: j != i ==> (j in s'.open <==> j in s.open)
    requires s.started == s'.started && (s.stopped ==> s'.stopped)
    requires StreamAt(c, s', i)
    ensures AllStreams(c, s')
  {
    forall j | 0 <= j < |c.streams|
      ensures StreamAt(c, s', j)
    {
      if j != i {
        StreamsElse(c, s, s', w, j);
      }
    }
  }

  /** The worker keeps the lock of its stream and changes nothing else. */
  lemma HeldStays<T>(c: Config<T>, s: Input<T>, s': Input<T>, w: nat, i: nat)
    requires InRegion(c, s) && w < |s.takers| && i < |c.streams| && Shape(c, s')
    requires s' == s.(pos := s'.pos, done := s'.done, takers := s.takers[w := s'.takers[w]])
    requires s'.pos == s.pos[i := s'.pos[i]] && s'.done == s.done[i := s'.done[i]]
    requires Held(s.takers[w]) == Held(s'.takers[w]) == Some(i) && s.owner[i] == Some(w)
    requires Closes(s'.takers[w]) == Closes(s.takers[w])
    requires StreamAt(c, s', i)
    ensures InRegion(c, s')
  {
    LocksSame(s.owner, s.takers, w, s'.takers[w]);
    StreamsHeld(c, s, s', w, i);
    TotalUpdate(s.takers, w, s'.takers[w], Closes);
  }

  lemma DrawKept<T>(c: Config<T>, s: Input<T>, w: nat, i: nat)
    requires Inv(c, s) && w < |s.takers| && s.takers[w] == Holding(i)
    ensures i < |c.streams| && Inv(c, Draw(c, s, w, i).input)
  {
    assert Known(s, s.takers[w]);
    assert StreamAt(c, s, i);
    var s' := Draw(c, s, w, i).input;
    ShapeOf(c, s, s', w, s'.takers[w]);
    HeldStays(c, s, s', w, i);
  }

  lemma NumberDrawnKept<T>(c: Config<T>, s: Input<T>, w: nat, i: nat, item: T)
    requires Inv(c, s) && w < |s.takers| && s.takers[w] == Drawn(i, item)
    ensures i < |c.streams| && Inv(c, NumberDrawn(c, s, w, i, item).input)
  {
    assert Known(s, s.takers[w]);
    assert StreamAt(c, s, i);
    var s' := NumberDrawn(c, s, w, i, item).input;
    ShapeOf(c, s, s', w, s'.takers[w]);
    LocksFreed(s.owner, s.takers, w, i, s'.takers[w]);
    if !s.stopped {
      LogStream(c, s, i, item);
    }
    StreamsHeld(c, s, s', w, i);
    TotalUpdate(s.takers, w, s'.takers[w], Closes);
  }

  lemma {:induction false} WithoutDistinct(open: seq<nat>, i: nat)
    requires Distinct(open)
    ensures Distinct(Without(open, i))
    ensures |Without(open, i)| + (if i in open then 1 else 0) == |open|
  {
    if open != [] {
      WithoutDistinct(open[1..], i);
      var rest := Without(open[1..], i);
      assert open[0] !in open[1..];
      assert open == [open[0]] + open[1..];
      if open[0] == i {
        assert Without(open, i) == rest;
      } else {
        assert Without(open, i) == [open[0]] + rest;
        forall k, l | 0 <= k < l < |Without(open, i)|
          ensures Without(open, i)[k] != Without(open, i)[l]
        {
          assert Without(open, i)[l] == rest[l - 1];
          if k == 0 {
            assert rest[l - 1] in rest;
          } else {
            assert Without(open, i)[k] == rest[k - 1];
          }
        }
      }
    }
  }

  lemma {:induction false} EndingKept<T>(c: Config<T>, s: Input<T>, w: nat, i: nat)
    requires Inv(c, s) && w < |s.takers| && s.takers[w] == Ending(i)
    ensures Inv(c, Goto(s.(open := Without(s.open, i)), w, Leaving(i)).input)
  {
    assert Known(s, s.takers[w]);
    assert StreamAt(c, s, i);
    var s' := Goto(s.(open := Without(s.open, i)), w, Leaving(i)).input;
    ShapeOf(c, s, s', w, Leaving(i));
    LocksSame(s.owner, s.takers, w, Leaving(i));
    StreamsHeld(c, s, s', w, i);
    WithoutDistinct(s.open, i);
    TotalUpdate(s.takers, w, Leaving(i), Closes);
    TotalAtLeast(s'.takers, w, Closes);
  }

  lemma LeavingKept<T>(c: Config<T>, s: Input<T>, w: nat, i: nat)
    requires Inv(c, s) && w < |s.takers| && s.takers[w] == Leaving(i)
    ensures i < |s.owner| && Inv(c, Goto(s.(owner := s.owner[i := None]), w, Closing).input)
  {
    assert Known(s, s.takers[w]);
    assert StreamAt(c, s, i);
    var s' := Goto(s.(owner := s.owner[i := None]), w, Closing).input;
    ShapeOf(c, s, s', w, Closing);
    LocksFreed(s.owner, s.takers, w, i, Closing);
    StreamsHeld(c, s, s', w, i);
    TotalUpdate(s.takers, w, Closing, Closes);
  }

  lemma {:induction false} ClosingKept<T>(c: Config<T>, s: Input<T>, w: nat)
    requires Inv(c, s) && w < |s.takers| && s.takers[w] == Closing
    ensures Inv(c, Finish(c, s.(ended := s.ended + 1), w).input)
  {
    ClosedRegion(c, s, w, s.(ended := s.ended + 1, takers := s.takers[w := Top]));
    FinishKept(c, s.(ended := s.ended + 1), w);
  }

  lemma {:induction false} ClosedRegion<T>(c: Config<T>, s: Input<T>, w: nat, s': Input<T>)
    requires Inv(c, s) && w < |s.takers| && s.takers[w] == Closing
    requires s' == s.(ended := s.ended + 1, takers := s.takers[w := Top])
    ensures InRegion(c, s')
  {
    ShapeOf(c, s, s', w, Top);
    LocksSame(s.owner, s.takers, w, Top);
    StreamsSame(c, s, s', w);
    TotalAtLeast(s.takers, w, Closes);
    TotalUpdate(s.takers, w, Top, Closes);
  }

  lemma OpenNextKept<T>(c: Config<T>, s: Input<T>, w: nat)
    requires Inv(c, s) && w < |s.takers| && s.takers[w] == Opening
    ensures Inv(c, OpenNext(c, s, w).input)
  {
    if s.exhausted || |s.open| >= c.Limit() {
      MovedKept(c, s, w, Top);
    } else if s.started < |c.streams| {
      OpenedKept(c, s, w);
    } else {
      match c.tail
      case Last(_) =>
        ExhaustedKept(c, s, w);
      case Broken(panic) =>
        EmitKept(c, s, w, panic, true, FromList);
        assert Asked(Emit(s, w, panic, true, FromList).input);
    }
  }

  /** No stream is left to open. */
  lemma ExhaustedKept<T>(c: Config<T>, s: Input<T>, w: nat)
    requires Inv(c, s) && w < |s.takers| && s.takers[w] == Opening
    requires !s.exhausted && s.started == |c.streams| && c.tail.Last?
    ensures Inv(c, Finish(c, s.(exhausted := true), w).input)
  {
    var t := s.(exhausted := true, takers := s.takers[w := Top]);
    ShapeOf(c, s, t, w, Top);
    LocksSame(s.owner, s.takers, w, Top);
    StreamsSame(c, s, t, w);
    TotalUpdate(s.takers, w, Top, Closes);
    FinishKept(c, s.(exhausted := true), w);
  }

  lemma DistinctAppend(open: seq<nat>, i: nat)
    requires Distinct(open) && i !in open
    ensures Distinct(open + [i])
  {
  }

  /** The next stream is opened. */
  lemma OpenedKept<T>(c: Config<T>, s: Input<T>, w: nat)
    requires Inv(c, s) && w < |s.takers| && s.takers[w] == Opening
    requires !s.exhausted && s.started < |c.streams|
    ensures Inv(c, Goto(s.(started := s.started + 1, open := s.open + [s.started]), w, Top).input)
  {
    var i := s.started;
    var s' := Goto(s.(started := i + 1, open := s.open + [i]), w, Top).input;
    DistinctAppend(s.open, i);
    ShapeOf(c, s, s', w, Top);
    LocksSame(s.owner, s.takers, w, Top);
    OpenedStreams(c, s, s', w);
    TotalUpdate(s.takers, w, Top, Closes);
  }

  lemma OpenedStreams<T>(c: Config<T>, s: Input<T>, s': Input<T>, w: nat)
    requires Shape(c, s) && Locks(s.owner, s.takers) && AllStreams(c, s) && Shape(c, s')
    requires w < |s.takers| && s.takers[w] == Opening && s.started < |c.streams|
    requires s' == s.(started := s.started + 1, open := s.open + [s.started], takers := s.takers[w := Top])
    ensures AllStreams(c, s')
  {
    forall j | 0 <= j < |c.streams|
      ensures StreamAt(c, s', j)
    {
      if j == s.started {
        OpenedAt(c, s, s', w);
      } else {
        StreamsElse(c, s, s', w, j);
      }
    }
  }

  lemma OpenedAt<T>(c: Config<T>, s: Input<T>, s': Input<T>, w: nat)
    requires Shape(c, s) && Locks(s.owner, s.takers) && AllStreams(c, s) && Shape(c, s')
    requires w < |s.takers| && s.started < |c.streams|
    requires s' == s.(started := s.started + 1, open := s.open + [s.started], takers := s.takers[w := Top])
    ensures StreamAt(c, s', s.started)
  {
    var i := s.started;
    assert StreamAt(c, s, i);
    assert i in s'.open;
    assert s.owner[i] == None;
  }

  lemma ShapeKept<T>(c: Config<T>, s: Input<T>, w: nat, help: Help)
    requires Inv(c, s) && CanStep(c, s, w, help)
    ensures Shape(c, Advance(c, s, w, help).input)
  {
    Kept(c, s, w, help);
  }

  /** Every step of every worker keeps the invariant. */
  lemma Kept<T>(c: Config<T>, s: Input<T>, w: nat, help: Help)
    requires Inv(c, s) && CanStep(c, s, w, help)
    ensures Inv(c, Advance(c, s, w, help).input)
  {
    if Held(s.takers[w]).Some? || s.takers[w].Closing? {
      HeldKept(c, s, w, help);
    } else {
      FreeKept(c, s, w, help);
    }
  }

  lemma HeldKept<T>(c: Config<T>, s: Input<T>, w: nat, help: Help)
    requires Inv(c, s) && CanStep(c, s, w, help)
    requires Held(s.takers[w]).Some? || s.takers[w].Closing?
    ensures Inv(c, Advance(c, s, w, help).input)
  {
    if s.takers[w].Holding? {
      DrawKept(c, s, w, s.takers[w].stream);
      assert Advance(c, s, w, help) == Draw(c, s, w, s.takers[w].stream);
    } else if s.takers[w].Drawn? {
      NumberDrawnKept(c, s, w, s.takers[w].stream, s.takers[w].item);
      assert Advance(c, s, w, help) == NumberDrawn(c, s, w, s.takers[w].stream, s.takers[w].item);
    } else if s.takers[w].Ending? {
      EndingKept(c, s, w, s.takers[w].stream);
    } else if s.takers[w].Leaving? {
      LeavingKept(c, s, w, s.takers[w].stream);
    } else {
      ClosingKept(c, s, w);
      assert Advance(c, s, w, help) == Finish(c, s.(ended := s.ended + 1), w);
    }
  }

  lemma FreeKept<T>(c: Config<T>, s: Input<T>, w: nat, help: Help)
    requires Inv(c, s) && CanStep(c, s, w, help)
    requires Held(s.takers[w]).None? && !s.takers[w].Closing?
    ensures Inv(c, Advance(c, s, w, help).input)
  {
    assert Known(s, s.takers[w]);
    match s.takers[w]
    case Opening => OpenNextKept(c, s, w);
    case Blocking(head) => HoldKept(c, s, w, head);
    case Trying(exhausted, open, at) => TryNextKept(c, s, w, exhausted, open, at);
    case Listing(exhausted) => MovedKept(c, s, w, Advance(c, s, w, help).input.takers[w]);
    case _ => HelpKept(c, s, w, help);
  }

  lemma TryNextKept<T>(c: Config<T>, s: Input<T>, w: nat, exhausted: bool, open: seq<nat>, at: nat)
    requires Inv(c, s) && w < |s.takers| && s.takers[w] == Trying(exhausted, open, at)
    ensures Inv(c, TryNext(c, s, w, exhausted, open, at).input)
  {
    assert Known(s, s.takers[w]);
    var taker := TryNext(c, s, w, exhausted, open, at).input.takers[w];
    if at == |open| {
      assert open[0] in open;
      MovedKept(c, s, w, taker);
    } else {
      assert open[at] in open;
      if s.owner[open[at]].Some? {
        MovedKept(c, s, w, taker);
      } else {
        HoldKept(c, s, w, open[at]);
      }
    }
  }

  lemma HelpKept<T>(c: Config<T>, s: Input<T>, w: nat, help: Help)
    requires Inv(c, s) && CanStep(c, s, w, help)
    requires s.takers[w].Helping? || s.takers[w].AllHeld? || s.takers[w].Top? || s.takers[w].Running?
    ensures Inv(c, Advance(c, s, w, help).input)
  {
    assert Known(s, s.takers[w]);
    if (s.takers[w].Helping? || s.takers[w].AllHeld?) && help == Panics && !s.stopped {
      EmitKept(c, s, w, c.helper.value, true, FromHelper);
    } else {
      MovedKept(c, s, w, Advance(c, s, w, help).input.takers[w]);
    }
  }

  lemma EnterKept<T>(c: Config<T>, s: Input<T>, w: nat)
    requires Inv(c, s) && w < |s.takers| && s.takers[w] == Outside
    ensures Inv(c, Enter(s, w))
  {
    MovedKept(c, s, w, Helping);
  }

  lemma StartInv<T>(c: Config<T>)
    ensures Inv(c, Start(c))
  {
    var s := Start(c);
    TotalZero(s.takers, Closes);
    forall i | 0 <= i < |c.streams|
      ensures StreamAt(c, s, i)
    {
    }
    forall i, w | 0 <= i < |s.owner| && 0 <= w < |s.takers|
      ensures s.owner[i] == Some(w) <==> Held(s.takers[w]) == Some(i)
    {
    }
  }
}

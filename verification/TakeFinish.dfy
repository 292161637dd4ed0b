/**
 * The `finish` item in every run and any order (`Input::finish`,
 * crates/xeibe-core/src/parallel.rs:405-417): asked for once every item of every
 * stream has its number, so nothing but a panic of the helper is numbered after it.
 */
module TakeFinish {
  import opened Basics
  import opened TakeInput
  import opened TakeInvariants
  import opened WorkerPool
  import opened PoolInvariants
  import opened PoolResults

  ghost predicate AllNumbered<T>(c: Config<T>, nums: seq<seq<nat>>) {
    |nums| == |c.streams| && forall i :: 0 <= i < |nums| ==> |nums[i]| == |c.streams[i]|
  }

  ghost predicate OnlyHelperAfter(origin: seq<Origin>) {
    forall k, l :: 0 <= k < l < |origin| && origin[k] == FromFinish ==> origin[l] == FromHelper
  }

  ghost predicate FinishOk<T>(c: Config<T>, s: Input<T>) {
    OnlyHelperAfter(s.origin) && (s.finished ==> AllNumbered(c, s.nums))
  }

  lemma FinishedBy<T>(c: Config<T>, s: Input<T>, k: nat)
    requires Inv(c, s) && k < |s.origin| && s.origin[k] == FromFinish
    ensures s.finished
  {
    assert OriginOk(c, s.nums, s.finished, k, s.log[k], s.origin[k]);
  }

  lemma NotFinishedYet<T>(c: Config<T>, s: Input<T>)
    requires Inv(c, s)
    ensures !s.finished ==> forall k :: 0 <= k < |s.origin| ==> s.origin[k] != FromFinish
  {
    forall k | 0 <= k < |s.origin| && s.origin[k] == FromFinish
      ensures s.finished
    {
      FinishedBy(c, s, k);
    }
  }

  /** Every stream was opened and none is open: each is numbered to its end. */
  lemma AllEnded<T>(c: Config<T>, s: Input<T>)
    requires Shape(c, s) && AllStreams(c, s) && !s.stopped && s.started == |c.streams| && s.open == []
    ensures AllNumbered(c, s.nums)
  {
    forall i | 0 <= i < |c.streams|
      ensures |s.nums[i]| == |c.streams[i]|
    {
      assert StreamAt(c, s, i);
    }
  }

  /** A stream with an item drawn and not numbered has not ended, so `finish` was not asked for. */
  lemma DrawnBefore<T>(c: Config<T>, s: Input<T>, w: nat)
    requires Inv(c, s) && w < |s.takers| && s.takers[w].Drawn?
    ensures !s.finished
  {
    var i := s.takers[w].stream;
    assert Known(s, s.takers[w]);
    assert Held(s.takers[w]) == Some(i);
    assert s.owner[i] == Some(w);
    assert StreamAt(c, s, i);
  }

  lemma DrawnFinish<T>(c: Config<T>, s: Input<T>, w: nat, i: nat, item: T)
    requires Inv(c, s) && FinishOk(c, s) && w < |s.takers| && s.takers[w] == Drawn(i, item)
    ensures i < |s.nums| && FinishOk(c, NumberDrawn(c, s, w, i, item).input)
  {
    assert Known(s, s.takers[w]);
    DrawnBefore(c, s, w);
    NotFinishedYet(c, s);
  }

  lemma OpeningFinish<T>(c: Config<T>, s: Input<T>, w: nat)
    requires Inv(c, s) && FinishOk(c, s) && w < |s.takers| && s.takers[w] == Opening
    ensures FinishOk(c, OpenNext(c, s, w).input)
  {
    if !s.finished {
      NotFinishedYet(c, s);
    }
    if !s.stopped && s.started == |c.streams| && s.open == [] {
      AllEnded(c, s);
    }
  }

  lemma ClosingFinish<T>(c: Config<T>, s: Input<T>, w: nat)
    requires Inv(c, s) && FinishOk(c, s) && w < |s.takers| && s.takers[w] == Closing
    ensures FinishOk(c, Finish(c, s.(ended := s.ended + 1), w).input)
  {
    TotalAtLeast(s.takers, w, Closes);
    NotFinishedYet(c, s);
    if !s.stopped && s.started == |c.streams| && s.open == [] {
      AllEnded(c, s);
    }
  }

  /** Nothing of a stream is numbered, and `finish` is not asked for. */
  ghost predicate Aside<T>(s: Input<T>, s': Input<T>) {
    && s'.finished == s.finished && s'.nums == s.nums
    && (s'.origin == s.origin || s'.origin == s.origin + [FromHelper])
  }

  lemma AsideFinish<T>(c: Config<T>, s: Input<T>, s': Input<T>)
    requires FinishOk(c, s) && Aside(s, s')
    ensures FinishOk(c, s')
  {
  }

  lemma HeldAside<T>(c: Config<T>, s: Input<T>, w: nat, help: Help)
    requires Shape(c, s) && CanStep(c, s, w, help)
    requires || s.takers[w].Holding? || s.takers[w].Ending? || s.takers[w].Leaving?
             || s.takers[w].Trying? || s.takers[w].Blocking?
    ensures Aside(s, Advance(c, s, w, help).input)
  {
    assert Known(s, s.takers[w]);
  }

  lemma FreeAside<T>(c: Config<T>, s: Input<T>, w: nat, help: Help)
    requires Shape(c, s) && CanStep(c, s, w, help)
    requires || s.takers[w].Helping? || s.takers[w].Top? || s.takers[w].Running?
             || s.takers[w].Listing? || s.takers[w].AllHeld?
    ensures Aside(s, Advance(c, s, w, help).input)
  {
  }

  lemma FinishStep<T>(c: Config<T>, s: Input<T>, w: nat, help: Help)
    requires Inv(c, s) && FinishOk(c, s) && CanStep(c, s, w, help)
    ensures FinishOk(c, Advance(c, s, w, help).input)
  {
    var taker := s.takers[w];
    if taker.Drawn? {
      DrawnFinish(c, s, w, taker.stream, taker.item);
    } else if taker.Opening? {
      OpeningFinish(c, s, w);
    } else if taker.Closing? {
      ClosingFinish(c, s, w);
    } else {
      if taker.Holding? || taker.Ending? || taker.Leaving? || taker.Trying? || taker.Blocking? {
        HeldAside(c, s, w, help);
      } else {
        FreeAside(c, s, w, help);
      }
      AsideFinish(c, s, Advance(c, s, w, help).input);
    }
  }

  lemma WorkFinish<T, R>(c: Options<T, R>, s: Pool<T, R>, w: nat, help: Help, wake: Option<nat>)
    requires PoolInv(c, s) && FinishOk(c.take, s.input) && CanWork(c, s, w, help, wake)
    ensures FinishOk(c.take, WorkStep(c, s, w, help, wake).input)
  {
    if s.workers[w].Taking? {
      FinishStep(c.take, s.input, w, help);
    }
  }

  lemma FinishKept<T, R>(c: Options<T, R>, s: Pool<T, R>, a: Action)
    requires PoolInv(c, s) && FinishOk(c.take, s.input) && Enabled(c, s, a)
    ensures FinishOk(c.take, Apply(c, s, a).input)
  {
    if a.Work? {
      WorkFinish(c, s, a.worker, a.help, a.wake);
    }
  }

  lemma {:induction false} ReachedFinish<T, R>(c: Options<T, R>, acts: seq<Action>)
    requires c.Valid() && After(c, acts).Some?
    ensures FinishOk(c.take, After(c, acts).value.input)
  {
    if acts != [] {
      var before := acts[..|acts| - 1];
      Reached(c, before);
      ReachedFinish(c, before);
      FinishKept(c, After(c, before).value, acts[|acts| - 1]);
    }
  }

  lemma FinishLast<T>(c: Config<T>, s: Input<T>, k: nat, i: nat, j: nat)
    requires Inv(c, s) && FinishOk(c, s) && k < |s.origin| && s.origin[k] == FromFinish
    requires i < |c.streams| && j < |c.streams[i]|
    ensures i < |s.nums| && j < |s.nums[i]| && s.nums[i][j] < k && s.origin[s.nums[i][j]] == FromStream(i, j)
  {
    FinishedBy(c, s, k);
    var n := s.nums[i][j];
    assert s.origin[n] == FromStream(i, j);
  }

  /**
   * In every run, stopped or not, and in any order: the `finish` item is numbered
   * once, and after every item of every stream.
   */
  lemma {:induction false} FinishItemComesLast<T, R>(c: Options<T, R>, acts: seq<Action>, k: nat, i: nat, j: nat)
    requires c.Valid() && After(c, acts).Some?
    requires k < |After(c, acts).value.input.origin| && After(c, acts).value.input.origin[k] == FromFinish
    requires i < |c.take.streams| && j < |c.take.streams[i]|
    ensures var s := After(c, acts).value.input;
            && i < |s.nums| && j < |s.nums[i]| && s.nums[i][j] < k
            && s.origin[s.nums[i][j]] == FromStream(i, j)
    ensures var origin := After(c, acts).value.input.origin;
            forall l :: 0 <= l < |origin| && origin[l] == FromFinish ==> l == k
  {
    Reached(c, acts);
    ReachedFinish(c, acts);
    FinishLast(c.take, After(c, acts).value.input, k, i, j);
  }
}

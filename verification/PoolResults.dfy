/**
 * What the consumer of a pool gets, in every run: with `ordered`, exactly what
 * one thread would return; in any order, every item once; never a deadlock.
 */
module PoolResults {
  import opened Basics
  import opened TakeInput
  import opened TakeInvariants
  import opened TakeOrder
  import opened WorkerPool
  import opened PoolInvariants
  import opened PoolKept

  // ---- runs -----------------------------------------------------------------------

  /** The state after the actions, if each was enabled in its turn. */
  ghost function After<T, R>(c: Options<T, R>, acts: seq<Action>): Option<Pool<T, R>> {
    if acts == [] then Some(Begin(c))
    else
      var last := acts[|acts| - 1];
      match After(c, acts[..|acts| - 1])
      case None => None
      case Some(s) => if Fits(c, s) && Enabled(c, s, last) then Some(Apply(c, s, last)) else None
  }

  ghost predicate InOrder<T, R>(c: Options<T, R>, s: Pool<T, R>) {
    Shape(c.take, s.input) && (c.ordered ==> Ordered(c.take, s.input))
  }

  lemma InOrderKept<T, R>(c: Options<T, R>, s: Pool<T, R>, a: Action)
    requires c.Valid() && PoolInv(c, s) && InOrder(c, s) && Enabled(c, s, a)
    ensures InOrder(c, Apply(c, s, a))
  {
    if a.Work? && s.workers[a.worker].Taking? {
      TakingInOrder(c, s, a.worker, a.help);
      assert Apply(c, s, a) == TakeStep(s, a.worker, Advance(c.take, s.input, a.worker, a.help));
    } else if a.Work? {
      OutsideInOrder(c, s, a.worker, a.help, a.wake);
    } else {
      assert Apply(c, s, a).input == s.input;
    }
  }

  lemma TakingInOrder<T, R>(c: Options<T, R>, s: Pool<T, R>, w: nat, help: Help)
    requires c.Valid() && PoolInv(c, s) && InOrder(c, s) && w < |s.workers| && CanStep(c.take, s.input, w, help)
    ensures InOrder(c, TakeStep(s, w, Advance(c.take, s.input, w, help)))
  {
    if c.ordered {
      OrderKept(c.take, s.input, w, help);
    } else {
      ShapeKept(c.take, s.input, w, help);
    }
  }

  /** Outside `take`, a worker changes nothing of the input but that it enters. */
  lemma OutsideInOrder<T, R>(c: Options<T, R>, s: Pool<T, R>, w: nat, help: Help, wake: Option<nat>)
    requires PoolInv(c, s) && InOrder(c, s) && CanWork(c, s, w, help, wake) && !s.workers[w].Taking?
    ensures InOrder(c, WorkStep(c, s, w, help, wake))
  {
    var s' := WorkStep(c, s, w, help, wake);
    if s'.input != s.input {
      EnterKept(c.take, s.input, w);
      if c.ordered {
        OrderedSame(c.take, s.input, s'.input);
      }
    }
  }

  lemma {:induction false} Reached<T, R>(c: Options<T, R>, acts: seq<Action>)
    requires c.Valid() && After(c, acts).Some?
    ensures PoolInv(c, After(c, acts).value) && InOrder(c, After(c, acts).value)
  {
    if acts == [] {
      BeginInv(c);
      if c.ordered {
        assert c.take.Limit() == 1;
      }
    } else {
      var s := After(c, acts[..|acts| - 1]).value;
      Reached(c, acts[..|acts| - 1]);
      ApplyKept(c, s, acts[|acts| - 1]);
      InOrderKept(c, s, acts[|acts| - 1]);
    }
  }

  // ---- no deadlock ------------------------------------------------------------------

  /** A step that is not the helper's doing and not a spurious wake-up. */
  ghost predicate CanProgress<T, R>(c: Options<T, R>, s: Pool<T, R>, w: nat)
    requires Fits(c, s)
  {
    exists wake :: CanWork(c, s, w, Idle, wake)
  }

  lemma SomeWake<R>(workers: seq<Worker<R>>) returns (wake: Option<nat>)
    ensures MayWake(workers, wake)
  {
    if v: nat :| v < |workers| && workers[v].Asleep? {
      wake := Some(v);
    } else {
      wake := None;
    }
  }

  /** Inside `take`, the worker itself can go on, or the one that holds the stream it waits for. */
  lemma TakerGoesOn<T, R>(c: Options<T, R>, s: Pool<T, R>, w: nat) returns (v: nat)
    requires PoolInv(c, s) && w < |s.workers| && s.workers[w].Taking?
    ensures v < |s.workers| && CanProgress(c, s, v)
  {
    var taker := s.input.takers[w];
    assert Known(s.input, taker);
    v := w;
    if taker.Blocking? && s.input.owner[taker.head].Some? {
      v := s.input.owner[taker.head].value;
      assert Held(s.input.takers[v]) == Some(taker.head);
    }
    assert CanWork(c, s, v, Idle, None);
  }

  /** A worker outside `take` that neither waits nor has ended can go on. */
  lemma OthersGoOn<T, R>(c: Options<T, R>, s: Pool<T, R>, w: nat)
    requires PoolInv(c, s) && w < |s.workers| && !s.workers[w].Taking? && !s.workers[w].Asleep? && !s.workers[w].Gone?
    ensures CanProgress(c, s, w)
  {
    var wake := SomeWake(s.workers);
    assert CanWork(c, s, w, Idle, wake);
  }

  /**
   * With every worker waiting or ended, no ticket is free, because no wake-up is
   * on its way: all of them are held by results that came too early.
   */
  lemma BufferFull<T, R>(c: Options<T, R>, s: Pool<T, R>)
    requires c.Valid() && Conserved(c, s) && NoLostWakeUp(s.workers, s.free, s.cancelled, s.consumer)
    requires s.consumer.Looking? && s.channel == []
    requires forall w :: 0 <= w < |s.workers| ==> s.workers[w].Asleep? || s.workers[w].Gone?
    requires exists w :: 0 <= w < |s.workers| && s.workers[w].Asleep?
    ensures |s.pending| == c.Tickets() > 0
  {
    TotalZero(s.workers, Announces);
    TotalZero(s.workers, Holds);
  }

  /** A result in the buffer came after one that is not there. */
  lemma NextIsNumbered<T, R>(c: Options<T, R>, s: Pool<T, R>)
    requires Located(c, s) && c.ordered && s.pending != map[] && s.next !in s.pending
    ensures s.next < |s.place|
  {
    HandedPlaces(c, s);
    var k :| k in s.pending;
    assert k >= s.next;
  }

  lemma HandedPlaces<T, R>(c: Options<T, R>, s: Pool<T, R>)
    requires Located(c, s) && c.ordered
    ensures s.next <= |s.place| && forall i :: 0 <= i < s.next ==> s.place[i] == Handed
  {
    forall i | 0 <= i < s.next
      ensures i < |s.place| && s.place[i] == Handed
    {
      assert s.handed[i].0 == i;
    }
    if s.next > 0 {
      assert s.handed[s.next - 1].0 == s.next - 1;
    }
  }

  /** The result the consumer waits for, if numbered, is with a worker. */
  lemma NextIsOnWorker<T, R>(c: Options<T, R>, s: Pool<T, R>)
    requires Located(c, s) && c.ordered && s.next < |s.place| && s.next !in s.pending && s.channel == []
    requires !s.consumer.Closed?
    ensures s.place[s.next].OnWorker?
    ensures var w := s.place[s.next].worker; w < |s.workers| && NumberOf(s.workers[w]) == Some(s.next)
  {
    assert s.place[s.next] != InChannel;
    assert s.place[s.next] != Handed;
  }

  /**
   * While the consumer waits, some worker can go on: the tickets are never all
   * held by results that came ahead of the one the consumer waits for, and no
   * wake-up is lost.
   */
  lemma NoDeadlock<T, R>(c: Options<T, R>, s: Pool<T, R>) returns (w: nat)
    requires c.Valid() && PoolInv(c, s) && s.consumer.Looking? && !CanLook(c, s)
    ensures w < |s.workers| && CanProgress(c, s, w)
  {
    w := 0;
    if v: nat :| v < |s.workers| && !s.workers[v].Asleep? && !s.workers[v].Gone? {
      if s.workers[v].Taking? {
        w := TakerGoesOn(c, s, v);
      } else {
        OthersGoOn(c, s, v);
        w := v;
      }
    } else {
      BufferFull(c, s);
      NextIsNumbered(c, s);
      NextIsOnWorker(c, s);
      assert false;
    }
  }

  /** After a cancel no worker waits, so every worker that has not ended can go on or is waited for. */
  lemma CancelledGoesOn<T, R>(c: Options<T, R>, s: Pool<T, R>) returns (w: nat)
    requires c.Valid() && PoolInv(c, s) && s.cancelled && !AllGone(s.workers)
    ensures w < |s.workers| && CanProgress(c, s, w)
  {
    var v: nat :| v < |s.workers| && !s.workers[v].Gone?;
    if s.workers[v].Taking? {
      w := TakerGoesOn(c, s, v);
    } else {
      OthersGoOn(c, s, v);
      w := v;
    }
  }

  // ---- in order -----------------------------------------------------------------------

  /** What `next` has returned so far. */
  function Returned<T, R>(s: Pool<T, R>): seq<R> {
    seq(|s.handed|, i requires 0 <= i < |s.handed| => s.handed[i].1)
  }

  lemma ReturnedIsMapped<T, R>(c: Options<T, R>, s: Pool<T, R>)
    requires PoolInv(c, s) && c.ordered
    ensures s.next <= |s.input.log|
    ensures Returned(s) == Mapped(c.f, s.input.log[..s.next])
  {
    if s.next > 0 {
      assert s.handed[s.next - 1].0 == s.next - 1;
    }
    forall i | 0 <= i < s.next
      ensures Returned(s)[i] == c.f(s.input.log[i])
    {
      assert s.handed[i].0 == i;
    }
  }

  /** At the end, every number was handed over: the buffer is empty, without gaps. */
  lemma FinishedHasAll<T, R>(c: Options<T, R>, s: Pool<T, R>)
    requires PoolInv(c, s) && c.ordered && s.consumer.Finished?
    ensures s.pending == map[] && s.next == |s.input.log|
  {
    ReturnedIsMapped(c, s);
    AllGoneAllHanded(c, s);
  }

  /** With no worker left and nothing in the channel, nothing waits for a number either. */
  lemma AllGoneAllHanded<T, R>(c: Options<T, R>, s: Pool<T, R>)
    requires Located(c, s) && c.ordered && !s.consumer.Closed?
    requires AllGone(s.workers) && s.channel == [] && s.next !in s.pending
    ensures s.pending == map[] && s.next >= |s.place|
  {
    if s.next < |s.place| {
      NextIsOnWorker(c, s);
      assert false;
    }
    HandedPlaces(c, s);
    assert forall k :: k !in s.pending;
  }

  /** Once all workers have ended without a cancel, the input was used up and its `finish` item was asked for. */
  lemma FinishedInput<T, R>(c: Options<T, R>, s: Pool<T, R>)
    requires c.Valid() && PoolInv(c, s) && AllGone(s.workers) && !s.cancelled
    ensures s.input.stopped || (s.input.finished && s.input.open == [] && s.input.started == |c.take.streams|)
  {
    assert s.workers[0].Gone?;
    forall w | 0 <= w < |s.input.takers|
      ensures Closes(s.input.takers[w]) == 0
    {
      assert !s.workers[w].Taking?;
    }
    TotalZero(s.input.takers, Closes);
  }

  /** In order, and without a panic of the helper: the input has been numbered from its start. */
  lemma LogIsBegun<T, R>(c: Options<T, R>, s: Pool<T, R>)
    requires c.ordered && c.take.helper == None && PoolInv(c, s) && Ordered(c.take, s.input)
    ensures s.input.log <= Ideal(c.take)
    ensures s.input.stopped || s.input.finished ==> s.input.log == Ideal(c.take)
  {
    var last := |s.input.log| - 1;
    if s.input.stopped {
      assert OriginOk(c.take, s.input.nums, s.input.finished, last, s.input.log[last], s.input.origin[last]);
    } else if !s.input.finished {
      var rest := LogBegins(c.take, s.input);
    }
  }

  /**
   * In order, every run returns what one thread does: at any moment a prefix of
   * `f` over the input in order, and all of it when the map has ended.
   */
  lemma {:induction false} InOrderRefinesSequential<T, R>(c: Options<T, R>, acts: seq<Action>)
    requires c.Valid() && c.ordered && c.take.helper == None && After(c, acts).Some?
    ensures var s := After(c, acts).value;
            && Returned(s) <= Mapped(c.f, Ideal(c.take))
            && (s.consumer.Finished? ==> Returned(s) == Mapped(c.f, Ideal(c.take)))
  {
    Reached(c, acts);
    var s := After(c, acts).value;
    ReturnedIsMapped(c, s);
    LogIsBegun(c, s);
    if s.consumer.Finished? {
      FinishedHasAll(c, s);
      FinishedInput(c, s);
      assert s.input.log[..s.next] == s.input.log;
    }
  }

  /** The items in order, or those taken before a panic of the helper and then the panic. */
  ghost predicate UpToPanic<X>(items: seq<X>, ideal: seq<X>, panic: Option<X>) {
    || items == ideal
    || (panic.Some? && |items| > 0 && items[|items| - 1] == panic.value && items[..|items| - 1] <= ideal)
  }

  lemma UpToPanicMapped<X, Y>(f: X -> Y, items: seq<X>, ideal: seq<X>, panic: Option<X>)
    requires UpToPanic(items, ideal, panic)
    ensures UpToPanic(Mapped(f, items), Mapped(f, ideal), if panic.Some? then Some(f(panic.value)) else None)
  {
    if items != ideal {
      assert Mapped(f, items)[..|items| - 1] == Mapped(f, items[..|items| - 1]);
    }
  }

  /** With a helper that panics: what was taken before, then the panic. */
  lemma {:induction false} InOrderUpToPanic<T, R>(c: Options<T, R>, acts: seq<Action>)
    requires c.Valid() && c.ordered && After(c, acts).Some? && After(c, acts).value.consumer.Finished?
    ensures UpToPanic(Returned(After(c, acts).value), Mapped(c.f, Ideal(c.take)),
                      if c.take.helper.Some? then Some(c.f(c.take.helper.value)) else None)
  {
    Reached(c, acts);
    var s := After(c, acts).value;
    FinishedReturnsAll(c, s);
    FinishedInput(c, s);
    LogIsIdeal(c, s);
    UpToPanicMapped(c.f, s.input.log, Ideal(c.take), c.take.helper);
  }

  lemma FinishedReturnsAll<T, R>(c: Options<T, R>, s: Pool<T, R>)
    requires c.Valid() && c.ordered && PoolInv(c, s) && s.consumer.Finished?
    ensures Returned(s) == Mapped(c.f, s.input.log) && AllGone(s.workers) && !s.cancelled
  {
    ReturnedIsMapped(c, s);
    FinishedHasAll(c, s);
    assert s.input.log[..s.next] == s.input.log;
  }

  /** An input used up in order: its items, or the items taken before a panic of the helper. */
  lemma LogIsIdeal<T, R>(c: Options<T, R>, s: Pool<T, R>)
    requires c.ordered && c.Valid() && PoolInv(c, s) && Ordered(c.take, s.input)
    requires s.input.stopped || (s.input.finished && s.input.open == [] && s.input.started == |c.take.streams|)
    ensures UpToPanic(s.input.log, Ideal(c.take), c.take.helper)
  {
    var log, last := s.input.log, |s.input.log| - 1;
    if s.input.stopped && s.input.origin[last] == FromHelper {
      assert OriginOk(c.take, s.input.nums, s.input.finished, last, log[last], s.input.origin[last]);
    }
  }

  // ---- in any order ---------------------------------------------------------------------

  /** At the end, every number was handed over, once. */
  lemma FinishedHandsAll<T, R>(c: Options<T, R>, s: Pool<T, R>, k: nat)
    requires PoolInv(c, s) && s.consumer.Finished? && k < |s.input.log|
    ensures exists h :: 0 <= h < |s.handed| && s.handed[h].0 == k
    ensures forall h, g :: 0 <= h < g < |s.handed| ==> !(s.handed[h].0 == k && s.handed[g].0 == k)
  {
    if c.ordered {
      FinishedHasAll(c, s);
    }
    assert !s.place[k].OnWorker?;
    assert s.place[k] != InChannel;
    assert s.place[k] == Handed;
  }

  /** What was handed over is the result of the stream item, or the `finish` item, with its number. */
  ghost predicate OfAnItem<T, R>(c: Options<T, R>, s: Pool<T, R>, handed: (nat, R)) {
    && handed.0 < |s.input.origin|
    && match s.input.origin[handed.0]
       case FromStream(i, j) =>
         i < |c.take.streams| && j < |c.take.streams[i]| && i < |s.input.nums| && j < |s.input.nums[i]|
         && handed == (s.input.nums[i][j], c.f(c.take.streams[i][j]))
       case FromFinish => c.take.tail.Last? && c.take.tail.item.Some? && handed.1 == c.f(c.take.tail.item.value)
       case _ => false
  }

  lemma HandsItems<T, R>(c: Options<T, R>, s: Pool<T, R>, h: nat)
    requires PoolInv(c, s) && !s.input.stopped && h < |s.handed|
    ensures OfAnItem(c, s, s.handed[h])
  {
    var k := s.handed[h].0;
    assert s.handed[h].1 == c.f(s.input.log[k]);
    assert OriginOk(c.take, s.input.nums, s.input.finished, k, s.input.log[k], s.input.origin[k]);
    assert !Stops(c.take, s.input.log[k], s.input.origin[k]);
  }

  /**
   * In any order, a run that is neither stopped nor dropped returns the result of
   * every item of every stream, each once, and nothing else but that of the
   * `finish` item.
   */
  lemma {:induction false} EveryItemOnce<T, R>(c: Options<T, R>, acts: seq<Action>, i: nat, j: nat)
    requires c.Valid() && After(c, acts).Some?
    requires After(c, acts).value.consumer.Finished? && !After(c, acts).value.input.stopped
    requires i < |c.take.streams| && j < |c.take.streams[i]|
    ensures var s := After(c, acts).value;
            && i < |s.input.nums| && |s.input.nums[i]| == |c.take.streams[i]|
            && (exists h :: 0 <= h < |s.handed| && s.handed[h] == (s.input.nums[i][j], c.f(c.take.streams[i][j])))
            && (forall h, g :: 0 <= h < g < |s.handed| ==> s.handed[h].0 != s.handed[g].0)
            && (forall h :: 0 <= h < |s.handed| ==> OfAnItem(c, s, s.handed[h]))
  {
    Reached(c, acts);
    var s := After(c, acts).value;
    FinishedInput(c, s);
    forall h | 0 <= h < |s.handed| ensures OfAnItem(c, s, s.handed[h]) {
      HandsItems(c, s, h);
    }
    assert StreamAt(c.take, s.input, i);
    var k := s.input.nums[i][j];
    assert OriginOk(c.take, s.input.nums, s.input.finished, k, s.input.log[k], s.input.origin[k]);
    FinishedHandsAll(c, s, k);
    var h :| 0 <= h < |s.handed| && s.handed[h].0 == k;
    assert s.handed[h] == (k, c.f(c.take.streams[i][j]));
  }

  /** Such a run also returns the result of the `finish` item, and it has asked for it. */
  lemma {:induction false} FinishItemOnce<T, R>(c: Options<T, R>, acts: seq<Action>)
    requires c.Valid() && After(c, acts).Some?
    requires After(c, acts).value.consumer.Finished? && !After(c, acts).value.input.stopped
    ensures c.take.tail.Last?
    ensures var s := After(c, acts).value;
            c.take.tail.item.Some? ==>
              exists h :: 0 <= h < |s.handed| && s.handed[h].1 == c.f(c.take.tail.item.value)
                          && s.handed[h].0 < |s.input.origin| && s.input.origin[s.handed[h].0] == FromFinish
  {
    Reached(c, acts);
    var s := After(c, acts).value;
    FinishedInput(c, s);
    if c.take.tail.item.Some? {
      var k :| 0 <= k < |s.input.log| && s.input.origin[k] == FromFinish;
      assert OriginOk(c.take, s.input.nums, s.input.finished, k, s.input.log[k], s.input.origin[k]);
      FinishedHandsAll(c, s, k);
      var h :| 0 <= h < |s.handed| && s.handed[h].0 == k;
      assert s.handed[h].1 == c.f(c.take.tail.item.value);
    }
  }

  /**
   * In any run and any order, stopped or not: an entry that ends the input is the
   * last one numbered, and what was numbered of a stream is its first items, in
   * stream order.
   */
  lemma {:induction false} StopAndStreams<T, R>(c: Options<T, R>, acts: seq<Action>, k: nat, i: nat, j: nat)
    requires c.Valid() && After(c, acts).Some?
    requires k < |After(c, acts).value.input.log|
    requires i < |After(c, acts).value.input.nums| && j < |After(c, acts).value.input.nums[i]|
    ensures var s := After(c, acts).value.input;
            && |s.origin| == |s.log| && (Stops(c.take, s.log[k], s.origin[k]) ==> k == |s.log| - 1)
            && i < |c.take.streams| && j < |c.take.streams[i]|
            && s.nums[i][j] < |s.log| && s.log[s.nums[i][j]] == c.take.streams[i][j]
            && (forall l :: 0 <= l < j ==> s.nums[i][l] < s.nums[i][j])
  {
    Reached(c, acts);
    var s := After(c, acts).value.input;
    var n := s.nums[i][j];
    assert OriginOk(c.take, s.nums, s.finished, n, s.log[n], s.origin[n]);
  }
}

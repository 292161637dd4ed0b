/**
 * A panic of the helper, in order (crates/xeibe-core/src/parallel.rs:314-325, 586-592):
 * what an ended run has returned, and a run that loses every item to it.
 */
module PoolPanics {
  import opened Basics
  import opened TakeInput
  import opened TakeInvariants
  import opened TakeOrder
  import opened WorkerPool
  import opened PoolInvariants
  import opened PoolKept
  import opened PoolResults
  import opened PoolRuns

  /**
   * An ended run in which no panic of the helper was numbered returned everything;
   * one in which it was returned the first items, then the panic, and nothing after it.
   */
  lemma {:induction false} PanicEndsTheMap<T, R>(c: Options<T, R>, acts: seq<Action>)
    requires c.Valid() && c.ordered && After(c, acts).Some? && After(c, acts).value.consumer.Finished?
    ensures var s, ideal := After(c, acts).value, Mapped(c.f, Ideal(c.take));
            var last := |Returned(s)| - 1;
            if FromHelper in s.input.origin
            then && |s.input.origin| == |Returned(s)| && s.input.origin[last] == FromHelper && c.take.helper.Some?
                 && last <= |ideal| && Returned(s) == ideal[..last] + [c.f(c.take.helper.value)]
            else Returned(s) == ideal
  {
    Reached(c, acts);
    var s := After(c, acts).value;
    FinishedReturnsAll(c, s);
    FinishedInput(c, s);
    if k: nat :| k < |s.input.origin| && s.input.origin[k] == FromHelper {
      PanicReturned(c, s, k);
    } else {
      NoPanicIsIdeal(c, s);
    }
  }

  lemma PanicReturned<T, R>(c: Options<T, R>, s: Pool<T, R>, k: nat)
    requires PoolInv(c, s) && InOrder(c, s) && c.ordered && k < |s.input.origin| && s.input.origin[k] == FromHelper
    requires Returned(s) == Mapped(c.f, s.input.log)
    ensures |s.input.origin| == |Returned(s)| == k + 1 && c.take.helper.Some? && k <= |Mapped(c.f, Ideal(c.take))|
    ensures Returned(s) == Mapped(c.f, Ideal(c.take))[..k] + [c.f(c.take.helper.value)]
  {
    PanicIsLast(c, s, k);
    FirstThenPanic(c.f, s.input.log, Ideal(c.take), k);
  }

  lemma NoPanicIsIdeal<T, R>(c: Options<T, R>, s: Pool<T, R>)
    requires c.Valid() && PoolInv(c, s) && InOrder(c, s) && c.ordered && FromHelper !in s.input.origin
    requires s.input.stopped || (s.input.finished && s.input.open == [] && s.input.started == |c.take.streams|)
    ensures s.input.log == Ideal(c.take)
  {
  }

  lemma FirstThenPanic<X, Y>(f: X -> Y, log: seq<X>, ideal: seq<X>, k: nat)
    requires k == |log| - 1 && log[..k] <= ideal
    ensures Mapped(f, log) == Mapped(f, ideal)[..k] + [f(log[k])]
  {
    assert forall i :: 0 <= i < k ==> log[..k][i] == log[i];
  }

  lemma PanicIsLast<T, R>(c: Options<T, R>, s: Pool<T, R>, k: nat)
    requires PoolInv(c, s) && InOrder(c, s) && c.ordered && k < |s.input.origin| && s.input.origin[k] == FromHelper
    ensures k == |s.input.log| - 1 && c.take.helper == Some(s.input.log[k]) && s.input.log[..k] <= Ideal(c.take)
  {
    assert OriginOk(c.take, s.input.nums, s.input.finished, k, s.input.log[k], s.input.origin[k]);
    assert Stops(c.take, s.input.log[k], s.input.origin[k]);
  }

  // ---- a run that loses every item ------------------------------------------------------------------

  /** Its helper has nothing to do, and the input was stopped. */
  lemma {:induction false} FindsNothing<T, R>(c: Options<T, R>, acts: seq<Action>, s: Pool<T, R>, w: nat)
    returns (more: seq<Action>)
    requires c.Valid() && LeadsTo(c, acts, s) && w < |s.workers| && s.workers[w].Ready? && MayWake(s.workers, None)
    requires s.input.stopped && s.free > 0 && !s.cancelled && s.input.takers[w] == Outside
    ensures LeadsTo(c, more, Empty(s, w))
  {
    more := Works(c, acts, s, w, AtHelper(s, w));
    assert s.input.takers[w := Helping][w := Top] == s.input.takers[w := Top];
    more := Takes(c, more, AtHelper(s, w), w, Idle, AtTop(s, w));
    assert s.input.takers[w := Top][w := Outside] == s.input.takers;
    assert s.workers[w := Taking][w := Returning] == s.workers[w := Returning];
    more := Takes(c, more, AtTop(s, w), w, Idle, Empty(s, w));
  }

  /** The worker has looked for an item, and found none. */
  function Empty<T, R>(s: Pool<T, R>, w: nat): Pool<T, R>
    requires w < |s.workers| && s.free > 0
  {
    s.(free := s.free - 1, workers := s.workers[w := Returning])
  }

  /** The input was stopped, and the worker ends: it takes a ticket, finds nothing and gives it back. */
  lemma {:induction false} Leaves<T, R>(c: Options<T, R>, acts: seq<Action>, s: Pool<T, R>, w: nat, left: Pool<T, R>)
    returns (more: seq<Action>)
    requires c.Valid() && LeadsTo(c, acts, s) && w < |s.workers| && s.workers[w].Ready? && MayWake(s.workers, None)
    requires s.input.stopped && s.free > 0 && !s.cancelled && s.input.takers[w] == Outside
    requires left == s.(workers := s.workers[w := Gone])
    ensures LeadsTo(c, more, left)
  {
    more := FindsNothing(c, acts, s, w);
    StillNobodyAsleep(s.workers, w, Returning);
    GoneAgain(s, w);
    more := GivesBack(c, more, Empty(s, w), w, left);
  }

  /** It has left no other trace. */
  lemma GoneAgain<T, R>(s: Pool<T, R>, w: nat)
    requires w < |s.workers| && s.free > 0
    ensures Empty(s, w).(free := s.free, workers := Empty(s, w).workers[w := Gone])
            == s.(workers := s.workers[w := Gone])
  {
    assert s.workers[w := Returning][w := Gone] == s.workers[w := Gone];
  }

  lemma {:induction false} GivesBack<T, R>(c: Options<T, R>, acts: seq<Action>, s: Pool<T, R>, w: nat, left: Pool<T, R>)
    returns (more: seq<Action>)
    requires c.Valid() && LeadsTo(c, acts, s) && w < |s.workers| && s.workers[w].Returning? && MayWake(s.workers, None)
    requires left == s.(free := s.free + 1, workers := s.workers[w := Gone])
    ensures LeadsTo(c, more, left)
  {
    var s1 := s.(free := s.free + 1, workers := s.workers[w := Owing]);
    more := Works(c, acts, s, w, s1);
    StillNobodyAsleep(s.workers, w, Owing);
    assert s1.workers[w := Gone] == s.workers[w := Gone];
    more := Works(c, more, s1, w, left);
  }

  /** The first workers have ended. */
  function FirstGone<R>(workers: seq<Worker<R>>, k: nat): (left: seq<Worker<R>>)
    ensures |left| == |workers|
  {
    seq(|workers|, i requires 0 <= i < |workers| => if i < k then Gone else workers[i])
  }

  ghost predicate AllReady<T, R>(s: Pool<T, R>) {
    |s.input.takers| == |s.workers|
    && forall v :: 0 <= v < |s.workers| ==> s.workers[v].Ready? && s.input.takers[v] == Outside
  }

  lemma {:induction false} AllLeave<T, R>(c: Options<T, R>, acts: seq<Action>, s: Pool<T, R>, k: nat)
    returns (more: seq<Action>)
    requires c.Valid() && LeadsTo(c, acts, s) && AllReady(s) && k <= |s.workers|
    requires s.input.stopped && s.free > 0 && !s.cancelled
    ensures LeadsTo(c, more, s.(workers := FirstGone(s.workers, k)))
  {
    if k == 0 {
      more := acts;
      assert FirstGone(s.workers, 0) == s.workers;
    } else {
      more := AllLeave(c, acts, s, k - 1);
      var left := FirstGone(s.workers, k - 1);
      assert left[k - 1 := Gone] == FirstGone(s.workers, k);
      more := Leaves(c, more, s.(workers := left), k - 1, s.(workers := FirstGone(s.workers, k)));
    }
  }

  /** The pool after the first worker's helper has panicked at once, and the panic was sent. */
  function Sent<T, R>(c: Options<T, R>, panic: T): Pool<T, R>
    requires c.Tickets() > 0
  {
    Begin(c).(input := Start(c.take).(log := [panic], origin := [FromHelper], stopped := true, exhausted := true),
              free := c.Tickets() - 1, channel := [(0, c.f(panic))], place := [InChannel])
  }

  /** The panic is numbered and mapped. */
  lemma {:induction false} PanicsAtOnce<T, R>(c: Options<T, R>, panic: T) returns (acts: seq<Action>)
    requires c.Valid() && c.take.helper == Some(panic)
    ensures LeadsTo(c, acts, Sent(c, panic))
  {
    var s0 := Begin(c);
    BeginInv(c);
    acts := Works(c, [], s0, 0, AtHelper(s0, 0));
    acts := NumbersPanic(c, acts, panic);
    acts := MapsPanic(c, acts, panic);
  }

  function Numbering<T, R>(c: Options<T, R>, panic: T): Pool<T, R>
    requires c.Tickets() > 0 && c.take.threads > 0
  {
    Sent(c, panic).(workers := Begin(c).workers[0 := Mapping(0)], channel := [], place := [OnWorker(0)])
  }

  lemma {:induction false} NumbersPanic<T, R>(c: Options<T, R>, acts: seq<Action>, panic: T) returns (more: seq<Action>)
    requires c.Valid() && c.take.helper == Some(panic) && LeadsTo(c, acts, AtHelper(Begin(c), 0))
    ensures LeadsTo(c, more, Numbering(c, panic))
  {
    var s := AtHelper(Begin(c), 0);
    assert s.input.takers[0 := Outside] == Start(c.take).takers;
    assert s.workers[0 := Mapping(0)] == Begin(c).workers[0 := Mapping(0)];
    more := Takes(c, acts, s, 0, Panics, Numbering(c, panic));
  }

  lemma {:induction false} MapsPanic<T, R>(c: Options<T, R>, acts: seq<Action>, panic: T) returns (more: seq<Action>)
    requires c.Valid() && LeadsTo(c, acts, Numbering(c, panic))
    ensures LeadsTo(c, more, Sent(c, panic))
  {
    var s := Numbering(c, panic);
    var s1 := s.(workers := s.workers[0 := Sending(0, c.f(panic))]);
    more := Works(c, acts, s, 0, s1);
    assert s1.workers[0 := Ready] == Begin(c).workers;
    more := Works(c, more, s1, 0, Sent(c, panic));
  }

  /** The consumer takes the one result, and then finds the end. */
  lemma {:induction false} TakesIt<T, R>(c: Options<T, R>, acts: seq<Action>, s: Pool<T, R>, result: R)
    returns (more: seq<Action>)
    requires c.Valid() && c.ordered && LeadsTo(c, acts, s) && s.consumer.Resting? && AllGone(s.workers)
    requires s.channel == [(0, result)] && s.pending == map[] && s.next == 0 && s.handed == [] && s.place == [InChannel]
    ensures After(c, more).Some? && After(c, more).value.consumer.Finished?
    ensures Returned(After(c, more).value) == [result] && After(c, more).value.input == s.input
  {
    var s1 := s.(consumer := Looking);
    more := OneAction(c, acts, s, Call, s1);
    var s2 := s1.(channel := [], pending := map[0 := result], place := [Buffered]);
    more := OneAction(c, more, s1, Look, s2);
    var s3 := s2.(pending := map[], next := 1, consumer := Paying, handed := [(0, result)], place := [Handed]);
    assert map[0 := result] - {0} == map[];
    more := OneAction(c, more, s2, Look, s3);
    more := Ends(c, more, s3);
  }

  lemma {:induction false} Ends<T, R>(c: Options<T, R>, acts: seq<Action>, s: Pool<T, R>) returns (more: seq<Action>)
    requires c.Valid() && LeadsTo(c, acts, s) && s.consumer.Paying? && AllGone(s.workers)
    requires s.channel == [] && s.pending == map[]
    ensures LeadsTo(c, more, s.(free := s.free + 1, consumer := Finished))
  {
    var s1 := s.(free := s.free + 1, consumer := Resting);
    more := PaysIt(c, acts, s);
    more := OneAction(c, more, s1, Call, s1.(consumer := Looking));
    more := OneAction(c, more, s1.(consumer := Looking), Look, s1.(consumer := Finished));
  }

  lemma {:induction false} PaysIt<T, R>(c: Options<T, R>, acts: seq<Action>, s: Pool<T, R>) returns (more: seq<Action>)
    requires c.Valid() && LeadsTo(c, acts, s) && s.consumer.Paying? && AllGone(s.workers)
    ensures LeadsTo(c, more, s.(free := s.free + 1, consumer := Resting))
  {
    var s1 := s.(free := s.free + 1, consumer := Notifying);
    more := OneAction(c, acts, s, Pay, s1);
    more := OneAction(c, more, s1, Notify(None), s1.(consumer := Resting));
  }

  /**
   * Whatever the input, on several threads: where the helper can panic, some run
   * returns its panic alone, and none of the items.
   */
  lemma {:induction false} PanicLosesEveryItem<T, R>(c: Options<T, R>, panic: T) returns (acts: seq<Action>)
    requires c.Valid() && c.ordered && c.take.threads > 1 && c.take.helper == Some(panic)
    ensures After(c, acts).Some? && After(c, acts).value.consumer.Finished?
    ensures Returned(After(c, acts).value) == [c.f(panic)] && After(c, acts).value.input.origin == [FromHelper]
  {
    acts := PanicsAtOnce(c, panic);
    var s := Sent(c, panic);
    acts := AllLeave(c, acts, s, |s.workers|);
    acts := TakesIt(c, acts, s.(workers := FirstGone(s.workers, |s.workers|)), c.f(panic));
  }
}

/** How much is between the input and the consumer, and how long a run can be. */
module PoolBounds {
  import opened Basics
  import opened TakeInput
  import opened WorkerPool
  import opened PoolInvariants
  import opened PoolKept
  import opened PoolResults

  // ---- items between the input and the consumer --------------------------------------

  function Carries<R>(worker: Worker<R>): nat {
    if worker.Mapping? || worker.Sending? then 1 else 0
  }

  /** Every number is with a worker, in the channel, buffered, or handed over. */
  ghost predicate Counted<T, R>(s: Pool<T, R>) {
    !s.consumer.Closed? ==>
      |s.input.log| == |s.handed| + |s.channel| + |s.pending| + Total(s.workers, Carries)
  }

  lemma TookCounted<T, R>(s: Pool<T, R>, w: nat, r: Step<T>)
    requires Counted(s) && w < |s.workers| && s.workers[w].Taking? && w < |s.input.takers| && Outcomes(s.input, w, r)
    ensures Counted(TakeStep(s, w, r))
  {
    var s' := TakeStep(s, w, r);
    TotalUpdate(s.workers, w, s'.workers[w], Carries);
    assert s'.workers == s.workers[w := s'.workers[w]];
  }

  lemma OwingCounted<T, R>(s: Pool<T, R>, w: nat, wake: Option<nat>)
    requires Counted(s) && w < |s.workers| && s.workers[w].Owing? && MayWake(s.workers, wake)
    ensures Counted(s.(workers := Woken(s.workers, wake)[w := Gone]))
  {
    if wake.Some? {
      TotalUpdate(s.workers, wake.value, Awake, Carries);
    }
    TotalUpdate(Woken(s.workers, wake), w, Gone, Carries);
  }

  lemma WorkCounted<T, R>(c: Options<T, R>, s: Pool<T, R>, w: nat, help: Help, wake: Option<nat>)
    requires PoolInv(c, s) && Counted(s) && CanWork(c, s, w, help, wake)
    ensures Counted(WorkStep(c, s, w, help, wake))
  {
    if s.workers[w].Taking? {
      StepOutcomes(c.take, s.input, w, help);
      TookCounted(s, w, Advance(c.take, s.input, w, help));
    } else if s.workers[w].Owing? {
      OwingCounted(s, w, wake);
    } else {
      LocalCounted(c, s, w, help, wake);
    }
  }

  lemma LocalCounted<T, R>(c: Options<T, R>, s: Pool<T, R>, w: nat, help: Help, wake: Option<nat>)
    requires Fits(c, s) && Counted(s) && CanWork(c, s, w, help, wake)
    requires !s.workers[w].Taking? && !s.workers[w].Owing?
    ensures Counted(WorkStep(c, s, w, help, wake))
  {
    assert Places(s, s.workers[w]);
    TotalUpdate(s.workers, w, WorkStep(c, s, w, help, wake).workers[w], Carries);
  }

  lemma LookCounted<T, R>(c: Options<T, R>, s: Pool<T, R>)
    requires Fits(c, s) && Listed(s.channel, s.place, InChannel) && InBuffer(s.pending, s.place) && Counted(s)
    requires CanLook(c, s)
    ensures Counted(LookStep(c, s))
  {
    if c.ordered && s.next in s.pending {
      PendingLess(s.pending, s.next);
    } else if s.channel != [] && c.ordered {
      var (k, result) := s.channel[0];
      assert s.place[k] == InChannel;
      PendingMore(s.pending, k, result);
    }
  }

  lemma CountedKept<T, R>(c: Options<T, R>, s: Pool<T, R>, a: Action)
    requires PoolInv(c, s) && Counted(s) && Enabled(c, s, a)
    ensures Counted(Apply(c, s, a))
  {
    match a
    case Work(w, help, wake) =>
      WorkCounted(c, s, w, help, wake);
      assert Apply(c, s, a) == WorkStep(c, s, w, help, wake);
    case Look =>
      LookCounted(c, s);
      assert Apply(c, s, a) == LookStep(c, s);
    case _ => OtherCounted(c, s, a);
  }

  lemma OtherCounted<T, R>(c: Options<T, R>, s: Pool<T, R>, a: Action)
    requires Fits(c, s) && Counted(s) && Enabled(c, s, a) && !a.Work? && !a.Look?
    ensures Counted(Apply(c, s, a))
  {
    match a
    case Spurious(v) => TotalUpdate(s.workers, v, Awake, Carries);
    case Notify(wake) =>
      if wake.Some? {
        TotalUpdate(s.workers, wake.value, Awake, Carries);
      }
    case Drop => TotalSame(s.workers, AllWoken(s.workers), Carries);
    case _ =>
  }

  lemma {:induction false} CarriersHold<R>(workers: seq<Worker<R>>)
    ensures Total(workers, Carries) <= Total(workers, Holds)
  {
    if workers != [] {
      CarriersHold(workers[1..]);
    }
  }

  lemma {:induction false} ReachedCounted<T, R>(c: Options<T, R>, acts: seq<Action>)
    requires c.Valid() && After(c, acts).Some?
    ensures Counted(After(c, acts).value)
  {
    if acts == [] {
      TotalZero(Begin(c).workers, Carries);
    } else {
      var before := acts[..|acts| - 1];
      Reached(c, before);
      ReachedCounted(c, before);
      CountedKept(c, After(c, before).value, acts[|acts| - 1]);
    }
  }

  /**
   * However slow the consumer is: every ticket is accounted for, so no more than
   * `max(in_flight, threads)` items are taken from the input and not handed over.
   */
  lemma {:induction false} Backpressure<T, R>(c: Options<T, R>, acts: seq<Action>)
    requires c.Valid() && After(c, acts).Some? && !After(c, acts).value.consumer.Closed?
    ensures var s := After(c, acts).value;
            var tickets := if c.inFlight >= c.take.threads then c.inFlight else c.take.threads;
            && s.free + Total(s.workers, Holds) + |s.channel| + |s.pending| + InHands(s.consumer) == tickets
            && |s.input.log| - |s.handed| + s.free <= tickets
  {
    Reached(c, acts);
    ReachedCounted(c, acts);
    CarriersHold(After(c, acts).value.workers);
  }

  // ---- after a cancel --------------------------------------------------------------------------------

  function Takes<R>(worker: Worker<R>): nat {
    if worker.Taking? then 1 else 0
  }

  /** The items numbered, and those that may still be once no ticket is given out. */
  ghost function Reach<T, R>(s: Pool<T, R>): nat {
    |s.input.log| + Total(s.workers, Takes)
  }

  lemma {:induction false} TookReach<T, R>(s: Pool<T, R>, w: nat, r: Step<T>)
    requires w < |s.workers| && s.workers[w].Taking? && w < |s.input.takers| && Outcomes(s.input, w, r)
    ensures Reach(TakeStep(s, w, r)) <= Reach(s)
  {
    var t := TakeStep(s, w, r);
    TotalUpdate(s.workers, w, t.workers[w], Takes);
    assert t.workers == s.workers[w := t.workers[w]];
  }

  lemma {:induction false} OwingReach<T, R>(s: Pool<T, R>, w: nat, wake: Option<nat>)
    requires w < |s.workers| && s.workers[w].Owing? && MayWake(s.workers, wake)
    ensures Total(Woken(s.workers, wake)[w := Gone], Takes) == Total(s.workers, Takes)
  {
    if wake.Some? {
      TotalUpdate(s.workers, wake.value, Awake, Takes);
    }
    TotalUpdate(Woken(s.workers, wake), w, Gone, Takes);
  }

  lemma {:induction false} WorkReach<T, R>(c: Options<T, R>, s: Pool<T, R>, w: nat, help: Help, wake: Option<nat>)
    requires PoolInv(c, s) && CanWork(c, s, w, help, wake) && s.cancelled
    ensures WorkStep(c, s, w, help, wake).cancelled && Reach(WorkStep(c, s, w, help, wake)) <= Reach(s)
  {
    if s.workers[w].Taking? {
      StepOutcomes(c.take, s.input, w, help);
      TookReach(s, w, Advance(c.take, s.input, w, help));
    } else if s.workers[w].Owing? {
      OwingReach(s, w, wake);
    } else {
      LocalReach(c, s, w, help, wake);
    }
  }

  lemma {:induction false} LocalReach<T, R>(c: Options<T, R>, s: Pool<T, R>, w: nat, help: Help, wake: Option<nat>)
    requires Fits(c, s) && CanWork(c, s, w, help, wake) && s.cancelled
    requires !s.workers[w].Taking? && !s.workers[w].Owing?
    ensures WorkStep(c, s, w, help, wake).cancelled && Reach(WorkStep(c, s, w, help, wake)) <= Reach(s)
  {
    assert Places(s, s.workers[w]);
    TotalUpdate(s.workers, w, WorkStep(c, s, w, help, wake).workers[w], Takes);
  }

  lemma {:induction false} OtherReach<T, R>(c: Options<T, R>, s: Pool<T, R>, a: Action)
    requires Fits(c, s) && Enabled(c, s, a) && !a.Work? && s.cancelled
    ensures Apply(c, s, a).cancelled && Reach(Apply(c, s, a)) <= Reach(s)
  {
    match a
    case Spurious(v) => TotalUpdate(s.workers, v, Awake, Takes);
    case Notify(wake) =>
      if wake.Some? {
        TotalUpdate(s.workers, wake.value, Awake, Takes);
      }
    case Drop => TotalSame(s.workers, AllWoken(s.workers), Takes);
    case _ =>
  }

  /** However a run goes on after a cancel, each worker numbers at most the item it is taking then. */
  lemma {:induction false} FewAfterCancel<T, R>(c: Options<T, R>, before: seq<Action>, more: seq<Action>)
    requires c.Valid() && After(c, before).Some? && After(c, before).value.cancelled && After(c, before + more).Some?
    ensures After(c, before + more).value.cancelled
    ensures Reach(After(c, before + more).value) <= Reach(After(c, before).value)
    decreases |more|
  {
    if more == [] {
      assert before + more == before;
    } else {
      var n := |more| - 1;
      var s := LastAction(c, before + more[..n], more[n], before + more);
      FewAfterCancel(c, before, more[..n]);
      ApplyReach(c, s, more[n]);
    }
  }

  lemma {:induction false} LastAction<T, R>(c: Options<T, R>, acts: seq<Action>, a: Action, all: seq<Action>)
    returns (s: Pool<T, R>)
    requires c.Valid() && all == acts + [a] && After(c, all).Some?
    ensures After(c, acts) == Some(s) && PoolInv(c, s) && Enabled(c, s, a)
    ensures After(c, all).value == Apply(c, s, a)
  {
    assert all[..|all| - 1] == acts;
    Reached(c, acts);
    s := After(c, acts).value;
  }

  lemma {:induction false} ApplyReach<T, R>(c: Options<T, R>, s: Pool<T, R>, a: Action)
    requires PoolInv(c, s) && Enabled(c, s, a) && s.cancelled
    ensures Apply(c, s, a).cancelled && Reach(Apply(c, s, a)) <= Reach(s)
  {
    match a
    case Work(w, help, wake) =>
      WorkReach(c, s, w, help, wake);
      assert Apply(c, s, a) == WorkStep(c, s, w, help, wake);
    case _ => OtherReach(c, s, a);
  }
}

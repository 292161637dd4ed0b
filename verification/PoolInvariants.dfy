/** What every step of the pool keeps: where every number is, the tickets, and the wake-ups. */
module PoolInvariants {
  import opened Basics
  import opened TakeInput
  import opened TakeInvariants
  import opened WorkerPool

  // ---- where every number is ------------------------------------------------------

  function NumberOf<R>(worker: Worker<R>): Option<nat> {
    match worker
    case Mapping(k) => Some(k)
    case Sending(k, _) => Some(k)
    case _ => None
  }

  ghost predicate OnWorkers<R>(workers: seq<Worker<R>>, place: seq<Place>) {
    && (forall w :: 0 <= w < |workers| && NumberOf(workers[w]).Some? ==>
         NumberOf(workers[w]).value < |place| && place[NumberOf(workers[w]).value] == OnWorker(w))
    && (forall k :: 0 <= k < |place| && place[k].OnWorker? ==>
         place[k].worker < |workers| && NumberOf(workers[place[k].worker]) == Some(k))
  }

  /** The entries have distinct numbers, and these are the numbers at `here`. */
  ghost predicate Listed<R>(entries: seq<(nat, R)>, place: seq<Place>, here: Place) {
    && (forall i :: 0 <= i < |entries| ==> entries[i].0 < |place| && place[entries[i].0] == here)
    && (forall i, j :: 0 <= i < j < |entries| ==> entries[i].0 != entries[j].0)
    && (forall k :: 0 <= k < |place| && place[k] == here ==> exists i :: 0 <= i < |entries| && entries[i].0 == k)
  }

  ghost predicate InBuffer<R>(pending: map<nat, R>, place: seq<Place>) {
    && (forall k :: k in pending ==> k < |place| && place[k] == Buffered)
    && (forall k :: 0 <= k < |place| && place[k] == Buffered ==> k in pending)
  }

  ghost predicate Located<T, R>(c: Options<T, R>, s: Pool<T, R>) {
    && |s.place| == |s.input.log|
    && OnWorkers(s.workers, s.place)
    && Listed(s.channel, s.place, InChannel)
    && InBuffer(s.pending, s.place)
    && Listed(s.handed, s.place, Handed)
    && (!c.ordered ==> s.pending == map[])
    && (c.ordered ==> |s.handed| == s.next && forall i :: 0 <= i < |s.handed| ==> s.handed[i].0 == i)
    && (forall k :: 0 <= k < |s.place| && s.place[k] == Lost ==> s.consumer.Closed?)
  }

  lemma ListedElse<R>(entries: seq<(nat, R)>, place: seq<Place>, here: Place, k: nat, there: Place)
    requires Listed(entries, place, here) && k < |place| && place[k] != here && there != here
    ensures Listed(entries, place[k := there], here)
  {
    var place' := place[k := there];
    forall l | 0 <= l < |place'| && place'[l] == here
      ensures exists i :: 0 <= i < |entries| && entries[i].0 == l
    {
      assert place[l] == here;
    }
  }

  lemma ListedMore<R>(entries: seq<(nat, R)>, place: seq<Place>, here: Place, there: Place)
    requires Listed(entries, place, here) && there != here
    ensures Listed(entries, place + [there], here)
  {
    var place' := place + [there];
    forall l | 0 <= l < |place'| && place'[l] == here
      ensures exists i :: 0 <= i < |entries| && entries[i].0 == l
    {
      assert place[l] == here;
    }
  }

  lemma ListedAppend<R>(entries: seq<(nat, R)>, place: seq<Place>, here: Place, k: nat, result: R)
    requires Listed(entries, place, here) && k < |place| && place[k] != here
    ensures Listed(entries + [(k, result)], place[k := here], here)
  {
    var place' := place[k := here];
    var entries' := entries + [(k, result)];
    forall l | 0 <= l < |place'| && place'[l] == here
      ensures exists i :: 0 <= i < |entries'| && entries'[i].0 == l
    {
      if l == k {
        assert entries'[|entries|].0 == l;
      } else {
        assert place[l] == here;
        var i :| 0 <= i < |entries| && entries[i].0 == l;
        assert entries'[i].0 == l;
      }
    }
  }

  lemma ListedPop<R>(entries: seq<(nat, R)>, place: seq<Place>, here: Place, there: Place)
    requires Listed(entries, place, here) && entries != [] && there != here
    ensures Listed(entries[1..], place[entries[0].0 := there], here)
  {
    var place' := place[entries[0].0 := there];
    forall l | 0 <= l < |place'| && place'[l] == here
      ensures exists i :: 0 <= i < |entries[1..]| && entries[1..][i].0 == l
    {
      assert place[l] == here;
      var i :| 0 <= i < |entries| && entries[i].0 == l;
      assert entries[1..][i - 1].0 == l;
    }
  }

  lemma OnWorkersElse<R>(workers: seq<Worker<R>>, place: seq<Place>, k: nat, there: Place)
    requires OnWorkers(workers, place) && k < |place| && !place[k].OnWorker? && !there.OnWorker?
    ensures OnWorkers(workers, place[k := there])
  {
  }

  /** A worker moves on without a number, or with the same one. */
  lemma OnWorkersSame<R>(workers: seq<Worker<R>>, place: seq<Place>, w: nat, worker: Worker<R>)
    requires OnWorkers(workers, place) && w < |workers| && NumberOf(worker) == NumberOf(workers[w])
    ensures OnWorkers(workers[w := worker], place)
  {
  }

  lemma OnWorkersMore<R>(workers: seq<Worker<R>>, place: seq<Place>, w: nat)
    requires OnWorkers(workers, place) && w < |workers| && NumberOf(workers[w]) == None
    ensures OnWorkers(workers[w := Mapping(|place|)], place + [OnWorker(w)])
  {
  }

  lemma OnWorkersLess<R>(workers: seq<Worker<R>>, place: seq<Place>, w: nat, k: nat, worker: Worker<R>, there: Place)
    requires OnWorkers(workers, place) && w < |workers| && NumberOf(workers[w]) == Some(k) && NumberOf(worker) == None
    requires k < |place| && !there.OnWorker?
    ensures OnWorkers(workers[w := worker], place[k := there])
  {
  }

  // ---- what every result is -----------------------------------------------------------

  ghost predicate Results<T, R>(f: T -> R, log: seq<T>, entries: seq<(nat, R)>) {
    forall i :: 0 <= i < |entries| ==> entries[i].0 < |log| && entries[i].1 == f(log[entries[i].0])
  }

  ghost predicate Computed<T, R>(c: Options<T, R>, s: Pool<T, R>) {
    && (forall w :: 0 <= w < |s.workers| && s.workers[w].Sending? ==>
         s.workers[w].number < |s.input.log| && s.workers[w].result == c.f(s.input.log[s.workers[w].number]))
    && Results(c.f, s.input.log, s.channel)
    && Results(c.f, s.input.log, s.handed)
    && (forall k :: k in s.pending ==> k < |s.input.log| && s.pending[k] == c.f(s.input.log[k]))
  }

  // ---- tickets and wake-ups -----------------------------------------------------------

  function Holds<R>(worker: Worker<R>): nat {
    if worker.Taking? || worker.Mapping? || worker.Sending? || worker.Returning? then 1 else 0
  }

  function InHands(consumer: Consumer): nat {
    if consumer.Paying? then 1 else 0
  }

  /**
   * Every ticket is free, with a worker, or with a result that is in the
   * channel, buffered or in the consumer's hands.
   */
  ghost predicate Conserved<T, R>(c: Options<T, R>, s: Pool<T, R>) {
    !s.consumer.Closed? ==>
      s.free + Total(s.workers, Holds) + |s.channel| + |s.pending| + InHands(s.consumer) == c.Tickets()
  }

  /** Woken workers that will look at the tickets again, and returned tickets not announced yet. */
  function Announces<R>(worker: Worker<R>): nat {
    if worker.Awake? || worker.Owing? then 1 else 0
  }

  function Announcing(consumer: Consumer): nat {
    if consumer.Notifying? then 1 else 0
  }

  /** While a worker waits, no ticket is free that no wake-up is on its way for. */
  ghost predicate NoLostWakeUp<R>(workers: seq<Worker<R>>, free: nat, cancelled: bool, consumer: Consumer) {
    forall w :: 0 <= w < |workers| && workers[w].Asleep? ==>
      !cancelled && free <= Total(workers, Announces) + Announcing(consumer)
  }

  // ---- why workers end ----------------------------------------------------------------

  /** Nothing is left to take. */
  predicate UsedUp<T>(s: Input<T>) {
    s.stopped || (s.exhausted && s.open == [])
  }

  ghost predicate Seen<T>(s: Input<T>) {
    forall w :: 0 <= w < |s.takers| && s.takers[w] == Listing(true) ==> s.exhausted
  }

  ghost predicate Endings<T, R>(s: Pool<T, R>) {
    && Seen(s.input)
    && (s.cancelled <==> s.consumer.Dropped? || s.consumer.Closed?)
    && (forall w :: 0 <= w < |s.workers| && (s.workers[w].Returning? || s.workers[w].Owing? || s.workers[w].Gone?) ==>
         s.cancelled || UsedUp(s.input))
    && (s.consumer.Finished? ==> AllGone(s.workers) && s.channel == [] && s.next !in s.pending)
  }

  ghost predicate PoolInv<T, R>(c: Options<T, R>, s: Pool<T, R>) {
    && Fits(c, s)
    && Inv(c.take, s.input)
    && Located(c, s)
    && Computed(c, s)
    && Conserved(c, s)
    && NoLostWakeUp(s.workers, s.free, s.cancelled, s.consumer)
    && Endings(s)
  }

  // ---- a step inside `take`, as the pool sees it -----------------------------------------

  ghost predicate Outcomes<T>(s: Input<T>, w: nat, r: Step<T>)
    requires w < |s.takers|
  {
    && |r.input.takers| == |s.takers|
    && r.input.takers == s.takers[w := r.input.takers[w]]
    && (r.outcome.Got? ==> r.outcome.number == |s.log| && |r.input.log| == |s.log| + 1 && s.log <= r.input.log)
    && (!r.outcome.Got? ==> r.input.log == s.log)
    && (r.outcome.Going? <==> !r.input.takers[w].Outside?)
    && (r.outcome.Nothing? ==> UsedUp(r.input))
    && (UsedUp(s) ==> UsedUp(r.input))
    && (s.exhausted ==> r.input.exhausted)
    && (r.input.takers[w] == Listing(true) ==> r.input.exhausted)
  }

  lemma FreeOutcomes<T>(c: Config<T>, s: Input<T>, w: nat, help: Help)
    requires Shape(c, s) && CanStep(c, s, w, help) && Seen(s)
    requires || s.takers[w].Helping? || s.takers[w].Top? || s.takers[w].Running?
             || s.takers[w].Listing? || s.takers[w].AllHeld?
    ensures Outcomes(s, w, Advance(c, s, w, help))
  {
  }

  lemma OpenOutcomes<T>(c: Config<T>, s: Input<T>, w: nat)
    requires Shape(c, s) && w < |s.takers| && s.takers[w] == Opening
    ensures Outcomes(s, w, OpenNext(c, s, w))
  {
  }

  lemma HoldOutcomes<T>(s: Input<T>, w: nat, i: nat)
    requires w < |s.takers| && s.takers[w] != Outside && i < |s.done| && i < |s.owner|
    ensures Outcomes(s, w, Hold(s, w, i))
  {
  }

  lemma TryOutcomes<T>(c: Config<T>, s: Input<T>, w: nat, exhausted: bool, open: seq<nat>, at: nat)
    requires Shape(c, s) && w < |s.takers| && s.takers[w] == Trying(exhausted, open, at)
    ensures Outcomes(s, w, TryNext(c, s, w, exhausted, open, at))
  {
    assert Known(s, s.takers[w]);
    if at < |open| {
      assert open[at] in open;
      HoldOutcomes(s, w, open[at]);
    }
  }

  lemma LockOutcomes<T>(c: Config<T>, s: Input<T>, w: nat, help: Help)
    requires Shape(c, s) && CanStep(c, s, w, help) && Seen(s)
    requires s.takers[w].Trying? || s.takers[w].Blocking? || s.takers[w].Holding?
    ensures Outcomes(s, w, Advance(c, s, w, help))
  {
    assert Known(s, s.takers[w]);
    if s.takers[w].Trying? {
      TryOutcomes(c, s, w, s.takers[w].exhausted, s.takers[w].open, s.takers[w].at);
    } else if s.takers[w].Blocking? {
      HoldOutcomes(s, w, s.takers[w].head);
    }
  }

  lemma HeldOutcomes<T>(c: Config<T>, s: Input<T>, w: nat, help: Help)
    requires Inv(c, s) && CanStep(c, s, w, help)
    requires s.takers[w].Drawn? || s.takers[w].Ending? || s.takers[w].Leaving? || s.takers[w].Closing?
    ensures Outcomes(s, w, Advance(c, s, w, help))
  {
    assert Known(s, s.takers[w]);
    if s.takers[w].Ending? {
      assert StreamAt(c, s, s.takers[w].stream);
      assert UsedUp(s) ==> s.stopped;
    }
  }

  lemma StepOutcomes<T>(c: Config<T>, s: Input<T>, w: nat, help: Help)
    requires Inv(c, s) && CanStep(c, s, w, help) && Seen(s)
    ensures Outcomes(s, w, Advance(c, s, w, help)) && Seen(Advance(c, s, w, help).input)
  {
    if s.takers[w].Drawn? || s.takers[w].Ending? || s.takers[w].Leaving? || s.takers[w].Closing? {
      HeldOutcomes(c, s, w, help);
    } else if s.takers[w].Trying? || s.takers[w].Blocking? || s.takers[w].Holding? {
      LockOutcomes(c, s, w, help);
    } else if s.takers[w].Opening? {
      OpenOutcomes(c, s, w);
    } else {
      FreeOutcomes(c, s, w, help);
    }
  }
}

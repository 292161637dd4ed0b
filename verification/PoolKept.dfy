/** Every action of the pool keeps its invariant. */
module PoolKept {
  import opened Basics
  import opened TakeInput
  import opened TakeInvariants
  import opened WorkerPool
  import opened PoolInvariants

  lemma {:induction false} BeginInv<T, R>(c: Options<T, R>)
    requires c.Valid()
    ensures PoolInv(c, Begin(c))
  {
    StartInv(c.take);
    BeginFits(c);
    BeginTickets(c);
  }

  lemma {:induction false} BeginFits<T, R>(c: Options<T, R>)
    requires c.Valid()
    ensures var s := Begin(c); Fits(c, s) && Located(c, s) && Computed(c, s)
  {
  }

  lemma {:induction false} BeginTickets<T, R>(c: Options<T, R>)
    requires c.Valid()
    ensures var s := Begin(c); Conserved(c, s) && NoLostWakeUp(s.workers, s.free, s.cancelled, s.consumer) && Endings(s)
  {
    TotalZero(Begin(c).workers, Holds);
  }

  /** A worker changes, and nothing else about the pool. */
  lemma FitsMoved<T, R>(c: Options<T, R>, s: Pool<T, R>, s': Pool<T, R>, w: nat, worker: Worker<R>)
    requires Fits(c, s) && w < |s.workers| && s'.workers == s.workers[w := worker]
    requires Shape(c.take, s'.input) && |s'.input.takers| == |s.input.takers|
    requires s'.input.takers == s.input.takers[w := s'.input.takers[w]]
    requires worker.Taking? <==> !s'.input.takers[w].Outside?
    requires |s'.place| == |s'.input.log| && |s.place| <= |s'.place| && Places(s', worker)
    requires forall i :: 0 <= i < |s'.channel| ==> s'.channel[i].0 < |s'.place|
    requires forall k :: k in s'.pending ==> k < |s'.place|
    ensures Fits(c, s')
  {
    forall v | 0 <= v < |s'.workers|
      ensures s'.workers[v].Taking? <==> !s'.input.takers[v].Outside?
      ensures Places(s', s'.workers[v])
    {
      if v != w {
        assert s'.workers[v] == s.workers[v] && s'.input.takers[v] == s.input.takers[v];
        assert Places(s, s.workers[v]);
      }
    }
  }

  lemma AsleepSame<R>(workers: seq<Worker<R>>, w: nat, worker: Worker<R>, free: nat, free': nat, cancelled: bool,
                      consumer: Consumer)
    requires NoLostWakeUp(workers, free, cancelled, consumer) && w < |workers| && !workers[w].Asleep?
    requires worker.Asleep? ==> free' == 0 && !cancelled
    requires free' + Announces(workers[w]) <= free + Announces(worker) || worker.Asleep?
    ensures NoLostWakeUp(workers[w := worker], free', cancelled, consumer)
  {
    TotalUpdate(workers, w, worker, Announces);
    var workers' := workers[w := worker];
    forall v | 0 <= v < |workers'| && workers'[v].Asleep?
      ensures !cancelled && free' <= Total(workers', Announces) + Announcing(consumer)
    {
      if v != w {
        assert workers[v].Asleep?;
      }
    }
  }

  // ---- workers -------------------------------------------------------------------------

  lemma TicketKept<T, R>(c: Options<T, R>, s: Pool<T, R>, w: nat)
    requires PoolInv(c, s) && w < |s.workers| && (s.workers[w].Ready? || s.workers[w].Awake?)
    ensures PoolInv(c, TakeTicket(s, w))
  {
    if s.cancelled {
      NobodyAsleep(s.workers, w, Gone, s.free, s.cancelled, s.consumer);
      MovedKept(c, s, w, Gone, s.free);
    } else if s.free > 0 {
      TicketTakenKept(c, s, w);
    } else {
      AsleepSame(s.workers, w, Asleep, s.free, 0, false, s.consumer);
      MovedKept(c, s, w, Asleep, 0);
    }
  }

  lemma NobodyAsleep<R>(workers: seq<Worker<R>>, w: nat, worker: Worker<R>, free: nat, cancelled: bool,
                        consumer: Consumer)
    requires forall v :: 0 <= v < |workers| ==> !workers[v].Asleep?
    requires w < |workers| && !worker.Asleep?
    ensures NoLostWakeUp(workers[w := worker], free, cancelled, consumer)
  {
  }

  lemma TicketTakenKept<T, R>(c: Options<T, R>, s: Pool<T, R>, w: nat)
    requires PoolInv(c, s) && w < |s.workers| && (s.workers[w].Ready? || s.workers[w].Awake?)
    requires !s.cancelled && s.free > 0
    ensures PoolInv(c, TakeTicket(s, w))
  {
    var s' := TakeTicket(s, w);
    EnterKept(c.take, s.input, w);
    FitsMoved(c, s, s', w, Taking);
    OnWorkersSame(s.workers, s.place, w, Taking);
    TotalUpdate(s.workers, w, Taking, Holds);
    AsleepSame(s.workers, w, Taking, s.free, s'.free, s.cancelled, s.consumer);
    TicketEnding(s, w);
  }

  lemma TicketEnding<T, R>(s: Pool<T, R>, w: nat)
    requires Endings(s) && w < |s.workers| && w < |s.input.takers| && (s.workers[w].Ready? || s.workers[w].Awake?)
    ensures Endings(TakeTicket(s, w))
  {
  }

  /** A worker moves on outside `take`, and the input, the numbers and the consumer stay as they are. */
  lemma MovedKept<T, R>(c: Options<T, R>, s: Pool<T, R>, w: nat, worker: Worker<R>, free: nat)
    requires PoolInv(c, s) && w < |s.workers| && !s.workers[w].Taking? && !worker.Taking?
    requires NumberOf(worker) == NumberOf(s.workers[w])
    requires worker.Sending? ==> worker.number < |s.input.log| && worker.result == c.f(s.input.log[worker.number])
    requires free + Holds(worker) == s.free + Holds(s.workers[w])
    requires NoLostWakeUp(s.workers[w := worker], free, s.cancelled, s.consumer)
    requires worker.Returning? || worker.Owing? || worker.Gone? ==> s.cancelled || UsedUp(s.input)
    requires !s.workers[w].Gone?
    ensures PoolInv(c, s.(free := free, workers := s.workers[w := worker]))
  {
    var s' := s.(free := free, workers := s.workers[w := worker]);
    FitsMoved(c, s, s', w, worker);
    OnWorkersSame(s.workers, s.place, w, worker);
    TotalUpdate(s.workers, w, worker, Holds);
    MovedComputed(c, s, w, worker, free);
    MovedEnding(s, w, worker, free);
  }

  lemma MovedComputed<T, R>(c: Options<T, R>, s: Pool<T, R>, w: nat, worker: Worker<R>, free: nat)
    requires Computed(c, s) && w < |s.workers|
    requires worker.Sending? ==> worker.number < |s.input.log| && worker.result == c.f(s.input.log[worker.number])
    ensures Computed(c, s.(free := free, workers := s.workers[w := worker]))
  {
  }

  lemma MovedEnding<T, R>(s: Pool<T, R>, w: nat, worker: Worker<R>, free: nat)
    requires Endings(s) && w < |s.workers| && !s.workers[w].Gone?
    requires worker.Returning? || worker.Owing? || worker.Gone? ==> s.cancelled || UsedUp(s.input)
    ensures Endings(s.(free := free, workers := s.workers[w := worker]))
  {
  }

  lemma ResultsLonger<T, R>(f: T -> R, log: seq<T>, log': seq<T>, entries: seq<(nat, R)>)
    requires Results(f, log, entries) && log <= log'
    ensures Results(f, log', entries)
  {
  }

  lemma ComputedLonger<T, R>(c: Options<T, R>, s: Pool<T, R>, s': Pool<T, R>, w: nat)
    requires Computed(c, s) && s.input.log <= s'.input.log
    requires w < |s.workers| == |s'.workers| && s'.workers == s.workers[w := s'.workers[w]] && !s'.workers[w].Sending?
    requires s'.channel == s.channel && s'.handed == s.handed && s'.pending == s.pending
    ensures Computed(c, s')
  {
    ResultsLonger(c.f, s.input.log, s'.input.log, s.channel);
    ResultsLonger(c.f, s.input.log, s'.input.log, s.handed);
    forall v | 0 <= v < |s'.workers| && s'.workers[v].Sending?
      ensures s'.workers[v].number < |s'.input.log|
      ensures s'.workers[v].result == c.f(s'.input.log[s'.workers[v].number])
    {
      assert v != w && s'.workers[v] == s.workers[v];
      assert s.workers[v].number < |s.input.log|;
    }
  }

  lemma LocatedTaken<T, R>(c: Options<T, R>, s: Pool<T, R>, s': Pool<T, R>, w: nat)
    requires Located(c, s) && w < |s.workers| && s.workers[w].Taking?
    requires s'
             == s.(input := s'.input, workers := s.workers[w := Mapping(|s.place|)], place := s.place + [OnWorker(w)])
    requires |s'.input.log| == |s.input.log| + 1
    ensures Located(c, s')
  {
    OnWorkersMore(s.workers, s.place, w);
    ListedMore(s.channel, s.place, InChannel, OnWorker(w));
    ListedMore(s.handed, s.place, Handed, OnWorker(w));
  }

  lemma TakeStepKept<T, R>(c: Options<T, R>, s: Pool<T, R>, w: nat, help: Help)
    requires PoolInv(c, s) && w < |s.workers| && s.workers[w].Taking? && CanStep(c.take, s.input, w, help)
    ensures PoolInv(c, TakeStep(s, w, Advance(c.take, s.input, w, help)))
  {
    var r := Advance(c.take, s.input, w, help);
    Kept(c.take, s.input, w, help);
    StepOutcomes(c.take, s.input, w, help);
    TookKept(c, s, w, r);
  }

  lemma TookFits<T, R>(c: Options<T, R>, s: Pool<T, R>, w: nat, r: Step<T>)
    requires Fits(c, s) && w < |s.workers| && s.workers[w].Taking?
    requires Shape(c.take, r.input) && Outcomes(s.input, w, r)
    ensures Fits(c, TakeStep(s, w, r))
  {
    var s' := TakeStep(s, w, r);
    assert s'.workers == s.workers[w := s'.workers[w]];
    FitsMoved(c, s, s', w, s'.workers[w]);
  }

  lemma TookLocated<T, R>(c: Options<T, R>, s: Pool<T, R>, w: nat, r: Step<T>)
    requires Located(c, s) && w < |s.workers| && s.workers[w].Taking? && w < |s.input.takers| && Outcomes(s.input, w, r)
    ensures Located(c, TakeStep(s, w, r))
  {
    var s' := TakeStep(s, w, r);
    if r.outcome.Got? {
      LocatedTaken(c, s, s', w);
    } else if r.outcome.Nothing? {
      OnWorkersSame(s.workers, s.place, w, Returning);
    }
  }

  lemma TookComputed<T, R>(c: Options<T, R>, s: Pool<T, R>, w: nat, r: Step<T>)
    requires Computed(c, s) && w < |s.workers| && s.workers[w].Taking? && w < |s.input.takers|
    requires Outcomes(s.input, w, r)
    ensures Computed(c, TakeStep(s, w, r))
  {
    var s' := TakeStep(s, w, r);
    assert s'.workers == s.workers[w := s'.workers[w]];
    ComputedLonger(c, s, s', w);
  }

  lemma TookTickets<T, R>(c: Options<T, R>, s: Pool<T, R>, w: nat, r: Step<T>)
    requires Conserved(c, s) && NoLostWakeUp(s.workers, s.free, s.cancelled, s.consumer)
    requires w < |s.workers| && s.workers[w].Taking?
    ensures var s' := TakeStep(s, w, r);
            Conserved(c, s') && NoLostWakeUp(s'.workers, s'.free, s'.cancelled, s'.consumer)
  {
    var s' := TakeStep(s, w, r);
    assert s'.workers == s.workers[w := s'.workers[w]];
    TotalUpdate(s.workers, w, s'.workers[w], Holds);
    AsleepSame(s.workers, w, s'.workers[w], s.free, s.free, s.cancelled, s.consumer);
  }

  lemma TookKept<T, R>(c: Options<T, R>, s: Pool<T, R>, w: nat, r: Step<T>)
    requires PoolInv(c, s) && w < |s.workers| && s.workers[w].Taking?
    requires Inv(c.take, r.input) && Outcomes(s.input, w, r) && Seen(r.input)
    ensures PoolInv(c, TakeStep(s, w, r))
  {
    TookFits(c, s, w, r);
    TookLocated(c, s, w, r);
    TookComputed(c, s, w, r);
    TookTickets(c, s, w, r);
    TookEnding(s, w, r);
  }

  lemma TookEnding<T, R>(s: Pool<T, R>, w: nat, r: Step<T>)
    requires Endings(s) && w < |s.workers| && s.workers[w].Taking? && w < |s.input.takers|
    requires Outcomes(s.input, w, r) && Seen(r.input)
    ensures Endings(TakeStep(s, w, r))
  {
  }

  lemma SendFits<T, R>(c: Options<T, R>, s: Pool<T, R>, w: nat, k: nat, result: R)
    requires Fits(c, s) && w < |s.workers| && s.workers[w] == Sending(k, result)
    ensures k < |s.place| && Fits(c, Send(s, w, k, result))
  {
    assert Places(s, s.workers[w]);
    FitsMoved(c, s, Send(s, w, k, result), w, Send(s, w, k, result).workers[w]);
  }

  lemma SendTickets<T, R>(c: Options<T, R>, s: Pool<T, R>, w: nat, k: nat, result: R)
    requires Conserved(c, s) && NoLostWakeUp(s.workers, s.free, s.cancelled, s.consumer)
    requires w < |s.workers| && s.workers[w] == Sending(k, result) && k < |s.place|
    ensures var s' := Send(s, w, k, result);
            Conserved(c, s') && NoLostWakeUp(s'.workers, s'.free, s'.cancelled, s'.consumer)
  {
    var worker := Send(s, w, k, result).workers[w];
    TotalUpdate(s.workers, w, worker, Holds);
    AsleepSame(s.workers, w, worker, s.free, s.free, s.cancelled, s.consumer);
  }

  lemma SendKept<T, R>(c: Options<T, R>, s: Pool<T, R>, w: nat, k: nat, result: R)
    requires PoolInv(c, s) && w < |s.workers| && s.workers[w] == Sending(k, result)
    ensures k < |s.place| && PoolInv(c, Send(s, w, k, result))
  {
    SendFits(c, s, w, k, result);
    SendLocated(c, s, w, k, result);
    SendTickets(c, s, w, k, result);
    SendEnding(s, w, k, result);
    SendComputed(c, s, w, k, result);
  }

  lemma SendLocated<T, R>(c: Options<T, R>, s: Pool<T, R>, w: nat, k: nat, result: R)
    requires Located(c, s) && w < |s.workers| && s.workers[w] == Sending(k, result) && k < |s.place|
    ensures Located(c, Send(s, w, k, result))
  {
    var s' := Send(s, w, k, result);
    OnWorkersLess(s.workers, s.place, w, k, s'.workers[w], s'.place[k]);
    ListedElse(s.handed, s.place, Handed, k, s'.place[k]);
    if s.consumer.Closed? {
      ListedElse(s.channel, s.place, InChannel, k, Lost);
    } else {
      ListedAppend(s.channel, s.place, InChannel, k, result);
    }
  }

  lemma SendEnding<T, R>(s: Pool<T, R>, w: nat, k: nat, result: R)
    requires Endings(s) && w < |s.workers| && s.workers[w] == Sending(k, result) && k < |s.place|
    ensures Endings(Send(s, w, k, result))
  {
  }

  lemma SendComputed<T, R>(c: Options<T, R>, s: Pool<T, R>, w: nat, k: nat, result: R)
    requires Computed(c, s) && w < |s.workers| && s.workers[w] == Sending(k, result) && k < |s.place|
    ensures Computed(c, Send(s, w, k, result))
  {
  }

  lemma WokenKept<T, R>(c: Options<T, R>, s: Pool<T, R>, v: nat)
    requires PoolInv(c, s) && v < |s.workers| && s.workers[v].Asleep?
    ensures PoolInv(c, s.(workers := s.workers[v := Awake]))
  {
    var s' := s.(workers := s.workers[v := Awake]);
    FitsMoved(c, s, s', v, Awake);
    OnWorkersSame(s.workers, s.place, v, Awake);
    TotalUpdate(s.workers, v, Awake, Holds);
    TotalUpdate(s.workers, v, Awake, Announces);
    forall u | 0 <= u < |s'.workers| && s'.workers[u].Asleep?
      ensures !s.cancelled && s.free <= Total(s'.workers, Announces) + Announcing(s.consumer)
    {
      assert s.workers[u].Asleep?;
    }
    WokenEnding(s, v);
  }

  lemma WokenEnding<T, R>(s: Pool<T, R>, v: nat)
    requires Endings(s) && v < |s.workers| && s.workers[v].Asleep?
    ensures Endings(s.(workers := s.workers[v := Awake]))
  {
  }

  /** The worker that owed a notification gives it and ends. */
  lemma OwingKept<T, R>(c: Options<T, R>, s: Pool<T, R>, w: nat, wake: Option<nat>)
    requires PoolInv(c, s) && w < |s.workers| && s.workers[w].Owing? && MayWake(s.workers, wake)
    ensures PoolInv(c, s.(workers := Woken(s.workers, wake)[w := Gone]))
  {
    match wake
    case Some(v) =>
      WokenKept(c, s, v);
      var t := s.(workers := s.workers[v := Awake]);
      TotalUpdate(s.workers, v, Awake, Announces);
      TotalUpdate(t.workers, w, Gone, Announces);
      var workers' := t.workers[w := Gone];
      forall u | 0 <= u < |workers'| && workers'[u].Asleep?
        ensures !s.cancelled && s.free <= Total(workers', Announces) + Announcing(s.consumer)
      {
        assert s.workers[u].Asleep?;
      }
      GoneKept(c, t, w);
    case None =>
      GoneKept(c, s, w);
  }

  lemma GoneKept<T, R>(c: Options<T, R>, s: Pool<T, R>, w: nat)
    requires PoolInv(c, s) && w < |s.workers| && s.workers[w].Owing?
    requires NoLostWakeUp(s.workers[w := Gone], s.free, s.cancelled, s.consumer)
    ensures PoolInv(c, s.(workers := s.workers[w := Gone]))
  {
    var s' := s.(workers := s.workers[w := Gone]);
    FitsMoved(c, s, s', w, Gone);
    OnWorkersSame(s.workers, s.place, w, Gone);
    TotalUpdate(s.workers, w, Gone, Holds);
  }

  lemma WorkKept<T, R>(c: Options<T, R>, s: Pool<T, R>, w: nat, help: Help, wake: Option<nat>)
    requires PoolInv(c, s) && CanWork(c, s, w, help, wake)
    ensures PoolInv(c, WorkStep(c, s, w, help, wake))
  {
    match s.workers[w]
    case Taking => TakeStepKept(c, s, w, help);
    case Sending(k, result) => SendKept(c, s, w, k, result);
    case Owing => OwingKept(c, s, w, wake);
    case Ready => TicketKept(c, s, w);
    case Awake => TicketKept(c, s, w);
    case Mapping(_) => MappingStep(c, s, w, help, wake);
    case Returning => ReturningStep(c, s, w, help, wake);
  }

  lemma MappingStep<T, R>(c: Options<T, R>, s: Pool<T, R>, w: nat, help: Help, wake: Option<nat>)
    requires PoolInv(c, s) && CanWork(c, s, w, help, wake) && s.workers[w].Mapping?
    ensures PoolInv(c, WorkStep(c, s, w, help, wake))
  {
    var k := s.workers[w].number;
    MappingKept(c, s, w, k);
    assert WorkStep(c, s, w, help, wake) == s.(workers := s.workers[w := Sending(k, c.f(s.input.log[k]))]);
  }

  lemma ReturningStep<T, R>(c: Options<T, R>, s: Pool<T, R>, w: nat, help: Help, wake: Option<nat>)
    requires PoolInv(c, s) && CanWork(c, s, w, help, wake) && s.workers[w].Returning?
    ensures PoolInv(c, WorkStep(c, s, w, help, wake))
  {
    ReturningKept(c, s, w);
    assert WorkStep(c, s, w, help, wake) == s.(free := s.free + 1, workers := s.workers[w := Owing]);
  }

  lemma MappingKept<T, R>(c: Options<T, R>, s: Pool<T, R>, w: nat, k: nat)
    requires PoolInv(c, s) && w < |s.workers| && s.workers[w] == Mapping(k)
    ensures k < |s.input.log|
    ensures PoolInv(c, s.(workers := s.workers[w := Sending(k, c.f(s.input.log[k]))]))
  {
    assert Places(s, s.workers[w]);
    var sending := Sending(k, c.f(s.input.log[k]));
    AsleepSame(s.workers, w, sending, s.free, s.free, s.cancelled, s.consumer);
    MovedKept(c, s, w, sending, s.free);
  }

  lemma ReturningKept<T, R>(c: Options<T, R>, s: Pool<T, R>, w: nat)
    requires PoolInv(c, s) && w < |s.workers| && s.workers[w].Returning?
    ensures PoolInv(c, s.(free := s.free + 1, workers := s.workers[w := Owing]))
  {
    AsleepSame(s.workers, w, Owing, s.free, s.free + 1, s.cancelled, s.consumer);
    MovedKept(c, s, w, Owing, s.free + 1);
  }

  // ---- the consumer ----------------------------------------------------------------------

  lemma PendingLess<R>(pending: map<nat, R>, k: nat)
    requires k in pending
    ensures |pending - {k}| + 1 == |pending|
  {
    assert (pending - {k}).Keys == pending.Keys - {k};
  }

  lemma PendingMore<R>(pending: map<nat, R>, k: nat, result: R)
    requires k !in pending
    ensures |pending[k := result]| == |pending| + 1
  {
    assert pending[k := result].Keys == pending.Keys + {k};
  }

  lemma LookReady<T, R>(c: Options<T, R>, s: Pool<T, R>)
    requires PoolInv(c, s) && CanLook(c, s) && c.ordered && s.next in s.pending
    ensures PoolInv(c, LookStep(c, s))
  {
    ReadyLocated(c, s);
    ReadyComputed(c, s);
    ReadyConserved(c, s);
    LookEnding(c, s);
    FitsConsumer(c, s, LookStep(c, s));
  }

  lemma LookEnding<T, R>(c: Options<T, R>, s: Pool<T, R>)
    requires Fits(c, s) && Endings(s) && CanLook(c, s)
    requires s.channel != [] || (c.ordered && s.next in s.pending)
    ensures Endings(LookStep(c, s))
  {
  }

  lemma ReadyConserved<T, R>(c: Options<T, R>, s: Pool<T, R>)
    requires Fits(c, s) && Conserved(c, s) && CanLook(c, s) && c.ordered && s.next in s.pending
    ensures Conserved(c, LookStep(c, s))
  {
    PendingLess(s.pending, s.next);
  }

  lemma ReadyLocated<T, R>(c: Options<T, R>, s: Pool<T, R>)
    requires Fits(c, s) && Located(c, s) && CanLook(c, s) && c.ordered && s.next in s.pending
    ensures Located(c, LookStep(c, s))
  {
    var k := s.next;
    OnWorkersElse(s.workers, s.place, k, Handed);
    ListedElse(s.channel, s.place, InChannel, k, Handed);
    ListedAppend(s.handed, s.place, Handed, k, s.pending[k]);
  }

  lemma ReadyComputed<T, R>(c: Options<T, R>, s: Pool<T, R>)
    requires Fits(c, s) && Computed(c, s) && CanLook(c, s) && c.ordered && s.next in s.pending
    ensures Computed(c, LookStep(c, s))
  {
  }

  lemma FitsConsumer<T, R>(c: Options<T, R>, s: Pool<T, R>, s': Pool<T, R>)
    requires Fits(c, s) && s'.input == s.input && s'.workers == s.workers && |s'.place| == |s.place|
    requires forall i :: 0 <= i < |s'.channel| ==> s'.channel[i].0 < |s'.place|
    requires forall k :: k in s'.pending ==> k < |s'.place|
    ensures Fits(c, s')
  {
    forall w | 0 <= w < |s'.workers|
      ensures Places(s', s'.workers[w])
    {
      assert Places(s, s.workers[w]);
    }
  }

  lemma LookReceived<T, R>(c: Options<T, R>, s: Pool<T, R>)
    requires PoolInv(c, s) && CanLook(c, s) && s.channel != [] && !(c.ordered && s.next in s.pending)
    ensures PoolInv(c, LookStep(c, s))
  {
    var s' := LookStep(c, s);
    var k := s.channel[0].0;
    if c.ordered {
      assert k !in s.pending;
      PendingMore(s.pending, k, s.channel[0].1);
    }
    FitsConsumer(c, s, s');
    ReceivedLocated(c, s);
    ReceivedComputed(c, s);
    LookEnding(c, s);
  }

  lemma ReceivedLocated<T, R>(c: Options<T, R>, s: Pool<T, R>)
    requires Fits(c, s) && Located(c, s) && CanLook(c, s) && s.channel != [] && !(c.ordered && s.next in s.pending)
    ensures Located(c, LookStep(c, s))
  {
    var (k, result) := s.channel[0];
    var there := if c.ordered then Buffered else Handed;
    OnWorkersElse(s.workers, s.place, k, there);
    ListedPop(s.channel, s.place, InChannel, there);
    if c.ordered {
      ListedElse(s.handed, s.place, Handed, k, there);
    } else {
      ListedAppend(s.handed, s.place, Handed, k, result);
    }
  }

  lemma ReceivedComputed<T, R>(c: Options<T, R>, s: Pool<T, R>)
    requires Computed(c, s) && Fits(c, s) && CanLook(c, s) && s.channel != [] && !(c.ordered && s.next in s.pending)
    ensures Computed(c, LookStep(c, s))
  {
  }

  lemma LookFinished<T, R>(c: Options<T, R>, s: Pool<T, R>)
    requires PoolInv(c, s) && CanLook(c, s) && s.channel == [] && !(c.ordered && s.next in s.pending)
    ensures PoolInv(c, LookStep(c, s))
  {
    FitsConsumer(c, s, LookStep(c, s));
  }

  /** Nobody waits once the map is dropped: the cancel wakes every waiting worker. */
  lemma DropKept<T, R>(c: Options<T, R>, s: Pool<T, R>)
    requires PoolInv(c, s) && s.consumer.Resting?
    ensures PoolInv(c, s.(cancelled := true, workers := AllWoken(s.workers), consumer := Dropped))
  {
    var s' := s.(cancelled := true, workers := AllWoken(s.workers), consumer := Dropped);
    TotalSame(s.workers, s'.workers, Holds);
    forall w | 0 <= w < |s'.workers|
      ensures (s'.workers[w].Taking? <==> !s'.input.takers[w].Outside?) && Places(s', s'.workers[w])
      ensures NumberOf(s'.workers[w]) == NumberOf(s.workers[w]) && !s'.workers[w].Asleep?
    {
      assert Places(s, s.workers[w]);
    }
    DropLocated(s.workers, s'.workers, s.place);
  }

  lemma DropLocated<R>(workers: seq<Worker<R>>, workers': seq<Worker<R>>, place: seq<Place>)
    requires OnWorkers(workers, place) && |workers'| == |workers|
    requires forall w :: 0 <= w < |workers| ==> NumberOf(workers'[w]) == NumberOf(workers[w])
    ensures OnWorkers(workers', place)
  {
  }

  lemma NotifyKept<T, R>(c: Options<T, R>, s: Pool<T, R>, wake: Option<nat>)
    requires PoolInv(c, s) && s.consumer.Notifying? && MayWake(s.workers, wake)
    ensures PoolInv(c, s.(workers := Woken(s.workers, wake), consumer := Resting))
  {
    match wake
    case None => NotifiedNobody(c, s);
    case Some(v) => NotifiedKept(c, s, v);
  }

  lemma NotifiedNobody<T, R>(c: Options<T, R>, s: Pool<T, R>)
    requires PoolInv(c, s) && s.consumer.Notifying? && MayWake(s.workers, None)
    ensures PoolInv(c, s.(consumer := Resting))
  {
    FitsConsumer(c, s, s.(consumer := Resting));
  }

  lemma NotifiedKept<T, R>(c: Options<T, R>, s: Pool<T, R>, v: nat)
    requires PoolInv(c, s) && s.consumer.Notifying? && v < |s.workers| && s.workers[v].Asleep?
    ensures PoolInv(c, s.(workers := s.workers[v := Awake], consumer := Resting))
  {
    WokenKept(c, s, v);
    var t := s.(workers := s.workers[v := Awake]);
    FitsConsumer(c, t, t.(consumer := Resting));
    TotalUpdate(s.workers, v, Awake, Announces);
    forall u | 0 <= u < |t.workers| && t.workers[u].Asleep?
      ensures !t.cancelled && t.free <= Total(t.workers, Announces)
    {
      assert s.workers[u].Asleep?;
    }
  }

  lemma CallKept<T, R>(c: Options<T, R>, s: Pool<T, R>)
    requires PoolInv(c, s) && s.consumer.Resting?
    ensures PoolInv(c, s.(consumer := Looking))
  {
    FitsConsumer(c, s, s.(consumer := Looking));
  }

  lemma PayKept<T, R>(c: Options<T, R>, s: Pool<T, R>)
    requires PoolInv(c, s) && s.consumer.Paying?
    ensures PoolInv(c, s.(free := s.free + 1, consumer := Notifying))
  {
    FitsConsumer(c, s, s.(free := s.free + 1, consumer := Notifying));
  }

  lemma CloseKept<T, R>(c: Options<T, R>, s: Pool<T, R>)
    requires PoolInv(c, s) && s.consumer.Dropped?
    ensures PoolInv(c, s.(consumer := Closed))
  {
    FitsConsumer(c, s, s.(consumer := Closed));
  }

  lemma LookKept<T, R>(c: Options<T, R>, s: Pool<T, R>)
    requires PoolInv(c, s) && CanLook(c, s)
    ensures PoolInv(c, LookStep(c, s))
  {
    if c.ordered && s.next in s.pending {
      LookReady(c, s);
    } else if s.channel != [] {
      LookReceived(c, s);
    } else {
      LookFinished(c, s);
    }
  }

  lemma WorkerActionKept<T, R>(c: Options<T, R>, s: Pool<T, R>, a: Action)
    requires PoolInv(c, s) && Enabled(c, s, a) && (a.Work? || a.Spurious?)
    ensures PoolInv(c, Apply(c, s, a))
  {
    match a
    case Work(w, help, wake) => WorkKept(c, s, w, help, wake);
    case Spurious(w) => WokenKept(c, s, w);
  }

  lemma ConsumerActionKept<T, R>(c: Options<T, R>, s: Pool<T, R>, a: Action)
    requires PoolInv(c, s) && Enabled(c, s, a) && !a.Work? && !a.Spurious?
    ensures PoolInv(c, Apply(c, s, a))
  {
    match a
    case Call =>
      CallKept(c, s);
      assert Apply(c, s, a) == s.(consumer := Looking);
    case Look =>
      LookKept(c, s);
      assert Apply(c, s, a) == LookStep(c, s);
    case Pay =>
      PayKept(c, s);
      assert Apply(c, s, a) == s.(free := s.free + 1, consumer := Notifying);
    case Notify(wake) =>
      NotifyKept(c, s, wake);
      assert Apply(c, s, a) == s.(workers := Woken(s.workers, wake), consumer := Resting);
    case Drop =>
      DropKept(c, s);
      assert Apply(c, s, a) == s.(cancelled := true, workers := AllWoken(s.workers), consumer := Dropped);
    case Close =>
      CloseKept(c, s);
      assert Apply(c, s, a) == s.(consumer := Closed);
  }

  /** Every action, of any worker or of the consumer, keeps the invariant. */
  lemma ApplyKept<T, R>(c: Options<T, R>, s: Pool<T, R>, a: Action)
    requires PoolInv(c, s) && Enabled(c, s, a)
    ensures PoolInv(c, Apply(c, s, a))
  {
    if a.Work? || a.Spurious? {
      WorkerActionKept(c, s, a);
    } else {
      ConsumerActionKept(c, s, a);
    }
  }
}

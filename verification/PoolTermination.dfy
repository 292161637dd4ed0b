/**
 * Every run of a pool comes to an end: apart from the helper's work and
 * spurious wake-ups, the number of steps is bounded by the input and the
 * workers, and a run that can't go on has ended every worker.
 */
module PoolTermination {
  import opened Basics
  import opened Streams
  import opened TakeInput
  import opened TakeRank
  import opened WorkerPool
  import opened PoolInvariants
  import opened PoolKept
  import opened PoolResults

  // ---- the rank --------------------------------------------------------------------

  /** `n` times `k`. */
  function Times(k: nat, n: nat): nat {
    if n == 0 then 0 else k + Times(k, n - 1)
  }

  function WorkerRank<R>(n: nat, worker: Worker<R>): nat {
    match worker
    case Gone => 0
    case Owing => 2
    case Returning => 3
    case Taking => 4
    case Asleep => n + 12
    case Ready => n + 13
    case Awake => n + 13
    case Sending(_, _) => n + 20
    case Mapping(_) => n + 21
  }

  function Weigh<R>(n: nat): Worker<R> -> nat {
    (worker: Worker<R>) => WorkerRank(n, worker)
  }

  function ConsumerRank(threads: nat, consumer: Consumer): nat {
    match consumer
    case Resting => threads + 3
    case Looking => threads + 2
    case Paying => threads + 6
    case Notifying => threads + 5
    case Finished => 0
    case Dropped => 1
    case Closed => 0
  }

  ghost function TakerRanks<T>(c: Config<T>, s: Input<T>, takers: seq<Taker<T>>): nat {
    if takers == [] then 0 else TakerRank(c, s, takers[0]) + TakerRanks(c, s, takers[1..])
  }

  lemma {:induction false} TakerRanksUpdate<T>(c: Config<T>, s: Input<T>, s': Input<T>, takers: seq<Taker<T>>, w: nat,
                                               taker: Taker<T>)
    requires SameView(s, s') && w < |takers|
    ensures TakerRanks(c, s', takers[w := taker]) + TakerRank(c, s, takers[w])
            == TakerRanks(c, s, takers) + TakerRank(c, s, taker)
  {
    SameRank(c, s, s', taker);
    if w == 0 {
      assert takers[w := taker][1..] == takers[1..];
      TakerRanksSame(c, s, s', takers[1..]);
    } else {
      SameRank(c, s, s', takers[0]);
      assert takers[w := taker][1..] == takers[1..][w - 1 := taker];
      TakerRanksUpdate(c, s, s', takers[1..], w - 1, taker);
    }
  }

  lemma {:induction false} TakerRanksSame<T>(c: Config<T>, s: Input<T>, s': Input<T>, takers: seq<Taker<T>>)
    requires SameView(s, s')
    ensures TakerRanks(c, s', takers) == TakerRanks(c, s, takers)
  {
    if takers != [] {
      SameRank(c, s, s', takers[0]);
      TakerRanksSame(c, s, s', takers[1..]);
    }
  }

  lemma {:induction false} TakerRanksBound<T>(c: Config<T>, s: Input<T>, takers: seq<Taker<T>>)
    ensures TakerRanks(c, s, takers) <= Times(InHand(c), |takers|)
  {
    if takers != [] {
      TakerRanksBound(c, s, takers[1..]);
    }
  }

  /** More than a step that uses up input can add to the ranks of the workers. */
  function Price<T>(c: Config<T>): nat {
    Times(InHand(c), c.threads) + |c.streams| + 30
  }

  ghost function Rank<T, R>(c: Options<T, R>, s: Pool<T, R>): nat
    requires Fits(c, s)
  {
    Times(Price(c.take), InputLeft(c.take, s.input))
    + TakerRanks(c.take, s.input, s.input.takers)
    + Total(s.workers, Weigh(|c.take.streams|))
    + 6 * |s.channel| + 5 * |s.pending|
    + ConsumerRank(c.take.threads, s.consumer)
  }

  /** What a run can do without getting anywhere: a helper that finds work, and a wake-up nobody sent. */
  predicate External<T, R>(c: Options<T, R>, s: Pool<T, R>, a: Action)
    requires Fits(c, s)
  {
    match a
    case Work(w, help, _) => w < |s.workers| && s.workers[w].Taking? && Helped(s.input, w, help)
    case Spurious(_) => true
    case _ => false
  }

  // ---- workers ------------------------------------------------------------------------

  lemma {:induction false} Cheaper(price: nat, less: nat, more: nat)
    requires less < more
    ensures Times(price, less) + price <= Times(price, more)
  {
    if less + 1 < more {
      Cheaper(price, less, more - 1);
    }
  }

  /** The step used up some of the input, which pays for everything else it changed. */
  lemma InputPays<T, R>(c: Options<T, R>, s: Pool<T, R>, w: nat, r: Step<T>)
    requires Fits(c, s) && w < |s.workers| && s.workers[w].Taking? && Outcomes(s.input, w, r)
    requires Shape(c.take, r.input) && InputLeft(c.take, r.input) < InputLeft(c.take, s.input)
    requires Fits(c, TakeStep(s, w, r))
    ensures Rank(c, TakeStep(s, w, r)) < Rank(c, s)
  {
    TotalUpdate(s.workers, w, TakeStep(s, w, r).workers[w], Weigh(|c.take.streams|));
    assert TakeStep(s, w, r).workers == s.workers[w := TakeStep(s, w, r).workers[w]];
    Cheaper(Price(c.take), InputLeft(c.take, r.input), InputLeft(c.take, s.input));
    TakerRanksBound(c.take, r.input, r.input.takers);
  }

  /** The step only moved its worker. */
  lemma TakerPays<T, R>(c: Options<T, R>, s: Pool<T, R>, w: nat, r: Step<T>)
    requires Fits(c, s) && w < |s.workers| && s.workers[w].Taking? && Outcomes(s.input, w, r)
    requires Shape(c.take, r.input) && Spends(c.take, s.input, w, r)
    requires InputLeft(c.take, r.input) == InputLeft(c.take, s.input)
    requires Fits(c, TakeStep(s, w, r))
    ensures Rank(c, TakeStep(s, w, r)) < Rank(c, s)
  {
    TotalUpdate(s.workers, w, TakeStep(s, w, r).workers[w], Weigh(|c.take.streams|));
    assert TakeStep(s, w, r).workers == s.workers[w := TakeStep(s, w, r).workers[w]];
    TakerRanksUpdate(c.take, s.input, r.input, s.input.takers, w, r.input.takers[w]);
  }

  lemma TakeDescends<T, R>(c: Options<T, R>, s: Pool<T, R>, w: nat, help: Help)
    requires PoolInv(c, s) && w < |s.workers| && s.workers[w].Taking? && CanStep(c.take, s.input, w, help)
    requires !Helped(s.input, w, help)
    ensures Fits(c, TakeStep(s, w, Advance(c.take, s.input, w, help)))
    ensures Rank(c, TakeStep(s, w, Advance(c.take, s.input, w, help))) < Rank(c, s)
  {
    TakeStepKept(c, s, w, help);
    StepOutcomes(c.take, s.input, w, help);
    StepSpends(c.take, s.input, w, help);
    var r := Advance(c.take, s.input, w, help);
    if InputLeft(c.take, r.input) < InputLeft(c.take, s.input) {
      InputPays(c, s, w, r);
    } else {
      TakerPays(c, s, w, r);
    }
  }

  /** A worker with a ticket enters `take`. */
  lemma EnterDescends<T, R>(c: Options<T, R>, s: Pool<T, R>, s': Pool<T, R>, w: nat)
    requires Fits(c, s) && Fits(c, s') && w < |s.workers| && (s.workers[w].Ready? || s.workers[w].Awake?)
    requires s' == s.(free := s'.free, workers := s.workers[w := Taking], input := Enter(s.input, w))
    ensures Rank(c, s') < Rank(c, s)
  {
    TotalUpdate(s.workers, w, Taking, Weigh(|c.take.streams|));
    TakerRanksUpdate(c.take, s.input, s'.input, s.input.takers, w, Helping);
    assert InputLeft(c.take, s'.input) == InputLeft(c.take, s.input);
    assert TakerRank(c.take, s.input, Outside) == 0;
  }

  lemma TicketDescends<T, R>(c: Options<T, R>, s: Pool<T, R>, w: nat)
    requires Fits(c, s) && w < |s.workers| && (s.workers[w].Ready? || s.workers[w].Awake?)
    requires Fits(c, TakeTicket(s, w))
    ensures Rank(c, TakeTicket(s, w)) < Rank(c, s)
  {
    if !s.cancelled && s.free > 0 {
      EnterDescends(c, s, TakeTicket(s, w), w);
    } else {
      WorkerMoved(c, s, TakeTicket(s, w), w, TakeTicket(s, w).workers[w]);
    }
  }

  lemma OwingDescends<T, R>(c: Options<T, R>, s: Pool<T, R>, w: nat, wake: Option<nat>)
    requires Fits(c, s) && w < |s.workers| && s.workers[w].Owing? && MayWake(s.workers, wake)
    requires Fits(c, s.(workers := Woken(s.workers, wake)[w := Gone]))
    ensures Rank(c, s.(workers := Woken(s.workers, wake)[w := Gone])) < Rank(c, s)
  {
    if wake.Some? {
      TotalUpdate(s.workers, wake.value, Awake, Weigh(|c.take.streams|));
    }
    TotalUpdate(Woken(s.workers, wake), w, Gone, Weigh(|c.take.streams|));
  }

  /** One worker moved on, and left at most a result in the channel. */
  lemma WorkerMoved<T, R>(c: Options<T, R>, s: Pool<T, R>, s': Pool<T, R>, w: nat, worker: Worker<R>)
    requires Fits(c, s) && Fits(c, s') && w < |s.workers| && s'.workers == s.workers[w := worker]
    requires s'.input == s.input && s'.pending == s.pending && s'.consumer == s.consumer
    requires WorkerRank(|c.take.streams|, worker) + 6 * |s'.channel|
             < WorkerRank(|c.take.streams|, s.workers[w]) + 6 * |s.channel|
    ensures Rank(c, s') < Rank(c, s)
  {
    TotalUpdate(s.workers, w, worker, Weigh(|c.take.streams|));
  }

  lemma SendDescends<T, R>(c: Options<T, R>, s: Pool<T, R>, w: nat, k: nat, result: R)
    requires Fits(c, s) && w < |s.workers| && s.workers[w] == Sending(k, result) && k < |s.place|
    requires Fits(c, Send(s, w, k, result))
    ensures Rank(c, Send(s, w, k, result)) < Rank(c, s)
  {
    WorkerMoved(c, s, Send(s, w, k, result), w, Send(s, w, k, result).workers[w]);
  }

  lemma LocalDescends<T, R>(c: Options<T, R>, s: Pool<T, R>, w: nat, help: Help, wake: Option<nat>)
    requires Fits(c, s) && CanWork(c, s, w, help, wake)
    requires s.workers[w].Mapping? || s.workers[w].Sending? || s.workers[w].Returning?
    requires Fits(c, WorkStep(c, s, w, help, wake))
    ensures Rank(c, WorkStep(c, s, w, help, wake)) < Rank(c, s)
  {
    assert Places(s, s.workers[w]);
    match s.workers[w]
    case Sending(k, result) => SendDescends(c, s, w, k, result);
    case Mapping(k) =>
      WorkerMoved(c, s, WorkStep(c, s, w, help, wake), w, Sending(k, c.f(s.input.log[k])));
    case Returning =>
      WorkerMoved(c, s, WorkStep(c, s, w, help, wake), w, Owing);
  }

  lemma WorkDescends<T, R>(c: Options<T, R>, s: Pool<T, R>, w: nat, help: Help, wake: Option<nat>)
    requires PoolInv(c, s) && CanWork(c, s, w, help, wake)
    requires s.workers[w].Taking? ==> !Helped(s.input, w, help)
    ensures Fits(c, WorkStep(c, s, w, help, wake))
    ensures Rank(c, WorkStep(c, s, w, help, wake)) < Rank(c, s)
  {
    WorkKept(c, s, w, help, wake);
    match s.workers[w]
    case Taking => TakeDescends(c, s, w, help);
    case Owing => OwingDescends(c, s, w, wake);
    case Ready => TicketDescends(c, s, w);
    case Awake => TicketDescends(c, s, w);
    case _ => LocalDescends(c, s, w, help, wake);
  }

  // ---- the consumer ---------------------------------------------------------------------

  lemma LookDescends<T, R>(c: Options<T, R>, s: Pool<T, R>)
    requires PoolInv(c, s) && CanLook(c, s) && Fits(c, LookStep(c, s))
    ensures Rank(c, LookStep(c, s)) < Rank(c, s)
  {
    if c.ordered && s.next in s.pending {
      PendingLess(s.pending, s.next);
      QuietRank(c, s, LookStep(c, s));
    } else if s.channel != [] && c.ordered {
      var (k, result) := s.channel[0];
      assert s.place[k] == InChannel;
      PendingMore(s.pending, k, result);
      QuietRank(c, s, LookStep(c, s));
    } else {
      QuietRank(c, s, LookStep(c, s));
    }
  }

  /** A step of the consumer that no worker notices. */
  lemma QuietRank<T, R>(c: Options<T, R>, s: Pool<T, R>, s': Pool<T, R>)
    requires Fits(c, s) && Fits(c, s') && s'.input == s.input && s'.workers == s.workers
    requires 6 * |s'.channel| + 5 * |s'.pending| + ConsumerRank(c.take.threads, s'.consumer)
             < 6 * |s.channel| + 5 * |s.pending| + ConsumerRank(c.take.threads, s.consumer)
    ensures Rank(c, s') < Rank(c, s)
  {
  }

  lemma NotifyDescends<T, R>(c: Options<T, R>, s: Pool<T, R>, wake: Option<nat>)
    requires Fits(c, s) && s.consumer.Notifying? && MayWake(s.workers, wake)
    requires Fits(c, s.(workers := Woken(s.workers, wake), consumer := Resting))
    ensures Rank(c, s.(workers := Woken(s.workers, wake), consumer := Resting)) < Rank(c, s)
  {
    if wake.Some? {
      TotalUpdate(s.workers, wake.value, Awake, Weigh(|c.take.streams|));
    }
  }

  /** Waking everybody adds at most one to each worker's rank. */
  lemma {:induction false} AllWokenRank<R>(workers: seq<Worker<R>>, woken: seq<Worker<R>>, n: nat)
    requires |woken| == |workers|
    requires forall v :: 0 <= v < |workers| ==> woken[v] == if workers[v].Asleep? then Awake else workers[v]
    ensures Total(woken, Weigh(n)) <= Total(workers, Weigh(n)) + |workers|
  {
    if workers != [] {
      AllWokenRank(workers[1..], woken[1..], n);
    }
  }

  lemma DropDescends<T, R>(c: Options<T, R>, s: Pool<T, R>)
    requires Fits(c, s) && s.consumer.Resting?
    requires Fits(c, s.(cancelled := true, workers := AllWoken(s.workers), consumer := Dropped))
    ensures Rank(c, s.(cancelled := true, workers := AllWoken(s.workers), consumer := Dropped)) < Rank(c, s)
  {
    AllWokenRank(s.workers, AllWoken(s.workers), |c.take.streams|);
  }

  lemma ConsumerMoved<T, R>(c: Options<T, R>, s: Pool<T, R>, a: Action)
    requires Fits(c, s) && Enabled(c, s, a) && (a.Call? || a.Pay? || a.Close?)
    requires Fits(c, Apply(c, s, a))
    ensures Rank(c, Apply(c, s, a)) < Rank(c, s)
  {
    QuietRank(c, s, Apply(c, s, a));
  }

  lemma ConsumerDescends<T, R>(c: Options<T, R>, s: Pool<T, R>, a: Action)
    requires PoolInv(c, s) && Enabled(c, s, a) && !a.Work? && !a.Spurious?
    requires Fits(c, Apply(c, s, a))
    ensures Rank(c, Apply(c, s, a)) < Rank(c, s)
  {
    if a.Look? {
      LookDescends(c, s);
    } else if a.Notify? {
      NotifyDescends(c, s, a.wake);
    } else if a.Drop? {
      DropDescends(c, s);
    } else {
      ConsumerMoved(c, s, a);
    }
  }

  /** Every action but the external ones brings the end of the run closer. */
  lemma Descends<T, R>(c: Options<T, R>, s: Pool<T, R>, a: Action)
    requires PoolInv(c, s) && Enabled(c, s, a) && !External(c, s, a)
    ensures Fits(c, Apply(c, s, a)) && Rank(c, Apply(c, s, a)) < Rank(c, s)
  {
    ApplyKept(c, s, a);
    if a.Work? {
      WorkDescends(c, s, a.worker, a.help, a.wake);
    } else {
      ConsumerDescends(c, s, a);
    }
  }

  function Setback<T>(c: Config<T>): nat {
    |c.streams| + 6
  }

  lemma HelpedGoto<T>(c: Config<T>, s: Input<T>, w: nat, help: Help)
    requires Shape(c, s) && CanStep(c, s, w, help) && Helped(s, w, help)
    ensures Advance(c, s, w, help) == Goto(s, w, if s.takers[w].Helping? then Helping else Top)
  {
  }

  lemma MovedRises<T, R>(c: Options<T, R>, s: Pool<T, R>, w: nat, taker: Taker<T>)
    requires Fits(c, s) && w < |s.workers| && (taker.Top? || taker == s.input.takers[w])
    requires Fits(c, s.(input := Goto(s.input, w, taker).input))
    ensures Rank(c, s.(input := Goto(s.input, w, taker).input)) <= Rank(c, s) + Setback(c.take)
  {
    var moved := Goto(s.input, w, taker).input;
    TakerRanksUpdate(c.take, s.input, moved, s.input.takers, w, taker);
    assert InputLeft(c.take, moved) == InputLeft(c.take, s.input);
  }

  lemma HelpedRises<T, R>(c: Options<T, R>, s: Pool<T, R>, w: nat, help: Help, wake: Option<nat>)
    requires Fits(c, s) && CanWork(c, s, w, help, wake) && s.workers[w].Taking? && Helped(s.input, w, help)
    requires Fits(c, WorkStep(c, s, w, help, wake))
    ensures Rank(c, WorkStep(c, s, w, help, wake)) <= Rank(c, s) + Setback(c.take)
  {
    var taker := if s.input.takers[w].Helping? then Helping else Top;
    HelpedGoto(c.take, s.input, w, help);
    assert WorkStep(c, s, w, help, wake) == s.(input := Goto(s.input, w, taker).input);
    MovedRises(c, s, w, taker);
  }

  lemma SpuriousRises<T, R>(c: Options<T, R>, s: Pool<T, R>, w: nat)
    requires Fits(c, s) && w < |s.workers| && s.workers[w].Asleep?
    requires Fits(c, s.(workers := s.workers[w := Awake]))
    ensures Rank(c, s.(workers := s.workers[w := Awake])) <= Rank(c, s) + Setback(c.take)
  {
    TotalUpdate(s.workers, w, Awake, Weigh(|c.take.streams|));
  }

  /** An external action sets a run back by a bounded amount. */
  lemma Rises<T, R>(c: Options<T, R>, s: Pool<T, R>, a: Action)
    requires PoolInv(c, s) && Enabled(c, s, a) && External(c, s, a)
    ensures Fits(c, Apply(c, s, a)) && Rank(c, Apply(c, s, a)) <= Rank(c, s) + Setback(c.take)
  {
    ApplyKept(c, s, a);
    match a
    case Work(w, help, wake) => HelpedRises(c, s, w, help, wake);
    case Spurious(v) => SpuriousRises(c, s, v);
  }

  // ---- runs -------------------------------------------------------------------------------

  ghost function Externals<T, R>(c: Options<T, R>, acts: seq<Action>): nat {
    if acts == [] then 0
    else
      var before := acts[..|acts| - 1];
      Externals(c, before) +
      match After(c, before)
      case None => 0
      case Some(s) => if Fits(c, s) && External(c, s, acts[|acts| - 1]) then 1 else 0
  }

  /** The steps of a run are bounded by the rank it starts with and its external actions. */
  lemma {:induction false} RunsAreFinite<T, R>(c: Options<T, R>, acts: seq<Action>)
    requires c.Valid() && After(c, acts).Some?
    ensures Fits(c, Begin(c)) && |acts| <= Rank(c, Begin(c)) + Times(Setback(c.take) + 1, Externals(c, acts))
  {
    BeginInv(c);
    RunBound(c, acts, Rank(c, Begin(c)));
  }

  lemma {:induction false} RunBound<T, R>(c: Options<T, R>, acts: seq<Action>, first: nat)
    requires c.Valid() && After(c, acts).Some?
    requires Fits(c, Begin(c)) && first == Rank(c, Begin(c))
    ensures Fits(c, After(c, acts).value)
    ensures |acts| + Rank(c, After(c, acts).value) <= first + Times(Setback(c.take) + 1, Externals(c, acts))
  {
    if acts != [] {
      var before := acts[..|acts| - 1];
      var external := LastStep(c, acts);
      RunBound(c, before, first);
      Bound(|acts|, Rank(c, After(c, before).value), Rank(c, After(c, acts).value), first, Setback(c.take) + 1,
            Externals(c, before), Externals(c, acts));
    }
  }

  /** What the last action of a run does to its rank. */
  lemma {:induction false} LastStep<T, R>(c: Options<T, R>, acts: seq<Action>) returns (external: bool)
    requires c.Valid() && acts != [] && After(c, acts).Some?
    ensures After(c, acts[..|acts| - 1]).Some?
    ensures Fits(c, After(c, acts[..|acts| - 1]).value) && Fits(c, After(c, acts).value)
    ensures 1 + Rank(c, After(c, acts).value)
            <= Rank(c, After(c, acts[..|acts| - 1]).value) + if external then Setback(c.take) + 1 else 0
    ensures Externals(c, acts) == Externals(c, acts[..|acts| - 1]) + if external then 1 else 0
  {
    var s, last := After(c, acts[..|acts| - 1]).value, acts[|acts| - 1];
    Reached(c, acts[..|acts| - 1]);
    external := External(c, s, last);
    OneStep(c, s, last);
    ExternalsStep(c, acts, s);
  }

  lemma {:induction false} ExternalsStep<T, R>(c: Options<T, R>, acts: seq<Action>, s: Pool<T, R>)
    requires acts != [] && Fits(c, s) && After(c, acts[..|acts| - 1]) == Some(s)
    ensures Externals(c, acts) == Externals(c, acts[..|acts| - 1]) + if External(c, s, acts[|acts| - 1]) then 1 else 0
  {
  }

  lemma Bound(steps: nat, rank: nat, rank': nat, first: nat, setback: nat, externals: nat, externals': nat)
    requires steps > 0 && steps - 1 + rank <= first + Times(setback, externals)
    requires externals <= externals' <= externals + 1
    requires 1 + rank' <= rank + if externals' > externals then setback else 0
    ensures steps + rank' <= first + Times(setback, externals')
  {
  }

  lemma OneStep<T, R>(c: Options<T, R>, s: Pool<T, R>, a: Action)
    requires PoolInv(c, s) && Enabled(c, s, a)
    ensures Fits(c, Apply(c, s, a))
    ensures 1 + Rank(c, Apply(c, s, a)) <= Rank(c, s) + if External(c, s, a) then Setback(c.take) + 1 else 0
  {
    if External(c, s, a) {
      Rises(c, s, a);
    } else {
      Descends(c, s, a);
    }
  }

  /** Nothing can happen any more but external actions; a consumer that rests could still call. */
  ghost predicate AtRest<T, R>(c: Options<T, R>, s: Pool<T, R>) {
    Fits(c, s) && forall a :: Enabled(c, s, a) ==> External(c, s, a)
  }

  /**
   * A run that can't go on has ended: all workers have, and the consumer has got
   * its `None` or has dropped the map. After a cancel this is every worker's end.
   */
  lemma AtRestMeansEnded<T, R>(c: Options<T, R>, s: Pool<T, R>)
    requires c.Valid() && PoolInv(c, s) && AtRest(c, s)
    ensures AllGone(s.workers)
    ensures s.consumer.Finished? || s.consumer.Closed?
  {
    assert !Enabled(c, s, Call) && !Enabled(c, s, Pay) && !Enabled(c, s, Close) && !Enabled(c, s, Look);
    var wake := SomeWake(s.workers);
    assert !Enabled(c, s, Notify(wake));
    forall w | 0 <= w < |s.workers|
      ensures !CanProgress(c, s, w)
    {
      forall wake
        ensures !CanWork(c, s, w, Idle, wake)
      {
        assert !External(c, s, Work(w, Idle, wake));
        assert !Enabled(c, s, Work(w, Idle, wake));
      }
    }
    if s.consumer.Looking? {
      var w := NoDeadlock(c, s);
      assert false;
    }
    if s.cancelled && !AllGone(s.workers) {
      var w := CancelledGoesOn(c, s);
      assert false;
    }
  }

  /**
   * In all: a run in order of an input whose helper doesn't panic, once it can't
   * go on, has returned exactly what one thread returns (or was dropped).
   */
  lemma {:induction false} OrderedRunsAreComplete<T, R>(c: Options<T, R>, acts: seq<Action>)
    requires c.Valid() && c.ordered && c.take.helper == None
    requires After(c, acts).Some? && AtRest(c, After(c, acts).value)
    ensures var s := After(c, acts).value;
            s.consumer.Closed? || Returned(s) == Mapped(c.f, Sequence(c.take.ends, c.take.streams, c.take.tail))
  {
    Reached(c, acts);
    AtRestMeansEnded(c, After(c, acts).value);
    InOrderRefinesSequential(c, acts);
  }
}

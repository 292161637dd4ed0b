/**
 * `fold` (crates/xeibe-core/src/parallel.rs:490-576): the items of an input folded
 * on several workers that share no accumulator, until a step breaks or
 * panics. One step of the system is one read or write of the `stop` flag, one call
 * of `step`, or one step inside `take`. An item that is a panic is one that `step`
 * panics at.
 */
module Fold {
  import opened Basics
  import opened Streams
  import opened TakeInput
  import opened TakeInvariants
  import opened TakeOrder
  import opened PoolInvariants

  /** What folding one item leads to. */
  datatype Next<+A> = Continue(acc: A) | Break(acc: A) | Panic

  datatype Folding<!T, !A> = Folding(take: Config<T>, init: A, step: (A, T) -> Next<A>)

  datatype Folder =
    // Before `stop` is read.
    | Ready
    | Taking
    | Stepping(number: nat)
    // `stop` is set next.
    | Stopping(panicked: bool)
    | Ended(panicked: bool)

  datatype State<+T, +A> = State(
    input: Input<T>,
    workers: seq<Folder>,
    accs: seq<A>,
    stop: bool,
    // The worker that took each numbered item.
    who: seq<nat>)

  datatype Action = Action(worker: nat, help: Help)

  function Begin<T, A>(c: Folding<T, A>): State<T, A> {
    State(Start(c.take), seq(c.take.threads, _ => Ready), seq(c.take.threads, _ => c.init), false, [])
  }

  predicate Fits<T, A>(c: Folding<T, A>, s: State<T, A>) {
    && Shape(c.take, s.input)
    && |s.workers| == |s.accs| == c.take.threads
    && |s.who| == |s.input.log|
    && (forall w :: 0 <= w < |s.workers| ==> (s.workers[w].Taking? <==> !s.input.takers[w].Outside?))
    && (forall w :: 0 <= w < |s.workers| && s.workers[w].Stepping? ==> s.workers[w].number < |s.who|)
  }

  predicate CanGo<T, A>(c: Folding<T, A>, s: State<T, A>, w: nat, help: Help)
    requires Fits(c, s)
  {
    w < |s.workers| && !s.workers[w].Ended? && (s.workers[w].Taking? ==> CanStep(c.take, s.input, w, help))
  }

  function Taken<T, A>(s: State<T, A>, w: nat, step: Step<T>): State<T, A>
    requires w < |s.workers|
  {
    match step.outcome
    case Going => s.(input := step.input)
    case Nothing => s.(input := step.input, workers := s.workers[w := Ended(false)])
    case Got(k) => s.(input := step.input, workers := s.workers[w := Stepping(k)], who := s.who + [w])
  }

  function Stepped<T, A>(s: State<T, A>, w: nat, next: Next<A>): State<T, A>
    requires w < |s.workers| == |s.accs|
  {
    match next
    case Continue(acc) => s.(accs := s.accs[w := acc], workers := s.workers[w := Ready])
    case Break(acc) => s.(accs := s.accs[w := acc], workers := s.workers[w := Stopping(false)])
    case Panic => s.(workers := s.workers[w := Stopping(true)])
  }

  function Go<T, A>(c: Folding<T, A>, s: State<T, A>, w: nat, help: Help): State<T, A>
    requires Fits(c, s) && CanGo(c, s, w, help)
  {
    match s.workers[w]
    case Ready =>
      if s.stop then s.(workers := s.workers[w := Ended(false)])
      else s.(workers := s.workers[w := Taking], input := Enter(s.input, w))
    case Taking => Taken(s, w, Advance(c.take, s.input, w, help))
    case Stepping(k) => Stepped(s, w, c.step(s.accs[w], s.input.log[k]))
    case Stopping(panicked) => s.(stop := true, workers := s.workers[w := Ended(panicked)])
  }

  // ---- what each worker has folded ----------------------------------------------------------------

  /** A worker's items among the first `n`, folded in their order. */
  function AccOver<T, A>(c: Folding<T, A>, log: seq<T>, who: seq<nat>, w: nat, n: nat): A
    requires n <= |log| == |who|
  {
    if n == 0 then c.init
    else
      var before := AccOver(c, log, who, w, n - 1);
      if who[n - 1] != w then before
      else
        match c.step(before, log[n - 1])
        case Continue(acc) => acc
        case Break(acc) => acc
        case Panic => before
  }

  /** What folding item `k` leads to, on the worker that took it. */
  function Gave<T, A>(c: Folding<T, A>, log: seq<T>, who: seq<nat>, k: nat): Next<A>
    requires k < |log| == |who|
  {
    c.step(AccOver(c, log, who, who[k], k), log[k])
  }

  /** The worker went on after each of its items among the first `n`. */
  ghost predicate WentOn<T, A>(c: Folding<T, A>, log: seq<T>, who: seq<nat>, w: nat, n: nat)
    requires n <= |log| == |who|
  {
    forall k :: 0 <= k < n && who[k] == w ==> Gave(c, log, who, k).Continue?
  }

  /** Nothing of the worker's comes after an item that it did not go on after. */
  ghost predicate EndsLast<T, A>(c: Folding<T, A>, log: seq<T>, who: seq<nat>, w: nat)
    requires |log| == |who|
  {
    forall k, l :: 0 <= k < l < |who| && who[k] == w && who[l] == w ==> Gave(c, log, who, k).Continue?
  }

  ghost predicate Panicked<T, A>(c: Folding<T, A>, log: seq<T>, who: seq<nat>, w: nat)
    requires |log| == |who|
  {
    exists k :: 0 <= k < |who| && who[k] == w && Gave(c, log, who, k).Panic?
  }

  /** Some step broke or panicked. */
  ghost predicate Stopped<T, A>(c: Folding<T, A>, log: seq<T>, who: seq<nat>)
    requires |log| == |who|
  {
    exists k :: 0 <= k < |who| && !Gave(c, log, who, k).Continue?
  }

  ghost predicate FolderOk<T, A>(c: Folding<T, A>, s: State<T, A>, w: nat)
    requires Fits(c, s) && w < |s.workers|
  {
    var log, who, acc := s.input.log, s.who, s.accs[w];
    match s.workers[w]
    case Stepping(k) =>
      && who[k] == w && (forall l :: k < l < |who| ==> who[l] != w)
      && acc == AccOver(c, log, who, w, k) && WentOn(c, log, who, w, k)
    case Stopping(panicked) =>
      && acc == AccOver(c, log, who, w, |who|) && EndsLast(c, log, who, w)
      && (panicked <==> Panicked(c, log, who, w)) && Stopped(c, log, who)
    case Ended(panicked) =>
      && acc == AccOver(c, log, who, w, |who|) && EndsLast(c, log, who, w)
      && (panicked <==> Panicked(c, log, who, w)) && (Stopped(c, log, who) || UsedUp(s.input))
    case _ =>
      acc == AccOver(c, log, who, w, |who|) && WentOn(c, log, who, w, |who|)
  }

  ghost predicate FoldInv<T, A>(c: Folding<T, A>, s: State<T, A>) {
    && Fits(c, s)
    && Inv(c.take, s.input) && Seen(s.input)
    && (forall k :: 0 <= k < |s.who| ==> s.who[k] < c.take.threads)
    && (forall w :: 0 <= w < |s.workers| ==> FolderOk(c, s, w))
    && (s.stop ==> Stopped(c, s.input.log, s.who))
  }

  // ---- a longer log says the same of what was in it ---------------------------------------------------

  lemma {:induction false} AccSame<T, A>(c: Folding<T, A>, log: seq<T>, who: seq<nat>, log': seq<T>, who': seq<nat>,
                                         w: nat, n: nat)
    requires n <= |log| == |who| && |log'| == |who'| && log <= log' && who <= who'
    ensures AccOver(c, log', who', w, n) == AccOver(c, log, who, w, n)
  {
    if n > 0 {
      AccSame(c, log, who, log', who', w, n - 1);
    }
  }

  lemma GaveSame<T, A>(c: Folding<T, A>, log: seq<T>, who: seq<nat>, log': seq<T>, who': seq<nat>, k: nat)
    requires k < |log| == |who| && |log'| == |who'| && log <= log' && who <= who'
    ensures Gave(c, log', who', k) == Gave(c, log, who, k)
  {
    AccSame(c, log, who, log', who', who[k], k);
  }

  lemma {:induction false} NoneAfter<T, A>(c: Folding<T, A>, log: seq<T>, who: seq<nat>, w: nat, k: nat, n: nat)
    requires k <= n <= |log| == |who| && forall l :: k <= l < n ==> who[l] != w
    ensures AccOver(c, log, who, w, n) == AccOver(c, log, who, w, k)
  {
    if k < n {
      NoneAfter(c, log, who, w, k, n - 1);
    }
  }

  lemma StoppedStays<T, A>(c: Folding<T, A>, log: seq<T>, who: seq<nat>, log': seq<T>, who': seq<nat>)
    requires |log| == |who| && |log'| == |who'| && log <= log' && who <= who' && Stopped(c, log, who)
    ensures Stopped(c, log', who')
  {
    var k :| 0 <= k < |who| && !Gave(c, log, who, k).Continue?;
    GaveSame(c, log, who, log', who', k);
  }

  /** Another worker took an item: this one is as it was. */
  lemma OtherTook<T, A>(c: Folding<T, A>, s: State<T, A>, s': State<T, A>, w: nat)
    requires FoldInv(c, s) && Fits(c, s') && w < |s.workers|
    requires s'.workers[w] == s.workers[w] && s'.accs[w] == s.accs[w]
    requires s.input.log <= s'.input.log && s.who <= s'.who && forall k :: |s.who| <= k < |s'.who| ==> s'.who[k] != w
    requires UsedUp(s.input) ==> UsedUp(s'.input)
    ensures FolderOk(c, s', w)
  {
    var log, who, log', who' := s.input.log, s.who, s'.input.log, s'.who;
    assert FolderOk(c, s, w);
    forall k | 0 <= k < |who|
      ensures Gave(c, log', who', k) == Gave(c, log, who, k)
    {
      GaveSame(c, log, who, log', who', k);
    }
    var n := if s.workers[w].Stepping? then s.workers[w].number else |who|;
    AccSame(c, log, who, log', who', w, n);
    NoneAfter(c, log', who', w, |who|, |who'|);
    if Stopped(c, log, who) {
      StoppedStays(c, log, who, log', who');
    }
  }

  lemma TookItem<T, A>(c: Folding<T, A>, s: State<T, A>, s': State<T, A>, w: nat, k: nat)
    requires FoldInv(c, s) && Fits(c, s') && w < |s.workers| && s.workers[w].Taking?
    requires k == |s.who| && s'.workers[w] == Stepping(k) && s'.accs[w] == s.accs[w]
    requires s.input.log <= s'.input.log && s'.who == s.who + [w]
    ensures FolderOk(c, s', w)
  {
    var log, who, log', who' := s.input.log, s.who, s'.input.log, s'.who;
    assert FolderOk(c, s, w);
    AccSame(c, log, who, log', who', w, k);
    forall l | 0 <= l < k
      ensures Gave(c, log', who', l) == Gave(c, log, who, l)
    {
      GaveSame(c, log, who, log', who', l);
    }
  }

  lemma TookNothing<T, A>(c: Folding<T, A>, s: State<T, A>, s': State<T, A>, w: nat)
    requires FoldInv(c, s) && Fits(c, s') && w < |s.workers|
    requires s.workers[w].Taking? || s.workers[w].Ready?
    requires s'.workers[w] == Ended(false) && s'.accs[w] == s.accs[w]
    requires s'.input.log == s.input.log && s'.who == s.who
    requires UsedUp(s'.input) || s.stop
    ensures FolderOk(c, s', w)
  {
    assert FolderOk(c, s, w);
  }

  lemma TakingKept<T, A>(c: Folding<T, A>, s: State<T, A>, w: nat, help: Help)
    requires FoldInv(c, s) && CanGo(c, s, w, help) && s.workers[w].Taking?
    ensures FoldInv(c, Go(c, s, w, help))
  {
    var r := Advance(c.take, s.input, w, help);
    Kept(c.take, s.input, w, help);
    StepOutcomes(c.take, s.input, w, help);
    TakenKept(c, s, w, r);
  }

  lemma TakenFits<T, A>(c: Folding<T, A>, s: State<T, A>, w: nat, r: Step<T>)
    requires Fits(c, s) && w < |s.workers| && s.workers[w].Taking?
    requires Shape(c.take, r.input) && Outcomes(s.input, w, r)
    ensures Fits(c, Taken(s, w, r))
  {
  }

  lemma TakenKept<T, A>(c: Folding<T, A>, s: State<T, A>, w: nat, r: Step<T>)
    requires FoldInv(c, s) && w < |s.workers| && s.workers[w].Taking?
    requires Inv(c.take, r.input) && Seen(r.input) && Outcomes(s.input, w, r)
    ensures FoldInv(c, Taken(s, w, r))
  {
    var s' := Taken(s, w, r);
    TakenFits(c, s, w, r);
    if s.stop {
      StoppedStays(c, s.input.log, s.who, s'.input.log, s'.who);
    }
    forall v | 0 <= v < |s'.workers|
      ensures FolderOk(c, s', v)
    {
      if v != w {
        OtherTook(c, s, s', v);
      } else if r.outcome.Got? {
        TookItem(c, s, s', w, r.outcome.number);
      } else if r.outcome.Nothing? {
        TookNothing(c, s, s', w);
      } else {
        assert FolderOk(c, s, w);
      }
    }
  }

  /** A step that changes nothing but one worker. */
  lemma LocalKept<T, A>(c: Folding<T, A>, s: State<T, A>, s': State<T, A>, w: nat)
    requires FoldInv(c, s) && w < |s.workers| && Fits(c, s')
    requires s'.input == s.input && s'.who == s.who
    requires s'.workers == s.workers[w := s'.workers[w]] && s'.accs == s.accs[w := s'.accs[w]]
    requires FolderOk(c, s', w) && (s'.stop ==> Stopped(c, s.input.log, s.who))
    ensures FoldInv(c, s')
  {
    forall v | 0 <= v < |s'.workers|
      ensures FolderOk(c, s', v)
    {
      if v != w {
        assert FolderOk(c, s, v);
      }
    }
  }

  /** The worker's accumulator, with the item it is at, its last, folded too. */
  lemma WithItem<T, A>(c: Folding<T, A>, log: seq<T>, who: seq<nat>, w: nat, k: nat)
    requires k < |log| == |who| && who[k] == w && forall l :: k < l < |who| ==> who[l] != w
    ensures Gave(c, log, who, k) == c.step(AccOver(c, log, who, w, k), log[k])
    ensures AccOver(c, log, who, w, |who|)
            == match Gave(c, log, who, k)
               case Continue(acc) => acc
               case Break(acc) => acc
               case Panic => AccOver(c, log, who, w, k)
  {
    NoneAfter(c, log, who, w, k + 1, |who|);
  }

  /** A worker that went on so far has, with its last item, ended at most there. */
  lemma EndsHere<T, A>(c: Folding<T, A>, log: seq<T>, who: seq<nat>, w: nat, k: nat)
    requires k < |log| == |who| && who[k] == w && (forall l :: k < l < |who| ==> who[l] != w)
    requires WentOn(c, log, who, w, k)
    ensures EndsLast(c, log, who, w)
    ensures Gave(c, log, who, k).Continue? ==> WentOn(c, log, who, w, |who|)
    ensures !Gave(c, log, who, k).Continue? ==> Stopped(c, log, who)
    ensures Panicked(c, log, who, w) <==> Gave(c, log, who, k).Panic?
  {
  }

  lemma SteppedFits<T, A>(c: Folding<T, A>, s: State<T, A>, w: nat, next: Next<A>)
    requires Fits(c, s) && w < |s.workers| && s.workers[w].Stepping?
    ensures Fits(c, Stepped(s, w, next))
  {
  }

  /** The item's result is in, or the worker is about to stop all the others. */
  lemma SteppedOk<T, A>(c: Folding<T, A>, s: State<T, A>, w: nat, k: nat)
    requires Fits(c, s) && w < |s.workers| && s.workers[w] == Stepping(k) && FolderOk(c, s, w)
    ensures var s' := Stepped(s, w, c.step(s.accs[w], s.input.log[k])); Fits(c, s') && FolderOk(c, s', w)
  {
    SteppedFits(c, s, w, c.step(s.accs[w], s.input.log[k]));
    WithItem(c, s.input.log, s.who, w, k);
    EndsHere(c, s.input.log, s.who, w, k);
  }

  lemma SteppedKept<T, A>(c: Folding<T, A>, s: State<T, A>, w: nat, k: nat)
    requires FoldInv(c, s) && w < |s.workers| && s.workers[w] == Stepping(k)
    ensures FoldInv(c, Stepped(s, w, c.step(s.accs[w], s.input.log[k])))
  {
    assert FolderOk(c, s, w);
    SteppedOk(c, s, w, k);
    LocalKept(c, s, Stepped(s, w, c.step(s.accs[w], s.input.log[k])), w);
  }

  lemma SteppingKept<T, A>(c: Folding<T, A>, s: State<T, A>, w: nat, help: Help)
    requires FoldInv(c, s) && CanGo(c, s, w, help) && s.workers[w].Stepping?
    ensures FoldInv(c, Go(c, s, w, help))
  {
    var k := s.workers[w].number;
    SteppedKept(c, s, w, k);
    assert Go(c, s, w, help) == Stepped(s, w, c.step(s.accs[w], s.input.log[k]));
  }

  lemma StoppingKept<T, A>(c: Folding<T, A>, s: State<T, A>, w: nat, help: Help)
    requires FoldInv(c, s) && CanGo(c, s, w, help) && s.workers[w].Stopping?
    ensures FoldInv(c, Go(c, s, w, help))
  {
    assert FolderOk(c, s, w);
    LocalKept(c, s, Go(c, s, w, help), w);
  }

  lemma ReadyKept<T, A>(c: Folding<T, A>, s: State<T, A>, w: nat, help: Help)
    requires FoldInv(c, s) && CanGo(c, s, w, help) && s.workers[w].Ready?
    ensures FoldInv(c, Go(c, s, w, help))
  {
    var s' := Go(c, s, w, help);
    assert FolderOk(c, s, w);
    if s.stop {
      TookNothing(c, s, s', w);
      LocalKept(c, s, s', w);
    } else {
      EnteredKept(c, s, w);
      assert s' == s.(workers := s.workers[w := Taking], input := Enter(s.input, w));
    }
  }

  lemma EnteredKept<T, A>(c: Folding<T, A>, s: State<T, A>, w: nat)
    requires FoldInv(c, s) && w < |s.workers| && s.workers[w].Ready?
    ensures FoldInv(c, s.(workers := s.workers[w := Taking], input := Enter(s.input, w)))
  {
    var s' := s.(workers := s.workers[w := Taking], input := Enter(s.input, w));
    EnterKept(c.take, s.input, w);
    forall v | 0 <= v < |s'.workers|
      ensures FolderOk(c, s', v)
    {
      assert FolderOk(c, s, v);
    }
  }

  /** Every step of every worker keeps the invariant. */
  lemma GoKept<T, A>(c: Folding<T, A>, s: State<T, A>, w: nat, help: Help)
    requires FoldInv(c, s) && CanGo(c, s, w, help)
    ensures FoldInv(c, Go(c, s, w, help))
  {
    match s.workers[w]
    case Ready => ReadyKept(c, s, w, help);
    case Taking => TakingKept(c, s, w, help);
    case Stepping(_) => SteppingKept(c, s, w, help);
    case Stopping(_) => StoppingKept(c, s, w, help);
  }

  // ---- runs ---------------------------------------------------------------------------------------

  ghost function After<T, A>(c: Folding<T, A>, acts: seq<Action>): Option<State<T, A>> {
    if acts == [] then Some(Begin(c))
    else
      var last := acts[|acts| - 1];
      match After(c, acts[..|acts| - 1])
      case None => None
      case Some(s) =>
        if Fits(c, s) && CanGo(c, s, last.worker, last.help) then Some(Go(c, s, last.worker, last.help)) else None
  }

  lemma BeginOk<T, A>(c: Folding<T, A>)
    ensures FoldInv(c, Begin(c))
  {
    StartInv(c.take);
    var s := Begin(c);
    forall w | 0 <= w < |s.workers|
      ensures FolderOk(c, s, w)
    {
      assert AccOver(c, [], [], w, 0) == c.init;
    }
  }

  lemma InputKept<T, A>(c: Folding<T, A>, s: State<T, A>, w: nat, help: Help)
    requires FoldInv(c, s) && CanGo(c, s, w, help) && c.take.Limit() == 1 && Ordered(c.take, s.input)
    ensures Shape(c.take, Go(c, s, w, help).input) && Ordered(c.take, Go(c, s, w, help).input)
  {
    if s.workers[w].Taking? {
      OrderKept(c.take, s.input, w, help);
    } else if s.workers[w].Ready? && !s.stop {
      EnterKept(c.take, s.input, w);
      OrderedSame(c.take, s.input, Enter(s.input, w));
    }
  }

  lemma {:induction false} Reached<T, A>(c: Folding<T, A>, acts: seq<Action>)
    requires After(c, acts).Some?
    ensures FoldInv(c, After(c, acts).value)
    ensures c.take.Limit() == 1 ==> Ordered(c.take, After(c, acts).value.input)
  {
    if acts == [] {
      BeginOk(c);
    } else {
      var before, last := acts[..|acts| - 1], acts[|acts| - 1];
      Reached(c, before);
      GoKept(c, After(c, before).value, last.worker, last.help);
      if c.take.Limit() == 1 {
        InputKept(c, After(c, before).value, last.worker, last.help);
      }
    }
  }

  predicate AllEnded(workers: seq<Folder>) {
    forall w :: 0 <= w < |workers| ==> workers[w].Ended?
  }

  /** As long as a worker has not ended, some worker can go on, without the helper's doing. */
  lemma SomeWorkerGoesOn<T, A>(c: Folding<T, A>, s: State<T, A>) returns (v: nat)
    requires FoldInv(c, s) && !AllEnded(s.workers)
    ensures CanGo(c, s, v, Idle)
  {
    var w: nat :| w < |s.workers| && !s.workers[w].Ended?;
    v := w;
    if s.workers[w].Taking? {
      var taker := s.input.takers[w];
      assert Known(s.input, taker);
      if taker.Blocking? && s.input.owner[taker.head].Some? {
        v := s.input.owner[taker.head].value;
        assert Held(s.input.takers[v]) == Some(taker.head);
      }
    }
  }

  /** The input is used up, to its `finish` item, unless it was stopped. */
  lemma UsedUpAll<T, A>(c: Folding<T, A>, s: State<T, A>)
    requires FoldInv(c, s) && AllEnded(s.workers) && UsedUp(s.input) && !s.input.stopped
    ensures s.input.finished && s.input.open == [] && s.input.started == |c.take.streams|
  {
    forall w | 0 <= w < |s.input.takers|
      ensures Closes(s.input.takers[w]) == 0
    {
      assert !s.workers[w].Taking?;
    }
    TotalZero(s.input.takers, Closes);
  }

  /**
   * A fold that has ended: each numbered item was folded by the worker that took it,
   * in the order of the numbers, and by no other; a worker took nothing after a step
   * that broke or panicked; and unless some step did, the whole input was taken.
   */
  lemma {:induction false} FoldGives<T, A>(c: Folding<T, A>, acts: seq<Action>, w: nat)
    requires After(c, acts).Some? && AllEnded(After(c, acts).value.workers) && w < c.take.threads
    ensures var s := After(c, acts).value;
            && |s.who| == |s.input.log| && |s.accs| == c.take.threads
            && (forall k :: 0 <= k < |s.who| ==> s.who[k] < c.take.threads)
            && s.accs[w] == AccOver(c, s.input.log, s.who, w, |s.who|)
            && EndsLast(c, s.input.log, s.who, w)
            && (s.workers[w] == Ended(true) <==> Panicked(c, s.input.log, s.who, w))
            && (Stopped(c, s.input.log, s.who) || UsedUp(s.input))
  {
    Reached(c, acts);
    assert FolderOk(c, After(c, acts).value, w);
  }

  /**
   * In order, as long as nothing stops it and the helper does not panic: exactly the
   * items that one thread would fold were folded; some of the first ones otherwise.
   */
  lemma {:induction false} FoldsTheInput<T, A>(c: Folding<T, A>, acts: seq<Action>)
    requires After(c, acts).Some? && AllEnded(After(c, acts).value.workers)
    requires c.take.Limit() == 1 && c.take.helper == None && c.take.threads > 0
    ensures var s := After(c, acts).value;
            && |s.who| == |s.input.log|
            && s.input.log <= Ideal(c.take)
            && (s.input.log == Ideal(c.take) || Stopped(c, s.input.log, s.who))
  {
    Reached(c, acts);
    FoldGives(c, acts, 0);
    var s := After(c, acts).value;
    var last := |s.input.log| - 1;
    if s.input.stopped {
      assert OriginOk(c.take, s.input.nums, s.input.finished, last, s.input.log[last], s.input.origin[last]);
    } else if !s.input.finished {
      var rest := LogBegins(c.take, s.input);
    }
    if UsedUp(s.input) && !s.input.stopped {
      UsedUpAll(c, s);
    }
  }

  // ---- on one thread --------------------------------------------------------------------------------

  /** The items folded one after another, up to the first that breaks or panics. */
  function FoldItems<T, A>(step: (A, T) -> Next<A>, acc: A, items: seq<T>): Next<A> {
    if items == [] then Continue(acc)
    else
      match step(acc, items[0])
      case Continue(next) => FoldItems(step, next, items[1..])
      case other => other
  }

  /** `fold` on the calling thread. */
  method FoldHere<T, A>(stream: Sequential<T>, init: A, step: (A, T) -> Next<A>) returns (end: Next<A>)
    requires stream.Valid()
    modifies stream
    ensures end == FoldItems(step, init, old(stream.Remaining()))
  {
    var acc := init;
    while true
      invariant stream.Valid()
      invariant FoldItems(step, init, old(stream.Remaining())) == FoldItems(step, acc, stream.Remaining())
      decreases |stream.Remaining()|
    {
      ghost var left := stream.Remaining();
      var item := stream.Next();
      if item.None? {
        return Continue(acc);
      }
      assert left[0] == item.value && left[1..] == stream.Remaining();
      match step(acc, item.value)
      case Continue(next) => acc := next;
      case Break(last) => return Break(last);
      case Panic => return Panic;
    }
  }
}

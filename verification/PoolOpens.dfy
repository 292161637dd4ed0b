/**
 * How many streams are open at once (crates/xeibe-core/src/parallel.rs:308, 328-400): never
 * more than `max_open`, and as many in some run, with a worker on each of them.
 */
module PoolOpens {
  import opened Basics
  import opened TakeInput
  import opened WorkerPool
  import opened PoolResults
  import opened PoolRuns

  // ---- never more ---------------------------------------------------------------------------------

  ghost predicate FewOpen<T>(c: Config<T>, s: Input<T>) {
    |s.open| <= if c.maxOpen > 1 then c.maxOpen else 1
  }

  lemma {:induction false} AdvanceOpens<T>(c: Config<T>, s: Input<T>, w: nat, help: Help)
    requires Shape(c, s) && CanStep(c, s, w, help) && FewOpen(c, s)
    ensures FewOpen(c, Advance(c, s, w, help).input)
  {
  }

  lemma {:induction false} ApplyOpens<T, R>(c: Options<T, R>, s: Pool<T, R>, a: Action)
    requires Fits(c, s) && Enabled(c, s, a) && FewOpen(c.take, s.input)
    ensures FewOpen(c.take, Apply(c, s, a).input)
  {
    if a.Work? && s.workers[a.worker].Taking? {
      AdvanceOpens(c.take, s.input, a.worker, a.help);
    }
  }

  /** In every run there are at most `max_open` streams open at once, and at least one may be. */
  lemma {:induction false} OpenAtMost<T, R>(c: Options<T, R>, acts: seq<Action>)
    requires c.Valid() && After(c, acts).Some?
    ensures |After(c, acts).value.input.open| <= if c.take.maxOpen > 1 then c.take.maxOpen else 1
  {
    if acts != [] {
      var before := acts[..|acts| - 1];
      OpenAtMost(c, before);
      Reached(c, before);
      ApplyOpens(c, After(c, before).value, acts[|acts| - 1]);
    }
  }

  ghost predicate Ascending(streams: seq<nat>, n: nat) {
    && (forall i, j :: 0 <= i < j < |streams| ==> streams[i] < streams[j])
    && forall i :: 0 <= i < |streams| ==> streams[i] < n
  }

  /** The open streams are in the order they were opened in. */
  ghost predicate OldestFirst<T>(s: Input<T>) {
    Ascending(s.open, s.started)
  }

  lemma {:induction false} WithoutInOrder(open: seq<nat>, i: nat, n: nat)
    requires Ascending(open, n)
    ensures Ascending(Without(open, i), n)
  {
    if open != [] {
      var later, rest := open[1..], Without(open[1..], i);
      WithoutInOrder(later, i, n);
      forall k | 0 <= k < |rest| ensures open[0] < rest[k] {
        assert rest[k] in later;
        var m :| 0 <= m < |later| && later[m] == rest[k];
        assert later[m] == open[m + 1];
      }
    }
  }

  lemma {:induction false} OneMoreInOrder(open: seq<nat>, n: nat)
    requires Ascending(open, n)
    ensures Ascending(open + [n], n + 1)
  {
  }

  lemma {:induction false} AdvanceInOrder<T>(c: Config<T>, s: Input<T>, w: nat, help: Help)
    requires Shape(c, s) && CanStep(c, s, w, help) && OldestFirst(s)
    ensures OldestFirst(Advance(c, s, w, help).input)
  {
    if s.takers[w].Opening? {
      assert Advance(c, s, w, help) == OpenNext(c, s, w);
      OpenNextInOrder(c, s, w);
    } else if s.takers[w].Ending? {
      WithoutInOrder(s.open, s.takers[w].stream, s.started);
    } else {
      OpenStays(c, s, w, help);
    }
  }

  lemma {:induction false} OpenNextInOrder<T>(c: Config<T>, s: Input<T>, w: nat)
    requires w < |s.takers| && OldestFirst(s)
    ensures OldestFirst(OpenNext(c, s, w).input)
  {
    OneMoreInOrder(s.open, s.started);
  }

  lemma {:induction false} OpenStays<T>(c: Config<T>, s: Input<T>, w: nat, help: Help)
    requires Shape(c, s) && CanStep(c, s, w, help) && !s.takers[w].Opening? && !s.takers[w].Ending?
    ensures SameOpen(s, Advance(c, s, w, help).input)
  {
    if s.takers[w].Trying? || s.takers[w].Blocking? || s.takers[w].Holding? || s.takers[w].Drawn? {
      OpenStaysOnStream(c, s, w, help);
    } else {
      OpenStaysElse(c, s, w, help);
    }
  }

  lemma {:induction false} OpenStaysOnStream<T>(c: Config<T>, s: Input<T>, w: nat, help: Help)
    requires Shape(c, s) && CanStep(c, s, w, help)
    requires s.takers[w].Trying? || s.takers[w].Blocking? || s.takers[w].Holding? || s.takers[w].Drawn?
    ensures SameOpen(s, Advance(c, s, w, help).input)
  {
  }

  lemma {:induction false} OpenStaysElse<T>(c: Config<T>, s: Input<T>, w: nat, help: Help)
    requires Shape(c, s) && CanStep(c, s, w, help) && !s.takers[w].Opening? && !s.takers[w].Ending?
    requires !s.takers[w].Trying? && !s.takers[w].Blocking? && !s.takers[w].Holding? && !s.takers[w].Drawn?
    ensures SameOpen(s, Advance(c, s, w, help).input)
  {
  }

  ghost predicate SameOpen<T>(s: Input<T>, after: Input<T>) {
    after.open == s.open && after.started == s.started
  }

  /** In every run a worker looks at the open streams oldest first. */
  lemma {:induction false} OpenInOrder<T, R>(c: Options<T, R>, acts: seq<Action>)
    requires c.Valid() && After(c, acts).Some?
    ensures OldestFirst(After(c, acts).value.input)
  {
    if acts != [] {
      var before := acts[..|acts| - 1];
      OpenInOrder(c, before);
      Reached(c, before);
      ApplyInOrder(c, After(c, before).value, acts[|acts| - 1]);
    }
  }

  lemma {:induction false} ApplyInOrder<T, R>(c: Options<T, R>, s: Pool<T, R>, a: Action)
    requires Fits(c, s) && Enabled(c, s, a) && OldestFirst(s.input)
    ensures OldestFirst(Apply(c, s, a).input)
  {
    if a.Work? && s.workers[a.worker].Taking? {
      AdvanceInOrder(c.take, s.input, a.worker, a.help);
    }
  }

  /** It goes on past a stream only if another worker holds it, so it takes the oldest that nobody holds. */
  lemma {:induction false} TakesTheOldest<T>(c: Config<T>, s: Input<T>, w: nat, help: Help)
    requires Shape(c, s) && CanStep(c, s, w, help) && s.takers[w].Trying? && s.takers[w].at < |s.takers[w].open|
    requires var stream := s.takers[w].open[s.takers[w].at]; stream < |s.done| && !s.done[stream]
    ensures var taker, after := s.takers[w], Advance(c, s, w, help).input;
            var stream := taker.open[taker.at];
            stream < |s.owner| == |after.owner| && |after.takers| == |s.takers| &&
            if s.owner[stream].Some? then after == s.(takers := s.takers[w := taker.(at := taker.at + 1)])
            else after.owner[stream] == Some(w) && after.takers[w] == Holding(stream)
  {
    assert s.takers[w].open[s.takers[w].at] in s.takers[w].open;
  }

  // ---- as many --------------------------------------------------------------------------------------

  function Upto(n: nat): (streams: seq<nat>)
    ensures |streams| == n
  {
    seq(n, i requires 0 <= i < n => i)
  }

  /** The first `k` workers are on a stream each; the next one is at this place, with `n` streams open. */
  function Streaming<T>(c: Config<T>, k: nat, n: nat, taker: Taker<T>): (s: Input<T>)
    requires k <= c.threads && k <= n <= |c.streams|
  {
    var held := if taker.Holding? then k + 1 else k;
    Start(c).(started := n, open := Upto(n),
              owner := seq(|c.streams|, i requires 0 <= i < |c.streams| => if i < held then Some(i) else None),
              takers := seq(c.threads, w requires 0 <= w < c.threads =>
                              if w < k then Holding(w) else if w == k then taker else Outside))
  }

  function FirstTaking<T, R>(c: Options<T, R>, k: nat): (workers: seq<Worker<R>>)
    ensures |workers| == c.take.threads
  {
    seq(c.take.threads, w => if w < k then Taking else Ready)
  }

  /** Worker `k` is inside `take`. */
  function Inside<T, R>(c: Options<T, R>, k: nat, n: nat, taker: Taker<T>): Pool<T, R>
    requires k < c.take.threads && k <= n <= |c.take.streams|
  {
    Begin(c).(input := Streaming(c.take, k, n, taker), workers := FirstTaking(c, k + 1), free := c.Tickets() - k - 1)
  }

  /** `k` workers are on a stream each, and the others have not begun. */
  function Busy<T, R>(c: Options<T, R>, k: nat): Pool<T, R>
    requires k <= c.take.threads && k <= |c.take.streams|
  {
    Begin(c).(input := Streaming(c.take, k, k, Outside), workers := FirstTaking(c, k), free := c.Tickets() - k)
  }

  /** A step of worker `k` inside `take`. */
  ghost predicate Steps<T>(c: Config<T>, k: nat, n: nat, taker: Taker<T>, n': nat, taker': Taker<T>) {
    && k < c.threads && k <= n <= |c.streams| && k <= n' <= |c.streams|
    && Shape(c, Streaming(c, k, n, taker)) && CanStep(c, Streaming(c, k, n, taker), k, Idle)
    && Advance(c, Streaming(c, k, n, taker), k, Idle) == Step(Streaming(c, k, n', taker'), Going)
  }

  lemma {:induction false} Goes<T, R>(c: Options<T, R>, acts: seq<Action>, k: nat, n: nat, taker: Taker<T>, n': nat,
                                      taker': Taker<T>)
    returns (more: seq<Action>)
    requires c.Valid() && Steps(c.take, k, n, taker, n', taker') && Comes(c, acts, Inside(c, k, n, taker))
    ensures Comes(c, more, Inside(c, k, n', taker'))
  {
    ComesFitting(c, acts, Inside(c, k, n, taker));
    more := Takes(c, acts, Inside(c, k, n, taker), k, Idle, Inside(c, k, n', taker'));
  }

  lemma {:induction false} Shaped<T, R>(c: Options<T, R>, acts: seq<Action>, k: nat, n: nat, taker: Taker<T>)
    requires c.Valid() && k < c.take.threads && k <= n <= |c.take.streams| && Comes(c, acts, Inside(c, k, n, taker))
    ensures Shape(c.take, Streaming(c.take, k, n, taker))
  {
    ComesFitting(c, acts, Inside(c, k, n, taker));
  }

  lemma {:induction false} Moves<T>(c: Config<T>, k: nat, n: nat, taker: Taker<T>, taker': Taker<T>)
    requires k < c.threads && k <= n <= |c.streams| && !taker.Holding? && !taker'.Holding?
    ensures Goto(Streaming(c, k, n, taker), k, taker') == Step(Streaming(c, k, n, taker'), Going)
  {
    assert Streaming(c, k, n, taker).takers[k := taker'] == Streaming(c, k, n, taker').takers;
  }

  /** The steps that only go to another place. */
  ghost predicate GoesOn<T>(c: Config<T>, n: nat, taker: Taker<T>, taker': Taker<T>) {
    || (taker.Helping? && taker'.Top?) || (taker.Top? && taker'.Running?)
    || (taker.Running? && taker' == Listing(false))
    || (taker == Listing(false) && taker' == if n == 0 then Opening else Trying(false, Upto(n), 0))
    || (taker == Trying(false, Upto(n), n) && n > 0 && n < c.maxOpen && taker'.Opening?)
  }

  lemma {:induction false} MovesBy<T, R>(c: Options<T, R>, acts: seq<Action>, k: nat, n: nat, taker: Taker<T>,
                                         taker': Taker<T>)
    returns (more: seq<Action>)
    requires c.Valid() && k < c.take.threads && k <= n <= |c.take.streams| && GoesOn(c.take, n, taker, taker')
    requires Comes(c, acts, Inside(c, k, n, taker))
    ensures Comes(c, more, Inside(c, k, n, taker'))
  {
    Shaped(c, acts, k, n, taker);
    Moves(c.take, k, n, taker, taker');
    more := Goes(c, acts, k, n, taker, n, taker');
  }

  /** From the loop's top to the first of the open streams, or to opening one if there is none. */
  lemma {:induction false} Looks<T, R>(c: Options<T, R>, acts: seq<Action>, k: nat, n: nat) returns (more: seq<Action>)
    requires c.Valid() && k < c.take.threads && k <= n <= |c.take.streams| && Comes(c, acts, Inside(c, k, n, Top))
    ensures Comes(c, more, Inside(c, k, n, if n == 0 then Opening else Trying(false, Upto(n), 0)))
  {
    more := MovesBy(c, acts, k, n, Top, Running);
    more := MovesBy(c, more, k, n, Running, Listing(false));
    more := MovesBy(c, more, k, n, Listing(false), if n == 0 then Opening else Trying(false, Upto(n), 0));
  }

  lemma {:induction false} TriesNext<T>(c: Config<T>, k: nat, n: nat, at: nat, next: nat)
    requires at < k < c.threads && k <= n <= |c.streams| && next == at + 1
    requires Shape(c, Streaming(c, k, n, Trying(false, Upto(n), at)))
    ensures Steps<T>(c, k, n, Trying(false, Upto(n), at), n, Trying(false, Upto(n), next))
  {
    assert Upto(n)[at] == at;
    Moves<T>(c, k, n, Trying(false, Upto(n), at), Trying(false, Upto(n), next));
  }

  lemma {:induction false} TriesOne<T, R>(c: Options<T, R>, acts: seq<Action>, k: nat, n: nat, at: nat, next: nat)
    returns (more: seq<Action>)
    requires c.Valid() && at < k < c.take.threads && k <= n <= |c.take.streams| && next == at + 1
    requires Comes(c, acts, Inside(c, k, n, Trying(false, Upto(n), at)))
    ensures Comes(c, more, Inside(c, k, n, Trying(false, Upto(n), next)))
  {
    Shaped(c, acts, k, n, Trying(false, Upto(n), at));
    TriesNext(c.take, k, n, at, next);
    more := Goes(c, acts, k, n, Trying(false, Upto(n), at), n, Trying(false, Upto(n), next));
  }

  /** The streams of the other workers are held: each is tried and left. */
  lemma {:induction false} Tries<T, R>(c: Options<T, R>, acts: seq<Action>, k: nat, n: nat, at: nat)
    returns (more: seq<Action>)
    requires c.Valid() && k < c.take.threads && at <= k <= n <= |c.take.streams|
    requires Comes(c, acts, Inside(c, k, n, Trying(false, Upto(n), at)))
    ensures Comes(c, more, Inside(c, k, n, Trying(false, Upto(n), k)))
    decreases k - at
  {
    if at == k {
      more := acts;
    } else {
      var next := at + 1;
      more := TriesOne(c, acts, k, n, at, next);
      more := Tries(c, more, k, n, next);
    }
  }

  lemma {:induction false} OpensOne<T>(c: Config<T>, k: nat)
    requires k < c.threads && k < |c.streams| && k < c.maxOpen && Shape(c, Streaming(c, k, k, Opening))
    ensures Steps(c, k, k, Opening, k + 1, Top)
  {
    assert Upto(k) + [k] == Upto(k + 1);
    assert Streaming(c, k, k, Opening).takers[k := Top] == Streaming(c, k, k + 1, Top).takers;
  }

  /** All of them are held: the next stream is opened. */
  lemma {:induction false} Opens<T, R>(c: Options<T, R>, acts: seq<Action>, k: nat) returns (more: seq<Action>)
    requires c.Valid() && k < c.take.threads && k < |c.take.streams| && k < c.take.maxOpen
    requires Comes(c, acts, Inside(c, k, k, Top))
    ensures Comes(c, more, Inside(c, k, k + 1, Top))
  {
    more := Looks(c, acts, k, k);
    if k > 0 {
      more := Tries(c, more, k, k, 0);
      more := MovesBy(c, more, k, k, Trying(false, Upto(k), k), Opening);
    }
    Shaped(c, more, k, k, Opening);
    OpensOne(c.take, k);
    more := Goes(c, more, k, k, Opening, k + 1, Top);
  }

  lemma {:induction false} HoldsOne<T>(c: Config<T>, k: nat)
    requires k < c.threads && k < |c.streams|
    requires Shape(c, Streaming(c, k, k + 1, Trying(false, Upto(k + 1), k)))
    ensures Steps(c, k, k + 1, Trying(false, Upto(k + 1), k), k + 1, Holding(k))
  {
    var s, s' := Streaming(c, k, k + 1, Trying(false, Upto(k + 1), k)), Streaming(c, k, k + 1, Holding(k));
    assert s.owner[k := Some(k)] == s'.owner && s.takers[k := Holding(k)] == s'.takers;
    assert Upto(k + 1)[k] == k;
  }

  /** The stream opened last is nobody's yet. */
  lemma {:induction false} Holds0<T, R>(c: Options<T, R>, acts: seq<Action>, k: nat) returns (more: seq<Action>)
    requires c.Valid() && k < c.take.threads && k < |c.take.streams| && Comes(c, acts, Inside(c, k, k + 1, Top))
    ensures Comes(c, more, Inside(c, k, k + 1, Holding(k)))
  {
    more := Looks(c, acts, k, k + 1);
    more := Tries(c, more, k, k + 1, 0);
    more := HoldsLast(c, more, k);
  }

  lemma {:induction false} HoldsLast<T, R>(c: Options<T, R>, acts: seq<Action>, k: nat) returns (more: seq<Action>)
    requires c.Valid() && k < c.take.threads && k < |c.take.streams|
    requires Comes(c, acts, Inside(c, k, k + 1, Trying(false, Upto(k + 1), k)))
    ensures Comes(c, more, Inside(c, k, k + 1, Holding(k)))
  {
    Shaped(c, acts, k, k + 1, Trying(false, Upto(k + 1), k));
    HoldsOne(c.take, k);
    more := Goes(c, acts, k, k + 1, Trying(false, Upto(k + 1), k), k + 1, Holding(k));
  }

  lemma {:induction false} IsBusy<T, R>(c: Options<T, R>, k: nat)
    requires k < c.take.threads && k < |c.take.streams|
    ensures Inside(c, k, k + 1, Holding(k)) == Busy(c, k + 1)
  {
    assert Streaming(c.take, k, k + 1, Holding(k)).takers == Streaming<T>(c.take, k + 1, k + 1, Outside).takers;
    assert Streaming(c.take, k, k + 1, Holding(k)).owner == Streaming<T>(c.take, k + 1, k + 1, Outside).owner;
  }

  lemma {:induction false} Enters<T, R>(c: Options<T, R>, acts: seq<Action>, k: nat) returns (more: seq<Action>)
    requires c.Valid() && k < c.take.threads && k < |c.take.streams| && Comes(c, acts, Busy(c, k))
    ensures Comes(c, more, Inside(c, k, k, Top))
  {
    var s := Busy(c, k);
    ComesFitting(c, acts, s);
    assert s.workers[k := Taking] == FirstTaking(c, k + 1);
    assert s.input.takers[k := Helping] == Streaming<T>(c.take, k, k, Helping).takers;
    more := Works(c, acts, s, k, Inside(c, k, k, Helping));
    more := MovesBy(c, more, k, k, Helping, Top);
  }

  lemma {:induction false} NobodyBusy<T, R>(c: Options<T, R>)
    ensures Busy(c, 0) == Begin(c)
  {
    assert Upto(0) == [];
    assert Streaming<T>(c.take, 0, 0, Outside).owner == Start(c.take).owner;
    assert Streaming<T>(c.take, 0, 0, Outside).takers == Start(c.take).takers;
    assert FirstTaking(c, 0) == Begin(c).workers;
  }

  lemma {:induction false} Streams<T, R>(c: Options<T, R>, k: nat) returns (acts: seq<Action>)
    requires c.Valid() && k <= c.take.threads && k <= |c.take.streams| && k <= c.take.maxOpen
    ensures Comes(c, acts, Busy(c, k))
  {
    if k == 0 {
      acts := [];
      NobodyBusy(c);
    } else {
      var j := k - 1;
      acts := Streams(c, j);
      acts := OneMoreBusy(c, acts, j, k);
    }
  }

  /** Another worker on another stream. */
  lemma {:induction false} OneMoreBusy<T, R>(c: Options<T, R>, acts: seq<Action>, k: nat, n: nat)
    returns (more: seq<Action>)
    requires c.Valid() && k < c.take.threads && k < |c.take.streams| && k < c.take.maxOpen && n == k + 1
    requires Comes(c, acts, Busy(c, k))
    ensures Comes(c, more, Busy(c, n))
  {
    more := Enters(c, acts, k);
    more := Opens(c, more, k);
    more := Holds0(c, more, k);
    IsBusy(c, k);
  }

  /**
   * As many streams as `max_open` are open in some run, where there are as many streams
   * and workers, each with a worker of its own.
   */
  lemma {:induction false} OpenIsMet<T, R>(c: Options<T, R>) returns (acts: seq<Action>)
    requires c.Valid() && c.take.maxOpen <= c.take.threads && c.take.maxOpen <= |c.take.streams|
    ensures After(c, acts).Some?
    ensures var s := After(c, acts).value.input;
            && |s.open| == c.take.maxOpen <= |s.owner|
            && forall i :: 0 <= i < c.take.maxOpen ==> s.open[i] == i && s.owner[i] == Some(i)
  {
    acts := Streams(c, c.take.maxOpen);
  }
}

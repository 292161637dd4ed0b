/**
 * How far the workers get ahead (crates/xeibe-core/src/parallel.rs:632-669, 706): while
 * the consumer takes nothing, some run takes as many items as there are tickets.
 */
module PoolFills {
  import opened Basics
  import opened Streams
  import opened TakeInput
  import opened WorkerPool
  import opened PoolKept
  import opened PoolResults
  import opened PoolRuns

  function InTurn(k: nat): (origin: seq<Origin>)
    ensures |origin| == k
  {
    seq(k, i requires 0 <= i < k => FromStream(0, i))
  }

  function Counted(k: nat): (numbers: seq<nat>)
    ensures |numbers| == k
  {
    seq(k, i => i)
  }

  /** The first stream is open, `k` of its items are numbered and `drawn` are drawn; worker 0 is at this place. */
  function Inside<T>(c: Config<T>, k: nat, drawn: nat, owner: Option<nat>, taker: Taker<T>): Input<T>
    requires c.threads > 0 && c.streams != [] && k <= |c.streams[0]|
  {
    var start := Start(c);
    start.(started := 1, open := [0], log := c.streams[0][..k], origin := InTurn(k), pos := start.pos[0 := drawn],
           owner := start.owner[0 := owner], nums := start.nums[0 := Counted(k)], takers := start.takers[0 := taker])
  }

  function SentOut<T, R>(c: Options<T, R>, k: nat): (channel: seq<(nat, R)>)
    requires c.take.streams != [] && k <= |c.take.streams[0]|
    ensures |channel| == k
  {
    seq(k, i requires 0 <= i < k => (i, c.f(c.take.streams[0][i])))
  }

  /** Enough items that do not end the input. */
  ghost predicate Suits<T, R>(c: Options<T, R>, k: nat) {
    && c.Valid() && c.take.streams != [] && k <= |c.take.streams[0]|
    && NoneEnds(c.take.ends, c.take.streams[0][..k])
  }

  /** `k` results are in the channel, and worker 0 is where `worker` and the input say. */
  function Ahead<T, R>(c: Options<T, R>, k: nat, input: Input<T>, worker: Worker<R>, held: nat,
                       place: seq<Place>): Pool<T, R>
    requires c.take.threads > 0 && c.take.streams != [] && k <= |c.take.streams[0]| && k + held <= c.Tickets()
  {
    Begin(c).(input := input, workers := Begin(c).workers[0 := worker], free := c.Tickets() - k - held,
              channel := SentOut(c, k), place := place)
  }

  function Placed(k: nat): (places: seq<Place>)
    ensures |places| == k
  {
    seq(k, _ => InChannel)
  }

  function Taking0<T, R>(c: Options<T, R>, k: nat, drawn: nat, owner: Option<nat>, taker: Taker<T>): Pool<T, R>
    requires c.take.threads > 0 && c.take.streams != [] && k <= |c.take.streams[0]| && k < c.Tickets()
  {
    Ahead(c, k, Inside(c.take, k, drawn, owner, taker), Taking, 1, Placed(k))
  }

  /** `k` items are taken, mapped and sent, and the workers are ready for more. */
  function Filled<T, R>(c: Options<T, R>, k: nat): Pool<T, R>
    requires c.take.threads > 0 && c.take.streams != [] && k <= |c.take.streams[0]| && k <= c.Tickets()
  {
    Ahead(c, k, Inside(c.take, k, k, None, Outside), Ready, 0, Placed(k))
  }

  /** One step of worker 0 inside `take`. */
  lemma {:induction false} Goes<T, R>(c: Options<T, R>, acts: seq<Action>, k: nat, drawn: nat, owner: Option<nat>,
                                      taker: Taker<T>, drawn': nat, owner': Option<nat>, taker': Taker<T>)
    returns (more: seq<Action>)
    requires Suits(c, k) && k < c.Tickets() && LeadsTo(c, acts, Taking0(c, k, drawn, owner, taker))
    requires CanStep(c.take, Inside(c.take, k, drawn, owner, taker), 0, Idle)
    requires Advance(c.take, Inside(c.take, k, drawn, owner, taker), 0, Idle)
             == Step(Inside(c.take, k, drawn', owner', taker'), Going)
    ensures LeadsTo(c, more, Taking0(c, k, drawn', owner', taker'))
  {
    more := Takes(c, acts, Taking0(c, k, drawn, owner, taker), 0, Idle, Taking0(c, k, drawn', owner', taker'));
  }

  /** From the loop's top to the open stream. */
  lemma {:induction false} Looks<T, R>(c: Options<T, R>, acts: seq<Action>, k: nat) returns (more: seq<Action>)
    requires Suits(c, k) && k < c.Tickets() && LeadsTo(c, acts, Taking0(c, k, k, None, Top))
    ensures LeadsTo(c, more, Taking0(c, k, k, None, Trying(false, [0], 0)))
  {
    more := Goes(c, acts, k, k, None, Top, k, None, Running);
    more := Goes(c, more, k, k, None, Running, k, None, Listing(false));
    more := Goes(c, more, k, k, None, Listing(false), k, None, Trying(false, [0], 0));
  }

  lemma {:induction false} Draws<T, R>(c: Options<T, R>, acts: seq<Action>, k: nat) returns (more: seq<Action>)
    requires Suits(c, k + 1) && k < c.Tickets() && LeadsTo(c, acts, Taking0(c, k, k, None, Trying(false, [0], 0)))
    ensures LeadsTo(c, more, Taking0(c, k, k + 1, Some(0), Drawn(0, c.take.streams[0][k])))
  {
    FewerSuit(c, k);
    more := Goes(c, acts, k, k, None, Trying(false, [0], 0), k, Some(0), Holding(0));
    more := Goes(c, more, k, k, Some(0), Holding(0), k + 1, Some(0), Drawn(0, c.take.streams[0][k]));
  }

  lemma FewerSuit<T, R>(c: Options<T, R>, k: nat)
    requires Suits(c, k + 1)
    ensures Suits(c, k)
  {
    var items := c.take.streams[0];
    assert forall i :: 0 <= i < k ==> items[..k][i] == items[..k + 1][i];
  }

  /** The item drawn has its number. */
  function Numbered0<T, R>(c: Options<T, R>, k: nat, worker: Worker<R>): Pool<T, R>
    requires c.take.threads > 0 && c.take.streams != [] && k < |c.take.streams[0]| && k < c.Tickets()
  {
    Ahead(c, k, Inside(c.take, k + 1, k + 1, None, Outside), worker, 1, Placed(k) + [OnWorker(0)])
  }

  lemma {:induction false} IsNumbered<T>(c: Config<T>, k: nat)
    requires c.threads > 0 && c.streams != [] && k < |c.streams[0]| && !c.ends(c.streams[0][k])
    ensures NumberDrawn(c, Inside(c, k, k + 1, Some(0), Drawn(0, c.streams[0][k])), 0, 0, c.streams[0][k])
            == Step(Inside(c, k + 1, k + 1, None, Outside), Got(k))
  {
    var items := c.streams[0];
    assert items[..k] + [items[k]] == items[..k + 1];
    assert InTurn(k) + [FromStream(0, k)] == InTurn(k + 1);
    assert Counted(k) + [k] == Counted(k + 1);
  }

  lemma {:induction false} Numbers0<T, R>(c: Options<T, R>, acts: seq<Action>, k: nat) returns (more: seq<Action>)
    requires Suits(c, k + 1) && k < c.Tickets()
    requires LeadsTo(c, acts, Taking0(c, k, k + 1, Some(0), Drawn(0, c.take.streams[0][k])))
    ensures LeadsTo(c, more, Numbered0(c, k, Mapping(k)))
  {
    assert c.take.streams[0][..k + 1][k] == c.take.streams[0][k];
    IsNumbered(c.take, k);
    var s := Taking0(c, k, k + 1, Some(0), Drawn(0, c.take.streams[0][k]));
    assert s.workers[0 := Mapping(k)] == Begin(c).workers[0 := Mapping(k)];
    more := Takes(c, acts, s, 0, Idle, Numbered0(c, k, Mapping(k)));
  }

  /** It is mapped. */
  lemma {:induction false} Maps<T, R>(c: Options<T, R>, acts: seq<Action>, k: nat, result: R)
    returns (more: seq<Action>)
    requires Suits(c, k + 1) && k < c.Tickets() && LeadsTo(c, acts, Numbered0(c, k, Mapping(k)))
    requires result == c.f(c.take.streams[0][k])
    ensures LeadsTo(c, more, Numbered0(c, k, Sending(k, result)))
  {
    var s := Numbered0(c, k, Mapping(k));
    assert s.workers[0 := Sending(k, result)] == Begin(c).workers[0 := Sending(k, result)];
    more := Works(c, acts, s, 0, Numbered0(c, k, Sending(k, result)));
  }

  /** And sent. */
  lemma {:induction false} Sends<T, R>(c: Options<T, R>, acts: seq<Action>, k: nat, result: R)
    returns (more: seq<Action>)
    requires Suits(c, k + 1) && k < c.Tickets() && LeadsTo(c, acts, Numbered0(c, k, Sending(k, result)))
    requires result == c.f(c.take.streams[0][k])
    ensures LeadsTo(c, more, Filled(c, k + 1))
  {
    var s := Numbered0(c, k, Sending(k, result));
    assert s.workers[0 := Ready] == Begin(c).workers[0 := Ready];
    assert SentOut(c, k) + [(k, result)] == SentOut(c, k + 1);
    assert (Placed(k) + [OnWorker(0)])[k := InChannel] == Placed(k + 1);
    more := Works(c, acts, s, 0, Filled(c, k + 1));
  }

  /** One item more, from the loop's top. */
  lemma {:induction false} TakesOne<T, R>(c: Options<T, R>, acts: seq<Action>, k: nat) returns (more: seq<Action>)
    requires Suits(c, k + 1) && k < c.Tickets() && LeadsTo(c, acts, Taking0(c, k, k, None, Top))
    ensures LeadsTo(c, more, Filled(c, k + 1))
  {
    FewerSuit(c, k);
    more := Looks(c, acts, k);
    more := Draws(c, more, k);
    more := Numbers0(c, more, k);
    var result := c.f(c.take.streams[0][k]);
    more := Maps(c, more, k, result);
    more := Sends(c, more, k, result);
  }

  /** Worker 0 takes another ticket, and its helper has nothing to do. */
  lemma {:induction false} Enters<T, R>(c: Options<T, R>, acts: seq<Action>, k: nat) returns (more: seq<Action>)
    requires Suits(c, k) && k < c.Tickets() && LeadsTo(c, acts, Filled(c, k))
    ensures LeadsTo(c, more, Taking0(c, k, k, None, Top))
  {
    var s := Filled(c, k);
    assert s.workers[0 := Taking] == Begin(c).workers[0 := Taking];
    assert s.input.takers[0 := Helping] == Start(c.take).takers[0 := Helping];
    more := Works(c, acts, s, 0, Taking0(c, k, k, None, Helping));
    more := Goes(c, more, k, k, None, Helping, k, None, Top);
  }

  // ---- the first item, whose stream is not open yet ------------------------------------------------

  function Fresh<T, R>(c: Options<T, R>, taker: Taker<T>): Pool<T, R>
    requires c.take.threads > 0 && 0 < c.Tickets()
  {
    Begin(c).(input := Start(c.take).(takers := Start(c.take).takers[0 := taker]),
              workers := Begin(c).workers[0 := Taking], free := c.Tickets() - 1)
  }

  lemma {:induction false} FreshGoes<T, R>(c: Options<T, R>, acts: seq<Action>, taker: Taker<T>, taker': Taker<T>)
    returns (more: seq<Action>)
    requires c.Valid() && LeadsTo(c, acts, Fresh(c, taker)) && CanStep(c.take, Fresh(c, taker).input, 0, Idle)
    requires Advance(c.take, Fresh(c, taker).input, 0, Idle) == Step(Fresh(c, taker').input, Going)
    ensures LeadsTo(c, more, Fresh(c, taker'))
  {
    more := Takes(c, acts, Fresh(c, taker), 0, Idle, Fresh(c, taker'));
  }

  lemma {:induction false} EntersFirst<T, R>(c: Options<T, R>) returns (acts: seq<Action>)
    requires c.Valid()
    ensures LeadsTo(c, acts, Fresh(c, Top))
  {
    BeginInv(c);
    acts := Works(c, [], Begin(c), 0, Fresh(c, Helping));
    acts := FreshGoes(c, acts, Helping, Top);
  }

  lemma {:induction false} LooksFirst<T, R>(c: Options<T, R>) returns (acts: seq<Action>)
    requires c.Valid()
    ensures LeadsTo(c, acts, Fresh(c, Opening))
  {
    acts := EntersFirst(c);
    acts := FreshGoes(c, acts, Top, Running);
    acts := FreshGoes(c, acts, Running, Listing(false));
    acts := FreshGoes(c, acts, Listing(false), Opening);
  }

  lemma {:induction false} Opens<T, R>(c: Options<T, R>) returns (acts: seq<Action>)
    requires Suits(c, 0)
    ensures LeadsTo(c, acts, Taking0(c, 0, 0, None, Top))
  {
    acts := LooksFirst(c);
    IsOpened(c.take);
    assert Placed(0) == [] && SentOut(c, 0) == [];
    acts := Takes(c, acts, Fresh(c, Opening), 0, Idle, Taking0(c, 0, 0, None, Top));
  }

  lemma {:induction false} IsOpened<T>(c: Config<T>)
    requires c.threads > 0 && c.streams != []
    ensures OpenNext(c, Start(c).(takers := Start(c).takers[0 := Opening]), 0)
            == Step(Inside(c, 0, 0, None, Top), Going)
  {
    assert c.streams[0][..0] == [] && InTurn(0) == [] && Counted(0) == [];
    var start := Start(c);
    assert start.pos[0 := 0] == start.pos && start.owner[0 := None] == start.owner && start.nums[0 := []] == start.nums;
  }

  // ---- as many as there are tickets ------------------------------------------------------------------

  lemma {:induction false} Fills<T, R>(c: Options<T, R>, k: nat) returns (acts: seq<Action>)
    requires Suits(c, k) && 0 < k <= c.Tickets()
    ensures LeadsTo(c, acts, Filled(c, k))
  {
    FewerSuit(c, k - 1);
    if k == 1 {
      acts := Opens(c);
    } else {
      acts := Fills(c, k - 1);
      acts := Enters(c, acts, k - 1);
    }
    acts := TakesOne(c, acts, k - 1);
  }

  /**
   * A consumer that takes nothing does not keep `max(in_flight, threads)` items from
   * being taken, of an input whose first stream has as many that do not end it; no
   * ticket is left then.
   */
  lemma {:induction false} BackpressureIsMet<T, R>(c: Options<T, R>) returns (acts: seq<Action>)
    requires c.Valid() && c.take.streams != []
    requires |c.take.streams[0]| >= c.inFlight && |c.take.streams[0]| >= c.take.threads
    requires NoneEnds(c.take.ends, c.take.streams[0])
    ensures After(c, acts).Some?
    ensures var s := After(c, acts).value;
            && s.handed == [] && s.free == 0
            && |s.input.log| == if c.inFlight >= c.take.threads then c.inFlight else c.take.threads
  {
    acts := Fills(c, c.Tickets());
  }
}

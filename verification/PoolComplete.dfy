/**
 * In any order: a run of an input that nothing ends returns, once it can't go
 * on, the result of every item exactly once.
 */
module PoolComplete {
  import opened Basics
  import opened Streams
  import opened TakeInput
  import opened TakeInvariants
  import opened WorkerPool
  import opened PoolInvariants
  import opened PoolResults
  import opened PoolTermination

  // ---- entries chosen by their places ------------------------------------------------------------

  /** The entries at some of the places. */
  ghost function Chosen<X>(all: seq<X>, places: set<nat>): multiset<X> {
    if all == [] then multiset{}
    else
      Chosen(all[..|all| - 1], places)
      + if |all| - 1 in places then multiset{all[|all| - 1]} else multiset{}
  }

  lemma {:induction false} ChosenSame<X>(all: seq<X>, a: set<nat>, b: set<nat>)
    requires forall k :: 0 <= k < |all| ==> (k in a <==> k in b)
    ensures Chosen(all, a) == Chosen(all, b)
  {
    if all != [] {
      ChosenSame(all[..|all| - 1], a, b);
    }
  }

  lemma {:induction false} ChosenMore<X>(all: seq<X>, places: set<nat>, k: nat)
    requires k < |all| && k !in places
    ensures Chosen(all, places + {k}) == Chosen(all, places) + multiset{all[k]}
  {
    var before := all[..|all| - 1];
    if k < |before| {
      ChosenMore(before, places, k);
    } else {
      ChosenSame(before, places, places + {k});
    }
  }

  lemma {:induction false} ChosenNone<X>(all: seq<X>, places: set<nat>)
    requires forall k :: 0 <= k < |all| ==> k !in places
    ensures Chosen(all, places) == multiset{}
  {
    if all != [] {
      ChosenNone(all[..|all| - 1], places);
    }
  }

  lemma {:induction false} ChosenAll<X>(all: seq<X>, places: set<nat>)
    requires forall k :: 0 <= k < |all| ==> k in places
    ensures Chosen(all, places) == multiset(all)
  {
    if all != [] {
      ChosenAll(all[..|all| - 1], places);
      assert all == all[..|all| - 1] + [all[|all| - 1]];
    }
  }

  // ---- what was handed over ------------------------------------------------------------------------

  ghost function NumbersOf<X>(entries: seq<(nat, X)>): set<nat> {
    set i | 0 <= i < |entries| :: entries[i].0
  }

  ghost predicate EntriesOf<X>(entries: seq<(nat, X)>, all: seq<X>) {
    && (forall i :: 0 <= i < |entries| ==> entries[i].0 < |all| && entries[i].1 == all[entries[i].0])
    && (forall i, j :: 0 <= i < j < |entries| ==> entries[i].0 != entries[j].0)
  }

  /** Entries with numbers of their own are the entries chosen by these numbers. */
  lemma {:induction false} EntriesChosen<X>(entries: seq<(nat, X)>, all: seq<X>, results: seq<X>)
    requires EntriesOf(entries, all)
    requires |results| == |entries| && forall i :: 0 <= i < |entries| ==> results[i] == entries[i].1
    ensures multiset(results) == Chosen(all, NumbersOf(entries))
  {
    if entries == [] {
      ChosenNone(all, NumbersOf(entries));
    } else {
      var before, last := entries[..|entries| - 1], entries[|entries| - 1];
      EntriesChosen(before, all, results[..|entries| - 1]);
      NumbersMore(before, last);
      ChosenMore(all, NumbersOf(before), last.0);
      assert entries == before + [last] && results == results[..|entries| - 1] + [last.1];
    }
  }

  lemma {:induction false} NumbersMore<X>(entries: seq<(nat, X)>, entry: (nat, X))
    ensures NumbersOf(entries + [entry]) == NumbersOf(entries) + {entry.0}
  {
    var more := entries + [entry];
    forall k | k in NumbersOf(entries) + {entry.0} ensures k in NumbersOf(more) {
      if k == entry.0 {
        assert more[|entries|].0 == k;
      } else {
        var i :| 0 <= i < |entries| && entries[i].0 == k;
        assert more[i].0 == k;
      }
    }
  }

  // ---- what was numbered ---------------------------------------------------------------------------

  /** Every item of every stream has its number, and every number of a stream is that of an item. */
  ghost predicate Placed<X>(streams: seq<seq<X>>, all: seq<X>, origin: seq<Origin>, nums: seq<seq<nat>>) {
    && |origin| == |all| && |nums| == |streams|
    && (forall i :: 0 <= i < |streams| ==> |nums[i]| == |streams[i]|)
    && (forall i, j :: 0 <= i < |streams| && 0 <= j < |streams[i]| ==>
         nums[i][j] < |all| && origin[nums[i][j]] == FromStream(i, j) && all[nums[i][j]] == streams[i][j])
    && (forall k :: 0 <= k < |all| && origin[k].FromStream? ==>
         origin[k].stream < |streams| && origin[k].index < |streams[origin[k].stream]|
         && nums[origin[k].stream][origin[k].index] == k)
  }

  /** The numbers of the first streams, and of the first items of the one after them. */
  ghost function NumbersBefore(origin: seq<Origin>, i: nat, j: nat): set<nat> {
    set k: nat | k < |origin| && ComesBefore(origin[k], i, j)
  }

  predicate ComesBefore(origin: Origin, i: nat, j: nat) {
    origin.FromStream? && (origin.stream < i || (origin.stream == i && origin.index < j))
  }

  lemma {:induction false} StreamsChosen<X>(streams: seq<seq<X>>, all: seq<X>, origin: seq<Origin>, nums: seq<seq<nat>>,
                                            i: nat)
    requires Placed(streams, all, origin, nums) && i <= |streams|
    ensures Chosen(all, NumbersBefore(origin, i, 0)) == multiset(Flatten(streams[..i]))
    decreases i, 0, 0
  {
    if i == 0 {
      ChosenNone(all, NumbersBefore(origin, i, 0));
    } else {
      StreamChosen(streams, all, origin, nums, i - 1, |streams[i - 1]|);
      ChosenSame(all, NumbersBefore(origin, i, 0), NumbersBefore(origin, i - 1, |streams[i - 1]|));
      FlattenTake(streams, i);
    }
  }

  lemma {:induction false} FlattenTake<X>(runs: seq<seq<X>>, i: nat)
    requires 0 < i <= |runs|
    ensures multiset(Flatten(runs[..i])) == multiset(Flatten(runs[..i - 1])) + multiset(runs[i - 1][..|runs[i - 1]|])
  {
    assert runs[..i] == runs[..i - 1] + [runs[i - 1]];
    FlattenAppend(runs[..i - 1], runs[i - 1]);
    assert runs[i - 1][..|runs[i - 1]|] == runs[i - 1];
  }

  lemma {:induction false} TakeMore<X>(run: seq<X>, j: nat)
    requires 0 < j <= |run|
    ensures multiset(run[..j]) == multiset(run[..j - 1]) + multiset{run[j - 1]}
  {
    assert run[..j] == run[..j - 1] + [run[j - 1]];
  }

  lemma {:induction false} StreamChosen<X>(streams: seq<seq<X>>, all: seq<X>, origin: seq<Origin>, nums: seq<seq<nat>>,
                                           i: nat, j: nat)
    requires Placed(streams, all, origin, nums) && i < |streams| && j <= |streams[i]|
    ensures Chosen(all, NumbersBefore(origin, i, j)) == multiset(Flatten(streams[..i])) + multiset(streams[i][..j])
    decreases i, 1, j
  {
    if j == 0 {
      StreamsChosen(streams, all, origin, nums, i);
    } else {
      StreamChosen(streams, all, origin, nums, i, j - 1);
      OneMoreBefore(streams, all, origin, nums, i, j);
      ChosenMore(all, NumbersBefore(origin, i, j - 1), nums[i][j - 1]);
      TakeMore(streams[i], j);
    }
  }

  lemma {:induction false} OneMoreBefore<X>(streams: seq<seq<X>>, all: seq<X>, origin: seq<Origin>, nums: seq<seq<nat>>,
                                            i: nat, j: nat)
    requires Placed(streams, all, origin, nums) && i < |streams| && 0 < j <= |streams[i]|
    ensures nums[i][j - 1] !in NumbersBefore(origin, i, j - 1)
    ensures NumbersBefore(origin, i, j) == NumbersBefore(origin, i, j - 1) + {nums[i][j - 1]}
  {
    var k := nums[i][j - 1];
    assert origin[k] == FromStream(i, j - 1);
    forall l: nat | l < |origin|
      ensures ComesBefore(origin[l], i, j) <==> ComesBefore(origin[l], i, j - 1) || l == k
    {
    }
  }

  lemma {:induction false} ItemsChosen<X>(streams: seq<seq<X>>, all: seq<X>, origin: seq<Origin>, nums: seq<seq<nat>>)
    requires Placed(streams, all, origin, nums)
    ensures Chosen(all, NumbersBefore(origin, |streams|, 0)) == multiset(Flatten(streams))
  {
    StreamsChosen(streams, all, origin, nums, |streams|);
    assert streams[..|streams|] == streams;
  }

  /** With the `finish` item, if there is one, that is everything. */
  lemma {:induction false} AllChosen<X>(streams: seq<seq<X>>, all: seq<X>, origin: seq<Origin>, nums: seq<seq<nat>>)
    requires Placed(streams, all, origin, nums) && forall k :: 0 <= k < |all| ==> origin[k].FromStream?
    ensures multiset(all) == multiset(Flatten(streams))
  {
    ItemsChosen(streams, all, origin, nums);
    ChosenAll(all, NumbersBefore(origin, |streams|, 0));
  }

  lemma {:induction false} AllButOneChosen<X>(streams: seq<seq<X>>, all: seq<X>, origin: seq<Origin>,
                                              nums: seq<seq<nat>>, k: nat)
    requires Placed(streams, all, origin, nums) && k < |all| && !origin[k].FromStream?
    requires forall l :: 0 <= l < |all| && l != k ==> origin[l].FromStream?
    ensures multiset(all) == multiset(Flatten(streams)) + multiset{all[k]}
  {
    ItemsChosen(streams, all, origin, nums);
    AndTheLast(all, NumbersBefore(origin, |streams|, 0), k);
  }

  lemma {:induction false} AndTheLast<X>(all: seq<X>, others: set<nat>, k: nat)
    requires k < |all| && k !in others && forall l :: 0 <= l < |all| && l != k ==> l in others
    ensures multiset(all) == Chosen(all, others) + multiset{all[k]}
  {
    ChosenMore(all, others, k);
    ChosenAll(all, others + {k});
  }

  // ---- the pool ------------------------------------------------------------------------------------

  /** Nothing ends the input: no stream item does, and what gives the streams and the helper do not panic. */
  ghost predicate NothingEnds<T>(c: Config<T>) {
    c.helper == None && c.tail.Last? && NoneEnds(c.ends, Flatten(c.streams))
  }

  lemma {:induction false} InFlatten<X>(runs: seq<seq<X>>, i: nat, j: nat)
    requires i < |runs| && j < |runs[i]|
    ensures runs[i][j] in Flatten(runs)
  {
    FlattenSlice(runs, runs[..i], runs[i]);
    var at := |Flatten(runs[..i])|;
    assert Flatten(runs)[at..at + |runs[i]|][j] == runs[i][j];
  }

  lemma IsNotStopped<T, R>(c: Options<T, R>, s: Pool<T, R>)
    requires PoolInv(c, s) && NothingEnds(c.take)
    ensures !s.input.stopped
  {
    if s.input.stopped {
      var log, origin, last := s.input.log, s.input.origin, |s.input.log| - 1;
      assert OriginOk(c.take, s.input.nums, s.input.finished, last, log[last], origin[last]);
      InFlatten(c.take.streams, origin[last].stream, origin[last].index);
      assert false;
    }
  }

  /** The streams' results. */
  function MappedAll<T, R>(f: T -> R, streams: seq<seq<T>>): (results: seq<seq<R>>)
    ensures |results| == |streams| && forall i :: 0 <= i < |streams| ==> results[i] == Mapped(f, streams[i])
  {
    seq(|streams|, i requires 0 <= i < |streams| => Mapped(f, streams[i]))
  }

  lemma {:induction false} MappedFlatten<T, R>(f: T -> R, streams: seq<seq<T>>)
    ensures Flatten(MappedAll(f, streams)) == Mapped(f, Flatten(streams))
  {
    if streams != [] {
      var before, last := streams[..|streams| - 1], streams[|streams| - 1];
      MappedFlatten(f, before);
      assert MappedAll(f, streams)[..|streams| - 1] == MappedAll(f, before);
      MappedConcat(f, Flatten(before), last);
    }
  }

  lemma InputPlaced<T, R>(c: Options<T, R>, s: Pool<T, R>)
    requires PoolInv(c, s) && !s.input.stopped && s.input.open == [] && s.input.started == |c.take.streams|
    ensures Placed(MappedAll(c.f, c.take.streams), Mapped(c.f, s.input.log), s.input.origin, s.input.nums)
  {
    var log, origin, nums := s.input.log, s.input.origin, s.input.nums;
    forall i | 0 <= i < |c.take.streams| ensures |nums[i]| == |c.take.streams[i]| {
      assert StreamAt(c.take, s.input, i);
    }
    forall k | 0 <= k < |log| ensures OriginOk(c.take, nums, s.input.finished, k, log[k], origin[k]) {
    }
    forall i, j | 0 <= i < |c.take.streams| && 0 <= j < |c.take.streams[i]|
      ensures nums[i][j] < |log| && origin[nums[i][j]] == FromStream(i, j) && log[nums[i][j]] == c.take.streams[i][j]
    {
      var k := nums[i][j];
      assert OriginOk(c.take, nums, s.input.finished, k, log[k], origin[k]);
    }
  }

  /** What was numbered is the input, in some order. */
  lemma LogIsInput<T, R>(c: Options<T, R>, s: Pool<T, R>)
    requires PoolInv(c, s) && NothingEnds(c.take) && !s.input.stopped
    requires s.input.finished && s.input.open == [] && s.input.started == |c.take.streams|
    ensures multiset(Mapped(c.f, s.input.log))
            == multiset(Mapped(c.f, Flatten(c.take.streams) + TailItems(c.take.tail)))
  {
    var streams, log, origin := c.take.streams, s.input.log, s.input.origin;
    var all := Mapped(c.f, log);
    InputPlaced(c, s);
    MappedFlatten(c.f, streams);
    MappedConcat(c.f, Flatten(streams), TailItems(c.take.tail));
    forall k | 0 <= k < |log|
      ensures origin[k].FromStream? || (origin[k].FromFinish? && c.take.tail.item == Some(log[k]))
    {
      assert OriginOk(c.take, s.input.nums, s.input.finished, k, log[k], origin[k]);
      assert !Stops(c.take, log[k], origin[k]);
    }
    match c.take.tail.item
    case None =>
      AllChosen(MappedAll(c.f, streams), all, origin, s.input.nums);
    case Some(item) =>
      var k :| 0 <= k < |log| && origin[k] == FromFinish;
      AllButOneChosen(MappedAll(c.f, streams), all, origin, s.input.nums, k);
      assert Mapped(c.f, TailItems(c.take.tail)) == [all[k]];
  }

  /** At the end, what was returned is what was numbered, in some order. */
  lemma ReturnedIsLog<T, R>(c: Options<T, R>, s: Pool<T, R>)
    requires PoolInv(c, s) && s.consumer.Finished?
    ensures multiset(Returned(s)) == multiset(Mapped(c.f, s.input.log))
  {
    var all := Mapped(c.f, s.input.log);
    EntriesChosen(s.handed, all, Returned(s));
    forall k | 0 <= k < |all| ensures k in NumbersOf(s.handed) {
      FinishedHandsAll(c, s, k);
    }
    ChosenAll(all, NumbersOf(s.handed));
  }

  /**
   * In any order: if no item of a stream ends the input and neither the helper nor
   * what gives the streams panics, a run that can't go on has returned the result of
   * every item and of the `finish` item, each exactly once, and nothing else (or was
   * dropped).
   */
  lemma {:induction false} RunsAreComplete<T, R>(c: Options<T, R>, acts: seq<Action>)
    requires c.Valid() && NothingEnds(c.take)
    requires After(c, acts).Some? && AtRest(c, After(c, acts).value)
    ensures var s := After(c, acts).value;
            || s.consumer.Closed?
            || multiset(Returned(s)) == multiset(Mapped(c.f, Sequence(c.take.ends, c.take.streams, c.take.tail)))
  {
    var s := After(c, acts).value;
    Reached(c, acts);
    AtRestMeansEnded(c, s);
    if !s.consumer.Closed? {
      IsNotStopped(c, s);
      FinishedInput(c, s);
      LogIsInput(c, s);
      ReturnedIsLog(c, s);
      CutAfter(c.take.ends, Flatten(c.take.streams), [], TailItems(c.take.tail));
      assert Flatten(c.take.streams) + [] == Flatten(c.take.streams);
    }
  }
}

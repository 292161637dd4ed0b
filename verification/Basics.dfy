/** Shared vocabulary: options, flattening, and totals over the workers. */
module Basics {

  datatype Option<+T> = None | Some(value: T)

  function Max(a: int, b: int): int {
    if a < b then b else a
  }

  function Min(a: int, b: int): int {
    if a < b then a else b
  }

  /** The runs one after another. */
  function Flatten<T>(runs: seq<seq<T>>): seq<T> {
    if runs == [] then [] else Flatten(runs[..|runs| - 1]) + runs[|runs| - 1]
  }

  lemma FlattenAppend<T>(runs: seq<seq<T>>, run: seq<T>)
    ensures Flatten(runs + [run]) == Flatten(runs) + run
  {
    assert (runs + [run])[..|runs + [run]| - 1] == runs;
  }

  lemma {:induction false} FlattenConcat<T>(a: seq<seq<T>>, b: seq<seq<T>>)
    ensures Flatten(a + b) == Flatten(a) + Flatten(b)
    decreases |b|
  {
    if b == [] {
      assert a + b == a;
    } else {
      FlattenConcat(a, b[..|b| - 1]);
      assert (a + b)[..|a + b| - 1] == a + b[..|b| - 1];
      Assoc(Flatten(a), Flatten(b[..|b| - 1]), b[|b| - 1]);
    }
  }

  lemma Assoc<T>(a: seq<T>, b: seq<T>, c: seq<T>)
    ensures a + b + c == a + (b + c)
  {
  }

  /** A slice within the first of two parts. */
  lemma SliceBefore<T>(all: seq<T>, a: seq<T>, b: seq<T>, low: int, high: int)
    requires all == a + b && 0 <= low <= high <= |a|
    ensures all[low..high] == a[low..high]
  {
  }

  /** A slice within the second of two parts. */
  lemma SliceAfter<T>(all: seq<T>, a: seq<T>, b: seq<T>, low: int, high: int)
    requires all == a + b && 0 <= low <= high <= |b|
    ensures all[|a| + low..|a| + high] == b[low..high]
  {
  }

  lemma SliceWhole<T>(all: seq<T>, a: seq<T>, b: seq<T>, low: int, high: int)
    requires all == a + b && low == |a| && high == |a| + |b|
    ensures 0 <= low <= high <= |all| && all[low..high] == b
  {
  }

  /** Each run stands where the ones before it end. */
  lemma {:induction false} FlattenSlice<T>(runs: seq<seq<T>>, before: seq<seq<T>>, run: seq<T>)
    requires |before| < |runs| && before == runs[..|before|] && run == runs[|before|]
    ensures var at := |Flatten(before)|;
            at + |run| <= |Flatten(runs)| && Flatten(runs)[at..at + |run|] == run
  {
    var first, last := runs[..|runs| - 1], runs[|runs| - 1];
    var at := |Flatten(before)|;
    if |before| == |first| {
      SliceWhole(Flatten(runs), Flatten(before), run, at, at + |run|);
    } else {
      FlattenSlice(first, before, run);
      SliceBefore(Flatten(runs), Flatten(first), last, at, at + |run|);
    }
  }

  /** `f` applied to every item. */
  function Mapped<A, B>(f: A -> B, xs: seq<A>): seq<B> {
    seq(|xs|, i requires 0 <= i < |xs| => f(xs[i]))
  }

  lemma MappedAppend<A, B>(f: A -> B, xs: seq<A>, x: A)
    ensures Mapped(f, xs + [x]) == Mapped(f, xs) + [f(x)]
  {
  }

  lemma MappedConcat<A, B>(f: A -> B, xs: seq<A>, ys: seq<A>)
    ensures Mapped(f, xs + ys) == Mapped(f, xs) + Mapped(f, ys)
  {
  }

  /** The weights of all entries together. */
  ghost function Total<A>(xs: seq<A>, weight: A -> nat): nat {
    if xs == [] then 0 else weight(xs[0]) + Total(xs[1..], weight)
  }

  lemma {:induction false} TotalUpdate<A>(xs: seq<A>, i: nat, x: A, weight: A -> nat)
    requires i < |xs|
    ensures Total(xs[i := x], weight) + weight(xs[i]) == Total(xs, weight) + weight(x)
  {
    if i == 0 {
      assert xs[i := x][1..] == xs[1..];
    } else {
      TotalUpdate(xs[1..], i - 1, x, weight);
      assert xs[i := x][1..] == xs[1..][i - 1 := x];
    }
  }

  lemma {:induction false} TotalAtLeast<A>(xs: seq<A>, i: nat, weight: A -> nat)
    requires i < |xs|
    ensures Total(xs, weight) >= weight(xs[i])
  {
    if i > 0 {
      TotalAtLeast(xs[1..], i - 1, weight);
    }
  }

  lemma {:induction false} TotalZero<A>(xs: seq<A>, weight: A -> nat)
    requires forall i :: 0 <= i < |xs| ==> weight(xs[i]) == 0
    ensures Total(xs, weight) == 0
  {
    if xs != [] {
      TotalZero(xs[1..], weight);
    }
  }

  lemma {:induction false} TotalSame<A>(xs: seq<A>, ys: seq<A>, weight: A -> nat)
    requires |xs| == |ys| && forall i :: 0 <= i < |xs| ==> weight(xs[i]) == weight(ys[i])
    ensures Total(xs, weight) == Total(ys, weight)
  {
    if xs != [] {
      TotalSame(xs[1..], ys[1..], weight);
    }
  }

  lemma {:induction false} TotalAtMost<A>(xs: seq<A>, bound: nat, weight: A -> nat)
    requires forall i :: 0 <= i < |xs| ==> weight(xs[i]) <= bound
    ensures Total(xs, weight) <= |xs| * bound
  {
    if xs != [] {
      TotalAtMost(xs[1..], bound, weight);
    }
  }
}

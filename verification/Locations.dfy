/**
 * Where rows are in the stream (crates/xeibe-core/src/chunk.rs:22-59,
 * crates/xeibe-arrow/src/pipeline.rs:446-540): the map from a chunk's bytes to the
 * stream they were cut from, and the location column of a chunk's batches.
 */
module Locations {
  import opened Basics

  /** Where a feature starts, in the chunk's bytes and in the stream. */
  datatype FeatureOffset = FeatureOffset(inChunk: nat, inStream: nat)

  /** A feature's bytes in the stream. */
  datatype Slice = Slice(start: nat, end: nat)

  /** The first offset from `i` on that begins after the position. */
  function PointFrom(offsets: seq<FeatureOffset>, position: nat, i: nat): (n: nat)
    requires i <= |offsets| && (i > 0 ==> offsets[i - 1].inChunk <= position)
    ensures i <= n <= |offsets| && (n > 0 ==> offsets[n - 1].inChunk <= position)
    ensures n < |offsets| ==> offsets[n].inChunk > position
    decreases |offsets| - i
  {
    if i == |offsets| || offsets[i].inChunk > position then i else PointFrom(offsets, position, i + 1)
  }

  /** How many offsets begin at the position or before it (`partition_point` of a sorted list). */
  function PartitionPoint(offsets: seq<FeatureOffset>, position: nat): (n: nat)
    ensures n <= |offsets| && (n > 0 ==> offsets[n - 1].inChunk <= position)
    ensures n < |offsets| ==> offsets[n].inChunk > position
  {
    PointFrom(offsets, position, 0)
  }

  /** In a sorted list these are all of them, and no other. */
  lemma {:induction false} PartitionsSorted(offsets: seq<FeatureOffset>, position: nat, i: nat)
    requires forall j, k :: 0 <= j < k < |offsets| ==> offsets[j].inChunk <= offsets[k].inChunk
    requires i < |offsets|
    ensures i < PartitionPoint(offsets, position) <==> offsets[i].inChunk <= position
  {
    var n := PartitionPoint(offsets, position);
    assert i < n - 1 ==> offsets[i].inChunk <= offsets[n - 1].inChunk;
    assert n < i ==> offsets[n].inChunk <= offsets[i].inChunk;
  }

  /** `stream_offset`. */
  function StreamOffset(offsets: seq<FeatureOffset>, base: nat, position: nat): nat {
    var i := PartitionPoint(offsets, position);
    if i == 0 then base + position
    else offsets[i - 1].inStream + (position - offsets[i - 1].inChunk)
  }

  // ---- a chunk cut from a stream ----------------------------------------------------------------

  /** Slices of the stream, in order and none of them empty. */
  ghost predicate InOrder(slices: seq<Slice>, n: nat) {
    && (forall i :: 0 <= i < |slices| ==> slices[i].start < slices[i].end <= n)
    && (forall i, j :: 0 <= i < j < |slices| ==> slices[i].end <= slices[j].start)
  }

  /** The length of the slices together. */
  function Length(slices: seq<Slice>): nat
    requires forall i :: 0 <= i < |slices| ==> slices[i].start <= slices[i].end
  {
    if slices == [] then 0
    else Length(slices[..|slices| - 1]) + (slices[|slices| - 1].end - slices[|slices| - 1].start)
  }

  function Bytes<B>(stream: seq<B>, slices: seq<Slice>): (bytes: seq<B>)
    requires forall i :: 0 <= i < |slices| ==> slices[i].start <= slices[i].end <= |stream|
    ensures |bytes| == Length(slices)
  {
    if slices == [] then []
    else
      var last := slices[|slices| - 1];
      Bytes(stream, slices[..|slices| - 1]) + stream[last.start..last.end]
  }

  function Offsets(slices: seq<Slice>): (offsets: seq<FeatureOffset>)
    requires forall i :: 0 <= i < |slices| ==> slices[i].start <= slices[i].end
    ensures |offsets| == |slices|
  {
    if slices == [] then []
    else
      Offsets(slices[..|slices| - 1])
      + [FeatureOffset(Length(slices[..|slices| - 1]), slices[|slices| - 1].start)]
  }

  lemma {:induction false} OffsetAt(slices: seq<Slice>, i: nat)
    requires (forall k :: 0 <= k < |slices| ==> slices[k].start <= slices[k].end) && i < |slices|
    ensures Offsets(slices)[i] == FeatureOffset(Length(slices[..i]), slices[i].start)
  {
    var before := slices[..|slices| - 1];
    if i < |before| {
      OffsetAt(before, i);
      assert before[..i] == slices[..i];
    }
  }

  lemma LengthNext(slices: seq<Slice>, i: nat)
    requires (forall k :: 0 <= k < |slices| ==> slices[k].start <= slices[k].end) && i < |slices|
    ensures Length(slices[..i + 1]) == Length(slices[..i]) + (slices[i].end - slices[i].start)
  {
    assert slices[..i + 1][..i] == slices[..i];
  }

  lemma {:induction false} LengthGrows(slices: seq<Slice>, i: nat, j: nat)
    requires (forall k :: 0 <= k < |slices| ==> slices[k].start < slices[k].end) && i <= j <= |slices|
    ensures Length(slices[..i]) + (j - i) <= Length(slices[..j])
    decreases j
  {
    if i < j {
      LengthGrows(slices, i, j - 1);
      LengthNext(slices, j - 1);
    }
  }

  lemma {:induction false} PointIs(offsets: seq<FeatureOffset>, position: nat, i: nat, n: nat)
    requires i <= n <= |offsets|
    requires forall k :: 0 <= k < n ==> offsets[k].inChunk <= position
    requires n < |offsets| ==> offsets[n].inChunk > position
    ensures PointFrom(offsets, position, i) == n
    decreases n - i
  {
    if i < n {
      PointIs(offsets, position, i + 1, n);
    }
  }

  /** The slice that a position falls in; the end of the chunk is the last one's. */
  ghost predicate FallsIn(slices: seq<Slice>, position: nat, i: nat)
    requires forall k :: 0 <= k < |slices| ==> slices[k].start <= slices[k].end
  {
    && i < |slices| && Length(slices[..i]) <= position <= Length(slices)
    && (position < Length(slices[..i + 1]) || i == |slices| - 1)
  }

  lemma {:induction false} FallsInOne(slices: seq<Slice>, n: nat, position: nat) returns (i: nat)
    requires InOrder(slices, n) && slices != [] && position <= Length(slices)
    ensures FallsIn(slices, position, i)
  {
    i := |slices| - 1;
    assert slices[..|slices|] == slices;
    while Length(slices[..i]) > position
      invariant i < |slices| && (position < Length(slices[..i + 1]) || i == |slices| - 1)
      decreases i
    {
      i := i - 1;
    }
  }

  /** Within a slice, positions go on as in the stream. */
  lemma {:induction false} OffsetIs(slices: seq<Slice>, n: nat, base: nat, position: nat, i: nat)
    requires InOrder(slices, n) && FallsIn(slices, position, i)
    ensures StreamOffset(Offsets(slices), base, position) == slices[i].start + (position - Length(slices[..i]))
  {
    var offsets := Offsets(slices);
    forall k | 0 <= k <= i ensures offsets[k].inChunk <= position {
      OffsetAt(slices, k);
      LengthGrows(slices, k, i);
    }
    if i + 1 < |slices| {
      OffsetAt(slices, i + 1);
    }
    PointIs(offsets, position, 0, i + 1);
    OffsetAt(slices, i);
  }

  lemma {:induction false} BytesPrefix<B>(stream: seq<B>, slices: seq<Slice>, i: nat)
    requires (forall k :: 0 <= k < |slices| ==> slices[k].start <= slices[k].end <= |stream|) && i <= |slices|
    ensures Length(slices[..i]) <= Length(slices)
    ensures Bytes(stream, slices)[..Length(slices[..i])] == Bytes(stream, slices[..i])
  {
    if i == |slices| {
      assert slices[..i] == slices;
    } else {
      var before, last := slices[..|slices| - 1], slices[|slices| - 1];
      BytesPrefix(stream, before, i);
      assert before[..i] == slices[..i];
      Prefix(Bytes(stream, before), stream[last.start..last.end], Length(slices[..i]));
    }
  }

  lemma Prefix<B>(a: seq<B>, b: seq<B>, high: nat)
    requires high <= |a|
    ensures (a + b)[..high] == a[..high]
  {
  }

  lemma {:induction false} BytesNext<B>(stream: seq<B>, slices: seq<Slice>, i: nat)
    requires (forall k :: 0 <= k < |slices| ==> slices[k].start <= slices[k].end <= |stream|) && i < |slices|
    ensures Bytes(stream, slices[..i + 1]) == Bytes(stream, slices[..i]) + stream[slices[i].start..slices[i].end]
  {
    var upTo := slices[..i + 1];
    assert upTo[..|upTo| - 1] == slices[..i] && upTo[|upTo| - 1] == slices[i];
  }

  /** A slice's bytes in the chunk. */
  lemma {:induction false} BytesAt<B>(stream: seq<B>, slices: seq<Slice>, i: nat)
    requires InOrder(slices, |stream|) && i < |slices|
    ensures Length(slices[..i]) <= Length(slices[..i + 1]) <= Length(slices)
    ensures Bytes(stream, slices)[Length(slices[..i])..Length(slices[..i + 1])]
            == stream[slices[i].start..slices[i].end]
  {
    LengthNext(slices, i);
    BytesPrefix(stream, slices, i + 1);
    BytesNext(stream, slices, i);
    MiddleAt(Bytes(stream, slices), Bytes(stream, slices[..i]), stream[slices[i].start..slices[i].end],
             Length(slices[..i]), Length(slices[..i + 1]));
  }

  lemma MiddleAt<B>(all: seq<B>, a: seq<B>, b: seq<B>, low: nat, high: nat)
    requires low == |a| && high == low + |b| <= |all| && all[..high] == a + b
    ensures all[low..high] == b
  {
    Middle(all, a, b);
  }

  lemma Middle<B>(all: seq<B>, a: seq<B>, b: seq<B>)
    requires |a| + |b| <= |all| && all[..|a| + |b|] == a + b
    ensures all[|a|..|a| + |b|] == b
  {
    assert all[|a|..|a| + |b|] == all[..|a| + |b|][|a|..];
  }

  lemma SameAt<B>(a: seq<B>, low: nat, high: nat, b: seq<B>, start: nat, end: nat, at: nat)
    requires low <= high <= |a| && start <= end <= |b| && a[low..high] == b[start..end] && at < high - low
    ensures a[low + at] == b[start + at]
  {
    assert a[low..high][at] == b[start..end][at];
  }

  lemma {:induction false} ByteWithin<B>(stream: seq<B>, slices: seq<Slice>, position: nat, i: nat, offset: int)
    requires InOrder(slices, |stream|) && FallsIn(slices, position, i) && position < Length(slices)
    requires i + 1 == |slices| ==> position < Length(slices[..i + 1])
    requires offset == slices[i].start + (position - Length(slices[..i]))
    ensures offset < |stream| && stream[offset] == Bytes(stream, slices)[position]
  {
    BytesAt(stream, slices, i);
    LengthNext(slices, i);
    SameAt(Bytes(stream, slices), Length(slices[..i]), Length(slices[..i + 1]), stream, slices[i].start, slices[i].end,
           position - Length(slices[..i]));
  }

  /** The stream's byte at a position's offset is the chunk's byte there. */
  lemma {:induction false} ByteIsThere<B>(stream: seq<B>, slices: seq<Slice>, base: nat, position: nat)
    requires InOrder(slices, |stream|) && position < Length(slices)
    ensures StreamOffset(Offsets(slices), base, position) < |stream|
    ensures stream[StreamOffset(Offsets(slices), base, position)] == Bytes(stream, slices)[position]
  {
    assert slices != [];
    var i := FallsInOne(slices, |stream|, position);
    assert slices[..|slices|] == slices;
    OffsetIs(slices, |stream|, base, position, i);
    ByteWithin(stream, slices, position, i, StreamOffset(Offsets(slices), base, position));
  }

  /** Later positions are later in the stream. */
  lemma {:induction false} OffsetsGrow(slices: seq<Slice>, n: nat, base: nat, p: nat, q: nat)
    requires InOrder(slices, n) && slices != [] && p < q <= Length(slices)
    ensures StreamOffset(Offsets(slices), base, p) < StreamOffset(Offsets(slices), base, q)
  {
    var i := FallsInOne(slices, n, p);
    var j := FallsInOne(slices, n, q);
    assert slices[..|slices|] == slices;
    OffsetIs(slices, n, base, p, i);
    OffsetIs(slices, n, base, q, j);
    if i < j {
      LengthNext(slices, i);
    } else if j < i {
      LengthGrows(slices, j + 1, i);
    }
  }

  /** Without offsets, the chunk is the stream from its base. */
  lemma WithoutOffsets<B>(stream: seq<B>, base: nat, length: nat, position: nat)
    requires base + length <= |stream| && position < length
    ensures StreamOffset([], base, position) == base + position
    ensures stream[base..base + length][position] == stream[base + position]
  {
  }

  // ---- the rows of a chunk --------------------------------------------------------------------------

  /** What became of a feature: not of this layer, a row, skipped, or an error that ends the chunk. */
  datatype Outcome<+R> = Rejected | Row(row: R) | Skipped | Failed

  /** A feature as the reader meets it: where it begins and ends in the chunk's bytes. */
  datatype Feature<+R> = Feature(start: nat, end: nat, outcome: Outcome<R>)

  datatype Batch<+R> = Batch(rows: seq<R>, starts: seq<nat>, ends: seq<nat>)

  /** The location column of the batch being built. */
  class Column {
    var starts: seq<nat>
    var ends: seq<nat>

    constructor ()
      ensures starts == [] && ends == []
    {
      starts, ends := [], [];
    }

    /** `push`. */
    method Push(start: nat, end: nat)
      modifies this
      ensures starts == old(starts) + [start] && ends == old(ends) + [end]
    {
      starts, ends := starts + [start], ends + [end];
    }

    /** `finish`: the locations so far; the column starts over. */
    method Finish() returns (from: seq<nat>, to: seq<nat>)
      modifies this
      ensures from == old(starts) && to == old(ends) && starts == [] && ends == []
    {
      from, to := starts, ends;
      starts, ends := [], [];
    }
  }

  /** A row and where it is in the stream. */
  datatype Located<+R> = Located(row: R, start: nat, end: int)

  /** A feature's row, with the feature's own bytes in the stream. */
  function RowOf<R>(feature: Feature<R>, offsets: seq<FeatureOffset>, base: nat): seq<Located<R>> {
    match feature.outcome
    case Row(row) =>
      var start := StreamOffset(offsets, base, feature.start);
      [Located(row, start, start + (feature.end - feature.start))]
    case _ => []
  }

  /** The rows of the first features. */
  function RowsOf<R>(features: seq<Feature<R>>, offsets: seq<FeatureOffset>, base: nat, n: nat): seq<Located<R>>
    requires n <= |features|
  {
    if n == 0 then [] else RowsOf(features, offsets, base, n - 1) + RowOf(features[n - 1], offsets, base)
  }

  /** One location a row. */
  predicate Aligned<R>(batch: Batch<R>) {
    |batch.rows| == |batch.starts| == |batch.ends|
  }

  function Zip<R>(batch: Batch<R>): seq<Located<R>> {
    if !Aligned(batch) then []
    else
      seq(|batch.rows|, i requires 0 <= i < |batch.rows| => Located(batch.rows[i], batch.starts[i], batch.ends[i]))
  }

  function AllRows<R>(batches: seq<Batch<R>>): seq<Located<R>> {
    if batches == [] then [] else AllRows(batches[..|batches| - 1]) + Zip(batches[|batches| - 1])
  }

  lemma AllRowsAppend<R>(batches: seq<Batch<R>>, batch: Batch<R>)
    ensures AllRows(batches + [batch]) == AllRows(batches) + Zip(batch)
  {
    assert (batches + [batch])[..|batches|] == batches;
  }

  lemma ZipNothing<R>()
    ensures Zip(Batch<R>.Batch([], [], [])) == []
  {
  }

  lemma ZipAppend<R>(batch: Batch<R>, row: R, start: nat, end: nat)
    requires Aligned(batch)
    ensures Zip(Batch(batch.rows + [row], batch.starts + [start], batch.ends + [end]))
            == Zip(batch) + [Located(row, start, end)]
  {
  }

  /** A batch that is full, or the last one with at least a row. */
  ghost predicate Sized<R>(batch: Batch<R>, size: nat, last: bool) {
    if last then 0 < |batch.rows| <= size else |batch.rows| == size
  }

  ghost predicate Full<R>(batches: seq<Batch<R>>, size: nat) {
    batches != [] ==>
      var last := batches[|batches| - 1];
      Aligned(last) && |last.rows| == size && Full(batches[..|batches| - 1], size)
  }

  lemma {:induction false} FullAt<R>(batches: seq<Batch<R>>, size: nat, b: nat)
    requires Full(batches, size) && b < |batches|
    ensures Aligned(batches[b]) && |batches[b].rows| == size
  {
    if b < |batches| - 1 {
      FullAt(batches[..|batches| - 1], size, b);
    }
  }

  /** The batches so far and the one being built hold the rows of the features so far. */
  ghost predicate Holds<R>(done: seq<Batch<R>>, building: Batch<R>, size: nat, rows: seq<Located<R>>) {
    && Aligned(building)
    && Full(done, size)
    && AllRows(done) + Zip(building) == rows
  }

  lemma RowAdded<R>(done: seq<Batch<R>>, building: Batch<R>, size: nat, rows: seq<Located<R>>, row: R, start: nat,
                    end: nat)
    requires Holds(done, building, size, rows)
    ensures Holds(done, Batch(building.rows + [row], building.starts + [start], building.ends + [end]), size,
                  rows + [Located(row, start, end)])
  {
    ZipAppend(building, row, start, end);
    Assoc(AllRows(done), Zip(building), [Located(row, start, end)]);
  }

  lemma BatchDone<R>(done: seq<Batch<R>>, building: Batch<R>, size: nat, rows: seq<Located<R>>)
    requires Holds(done, building, size, rows)
    ensures AllRows(done + [building]) == rows
    ensures |building.rows| == size ==> Holds(done + [building], Batch([], [], []), size, rows)
  {
    AllRowsAppend(done, building);
    ZipNothing<R>();
    assert rows + [] == rows;
    assert (done + [building])[..|done|] == done;
  }

  /**
   * `process_chunk`, with the location column: every row is in some batch with the
   * place of its own feature, through features skipped and batches filled.
   */
  method ProcessChunk<R>(features: seq<Feature<R>>, offsets: seq<FeatureOffset>, base: nat, batchSize: nat)
    returns (batches: Option<seq<Batch<R>>>)
    requires batchSize > 0 && Placed(features)
    ensures batches.None? <==> AnyFailed(features)
    ensures batches.Some? ==>
              && (forall b :: 0 <= b < |batches.value| ==> Aligned(batches.value[b]))
              && (forall b :: 0 <= b < |batches.value| ==> Sized(batches.value[b], batchSize, b == |batches.value| - 1))
              && AllRows(batches.value) == RowsOf(features, offsets, base, |features|)
  {
    var column := new Column();
    var failed, rows, done := ReadFeatures(features, offsets, base, batchSize, column);
    NoneFailedIs(features);
    if failed {
      return None;
    }
    done := LastBatch(batchSize, column, rows, done, RowsOf(features, offsets, base, |features|));
    return Some(done);
  }

  ghost predicate Placed<R>(features: seq<Feature<R>>) {
    forall k :: 0 <= k < |features| ==> features[k].start <= features[k].end
  }

  ghost predicate AnyFailed<R>(features: seq<Feature<R>>) {
    exists k :: 0 <= k < |features| && features[k].outcome.Failed?
  }

  predicate NoneFailed<R>(features: seq<Feature<R>>, n: nat)
    requires n <= |features|
  {
    n > 0 ==> !features[n - 1].outcome.Failed? && NoneFailed(features, n - 1)
  }

  lemma {:induction false} FailedFrom<R>(features: seq<Feature<R>>, k: nat, n: nat)
    requires k <= n <= |features| && !NoneFailed(features, k)
    ensures !NoneFailed(features, n)
    decreases n
  {
    if k < n {
      FailedFrom(features, k, n - 1);
    }
  }

  lemma {:induction false} NoneFailedIs<R>(features: seq<Feature<R>>)
    ensures NoneFailed(features, |features|) <==> !AnyFailed(features)
  {
    if NoneFailed(features, |features|) {
      forall k | 0 <= k < |features| ensures !features[k].outcome.Failed? {
        NoneFailedAt(features, |features|, k);
      }
    } else {
      SomeFailed(features, |features|);
    }
  }

  lemma {:induction false} SomeFailed<R>(features: seq<Feature<R>>, n: nat)
    requires n <= |features| && !NoneFailed(features, n)
    ensures AnyFailed(features)
  {
    if n > 0 && !features[n - 1].outcome.Failed? {
      SomeFailed(features, n - 1);
    }
  }

  lemma {:induction false} NoneFailedAt<R>(features: seq<Feature<R>>, n: nat, k: nat)
    requires k < n <= |features| && NoneFailed(features, n)
    ensures !features[k].outcome.Failed?
  {
    if k < n - 1 {
      NoneFailedAt(features, n - 1, k);
    }
  }

  /** The event loop over the chunk's features. */
  method ReadFeatures<R>(features: seq<Feature<R>>, offsets: seq<FeatureOffset>, base: nat, batchSize: nat,
                         column: Column)
    returns (failed: bool, rows: seq<R>, done: seq<Batch<R>>)
    requires batchSize > 0 && Placed(features) && column.starts == [] && column.ends == []
    modifies column
    ensures failed <==> !NoneFailed(features, |features|)
    ensures !failed ==>
              |rows| < batchSize
              && Holds(done, Batch(rows, column.starts, column.ends), batchSize,
                       RowsOf(features, offsets, base, |features|))
  {
    failed, rows, done := false, [], [];
    ZipNothing<R>();
    for k := 0 to |features|
      invariant |rows| < batchSize && NoneFailed(features, k)
      invariant Holds(done, Batch(rows, column.starts, column.ends), batchSize, RowsOf(features, offsets, base, k))
    {
      if features[k].outcome.Failed? {
        FailedFrom(features, k + 1, |features|);
        failed := true;
        return;
      }
      rows, done := AddFeature(features[k], offsets, base, batchSize, column, rows, done,
                               RowsOf(features, offsets, base, k));
    }
  }

  /** The rows left over are the last batch. */
  method LastBatch<R>(batchSize: nat, column: Column, rows: seq<R>, done: seq<Batch<R>>, ghost all: seq<Located<R>>)
    returns (batches: seq<Batch<R>>)
    requires |rows| < batchSize && Holds(done, Batch(rows, column.starts, column.ends), batchSize, all)
    modifies column
    ensures forall b :: 0 <= b < |batches| ==> Aligned(batches[b])
    ensures forall b :: 0 <= b < |batches| ==> Sized(batches[b], batchSize, b == |batches| - 1)
    ensures AllRows(batches) == all
  {
    forall b | 0 <= b < |done| ensures Aligned(done[b]) && |done[b].rows| == batchSize {
      FullAt(done, batchSize, b);
    }
    if rows == [] {
      assert AllRows(done) + [] == AllRows(done);
      return done;
    }
    BatchDone(done, Batch(rows, column.starts, column.ends), batchSize, all);
    var starts, ends := column.Finish();
    return done + [Batch(rows, starts, ends)];
  }

  /** A feature's row and its location, and the batch, if they fill it. */
  method AddRow<R>(row: R, start: nat, end: nat, batchSize: nat, column: Column, rows: seq<R>, done: seq<Batch<R>>,
                   ghost before: seq<Located<R>>)
    returns (rows': seq<R>, done': seq<Batch<R>>)
    requires |rows| < batchSize && Holds(done, Batch(rows, column.starts, column.ends), batchSize, before)
    modifies column
    ensures |rows'| < batchSize
    ensures Holds(done', Batch(rows', column.starts, column.ends), batchSize, before + [Located(row, start, end)])
  {
    RowAdded(done, Batch(rows, column.starts, column.ends), batchSize, before, row, start, end);
    rows', done' := rows + [row], done;
    column.Push(start, end);
    if |rows'| >= batchSize {
      BatchDone(done, Batch(rows', column.starts, column.ends), batchSize, before + [Located(row, start, end)]);
      var starts, ends := column.Finish();
      done' := done + [Batch(rows', starts, ends)];
      rows' := [];
    }
  }

  method AddFeature<R>(feature: Feature<R>, offsets: seq<FeatureOffset>, base: nat, batchSize: nat, column: Column,
                       rows: seq<R>, done: seq<Batch<R>>, ghost before: seq<Located<R>>)
    returns (rows': seq<R>, done': seq<Batch<R>>)
    requires feature.start <= feature.end
    requires |rows| < batchSize && Holds(done, Batch(rows, column.starts, column.ends), batchSize, before)
    modifies column
    ensures |rows'| < batchSize
    ensures Holds(done', Batch(rows', column.starts, column.ends), batchSize, before + RowOf(feature, offsets, base))
  {
    if feature.outcome.Row? {
      var start := StreamOffset(offsets, base, feature.start);
      rows', done' := AddRow(feature.outcome.row, start, start + (feature.end - feature.start), batchSize, column, rows,
                             done, before);
    } else {
      rows', done' := rows, done;
      assert before + [] == before;
    }
  }

  /** The location of a chunk's i-th feature is its slice of the stream, and its bytes are there. */
  lemma LocationIsTheSlice<B>(stream: seq<B>, slices: seq<Slice>, base: nat, i: nat)
    requires InOrder(slices, |stream|) && i < |slices|
    ensures var from, to := Length(slices[..i]), Length(slices[..i + 1]);
            && from < to <= Length(slices)
            && StreamOffset(Offsets(slices), base, from) == slices[i].start
            && StreamOffset(Offsets(slices), base, from) + (to - from) == slices[i].end
            && Bytes(stream, slices)[from..to] == stream[slices[i].start..slices[i].end]
  {
    LengthNext(slices, i);
    assert slices[..|slices|] == slices;
    LengthGrows(slices, i + 1, |slices|);
    OffsetIs(slices, |stream|, base, Length(slices[..i]), i);
    BytesAt(stream, slices, i);
  }

  /**
   * The end cannot be read off the map: where something lies between two features
   * in the stream, the position after the first is the start of the second.
   */
  lemma EndIsTheNextStart(slices: seq<Slice>, n: nat, base: nat, i: nat)
    requires InOrder(slices, n) && i + 1 < |slices|
    ensures StreamOffset(Offsets(slices), base, Length(slices[..i + 1])) == slices[i + 1].start
  {
    assert slices[..|slices|] == slices;
    LengthNext(slices, i + 1);
    LengthGrows(slices, i + 1, |slices|);
    OffsetIs(slices, n, base, Length(slices[..i + 1]), i + 1);
  }

  // ---- the rows of a chunk cut from a stream --------------------------------------------------------

  /** The features are the chunk's slices, one after another. */
  ghost predicate CutFrom<R>(features: seq<Feature<R>>, slices: seq<Slice>, n: nat) {
    && InOrder(slices, n) && |features| == |slices|
    && forall i :: 0 <= i < |features| ==>
         features[i].start == Length(slices[..i]) && features[i].end == Length(slices[..i + 1])
  }

  /** The rows of the first features, each with its slice of the stream. */
  ghost function SliceRows<R>(features: seq<Feature<R>>, slices: seq<Slice>, n: nat): seq<Located<R>>
    requires n <= |features| == |slices|
  {
    if n == 0 then []
    else
      SliceRows(features, slices, n - 1)
      + if features[n - 1].outcome.Row?
        then [Located(features[n - 1].outcome.row, slices[n - 1].start, slices[n - 1].end)] else []
  }

  lemma {:induction false} RowIsSlice<B, R>(stream: seq<B>, features: seq<Feature<R>>, slices: seq<Slice>, base: nat,
                                            i: nat)
    requires CutFrom(features, slices, |stream|) && i < |features|
    ensures RowOf(features[i], Offsets(slices), base)
            == if features[i].outcome.Row? then [Located(features[i].outcome.row, slices[i].start, slices[i].end)]
               else []
  {
    LocationIsTheSlice(stream, slices, base, i);
  }

  lemma {:induction false} RowsAreSlices<B, R>(stream: seq<B>, features: seq<Feature<R>>, slices: seq<Slice>, base: nat,
                                               n: nat)
    requires CutFrom(features, slices, |stream|) && n <= |features|
    ensures RowsOf(features, Offsets(slices), base, n) == SliceRows(features, slices, n)
  {
    if n > 0 {
      RowsAreSlices(stream, features, slices, base, n - 1);
      RowIsSlice(stream, features, slices, base, n - 1);
    }
  }

  lemma CutIsPlaced<B, R>(stream: seq<B>, features: seq<Feature<R>>, slices: seq<Slice>)
    requires CutFrom(features, slices, |stream|)
    ensures Placed(features)
  {
    forall i | 0 <= i < |features| ensures features[i].start <= features[i].end {
      LocationIsTheSlice(stream, slices, 0, i);
    }
  }

  /**
   * `process_chunk` on a chunk cut from a stream: the rows are those of its features,
   * in order, and the location of each is its feature's slice of the stream, whose
   * bytes are the feature's bytes in the chunk.
   */
  method ProcessCutChunk<B, R>(ghost stream: seq<B>, ghost slices: seq<Slice>, features: seq<Feature<R>>,
                               offsets: seq<FeatureOffset>, base: nat, batchSize: nat)
    returns (batches: Option<seq<Batch<R>>>)
    requires batchSize > 0 && CutFrom(features, slices, |stream|) && offsets == Offsets(slices)
    ensures batches.None? <==> AnyFailed(features)
    ensures batches.Some? ==> AllRows(batches.value) == SliceRows(features, slices, |features|)
    ensures forall i :: 0 <= i < |features| ==>
              && features[i].start <= features[i].end <= Length(slices)
              && Bytes(stream, slices)[features[i].start..features[i].end] == stream[slices[i].start..slices[i].end]
  {
    CutIsPlaced(stream, features, slices);
    batches := ProcessChunk(features, offsets, base, batchSize);
    RowsAreSlices(stream, features, slices, base, |features|);
    forall i | 0 <= i < |features|
      ensures features[i].start <= features[i].end <= Length(slices)
      ensures Bytes(stream, slices)[features[i].start..features[i].end] == stream[slices[i].start..slices[i].end]
    {
      LocationIsTheSlice(stream, slices, base, i);
    }
  }
}

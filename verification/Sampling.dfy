/**
 * The sample that a read infers its schema from
 * (crates/xeibe-arrow/src/api.rs:266-382): chunks taken from the input before the
 * workers start, scanned on several threads, and handed back to the input.
 */
module Sampling {
  import opened Basics
  import opened Streams

  /** A chunk of the layer's features, or an error or a panic that ends the input. */
  datatype Taken<+F> = Chunk(features: seq<F>, bytes: nat) | Broken

  function EndsInput<F>(): Taken<F> -> bool {
    (taken: Taken<F>) => taken.Broken?
  }

  predicate AllChunks<F>(chunks: seq<Taken<F>>) {
    forall i :: 0 <= i < |chunks| ==> chunks[i].Chunk?
  }

  function FeaturesOf<F>(chunks: seq<Taken<F>>): seq<F> {
    if chunks == [] then []
    else FeaturesOf(chunks[..|chunks| - 1]) + if chunks[|chunks| - 1].Chunk? then chunks[|chunks| - 1].features else []
  }

  lemma FeaturesAppend<F>(chunks: seq<Taken<F>>, chunk: Taken<F>)
    requires chunk.Chunk?
    ensures FeaturesOf(chunks + [chunk]) == FeaturesOf(chunks) + chunk.features
  {
    assert (chunks + [chunk])[..|chunks|] == chunks;
  }

  // ---- taking the sample ------------------------------------------------------------------------

  /** `after`: a chunk beyond the sample, which shows that the input goes on. */
  datatype Sample<+F> = Sample(chunks: seq<Taken<F>>, after: Option<Taken<F>>, complete: bool)

  function Buffered<F>(sample: Sample<F>): seq<Taken<F>> {
    sample.chunks + if sample.after.Some? then [sample.after.value] else []
  }

  function BytesOf<F>(chunks: seq<Taken<F>>): nat {
    if chunks == [] then 0
    else BytesOf(chunks[..|chunks| - 1]) + if chunks[|chunks| - 1].Chunk? then chunks[|chunks| - 1].bytes else 0
  }

  /** The sample's features, or its bytes, are in. */
  predicate Enough<F>(chunks: seq<Taken<F>>, budget: nat, maxBytes: nat) {
    chunks != [] && (|FeaturesOf(chunks)| >= budget || BytesOf(chunks) >= maxBytes)
  }

  /** The first chunks, none of them taken after there was enough. */
  ghost predicate Needed<F>(chunks: seq<Taken<F>>, items: seq<Taken<F>>, budget: nat, maxBytes: nat) {
    && AllChunks(chunks) && chunks <= items
    && forall k :: 0 <= k < |chunks| ==> !Enough(chunks[..k], budget, maxBytes)
  }

  /**
   * The sample of an input: its chunks up to the first with which there is enough,
   * and one more, unless the features are over the budget; complete if they are
   * all there is and all of them are scanned.
   */
  ghost predicate IsSample<F>(items: seq<Taken<F>>, sample: Sample<F>, budget: nat, maxBytes: nat) {
    && Needed(sample.chunks, items, budget, maxBytes)
    && (sample.complete <==> sample.chunks == items && |FeaturesOf(items)| <= budget)
    && (!sample.complete ==> Enough(sample.chunks, budget, maxBytes))
    && sample.after == (if sample.complete || |FeaturesOf(sample.chunks)| > budget then None
                        else if |sample.chunks| < |items| then Some(items[|sample.chunks|]) else None)
    && (sample.after.Some? ==> sample.after.value.Chunk?)
  }

  /** The input fails at a chunk the sample asks for. */
  ghost predicate FailsWithin<F>(items: seq<Taken<F>>, budget: nat, maxBytes: nat) {
    exists n :: FailsAt(items, n, budget, maxBytes)
  }

  ghost predicate FailsAt<F>(items: seq<Taken<F>>, n: nat, budget: nat, maxBytes: nat) {
    && n < |items| && items[n].Broken?
    && Needed(items[..n], items, budget, maxBytes)
    && (Enough(items[..n], budget, maxBytes) ==> |FeaturesOf(items[..n])| <= budget)
  }

  /** What comes of taking chunks from items: a sample, with exactly its chunks taken, or a failure within it. */
  ghost predicate Sampled<F>(items: seq<Taken<F>>, before: seq<Taken<F>>, after: seq<Taken<F>>,
                             sample: Option<Sample<F>>, budget: nat, maxBytes: nat)
  {
    match sample
    case Some(s) => IsSample(items, s, budget, maxBytes) && after == before + Buffered(s)
    case None => FailsWithin(items, budget, maxBytes)
  }

  lemma TakenOne<F>(chunks: seq<Taken<F>>, chunk: Taken<F>, items: seq<Taken<F>>, budget: nat, maxBytes: nat)
    requires Needed(chunks, items, budget, maxBytes) && !Enough(chunks, budget, maxBytes)
    requires chunk.Chunk? && |chunks| < |items| && items[|chunks|] == chunk
    ensures Needed(chunks + [chunk], items, budget, maxBytes)
  {
    assert (chunks + [chunk])[..|chunks|] == chunks;
    forall k | 0 <= k < |chunks + [chunk]|
      ensures !Enough((chunks + [chunk])[..k], budget, maxBytes)
    {
      assert k < |chunks| ==> (chunks + [chunk])[..k] == chunks[..k];
    }
  }

  /** How many features and bytes the chunks have. */
  ghost predicate Totals<F>(chunks: seq<Taken<F>>, features: nat, bytes: nat) {
    features == |FeaturesOf(chunks)| && bytes == BytesOf(chunks)
  }

  lemma {:induction false} MoreTotals<F>(chunks: seq<Taken<F>>, chunk: Taken<F>, features: nat, bytes: nat)
    requires Totals(chunks, features, bytes) && chunk.Chunk?
    ensures Totals(chunks + [chunk], features + |chunk.features|, bytes + chunk.bytes)
  {
    FeaturesAppend(chunks, chunk);
    assert (chunks + [chunk])[..|chunks|] == chunks;
  }

  lemma {:induction false} EnoughByTotals<F>(chunks: seq<Taken<F>>, features: nat, bytes: nat, budget: nat,
                                             maxBytes: nat)
    requires Totals(chunks, features, bytes)
    ensures Enough(chunks, budget, maxBytes) <==> chunks != [] && (features >= budget || bytes >= maxBytes)
    ensures |FeaturesOf(chunks)| == features
  {
  }

  /** The chunks are needed, and not enough yet. */
  ghost predicate Going<F>(chunks: seq<Taken<F>>, items: seq<Taken<F>>, features: nat, bytes: nat, budget: nat,
                           maxBytes: nat)
  {
    && Needed(chunks, items, budget, maxBytes) && !Enough(chunks, budget, maxBytes)
    && Totals(chunks, features, bytes) && features <= budget
  }

  lemma {:induction false} NothingYet<F>(items: seq<Taken<F>>, before: seq<Taken<F>>, budget: nat, maxBytes: nat)
    ensures Going([], items, 0, 0, budget, maxBytes) && before == before + [] && items == [] + items
  {
  }

  /** The chunks are needed, and enough, with all of their features. */
  ghost predicate Reached<F>(chunks: seq<Taken<F>>, items: seq<Taken<F>>, budget: nat, maxBytes: nat) {
    && Needed(chunks, items, budget, maxBytes) && Enough(chunks, budget, maxBytes)
    && |FeaturesOf(chunks)| <= budget
  }

  /** One chunk more. */
  lemma {:induction false} OneTaken<F>(chunks: seq<Taken<F>>, chunk: Taken<F>, items: seq<Taken<F>>, features: nat,
                                       bytes: nat, before: seq<Taken<F>>, budget: nat, maxBytes: nat)
    requires Going(chunks, items, features, bytes, budget, maxBytes)
    requires chunk.Chunk? && Follows(chunks, chunk, items)
    ensures var more, f, b := chunks + [chunk], features + |chunk.features|, bytes + chunk.bytes;
            if f > budget then Sampled(items, before, before + more, Some(Sample(more, None, false)), budget, maxBytes)
            else if f == budget || b >= maxBytes then Reached(more, items, budget, maxBytes)
            else Going(more, items, f, b, budget, maxBytes)
  {
    var more, f, b := chunks + [chunk], features + |chunk.features|, bytes + chunk.bytes;
    TakenOne(chunks, chunk, items, budget, maxBytes);
    MoreTotals(chunks, chunk, features, bytes);
    EnoughByTotals(more, f, b, budget, maxBytes);
    if f > budget {
      OverBudget(items, more, before, budget, maxBytes);
    }
  }

  /** The item after the chunks. */
  lemma NextItem<F>(items: seq<Taken<F>>, chunks: seq<Taken<F>>, next: Taken<F>, left: seq<Taken<F>>)
    requires items == chunks + ([next] + left)
    ensures items == chunks + [next] + left && |chunks| < |items| && items[|chunks|] == next
    ensures items[..|chunks|] == chunks
  {
  }

  lemma AllTaken<F>(items: seq<Taken<F>>, chunks: seq<Taken<F>>, before: seq<Taken<F>>, budget: nat, maxBytes: nat)
    requires Needed(chunks, items, budget, maxBytes) && items == chunks + [] && |FeaturesOf(chunks)| <= budget
    ensures IsSample(items, Sample(chunks, None, true), budget, maxBytes)
    ensures before + chunks == before + Buffered(Sample(chunks, None, true))
  {
    assert chunks + [] == chunks;
  }

  lemma OverBudget<F>(items: seq<Taken<F>>, chunks: seq<Taken<F>>, before: seq<Taken<F>>, budget: nat, maxBytes: nat)
    requires Needed(chunks, items, budget, maxBytes) && chunks != [] && |FeaturesOf(chunks)| > budget
    ensures Sampled(items, before, before + chunks, Some(Sample(chunks, None, false)), budget, maxBytes)
  {
    assert chunks + [] == chunks;
  }

  lemma OneMore<F>(items: seq<Taken<F>>, chunks: seq<Taken<F>>, more: Taken<F>, before: seq<Taken<F>>, budget: nat,
                   maxBytes: nat)
    requires Needed(chunks, items, budget, maxBytes) && Enough(chunks, budget, maxBytes)
    requires |FeaturesOf(chunks)| <= budget
    requires |chunks| < |items| && items[|chunks|] == more && more.Chunk?
    ensures Sampled(items, before, before + (chunks + [more]), Some(Sample(chunks, Some(more), false)), budget,
                    maxBytes)
  {
  }

  lemma Fails<F>(items: seq<Taken<F>>, chunks: seq<Taken<F>>, budget: nat, maxBytes: nat)
    requires Needed(chunks, items, budget, maxBytes) && |FeaturesOf(chunks)| <= budget
    requires |chunks| < |items| && items[|chunks|].Broken? && items[..|chunks|] == chunks
    ensures FailsWithin(items, budget, maxBytes)
  {
    assert FailsAt(items, |chunks|, budget, maxBytes);
  }

  /** The chunks were taken from the stream's items, and the rest of these are still to come. */
  ghost predicate Took<F>(stream: Sequential<Taken<F>>, before: seq<Taken<F>>, chunks: seq<Taken<F>>,
                          items: seq<Taken<F>>)
    reads stream
  {
    stream.Valid() && stream.taken == before + chunks && items == chunks + stream.Remaining()
  }

  /** The item is the one after the chunks. */
  ghost predicate Follows<F>(chunks: seq<Taken<F>>, next: Taken<F>, items: seq<Taken<F>>) {
    |chunks| < |items| && items[|chunks|] == next && items[..|chunks|] == chunks
  }

  /** The input's next item, after the chunks taken so far. */
  method NextOf<F>(stream: Sequential<Taken<F>>, ghost before: seq<Taken<F>>, ghost chunks: seq<Taken<F>>,
                   ghost items: seq<Taken<F>>)
    returns (next: Option<Taken<F>>)
    requires Took(stream, before, chunks, items)
    modifies stream
    ensures next.None? ==> Took(stream, before, chunks, items) && items == chunks + []
    ensures next.Some? ==> Took(stream, before, chunks + [next.value], items) && Follows(chunks, next.value, items)
    ensures next.Some? ==> |stream.Remaining()| < |old(stream.Remaining())|
  {
    next := stream.Next();
    if next.Some? {
      NextItem(items, chunks, next.value, stream.Remaining());
      Assoc(before, chunks, [next.value]);
    }
  }

  /** The input ends, or fails, where the sample asks for more. */
  method AtEnd<F>(chunks: seq<Taken<F>>, next: Option<Taken<F>>, ghost budget: nat, ghost maxBytes: nat,
                  ghost before: seq<Taken<F>>, ghost after: seq<Taken<F>>, ghost items: seq<Taken<F>>)
    returns (sample: Option<Sample<F>>)
    requires Needed(chunks, items, budget, maxBytes) && |FeaturesOf(chunks)| <= budget
    requires next.None? ==> items == chunks + []
    requires next.Some? ==> next.value.Broken? && Follows(chunks, next.value, items)
    ensures sample.Some? <==> next.None?
    ensures next.Some? || after == before + chunks ==> Sampled(items, before, after, sample, budget, maxBytes)
  {
    if next.None? {
      AllTaken(items, chunks, before, budget, maxBytes);
      return Some(Sample(chunks, None, true));
    }
    Fails(items, chunks, budget, maxBytes);
    return None;
  }

  /** The chunk-taking loop of `take_sample`; `None` where the input fails within the sample. */
  method TakeSample<F>(stream: Sequential<Taken<F>>, budget: nat, maxBytes: nat) returns (sample: Option<Sample<F>>)
    requires stream.Valid()
    modifies stream
    ensures stream.Valid()
    ensures Sampled(old(stream.Remaining()), old(stream.taken), stream.taken, sample, budget, maxBytes)
  {
    var chunks: seq<Taken<F>> := [];
    var features: nat, bytes: nat := 0, 0;
    ghost var before, items := stream.taken, stream.Remaining();
    NothingYet(items, before, budget, maxBytes);
    while true
      invariant Took(stream, before, chunks, items)
      invariant Going(chunks, items, features, bytes, budget, maxBytes)
      decreases |stream.Remaining()|
    {
      var next := NextOf(stream, before, chunks, items);
      if next.None? || next.value.Broken? {
        sample := AtEnd(chunks, next, budget, maxBytes, before, stream.taken, items);
        return;
      }
      OneTaken(chunks, next.value, items, features, bytes, before, budget, maxBytes);
      features := features + |next.value.features|;
      bytes := bytes + next.value.bytes;
      chunks := chunks + [next.value];
      if features > budget {
        return Some(Sample(chunks, None, false));
      }
      if features == budget || bytes >= maxBytes {
        sample := LookAfter(stream, chunks, budget, maxBytes, before, items);
        return;
      }
    }
  }

  /** One chunk more, to tell whether the sample is the whole input. */
  method LookAfter<F>(stream: Sequential<Taken<F>>, chunks: seq<Taken<F>>, ghost budget: nat, ghost maxBytes: nat,
                      ghost before: seq<Taken<F>>, ghost items: seq<Taken<F>>)
    returns (sample: Option<Sample<F>>)
    requires Took(stream, before, chunks, items)
    requires Reached(chunks, items, budget, maxBytes)
    modifies stream
    ensures stream.Valid()
    ensures Sampled(items, before, stream.taken, sample, budget, maxBytes)
  {
    var more := NextOf(stream, before, chunks, items);
    if more.None? || more.value.Broken? {
      sample := AtEnd(chunks, more, budget, maxBytes, before, stream.taken, items);
      return;
    }
    OneMore(items, chunks, more.value, before, budget, maxBytes);
    return Some(Sample(chunks, more, false));
  }

  /**
   * The read after the sample: the buffered chunks and then the rest of the input
   * are the whole input, nothing lost, repeated or reordered.
   */
  method SampleThenRest<F>(streams: seq<seq<Taken<F>>>, tail: Tail<Taken<F>>, budget: nat, maxBytes: nat)
    returns (sample: Option<Sample<F>>, rest: Rest<Taken<F>>)
    ensures sample.Some? ==>
              Sequence(EndsInput(), rest.Contents().streams, rest.Contents().tail)
              == Sequence(EndsInput(), streams, tail)
    ensures var items := Sequence(EndsInput(), streams, tail);
            if sample.Some? then IsSample(items, sample.value, budget, maxBytes) && Buffered(sample.value) <= items
            else FailsWithin(items, budget, maxBytes)
  {
    var stream := new Sequential<Taken<F>>(EndsInput(), streams, tail);
    assert [] + stream.Remaining() == stream.Remaining();
    sample := TakeSample(stream, budget, maxBytes);
    var buffered := if sample.Some? then Buffered(sample.value) else [];
    if sample.Some? {
      assert [] + buffered == buffered;
      RestIsWhole(stream);
    }
    rest := stream.Rest(buffered);
  }

  // ---- scanning the sample ------------------------------------------------------------------------

  /** What was seen of some features, or why they cannot be scanned. */
  datatype Scan<+O, +E> = Seen(observation: O) | Unscannable(error: E)

  /** What the scanner sees of features, and how observations merge. */
  datatype Scanner<!F, !O, !E> = Scanner(
    // The first features of a chunk.
    scan: seq<F> -> Scan<O, E>,
    empty: O,
    merge: (O, O) -> O)

  /** Each chunk's share of the budget. */
  function Shares<F>(chunks: seq<Taken<F>>, budget: nat): (shares: seq<nat>)
    requires AllChunks(chunks)
    ensures |shares| == |chunks|
    ensures forall i :: 0 <= i < |chunks| ==> shares[i] <= |chunks[i].features|
  {
    if chunks == [] then []
    else
      var last := |chunks| - 1;
      Shares(chunks[..last], budget) + [Share(chunks, last, budget)]
  }

  /** What the chunks before it leave of the budget, as far as the chunk goes. */
  function Share<F>(chunks: seq<Taken<F>>, i: nat, budget: nat): (share: nat)
    requires AllChunks(chunks) && i < |chunks|
    ensures share <= |chunks[i].features|
  {
    var before, n := |FeaturesOf(chunks[..i])|, |chunks[i].features|;
    if before >= budget then 0 else if n < budget - before then n else budget - before
  }

  method SplitBudget<F>(chunks: seq<Taken<F>>, budget: nat) returns (shares: seq<nat>)
    requires AllChunks(chunks)
    ensures shares == Shares(chunks, budget)
  {
    var left := budget;
    shares := [];
    for i := 0 to |chunks|
      invariant shares == Shares(chunks[..i], budget)
      invariant left == LeftOf(chunks[..i], budget)
    {
      SplitStep(chunks, i, budget);
      var n := |chunks[i].features|;
      var take: nat := if n < left then n else left;
      left := left - take;
      shares := shares + [take];
    }
    assert chunks[..|chunks|] == chunks;
  }

  function LeftOf<F>(chunks: seq<Taken<F>>, budget: nat): nat {
    if |FeaturesOf(chunks)| >= budget then 0 else budget - |FeaturesOf(chunks)|
  }

  lemma SplitStep<F>(chunks: seq<Taken<F>>, i: nat, budget: nat)
    requires AllChunks(chunks) && i < |chunks|
    ensures Shares(chunks[..i + 1], budget) == Shares(chunks[..i], budget) + [Share(chunks, i, budget)]
    ensures LeftOf(chunks[..i + 1], budget) == LeftOf(chunks[..i], budget) - Share(chunks, i, budget)
  {
    assert chunks[..i + 1][..i] == chunks[..i] && chunks[..i + 1] == chunks[..i] + [chunks[i]];
    FeaturesAppend(chunks[..i], chunks[i]);
  }

  function ScannedFeatures<F>(chunks: seq<Taken<F>>, budget: nat): seq<F>
    requires AllChunks(chunks)
  {
    if chunks == [] then []
    else
      var last := |chunks| - 1;
      ScannedFeatures(chunks[..last], budget) + chunks[last].features[..Share(chunks, last, budget)]
  }

  /** The shares come to the first features of all the chunks. */
  lemma {:induction false} SharesAreTheFirst<F>(chunks: seq<Taken<F>>, budget: nat)
    requires AllChunks(chunks)
    ensures var all := FeaturesOf(chunks);
            ScannedFeatures(chunks, budget) == all[..if |all| < budget then |all| else budget]
  {
    if chunks != [] {
      var before, last := chunks[..|chunks| - 1], chunks[|chunks| - 1];
      SharesAreTheFirst(before, budget);
      FeaturesAppend(before, last);
      assert chunks == before + [last];
      FirstOfBoth(FeaturesOf(before), last.features, budget);
    }
  }

  lemma FirstOfBoth<F>(a: seq<F>, b: seq<F>, n: nat)
    ensures (a + b)[..if |a + b| < n then |a + b| else n]
            == a[..if |a| < n then |a| else n] + b[..if |a| >= n then 0 else if |b| < n - |a| then |b| else n - |a|]
  {
  }

  /** One chunk's scan. */
  function ScanAt<F, O, E>(scanner: Scanner<F, O, E>, chunks: seq<Taken<F>>, budget: nat, i: nat): Scan<O, E>
    requires AllChunks(chunks) && i < |chunks|
  {
    scanner.scan(chunks[i].features[..Share(chunks, i, budget)])
  }

  /** The scans of the first chunks, with their places. */
  function Scans<F, O, E>(scanner: Scanner<F, O, E>, chunks: seq<Taken<F>>, budget: nat,
                          n: nat): (scans: seq<(nat, Scan<O, E>)>)
    requires AllChunks(chunks) && n <= |chunks|
    ensures |scans| == n
    ensures forall i :: 0 <= i < n ==> scans[i] == (i, ScanAt(scanner, chunks, budget, i))
  {
    seq(n, i requires 0 <= i < n => (i, ScanAt(scanner, chunks, budget, i)))
  }

  /** Observations merged in order, or the first failure. */
  function Merged<F, O, E>(scanner: Scanner<F, O, E>, scans: seq<(nat, Scan<O, E>)>): Scan<O, E> {
    if scans == [] then Seen(scanner.empty)
    else
      match (Merged(scanner, scans[..|scans| - 1]), scans[|scans| - 1].1)
      case (Seen(before), Seen(last)) => Seen(scanner.merge(before, last))
      case (Seen(_), Unscannable(error)) => Unscannable(error)
      case (failed, _) => failed
  }

  method MergeScans<F, O, E>(scanner: Scanner<F, O, E>, scans: seq<(nat, Scan<O, E>)>) returns (merged: Scan<O, E>)
    ensures merged == Merged(scanner, scans)
    ensures merged.Seen? <==> forall i :: 0 <= i < |scans| ==> scans[i].1.Seen?
    ensures forall i :: 0 <= i < |scans| && FailsFirst(scans, i) ==> merged == scans[i].1
  {
    MergedOutcome(scanner, scans);
    merged := Seen(scanner.empty);
    for i := 0 to |scans|
      invariant merged.Seen? && merged == Merged(scanner, scans[..i])
    {
      assert scans[..i + 1][..i] == scans[..i];
      match scans[i].1 {
        case Unscannable(error) =>
          FailedStays(scanner, scans, i + 1);
          return Unscannable(error);
        case Seen(observation) =>
          merged := Seen(scanner.merge(merged.observation, observation));
      }
    }
    assert scans[..|scans|] == scans;
  }

  lemma {:induction false} FailedStays<F, O, E>(scanner: Scanner<F, O, E>, scans: seq<(nat, Scan<O, E>)>, i: nat)
    requires i <= |scans| && Merged(scanner, scans[..i]).Unscannable?
    ensures Merged(scanner, scans) == Merged(scanner, scans[..i])
  {
    if i < |scans| {
      assert scans[..|scans| - 1][..i] == scans[..i];
      FailedStays(scanner, scans[..|scans| - 1], i);
    } else {
      assert scans[..i] == scans;
    }
  }

  /** The first of the scans that failed. */
  ghost predicate FailsFirst<O, E>(scans: seq<(nat, Scan<O, E>)>, i: nat) {
    i < |scans| && scans[i].1.Unscannable? && forall j :: 0 <= j < i ==> scans[j].1.Seen?
  }

  /** Something was seen exactly if no scan failed; else the first failure is what comes out. */
  lemma {:induction false} MergedOutcome<F, O, E>(scanner: Scanner<F, O, E>, scans: seq<(nat, Scan<O, E>)>)
    ensures Merged(scanner, scans).Seen? <==> forall i :: 0 <= i < |scans| ==> scans[i].1.Seen?
    ensures forall i :: 0 <= i < |scans| && FailsFirst(scans, i) ==> Merged(scanner, scans) == scans[i].1
  {
    if scans != [] {
      var before := scans[..|scans| - 1];
      MergedOutcome(scanner, before);
      forall i | 0 <= i < |scans| && FailsFirst(scans, i) ensures Merged(scanner, scans) == scans[i].1 {
        if i < |before| {
          assert FailsFirst(before, i);
        }
      }
    }
  }

  // ---- on any number of threads ---------------------------------------------------------------------

  /**
   * What `fold` gives back, one list a worker: the scans of the chunks taken, each on
   * some worker. Chunks are taken in order, and all of them unless one failed.
   */
  ghost predicate Folded<F, O, E>(scanner: Scanner<F, O, E>, chunks: seq<Taken<F>>, budget: nat, n: nat,
                                  workers: seq<seq<(nat, Scan<O, E>)>>)
    requires AllChunks(chunks)
  {
    && n <= |chunks|
    && multiset(Flatten(workers)) == multiset(Scans(scanner, chunks, budget, n))
    && (n < |chunks| ==> exists i :: 0 <= i < n && ScanAt(scanner, chunks, budget, i).Unscannable?)
  }

  ghost predicate ByPlace<O, E>(scans: seq<(nat, Scan<O, E>)>) {
    forall i, j :: 0 <= i < j < |scans| ==> scans[i].0 <= scans[j].0
  }

  /** Sorted by their places, the scans are in chunk order, whichever worker made them. */
  lemma {:induction false} SortedIsInOrder<O, E>(sorted: seq<(nat, Scan<O, E>)>, scans: seq<(nat, Scan<O, E>)>)
    requires ByPlace(sorted) && multiset(sorted) == multiset(scans)
    requires forall i :: 0 <= i < |scans| ==> scans[i].0 == i
    ensures sorted == scans
    decreases |scans|
  {
    SameLength(sorted, scans);
    if scans != [] {
      LastIsLast(sorted, scans);
      ButLast(sorted);
      ButLast(scans);
      SortedIsInOrder(sorted[..|scans| - 1], scans[..|scans| - 1]);
      LastAndRest(sorted, scans);
    }
  }

  lemma LastAndRest<X>(a: seq<X>, b: seq<X>)
    requires |a| == |b| > 0 && a[..|a| - 1] == b[..|b| - 1] && a[|a| - 1] == b[|b| - 1]
    ensures a == b
  {
    assert a == a[..|a| - 1] + [a[|a| - 1]] && b == b[..|b| - 1] + [b[|b| - 1]];
  }

  lemma SameLength<X>(a: seq<X>, b: seq<X>)
    requires multiset(a) == multiset(b)
    ensures |a| == |b|
  {
    assert |multiset(a)| == |a| && |multiset(b)| == |b|;
  }

  lemma ButLast<X>(items: seq<X>)
    requires items != []
    ensures multiset(items[..|items| - 1]) == multiset(items) - multiset{items[|items| - 1]}
  {
    assert items == items[..|items| - 1] + [items[|items| - 1]];
  }

  lemma LastIsLast<O, E>(sorted: seq<(nat, Scan<O, E>)>, scans: seq<(nat, Scan<O, E>)>)
    requires ByPlace(sorted) && multiset(sorted) == multiset(scans) && |sorted| == |scans| > 0
    requires forall i :: 0 <= i < |scans| ==> scans[i].0 == i
    ensures sorted[|sorted| - 1] == scans[|scans| - 1]
  {
    var n := |scans| - 1;
    assert scans[n] in multiset(sorted);
    var i :| 0 <= i < |sorted| && sorted[i] == scans[n];
    assert sorted[n] in multiset(scans);
    var j :| 0 <= j < |scans| && scans[j] == sorted[n];
    assert sorted[i].0 <= sorted[n].0;
  }

  /** The observation of the chunks, scanned one after another. */
  function Sequentially<F, O, E>(scanner: Scanner<F, O, E>, chunks: seq<Taken<F>>, budget: nat): Scan<O, E>
    requires AllChunks(chunks)
  {
    Merged(scanner, Scans(scanner, chunks, budget, |chunks|))
  }

  /** After a failure, more scans change nothing. */
  lemma {:induction false} FailsFrom<F, O, E>(scanner: Scanner<F, O, E>, scans: seq<(nat, Scan<O, E>)>,
                                              more: seq<(nat, Scan<O, E>)>, i: nat)
    requires i < |scans| && scans <= more && scans[i].1.Unscannable?
    ensures Merged(scanner, more) == Merged(scanner, scans)
  {
    MergedOutcome(scanner, scans);
    assert more[..|scans|] == scans;
    FailedStays(scanner, more, |scans|);
  }

  /** Whichever worker scanned what, the merged observation is the sequential one. */
  lemma ScanIsSequential<F, O, E>(scanner: Scanner<F, O, E>, chunks: seq<Taken<F>>, budget: nat, n: nat,
                                  workers: seq<seq<(nat, Scan<O, E>)>>, sorted: seq<(nat, Scan<O, E>)>)
    requires AllChunks(chunks) && Folded(scanner, chunks, budget, n, workers)
    requires ByPlace(sorted) && multiset(sorted) == multiset(Flatten(workers))
    ensures Merged(scanner, sorted) == Sequentially(scanner, chunks, budget)
  {
    var scans := Scans(scanner, chunks, budget, n);
    SortedIsInOrder(sorted, scans);
    if n < |chunks| {
      var i :| 0 <= i < n && ScanAt(scanner, chunks, budget, i).Unscannable?;
      FailsFrom(scanner, scans, Scans(scanner, chunks, budget, |chunks|), i);
    }
  }

  /** Merging observations is observing the features together. */
  ghost predicate Homomorphic<F(!new), O, E>(scanner: Scanner<F, O, E>) {
    && scanner.scan([]) == Seen(scanner.empty)
    && forall a: seq<F>, b: seq<F> :: scanner.scan(a).Seen? && scanner.scan(b).Seen? ==>
         scanner.scan(a + b) == Seen(scanner.merge(scanner.scan(a).observation, scanner.scan(b).observation))
  }

  /** Every chunk's share can be scanned. */
  ghost predicate AllScan<F, O, E>(scanner: Scanner<F, O, E>, chunks: seq<Taken<F>>, budget: nat)
    requires AllChunks(chunks)
  {
    forall i :: 0 <= i < |chunks| ==> ScanAt(scanner, chunks, budget, i).Seen?
  }

  /** The first of the chunks whose share cannot be scanned. */
  ghost predicate FirstUnscannable<F, O, E>(scanner: Scanner<F, O, E>, chunks: seq<Taken<F>>, budget: nat, i: nat)
    requires AllChunks(chunks)
  {
    && i < |chunks| && ScanAt(scanner, chunks, budget, i).Unscannable?
    && forall j :: 0 <= j < i ==> ScanAt(scanner, chunks, budget, j).Seen?
  }

  lemma {:induction false} SequentiallyIsOneScan<F(!new), O, E>(scanner: Scanner<F, O, E>, chunks: seq<Taken<F>>,
                                                                budget: nat)
    requires AllChunks(chunks) && Homomorphic(scanner) && AllScan(scanner, chunks, budget)
    ensures Sequentially(scanner, chunks, budget) == scanner.scan(ScannedFeatures(chunks, budget))
    ensures Sequentially(scanner, chunks, budget).Seen?
  {
    if chunks != [] {
      var n := |chunks| - 1;
      var before := chunks[..n];
      assert forall i :: 0 <= i < n ==> before[..i] == chunks[..i];
      assert forall i :: 0 <= i < n ==> ScanAt(scanner, before, budget, i) == ScanAt(scanner, chunks, budget, i);
      assert Scans(scanner, chunks, budget, |chunks|)[..n] == Scans(scanner, before, budget, n);
      SequentiallyIsOneScan(scanner, before, budget);
    }
  }

  /** What comes out: one scan of the first features, or the failure of the first chunk that has one. */
  ghost predicate IsOneScan<F, O, E>(scanner: Scanner<F, O, E>, chunks: seq<Taken<F>>, budget: nat, merged: Scan<O, E>)
    requires AllChunks(chunks)
  {
    var all := FeaturesOf(chunks);
    && (merged.Seen? <==> AllScan(scanner, chunks, budget))
    && (AllScan(scanner, chunks, budget) ==>
          merged == scanner.scan(all[..if |all| < budget then |all| else budget]))
    && forall i :: 0 <= i < |chunks| && FirstUnscannable(scanner, chunks, budget, i) ==>
         merged == ScanAt(scanner, chunks, budget, i)
  }

  lemma {:induction false} SequentialOutcome<F(!new), O, E>(scanner: Scanner<F, O, E>, chunks: seq<Taken<F>>,
                                                            budget: nat)
    requires AllChunks(chunks) && Homomorphic(scanner)
    ensures IsOneScan(scanner, chunks, budget, Sequentially(scanner, chunks, budget))
  {
    var scans := Scans(scanner, chunks, budget, |chunks|);
    MergedOutcome(scanner, scans);
    SharesAreTheFirst(chunks, budget);
    if AllScan(scanner, chunks, budget) {
      SequentiallyIsOneScan(scanner, chunks, budget);
    }
    forall i | 0 <= i < |chunks| && FirstUnscannable(scanner, chunks, budget, i)
      ensures Sequentially(scanner, chunks, budget) == ScanAt(scanner, chunks, budget, i)
    {
      assert FailsFirst(scans, i);
    }
  }

  /**
   * The sample's observation, on any number of threads, is that of the first
   * `budget` features of the chunks (of the whole layer, if the sample is complete);
   * or the failure is that of the first chunk that cannot be scanned.
   */
  lemma {:induction false} SampleIsOneScan<F(!new), O, E>(scanner: Scanner<F, O, E>, chunks: seq<Taken<F>>, budget: nat,
                                                          n: nat, workers: seq<seq<(nat, Scan<O, E>)>>,
                                                          sorted: seq<(nat, Scan<O, E>)>)
    requires AllChunks(chunks) && Folded(scanner, chunks, budget, n, workers) && Homomorphic(scanner)
    requires ByPlace(sorted) && multiset(sorted) == multiset(Flatten(workers))
    ensures IsOneScan(scanner, chunks, budget, Merged(scanner, sorted))
  {
    ScanIsSequential(scanner, chunks, budget, n, workers, sorted);
    SequentialOutcome(scanner, chunks, budget);
  }
}

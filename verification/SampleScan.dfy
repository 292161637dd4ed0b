/**
 * The sample scanned by `fold` (`scan_sample`, crates/xeibe-arrow/src/api.rs:334-382):
 * the chunks are one stream, each with its share of the budget; a worker's
 * accumulator is the scans it made, and a scan that fails stops them all.
 */
module SampleScan {
  import opened Basics
  import opened Streams
  import opened TakeInput
  import opened Fold
  import opened Sampling

  /** The chunks' features within the budget, with the chunks' places. */
  function ToScan<F>(chunks: seq<Taken<F>>, budget: nat): (items: seq<(nat, seq<F>)>)
    requires AllChunks(chunks)
    ensures |items| == |chunks|
  {
    seq(|chunks|, i requires 0 <= i < |chunks| => (i, chunks[i].features[..Share(chunks, i, budget)]))
  }

  function ScanStep<F, O, E>(scanner: Scanner<F, O, E>): (seq<(nat, Scan<O, E>)>, (nat, seq<F>))
    -> Next<seq<(nat, Scan<O, E>)>>
  {
    (acc: seq<(nat, Scan<O, E>)>, item: (nat, seq<F>)) =>
      var scan := scanner.scan(item.1);
      if scan.Unscannable? then Break(acc + [(item.0, scan)]) else Continue(acc + [(item.0, scan)])
  }

  function Never<T>(): T -> bool {
    (item: T) => false
  }

  /** `fold` as it is called: one stream, no helper. */
  function ScanFold<F, O, E>(scanner: Scanner<F, O, E>, chunks: seq<Taken<F>>, budget: nat, threads: nat)
    : Folding<(nat, seq<F>), seq<(nat, Scan<O, E>)>>
    requires AllChunks(chunks)
  {
    Folding(Config([ToScan(chunks, budget)], Last(None), Never(), None, 1, threads), [], ScanStep(scanner))
  }

  lemma OneStream<T>(items: seq<T>)
    ensures Sequence(Never(), [items], Last(None)) == items
  {
    FlattenFirst(items, true);
    CutWhole(Never(), items);
  }

  /** One more item in one of the lists. */
  lemma {:induction false} FlattenMore<X>(runs: seq<seq<X>>, i: nat, x: X)
    requires i < |runs|
    ensures multiset(Flatten(runs[i := runs[i] + [x]])) == multiset(Flatten(runs)) + multiset{x}
  {
    var last := |runs| - 1;
    var more := runs[i := runs[i] + [x]];
    if i == last {
      assert more[..last] == runs[..last];
      Assoc(Flatten(runs[..last]), runs[last], [x]);
    } else {
      assert more[..last] == runs[..last][i := runs[i] + [x]];
      FlattenMore(runs[..last], i, x);
    }
  }

  lemma {:induction false} FlattenEmpties<X>(runs: seq<seq<X>>)
    requires forall i :: 0 <= i < |runs| ==> runs[i] == []
    ensures Flatten(runs) == []
  {
    if runs != [] {
      FlattenEmpties(runs[..|runs| - 1]);
    }
  }

  /** The workers' scans of the first `n` chunks. */
  function Accs<T, A>(c: Folding<T, A>, log: seq<T>, who: seq<nat>, n: nat): (accs: seq<A>)
    requires n <= |log| == |who|
    ensures |accs| == c.take.threads
  {
    seq(c.take.threads, w requires 0 <= w < c.take.threads => AccOver(c, log, who, w, n))
  }

  lemma OneScan<F, O, E>(scanner: Scanner<F, O, E>, chunks: seq<Taken<F>>, budget: nat, threads: nat,
                         log: seq<(nat, seq<F>)>, who: seq<nat>, n: nat)
    requires AllChunks(chunks) && n < |log| == |who| && log <= ToScan(chunks, budget) && who[n] < threads
    ensures var c := ScanFold(scanner, chunks, budget, threads);
            var accs := Accs(c, log, who, n);
            Accs(c, log, who, n + 1) == accs[who[n] := accs[who[n]] + [(n, ScanAt(scanner, chunks, budget, n))]]
  {
  }

  lemma ScansNext<F, O, E>(scanner: Scanner<F, O, E>, chunks: seq<Taken<F>>, budget: nat, n: nat)
    requires AllChunks(chunks) && n < |chunks|
    ensures Scans(scanner, chunks, budget, n + 1)
            == Scans(scanner, chunks, budget, n) + [(n, ScanAt(scanner, chunks, budget, n))]
  {
  }

  /** One item more on both sides. */
  lemma MoreOfBoth<X>(accs: seq<seq<X>>, accs': seq<seq<X>>, i: nat, scans: seq<X>, scans': seq<X>, x: X)
    requires i < |accs| && accs' == accs[i := accs[i] + [x]] && scans' == scans + [x]
    requires multiset(Flatten(accs)) == multiset(scans)
    ensures multiset(Flatten(accs')) == multiset(scans')
  {
    FlattenMore(accs, i, x);
  }

  /** Whoever scanned what, together the workers have the scans of the chunks taken. */
  lemma {:induction false} AccsAreScans<F, O, E>(scanner: Scanner<F, O, E>, chunks: seq<Taken<F>>, budget: nat,
                                                 threads: nat, log: seq<(nat, seq<F>)>, who: seq<nat>, n: nat)
    requires AllChunks(chunks) && n <= |log| == |who| && log <= ToScan(chunks, budget)
    requires forall k :: 0 <= k < |who| ==> who[k] < threads
    ensures multiset(Flatten(Accs(ScanFold(scanner, chunks, budget, threads), log, who, n)))
            == multiset(Scans(scanner, chunks, budget, n))
  {
    var c := ScanFold(scanner, chunks, budget, threads);
    if n == 0 {
      FlattenEmpties(Accs(c, log, who, 0));
    } else {
      AccsAreScans(scanner, chunks, budget, threads, log, who, n - 1);
      OneScan(scanner, chunks, budget, threads, log, who, n - 1);
      ScansNext(scanner, chunks, budget, n - 1);
      MoreOfBoth(Accs(c, log, who, n - 1), Accs(c, log, who, n), who[n - 1], Scans(scanner, chunks, budget, n - 1),
                 Scans(scanner, chunks, budget, n), (n - 1, ScanAt(scanner, chunks, budget, n - 1)));
    }
  }

  lemma StoppedAtAFailure<F, O, E>(scanner: Scanner<F, O, E>, chunks: seq<Taken<F>>, budget: nat, threads: nat,
                                   log: seq<(nat, seq<F>)>, who: seq<nat>) returns (i: nat)
    requires AllChunks(chunks) && |log| == |who| && log <= ToScan(chunks, budget)
    requires Stopped(ScanFold(scanner, chunks, budget, threads), log, who)
    ensures i < |log| && ScanAt(scanner, chunks, budget, i).Unscannable?
  {
    i :| 0 <= i < |log| && !Gave(ScanFold(scanner, chunks, budget, threads), log, who, i).Continue?;
  }

  /** What `fold` gives back in every run that ends, on any number of workers. */
  lemma {:induction false} WorkersScan<F, O, E>(scanner: Scanner<F, O, E>, chunks: seq<Taken<F>>, budget: nat,
                                                threads: nat, acts: seq<Action>)
    requires AllChunks(chunks) && threads > 0
    requires After(ScanFold(scanner, chunks, budget, threads), acts).Some?
    requires AllEnded(After(ScanFold(scanner, chunks, budget, threads), acts).value.workers)
    ensures var s := After(ScanFold(scanner, chunks, budget, threads), acts).value;
            Folded(scanner, chunks, budget, |s.input.log|, s.accs)
  {
    var c := ScanFold(scanner, chunks, budget, threads);
    var s := After(c, acts).value;
    FoldsTheInput(c, acts);
    OneStream(ToScan(chunks, budget));
    forall w | 0 <= w < threads
      ensures |s.accs| == threads && s.accs[w] == AccOver(c, s.input.log, s.who, w, |s.who|)
      ensures forall k :: 0 <= k < |s.who| ==> s.who[k] < threads
    {
      FoldGives(c, acts, w);
    }
    FoldGives(c, acts, 0);
    assert s.accs == Accs(c, s.input.log, s.who, |s.who|);
    AccsAreScans(scanner, chunks, budget, threads, s.input.log, s.who, |s.who|);
    if s.input.log != ToScan(chunks, budget) {
      var i := StoppedAtAFailure(scanner, chunks, budget, threads, s.input.log, s.who);
    }
  }

  /** The scans of the first chunks, up to the first that fails, on one thread. */
  lemma {:induction false} ScansHere<F, O, E>(scanner: Scanner<F, O, E>, chunks: seq<Taken<F>>, budget: nat, i: nat)
    returns (n: nat)
    requires AllChunks(chunks) && i <= |chunks|
    ensures i <= n <= |chunks|
    ensures var end := FoldItems(ScanStep(scanner), Scans(scanner, chunks, budget, i), ToScan(chunks, budget)[i..]);
            && !end.Panic? && end.acc == Scans(scanner, chunks, budget, n)
    ensures n < |chunks| ==> exists k :: 0 <= k < n && ScanAt(scanner, chunks, budget, k).Unscannable?
    decreases |chunks| - i
  {
    n := i;
    if i < |chunks| {
      var items := ToScan(chunks, budget);
      assert items[i..][0] == items[i] && items[i..][1..] == items[i + 1..];
      assert Scans(scanner, chunks, budget, i + 1)
          == Scans(scanner, chunks, budget, i) + [(i, ScanAt(scanner, chunks, budget, i))];
      if ScanAt(scanner, chunks, budget, i).Unscannable? {
        n := i + 1;
      } else {
        n := ScansHere(scanner, chunks, budget, i + 1);
      }
    }
  }

  lemma OneWorkerScans<F, O, E>(scanner: Scanner<F, O, E>, chunks: seq<Taken<F>>, budget: nat) returns (n: nat)
    requires AllChunks(chunks)
    ensures var end := FoldItems(ScanStep(scanner), [], ToScan(chunks, budget));
            !end.Panic? && Folded(scanner, chunks, budget, n, [end.acc])
  {
    n := ScansHere(scanner, chunks, budget, 0);
    assert ToScan(chunks, budget)[0..] == ToScan(chunks, budget);
    assert Scans(scanner, chunks, budget, 0) == [];
    var end := FoldItems(ScanStep(scanner), [], ToScan(chunks, budget));
    assert |Scans(scanner, chunks, budget, 0)| == 0;
    assert Flatten([end.acc]) == [] + end.acc;
  }

  /**
   * In every run, on any number of workers: the scans, sorted by their chunks and
   * merged, are one scan of the first `budget` features; or the failure is that of
   * the first chunk that cannot be scanned.
   */
  lemma {:induction false} SampleIsScanned<F(!new), O, E>(scanner: Scanner<F, O, E>, chunks: seq<Taken<F>>, budget: nat,
                                                          threads: nat, acts: seq<Action>,
                                                          sorted: seq<(nat, Scan<O, E>)>)
    requires AllChunks(chunks) && threads > 0 && Homomorphic(scanner)
    requires After(ScanFold(scanner, chunks, budget, threads), acts).Some?
    requires AllEnded(After(ScanFold(scanner, chunks, budget, threads), acts).value.workers)
    requires ByPlace(sorted)
    requires multiset(sorted) == multiset(Flatten(After(ScanFold(scanner, chunks, budget, threads), acts).value.accs))
    ensures IsOneScan(scanner, chunks, budget, Merged(scanner, sorted))
  {
    WorkersScan(scanner, chunks, budget, threads, acts);
    var s := After(ScanFold(scanner, chunks, budget, threads), acts).value;
    SampleIsOneScan(scanner, chunks, budget, |s.input.log|, s.accs, sorted);
  }

  /** And so it is on one thread. */
  lemma OneThreadIsScanned<F(!new), O, E>(scanner: Scanner<F, O, E>, chunks: seq<Taken<F>>, budget: nat,
                                          sorted: seq<(nat, Scan<O, E>)>)
    requires AllChunks(chunks) && Homomorphic(scanner) && ByPlace(sorted)
    requires var end := FoldItems(ScanStep(scanner), [], ToScan(chunks, budget));
             !end.Panic? ==> multiset(sorted) == multiset(end.acc)
    ensures IsOneScan(scanner, chunks, budget, Merged(scanner, sorted))
  {
    var end := FoldItems(ScanStep(scanner), [], ToScan(chunks, budget));
    var n := OneWorkerScans(scanner, chunks, budget);
    FlattenFirst(end.acc, true);
    SampleIsOneScan(scanner, chunks, budget, n, [end.acc], sorted);
  }
}

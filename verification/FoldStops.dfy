/**
 * A fold that stops (crates/xeibe-core/src/parallel.rs:526-575): once a worker that broke off
 * or panicked has ended, the others take no more than they are taking already.
 */
module FoldStops {
  import opened Basics
  import opened TakeInput
  import opened PoolInvariants
  import opened Fold

  /** Who did not go on after an item, and has ended, has told the others. */
  ghost predicate Told<T, A>(c: Folding<T, A>, s: State<T, A>)
    requires Fits(c, s)
  {
    forall k :: 0 <= k < |s.who| && HasBroken(c, s, k) ==> s.stop
  }

  /** The worker of the item did not go on after it, and has ended. */
  ghost predicate HasBroken<T, A>(c: Folding<T, A>, s: State<T, A>, k: nat)
    requires Fits(c, s) && k < |s.who|
  {
    s.who[k] < |s.workers| && s.workers[s.who[k]].Ended? && !Gave(c, s.input.log, s.who, k).Continue?
  }

  lemma {:induction false} TakenTold<T, A>(c: Folding<T, A>, s: State<T, A>, w: nat, r: Step<T>)
    requires FoldInv(c, s) && Told(c, s) && w < |s.workers| && s.workers[w].Taking?
    requires Outcomes(s.input, w, r) && Fits(c, Taken(s, w, r))
    ensures Told(c, Taken(s, w, r))
  {
    var t := Taken(s, w, r);
    assert FolderOk(c, s, w);
    forall k | 0 <= k < |t.who| && HasBroken(c, t, k) ensures t.stop {
      if k < |s.who| {
        GaveSame(c, s.input.log, s.who, t.input.log, t.who, k);
        assert s.who[k] != w ==> HasBroken(c, s, k);
      }
    }
  }

  lemma {:induction false} LocalTold<T, A>(c: Folding<T, A>, s: State<T, A>, w: nat, help: Help)
    requires Fits(c, s) && Told(c, s) && CanGo(c, s, w, help) && !s.workers[w].Taking? && Fits(c, Go(c, s, w, help))
    ensures Told(c, Go(c, s, w, help))
  {
    var t := Go(c, s, w, help);
    assert t.input.log == s.input.log && t.who == s.who;
    forall k | 0 <= k < |t.who| && HasBroken(c, t, k) ensures t.stop {
      assert s.who[k] != w ==> HasBroken(c, s, k);
    }
  }

  lemma {:induction false} GoTold<T, A>(c: Folding<T, A>, s: State<T, A>, w: nat, help: Help)
    requires FoldInv(c, s) && Told(c, s) && CanGo(c, s, w, help) && Fits(c, Go(c, s, w, help))
    ensures Told(c, Go(c, s, w, help))
  {
    if s.workers[w].Taking? {
      StepOutcomes(c.take, s.input, w, help);
      TakenTold(c, s, w, Advance(c.take, s.input, w, help));
    } else {
      LocalTold(c, s, w, help);
    }
  }

  /** In every run, a worker that broke off or panicked has raised the stop by the time it has ended. */
  lemma {:induction false} BreakStops<T, A>(c: Folding<T, A>, acts: seq<Action>)
    requires After(c, acts).Some?
    ensures Fits(c, After(c, acts).value) && Told(c, After(c, acts).value)
  {
    Reached(c, acts);
    if acts != [] {
      var before, last := acts[..|acts| - 1], acts[|acts| - 1];
      BreakStops(c, before);
      Reached(c, before);
      GoTold(c, After(c, before).value, last.worker, last.help);
    }
  }

  // ---- after the stop ------------------------------------------------------------------------------

  function Takes(worker: Folder): nat {
    if worker.Taking? then 1 else 0
  }

  /** The items numbered, and those that may still be. */
  ghost function Reach<T, A>(s: State<T, A>): nat {
    |s.input.log| + Total(s.workers, Takes)
  }

  lemma {:induction false} TakenReach<T, A>(c: Folding<T, A>, s: State<T, A>, w: nat, r: Step<T>)
    requires Fits(c, s) && w < |s.workers| && s.workers[w].Taking? && Outcomes(s.input, w, r)
    ensures Reach(Taken(s, w, r)) <= Reach(s)
  {
    var t := Taken(s, w, r);
    TotalUpdate(s.workers, w, t.workers[w], Takes);
    assert t.workers == s.workers[w := t.workers[w]];
  }

  lemma {:induction false} GoReach<T, A>(c: Folding<T, A>, s: State<T, A>, w: nat, help: Help)
    requires FoldInv(c, s) && CanGo(c, s, w, help) && s.stop
    ensures Go(c, s, w, help).stop && Reach(Go(c, s, w, help)) <= Reach(s)
  {
    if s.workers[w].Taking? {
      StepOutcomes(c.take, s.input, w, help);
      TakenReach(c, s, w, Advance(c.take, s.input, w, help));
    } else {
      TotalUpdate(s.workers, w, Go(c, s, w, help).workers[w], Takes);
    }
  }

  /** However the run goes on after the stop, each worker numbers at most the item it is taking then. */
  lemma {:induction false} FewAfterStop<T, A>(c: Folding<T, A>, before: seq<Action>, more: seq<Action>)
    requires After(c, before).Some? && After(c, before).value.stop && After(c, before + more).Some?
    ensures After(c, before + more).value.stop
    ensures Reach(After(c, before + more).value) <= Reach(After(c, before).value)
    decreases |more|
  {
    if more == [] {
      assert before + more == before;
    } else {
      var n := |more| - 1;
      var s := LastAction(c, before + more[..n], more[n], before + more);
      FewAfterStop(c, before, more[..n]);
      GoReach(c, s, more[n].worker, more[n].help);
    }
  }

  lemma {:induction false} LastAction<T, A>(c: Folding<T, A>, acts: seq<Action>, a: Action, all: seq<Action>)
    returns (s: State<T, A>)
    requires all == acts + [a] && After(c, all).Some?
    ensures After(c, acts) == Some(s) && FoldInv(c, s) && CanGo(c, s, a.worker, a.help)
    ensures After(c, all).value == Go(c, s, a.worker, a.help)
  {
    assert all[..|all| - 1] == acts;
    Reached(c, acts);
    s := After(c, acts).value;
  }
}

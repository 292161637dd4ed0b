/**
 * Every run of a `fold` comes to an end: apart from the helper's work, every step
 * brings it closer, and a run that can't go on has ended every worker.
 */
module FoldTermination {
  import opened Basics
  import opened TakeInput
  import opened TakeRank
  import opened PoolInvariants
  import opened PoolTermination
  import opened Fold

  function FolderRank(n: nat, folder: Folder): nat {
    match folder
    case Ended(_) => 0
    case Stopping(_) => 1
    case Taking => 2
    case Ready => n + 10
    case Stepping(_) => n + 11
  }

  function FolderWeigh(n: nat): Folder -> nat {
    (folder: Folder) => FolderRank(n, folder)
  }

  ghost function FoldRank<T, A>(c: Folding<T, A>, s: Fold.State<T, A>): nat
    requires Fold.Fits(c, s)
  {
    Times(Price(c.take), InputLeft(c.take, s.input))
    + TakerRanks(c.take, s.input, s.input.takers)
    + Total(s.workers, FolderWeigh(|c.take.streams|))
  }

  /** The helper found work. */
  predicate FoundWork<T, A>(c: Folding<T, A>, s: Fold.State<T, A>, w: nat, help: Help)
    requires Fold.Fits(c, s)
  {
    w < |s.workers| && s.workers[w].Taking? && Helped(s.input, w, help)
  }

  lemma InputPaysHere<T, A>(c: Folding<T, A>, s: Fold.State<T, A>, w: nat, r: Step<T>)
    requires Fold.Fits(c, s) && w < |s.workers| && s.workers[w].Taking? && Outcomes(s.input, w, r)
    requires Shape(c.take, r.input) && InputLeft(c.take, r.input) < InputLeft(c.take, s.input)
    requires Fold.Fits(c, Fold.Taken(s, w, r))
    ensures FoldRank(c, Fold.Taken(s, w, r)) < FoldRank(c, s)
  {
    var s' := Fold.Taken(s, w, r);
    TotalUpdate(s.workers, w, s'.workers[w], FolderWeigh(|c.take.streams|));
    assert s'.workers == s.workers[w := s'.workers[w]];
    Cheaper(Price(c.take), InputLeft(c.take, r.input), InputLeft(c.take, s.input));
    TakerRanksBound(c.take, r.input, r.input.takers);
  }

  lemma TakerPaysHere<T, A>(c: Folding<T, A>, s: Fold.State<T, A>, w: nat, r: Step<T>)
    requires Fold.Fits(c, s) && w < |s.workers| && s.workers[w].Taking? && Outcomes(s.input, w, r)
    requires Shape(c.take, r.input) && Spends(c.take, s.input, w, r)
    requires InputLeft(c.take, r.input) == InputLeft(c.take, s.input)
    requires Fold.Fits(c, Fold.Taken(s, w, r))
    ensures FoldRank(c, Fold.Taken(s, w, r)) < FoldRank(c, s)
  {
    var s' := Fold.Taken(s, w, r);
    TotalUpdate(s.workers, w, s'.workers[w], FolderWeigh(|c.take.streams|));
    assert s'.workers == s.workers[w := s'.workers[w]];
    TakerRanksUpdate(c.take, s.input, r.input, s.input.takers, w, r.input.takers[w]);
  }

  lemma TakingDescends<T, A>(c: Folding<T, A>, s: Fold.State<T, A>, w: nat, help: Help)
    requires FoldInv(c, s) && CanGo(c, s, w, help) && s.workers[w].Taking? && !Helped(s.input, w, help)
    ensures Fold.Fits(c, Go(c, s, w, help)) && FoldRank(c, Go(c, s, w, help)) < FoldRank(c, s)
  {
    GoKept(c, s, w, help);
    StepOutcomes(c.take, s.input, w, help);
    StepSpends(c.take, s.input, w, help);
    var r := Advance(c.take, s.input, w, help);
    if InputLeft(c.take, r.input) < InputLeft(c.take, s.input) {
      InputPaysHere(c, s, w, r);
    } else {
      TakerPaysHere(c, s, w, r);
    }
  }

  lemma ReadyDescends<T, A>(c: Folding<T, A>, s: Fold.State<T, A>, w: nat, help: Help)
    requires Fold.Fits(c, s) && CanGo(c, s, w, help) && s.workers[w].Ready?
    requires Fold.Fits(c, Go(c, s, w, help))
    ensures FoldRank(c, Go(c, s, w, help)) < FoldRank(c, s)
  {
    var s' := Go(c, s, w, help);
    TotalUpdate(s.workers, w, s'.workers[w], FolderWeigh(|c.take.streams|));
    if s'.workers[w].Taking? {
      TakerRanksUpdate(c.take, s.input, s'.input, s.input.takers, w, Helping);
      assert TakerRank(c.take, s.input, Outside) == 0;
    }
  }

  lemma StepDescends<T, A>(c: Folding<T, A>, s: Fold.State<T, A>, w: nat, help: Help)
    requires Fold.Fits(c, s) && CanGo(c, s, w, help) && (s.workers[w].Stepping? || s.workers[w].Stopping?)
    requires Fold.Fits(c, Go(c, s, w, help))
    ensures FoldRank(c, Go(c, s, w, help)) < FoldRank(c, s)
  {
    TotalUpdate(s.workers, w, Go(c, s, w, help).workers[w], FolderWeigh(|c.take.streams|));
  }

  /** Every step but the helper's work brings the end of the run closer. */
  lemma GoDescends<T, A>(c: Folding<T, A>, s: Fold.State<T, A>, w: nat, help: Help)
    requires FoldInv(c, s) && CanGo(c, s, w, help) && !FoundWork(c, s, w, help)
    ensures Fold.Fits(c, Go(c, s, w, help)) && FoldRank(c, Go(c, s, w, help)) < FoldRank(c, s)
  {
    GoKept(c, s, w, help);
    match s.workers[w]
    case Ready => ReadyDescends(c, s, w, help);
    case Taking => TakingDescends(c, s, w, help);
    case _ => StepDescends(c, s, w, help);
  }

  lemma MovedRank<T, A>(c: Folding<T, A>, s: Fold.State<T, A>, w: nat, taker: Taker<T>)
    requires Fold.Fits(c, s) && w < |s.workers| && (taker.Top? || taker == s.input.takers[w])
    requires Fold.Fits(c, s.(input := Goto(s.input, w, taker).input))
    ensures FoldRank(c, s.(input := Goto(s.input, w, taker).input)) <= FoldRank(c, s) + Setback(c.take)
  {
    var moved := Goto(s.input, w, taker).input;
    TakerRanksUpdate(c.take, s.input, moved, s.input.takers, w, taker);
    assert InputLeft(c.take, moved) == InputLeft(c.take, s.input);
  }

  /** The helper's work sets a run back by a bounded amount. */
  lemma HelpRises<T, A>(c: Folding<T, A>, s: Fold.State<T, A>, w: nat, help: Help)
    requires FoldInv(c, s) && CanGo(c, s, w, help) && FoundWork(c, s, w, help)
    ensures Fold.Fits(c, Go(c, s, w, help)) && FoldRank(c, Go(c, s, w, help)) <= FoldRank(c, s) + Setback(c.take)
  {
    GoKept(c, s, w, help);
    var taker := if s.input.takers[w].Helping? then Helping else Top;
    HelpedGoto(c.take, s.input, w, help);
    assert Go(c, s, w, help) == s.(input := Goto(s.input, w, taker).input);
    MovedRank(c, s, w, taker);
  }

  // ---- runs -----------------------------------------------------------------------------------------

  /** How often the helper found work. */
  ghost function TimesHelped<T, A>(c: Folding<T, A>, acts: seq<Fold.Action>): nat {
    if acts == [] then 0
    else
      var before, last := acts[..|acts| - 1], acts[|acts| - 1];
      TimesHelped(c, before) +
      match Fold.After(c, before)
      case None => 0
      case Some(s) => if Fold.Fits(c, s) && FoundWork(c, s, last.worker, last.help) then 1 else 0
  }

  lemma OneGo<T, A>(c: Folding<T, A>, s: Fold.State<T, A>, w: nat, help: Help)
    requires FoldInv(c, s) && CanGo(c, s, w, help)
    ensures Fold.Fits(c, Go(c, s, w, help))
    ensures 1 + FoldRank(c, Go(c, s, w, help))
            <= FoldRank(c, s) + if FoundWork(c, s, w, help) then Setback(c.take) + 1 else 0
  {
    if FoundWork(c, s, w, help) {
      HelpRises(c, s, w, help);
    } else {
      GoDescends(c, s, w, help);
    }
  }

  lemma {:induction false} HelpedStep<T, A>(c: Folding<T, A>, acts: seq<Fold.Action>, s: Fold.State<T, A>)
    requires acts != [] && Fold.Fits(c, s) && Fold.After(c, acts[..|acts| - 1]) == Some(s)
    ensures var last := acts[|acts| - 1];
            TimesHelped(c, acts)
            == TimesHelped(c, acts[..|acts| - 1]) + if FoundWork(c, s, last.worker, last.help) then 1 else 0
  {
  }

  lemma {:induction false} FoldRunBound<T, A>(c: Folding<T, A>, acts: seq<Fold.Action>, first: nat)
    requires Fold.After(c, acts).Some?
    requires Fold.Fits(c, Fold.Begin(c)) && first == FoldRank(c, Fold.Begin(c))
    ensures Fold.Fits(c, Fold.After(c, acts).value)
    ensures |acts| + FoldRank(c, Fold.After(c, acts).value) <= first + Times(Setback(c.take) + 1, TimesHelped(c, acts))
  {
    if acts != [] {
      var before := acts[..|acts| - 1];
      var helped := LastGo(c, acts);
      FoldRunBound(c, before, first);
      Bound(|acts|, FoldRank(c, Fold.After(c, before).value), FoldRank(c, Fold.After(c, acts).value), first,
            Setback(c.take) + 1, TimesHelped(c, before), TimesHelped(c, acts));
    }
  }

  /** What the last action of a run does to its rank. */
  lemma {:induction false} LastGo<T, A>(c: Folding<T, A>, acts: seq<Fold.Action>) returns (helped: bool)
    requires acts != [] && Fold.After(c, acts).Some?
    ensures Fold.After(c, acts[..|acts| - 1]).Some?
    ensures Fold.Fits(c, Fold.After(c, acts[..|acts| - 1]).value) && Fold.Fits(c, Fold.After(c, acts).value)
    ensures 1 + FoldRank(c, Fold.After(c, acts).value)
            <= FoldRank(c, Fold.After(c, acts[..|acts| - 1]).value) + if helped then Setback(c.take) + 1 else 0
    ensures TimesHelped(c, acts) == TimesHelped(c, acts[..|acts| - 1]) + if helped then 1 else 0
  {
    var s, last := Fold.After(c, acts[..|acts| - 1]).value, acts[|acts| - 1];
    Fold.Reached(c, acts[..|acts| - 1]);
    helped := FoundWork(c, s, last.worker, last.help);
    OneGo(c, s, last.worker, last.help);
    HelpedStep(c, acts, s);
  }

  /** The steps of a run are bounded by the rank it starts with and how often the helper found work. */
  lemma {:induction false} FoldsAreFinite<T, A>(c: Folding<T, A>, acts: seq<Fold.Action>)
    requires Fold.After(c, acts).Some?
    ensures Fold.Fits(c, Fold.Begin(c))
    ensures |acts| <= FoldRank(c, Fold.Begin(c)) + Times(Setback(c.take) + 1, TimesHelped(c, acts))
  {
    BeginOk(c);
    FoldRunBound(c, acts, FoldRank(c, Fold.Begin(c)));
  }
}

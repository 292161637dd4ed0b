/** Runs of the pool, put together step by step. */
module PoolRuns {
  import opened Basics
  import opened TakeInput
  import opened WorkerPool
  import opened PoolResults

  /** The actions lead to the state. */
  ghost predicate LeadsTo<T, R>(c: Options<T, R>, acts: seq<Action>, s: Pool<T, R>) {
    After(c, acts) == Some(s) && Fits(c, s)
  }

  /** The same, without what follows from it. */
  ghost predicate Comes<T, R>(c: Options<T, R>, acts: seq<Action>, s: Pool<T, R>) {
    After(c, acts) == Some(s)
  }

  lemma {:induction false} ComesFitting<T, R>(c: Options<T, R>, acts: seq<Action>, s: Pool<T, R>)
    requires c.Valid() && Comes(c, acts, s)
    ensures LeadsTo(c, acts, s)
  {
    Reached(c, acts);
  }

  lemma {:induction false} OneAction<T, R>(c: Options<T, R>, acts: seq<Action>, s: Pool<T, R>, a: Action,
                                           s': Pool<T, R>)
    returns (more: seq<Action>)
    requires c.Valid() && LeadsTo(c, acts, s) && Enabled(c, s, a) && s' == Apply(c, s, a)
    ensures LeadsTo(c, more, s')
  {
    more := acts + [a];
    assert more[..|more| - 1] == acts;
    Reached(c, more);
  }

  /** A worker outside `take` that is not about to wake another. */
  lemma {:induction false} Works<T, R>(c: Options<T, R>, acts: seq<Action>, s: Pool<T, R>, w: nat, s': Pool<T, R>)
    returns (more: seq<Action>)
    requires c.Valid() && LeadsTo(c, acts, s) && w < |s.workers| && MayWake(s.workers, None)
    requires || s.workers[w].Ready? || s.workers[w].Mapping? || s.workers[w].Sending?
             || s.workers[w].Returning? || s.workers[w].Owing?
    requires s' == WorkStep(c, s, w, Idle, None)
    ensures LeadsTo(c, more, s')
  {
    more := OneAction(c, acts, s, Work(w, Idle, None), s');
  }

  /** A worker inside `take`. */
  lemma {:induction false} Takes<T, R>(c: Options<T, R>, acts: seq<Action>, s: Pool<T, R>, w: nat, help: Help,
                                       s': Pool<T, R>)
    returns (more: seq<Action>)
    requires c.Valid() && LeadsTo(c, acts, s) && w < |s.workers| && s.workers[w].Taking?
    requires CanStep(c.take, s.input, w, help) && s' == TakeStep(s, w, Advance(c.take, s.input, w, help))
    ensures LeadsTo(c, more, s')
  {
    more := OneAction(c, acts, s, Work(w, help, None), s');
  }

  lemma StillNobodyAsleep<R>(workers: seq<Worker<R>>, w: nat, worker: Worker<R>)
    requires w < |workers| && MayWake(workers, None) && !worker.Asleep?
    ensures MayWake(workers[w := worker], None)
  {
  }

  /** A worker with a ticket is inside `take`, at its helper. */
  function AtHelper<T, R>(s: Pool<T, R>, w: nat): Pool<T, R>
    requires w < |s.workers| && w < |s.input.takers| && s.free > 0
  {
    s.(free := s.free - 1, workers := s.workers[w := Taking], input := s.input.(takers := s.input.takers[w := Helping]))
  }

  function AtTop<T, R>(s: Pool<T, R>, w: nat): Pool<T, R>
    requires w < |s.workers| && w < |s.input.takers| && s.free > 0
  {
    s.(free := s.free - 1, workers := s.workers[w := Taking], input := s.input.(takers := s.input.takers[w := Top]))
  }
}

/**
 * The objects of `PoolParts` do the steps of the pool: each method takes an object
 * that stands for a state to one that stands for the state after the step.
 */
module PoolRefines {
  import opened Basics
  import opened TakeInput
  import opened WorkerPool
  import opened PoolParts

  // ---- numbers ------------------------------------------------------------------------------------

  ghost predicate NumbersOf<T>(numbers: Numbers, s: Input<T>)
    reads numbers
  {
    numbers.next == |s.log| && numbers.stopped == s.stopped
  }

  /** An item is numbered as the input numbers it. */
  method NumberInput<T>(numbers: Numbers, ghost s: Input<T>, ghost item: T, ends: bool, ghost origin: Origin)
    returns (number: Option<nat>)
    requires NumbersOf(numbers, s)
    modifies numbers
    ensures number.None? <==> s.stopped
    ensures number.Some? ==> number.value == |s.log| && Numbered(s, item, ends, origin).log[number.value] == item
    ensures NumbersOf(numbers, if s.stopped then s else Numbered(s, item, ends, origin))
  {
    number := numbers.Number(ends);
  }

  // ---- tickets ------------------------------------------------------------------------------------

  ghost function Sleepers<R>(workers: seq<Worker<R>>): set<nat> {
    set w: nat | w < |workers| && workers[w].Asleep?
  }

  ghost predicate TicketsOf<T, R>(tickets: Tickets, s: Pool<T, R>)
    reads tickets
  {
    tickets.free == s.free && tickets.cancelled == s.cancelled && tickets.waiting == Sleepers(s.workers)
  }

  function AdmittedTo<R>(admission: Admission): Worker<R> {
    match admission
    case Admitted => Taking
    case Cancelled => Gone
    case Waits => Asleep
  }

  lemma OneSleeper<R>(workers: seq<Worker<R>>, w: nat, worker: Worker<R>)
    requires w < |workers|
    ensures Sleepers(workers[w := worker])
            == if worker.Asleep? then Sleepers(workers) + {w} else Sleepers(workers) - {w}
  {
  }

  lemma NobodyWaits<R>(workers: seq<Worker<R>>)
    requires Sleepers(workers) == {}
    ensures MayWake(workers, None)
  {
    forall v: nat | v < |workers| ensures !workers[v].Asleep? {
      assert v !in Sleepers(workers);
    }
  }

  /** A new pool's tickets. */
  method NewTickets<T, R>(c: Options<T, R>) returns (tickets: Tickets)
    ensures fresh(tickets) && TicketsOf(tickets, Begin(c))
  {
    tickets := new Tickets(c.take.threads, c.inFlight);
    assert Sleepers(Begin(c).workers) == {};
  }

  /** A worker at the tickets' lock. */
  method TakeTicketOf<T, R>(tickets: Tickets, ghost s: Pool<T, R>, w: nat) returns (admission: Admission)
    requires TicketsOf(tickets, s) && w < |s.workers| && w < |s.input.takers| && !s.workers[w].Asleep?
    modifies tickets
    ensures TicketsOf(tickets, TakeTicket(s, w)) && TakeTicket(s, w).workers[w] == AdmittedTo(admission)
  {
    OneSleeper(s.workers, w, TakeTicket(s, w).workers[w]);
    assert TakeTicket(s, w).workers == s.workers[w := TakeTicket(s, w).workers[w]];
    admission := tickets.Take(w);
  }

  /** A worker that found nothing gives its ticket back, and one that waits is woken. */
  method ReturnTicketOf<T, R>(tickets: Tickets, ghost s: Pool<T, R>, w: nat) returns (woken: Option<nat>)
    requires TicketsOf(tickets, s) && w < |s.workers| && s.workers[w].Returning?
    modifies tickets
    ensures var owing := s.(free := s.free + 1, workers := s.workers[w := Owing]);
            && MayWake(owing.workers, woken)
            && TicketsOf(tickets, owing.(workers := Woken(owing.workers, woken)[w := Gone]))
  {
    ghost var owing := s.workers[w := Owing];
    OneSleeper(s.workers, w, Owing);
    woken := tickets.Return();
    if woken.Some? {
      OneSleeper(owing, woken.value, Awake);
    } else {
      NobodyWaits(owing);
    }
    OneSleeper(Woken(owing, woken), w, Gone);
  }

  method CancelTicketsOf<T, R>(tickets: Tickets, ghost s: Pool<T, R>)
    requires TicketsOf(tickets, s)
    modifies tickets
    ensures TicketsOf(tickets, s.(cancelled := true, workers := AllWoken(s.workers), consumer := Dropped))
  {
    tickets.Cancel();
    assert Sleepers(AllWoken(s.workers)) == {};
  }

  // ---- the consumer -------------------------------------------------------------------------------

  ghost predicate ResultsOf<T, R>(results: Results<R>, c: Options<T, R>, s: Pool<T, R>)
    reads results
  {
    && results.Valid() && results.ordered == c.ordered
    && results.channel == s.channel && results.pending == s.pending && results.next == s.next
  }

  lemma LooksAtDue<T, R>(c: Options<T, R>, s: Pool<T, R>)
    requires Fits(c, s) && CanLook(c, s) && c.ordered && s.next in s.pending
    ensures var t := LookStep(c, s);
            && t.channel == s.channel && t.pending == s.pending - {s.next} && t.next == s.next + 1
            && t.consumer.Paying? && t.handed == s.handed + [(s.next, s.pending[s.next])]
  {
  }

  lemma LooksAhead<T, R>(c: Options<T, R>, s: Pool<T, R>)
    requires Fits(c, s) && CanLook(c, s) && c.ordered && s.next !in s.pending && s.channel != []
    ensures var t := LookStep(c, s);
            && t.channel == s.channel[1..] && t.pending == s.pending[s.channel[0].0 := s.channel[0].1]
            && t.next == s.next && !t.consumer.Paying?
  {
  }

  /** One look of `next`: a result that is due, or one more that came ahead. */
  method LookOf<T, R>(results: Results<R>, ghost c: Options<T, R>, ghost s: Pool<T, R>) returns (due: Option<R>)
    requires ResultsOf(results, c, s) && Fits(c, s) && CanLook(c, s) && c.ordered
    requires s.next in s.pending || s.channel != []
    modifies results
    ensures ResultsOf(results, c, LookStep(c, s))
    ensures due.Some? <==> LookStep(c, s).consumer.Paying?
    ensures due.Some? ==> LookStep(c, s).handed == s.handed + [(s.next, due.value)]
  {
    if s.next in s.pending {
      LooksAtDue(c, s);
    } else {
      LooksAhead(c, s);
    }
    if results.next in results.pending {
      due := Some(results.pending[results.next]);
      results.TakeDue();
    } else {
      results.Receive();
      due := None;
    }
  }
}

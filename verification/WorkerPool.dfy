/**
 * `ParallelMap` on its workers: tickets, the result channel and the consumer
 * (crates/xeibe-core/src/parallel.rs:578-813), as a transition system on top
 * of `TakeInput`. One step is one region under the tickets' lock, one channel
 * operation, one call of the mapped function, or one step inside `take`.
 */
module WorkerPool {
  import opened Basics
  import opened TakeInput

  datatype Options<!T, !R> = Options(take: Config<T>, f: T -> R, inFlight: nat, ordered: bool) {
    /** Several threads; in order, one stream at a time. */
    predicate Valid() {
      take.threads >= 1 && (ordered ==> take.maxOpen == 1)
    }

    function Tickets(): nat {
      Max(inFlight, take.threads)
    }
  }

  datatype Worker<+R> =
    // Before the tickets' lock; in `Condvar::wait`; woken, with the lock to take again.
    | Ready
    | Asleep
    | Awake
    | Taking
    | Mapping(number: nat)
    | Sending(number: nat, result: R)
    // `take` gave nothing: the ticket goes back, then one waiting worker is notified.
    | Returning
    | Owing
    | Gone

  datatype Consumer =
    // Between calls of `next`.
    | Resting
    // In `next`, at its loop's top.
    | Looking
    // A result in hand: its ticket goes back, then one waiting worker is notified.
    | Paying
    | Notifying
    // `next` returned `None`.
    | Finished
    // The map was dropped: cancelled first, then its receiver is gone.
    | Dropped
    | Closed

  /** Where the result of a numbered item is. */
  datatype Place = OnWorker(worker: nat) | InChannel | Buffered | Handed | Lost

  datatype Pool<+T, +R> = Pool(
    input: Input<T>,
    workers: seq<Worker<R>>,
    free: nat,
    cancelled: bool,
    channel: seq<(nat, R)>,
    pending: map<nat, R>,
    next: nat,
    consumer: Consumer,
    // What `next` has returned so far, with its numbers, and where each number is.
    handed: seq<(nat, R)>,
    place: seq<Place>)

  datatype Action =
    | Work(worker: nat, help: Help, wake: Option<nat>)
    // A wake-up of `Condvar::wait` that nothing notified.
    | Spurious(worker: nat)
    | Call
    | Look
    | Pay
    | Notify(wake: Option<nat>)
    | Drop
    | Close

  function Begin<T, R>(c: Options<T, R>): Pool<T, R> {
    Pool(Start(c.take), seq(c.take.threads, _ => Ready), c.Tickets(), false, [], map[], 0, Resting, [], [])
  }

  predicate Fits<T, R>(c: Options<T, R>, s: Pool<T, R>) {
    && Shape(c.take, s.input)
    && |s.workers| == c.take.threads
    && (forall w :: 0 <= w < |s.workers| ==> (s.workers[w].Taking? <==> !s.input.takers[w].Outside?))
    && |s.place| == |s.input.log|
    && (forall w :: 0 <= w < |s.workers| ==> Places(s, s.workers[w]))
    && (forall i :: 0 <= i < |s.channel| ==> s.channel[i].0 < |s.place|)
    && (forall k :: k in s.pending ==> k < |s.place|)
  }

  predicate Places<T, R>(s: Pool<T, R>, worker: Worker<R>) {
    match worker
    case Mapping(k) => k < |s.place|
    case Sending(k, _) => k < |s.place|
    case _ => true
  }

  // ---- the regions ------------------------------------------------------------------

  /** `notify_one`: some waiting worker wakes, if there is one. */
  predicate MayWake<R>(workers: seq<Worker<R>>, wake: Option<nat>) {
    match wake
    case Some(v) => v < |workers| && workers[v].Asleep?
    case None => forall v :: 0 <= v < |workers| ==> !workers[v].Asleep?
  }

  function Woken<R>(workers: seq<Worker<R>>, wake: Option<nat>): seq<Worker<R>>
    requires MayWake(workers, wake)
  {
    match wake
    case Some(v) => workers[v := Awake]
    case None => workers
  }

  /** `notify_all`. */
  function AllWoken<R>(workers: seq<Worker<R>>): (woken: seq<Worker<R>>)
    ensures |woken| == |workers|
    ensures forall v :: 0 <= v < |woken| ==> woken[v] == if workers[v].Asleep? then Awake else workers[v]
  {
    seq(|workers|, v requires 0 <= v < |workers| => if workers[v].Asleep? then Awake else workers[v])
  }

  /** `Shared::take_ticket`, from the lock to the next wait. */
  function TakeTicket<T, R>(s: Pool<T, R>, w: nat): Pool<T, R>
    requires w < |s.workers| && w < |s.input.takers|
  {
    if s.cancelled then s.(workers := s.workers[w := Gone])
    else if s.free > 0 then
      s.(free := s.free - 1, workers := s.workers[w := Taking], input := Enter(s.input, w))
    else s.(workers := s.workers[w := Asleep])
  }

  function TakeStep<T, R>(s: Pool<T, R>, w: nat, step: Step<T>): Pool<T, R>
    requires w < |s.workers|
  {
    match step.outcome
    case Going => s.(input := step.input)
    case Nothing => s.(input := step.input, workers := s.workers[w := Returning])
    case Got(k) =>
      s.(input := step.input, workers := s.workers[w := Mapping(k)], place := s.place + [OnWorker(w)])
  }

  function Send<T, R>(s: Pool<T, R>, w: nat, k: nat, result: R): Pool<T, R>
    requires w < |s.workers| && k < |s.place|
  {
    if s.consumer.Closed? then s.(workers := s.workers[w := Gone], place := s.place[k := Lost])
    else
      s.(workers := s.workers[w := Ready], channel := s.channel + [(k, result)], place := s.place[k := InChannel])
  }

  predicate CanWork<T, R>(c: Options<T, R>, s: Pool<T, R>, w: nat, help: Help, wake: Option<nat>)
    requires Fits(c, s)
  {
    && w < |s.workers|
    && !s.workers[w].Asleep? && !s.workers[w].Gone?
    && (s.workers[w].Taking? ==> CanStep(c.take, s.input, w, help))
    && (s.workers[w].Owing? ==> MayWake(s.workers, wake))
  }

  function WorkStep<T, R>(c: Options<T, R>, s: Pool<T, R>, w: nat, help: Help, wake: Option<nat>): Pool<T, R>
    requires Fits(c, s) && CanWork(c, s, w, help, wake)
  {
    match s.workers[w]
    case Ready => TakeTicket(s, w)
    case Awake => TakeTicket(s, w)
    case Taking => TakeStep(s, w, Advance(c.take, s.input, w, help))
    case Mapping(k) => s.(workers := s.workers[w := Sending(k, c.f(s.input.log[k]))])
    case Sending(k, result) => assert Places(s, s.workers[w]); Send(s, w, k, result)
    case Returning => s.(free := s.free + 1, workers := s.workers[w := Owing])
    case Owing => s.(workers := Woken(s.workers, wake)[w := Gone])
  }

  predicate AllGone<R>(workers: seq<Worker<R>>) {
    forall w :: 0 <= w < |workers| ==> workers[w].Gone?
  }

  /** In `next`: a buffered result is due, one can be received, or every sender is gone. */
  predicate CanLook<T, R>(c: Options<T, R>, s: Pool<T, R>) {
    s.consumer.Looking? && ((c.ordered && s.next in s.pending) || s.channel != [] || AllGone(s.workers))
  }

  function LookStep<T, R>(c: Options<T, R>, s: Pool<T, R>): Pool<T, R>
    requires Fits(c, s) && CanLook(c, s)
  {
    if c.ordered && s.next in s.pending then
      s.(pending := s.pending - {s.next}, next := s.next + 1, consumer := Paying,
         handed := s.handed + [(s.next, s.pending[s.next])], place := s.place[s.next := Handed])
    else if s.channel == [] then s.(consumer := Finished)
    else
      var (k, result) := s.channel[0];
      if c.ordered then
        s.(channel := s.channel[1..], pending := s.pending[k := result], place := s.place[k := Buffered])
      else
        s.(channel := s.channel[1..], consumer := Paying, handed := s.handed + [(k, result)],
           place := s.place[k := Handed])
  }

  predicate Enabled<T, R>(c: Options<T, R>, s: Pool<T, R>, a: Action)
    requires Fits(c, s)
  {
    match a
    case Work(w, help, wake) => CanWork(c, s, w, help, wake)
    case Spurious(w) => w < |s.workers| && s.workers[w].Asleep?
    case Call => s.consumer.Resting?
    case Look => CanLook(c, s)
    case Pay => s.consumer.Paying?
    case Notify(wake) => s.consumer.Notifying? && MayWake(s.workers, wake)
    case Drop => s.consumer.Resting?
    case Close => s.consumer.Dropped?
  }

  function Apply<T, R>(c: Options<T, R>, s: Pool<T, R>, a: Action): Pool<T, R>
    requires Fits(c, s) && Enabled(c, s, a)
  {
    match a
    case Work(w, help, wake) => WorkStep(c, s, w, help, wake)
    case Spurious(w) => s.(workers := s.workers[w := Awake])
    case Call => s.(consumer := Looking)
    case Look => LookStep(c, s)
    case Pay => s.(free := s.free + 1, consumer := Notifying)
    case Notify(wake) => s.(workers := Woken(s.workers, wake), consumer := Resting)
    case Drop => s.(cancelled := true, workers := AllWoken(s.workers), consumer := Dropped)
    case Close => s.(consumer := Closed)
  }
}

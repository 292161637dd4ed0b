/**
 * The input as the workers share it: `Input::take` and what it calls
 * (crates/xeibe-core/src/parallel.rs:245-482), as a transition system.
 *
 * One step is one lock-protected region or one read of an atomic. A worker
 * that is inside `take` is a `Taker`, its constructor the place it has reached
 * and its arguments the locals it carries from there. A stream is known by
 * its place in the input; a panic is an item like any other that ends the input.
 */
module TakeInput {
  import opened Basics
  import opened Streams

  datatype Config<!T> = Config(
    streams: seq<seq<T>>,
    tail: Tail<T>,
    ends: T -> bool,
    // The panic of the helper, if it can panic.
    helper: Option<T>,
    maxOpen: nat,
    threads: nat)
  {
    function Limit(): nat {
      if maxOpen == 0 then 1 else maxOpen
    }
  }

  datatype Taker<+T> =
    | Outside
    // The helper loop before the first look at the input.
    | Helping
    // The loop's top: `stopped` is read next, then `exhausted`, then the open streams.
    | Top
    | Running
    | Listing(exhausted: bool)
    // `try_lock` on the streams of the list as it was read.
    | Trying(exhausted: bool, open: seq<nat>, at: nat)
    | AllHeld(head: nat)
    | Opening
    // `lock(&head.state)`.
    | Blocking(head: nat)
    // The stream's lock is held: `next` comes next.
    | Holding(stream: nat)
    // Still held: the item is numbered next.
    | Drawn(stream: nat, item: T)
    // Still held: the stream has ended and leaves the open ones next, then it is let go.
    | Ending(stream: nat)
    | Leaving(stream: nat)
    // The stream was let go: the list's `ended` goes up next.
    | Closing

  /** Where a numbered item came from. */
  datatype Origin = FromStream(stream: nat, index: nat) | FromFinish | FromList | FromHelper

  datatype Input<+T> = Input(
    // `StreamList`
    started: nat,
    ended: nat,
    finished: bool,
    // The open streams, and the two flags read without a lock.
    open: seq<nat>,
    exhausted: bool,
    stopped: bool,
    // `Numbers`: the next number is `|log|`. The items numbered so far, and where they came from.
    log: seq<T>,
    origin: seq<Origin>,
    // Per stream: items drawn, `StreamState::done`, the worker holding its lock,
    // and the numbers its items were given.
    pos: seq<nat>,
    done: seq<bool>,
    owner: seq<Option<nat>>,
    nums: seq<seq<nat>>,
    takers: seq<Taker<T>>)

  /** What a step of a worker inside `take` leads to: on, out with a numbered item, or out with `None`. */
  datatype Outcome = Going | Got(number: nat) | Nothing

  datatype Step<+T> = Step(input: Input<T>, outcome: Outcome)

  /** A call of the helper: it did some work, had none, or panicked. */
  datatype Help = More | Idle | Panics

  function Start<T>(c: Config<T>): Input<T> {
    Input(0, 0, false, [], false, false, [], [],
          seq(|c.streams|, _ => 0), seq(|c.streams|, _ => false),
          seq(|c.streams|, _ => None), seq(|c.streams|, _ => []),
          seq(c.threads, _ => Outside))
  }

  // ---- the regions ----------------------------------------------------------

  function Goto<T>(s: Input<T>, w: nat, taker: Taker<T>): Step<T>
    requires w < |s.takers|
  {
    Step(s.(takers := s.takers[w := taker]), Going)
  }

  function Leave<T>(s: Input<T>, w: nat): Step<T>
    requires w < |s.takers|
  {
    Step(s.(takers := s.takers[w := Outside]), Nothing)
  }

  /** `Input::number`, when nothing has stopped the input. */
  function Numbered<T>(s: Input<T>, item: T, ends: bool, origin: Origin): Input<T> {
    s.(log := s.log + [item], origin := s.origin + [origin],
       stopped := s.stopped || ends, exhausted := s.exhausted || ends)
  }

  /** `take` returns the item just numbered. */
  function Emit<T>(s: Input<T>, w: nat, item: T, ends: bool, origin: Origin): Step<T>
    requires w < |s.takers|
  {
    Step(Numbered(s, item, ends, origin).(takers := s.takers[w := Outside]), Got(|s.log|))
  }

  /** `Input::fail` from the helper: `take` returns what it gives. */
  function Fail<T>(s: Input<T>, w: nat, panic: T): Step<T>
    requires w < |s.takers|
  {
    if s.stopped then Leave(s, w) else Emit(s, w, panic, true, FromHelper)
  }

  /** `Input::finish`, under the list's lock. */
  predicate Finishes<T>(s: Input<T>) {
    s.exhausted && s.ended >= s.started && !s.finished && !s.stopped
  }

  function Finish<T>(c: Config<T>, s: Input<T>, w: nat): Step<T>
    requires w < |s.takers|
  {
    if !Finishes(s) then Goto(s, w, Top)
    else
      var asked := s.(finished := true);
      match c.tail
      case Last(Some(item)) => Emit(asked, w, item, false, FromFinish)
      case _ => Goto(asked, w, Top)
  }

  /** `Input::open_next`, under the list's lock. */
  function OpenNext<T>(c: Config<T>, s: Input<T>, w: nat): Step<T>
    requires w < |s.takers|
  {
    if s.exhausted || |s.open| >= c.Limit() then Goto(s, w, Top)
    else if s.started < |c.streams| then
      Goto(s.(started := s.started + 1, open := s.open + [s.started]), w, Top)
    else
      match c.tail
      case Last(_) => Finish(c, s.(exhausted := true), w)
      case Broken(panic) =>
        if s.stopped then Goto(s, w, Top) else Emit(s, w, panic, true, FromList)
  }

  /** The start of `Input::pull` with the lock just taken: an ended stream is let go at once. */
  function Hold<T>(s: Input<T>, w: nat, i: nat): Step<T>
    requires w < |s.takers| && i < |s.done| && i < |s.owner|
  {
    if s.done[i] then Goto(s, w, Top)
    else Goto(s.(owner := s.owner[i := Some(w)]), w, Holding(i))
  }

  /** `stream.next()` under the stream's lock. */
  function Draw<T>(c: Config<T>, s: Input<T>, w: nat, i: nat): Step<T>
    requires w < |s.takers| && i < |c.streams| && i < |s.pos| && i < |s.done|
  {
    if s.pos[i] < |c.streams[i]| then
      Goto(s.(pos := s.pos[i := s.pos[i] + 1]), w, Drawn(i, c.streams[i][s.pos[i]]))
    else
      Goto(s.(done := s.done[i := true]), w, Ending(i))
  }

  /** The drawn item's number, under the numbers' lock; then the stream is let go. */
  function NumberDrawn<T>(c: Config<T>, s: Input<T>, w: nat, i: nat, item: T): Step<T>
    requires w < |s.takers| && i < |s.done| && i < |s.owner| && i < |s.nums|
  {
    var free := s.(owner := s.owner[i := None]);
    if s.stopped then Goto(free, w, Top)
    else
      var ends := c.ends(item);
      Emit(free.(done := s.done[i := s.done[i] || ends], nums := s.nums[i := s.nums[i] + [|s.log|]]),
           w, item, ends, FromStream(i, |s.nums[i]|))
  }

  function Without(open: seq<nat>, i: nat): (rest: seq<nat>)
    ensures forall j :: j in rest <==> j in open && j != i
    ensures |rest| <= |open|
  {
    if open == [] then [] else (if open[0] == i then [] else [open[0]]) + Without(open[1..], i)
  }

  // ---- one step of one worker -------------------------------------------------

  /** The indices a taker carries are streams of the input. */
  predicate Known<T>(s: Input<T>, taker: Taker<T>) {
    match taker
    case Trying(_, open, at) => at <= |open| <= |s.owner| && open != [] && forall j :: j in open ==> j < s.started
    case AllHeld(head) => head < s.started
    case Blocking(head) => head < s.started
    case Holding(i) => i < s.started
    case Drawn(i, _) => i < s.started
    case Ending(i) => i < s.started
    case Leaving(i) => i < s.started
    case _ => true
  }

  predicate Shape<T>(c: Config<T>, s: Input<T>) {
    && |s.takers| == c.threads
    && |s.origin| == |s.log|
    && |s.pos| == |s.done| == |s.owner| == |s.nums| == |c.streams|
    && s.started <= |c.streams| && |s.open| <= |c.streams|
    && (forall j :: j in s.open ==> j < s.started)
    && (forall w :: 0 <= w < |s.takers| ==> Known(s, s.takers[w]))
  }

  /** A worker waiting for a stream's lock can go on only when it is free; a helper that can't panic doesn't. */
  predicate CanStep<T>(c: Config<T>, s: Input<T>, w: nat, help: Help)
    requires Shape(c, s)
  {
    && w < |s.takers|
    && s.takers[w] != Outside
    && (s.takers[w].Blocking? ==> s.owner[s.takers[w].head] == None)
    && (help == Panics ==> c.helper.Some?)
  }

  function AfterHelp<T>(c: Config<T>, s: Input<T>, w: nat, help: Help, more: Taker<T>, idle: Taker<T>): Step<T>
    requires w < |s.takers| && (help == Panics ==> c.helper.Some?)
  {
    match help
    case More => Goto(s, w, more)
    case Idle => Goto(s, w, idle)
    case Panics => Fail(s, w, c.helper.value)
  }

  function TryNext<T>(c: Config<T>, s: Input<T>, w: nat, exhausted: bool, open: seq<nat>, at: nat): Step<T>
    requires Shape(c, s) && w < |s.takers| && s.takers[w] == Trying(exhausted, open, at)
  {
    if at == |open| then
      Goto(s, w, if !exhausted && |open| < c.Limit() then Opening else AllHeld(open[0]))
    else
      assert open[at] in open;
      if s.owner[open[at]].Some? then Goto(s, w, Trying(exhausted, open, at + 1))
      else Hold(s, w, open[at])
  }

  function Advance<T>(c: Config<T>, s: Input<T>, w: nat, help: Help): Step<T>
    requires Shape(c, s) && CanStep(c, s, w, help)
  {
    match s.takers[w]
    case Helping => AfterHelp(c, s, w, help, Helping, Top)
    case Top => if s.stopped then Leave(s, w) else Goto(s, w, Running)
    case Running => Goto(s, w, Listing(s.exhausted))
    case Listing(exhausted) =>
      if s.open != [] then Goto(s, w, Trying(exhausted, s.open, 0))
      else if exhausted then Leave(s, w) else Goto(s, w, Opening)
    case Trying(exhausted, open, at) => TryNext(c, s, w, exhausted, open, at)
    case AllHeld(head) => AfterHelp(c, s, w, help, Top, Blocking(head))
    case Opening => OpenNext(c, s, w)
    case Blocking(head) => Hold(s, w, head)
    case Holding(i) => Draw(c, s, w, i)
    case Drawn(i, item) => NumberDrawn(c, s, w, i, item)
    case Ending(i) => Goto(s.(open := Without(s.open, i)), w, Leaving(i))
    case Leaving(i) => Goto(s.(owner := s.owner[i := None]), w, Closing)
    case Closing => Finish(c, s.(ended := s.ended + 1), w)
  }

  /** A worker enters `take`. */
  function Enter<T>(s: Input<T>, w: nat): Input<T>
    requires w < |s.takers|
  {
    s.(takers := s.takers[w := Helping])
  }
}

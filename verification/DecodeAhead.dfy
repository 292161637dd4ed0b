/**
 * Decoding ahead of a reader (crates/xeibe-core/src/decode.rs:186-308): helpers
 * that queue decoded blocks and the reader that takes them, as a transition
 * system with one step a lock-protected region. The decoder's own step is
 * what `AheadDecoder.Decoder.NextBlock` promises.
 */
module DecodeAhead {
  import opened Basics
  import opened AheadDecoder

  datatype Helper<+E> =
    | Idle
    // The queue had room: `try_lock` on the decoder comes next.
    | Admitted
    // The decoder's lock is held: `block` comes next, then the block is queued, then the lock is let go.
    | Decoding
    | Carrying(block: Block<E>)
    | Leaving

  datatype Reading<+E> =
    // Between reads, or serving one from the block in hand.
    | Serving
    // The block in hand is used up: a queued one, if there is one.
    | Popping
    // `lock(&self.decoder)`, then the queue again, then `block`.
    | Waiting
    | Locked
    | Fetching
    // `None`: the end was read.
    | AtEnd

  datatype Thread = ByHelper(helper: nat) | ByReader

  datatype State<+E> = State(
    // What the decoder still gives.
    left: seq<Out<E>>,
    owner: Option<Thread>,
    queue: seq<Block<E>>,
    helpers: seq<Helper<E>>,
    reading: Reading<E>,
    current: seq<Byte>,
    // What `read` has returned so far.
    delivered: seq<Out<E>>)

  datatype Action<+E> =
    | Check(helper: nat)
    | TryLock(helper: nat)
    | Decode(helper: nat, block: Option<Block<E>>, left: seq<Out<E>>)
    | Push(helper: nat)
    | Release(helper: nat)
    | Serve(room: nat)
    | Pop
    | Lock
    | PopAgain
    | Fetch(block: Option<Block<E>>, left: seq<Out<E>>)

  function Outs<E>(block: Block<E>): seq<Out<E>> {
    match block
    case Bytes(bytes) => Bytewise(bytes)
    case Err(e) => [Failed(e)]
  }

  function QueueOuts<E>(queue: seq<Block<E>>): seq<Out<E>> {
    if queue == [] then [] else QueueOuts(queue[..|queue| - 1]) + Outs(queue[|queue| - 1])
  }

  /** Nothing is to come but an error. */
  predicate OnlyError<E>(left: seq<Out<E>>) {
    left == [] || (|left| == 1 && left[0].Failed?)
  }

  /** What `block` may give with `left` to come: a full block, unless the data ends with it. */
  predicate Decodes<E(==)>(left: seq<Out<E>>, block: Option<Block<E>>, after: seq<Out<E>>) {
    match block
    case None => left == [] == after
    case Some(Bytes(bytes)) =>
      && 0 < |bytes| <= AHEAD_BLOCK && (|bytes| < AHEAD_BLOCK ==> OnlyError(after))
      && left == Bytewise(bytes) + after
    case Some(Err(e)) => left == [Failed(e)] && after == []
  }

  /** The decoder's promise is this step. */
  method DecodesAsPromised<E(==)>(decoder: Decoder<E>) returns (block: Option<Block<E>>)
    requires decoder.Valid()
    modifies decoder, decoder.reader
    ensures decoder.Valid() && Decodes(old(decoder.Left()), block, decoder.Left())
  {
    block := decoder.NextBlock();
  }

  ghost predicate Enabled<E>(s: State<E>, a: Action<E>) {
    match a
    case Check(h) => h < |s.helpers| && s.helpers[h].Idle?
    case TryLock(h) => h < |s.helpers| && s.helpers[h].Admitted?
    case Decode(h, block, left) => h < |s.helpers| && s.helpers[h].Decoding? && Decodes(s.left, block, left)
    case Push(h) => h < |s.helpers| && s.helpers[h].Carrying?
    case Release(h) => h < |s.helpers| && s.helpers[h].Leaving?
    case Serve(_) => s.reading.Serving?
    case Pop => s.reading.Popping?
    case Lock => s.reading.Waiting? && s.owner.None?
    case PopAgain => s.reading.Locked?
    case Fetch(block, left) => s.reading.Fetching? && Decodes(s.left, block, left)
  }

  /** The reader has a block: its bytes are in hand, or its error is returned. */
  function Take<E>(s: State<E>, block: Block<E>): State<E> {
    match block
    case Bytes(bytes) => s.(current := bytes, reading := Serving)
    case Err(e) => s.(delivered := s.delivered + [Failed(e)], reading := Serving)
  }

  function Apply<E>(s: State<E>, a: Action<E>): State<E>
    requires Enabled(s, a)
  {
    match a
    case Check(h) => if |s.queue| >= AHEAD_BLOCKS then s else s.(helpers := s.helpers[h := Admitted])
    case TryLock(h) =>
      if s.owner.Some? then s.(helpers := s.helpers[h := Idle])
      else s.(helpers := s.helpers[h := Decoding], owner := Some(ByHelper(h)))
    case Decode(h, block, left) =>
      s.(left := left, helpers := s.helpers[h := match block case Some(b) => Carrying(b) case None => Leaving])
    case Push(h) => s.(queue := s.queue + [s.helpers[h].block], helpers := s.helpers[h := Leaving])
    case Release(h) => s.(helpers := s.helpers[h := Idle], owner := None)
    case Serve(room) =>
      if room == 0 then s
      else if s.current == [] then s.(reading := Popping)
      else
        var n := if room < |s.current| then room else |s.current|;
        s.(delivered := s.delivered + Bytewise(s.current[..n]), current := s.current[n..])
    case Pop => if s.queue == [] then s.(reading := Waiting) else Take(s.(queue := s.queue[1..]), s.queue[0])
    case Lock => s.(owner := Some(ByReader), reading := Locked)
    case PopAgain =>
      if s.queue == [] then s.(reading := Fetching)
      else Take(s.(queue := s.queue[1..], owner := None), s.queue[0])
    case Fetch(block, left) =>
      (match block
       case Some(b) => Take(s.(left := left, owner := None), b)
       case None => s.(left := left, owner := None, reading := AtEnd))
  }

  function Begin<E>(stream: seq<Out<E>>, helpers: nat): State<E> {
    State(stream, None, [], seq(helpers, _ => Idle), Serving, [], [])
  }

  // ---- what every step keeps ------------------------------------------------------------------

  predicate Holds<E>(helper: Helper<E>) {
    helper.Decoding? || helper.Carrying? || helper.Leaving?
  }

  /** The decoder's lock has one holder, and only the holder has a block in hand. */
  ghost predicate Locks<E>(s: State<E>) {
    && (forall h :: 0 <= h < |s.helpers| ==> (Holds(s.helpers[h]) <==> s.owner == Some(ByHelper(h))))
    && (s.reading.Locked? || s.reading.Fetching? <==> s.owner == Some(ByReader))
    && (s.owner.Some? && s.owner.value.ByHelper? ==> s.owner.value.helper < |s.helpers|)
  }

  /** A helper has decoded a block and not yet queued it. */
  predicate Carries<E>(s: State<E>) {
    && s.owner.Some? && s.owner.value.ByHelper? && s.owner.value.helper < |s.helpers|
    && s.helpers[s.owner.value.helper].Carrying?
  }

  function Carried<E>(s: State<E>): seq<Out<E>> {
    if Carries(s) then Outs(s.helpers[s.owner.value.helper].block) else []
  }

  /** Delivered, in hand, queued, carried and still to come: always the stream. */
  function Accounted<E>(s: State<E>): seq<Out<E>> {
    s.delivered + (Bytewise(s.current) + (QueueOuts(s.queue) + (Carried(s) + s.left)))
  }

  /** The helpers that may still queue a block. */
  function Active<E>(helpers: seq<Helper<E>>): nat {
    if helpers == [] then 0
    else
      var last := helpers[|helpers| - 1];
      Active(helpers[..|helpers| - 1]) + if last.Admitted? || last.Decoding? || last.Carrying? then 1 else 0
  }

  /** Blocks wait for the reader only up to the bound, counting those still to be queued. */
  predicate Bounded<E>(s: State<E>) {
    |s.queue| + Active(s.helpers) <= AHEAD_BLOCKS - 1 + |s.helpers|
  }

  ghost predicate Inv<E>(s: State<E>, stream: seq<Out<E>>) {
    && Locks(s) && Accounted(s) == stream && Bounded(s)
    && (s.current != [] ==> s.reading.Serving?)
    && (s.reading.Fetching? ==> s.queue == [])
    && (s.reading.AtEnd? ==> s.queue == [] && s.left == [] && !Carries(s))
  }

  lemma {:induction false} ActiveUpdate<E>(helpers: seq<Helper<E>>, h: nat, helper: Helper<E>)
    requires h < |helpers|
    ensures var was, now := helpers[h], helper;
            Active(helpers[h := helper]) + (if was.Admitted? || was.Decoding? || was.Carrying? then 1 else 0)
            == Active(helpers) + if now.Admitted? || now.Decoding? || now.Carrying? then 1 else 0
  {
    var before := helpers[..|helpers| - 1];
    if h < |before| {
      ActiveUpdate(before, h, helper);
      assert helpers[h := helper][..|helpers| - 1] == before[h := helper];
    } else {
      assert helpers[h := helper][..|helpers| - 1] == before;
    }
  }

  lemma {:induction false} ActiveAtMost<E>(helpers: seq<Helper<E>>)
    ensures Active(helpers) <= |helpers|
  {
    if helpers != [] {
      ActiveAtMost(helpers[..|helpers| - 1]);
    }
  }

  lemma QueueAppend<E>(queue: seq<Block<E>>, block: Block<E>)
    ensures QueueOuts(queue + [block]) == QueueOuts(queue) + Outs(block)
  {
    assert (queue + [block])[..|queue|] == queue;
  }

  lemma {:induction false} QueuePop<E>(queue: seq<Block<E>>)
    requires queue != []
    ensures QueueOuts(queue) == Outs(queue[0]) + QueueOuts(queue[1..])
  {
    if |queue| > 1 {
      var first, before, last := queue[0], queue[..|queue| - 1], queue[|queue| - 1];
      QueuePop(before);
      Middle(queue);
      QueueAppend(before[1..], last);
      Assoc(Outs(first), QueueOuts(before[1..]), Outs(last));
    } else {
      QueueAppend([], queue[0]);
      assert [] + [queue[0]] == queue && queue[1..] == [];
    }
  }

  lemma Middle<T>(items: seq<T>)
    requires |items| > 1
    ensures items[1..] == items[..|items| - 1][1..] + [items[|items| - 1]]
  {
  }

  lemma BeginInv<E>(stream: seq<Out<E>>, helpers: nat)
    ensures Inv(Begin(stream, helpers), stream)
  {
    NoneActive<E>(seq(helpers, _ => Idle));
    assert Accounted(Begin(stream, helpers)) == stream;
  }

  lemma {:induction false} NoneActive<E>(helpers: seq<Helper<E>>)
    requires forall h :: 0 <= h < |helpers| ==> helpers[h].Idle?
    ensures Active(helpers) == 0
  {
    if helpers != [] {
      NoneActive(helpers[..|helpers| - 1]);
    }
  }

  // ---- step by step -------------------------------------------------------------------------------

  lemma HelperKept<E>(s: State<E>, a: Action<E>, stream: seq<Out<E>>)
    requires Inv(s, stream) && Enabled(s, a) && (a.Check? || a.TryLock? || a.Release?)
    ensures Inv(Apply(s, a), stream)
  {
    var s' := Apply(s, a);
    var h := a.helper;
    if s' != s {
      ActiveUpdate(s.helpers, h, s'.helpers[h]);
      ActiveAtMost(s'.helpers);
    }
    assert Carried(s') == Carried(s);
  }

  lemma DecodeKept<E>(s: State<E>, h: nat, block: Option<Block<E>>, left: seq<Out<E>>, stream: seq<Out<E>>)
    requires Inv(s, stream) && Enabled(s, Decode(h, block, left))
    ensures Inv(Apply(s, Decode(h, block, left)), stream)
  {
    var s' := Apply(s, Decode(h, block, left));
    ActiveUpdate(s.helpers, h, s'.helpers[h]);
    assert Carried(s) == [];
    assert s.left == Carried(s') + left;
  }

  lemma PushKept<E>(s: State<E>, h: nat, stream: seq<Out<E>>)
    requires Inv(s, stream) && Enabled(s, Push(h))
    ensures Inv(Apply(s, Push(h)), stream)
  {
    ActiveUpdate(s.helpers, h, Leaving);
    PushAccounted(s, h);
  }

  lemma PushAccounted<E>(s: State<E>, h: nat)
    requires Locks(s) && Enabled(s, Push(h))
    ensures Accounted(Apply(s, Push(h))) == Accounted(s)
  {
    var s', block := Apply(s, Push(h)), s.helpers[h].block;
    var queued, held := QueueOuts(s.queue), Bytewise<E>(s.current);
    assert Holds(s.helpers[h]);
    QueueAppend(s.queue, block);
    Queued(queued, Outs(block), s.left);
    var before, after := queued + (Outs(block) + s.left), queued + Outs(block) + ([] + s.left);
    assert before == after;
    assert Accounted(s) == s.delivered + (held + before);
    assert Accounted(s') == s.delivered + (held + after);
  }

  lemma Queued<T>(queue: seq<T>, carried: seq<T>, left: seq<T>)
    ensures queue + (carried + left) == queue + carried + ([] + left)
  {
    assert [] + left == left;
    Assoc(queue, carried, left);
  }

  lemma ServeKept<E>(s: State<E>, room: nat, stream: seq<Out<E>>)
    requires Inv(s, stream) && Enabled(s, Serve(room))
    ensures Inv(Apply(s, Serve(room)), stream)
  {
    var s' := Apply(s, Serve(room));
    if room > 0 && s.current != [] {
      var n := if room < |s.current| then room else |s.current|;
      assert s.current[..n] + s.current[n..] == s.current;
      BytewiseConcat<E>(s.current[..n], s.current[n..]);
      Regroup(s.delivered, Bytewise(s.current[..n]), Bytewise(s.current[n..]),
              QueueOuts(s.queue) + (Carried(s) + s.left));
    }
    assert Carried(s') == Carried(s);
  }

  lemma Regroup<T>(a: seq<T>, b: seq<T>, c: seq<T>, d: seq<T>)
    ensures a + b + (c + d) == a + (b + c + d)
  {
  }

  /** The reader takes a block that is next in turn. */
  lemma TakeKept<E>(s: State<E>, block: Block<E>, stream: seq<Out<E>>)
    requires s.current == [] && stream == s.delivered + (Outs(block) + (QueueOuts(s.queue) + (Carried(s) + s.left)))
    ensures Accounted(Take(s, block)) == stream
  {
    var rest := QueueOuts(s.queue) + (Carried(s) + s.left);
    var s' := Take(s, block);
    assert Carried(s') == Carried(s);
    match block
    case Bytes(bytes) =>
    case Err(e) =>
      assert Bytewise<E>([]) == [] && [] + rest == rest;
      Assoc(s.delivered, [Failed(e)], rest);
  }

  lemma Popped<E>(s: State<E>, owner: Option<Thread>, stream: seq<Out<E>>)
    requires Accounted(s) == stream && s.current == [] && s.queue != []
    requires Carried(s.(owner := owner)) == Carried(s)
    ensures Accounted(Take(s.(queue := s.queue[1..], owner := owner), s.queue[0])) == stream
  {
    var t := s.(queue := s.queue[1..], owner := owner);
    QueuePop(s.queue);
    var rest := Carried(s) + s.left;
    Assoc(Outs(s.queue[0]), QueueOuts(t.queue), rest);
    assert Bytewise<E>([]) == [] && [] + (QueueOuts(s.queue) + rest) == QueueOuts(s.queue) + rest;
    assert Carried(t) == Carried(s);
    TakeKept(t, s.queue[0], stream);
  }

  lemma PopKept<E>(s: State<E>, a: Action<E>, stream: seq<Out<E>>)
    requires Inv(s, stream) && Enabled(s, a) && (a.Pop? || a.PopAgain? || a.Lock?)
    ensures Inv(Apply(s, a), stream)
  {
    if !a.Lock? && s.queue != [] {
      Popped(s, if a.Pop? then s.owner else None, stream);
    } else {
      assert Carried(Apply(s, a)) == Carried(s);
    }
  }

  lemma FetchKept<E>(s: State<E>, block: Option<Block<E>>, left: seq<Out<E>>, stream: seq<Out<E>>)
    requires Inv(s, stream) && Enabled(s, Fetch(block, left))
    ensures Inv(Apply(s, Fetch(block, left)), stream)
  {
    var t := s.(left := left, owner := None);
    assert Carried(s) == [] == Carried(t);
    match block
    case None => assert Carried(Apply(s, Fetch(block, left))) == [];
    case Some(b) =>
      assert Bytewise<E>([]) == [] && QueueOuts<E>([]) == [];
      assert [] + ([] + ([] + s.left)) == s.left;
      assert s.left == Outs(b) + left && Outs(b) + left == Outs(b) + ([] + ([] + left));
      TakeKept(t, b, stream);
  }

  lemma StepKept<E>(s: State<E>, a: Action<E>, stream: seq<Out<E>>)
    requires Inv(s, stream) && Enabled(s, a)
    ensures Inv(Apply(s, a), stream)
  {
    match a
    case Decode(h, block, left) => DecodeKept(s, h, block, left, stream);
    case Push(h) => PushKept(s, h, stream);
    case Serve(room) => ServeKept(s, room, stream);
    case Fetch(block, left) => FetchKept(s, block, left, stream);
    case Pop => PopKept(s, a, stream);
    case PopAgain => PopKept(s, a, stream);
    case Lock => PopKept(s, a, stream);
    case _ => HelperKept(s, a, stream);
  }

  // ---- runs ---------------------------------------------------------------------------------------

  /** The state after the actions; `None` if one of them cannot happen. */
  ghost function After<E>(stream: seq<Out<E>>, helpers: nat, acts: seq<Action<E>>): Option<State<E>> {
    if acts == [] then Some(Begin(stream, helpers))
    else
      match After(stream, helpers, acts[..|acts| - 1])
      case None => None
      case Some(s) => if Enabled(s, acts[|acts| - 1]) then Some(Apply(s, acts[|acts| - 1])) else None
  }

  lemma {:induction false} Reached<E>(stream: seq<Out<E>>, helpers: nat, acts: seq<Action<E>>)
    requires After(stream, helpers, acts).Some?
    ensures Inv(After(stream, helpers, acts).value, stream)
    ensures |After(stream, helpers, acts).value.helpers| == helpers
  {
    if acts == [] {
      BeginInv(stream, helpers);
    } else {
      Reached(stream, helpers, acts[..|acts| - 1]);
      StepKept(After(stream, helpers, acts[..|acts| - 1]).value, acts[|acts| - 1], stream);
    }
  }

  /**
   * Decoding ahead is transparent: whatever the threads do, the reader has got a
   * prefix of the stream, and at its end all of it, an error after the data before it.
   */
  lemma {:induction false} Transparent<E>(stream: seq<Out<E>>, helpers: nat, acts: seq<Action<E>>)
    requires After(stream, helpers, acts).Some?
    ensures var s := After(stream, helpers, acts).value;
            && s.delivered <= stream
            && (s.reading.AtEnd? ==> s.delivered == stream)
  {
    Reached(stream, helpers, acts);
    var s := After(stream, helpers, acts).value;
    if s.reading.AtEnd? {
      assert s.current == [] && Bytewise<E>([]) == [] && QueueOuts<E>([]) == [];
      assert s.delivered + ([] + ([] + ([] + []))) == s.delivered;
    }
  }

  /** The queue is never longer than its limit, less one, and the helpers. */
  lemma {:induction false} QueueBound<E>(stream: seq<Out<E>>, helpers: nat, acts: seq<Action<E>>)
    requires After(stream, helpers, acts).Some?
    ensures |After(stream, helpers, acts).value.queue| <= 16 - 1 + helpers
  {
    Reached(stream, helpers, acts);
  }

  /** A reader that waits for the decoder waits for a helper that can go on. */
  lemma NoDeadlock<E>(s: State<E>, stream: seq<Out<E>>) returns (h: nat)
    requires Inv(s, stream) && s.reading.Waiting? && s.owner.Some?
    ensures h < |s.helpers| && s.owner == Some(ByHelper(h))
    ensures s.helpers[h].Decoding? || Enabled(s, Push(h)) || Enabled(s, Release(h))
  {
    h := s.owner.value.helper;
    assert Holds(s.helpers[h]);
  }

  // ---- the bound is met -----------------------------------------------------------------------------

  lemma {:induction false} Step<E>(stream: seq<Out<E>>, helpers: nat, acts: seq<Action<E>>, s: State<E>, a: Action<E>)
    requires After(stream, helpers, acts) == Some(s) && Enabled(s, a)
    ensures After(stream, helpers, acts + [a]) == Some(Apply(s, a))
  {
    assert (acts + [a])[..|acts|] == acts;
  }

  /** A full block. */
  const BLOCK: Block<int> := Bytes(Zeros())

  function Zeros(): (bytes: seq<Byte>)
    ensures |bytes| == AHEAD_BLOCK
  {
    seq(AHEAD_BLOCK, _ => 0)
  }

  /** A stream of full blocks. */
  function Blocks(n: nat): seq<Out<int>> {
    if n == 0 then [] else Outs(BLOCK) + Blocks(n - 1)
  }

  /** An admitted helper decodes and queues a block. */
  lemma {:induction false} QueuesOne(stream: seq<Out<int>>, helpers: nat, acts: seq<Action<int>>, s: State<int>, h: nat,
                                     n: nat)
    returns (more: seq<Action<int>>)
    requires After(stream, helpers, acts) == Some(s) && h < |s.helpers| && s.helpers[h].Admitted? && s.owner.None?
    requires s.left == Blocks(n + 1)
    ensures After(stream, helpers, more)
            == Some(s.(queue := s.queue + [BLOCK], left := Blocks(n), helpers := s.helpers[h := Idle]))
  {
    var decode := Decode(h, Some(BLOCK), Blocks(n));
    more := acts + [TryLock(h)];
    Step(stream, helpers, acts, s, TryLock(h));
    var s1 := Apply(s, TryLock(h));
    Step(stream, helpers, more, s1, decode);
    more := more + [decode];
    var s2 := Apply(s1, decode);
    Step(stream, helpers, more, s2, Push(h));
    more := more + [Push(h)];
    var s3 := Apply(s2, Push(h));
    Step(stream, helpers, more, s3, Release(h));
    more := more + [Release(h)];
    assert s.helpers[h := Decoding][h := Carrying(BLOCK)][h := Leaving][h := Idle] == s.helpers[h := Idle];
  }

  function Waits(admitted: nat, helpers: nat): (all: seq<Helper<int>>)
    requires admitted <= helpers
    ensures |all| == helpers
  {
    seq(helpers, h => if h < admitted then Admitted else Idle)
  }

  /** One helper alone fills the queue up to its limit, less one. */
  lemma {:induction false} Fills(stream: seq<Out<int>>, helpers: nat, n: nat, m: nat) returns (acts: seq<Action<int>>)
    requires helpers > 0 && n < AHEAD_BLOCKS && n <= m && stream == Blocks(m)
    ensures After(stream, helpers, acts)
            == Some(Begin(stream, helpers).(queue := seq(n, _ => BLOCK), left := Blocks(m - n)))
  {
    if n == 0 {
      acts := [];
      assert seq(0, _ => BLOCK) == [];
    } else {
      acts := Fills(stream, helpers, n - 1, m);
      var s := After(stream, helpers, acts).value;
      Step(stream, helpers, acts, s, Check(0));
      acts := acts + [Check(0)];
      acts := QueuesOne(stream, helpers, acts, Apply(s, Check(0)), 0, m - n);
      assert s.helpers[0 := Admitted][0 := Idle] == s.helpers;
      assert s.queue + [BLOCK] == seq(n, _ => BLOCK);
    }
  }

  /** All helpers find room before any of them queues a block. */
  lemma {:induction false} AllAdmitted(stream: seq<Out<int>>, helpers: nat, acts: seq<Action<int>>, s: State<int>,
                                       k: nat)
    returns (more: seq<Action<int>>)
    requires After(stream, helpers, acts) == Some(s) && s.helpers == Waits(0, helpers)
    requires |s.queue| < AHEAD_BLOCKS && k <= helpers
    ensures After(stream, helpers, more) == Some(s.(helpers := Waits(k, helpers)))
  {
    if k == 0 {
      more := acts;
    } else {
      more := AllAdmitted(stream, helpers, acts, s, k - 1);
      Step(stream, helpers, more, s.(helpers := Waits(k - 1, helpers)), Check(k - 1));
      more := more + [Check(k - 1)];
      assert Waits(k - 1, helpers)[k - 1 := Admitted] == Waits(k, helpers);
    }
  }

  /** The first `k` helpers wait for the decoder, with a block left for each of them. */
  ghost predicate Queueing(s: State<int>, k: nat, helpers: nat) {
    s.owner.None? && k <= helpers && s.helpers == Waits(k, helpers) && s.left == Blocks(k)
  }

  ghost predicate Reaches(stream: seq<Out<int>>, helpers: nat, acts: seq<Action<int>>, s: State<int>) {
    After(stream, helpers, acts) == Some(s)
  }

  lemma {:induction false} NextQueues(stream: seq<Out<int>>, helpers: nat, acts: seq<Action<int>>, s: State<int>,
                                      k: nat)
    returns (more: seq<Action<int>>, queued: State<int>)
    requires Reaches(stream, helpers, acts, s) && k > 0 && Queueing(s, k, helpers)
    ensures Reaches(stream, helpers, more, queued)
    ensures Queueing(queued, k - 1, helpers) && |queued.queue| == |s.queue| + 1
  {
    more := QueuesOne(stream, helpers, acts, s, k - 1, k - 1);
    OneWaitsLess(k, helpers);
    queued := s.(queue := s.queue + [BLOCK], left := Blocks(k - 1), helpers := Waits(k - 1, helpers));
  }

  lemma {:induction false} AllQueue(stream: seq<Out<int>>, helpers: nat, acts: seq<Action<int>>, s: State<int>, k: nat)
    returns (more: seq<Action<int>>, queued: State<int>)
    requires Reaches(stream, helpers, acts, s) && Queueing(s, k, helpers)
    ensures Reaches(stream, helpers, more, queued) && |queued.queue| == |s.queue| + k
    decreases k
  {
    if k == 0 {
      more, queued := acts, s;
    } else {
      more, queued := NextQueues(stream, helpers, acts, s, k);
      more, queued := AllQueue(stream, helpers, more, queued, k - 1);
    }
  }

  lemma {:induction false} OneWaitsLess(k: nat, helpers: nat)
    requires 0 < k <= helpers
    ensures Waits(k, helpers)[k - 1 := Idle] == Waits(k - 1, helpers)
  {
  }

  /** With any number of helpers, some run makes the queue as long as `QueueBound` allows, of full blocks. */
  lemma {:induction false} QueueBoundIsMet(helpers: nat) returns (stream: seq<Out<int>>, acts: seq<Action<int>>)
    requires helpers > 0
    ensures After(stream, helpers, acts).Some?
    ensures |After(stream, helpers, acts).value.queue| == 16 - 1 + helpers
    ensures stream == Blocks(16 - 1 + helpers) && |Outs(BLOCK)| == 256 * 1024
  {
    var full := AHEAD_BLOCKS - 1;
    stream := Blocks(full + helpers);
    acts := Fills(stream, helpers, full, full + helpers);
    var s := After(stream, helpers, acts).value;
    assert s.helpers == Waits(0, helpers);
    acts := AllAdmitted(stream, helpers, acts, s, helpers);
    var queued;
    acts, queued := AllQueue(stream, helpers, acts, After(stream, helpers, acts).value, helpers);
  }
}

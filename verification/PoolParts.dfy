/**
 * The shared objects of the pool, one method a critical section: the numbers,
 * the tickets and the consumer's reorder buffer
 * (crates/xeibe-core/src/parallel.rs:464-481, 610-660, 776-809).
 */
module PoolParts {
  import opened Basics

  /** `Numbers`: the items of the input are numbered until one ends it. */
  class Numbers {
    var next: nat
    var stopped: bool

    constructor ()
      ensures next == 0 && !stopped
    {
      next, stopped := 0, false;
    }

    /** `Input::number`. */
    method Number(ends: bool) returns (number: Option<nat>)
      modifies this
      ensures number == if old(stopped) then None else Some(old(next))
      ensures next == if old(stopped) then old(next) else old(next) + 1
      ensures stopped <==> old(stopped) || ends
    {
      if stopped {
        return None;
      }
      number := Some(next);
      next := next + 1;
      if ends {
        stopped := true;
      }
    }
  }

  /**
   * A run of calls, `asked[i]` for an item that ends the input or not: the numbers
   * have no gap, and none comes after the first that ends the input.
   */
  method NumberAll(numbers: Numbers, asked: seq<bool>) returns (given: seq<Option<nat>>)
    requires numbers.next == 0 && !numbers.stopped
    modifies numbers
    ensures |given| == |asked|
    ensures forall i :: 0 <= i < |asked| ==>
              given[i] == if exists j :: 0 <= j < i && asked[j] then None else Some(i)
  {
    given := [];
    for i := 0 to |asked|
      invariant |given| == i
      invariant numbers.stopped <==> exists j :: 0 <= j < i && asked[j]
      invariant !numbers.stopped ==> numbers.next == i
      invariant forall k :: 0 <= k < i ==> given[k] == if exists j :: 0 <= j < k && asked[j] then None else Some(k)
    {
      var number := numbers.Number(asked[i]);
      given := given + [number];
    }
  }

  /** What a worker at the tickets' lock comes to: a ticket, the end, or the wait. */
  datatype Admission = Admitted | Cancelled | Waits

  /** `Shared`. */
  class Tickets {
    var free: nat
    var cancelled: bool
    // The workers in `Condvar::wait`.
    var waiting: set<nat>

    constructor (threads: nat, inFlight: nat)
      ensures free == Max(inFlight, threads) && !cancelled && waiting == {}
    {
      free, cancelled, waiting := Max(inFlight, threads), false, {};
    }

    /** `take_ticket`, from the lock to the next wait. */
    method Take(worker: nat) returns (admission: Admission)
      requires worker !in waiting
      modifies this
      ensures cancelled == old(cancelled)
      ensures admission == if cancelled then Cancelled else if old(free) > 0 then Admitted else Waits
      ensures free == if admission == Admitted then old(free) - 1 else old(free)
      ensures waiting == if admission == Waits then old(waiting) + {worker} else old(waiting)
    {
      if cancelled {
        return Cancelled;
      }
      if free > 0 {
        free := free - 1;
        return Admitted;
      }
      waiting := waiting + {worker};
      return Waits;
    }

    /** `return_ticket`: one waiting worker, if there is one, has the lock to take again. */
    method Return() returns (woken: Option<nat>)
      modifies this
      ensures free == old(free) + 1 && cancelled == old(cancelled)
      ensures woken.None? <==> old(waiting) == {}
      ensures woken.Some? ==> woken.value in old(waiting) && waiting == old(waiting) - {woken.value}
      ensures woken.None? ==> waiting == {}
    {
      free := free + 1;
      if waiting == {} {
        return None;
      }
      var worker :| worker in waiting;
      waiting := waiting - {worker};
      return Some(worker);
    }

    /** `cancel`: every waiting worker is woken, and finds the map cancelled. */
    method Cancel()
      modifies this
      ensures cancelled && waiting == {} && free == old(free)
    {
      cancelled := true;
      waiting := {};
    }
  }

  /** The results of a channel by their numbers. */
  function ByNumber<R>(channel: seq<(nat, R)>): (results: map<nat, R>)
    ensures forall k :: k in results <==> exists i :: 0 <= i < |channel| && channel[i].0 == k
  {
    if channel == [] then map[]
    else ByNumber(channel[1..])[channel[0].0 := channel[0].1]
  }

  /** `Pool`: the consumer, with everything the workers still send before the last of them ends. */
  class Results<R> {
    const ordered: bool
    var channel: seq<(nat, R)>
    var pending: map<nat, R>
    var next: nat
    var returned: nat

    /** Every number is sent once. */
    ghost predicate Valid()
      reads this
    {
      && (forall i, j :: 0 <= i < j < |channel| ==> channel[i].0 != channel[j].0)
      && (forall i :: 0 <= i < |channel| ==> channel[i].0 !in pending)
    }

    /** What has not been returned. */
    ghost function Contents(): map<nat, R>
      reads this
    {
      pending + ByNumber(channel)
    }

    constructor (ordered: bool, sent: seq<(nat, R)>)
      requires forall i, j :: 0 <= i < j < |sent| ==> sent[i].0 != sent[j].0
      ensures this.ordered == ordered && Valid() && Contents() == ByNumber(sent) && next == 0 && returned == 0
    {
      this.ordered := ordered;
      channel, pending, next, returned := sent, map[], 0, 0;
    }

    /**
     * `Pool::next`: in order, the result with the next number, whenever it was sent;
     * `None` once there is no such result. Each ticket goes back with its result.
     */
    method Next() returns (result: Option<R>)
      requires Valid()
      modifies this
      ensures Valid()
      ensures returned == old(returned) + if result.Some? then 1 else 0
      ensures ordered ==>
                && (result.Some? <==> old(next) in old(Contents()))
                && (result.Some? ==> result.value == old(Contents())[old(next)])
                && next == old(next) + (if result.Some? then 1 else 0)
                && Contents() == old(Contents()) - {old(next)}
      ensures !ordered ==>
                && (result.Some? <==> old(channel) != [])
                && (result.Some? ==> result.value == old(channel)[0].1 && channel == old(channel)[1..])
                && pending == old(pending) && next == old(next)
    {
      while true
        invariant Valid() && next == old(next) && returned == old(returned)
        invariant Contents() == old(Contents())
        invariant !ordered ==> channel == old(channel) && pending == old(pending)
        decreases |channel|
      {
        if ordered && next in pending {
          result := Some(pending[next]);
          TakeDue();
          return;
        }
        if channel == [] {
          return None;
        }
        if ordered {
          Receive();
        } else {
          result := Some(channel[0].1);
          channel := channel[1..];
          returned := returned + 1;
          return;
        }
      }
    }

    /** The buffered result that is due goes out. */
    method TakeDue()
      requires Valid() && next in pending
      modifies this
      ensures Valid() && channel == old(channel)
      ensures Contents() == old(Contents()) - {old(next)} && pending == old(pending) - {old(next)}
      ensures next == old(next) + 1 && returned == old(returned) + 1
    {
      DisjointMinus(pending, ByNumber(channel), next);
      pending := pending - {next};
      next := next + 1;
      returned := returned + 1;
    }

    /** A result that came ahead is buffered. */
    method Receive()
      requires Valid() && channel != []
      modifies this
      ensures Valid() && channel == old(channel)[1..] && next == old(next) && returned == old(returned)
      ensures pending == old(pending)[old(channel)[0].0 := old(channel)[0].1]
      ensures Contents() == old(Contents())
    {
      var (number, sent) := channel[0];
      ghost var rest := channel[1..];
      assert forall i :: 0 <= i < |rest| ==> rest[i] == channel[i + 1];
      MoveOver(pending, ByNumber(rest), number, sent);
      pending := pending[number := sent];
      channel := channel[1..];
    }

    method NextInTurn(results: seq<R>, ghost all: map<nat, R>, ghost first: nat) returns (result: Option<R>)
      requires Valid() && ordered && next == first + |results|
      requires InTurn(all, first, results) && Contents() == Beyond(all, first, next)
      modifies this
      ensures Valid() && returned == old(returned) + next - old(next)
      ensures result.None? ==> next == old(next) && next !in all
      ensures result.Some? ==>
                && next == old(next) + 1 && InTurn(all, first, results + [result.value])
                && Contents() == Beyond(all, first, next) && |Contents()| < |old(Contents())|
    {
      ghost var n, before := next, Contents();
      result := Next();
      if result.None? {
        WithoutOther(before, n);
        DrainEnd(all, first, n);
      } else {
        DrainStep(all, first, results, n, before, result.value);
      }
    }

    /** Called until it gives `None`: in order, the results come by number, up to the first that was never sent. */
    method Drain() returns (results: seq<R>)
      requires Valid() && ordered
      modifies this
      ensures next == old(next) + |results| && returned == old(returned) + |results|
      ensures InTurn(old(Contents()), old(next), results)
      ensures next !in old(Contents())
    {
      results := [];
      ghost var all, first := Contents(), next;
      Beyond0(all, first);
      while true
        invariant Valid() && next == first + |results| && returned == old(returned) + |results|
        invariant InTurn(all, first, results) && Contents() == Beyond(all, first, next)
        decreases |Contents()|
      {
        var result := NextInTurn(results, all, first);
        if result.None? {
          return;
        }
        results := results + [result.value];
      }
    }
  }

  /** The results numbered from `first` on, one after another. */
  ghost predicate InTurn<R>(all: map<nat, R>, first: nat, results: seq<R>) {
    forall k :: first <= k < first + |results| ==> k in all && results[k - first] == all[k]
  }

  lemma {:induction false} InTurnNext<R>(all: map<nat, R>, first: nat, results: seq<R>, result: R)
    requires InTurn(all, first, results) && first + |results| in all && result == all[first + |results|]
    ensures InTurn(all, first, results + [result])
  {
  }

  /** The results that are not numbered from `low` up to `high`. */
  ghost function Beyond<R>(all: map<nat, R>, low: nat, high: nat): map<nat, R> {
    map k | k in all && !(low <= k < high) :: all[k]
  }

  lemma Beyond0<R>(all: map<nat, R>, low: nat)
    ensures Beyond(all, low, low) == all
  {
  }

  lemma {:induction false} DrainEnd<R>(all: map<nat, R>, low: nat, high: nat)
    requires high !in Beyond(all, low, high)
    ensures high !in all
  {
  }

  lemma {:induction false} DrainStep<R>(all: map<nat, R>, first: nat, results: seq<R>, n: nat, before: map<nat, R>,
                                        result: R)
    requires before == Beyond(all, first, n) && n == first + |results| && InTurn(all, first, results)
    requires n in before && result == before[n]
    ensures before - {n} == Beyond(all, first, n + 1) && |before - {n}| < |before|
    ensures InTurn(all, first, results + [result])
  {
    SmallerWithout(before, n);
    InTurnNext(all, first, results, result);
  }

  lemma WithoutOther<R>(contents: map<nat, R>, k: nat)
    requires k !in contents
    ensures contents - {k} == contents
  {
  }

  lemma DisjointMinus<R>(a: map<nat, R>, b: map<nat, R>, k: nat)
    requires k !in b
    ensures a - {k} + b == a + b - {k}
  {
  }

  lemma MoveOver<R>(a: map<nat, R>, b: map<nat, R>, k: nat, value: R)
    requires k !in b
    ensures a[k := value] + b == a + b[k := value]
  {
  }

  lemma {:induction false} SmallerWithout<R>(contents: map<nat, R>, k: nat)
    requires k in contents
    ensures |contents - {k}| < |contents|
  {
    assert (contents - {k}).Keys == contents.Keys - {k};
    assert |contents.Keys| == |contents| && |(contents - {k}).Keys| == |contents - {k}|;
  }
}

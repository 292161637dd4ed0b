/**
 * The decoder of a stream that is decoded ahead
 * (crates/xeibe-core/src/decode.rs:220-255): blocks of a reader that may
 * return less than asked for, be interrupted, or fail.
 */
module AheadDecoder {
  import opened Basics

  const AHEAD_BLOCK: nat := 0x4_0000
  const AHEAD_BLOCKS: nat := 16

  type Byte = b: int | 0 <= b < 256

  /** What the stream under the decoder does next: data, an interruption, or an error. */
  datatype Event<+E> = Data(bytes: seq<Byte>) | Interrupted | Broken(error: E)

  /** What a reader of the stream gets: bytes, then at most one error. */
  datatype Out<+E> = One(byte: Byte) | Failed(error: E)

  datatype Block<+E> = Bytes(bytes: seq<Byte>) | Err(error: E)

  function Bytewise<E>(bytes: seq<Byte>): (outs: seq<Out<E>>)
    ensures |outs| == |bytes|
  {
    seq(|bytes|, i requires 0 <= i < |bytes| => One(bytes[i]))
  }

  lemma BytewiseConcat<E>(a: seq<Byte>, b: seq<Byte>)
    ensures Bytewise<E>(a + b) == Bytewise(a) + Bytewise(b)
  {
  }

  /** All that is read of the events: up to the first error, or to the end. */
  function Whole<E>(events: seq<Event<E>>): seq<Out<E>> {
    if events == [] then []
    else
      match events[0]
      case Data(bytes) => Bytewise(bytes) + Whole(events[1..])
      case Interrupted => Whole(events[1..])
      case Broken(error) => [Failed(error)]
  }

  /** A reader gives data only where there is some. */
  predicate Sound<E>(events: seq<Event<E>>) {
    forall i :: 0 <= i < |events| && events[i].Data? ==> events[i].bytes != []
  }

  datatype ReadResult<+E> = Got(bytes: seq<Byte>) | WasInterrupted | Failure(error: E)

  class Reader<E> {
    var events: seq<Event<E>>

    constructor (events: seq<Event<E>>)
      ensures this.events == events
    {
      this.events := events;
    }

    /** `read` into a buffer of `room` bytes; no bytes at the end of the stream. */
    method Read(room: nat) returns (result: ReadResult<E>)
      requires room > 0 && Sound(events)
      modifies this
      ensures Sound(events)
      ensures match result
              case Got(bytes) =>
                && |bytes| <= room
                && (if bytes == [] then old(events) == [] && events == []
                       else Whole(old(events)) == Bytewise(bytes) + Whole(events))
                && (bytes != [] ==>
                      |events| < |old(events)| || (|events| == |old(events)| && Size(events) < Size(old(events))))
              case WasInterrupted => Whole(old(events)) == Whole(events) && |events| < |old(events)|
              case Failure(error) => Whole(old(events)) == [Failed(error)]
    {
      if events == [] {
        return Got([]);
      }
      var first := events[0];
      match first {
        case Interrupted =>
          events := events[1..];
          result := WasInterrupted;
        case Broken(error) =>
          result := Failure(error);
        case Data(bytes) =>
          if |bytes| <= room {
            events := events[1..];
            result := Got(bytes);
          } else {
            BytewiseConcat<E>(bytes[..room], bytes[room..]);
            assert bytes[..room] + bytes[room..] == bytes;
            ghost var was := events;
            events := events[0 := Data(bytes[room..])];
            assert events[1..] == was[1..];
            Assoc(Bytewise<E>(bytes[..room]), Bytewise(bytes[room..]), Whole(was[1..]));
            result := Got(bytes[..room]);
          }
      }
    }
  }

  function Size<E>(events: seq<Event<E>>): nat {
    if events != [] && events[0].Data? then |events[0].bytes| else 0
  }

  class Decoder<E> {
    const reader: Reader<E>
    var done: bool
    /** A failure met behind data that went out first; it goes out by itself. */
    var error: Option<E>

    ghost predicate Valid()
      reads this, reader
    {
      (error.Some? ==> done) && (!done ==> Sound(reader.events))
    }

    /** What is still to come. */
    ghost function Left(): seq<Out<E>>
      reads this, reader
    {
      if error.Some? then [Failed(error.value)]
      else if done then []
      else Whole(reader.events)
    }

    constructor (events: seq<Event<E>>)
      requires Sound(events)
      ensures Valid() && fresh(reader) && Left() == Whole(events)
    {
      reader := new Reader<E>(events);
      done, error := false, None;
    }

    /**
     * `block`: the next of what is to come. A block is full unless the stream has
     * ended; an error comes by itself, after the data read before it.
     */
    method NextBlock() returns (block: Option<Block<E>>)
      requires Valid()
      modifies this, reader
      ensures Valid()
      ensures match block
              case None => old(Left()) == [] == Left()
              case Some(Bytes(bytes)) =>
                && 0 < |bytes| <= 256 * 1024 && (|bytes| < 256 * 1024 ==> done)
                && old(Left()) == Bytewise(bytes) + Left()
              case Some(Err(e)) => old(Left()) == [Failed(e)] && Left() == []
    {
      if error.Some? {
        block := Some(Err(error.value));
        error := None;
        return;
      }
      if done {
        return None;
      }
      ghost var all := Left();
      var bytes: seq<Byte> := [];
      while |bytes| < AHEAD_BLOCK
        invariant Valid() && error.None? && !done
        invariant |bytes| <= AHEAD_BLOCK && all == Bytewise(bytes) + Left()
        decreases |reader.events|, Size(reader.events)
      {
        var result := reader.Read(AHEAD_BLOCK - |bytes|);
        match result {
          case Got(more) =>
            if more == [] {
              done := true;
              break;
            }
            BytewiseConcat<E>(bytes, more);
            Assoc(Bytewise<E>(bytes), Bytewise(more), Left());
            bytes := bytes + more;
          case WasInterrupted =>
          case Failure(e) =>
            done := true;
            if |bytes| == 0 {
              return Some(Err(e));
            }
            error := Some(e);
            break;
        }
      }
      block := if |bytes| > 0 then Some(Bytes(bytes)) else None;
    }
  }
}

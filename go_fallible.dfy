/** The fallible channel of the SwiftGo generation
    (SwiftGo/FallibleChannel.swift; SwiftGo/FailableChannel.swift is the same
    class under its older name, drawing identities from its own counter and
    without the `<-` into an optional channel).  It keeps the counter
    protocol of `GoChannel.Channel` over entries that are either a value or
    an error; the entry the C channel hands back is a parameter (`taken`). */
module GoFallible {
  import opened Base
  import GoChannel

  /** `ChannelValue`. */
  datatype ChannelValue<T, E> = Value(value: T) | Error(error: E)

  /** What `send()` does: returns a value or nil, or throws. */
  datatype Reply<T, E> = Returned(result: Option<T>) | Threw(error: E)

  /** `send()` once an entry has been taken: a value is returned, an error
      thrown. */
  function Unwrap<T, E>(v: ChannelValue<T, E>): (r: Reply<T, E>)
    ensures r.Threw? <==> v.Error?
    ensures v.Error? ==> r.error == v.error
    ensures v.Value? ==> r == Returned(Some(v.value))
  {
    match v
    case Value(x) => Returned(Some(x))
    case Error(e) => Threw(e)
  }

  /** `next()` of the generator, `(try? send()) ?? nil`: a thrown error
      reads as nil, just like the end of the stream. */
  function Quiet<T, E>(r: Reply<T, E>): (o: Option<T>)
    ensures o.Some? <==> r.Returned? && r.result.Some?
    ensures o.Some? ==> o == r.result
  {
    match r
    case Returned(x) => x
    case Threw(_) => None
  }

  /** The generator cannot tell an error entry from the end of the stream,
      and it delivers every value entry. */
  lemma GeneratorHidesErrors<T, E>(v: ChannelValue<T, E>)
    ensures Quiet(Unwrap(v)) == None <==> v.Error?
    ensures v.Value? ==> Quiet(Unwrap(v)) == Some(v.value)
    ensures Quiet(Reply<T, E>.Returned(None)) == None
  {
  }

  /** The global `fallibleChannelCounter` (or `failableChannelCounter`). */
  class Counter {
    var next: int
    /** The identities handed out so far. */
    ghost var Issued: set<int>

    ghost predicate Valid()
      reads this
    {
      forall h :: h in Issued ==> h < next
    }

    constructor ()
      ensures Valid() && next == 0 && Issued == {}
    {
      next := 0;
      Issued := {};
    }
  }

  /** `FallibleChannel`. */
  class FallibleChannel<T, E> {
    const bufferSize: int
    const hashValue: int
    var valuesInBuffer: int
    var closed: bool
    var lastValue: Option<ChannelValue<T, E>>
    /** The entries handed to `go_close_channel`, oldest first. */
    ghost var CloseSignals: seq<ChannelValue<T, E>>

    ghost predicate Valid()
      reads this
    {
      (bufferSize > 0 ==> valuesInBuffer <= bufferSize) &&
      (CloseSignals != [] ==> closed)
    }

    /** `init(bufferSize:)`: the identity is the counter's current value,
        which no earlier channel has; the counter moves on. */
    constructor (bufferSize: int, counter: Counter)
      requires counter.Valid()
      modifies counter
      ensures Valid() && this.bufferSize == bufferSize
      ensures valuesInBuffer == 0 && !closed && lastValue == None && CloseSignals == []
      ensures hashValue == old(counter.next) && hashValue !in old(counter.Issued)
      ensures counter.Valid() && counter.next == old(counter.next) + 1
      ensures counter.Issued == old(counter.Issued) + {hashValue}
    {
      this.bufferSize := bufferSize;
      hashValue := counter.next;
      valuesInBuffer := 0;
      closed := false;
      lastValue := None;
      CloseSignals := [];
      new;
      counter.next := counter.next + 1;
      counter.Issued := counter.Issued + {hashValue};
    }

    /** `close()`: closed for good; the C channel is signalled, with the last
        entry seen, only when there is one. */
    method Close()
      requires Valid()
      modifies this
      ensures Valid() && closed
      ensures valuesInBuffer == old(valuesInBuffer) && lastValue == old(lastValue)
      ensures CloseSignals == old(CloseSignals) + (if old(lastValue).Some? then [old(lastValue).value] else [])
    {
      closed := true;
      if lastValue.Some? {
        CloseSignals := CloseSignals + [lastValue.value];
      }
    }

    /** `receive(_:)`: puts a value entry. */
    method Receive(value: T)
      requires Valid()
      modifies this
      ensures Valid() && closed == old(closed) && CloseSignals == old(CloseSignals)
      ensures lastValue == Some(Value(value))
      ensures valuesInBuffer == GoChannel.Counted(bufferSize, old(valuesInBuffer))
    {
      lastValue := Some(Value(value));
      if bufferSize <= 0 || valuesInBuffer < bufferSize {
        valuesInBuffer := valuesInBuffer + 1;
      }
    }

    /** `receiveError(_:)`: puts an error entry. */
    method ReceiveError(error: E)
      requires Valid()
      modifies this
      ensures Valid() && closed == old(closed) && CloseSignals == old(CloseSignals)
      ensures lastValue == Some(Error(error))
      ensures valuesInBuffer == GoChannel.Counted(bufferSize, old(valuesInBuffer))
    {
      lastValue := Some(Error(error));
      if bufferSize <= 0 || valuesInBuffer < bufferSize {
        valuesInBuffer := valuesInBuffer + 1;
      }
    }

    /** `send()`: nil when closed and counted empty; otherwise the entry the
        C channel hands back becomes the last entry seen and is returned or
        thrown. */
    method Send(taken: ChannelValue<T, E>) returns (r: Reply<T, E>)
      requires Valid()
      modifies this
      ensures Valid() && closed == old(closed) && CloseSignals == old(CloseSignals)
      ensures valuesInBuffer == GoChannel.TakeStep(old(closed), old(valuesInBuffer)).1
      ensures GoChannel.TakeStep(old(closed), old(valuesInBuffer)).0 ==> r == Unwrap(taken) && lastValue == Some(taken)
      ensures !GoChannel.TakeStep(old(closed), old(valuesInBuffer)).0 ==> r == Returned(None) && lastValue == old(lastValue)
    {
      if closed && valuesInBuffer <= 0 {
        return Returned(None);
      }
      valuesInBuffer := valuesInBuffer - 1;
      lastValue := Some(taken);
      match taken
      case Value(x) => r := Returned(Some(x));
      case Error(e) => r := Threw(e);
    }
  }

  /** `==`: two channels are equal when their identities are. */
  predicate Equal<T, E>(lhs: FallibleChannel<T, E>, rhs: FallibleChannel<T, E>)
  {
    lhs.hashValue == rhs.hashValue
  }

  /** A channel made after another (its identity was not yet issued when the
      other's was) is never equal to it. */
  lemma LaterChannelIsUnequal<T, E>(earlier: FallibleChannel<T, E>, later: FallibleChannel<T, E>, issued: set<int>)
    requires earlier.hashValue in issued && later.hashValue !in issued
    ensures !Equal(earlier, later) && !Equal(later, earlier)
  {
  }

  /** `FallibleChannelGenerator`: `next()` is `(try? send()) ?? nil`. */
  class FallibleGenerator<T, E> {
    const channel: FallibleChannel<T, E>

    constructor (channel: FallibleChannel<T, E>)
      ensures this.channel == channel
    {
      this.channel := channel;
    }

    method Next(taken: ChannelValue<T, E>) returns (r: Option<T>)
      requires channel.Valid()
      modifies channel
      ensures channel.Valid() && channel.closed == old(channel.closed)
      ensures channel.valuesInBuffer == GoChannel.TakeStep(old(channel.closed), old(channel.valuesInBuffer)).1
      ensures r.Some? <==> GoChannel.TakeStep(old(channel.closed), old(channel.valuesInBuffer)).0 && taken.Value?
      ensures r.Some? ==> r.value == taken.value
    {
      var reply := channel.Send(taken);
      r := Quiet(reply);
    }
  }

  /** `channel <- value`. */
  method InfixArrow<T, E>(channel: FallibleChannel<T, E>, value: T)
    requires channel.Valid()
    modifies channel
    ensures channel.Valid() && channel.closed == old(channel.closed)
    ensures channel.lastValue == Some(Value(value))
    ensures channel.valuesInBuffer == GoChannel.Counted(channel.bufferSize, old(channel.valuesInBuffer))
  {
    channel.Receive(value);
  }

  /** `channel <- value` on an optional channel: nothing at all for nil. */
  method OptionalInfixArrow<T, E>(channel: FallibleChannel?<T, E>, value: T)
    requires channel != null ==> channel.Valid()
    modifies channel
    ensures channel != null ==> channel.Valid() && channel.closed == old(channel.closed)
    ensures channel != null ==> channel.lastValue == Some(Value(value))
    ensures channel != null ==> channel.valuesInBuffer == GoChannel.Counted(channel.bufferSize, old(channel.valuesInBuffer))
  {
    if channel != null {
      channel.Receive(value);
    }
  }

  /** `channel <- error`. */
  method InfixArrowError<T, E>(channel: FallibleChannel<T, E>, error: E)
    requires channel.Valid()
    modifies channel
    ensures channel.Valid() && channel.closed == old(channel.closed)
    ensures channel.lastValue == Some(Error(error))
    ensures channel.valuesInBuffer == GoChannel.Counted(channel.bufferSize, old(channel.valuesInBuffer))
  {
    channel.ReceiveError(error);
  }

  /** `<-channel`. */
  method PrefixArrow<T, E>(channel: FallibleChannel<T, E>, taken: ChannelValue<T, E>) returns (r: Reply<T, E>)
    requires channel.Valid()
    modifies channel
    ensures channel.Valid() && channel.closed == old(channel.closed)
    ensures channel.valuesInBuffer == GoChannel.TakeStep(old(channel.closed), old(channel.valuesInBuffer)).1
    ensures GoChannel.TakeStep(old(channel.closed), old(channel.valuesInBuffer)).0 ==> r == Unwrap(taken)
    ensures !GoChannel.TakeStep(old(channel.closed), old(channel.valuesInBuffer)).0 ==> r == Returned(None)
  {
    r := channel.Send(taken);
  }

  /** `!<-channel`: `send()!`, which traps on nil, so the channel must be
      open or counted non-empty. */
  method ForcedPrefixArrow<T, E>(channel: FallibleChannel<T, E>, taken: ChannelValue<T, E>) returns (r: Reply<T, E>)
    requires channel.Valid() && (!channel.closed || channel.valuesInBuffer > 0)
    modifies channel
    ensures channel.Valid() && channel.closed == old(channel.closed)
    ensures channel.valuesInBuffer == old(channel.valuesInBuffer) - 1
    ensures r == Unwrap(taken) && r != Returned(None)
  {
    r := channel.Send(taken);
  }
}

/** The fallible channel of the libmill generation
    (Source/Venice/FallibleChannel/FallibleChannel.swift) and its receive-only
    view (FallibleReceivingChannel.swift).  It follows the `closed`/buffer
    rules of the plain libmill channel, over buffered `ChannelResult`s. */
module MillFallible {
  import opened Base
  import opened SideBuffer
  import opened MillChannel

  /** `ChannelResult.success(_:)`: the value its closure is called with, if
      it is called at all. */
  function OnSuccess<T, E>(r: ChannelResult<T, E>): (arg: Option<T>)
    ensures arg.Some? <==> r.Value?
    ensures r.Value? ==> arg.value == r.value
  {
    match r
    case Value(v) => Some(v)
    case _ => None
  }

  /** `ChannelResult.failure(_:)`: the error its closure is called with, if
      it is called at all. */
  function OnFailure<T, E>(r: ChannelResult<T, E>): (arg: Option<E>)
    ensures arg.Some? <==> r.Error?
    ensures r.Error? ==> arg.value == r.error
  {
    match r
    case Error(e) => Some(e)
    case _ => None
  }

  /** Exactly one of the two closures runs for any result. */
  lemma ExactlyOneHandlerRuns<T, E>(r: ChannelResult<T, E>)
    ensures OnSuccess(r).Some? != OnFailure(r).Some?
  {
  }

  /** What `receive()` does: returns a value or nil, or throws. */
  datatype Reply<T, E> = Returned(received: Received<T>) | Threw(error: E)

  /** `receive()` after `mill_chr`: a buffered `.value` is returned, a
      buffered `.error` is thrown, nil and a suspension pass through. */
  function Unwrap<T, E>(r: Received<ChannelResult<T, E>>): (o: Reply<T, E>)
    ensures o.Threw? <==> r.Got? && r.value.Error?
    ensures o.Threw? ==> o.error == r.value.error
    ensures o == Returned(Drained) <==> r == Drained
    ensures o == Returned(Blocked) <==> r == Blocked
    ensures r.Got? && r.value.Value? ==> o == Returned(Got(r.value.value))
  {
    match r
    case Got(Value(v)) => Returned(Got(v))
    case Got(Error(e)) => Threw(e)
    case Drained => Returned(Drained)
    case Blocked => Returned(Blocked)
  }

  /** A thrown error does not stop delivery: the entry after it is the next
      one received. */
  lemma ErrorThenValue<T, E>(closed: bool, e: E, v: T, rest: seq<ChannelResult<T, E>>)
    ensures var (r1, b1) := ReceiveStep(closed, [Error(e), Value(v)] + rest);
      var (r2, b2) := ReceiveStep(closed, b1);
      && Unwrap(r1) == Threw(e)
      && Unwrap(r2) == Returned(Got(v))
      && b2 == rest
  {
    var b := [Error(e), Value(v)] + rest;
    assert b[1..] == [Value(v)] + rest;
    assert b[1..][1..] == rest;
  }

  /** After `close`, results buffered earlier are still received in order,
      and then nil; every send made meanwhile was ignored. */
  lemma {:induction false} CloseKeepsBuffered<T, E>(buffer: seq<ChannelResult<T, E>>, late: seq<ChannelResult<T, E>>)
    ensures var b := MillChannel.SendAll(true, buffer, late);
      && b == buffer
      && Receives(true, b, |b| + 1) == AllGot(buffer) + [Drained]
  {
    ClosedIgnoresSends(buffer, late);
    DrainedAfter(buffer);
  }

  /** `FallibleChannel`. */
  class FallibleChannel<T, E> {
    var closed: bool
    var buffer: seq<ChannelResult<T, E>>
    const bufferSize: int
    /** How many times `mill_chdone` has been called on the C channel. */
    ghost var DoneCalls: nat

    ghost predicate Valid()
      reads this
    {
      DoneCalls == if closed then 1 else 0
    }

    constructor (bufferSize: int)
      ensures Valid() && !closed && buffer == [] && this.bufferSize == bufferSize
    {
      this.bufferSize := bufferSize;
      closed := false;
      buffer := [];
      DoneCalls := 0;
    }

    /** `close()`: acts once; `mill_chdone` is never called twice. */
    method Close()
      requires Valid()
      modifies this
      ensures Valid() && closed && buffer == old(buffer)
      ensures old(closed) ==> DoneCalls == old(DoneCalls)
    {
      if !closed {
        closed := true;
        DoneCalls := DoneCalls + 1;
      }
    }

    /** `send(_: ChannelResult)`. */
    method Send(result: ChannelResult<T, E>)
      requires Valid()
      modifies this
      ensures Valid() && closed == old(closed) && DoneCalls == old(DoneCalls)
      ensures buffer == Sent(old(closed), old(buffer), result)
    {
      if !closed {
        buffer := buffer + [result];
      }
    }

    /** `send(_: T)`. */
    method SendValue(value: T)
      requires Valid()
      modifies this
      ensures Valid() && closed == old(closed) && DoneCalls == old(DoneCalls)
      ensures buffer == Sent(old(closed), old(buffer), Value(value))
    {
      if !closed {
        var result := Value(value);
        buffer := buffer + [result];
      }
    }

    /** `send(_: T, clause:index:)`: appends and registers the clause only
        when open. */
    method SendValueFromSelect(value: T, index: int) returns (registered: Option<int>)
      requires Valid()
      modifies this
      ensures Valid() && closed == old(closed) && DoneCalls == old(DoneCalls)
      ensures buffer == Sent(old(closed), old(buffer), Value(value))
      ensures registered == if old(closed) then None else Some(index)
    {
      registered := None;
      if !closed {
        var result := Value(value);
        buffer := buffer + [result];
        registered := Some(index);
      }
    }

    /** `send(_: ErrorProtocol)`. */
    method SendError(error: E)
      requires Valid()
      modifies this
      ensures Valid() && closed == old(closed) && DoneCalls == old(DoneCalls)
      ensures buffer == Sent(old(closed), old(buffer), Error(error))
    {
      if !closed {
        var result := Error(error);
        buffer := buffer + [result];
      }
    }

    /** `send(_: ErrorProtocol, clause:index:)`. */
    method SendErrorFromSelect(error: E, index: int) returns (registered: Option<int>)
      requires Valid()
      modifies this
      ensures Valid() && closed == old(closed) && DoneCalls == old(DoneCalls)
      ensures buffer == Sent(old(closed), old(buffer), Error(error))
      ensures registered == if old(closed) then None else Some(index)
    {
      registered := None;
      if !closed {
        var result := Error(error);
        buffer := buffer + [result];
        registered := Some(index);
      }
    }

    /** `getResultFromBuffer()`. */
    method GetResultFromBuffer() returns (r: Option<ChannelResult<T, E>>)
      requires Valid() && (closed || buffer != [])
      modifies this
      ensures Valid() && closed == old(closed) && DoneCalls == old(DoneCalls)
      ensures (r, buffer) == Take(old(closed), old(buffer))
    {
      if closed && |buffer| <= 0 {
        return None;
      }
      r := Some(buffer[0]);
      buffer := buffer[1..];
    }

    /** `receiveResult()`: the head entry, unchanged. */
    method ReceiveResult() returns (r: Received<ChannelResult<T, E>>)
      requires Valid()
      modifies this
      ensures Valid() && closed == old(closed) && DoneCalls == old(DoneCalls)
      ensures (r, buffer) == ReceiveStep(old(closed), old(buffer))
    {
      if closed && |buffer| <= 0 {
        return Drained;
      }
      if buffer == [] {
        return Blocked;
      }
      var v := GetResultFromBuffer();
      r := Got(v.value);
    }

    /** `receive()`: the head entry's value returned, or its error thrown. */
    method Receive() returns (o: Reply<T, E>)
      requires Valid()
      modifies this
      ensures Valid() && closed == old(closed) && DoneCalls == old(DoneCalls)
      ensures o == Unwrap(ReceiveStep(old(closed), old(buffer)).0)
      ensures buffer == ReceiveStep(old(closed), old(buffer)).1
    {
      if closed && |buffer| <= 0 {
        return Returned(Drained);
      }
      if buffer == [] {
        return Returned(Blocked);
      }
      var v := GetResultFromBuffer();
      match v.value
      case Value(x) => o := Returned(Got(x));
      case Error(e) => o := Threw(e);
    }
  }

  /** `FallibleReceivingChannel`: a receive-only reference to a shared
      `FallibleChannel`; every call is the channel's own. */
  class FallibleReceivingChannel<T, E> {
    const channel: FallibleChannel<T, E>

    constructor (channel: FallibleChannel<T, E>)
      ensures this.channel == channel
    {
      this.channel := channel;
    }

    method Receive() returns (o: Reply<T, E>)
      requires channel.Valid()
      modifies channel
      ensures channel.Valid() && channel.closed == old(channel.closed)
      ensures o == Unwrap(ReceiveStep(old(channel.closed), old(channel.buffer)).0)
      ensures channel.buffer == ReceiveStep(old(channel.closed), old(channel.buffer)).1
    {
      o := channel.Receive();
    }

    method ReceiveResult() returns (r: Received<ChannelResult<T, E>>)
      requires channel.Valid()
      modifies channel
      ensures channel.Valid() && channel.closed == old(channel.closed)
      ensures (r, channel.buffer) == ReceiveStep(old(channel.closed), old(channel.buffer))
    {
      r := channel.ReceiveResult();
    }

    /** `makeIterator()`: a generator over this same view. */
    method MakeIterator() returns (g: FallibleGenerator<T, E>)
      ensures fresh(g) && g.view == this && g.view.channel == channel
    {
      g := new FallibleGenerator(this);
    }

    method Close()
      requires channel.Valid()
      modifies channel
      ensures channel.Valid() && channel.closed && channel.buffer == old(channel.buffer)
      ensures old(channel.closed) ==> channel.DoneCalls == old(channel.DoneCalls)
    {
      channel.Close();
    }

    method GetResultFromBuffer() returns (r: Option<ChannelResult<T, E>>)
      requires channel.Valid() && (channel.closed || channel.buffer != [])
      modifies channel
      ensures channel.Valid() && channel.closed == old(channel.closed)
      ensures (r, channel.buffer) == Take(old(channel.closed), old(channel.buffer))
    {
      r := channel.GetResultFromBuffer();
    }
  }

  /** `FallibleChannelGenerator`: `next()` is `receiveResult()` on the view,
      so iteration yields the buffered results in order and stops at nil. */
  class FallibleGenerator<T, E> {
    const view: FallibleReceivingChannel<T, E>

    constructor (view: FallibleReceivingChannel<T, E>)
      ensures this.view == view
    {
      this.view := view;
    }

    method Next() returns (r: Received<ChannelResult<T, E>>)
      requires view.channel.Valid()
      modifies view.channel
      ensures view.channel.Valid() && view.channel.closed == old(view.channel.closed)
      ensures (r, view.channel.buffer) == ReceiveStep(old(view.channel.closed), old(view.channel.buffer))
    {
      r := view.ReceiveResult();
    }
  }

  /** `makeIterator()` of the channel itself goes through its receive-only
      view (the `receivingChannel` property). */
  method MakeIterator<T, E>(channel: FallibleChannel<T, E>) returns (g: FallibleGenerator<T, E>)
    ensures fresh(g) && g.view.channel == channel
  {
    var view := new FallibleReceivingChannel(channel);
    g := view.MakeIterator();
  }
}

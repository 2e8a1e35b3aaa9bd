/** The channel of the SwiftGo generation (SwiftGo/Channel.swift).  The values
    themselves travel through the C channel (`go_send_to_channel`,
    `go_receive_from_channel`); Swift keeps only a counter of the values
    believed to be buffered, the `closed` flag and the last value seen.  The
    names are SwiftGo's own: `receive(value)` puts a value INTO the channel and
    `send()` takes one OUT of it.  The value the C call hands back is a
    parameter (`taken`). */
module GoChannel {
  import opened Base

  /** The counter after a put: one more, unless the channel is buffered and
      the counter has reached the buffer size. */
  function Counted(bufferSize: int, count: int): (c: int)
    ensures c == count + 1 <==> bufferSize <= 0 || count < bufferSize
    ensures c == count <==> !(bufferSize <= 0 || count < bufferSize)
  {
    if bufferSize <= 0 || count < bufferSize then count + 1 else count
  }

  /** A take: whether it goes to the C channel (it does not when the channel
      is closed and the counter is not positive), and the counter after it. */
  function TakeStep(closed: bool, count: int): (r: (bool, int))
    ensures r.0 <==> !closed || count > 0
    ensures r.0 ==> r.1 == count - 1
    ensures !r.0 ==> r.1 == count
  {
    if closed && count <= 0 then (false, count) else (true, count - 1)
  }

  /** The counter after `n` puts. */
  function Puts(bufferSize: int, count: int, n: nat): int
    decreases n
  {
    if n == 0 then count else Puts(bufferSize, Counted(bufferSize, count), n - 1)
  }

  /** Which of `n` takes in a row go to the C channel. */
  function Takes(closed: bool, count: int, n: nat): (r: seq<bool>)
    ensures |r| == n
    decreases n
  {
    if n == 0 then []
    else
      var (ok, c) := TakeStep(closed, count);
      [ok] + Takes(closed, c, n - 1)
  }

  /** A put never pushes the counter of a buffered channel past the buffer
      size. */
  lemma CountStaysBounded(bufferSize: int, count: int)
    requires bufferSize > 0 && count <= bufferSize
    ensures count <= Counted(bufferSize, count) <= bufferSize
  {
  }

  /** From an empty buffered channel, `n` puts count `min(n, bufferSize)`. */
  lemma {:induction false} PutsSaturate(bufferSize: int, count: int, n: nat)
    requires bufferSize > 0 && 0 <= count <= bufferSize
    ensures Puts(bufferSize, count, n) == if count + n <= bufferSize then count + n else bufferSize
    decreases n
  {
    if n > 0 {
      PutsSaturate(bufferSize, Counted(bufferSize, count), n - 1);
    }
  }

  /** On an unbuffered channel every put counts. */
  lemma {:induction false} UnbufferedPutsAllCount(bufferSize: int, count: int, n: nat)
    requires bufferSize <= 0
    ensures Puts(bufferSize, count, n) == count + n
    decreases n
  {
    if n > 0 {
      UnbufferedPutsAllCount(bufferSize, count + 1, n - 1);
    }
  }

  /** After `close`, exactly as many takes reach the C channel as the counter
      says; every later one returns nil. */
  lemma {:induction false} ClosedDrainsCount(count: int, n: nat)
    ensures forall i :: 0 <= i < n ==> (Takes(true, count, n)[i] <==> i < count)
    decreases n
  {
    if n > 0 {
      var (ok, c) := TakeStep(true, count);
      ClosedDrainsCount(c, n - 1);
      var rest := Takes(true, c, n - 1);
      assert Takes(true, count, n) == [ok] + rest;
      forall i | 0 <= i < n
        ensures Takes(true, count, n)[i] <==> i < count
      {
        if i > 0 {
          assert Takes(true, count, n)[i] == rest[i - 1];
        }
      }
    }
  }

  /** While open, every take reaches the C channel. */
  lemma {:induction false} OpenTakesAll(count: int, n: nat)
    ensures forall i :: 0 <= i < n ==> Takes(false, count, n)[i]
    decreases n
  {
    if n > 0 {
      OpenTakesAll(count - 1, n - 1);
      var rest := Takes(false, count - 1, n - 1);
      assert Takes(false, count, n) == [true] + rest;
    }
  }

  /** `Channel`. */
  class Channel<T> {
    const bufferSize: int
    var valuesInBuffer: int
    var closed: bool
    var lastValue: Option<T>
    /** The values handed to `go_close_channel`, oldest first. */
    ghost var CloseSignals: seq<T>

    /** A buffered channel never counts more than its buffer holds, and the
        C channel is signalled done only once the channel is closed.  The
        counter goes below zero when takes wait on an open channel. */
    ghost predicate Valid()
      reads this
    {
      (bufferSize > 0 ==> valuesInBuffer <= bufferSize) &&
      (CloseSignals != [] ==> closed)
    }

    /** `init(bufferSize:)`; `go_make_channel` is not modelled. */
    constructor (bufferSize: int)
      ensures Valid() && this.bufferSize == bufferSize
      ensures valuesInBuffer == 0 && !closed && lastValue == None && CloseSignals == []
    {
      this.bufferSize := bufferSize;
      valuesInBuffer := 0;
      closed := false;
      lastValue := None;
      CloseSignals := [];
    }

    /** `close()`: marks the channel closed for good, and signals the C
        channel, with the last value seen, only when there is one. */
    method Close()
      requires Valid()
      modifies this
      ensures Valid() && closed
      ensures valuesInBuffer == old(valuesInBuffer) && lastValue == old(lastValue)
      ensures CloseSignals == old(CloseSignals) + (if old(lastValue).Some? then [old(lastValue).value] else [])
    {
      closed := true;
      if lastValue.Some? {
        CloseSignals := CloseSignals + [lastValue.value];
      }
    }

    /** `receive(_:)`, the put side: remembers the value, hands it to the C
        channel, and counts it when there is room. */
    method Receive(value: T)
      requires Valid()
      modifies this
      ensures Valid() && closed == old(closed) && CloseSignals == old(CloseSignals)
      ensures lastValue == Some(value)
      ensures valuesInBuffer == Counted(bufferSize, old(valuesInBuffer))
    {
      lastValue := Some(value);
      if bufferSize <= 0 || valuesInBuffer < bufferSize {
        valuesInBuffer := valuesInBuffer + 1;
      }
    }

    /** `send()`, the take side: nil without touching anything when closed
        and counted empty; otherwise the value the C channel hands back
        (`taken`), which becomes the last value seen. */
    method Send(taken: T) returns (r: Option<T>)
      requires Valid()
      modifies this
      ensures Valid() && closed == old(closed) && CloseSignals == old(CloseSignals)
      ensures r.Some? <==> TakeStep(old(closed), old(valuesInBuffer)).0
      ensures valuesInBuffer == TakeStep(old(closed), old(valuesInBuffer)).1
      ensures r.Some? ==> r.value == taken && lastValue == r
      ensures r == None ==> lastValue == old(lastValue)
    {
      if closed && valuesInBuffer <= 0 {
        return None;
      }
      valuesInBuffer := valuesInBuffer - 1;
      lastValue := Some(taken);
      r := Some(taken);
    }
  }

  /** `ChannelGenerator`: `next()` is `send()`, so iteration stops at the
      first nil. */
  class Generator<T> {
    const channel: Channel<T>

    constructor (channel: Channel<T>)
      ensures this.channel == channel
    {
      this.channel := channel;
    }

    method Next(taken: T) returns (r: Option<T>)
      requires channel.Valid()
      modifies channel
      ensures channel.Valid() && channel.closed == old(channel.closed)
      ensures r.Some? <==> TakeStep(old(channel.closed), old(channel.valuesInBuffer)).0
      ensures channel.valuesInBuffer == TakeStep(old(channel.closed), old(channel.valuesInBuffer)).1
      ensures r.Some? ==> r.value == taken
    {
      r := channel.Send(taken);
    }
  }

  /** `channel <- value`: a put. */
  method InfixArrow<T>(channel: Channel<T>, value: T)
    requires channel.Valid()
    modifies channel
    ensures channel.Valid() && channel.closed == old(channel.closed)
    ensures channel.lastValue == Some(value)
    ensures channel.valuesInBuffer == Counted(channel.bufferSize, old(channel.valuesInBuffer))
  {
    channel.Receive(value);
  }

  /** `<-channel`: a take. */
  method PrefixArrow<T>(channel: Channel<T>, taken: T) returns (r: Option<T>)
    requires channel.Valid()
    modifies channel
    ensures channel.Valid() && channel.closed == old(channel.closed)
    ensures r.Some? <==> TakeStep(old(channel.closed), old(channel.valuesInBuffer)).0
    ensures channel.valuesInBuffer == TakeStep(old(channel.closed), old(channel.valuesInBuffer)).1
    ensures r.Some? ==> r.value == taken
  {
    r := channel.Send(taken);
  }
}

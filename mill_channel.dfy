/** The channel of the libmill generation (Source/Venice/Channel/Channel.swift;
    Source/Channel.swift is the same class under the Swift 2 names, without
    `isBuffered`).  libmill's `mill_chs`/`mill_chr` only rendezvous: the
    payload travels through a Swift array kept next to the C channel, and a
    `closed` flag guards it.  The rules over `closed` and the buffer are
    stated here once, as functions of the element type, because the fallible
    channel of the same generation follows them too. */
module MillChannel {
  import opened Base

  /** What a receive comes to: a value, nil because the channel is closed
      and drained, or a suspension inside `mill_chr` (the channel is open
      and nothing is buffered, so the call waits for a sender or for
      `close`, both of which lie outside this sequential model). */
  datatype Received<X> = Got(value: X) | Drained | Blocked

  /** The buffer after a send: appended to when open, untouched when closed. */
  function Sent<X>(closed: bool, buffer: seq<X>, x: X): seq<X>
  {
    if closed then buffer else buffer + [x]
  }

  /** `getValueFromBuffer()`: nil once the channel is closed and drained,
      otherwise the first element, removed.  `removeFirst` traps on an empty
      array, so an open channel must hold something. */
  function Take<X>(closed: bool, buffer: seq<X>): (r: (Option<X>, seq<X>))
    requires closed || buffer != []
    ensures r.0 == None <==> buffer == []
    ensures r.0 == None ==> r.1 == buffer
    ensures r.0.Some? ==> [r.0.value] + r.1 == buffer
  {
    if closed && |buffer| <= 0 then (None, buffer)
    else (Some(buffer[0]), buffer[1..])
  }

  /** `receive()`: nil without calling into libmill when closed and drained;
      otherwise `mill_chr`, then `getValueFromBuffer()`.  The model lets
      `mill_chr` return at once whenever an entry is buffered; an entry left
      by a select send arm that was not chosen has no C send behind it, and
      there the call waits for a later send or `close` before it takes the
      same head. */
  function ReceiveStep<X>(closed: bool, buffer: seq<X>): (r: (Received<X>, seq<X>))
    ensures r.0 == Drained <==> closed && buffer == []
    ensures r.0 == Blocked <==> !closed && buffer == []
    ensures r.0.Got? <==> buffer != []
    ensures r.0.Got? ==> [r.0.value] + r.1 == buffer
    ensures !r.0.Got? ==> r.1 == buffer
  {
    if closed && |buffer| <= 0 then (Drained, buffer)
    else if buffer == [] then (Blocked, buffer)
    else
      var (v, rest) := Take(closed, buffer);
      (Got(v.value), rest)
  }

  /** The buffer after sending each of `xs` in turn. */
  function SendAll<X>(closed: bool, buffer: seq<X>, xs: seq<X>): seq<X>
    decreases |xs|
  {
    if xs == [] then buffer else SendAll(closed, Sent(closed, buffer, xs[0]), xs[1..])
  }

  /** The outcomes of `n` receives in a row. */
  function Receives<X>(closed: bool, buffer: seq<X>, n: nat): seq<Received<X>>
    decreases n
  {
    if n == 0 then []
    else
      var (r, rest) := ReceiveStep(closed, buffer);
      [r] + Receives(closed, rest, n - 1)
  }

  /** Each element wrapped as a received value. */
  function AllGot<X>(xs: seq<X>): (rs: seq<Received<X>>)
    ensures |rs| == |xs| && forall i :: 0 <= i < |xs| ==> rs[i] == Got(xs[i])
  {
    if xs == [] then [] else [Got(xs[0])] + AllGot(xs[1..])
  }

  /** Sends on an open channel append in the order they were made. */
  lemma {:induction false} SendsAppendInOrder<X>(buffer: seq<X>, xs: seq<X>)
    ensures SendAll(false, buffer, xs) == buffer + xs
    decreases |xs|
  {
    if xs != [] {
      SendsAppendInOrder(buffer + [xs[0]], xs[1..]);
      assert buffer + [xs[0]] + xs[1..] == buffer + xs;
    }
  }

  /** Sends on a closed channel are all ignored. */
  lemma {:induction false} ClosedIgnoresSends<X>(buffer: seq<X>, xs: seq<X>)
    ensures SendAll(true, buffer, xs) == buffer
    decreases |xs|
  {
    if xs != [] {
      ClosedIgnoresSends(buffer, xs[1..]);
    }
  }

  /** Receives deliver what is buffered oldest first, whether or not the
      channel has been closed. */
  lemma {:induction false} ReceivesInOrder<X>(closed: bool, buffer: seq<X>)
    ensures Receives(closed, buffer, |buffer|) == AllGot(buffer)
    decreases |buffer|
  {
    if buffer != [] {
      ReceivesInOrder(closed, buffer[1..]);
    }
  }

  /** Once closed and drained, every further receive returns nil. */
  lemma {:induction false} DrainedStaysDrained<X>(n: nat)
    ensures var rs := Receives<X>(true, [], n);
      |rs| == n && forall i :: 0 <= i < n ==> rs[i] == Drained
    decreases n
  {
    if n > 0 {
      DrainedStaysDrained<X>(n - 1);
    }
  }

  /** Values come out in the order they were sent: whatever was buffered,
      then the values sent while open; after `close`, the rest is still
      delivered, and then nil. */
  lemma SendThenCloseThenDrain<X>(buffer: seq<X>, xs: seq<X>)
    ensures var b := SendAll(false, buffer, xs);
      && b == buffer + xs
      && Receives(false, b, |b|) == AllGot(buffer + xs)
      && Receives(true, b, |b| + 1) == AllGot(buffer + xs) + [Drained]
  {
    SendsAppendInOrder(buffer, xs);
    var b := buffer + xs;
    ReceivesInOrder(false, b);
    DrainedAfter(b);
  }

  /** Receiving `|b| + 1` times from a closed channel yields `b`, then nil. */
  lemma {:induction false} DrainedAfter<X>(b: seq<X>)
    ensures Receives(true, b, |b| + 1) == AllGot(b) + [Drained]
    decreases |b|
  {
    if b != [] {
      DrainedAfter(b[1..]);
    }
  }

  /** `Channel`. */
  class Channel<T> {
    var closed: bool
    var buffer: seq<T>
    const bufferSize: int
    /** How many times `mill_chdone` has been called on the C channel. */
    ghost var DoneCalls: nat

    /** libmill aborts on a second `mill_chdone`: the channel signals done
        exactly once, when it becomes closed. */
    ghost predicate Valid()
      reads this
    {
      DoneCalls == if closed then 1 else 0
    }

    /** `isBuffered`. */
    predicate IsBuffered()
    {
      bufferSize > 0
    }

    /** `init(bufferSize:)`; `mill_chmake` is not modelled. */
    constructor (bufferSize: int)
      ensures Valid() && !closed && buffer == [] && this.bufferSize == bufferSize
      ensures IsBuffered() <==> bufferSize > 0
    {
      this.bufferSize := bufferSize;
      closed := false;
      buffer := [];
      DoneCalls := 0;
    }

    /** `close()`: the first call marks the channel closed and calls
        `mill_chdone`; later calls do nothing. */
    method Close()
      requires Valid()
      modifies this
      ensures Valid() && closed && buffer == old(buffer)
      ensures old(closed) ==> DoneCalls == old(DoneCalls)
    {
      if !closed {
        closed := true;
        DoneCalls := DoneCalls + 1;
      }
    }

    /** `send(_:)`: appends when open (then `mill_chs`); ignored when closed. */
    method Send(value: T)
      requires Valid()
      modifies this
      ensures Valid() && closed == old(closed) && DoneCalls == old(DoneCalls)
      ensures buffer == Sent(old(closed), old(buffer), value)
    {
      if !closed {
        buffer := buffer + [value];
      }
    }

    /** `send(_:clause:index:)`, the select path: appends when open and
        registers the clause under `index` with `mill_choose_out`; returns the
        index registered, if any. */
    method SendFromSelect(value: T, index: int) returns (registered: Option<int>)
      requires Valid()
      modifies this
      ensures Valid() && closed == old(closed) && DoneCalls == old(DoneCalls)
      ensures buffer == Sent(old(closed), old(buffer), value)
      ensures registered == if old(closed) then None else Some(index)
    {
      registered := None;
      if !closed {
        buffer := buffer + [value];
        registered := Some(index);
      }
    }

    /** `getValueFromBuffer()`. */
    method GetValueFromBuffer() returns (r: Option<T>)
      requires Valid() && (closed || buffer != [])
      modifies this
      ensures Valid() && closed == old(closed) && DoneCalls == old(DoneCalls)
      ensures (r, buffer) == Take(old(closed), old(buffer))
    {
      if closed && |buffer| <= 0 {
        return None;
      }
      r := Some(buffer[0]);
      buffer := buffer[1..];
    }

    /** `receive()`. */
    method Receive() returns (r: Received<T>)
      requires Valid()
      modifies this
      ensures Valid() && closed == old(closed) && DoneCalls == old(DoneCalls)
      ensures (r, buffer) == ReceiveStep(old(closed), old(buffer))
    {
      if closed && |buffer| <= 0 {
        return Drained;
      }
      if buffer == [] {
        return Blocked;
      }
      var v := GetValueFromBuffer();
      r := Got(v.value);
    }
  }

  /** `ChannelGenerator`: `next()` is a receive, so iteration ends at the
      first nil. */
  class Generator<T> {
    const channel: Channel<T>

    constructor (channel: Channel<T>)
      ensures this.channel == channel
    {
      this.channel := channel;
    }

    method Next() returns (r: Received<T>)
      requires channel.Valid()
      modifies channel
      ensures channel.Valid() && channel.closed == old(channel.closed)
      ensures (r, channel.buffer) == ReceiveStep(old(channel.closed), old(channel.buffer))
    {
      r := channel.Receive();
    }
  }
}

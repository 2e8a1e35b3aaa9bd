/** The side buffer of the libdill channels (Sources/Channel.swift and
    Sources/Venice/Channel.swift).  libdill's `chsend`/`chrecv` only
    rendezvous; the payload travels through a FIFO kept next to the C channel:
    a sender appends its entry before `chsend`, and a receiver whose `chrecv`
    succeeded pops the head.  This module states what that protocol does to
    the buffer's contents, independently of how each generation maps errno
    values to errors. */
module SideBuffer {
  import opened Base

  /** What a sender put in the buffer: a value, or an error for the
      receiver to rethrow. */
  datatype ChannelResult<T, E> = Value(value: T) | Error(error: E)

  /** An error a channel call throws: one the channel raises itself (of the
      generation's own error type `C`), or a payload error rethrown. */
  datatype Thrown<C, E> = Raised(error: C) | Rethrown(payload: E)

  /** A channel call returns `R` or throws. */
  datatype Outcome<R, C, E> = Return(value: R) | Throw(thrown: Thrown<C, E>)

  /** `ChannelResult.getValue()`: the value of a `.value`, and the carried
      error of an `.error` thrown again. */
  function GetValue<T, C, E>(r: ChannelResult<T, E>): (o: Outcome<T, C, E>)
    ensures o.Return? <==> r.Value?
    ensures r.Value? ==> o.value == r.value
    ensures r.Error? ==> o.thrown == Rethrown(r.error)
  {
    match r
    case Value(v) => Return(v)
    case Error(e) => Throw(Rethrown(e))
  }

  /** The buffer after a send whose `chsend` reported `rc`: the entry
      appended before the call stays, except after a timeout, where the
      sender takes its own node out again. */
  function SendBuffer<T, E>(buf: seq<ChannelResult<T, E>>, r: ChannelResult<T, E>, rc: CResult): (b: seq<ChannelResult<T, E>>)
    ensures rc == Failed(ETIMEDOUT) ==> b == buf
    ensures rc != Failed(ETIMEDOUT) ==> |b| == |buf| + 1 && b[..|buf|] == buf && b[|buf|] == r
  {
    if rc == Failed(ETIMEDOUT) then buf else buf + [r]
  }

  /** The buffer after a receive whose `chrecv` reported `rc`: a failed call
      leaves it alone; a successful one pops the head (an empty buffer makes
      `removeFirst` throw, and nothing changes). */
  function ReceiveBuffer<T, E>(buf: seq<ChannelResult<T, E>>, rc: CResult): (b: seq<ChannelResult<T, E>>)
    ensures rc.Failed? || buf == [] ==> b == buf
    ensures rc == Success && buf != [] ==> [buf[0]] + b == buf
  {
    if rc == Success && buf != [] then buf[1..] else buf
  }

  /** The buffer after successful sends of `rs`, one after the other. */
  function SendAll<T, E>(buf: seq<ChannelResult<T, E>>, rs: seq<ChannelResult<T, E>>): seq<ChannelResult<T, E>>
    decreases |rs|
  {
    if rs == [] then buf else SendAll(SendBuffer(buf, rs[0], Success), rs[1..])
  }

  /** The entries `k` successful receives take out of `buf`, in order. */
  function Received<T, E>(buf: seq<ChannelResult<T, E>>, k: nat): seq<ChannelResult<T, E>>
    decreases k
  {
    if k == 0 || buf == [] then [] else [buf[0]] + Received(ReceiveBuffer(buf, Success), k - 1)
  }

  /** Successful sends append their entries in the order they were made. */
  lemma {:induction false} SendAllAppends<T, E>(buf: seq<ChannelResult<T, E>>, rs: seq<ChannelResult<T, E>>)
    ensures SendAll(buf, rs) == buf + rs
    decreases |rs|
  {
    if rs != [] {
      SendAllAppends(buf + [rs[0]], rs[1..]);
      assert buf + [rs[0]] + rs[1..] == buf + rs;
    }
  }

  /** Successful receives take the oldest entries first. */
  lemma {:induction false} ReceivedIsPrefix<T, E>(buf: seq<ChannelResult<T, E>>, k: nat)
    ensures Received(buf, k) == buf[..if k < |buf| then k else |buf|]
    decreases k
  {
    if k != 0 && buf != [] {
      ReceivedIsPrefix(buf[1..], k - 1);
      assert [buf[0]] + buf[1..][..if k - 1 < |buf| - 1 then k - 1 else |buf| - 1]
          == buf[..if k < |buf| then k else |buf|];
    }
  }

  /** The channel is FIFO: after successful sends of `rs` into an empty
      buffer, as many successful receives deliver exactly `rs`, in order. */
  lemma Fifo<T, E>(rs: seq<ChannelResult<T, E>>)
    ensures Received(SendAll([], rs), |rs|) == rs
  {
    SendAllAppends([], rs);
    ReceivedIsPrefix(rs, |rs|);
    assert [] + rs == rs;
  }
}

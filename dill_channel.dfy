/** The libdill channel of Sources/Venice/Channel.swift: a handle on a
    zero-capacity C channel plus the side buffer that carries the payloads,
    its errno switches, and the `SendOnly`/`ReceiveOnly` views. */
module DillChannel {
  import opened Base
  import opened SideBuffer
  import DList
  import Time
  import Handles

  /** The errors this file throws.  They are not cases of the `VeniceError`
      of Sources/Venice/Error.swift, so they get their own type here. */
  datatype ChannelError =
    | CanceledChannel
    | CanceledCoroutine
    | ChannelIsDone
    | Timeout
    | OutOfMemory
    | UnexpectedError

  type Result<R, E> = Outcome<R, ChannelError, E>

  /** The switch of `init` on the errno left by a failed `chmake`. */
  function InitError(errno: int): (e: ChannelError)
    ensures e == CanceledCoroutine <==> errno == ECANCELED
    ensures e == OutOfMemory <==> errno == ENOMEM
    ensures e == UnexpectedError <==> errno != ECANCELED && errno != ENOMEM
  {
    if errno == ECANCELED then CanceledCoroutine
    else if errno == ENOMEM then OutOfMemory
    else UnexpectedError
  }

  /** The switch shared by `send` and `receive` on the errno left by a failed
      `chsend`/`chrecv`. */
  function OperationError(errno: int): (e: ChannelError)
    ensures e == CanceledChannel <==> errno == EBADF
    ensures e == CanceledCoroutine <==> errno == ECANCELED
    ensures e == ChannelIsDone <==> errno == EPIPE
    ensures e == Timeout <==> errno == ETIMEDOUT
    ensures e == UnexpectedError <==> errno !in {EBADF, ECANCELED, EPIPE, ETIMEDOUT}
  {
    if errno == EBADF then CanceledChannel
    else if errno == ECANCELED then CanceledCoroutine
    else if errno == EPIPE then ChannelIsDone
    else if errno == ETIMEDOUT then Timeout
    else UnexpectedError
  }

  /** The switch of `done` on the errno left by a failed `chdone`. */
  function DoneError(errno: int): (e: ChannelError)
    ensures e == CanceledChannel <==> errno == EBADF
    ensures e == ChannelIsDone <==> errno == EPIPE
    ensures e == UnexpectedError <==> errno != EBADF && errno != EPIPE
  {
    if errno == EBADF then CanceledChannel
    else if errno == EPIPE then ChannelIsDone
    else UnexpectedError
  }

  /** What `send` reports once `chsend` returned `rc`. */
  function SendOutcome<E>(rc: CResult): (o: Result<(), E>)
    ensures o.Return? <==> rc == Success
    ensures rc.Failed? ==> o == Throw(Raised(OperationError(rc.errno)))
  {
    match rc
    case Success => Return(())
    case Failed(errno) => Throw(Raised(OperationError(errno)))
  }

  /** What `receive` reports once `chrecv` returned `rc`, with `buf` the
      side buffer before the call: the mapped error when the call failed,
      otherwise the head entry's value or its rethrown error (and
      `unexpectedError` from `removeFirst` if the buffer is empty). */
  function ReceiveOutcome<T, E>(buf: seq<ChannelResult<T, E>>, rc: CResult): (o: Result<T, E>)
    ensures rc.Failed? ==> o == Throw(Raised(OperationError(rc.errno)))
    ensures rc == Success && buf == [] ==> o == Throw(Raised(UnexpectedError))
    ensures rc == Success && buf != [] ==> o == GetValue(buf[0])
  {
    match rc
    case Failed(errno) => Throw(Raised(OperationError(errno)))
    case Success => if buf == [] then Throw(Raised(UnexpectedError)) else GetValue(buf[0])
  }

  /** What `done` reports once `chdone` returned `rc`. */
  function DoneOutcome<E>(rc: CResult): (o: Result<(), E>)
    ensures o.Return? <==> rc == Success
    ensures rc.Failed? ==> o == Throw(Raised(DoneError(rc.errno)))
  {
    match rc
    case Success => Return(())
    case Failed(errno) => Throw(Raised(DoneError(errno)))
  }

  class Channel<T, E> {
    const handle: int
    const buffer: DList.List<ChannelResult<T, E>>

    ghost predicate Valid()
      reads this, buffer, buffer.Repr
    {
      buffer.Valid()
    }

    /** The payloads waiting in the side buffer, oldest first. */
    ghost function Pending(): seq<ChannelResult<T, E>>
      reads this, buffer
    {
      buffer.Contents
    }

    constructor (handle: int)
      ensures Valid() && fresh(buffer) && fresh(buffer.Repr)
      ensures this.handle == handle && Pending() == []
    {
      this.handle := handle;
      buffer := new DList.List();
    }

    /** `init()`: `rc` is what `chmake` reported and `handle` the descriptor
        it returned on success.  A failure throws the mapped error and makes
        no channel. */
    static method Init(rc: CResult, handle: int) returns (channel: Channel?<T, E>, error: Option<ChannelError>)
      ensures rc == Success ==> error == None && channel != null && fresh(channel)
      ensures rc == Success ==> channel.Valid() && channel.handle == handle && channel.Pending() == []
      ensures rc.Failed? ==> channel == null && error == Some(InitError(rc.errno))
    {
      if rc.Failed? {
        return null, Some(InitError(rc.errno));
      }
      channel := new Channel(handle);
      error := None;
    }

    /** `send(_:deadline:)` on a value or an error: appends the entry, then
        calls `chsend`, which reported `rc`; only a timeout takes the entry
        out again. */
    method Send(r: ChannelResult<T, E>, deadline: Time.Deadline, rc: CResult) returns (o: Result<(), E>)
      requires Valid()
      modifies buffer, buffer.Repr
      ensures Valid()
      ensures o == SendOutcome(rc)
      ensures Pending() == SendBuffer(old(Pending()), r, rc)
    {
      var node := buffer.Append(r);
      if rc.Failed? {
        if rc.errno == ETIMEDOUT {
          ghost var before := buffer.Nodes;
          var _ := buffer.Remove(node);
          assert DList.IndexOf(before, node) == |before| - 1;
          assert buffer.Contents == old(buffer.Contents);
        }
        o := Throw(Raised(OperationError(rc.errno)));
      } else {
        o := Return(());
      }
    }

    /** `send(_ value:deadline:)`. */
    method SendValue(value: T, deadline: Time.Deadline, rc: CResult) returns (o: Result<(), E>)
      requires Valid()
      modifies buffer, buffer.Repr
      ensures Valid()
      ensures o == SendOutcome(rc)
      ensures Pending() == SendBuffer(old(Pending()), Value(value), rc)
    {
      o := Send(Value(value), deadline, rc);
    }

    /** `send(_ error:deadline:)`. */
    method SendError(error: E, deadline: Time.Deadline, rc: CResult) returns (o: Result<(), E>)
      requires Valid()
      modifies buffer, buffer.Repr
      ensures Valid()
      ensures o == SendOutcome(rc)
      ensures Pending() == SendBuffer(old(Pending()), Error(error), rc)
    {
      o := Send(Error(error), deadline, rc);
    }

    /** `receive(deadline:)`: calls `chrecv`, which reported `rc`; on success
        pops the head entry and returns its value or rethrows its error. */
    method Receive(deadline: Time.Deadline, rc: CResult) returns (o: Result<T, E>)
      requires Valid()
      modifies buffer, buffer.Repr
      ensures Valid()
      ensures o == ReceiveOutcome(old(Pending()), rc)
      ensures Pending() == ReceiveBuffer(old(Pending()), rc)
    {
      if rc.Failed? {
        return Throw(Raised(OperationError(rc.errno)));
      }
      var first := buffer.RemoveFirst();
      match first
      case None =>
        o := Throw(Raised(UnexpectedError));
      case Some(entry) =>
        o := GetValue(entry);
    }

    /** `done()`: `chdone` on the handle, whose effect on the handle's
        lifecycle is the runtime's; its result is mapped as above. */
    method Done(rt: Handles.Runtime) returns (o: Result<(), E>)
      requires handle in rt.states
      modifies rt
      ensures rt.states == old(rt.states)[handle := Handles.HdoneStep(old(rt.states[handle])).1]
      ensures o == DoneOutcome(Handles.HdoneStep(old(rt.states[handle])).0)
      ensures o.Return? <==> old(rt.states[handle]) == Handles.Open
    {
      var rc := rt.Hdone(handle);
      o := DoneOutcome(rc);
    }
  }

  /** `SendOnly`: a handle on the parent's descriptor (`channel.handle`)
      that forwards to the channel it was made from. */
  class SendOnly<T, E> {
    const channel: Channel<T, E>

    constructor (channel: Channel<T, E>)
      ensures this.channel == channel
    {
      this.channel := channel;
    }

    method SendValue(value: T, deadline: Time.Deadline, rc: CResult) returns (o: Result<(), E>)
      requires channel.Valid()
      modifies channel.buffer, channel.buffer.Repr
      ensures channel.Valid()
      ensures o == SendOutcome(rc)
      ensures channel.Pending() == SendBuffer(old(channel.Pending()), Value(value), rc)
    {
      o := channel.SendValue(value, deadline, rc);
    }

    method SendError(error: E, deadline: Time.Deadline, rc: CResult) returns (o: Result<(), E>)
      requires channel.Valid()
      modifies channel.buffer, channel.buffer.Repr
      ensures channel.Valid()
      ensures o == SendOutcome(rc)
      ensures channel.Pending() == SendBuffer(old(channel.Pending()), Error(error), rc)
    {
      o := channel.SendError(error, deadline, rc);
    }

    method Done(rt: Handles.Runtime) returns (o: Result<(), E>)
      requires channel.handle in rt.states
      modifies rt
      ensures rt.states == old(rt.states)[channel.handle := Handles.HdoneStep(old(rt.states[channel.handle])).1]
      ensures o == DoneOutcome(Handles.HdoneStep(old(rt.states[channel.handle])).0)
    {
      o := channel.Done(rt);
    }
  }

  /** `ReceiveOnly`: a handle on the parent's descriptor (`channel.handle`)
      that forwards to the channel it was made from. */
  class ReceiveOnly<T, E> {
    const channel: Channel<T, E>

    constructor (channel: Channel<T, E>)
      ensures this.channel == channel
    {
      this.channel := channel;
    }

    method Receive(deadline: Time.Deadline, rc: CResult) returns (o: Result<T, E>)
      requires channel.Valid()
      modifies channel.buffer, channel.buffer.Repr
      ensures channel.Valid()
      ensures o == ReceiveOutcome(old(channel.Pending()), rc)
      ensures channel.Pending() == ReceiveBuffer(old(channel.Pending()), rc)
    {
      o := channel.Receive(deadline, rc);
    }

    method Done(rt: Handles.Runtime) returns (o: Result<(), E>)
      requires channel.handle in rt.states
      modifies rt
      ensures rt.states == old(rt.states)[channel.handle := Handles.HdoneStep(old(rt.states[channel.handle])).1]
      ensures o == DoneOutcome(Handles.HdoneStep(old(rt.states[channel.handle])).0)
    {
      o := channel.Done(rt);
    }
  }

  /** Two values sent into an empty channel and then received come out in
      the order they were sent, and the buffer is empty again. */
  lemma SendOrderIsReceiveOrder<T, E>(a: T, b: T)
    ensures var buf := SendBuffer(SendBuffer([], Value(a), Success), Value(b), Success);
      && ReceiveOutcome<T, E>(buf, Success) == Return(a)
      && ReceiveOutcome<T, E>(ReceiveBuffer(buf, Success), Success) == Return(b)
      && ReceiveBuffer(ReceiveBuffer(buf, Success), Success) == []
  {
  }

  /** A send that times out leaves the buffer as it found it and throws
      `timeout`; every other failed send leaves its entry behind. */
  lemma FailedSendBuffers<T, E>(buf: seq<ChannelResult<T, E>>, r: ChannelResult<T, E>, errno: int)
    ensures SendOutcome<E>(Failed(errno)) == Throw(Raised(if errno == ETIMEDOUT then Timeout else OperationError(errno)))
    ensures SendBuffer(buf, r, Failed(errno)) == if errno == ETIMEDOUT then buf else buf + [r]
  {
  }

  /** Against libdill's handle lifecycle: once the channel is done every
      send and receive throws `channelIsDone`, and once its handle is closed
      they throw `canceledChannel`; a second `done` throws `channelIsDone`. */
  lemma LifecycleErrors<T, E>(s: Handles.Life, buf: seq<ChannelResult<T, E>>)
    requires s != Handles.Open
    ensures var rc := Failed(Handles.ChannelOpFailure(s).value);
      && SendOutcome<E>(rc) == Throw(Raised(if s == Handles.Done then ChannelIsDone else CanceledChannel))
      && ReceiveOutcome(buf, rc) == Throw(Raised(if s == Handles.Done then ChannelIsDone else CanceledChannel))
    ensures DoneOutcome<E>(Handles.HdoneStep(s).0) == Throw(Raised(if s == Handles.Done then ChannelIsDone else CanceledChannel))
  {
  }
}

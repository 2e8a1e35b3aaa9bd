/** The first libdill channel (Sources/Channel.swift): the same side-buffer
    protocol as the later one, the errors of Sources/Error.swift, a `done`
    that discards what `hdone` reports, and the `Sending`/`Receiving` views.
    Its private `List` is the list of module `DList`. */
module LegacyChannel {
  import opened Base
  import opened SideBuffer
  import opened LegacyErrors
  import DList
  import Time
  import Handles

  type Result<R, E> = Outcome<R, VeniceError, E>

  /** The switch of `init` on the errno left by a failed `chmake`. */
  function InitError(errno: int): (e: VeniceError)
    ensures e == CanceledCoroutine <==> errno == ECANCELED
    ensures e == OutOfMemory <==> errno == ENOMEM
    ensures e == UnexpectedError <==> errno != ECANCELED && errno != ENOMEM
  {
    if errno == ECANCELED then CanceledCoroutine
    else if errno == ENOMEM then OutOfMemory
    else UnexpectedError
  }

  /** The switch shared by `send` and `receive`; EBADF has no arm of its own
      and falls to `unexpectedError`. */
  function OperationError(errno: int): (e: VeniceError)
    ensures e == CanceledCoroutine <==> errno == ECANCELED
    ensures e == DoneChannel <==> errno == EPIPE
    ensures e == DeadlineReached <==> errno == ETIMEDOUT
    ensures e == UnexpectedError <==> errno !in {ECANCELED, EPIPE, ETIMEDOUT}
  {
    if errno == ECANCELED then CanceledCoroutine
    else if errno == EPIPE then DoneChannel
    else if errno == ETIMEDOUT then DeadlineReached
    else UnexpectedError
  }

  /** What `send` reports once `chsend` returned `rc`. */
  function SendOutcome<E>(rc: CResult): (o: Result<(), E>)
    ensures o.Return? <==> rc == Success
    ensures rc.Failed? ==> o == Throw(Raised(OperationError(rc.errno)))
  {
    match rc
    case Success => Return(())
    case Failed(errno) => Throw(Raised(OperationError(errno)))
  }

  /** What `receive` reports once `chrecv` returned `rc`, with `buf` the
      side buffer before the call. */
  function ReceiveOutcome<T, E>(buf: seq<ChannelResult<T, E>>, rc: CResult): (o: Result<T, E>)
    ensures rc.Failed? ==> o == Throw(Raised(OperationError(rc.errno)))
    ensures rc == Success && buf == [] ==> o == Throw(Raised(UnexpectedError))
    ensures rc == Success && buf != [] ==> o == GetValue(buf[0])
  {
    match rc
    case Failed(errno) => Throw(Raised(OperationError(errno)))
    case Success => if buf == [] then Throw(Raised(UnexpectedError)) else GetValue(buf[0])
  }

  class Channel<T, E> {
    const handle: int
    const buffer: DList.List<ChannelResult<T, E>>

    ghost predicate Valid()
      reads this, buffer, buffer.Repr
    {
      buffer.Valid()
    }

    /** The payloads waiting in the side buffer, oldest first. */
    ghost function Pending(): seq<ChannelResult<T, E>>
      reads this, buffer
    {
      buffer.Contents
    }

    constructor (handle: int)
      ensures Valid() && fresh(buffer) && fresh(buffer.Repr)
      ensures this.handle == handle && Pending() == []
    {
      this.handle := handle;
      buffer := new DList.List();
    }

    /** `init()`: `rc` is what `chmake` reported and `handle` the descriptor
        it returned on success. */
    static method Init(rc: CResult, handle: int) returns (channel: Channel?<T, E>, error: Option<VeniceError>)
      ensures rc == Success ==> error == None && channel != null && fresh(channel)
      ensures rc == Success ==> channel.Valid() && channel.handle == handle && channel.Pending() == []
      ensures rc.Failed? ==> channel == null && error == Some(InitError(rc.errno))
    {
      if rc.Failed? {
        return null, Some(InitError(rc.errno));
      }
      channel := new Channel(handle);
      error := None;
    }

    /** The private `send(_:deadline:)`: appends the entry, then calls
        `chsend`, which reported `rc`; only a timeout takes the entry out. */
    method Send(r: ChannelResult<T, E>, deadline: Time.Deadline, rc: CResult) returns (o: Result<(), E>)
      requires Valid()
      modifies buffer, buffer.Repr
      ensures Valid()
      ensures o == SendOutcome(rc)
      ensures Pending() == SendBuffer(old(Pending()), r, rc)
    {
      var node := buffer.Append(r);
      if rc.Failed? {
        if rc.errno == ETIMEDOUT {
          ghost var before := buffer.Nodes;
          var _ := buffer.Remove(node);
          assert DList.IndexOf(before, node) == |before| - 1;
          assert buffer.Contents == old(buffer.Contents);
        }
        o := Throw(Raised(OperationError(rc.errno)));
      } else {
        o := Return(());
      }
    }

    method SendValue(value: T, deadline: Time.Deadline, rc: CResult) returns (o: Result<(), E>)
      requires Valid()
      modifies buffer, buffer.Repr
      ensures Valid()
      ensures o == SendOutcome(rc)
      ensures Pending() == SendBuffer(old(Pending()), Value(value), rc)
    {
      o := Send(Value(value), deadline, rc);
    }

    method SendError(error: E, deadline: Time.Deadline, rc: CResult) returns (o: Result<(), E>)
      requires Valid()
      modifies buffer, buffer.Repr
      ensures Valid()
      ensures o == SendOutcome(rc)
      ensures Pending() == SendBuffer(old(Pending()), Error(error), rc)
    {
      o := Send(Error(error), deadline, rc);
    }

    /** `receive(deadline:)`: calls `chrecv`, which reported `rc`; on success
        pops the head entry and returns its value or rethrows its error. */
    method Receive(deadline: Time.Deadline, rc: CResult) returns (o: Result<T, E>)
      requires Valid()
      modifies buffer, buffer.Repr
      ensures Valid()
      ensures o == ReceiveOutcome(old(Pending()), rc)
      ensures Pending() == ReceiveBuffer(old(Pending()), rc)
    {
      if rc.Failed? {
        return Throw(Raised(OperationError(rc.errno)));
      }
      var first := buffer.RemoveFirst();
      match first
      case None =>
        o := Throw(Raised(UnexpectedError));
      case Some(entry) =>
        o := GetValue(entry);
    }

    /** `done()`: `hdone` on the handle; whatever it reports is dropped, so
        `done` never throws and leaves the side buffer alone. */
    method Done(rt: Handles.Runtime)
      requires handle in rt.states
      modifies rt
      ensures rt.states == old(rt.states)[handle := Handles.HdoneStep(old(rt.states[handle])).1]
    {
      var _ := rt.Hdone(handle);
    }
  }

  /** `Sending`: forwards to the channel it was made from. */
  class Sending<T, E> {
    const channel: Channel<T, E>

    constructor (channel: Channel<T, E>)
      ensures this.channel == channel
    {
      this.channel := channel;
    }

    method SendValue(value: T, deadline: Time.Deadline, rc: CResult) returns (o: Result<(), E>)
      requires channel.Valid()
      modifies channel.buffer, channel.buffer.Repr
      ensures channel.Valid()
      ensures o == SendOutcome(rc)
      ensures channel.Pending() == SendBuffer(old(channel.Pending()), Value(value), rc)
    {
      o := channel.SendValue(value, deadline, rc);
    }

    method SendError(error: E, deadline: Time.Deadline, rc: CResult) returns (o: Result<(), E>)
      requires channel.Valid()
      modifies channel.buffer, channel.buffer.Repr
      ensures channel.Valid()
      ensures o == SendOutcome(rc)
      ensures channel.Pending() == SendBuffer(old(channel.Pending()), Error(error), rc)
    {
      o := channel.SendError(error, deadline, rc);
    }

    method Done(rt: Handles.Runtime)
      requires channel.handle in rt.states
      modifies rt
      ensures rt.states == old(rt.states)[channel.handle := Handles.HdoneStep(old(rt.states[channel.handle])).1]
    {
      channel.Done(rt);
    }
  }

  /** `Receiving`: forwards to the channel it was made from. */
  class Receiving<T, E> {
    const channel: Channel<T, E>

    constructor (channel: Channel<T, E>)
      ensures this.channel == channel
    {
      this.channel := channel;
    }

    method Receive(deadline: Time.Deadline, rc: CResult) returns (o: Result<T, E>)
      requires channel.Valid()
      modifies channel.buffer, channel.buffer.Repr
      ensures channel.Valid()
      ensures o == ReceiveOutcome(old(channel.Pending()), rc)
      ensures channel.Pending() == ReceiveBuffer(old(channel.Pending()), rc)
    {
      o := channel.Receive(deadline, rc);
    }

    method Done(rt: Handles.Runtime)
      requires channel.handle in rt.states
      modifies rt
      ensures rt.states == old(rt.states)[channel.handle := Handles.HdoneStep(old(rt.states[channel.handle])).1]
    {
      channel.Done(rt);
    }
  }

  /** After `done`, every send and receive throws `doneChannel`, as the doc
      comment of `done` promises; on a closed handle (EBADF) they throw
      `unexpectedError`, for which this file has no dedicated case. */
  lemma AfterDone<T, E>(s: Handles.Life, buf: seq<ChannelResult<T, E>>)
    requires s != Handles.Open
    ensures var rc := Failed(Handles.ChannelOpFailure(s).value);
      && SendOutcome<E>(rc) == Throw(Raised(if s == Handles.Done then DoneChannel else UnexpectedError))
      && ReceiveOutcome(buf, rc) == Throw(Raised(if s == Handles.Done then DoneChannel else UnexpectedError))
  {
  }

  /** Two sends followed by two receives return the values in send order
      (the case of Tests/VeniceTests/Venice/ChannelTests.swift). */
  lemma SendOrderIsReceiveOrder<T, E>(a: T, b: T)
    ensures var buf := SendBuffer(SendBuffer([], Value(a), Success), Value(b), Success);
      && ReceiveOutcome<T, E>(buf, Success) == Return(a)
      && ReceiveOutcome<T, E>(ReceiveBuffer(buf, Success), Success) == Return(b)
  {
  }
}

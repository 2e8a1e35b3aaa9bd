/** Handles of the libdill generation (Sources/Venice/Handle.swift): the errno
    switches of `done(deadline:)` and `close()`, and the Open/Done/Closed
    lifecycle of a channel handle that the channel tests observe through them. */
module Handles {
  import opened Base
  import opened VeniceErrors
  import Time

  /** A call that either returns normally or throws. */
  datatype Outcome = Pass | Fail(error: VeniceError)

  /** The switch of `done(deadline:)` on the errno left by a failed `hdone`. */
  function DoneError(errno: int): (e: VeniceError)
    ensures e == InvalidHandle <==> errno == EBADF
    ensures e == OperationNotSupported <==> errno == ENOTSUP
    ensures e == HandleIsDone <==> errno == EPIPE
    ensures e == DeadlineReached <==> errno == ETIMEDOUT
    ensures e == UnexpectedError <==> errno !in {EBADF, ENOTSUP, EPIPE, ETIMEDOUT}
  {
    if errno == EBADF then InvalidHandle
    else if errno == ENOTSUP then OperationNotSupported
    else if errno == EPIPE then HandleIsDone
    else if errno == ETIMEDOUT then DeadlineReached
    else UnexpectedError
  }

  /** The switch of `close()` on the errno left by a failed `hclose`. */
  function CloseError(errno: int): (e: VeniceError)
    ensures e == InvalidHandle <==> errno == EBADF
    ensures e != InvalidHandle <==> e == UnexpectedError
  {
    if errno == EBADF then InvalidHandle else UnexpectedError
  }

  /** What `done(deadline:)` makes of the result of `hdone`. */
  function DoneOutcome(rc: CResult): (o: Outcome)
    ensures o == Pass <==> rc == Success
    ensures rc.Failed? ==> o.Fail? && o.error == DoneError(rc.errno)
  {
    match rc
    case Success => Pass
    case Failed(errno) => Fail(DoneError(errno))
  }

  /** What `close()` makes of the result of `hclose`. */
  function CloseOutcome(rc: CResult): (o: Outcome)
    ensures o == Pass <==> rc == Success
    ensures rc.Failed? ==> o.Fail? && o.error == CloseError(rc.errno)
  {
    match rc
    case Success => Pass
    case Failed(errno) => Fail(CloseError(errno))
  }

  /** The state of a channel handle inside libdill, as the tests observe it. */
  datatype Life = Open | Done | Closed

  /** `hdone` on a channel handle: the first call succeeds and marks it done,
      a later one reports EPIPE, and a closed handle reports EBADF. */
  function HdoneStep(s: Life): (CResult, Life)
  {
    match s
    case Open => (Success, Done)
    case Done => (Failed(EPIPE), Done)
    case Closed => (Failed(EBADF), Closed)
  }

  /** `hclose`: releases a live handle; a released one reports EBADF. */
  function HcloseStep(s: Life): (CResult, Life)
  {
    match s
    case Closed => (Failed(EBADF), Closed)
    case _ => (Success, Closed)
  }

  /** The failure a channel send or receive meets before any rendezvous:
      none while open, EPIPE once done, EBADF once closed. */
  function ChannelOpFailure(s: Life): Option<int>
  {
    match s
    case Open => None
    case Done => Some(EPIPE)
    case Closed => Some(EBADF)
  }

  /** libdill's handle table: the lifecycle state of every live descriptor. */
  class Runtime {
    var states: map<int, Life>

    constructor ()
      ensures states == map[]
    {
      states := map[];
    }

    /** Registers the descriptor `chmake` returned as a new open handle. */
    method Make(h: int)
      requires h !in states
      modifies this
      ensures states == old(states)[h := Open]
    {
      states := states[h := Open];
    }

    method Hdone(h: int) returns (rc: CResult)
      requires h in states
      modifies this
      ensures states == old(states)[h := HdoneStep(old(states[h])).1]
      ensures rc == HdoneStep(old(states[h])).0
    {
      var (r, s) := HdoneStep(states[h]);
      rc := r;
      states := states[h := s];
    }

    method Hclose(h: int) returns (rc: CResult)
      requires h in states
      modifies this
      ensures states == old(states)[h := HcloseStep(old(states[h])).1]
      ensures rc == HcloseStep(old(states[h])).0
    {
      var (r, s) := HcloseStep(states[h]);
      rc := r;
      states := states[h := s];
    }
  }

  /** `Handle`: a raw descriptor shared by a resource and its views. */
  class Handle {
    const descriptor: int

    constructor (descriptor: int)
      ensures this.descriptor == descriptor
    {
      this.descriptor := descriptor;
    }

    /** `done(deadline:)`: passes exactly when `hdone` succeeds, which for a
        channel handle is exactly when it was still open. */
    method Done(deadline: Time.Deadline, rt: Runtime) returns (o: Outcome)
      requires descriptor in rt.states
      modifies rt
      ensures o == DoneOutcome(HdoneStep(old(rt.states[descriptor])).0)
      ensures o == Pass <==> old(rt.states[descriptor]) == Open
      ensures rt.states == old(rt.states)[descriptor := HdoneStep(old(rt.states[descriptor])).1]
    {
      var rc := rt.Hdone(descriptor);
      o := DoneOutcome(rc);
    }

    /** `close()`: passes exactly when `hclose` succeeds. */
    method Close(rt: Runtime) returns (o: Outcome)
      requires descriptor in rt.states
      modifies rt
      ensures o == CloseOutcome(HcloseStep(old(rt.states[descriptor])).0)
      ensures o == Pass <==> old(rt.states[descriptor]) != Closed
      ensures rt.states == old(rt.states)[descriptor := Closed]
    {
      var rc := rt.Hclose(descriptor);
      o := CloseOutcome(rc);
    }
  }

  /** A second `done` fails with `handleIsDone`, whatever handle object with
      the same descriptor issues it. */
  lemma SecondDoneFails(s: Life)
    requires s != Closed
    ensures DoneOutcome(HdoneStep(s).0) == (if s == Open then Pass else Fail(HandleIsDone))
    ensures DoneOutcome(HdoneStep(HdoneStep(s).1).0) == Fail(HandleIsDone)
  {
  }

  /** After `close`, `done` and a second `close` fail with `invalidHandle`,
      and every channel operation meets EBADF. */
  lemma ClosedIsInvalid(s: Life)
    ensures DoneOutcome(HdoneStep(HcloseStep(s).1).0) == Fail(InvalidHandle)
    ensures CloseOutcome(HcloseStep(HcloseStep(s).1).0) == Fail(InvalidHandle)
    ensures ChannelOpFailure(HcloseStep(s).1) == Some(EBADF)
  {
  }

  /** Once done, a channel handle stays done until closed, and every channel
      operation meets EPIPE. */
  lemma DoneIsSticky(s: Life)
    requires s != Closed
    ensures HdoneStep(s).1 == Done
    ensures ChannelOpFailure(HdoneStep(s).1) == Some(EPIPE)
    ensures ChannelOpFailure(s) == None <==> s == Open
  {
  }
}

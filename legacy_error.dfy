/** The error enum of the older libdill generation (Sources/Error.swift) and
    its hand-written `==`. */
module LegacyErrors {

  datatype VeniceError =
    | CanceledCoroutine
    | InvalidFileDescriptor
    | FileDescriptorBlockedInAnotherCoroutine
    | DeadlineReached
    | OutOfMemory
    | DoneChannel
    | ReadFailed
    | WriteFailed
    | UnexpectedError

  /** `==` lists the nine diagonal pairs as equal; every other pair falls to
      the default arm. */
  function Equal(lhs: VeniceError, rhs: VeniceError): (r: bool)
    ensures r <==> lhs == rhs
  {
    match (lhs, rhs)
    case (CanceledCoroutine, CanceledCoroutine) => true
    case (InvalidFileDescriptor, InvalidFileDescriptor) => true
    case (FileDescriptorBlockedInAnotherCoroutine, FileDescriptorBlockedInAnotherCoroutine) => true
    case (DeadlineReached, DeadlineReached) => true
    case (OutOfMemory, OutOfMemory) => true
    case (DoneChannel, DoneChannel) => true
    case (UnexpectedError, UnexpectedError) => true
    case (ReadFailed, ReadFailed) => true
    case (WriteFailed, WriteFailed) => true
    case _ => false
  }

  /** The channel's "done" error is told apart from a timeout and from a
      cancellation, and `==` is symmetric. */
  lemma DoneChannelIsDistinct(a: VeniceError, b: VeniceError)
    ensures !Equal(DoneChannel, DeadlineReached) && !Equal(DoneChannel, CanceledCoroutine)
    ensures Equal(a, b) == Equal(b, a)
  {
  }
}

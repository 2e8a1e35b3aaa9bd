/** The error enum of the libdill generation (Sources/Venice/Error.swift) and
    its hand-written `==`. */
module VeniceErrors {

  datatype VeniceError =
    | Canceled
    | OperationNotSupported
    | InvalidHandle
    | InvalidFileDescriptor
    | FileDescriptorBlockedInAnotherCoroutine
    | DeadlineReached
    | OutOfMemory
    | HandleIsDone
    | BrokenConnection
    | ClosedConnection
    | InvalidArguments
    | UnexpectedError

  /** `==` is a switch over pairs: every diagonal pair is listed as equal and
      the default arm answers false, so it agrees with case identity. */
  function Equal(lhs: VeniceError, rhs: VeniceError): (r: bool)
    ensures r <==> lhs == rhs
  {
    match (lhs, rhs)
    case (Canceled, Canceled) => true
    case (OperationNotSupported, OperationNotSupported) => true
    case (InvalidHandle, InvalidHandle) => true
    case (InvalidFileDescriptor, InvalidFileDescriptor) => true
    case (FileDescriptorBlockedInAnotherCoroutine, FileDescriptorBlockedInAnotherCoroutine) => true
    case (DeadlineReached, DeadlineReached) => true
    case (OutOfMemory, OutOfMemory) => true
    case (HandleIsDone, HandleIsDone) => true
    case (ClosedConnection, ClosedConnection) => true
    case (BrokenConnection, BrokenConnection) => true
    case (InvalidArguments, InvalidArguments) => true
    case (UnexpectedError, UnexpectedError) => true
    case _ => false
  }
}

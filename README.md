# Venice channels, handles, coroutines and select — a Dafny model

Venice is a Swift layer over the libmill and libdill C coroutine runtimes.
The C side does the scheduling, the rendezvous of `chsend`/`chrecv` and the
`choose` of a select. The Swift side adds its own bookkeeping around those
calls, and that bookkeeping is what this project models and proves things about.

Every call into C is an input of the model:
- `co`, `chmake`, `chsend`, `chrecv`, `chdone`, `hdone`, `hclose`, `yield` and `msleep` are a `CResult` (success, or failure with an errno; Linux numbering);
- `mill_choose_wait` and `go_select_wait` are the index `chosen`;
- `go_receive_from_channel` and `go_select_value` are the value they hand back (`taken`, `received`);
- libdill's clock is the parameter `clock`.

The model covers four generations of the channel.
- **libdill** (`Sources/`): a zero-capacity C channel plus a Swift side buffer that carries the payloads.
  - The buffer is an intrusive doubly-linked FIFO list: module `DList`, a class over heap nodes with a ghost sequence of its contents.
  - A sender appends its `value | error` entry before `chsend`. It takes the entry out again only when `chsend` times out.
  - A receiver whose `chrecv` succeeded pops the head and returns its value or rethrows its error.
  - Module `SideBuffer` states this protocol once. Module `LegacyChannel` models `Sources/Channel.swift`, whose private `List` (`Sources/Channel.swift:221-278`) is the same code as `Sources/Venice/List.swift`. Module `DillChannel` models `Sources/Venice/Channel.swift`.
  - The errno switches of handles, channels and coroutines are total functions. The Open → Done → Closed lifecycle of a libdill handle (`Handles.Runtime`) fixes the errno each later call meets.
- **libmill** (`Source/`): a Swift array and a `closed` flag next to the C channel (module `MillChannel`).
  - `Source/Channel.swift` (`close` 66-71, `send` 74-79, select `send` 82-87, `receive` 90-96, `getValueFromBuffer` 102-107, generator 27-33) is the same class as `Source/Venice/Channel/Channel.swift` under Swift 2 names. One class models both.
  - The fallible channel of this generation (module `MillFallible`) buffers `ChannelResult`s under the same rules.
  - Module `MillSelect` models its `select`: the builder, registration, dispatch and `forSelect`.
- **SwiftGo** (`SwiftGo/`): the values travel through C. Swift keeps a counter `valuesInBuffer`, the `closed` flag and the last value seen (module `GoChannel`).
  - The fallible channel is module `GoFallible`. `SwiftGo/FailableChannel.swift` is the same class as `SwiftGo/FallibleChannel.swift` under its older name (`failableChannelCounter` 120, `init` 134-139, `close` 156-162, `receive`/`receiveError` 165-182, `send` 185-198, `==` 201-203, operators 205-219). It has its own counter and no `<-` into an optional channel.
  - Module `GoSelect` models the first `select`.
- Durations and deadlines (`Time`), and the two error enums with their hand-written `==` (`VeniceErrors`, `LegacyErrors`).

The code is followed where the tests say otherwise:
- The tests in `Tests/VeniceTests/Venice/ChannelTests.swift` throw `invalidHandle`/`handleIsDone` from channel operations.
- `Sources/Venice/Channel.swift` maps EBADF to `canceledChannel` and EPIPE to `channelIsDone`. Those cases are not in `Sources/Venice/Error.swift`, so `DillChannel` gives them their own type, `ChannelError`.
- `Handle.done`/`close` do throw `invalidHandle`/`handleIsDone` (module `Handles`).
- `Sources/Venice/Coroutine.swift` throws the cases of the older enum of `Sources/Error.swift` (`canceledCoroutine`, `outOfMemory`), so `Coroutines` uses `LegacyErrors`.

A libmill receive on an open, empty channel suspends inside `mill_chr` until a sender or `close` arrives. This sequential model reports that as the outcome `Blocked` and leaves the state unchanged.

## Model

| member | source | states |
|---|---|---|
| `VeniceErrors.Equal` | Sources/Venice/Error.swift:31-60 | `==` holds exactly when both sides are the same case: every case equals itself, distinct cases differ, hence symmetric |
| `LegacyErrors.Equal` | Sources/Error.swift:25-48 | the same for the nine cases of the older enum |
| `LegacyErrors.DoneChannelIsDistinct` | Sources/Error.swift:45-46 | `doneChannel` differs from `deadlineReached` and `canceledCoroutine`; `==` is symmetric |
| `Time.DurationEqual` | Sources/Venice/Time.swift:40-45 | Duration `==` holds iff the two durations are equal |
| `Time.UnitFactors` | Sources/Venice/Time.swift:80-120 | `n.millisecond` is `n` ms, `n.second` `n*1000`, `n.minute` `n*60000`, `n.hour` `n*3600000`; each plural accessor equals its singular one |
| `Time.UnitEquivalences` | Tests/VeniceTests/Venice/TimeTests.swift:6-9 | 1000 ms `==` 1 s, 60000 ms `==` 1 min, 3600000 ms `==` 1 h |
| `Time.Sentinels` | Sources/Venice/Time.swift:70-77 | `immediately` is 0, `never` is -1, and both lie at or below any `fromNow()` of a non-negative duration |
| `Time.FromNowMonotone` | Sources/Venice/Time.swift:35-37 | `fromNow` adds the clock: the difference of two deadlines is the difference of the durations, so it is monotone |
| `Handles.DoneError` | Sources/Venice/Handle.swift:59-70 | EBADF ↔ `invalidHandle`, ENOTSUP ↔ `operationNotSupported`, EPIPE ↔ `handleIsDone`, ETIMEDOUT ↔ `deadlineReached`, any other ↔ `unexpectedError` |
| `Handles.CloseError` | Sources/Venice/Handle.swift:88-97 | EBADF ↔ `invalidHandle`; every other errno gives `unexpectedError` |
| `Handles.DoneOutcome` | Sources/Venice/Handle.swift:55-72 | `done` returns normally iff `hdone` returned 0; otherwise it throws the mapped error |
| `Handles.CloseOutcome` | Sources/Venice/Handle.swift:87-98 | `close` returns normally iff `hclose` returned 0; otherwise it throws the mapped error |
| `Handles.Runtime.constructor` | Sources/Venice/Handle.swift:12-21 | no descriptor is live at the start |
| `Handles.Runtime.Make` | Sources/Venice/Channel.swift:68-82 | a descriptor `chmake` returns starts Open |
| `Handles.Runtime.Hdone` | Tests/VeniceTests/Venice/ChannelTests.swift:26-31 | `hdone` moves Open to Done with success; on Done it reports EPIPE; on Closed it reports EBADF; no other descriptor changes |
| `Handles.Runtime.Hclose` | Tests/VeniceTests/Venice/ChannelTests.swift:19-24 | `hclose` closes a live descriptor; a closed one reports EBADF; no other descriptor changes |
| `Handles.Handle.constructor` | Sources/Venice/Handle.swift:19-21 | the handle keeps the raw descriptor it was given |
| `Handles.Handle.Done` | Sources/Venice/Handle.swift:55-72 | passes exactly when the descriptor was Open, and leaves it Done (or Closed if it was closed) |
| `Handles.Handle.Close` | Sources/Venice/Handle.swift:87-98 | passes exactly when the descriptor was not yet Closed, and leaves it Closed |
| `Handles.SecondDoneFails` | Tests/VeniceTests/Venice/ChannelTests.swift:26-31 | a second `done` throws `handleIsDone` |
| `Handles.ClosedIsInvalid` | Tests/VeniceTests/Venice/ChannelTests.swift:19-24 | after `close`, `done` and a second `close` throw `invalidHandle`, and channel operations meet EBADF |
| `Handles.DoneIsSticky` | Tests/VeniceTests/Venice/ChannelTests.swift:56-61 | after `done` the handle stays done and channel operations meet EPIPE; only an Open handle lets them through |
| `DList.Node.constructor` | Sources/Venice/List.swift:6-8 | a new node holds its value and has no links |
| `DList.List.constructor` | Sources/Venice/List.swift:11-13 | a new list is empty, with nil `head` and `tail` |
| `DList.List.Append` | Sources/Venice/List.swift:15-27 | the contents become `old + [value]`, the returned fresh node is the new tail (and also the head if the list was empty), and the link invariant is kept |
| `DList.List.LinksAfterRemove` | Sources/Venice/List.swift:33-43 | relinking the predecessor and successor around position `k` leaves `next`/`previous` consistent with the shortened node sequence |
| `DList.List.ValidAfterRemove` | Sources/Channel.swift:249-269 | with `head`/`tail` moved past the removed node, the whole list invariant holds again |
| `DList.List.Remove` | Sources/Venice/List.swift:29-49 | deletes exactly that node's element, keeps the others in order, returns its value, clears its links, and moves `head`/`tail` when it was first/last |
| `DList.List.RemoveFirst` | Sources/Venice/List.swift:51-57 | an empty list reports failure and is unchanged; otherwise the first element is returned and removed |
| `SideBuffer.GetValue` | Sources/Venice/Channel.swift:42-49 | a `.value` entry returns its value; an `.error` entry rethrows its error |
| `SideBuffer.SendBuffer` | Sources/Venice/Channel.swift:105-124 | a send leaves its entry at the end of the buffer unless `chsend` timed out, in which case the buffer is as before |
| `SideBuffer.ReceiveBuffer` | Sources/Venice/Channel.swift:127-146 | a failed receive leaves the buffer alone; a successful one removes exactly the head |
| `SideBuffer.SendAllAppends` | Sources/Venice/Channel.swift:105-107 | successful sends append their entries in call order |
| `SideBuffer.ReceivedIsPrefix` | Sources/Venice/Channel.swift:145 | successful receives take the oldest entries first |
| `SideBuffer.Fifo` | Tests/VeniceTests/Venice/ChannelTests.swift:241-257 | after sends of `rs` into an empty channel, as many receives return exactly `rs` in order |
| `DillChannel.InitError` | Sources/Venice/Channel.swift:68-80 | ECANCELED ↔ `canceledCoroutine`, ENOMEM ↔ `outOfMemory`, any other ↔ `unexpectedError` |
| `DillChannel.OperationError` | Sources/Venice/Channel.swift:109-122 | EBADF ↔ `canceledChannel`, ECANCELED ↔ `canceledCoroutine`, EPIPE ↔ `channelIsDone`, ETIMEDOUT ↔ `timeout`, any other ↔ `unexpectedError` |
| `DillChannel.DoneError` | Sources/Venice/Channel.swift:161-174 | EBADF ↔ `canceledChannel`, EPIPE ↔ `channelIsDone`, any other ↔ `unexpectedError` |
| `DillChannel.SendOutcome` | Sources/Venice/Channel.swift:105-124 | `send` returns iff `chsend` returned 0; otherwise it throws the mapped error |
| `DillChannel.ReceiveOutcome` | Sources/Venice/Channel.swift:127-146 | a failed `chrecv` throws the mapped error; a successful one returns the head's value or rethrows its error, and an empty buffer throws `unexpectedError` |
| `DillChannel.DoneOutcome` | Sources/Venice/Channel.swift:161-174 | `done` returns iff `chdone` returned 0; otherwise it throws the mapped error |
| `DillChannel.Channel.constructor` | Sources/Venice/Channel.swift:68-83 | a new channel keeps its descriptor and has an empty side buffer |
| `DillChannel.Channel.Init` | Sources/Venice/Channel.swift:68-83 | on success, a fresh channel with an empty buffer; on failure, no channel and the mapped error |
| `DillChannel.Channel.Send` | Sources/Venice/Channel.swift:105-124 | the result is `SendOutcome(rc)` and the buffer becomes `SendBuffer(old, entry, rc)`: a timeout removes exactly the node it appended |
| `DillChannel.Channel.SendValue` | Sources/Venice/Channel.swift:96-98 | sending a value is `Send` of a `.value` entry |
| `DillChannel.Channel.SendError` | Sources/Venice/Channel.swift:101-103 | sending an error is `Send` of an `.error` entry |
| `DillChannel.Channel.Receive` | Sources/Venice/Channel.swift:127-146 | the result is `ReceiveOutcome(old buffer, rc)` and the buffer becomes `ReceiveBuffer(old, rc)` |
| `DillChannel.Channel.Done` | Sources/Venice/Channel.swift:161-174 | `chdone` advances the handle's lifecycle; the call succeeds exactly when the handle was Open |
| `DillChannel.SendOnly.constructor` | Sources/Venice/Channel.swift:192-195 | the view refers to the channel it was made from |
| `DillChannel.SendOnly.SendValue` | Sources/Venice/Channel.swift:198-200 | has the same result and buffer effect as the parent's `send` |
| `DillChannel.SendOnly.SendError` | Sources/Venice/Channel.swift:203-205 | has the same result and buffer effect as the parent's `send` of an error |
| `DillChannel.SendOnly.Done` | Sources/Venice/Channel.swift:209-211 | is the parent's `done`, on the shared descriptor |
| `DillChannel.ReceiveOnly.constructor` | Sources/Venice/Channel.swift:230-233 | the view refers to the channel it was made from |
| `DillChannel.ReceiveOnly.Receive` | Sources/Venice/Channel.swift:236-238 | has the same result and buffer effect as the parent's `receive` |
| `DillChannel.ReceiveOnly.Done` | Sources/Venice/Channel.swift:242-244 | is the parent's `done`, on the shared descriptor |
| `DillChannel.SendOrderIsReceiveOrder` | Tests/VeniceTests/Venice/ChannelTests.swift:241-257 | two sends then two receives return the values in send order and leave the buffer empty |
| `DillChannel.FailedSendBuffers` | Sources/Venice/Channel.swift:109-122 | a timed-out send throws `timeout` and leaves the buffer as it was; any other failure leaves its entry behind |
| `DillChannel.LifecycleErrors` | Tests/VeniceTests/Venice/ChannelTests.swift:33-61 | once done, send/receive/`done` throw `channelIsDone`; once closed, they throw `canceledChannel` |
| `LegacyChannel.InitError` | Sources/Channel.swift:53-65 | ECANCELED ↔ `canceledCoroutine`, ENOMEM ↔ `outOfMemory`, any other ↔ `unexpectedError` |
| `LegacyChannel.OperationError` | Sources/Channel.swift:94-106 | ECANCELED ↔ `canceledCoroutine`, EPIPE ↔ `doneChannel`, ETIMEDOUT ↔ `deadlineReached`, any other (EBADF included) ↔ `unexpectedError` |
| `LegacyChannel.SendOutcome` | Sources/Channel.swift:90-107 | `send` returns iff `chsend` returned 0; otherwise it throws the mapped error |
| `LegacyChannel.ReceiveOutcome` | Sources/Channel.swift:110-127 | a failed `chrecv` throws the mapped error; a successful one returns or rethrows the head entry |
| `LegacyChannel.Channel.constructor` | Sources/Channel.swift:67 | a new channel keeps its descriptor and has an empty side buffer |
| `LegacyChannel.Channel.Init` | Sources/Channel.swift:53-68 | on success, a fresh channel with an empty buffer; on failure, no channel and the mapped error |
| `LegacyChannel.Channel.Send` | Sources/Channel.swift:90-107 | the result is `SendOutcome(rc)`; the node appended before `chsend` is removed only on ETIMEDOUT |
| `LegacyChannel.Channel.SendValue` | Sources/Channel.swift:81-83 | sending a value is `send` of a `.value` entry |
| `LegacyChannel.Channel.SendError` | Sources/Channel.swift:86-88 | sending an error is `send` of an `.error` entry |
| `LegacyChannel.Channel.Receive` | Sources/Channel.swift:110-127 | the result is `ReceiveOutcome(old buffer, rc)`; only a successful `chrecv` pops the head |
| `LegacyChannel.Channel.Done` | Sources/Channel.swift:135-137 | `hdone` advances the handle's lifecycle; the call never throws and leaves the buffer alone |
| `LegacyChannel.Sending.constructor` | Sources/Channel.swift:155-157 | the view refers to the channel it was made from |
| `LegacyChannel.Sending.SendValue` | Sources/Channel.swift:160-162 | has the same result and buffer effect as the channel's `send` |
| `LegacyChannel.Sending.SendError` | Sources/Channel.swift:165-167 | has the same result and buffer effect as the channel's `send` of an error |
| `LegacyChannel.Sending.Done` | Sources/Channel.swift:170-172 | is the channel's `done` |
| `LegacyChannel.Receiving.constructor` | Sources/Channel.swift:191-193 | the view refers to the channel it was made from |
| `LegacyChannel.Receiving.Receive` | Sources/Channel.swift:196-198 | has the same result and buffer effect as the channel's `receive` |
| `LegacyChannel.Receiving.Done` | Sources/Channel.swift:201-203 | is the channel's `done` |
| `LegacyChannel.AfterDone` | Sources/Channel.swift:129-137 | after `done`, send and receive throw `doneChannel`; on a closed handle they throw `unexpectedError` |
| `LegacyChannel.SendOrderIsReceiveOrder` | Sources/Channel.swift:90-127 | two sends then two receives return the values in send order |
| `Coroutines.InitError` | Sources/Venice/Coroutine.swift:81-90 | ECANCELED ↔ `canceledCoroutine`, ENOMEM ↔ `outOfMemory`, any other ↔ `unexpectedError` |
| `Coroutines.SuspendError` | Sources/Venice/Coroutine.swift:130-141 | ECANCELED ↔ `canceledCoroutine`, any other ↔ `unexpectedError` |
| `Coroutines.Yield` | Sources/Venice/Coroutine.swift:130-141 | `yield` throws nothing iff libdill's `yield` returned 0; otherwise it throws the mapped error |
| `Coroutines.WakeUp` | Sources/Venice/Coroutine.swift:165-176 | `wakeUp` throws nothing iff `msleep` returned 0; otherwise it throws the mapped error |
| `Coroutines.RunBody` | Sources/Venice/Coroutine.swift:67-75 | the wrapper reports nothing iff the body returned or threw `canceledCoroutine`; any other error is reported as is, and nothing propagates |
| `Coroutines.Coroutine.constructor` | Sources/Venice/Coroutine.swift:92 | the coroutine keeps the handle `co` returned |
| `Coroutines.Coroutine.Init` | Sources/Venice/Coroutine.swift:66-93 | on success, a fresh coroutine with the handle; on failure, none and the mapped error |
| `Coroutines.Coroutine.Cancel` | Sources/Venice/Coroutine.swift:104-106 | `hclose` leaves the coroutine's handle Closed |
| `Coroutines.IdAfterValue` | Sources/Venice/Coroutine.swift:202-212 | after `n` calls from `start`, the id is `start + n`, wrapped past `Int.max` to 0, and stays in `[0, Int.max]` |
| `Coroutines.IdsDistinctUntilWrap` | Sources/Venice/Coroutine.swift:200-212 | any `Int.max + 1` consecutive ids are pairwise distinct |
| `Coroutines.WrapsAtIntMax` | Sources/Venice/Coroutine.swift:203-209 | after `Int.max` the next id is 0; below it, ids increase by one |
| `Coroutines.IdCounter.constructor` | Sources/Venice/Coroutine.swift:200 | the shared id starts at 0 |
| `Coroutines.IdCounter.GetNextID` | Sources/Venice/Coroutine.swift:202-212 | returns the current id and advances it to the next one, wrapping from `Int.max` to 0 |
| `Coroutines.Prune` | Sources/Venice/Coroutine.swift:308-314 | the live map keeps exactly the ids that are not finished, with their coroutines unchanged |
| `Coroutines.Group.constructor` | Sources/Venice/Coroutine.swift:242-244 | a new group holds no coroutine and no finished id |
| `Coroutines.Group.RemoveFinished` | Sources/Venice/Coroutine.swift:308-314 | every finished id is removed from `coroutines`, other entries stay, and `finishedCoroutines` is emptied |
| `Coroutines.Group.BodyFinished` | Sources/Venice/Coroutine.swift:276-279 | the body's deferred block records its id as finished |
| `Coroutines.Group.AddCoroutine` | Sources/Venice/Coroutine.swift:269-289 | prunes first and draws the next id; a coroutine is stored under that id only if `co` succeeded and its body has not finished already; a failed `co` throws the mapped error |
| `Coroutines.Group.CancelOne` | Sources/Venice/Coroutine.swift:299-305 | cancels the coroutine stored under the id, closing its handle, and removes it |
| `Coroutines.Group.CancelAll` | Sources/Venice/Coroutine.swift:299-305 | every stored coroutine is canceled exactly once, in some order, with its handle Closed; the group ends empty |
| `Coroutines.Group.Cancel` | Sources/Venice/Coroutine.swift:296-306 | prunes, then cancels each remaining coroutine exactly once and leaves the group empty |
| `MillChannel.Take` | Source/Venice/Channel/Channel.swift:105-110 | nil iff the closed channel is drained (and then nothing changes); otherwise the first element, removed |
| `MillChannel.ReceiveStep` | Source/Venice/Channel/Channel.swift:93-99 | nil iff closed and drained; blocks iff open and empty; otherwise it delivers and removes the head |
| `MillChannel.SendsAppendInOrder` | Source/Venice/Channel/Channel.swift:78-83 | sends on an open channel append in call order |
| `MillChannel.ClosedIgnoresSends` | Source/Channel.swift:74-79 | sends on a closed channel change nothing |
| `MillChannel.ReceivesInOrder` | Source/Channel.swift:102-107 | receives deliver the buffer oldest first, open or closed |
| `MillChannel.DrainedStaysDrained` | Source/Channel.swift:90-93 | on a closed, drained channel every receive returns nil |
| `MillChannel.SendThenCloseThenDrain` | Source/Venice/Channel/Channel.swift:70-110 | values come out in send order; after `close`, what was buffered is still delivered, then nil |
| `MillChannel.DrainedAfter` | Source/Venice/Channel/Channel.swift:93-96 | `|b| + 1` receives on a closed channel yield `b` and then nil |
| `MillChannel.Channel.constructor` | Source/Venice/Channel/Channel.swift:49-52 | a new channel is open and empty, and `isBuffered` holds iff `bufferSize > 0` |
| `MillChannel.Channel.Close` | Source/Venice/Channel/Channel.swift:70-75 | the channel is closed for good, the buffer is untouched, and `mill_chdone` is called only by the first `close` |
| `MillChannel.Channel.Send` | Source/Venice/Channel/Channel.swift:78-83 | appends when open; changes nothing when closed |
| `MillChannel.Channel.SendFromSelect` | Source/Venice/Channel/Channel.swift:85-90 | appends and registers the clause under its index only when open |
| `MillChannel.Channel.GetValueFromBuffer` | Source/Venice/Channel/Channel.swift:105-110 | is `Take` on the state |
| `MillChannel.Channel.Receive` | Source/Venice/Channel/Channel.swift:93-99 | is `ReceiveStep` on the state |
| `MillChannel.Generator.constructor` | Source/Venice/Channel/Channel.swift:65-67 | the generator draws from the channel it was made from |
| `MillChannel.Generator.Next` | Source/Channel.swift:27-33 | `next()` is a receive, so iteration ends at the first nil |
| `MillFallible.OnSuccess` | Source/Venice/FallibleChannel/FallibleChannel.swift:39-44 | the closure runs iff the result is `.value`, with that value |
| `MillFallible.OnFailure` | Source/Venice/FallibleChannel/FallibleChannel.swift:46-51 | the closure runs iff the result is `.error`, with that error |
| `MillFallible.ExactlyOneHandlerRuns` | Source/Venice/FallibleChannel/FallibleChannel.swift:39-51 | exactly one of the two closures runs |
| `MillFallible.Unwrap` | Source/Venice/FallibleChannel/FallibleChannel.swift:139-147 | a `.value` head is returned, an `.error` head is thrown, and nil or blocking passes through |
| `MillFallible.ErrorThenValue` | Source/Venice/FallibleChannel/FallibleChannel.swift:135-148 | a thrown error does not stop delivery: the next receive gets the entry after it |
| `MillFallible.CloseKeepsBuffered` | Source/Venice/FallibleChannel/FallibleChannel.swift:85-98 | after `close`, later sends are ignored and the earlier entries are delivered in order, then nil |
| `MillFallible.FallibleChannel.constructor` | Source/Venice/FallibleChannel/FallibleChannel.swift:64-67 | a new channel is open and empty |
| `MillFallible.FallibleChannel.Close` | Source/Venice/FallibleChannel/FallibleChannel.swift:85-90 | closed for good; `mill_chdone` is called only by the first `close` |
| `MillFallible.FallibleChannel.Send` | Source/Venice/FallibleChannel/FallibleChannel.swift:93-98 | appends the result when open; no-op when closed |
| `MillFallible.FallibleChannel.SendValue` | Source/Venice/FallibleChannel/FallibleChannel.swift:101-107 | appends `.value` when open; no-op when closed |
| `MillFallible.FallibleChannel.SendValueFromSelect` | Source/Venice/FallibleChannel/FallibleChannel.swift:109-115 | appends and registers only when open |
| `MillFallible.FallibleChannel.SendError` | Source/Venice/FallibleChannel/FallibleChannel.swift:118-124 | appends `.error` when open; no-op when closed |
| `MillFallible.FallibleChannel.SendErrorFromSelect` | Source/Venice/FallibleChannel/FallibleChannel.swift:126-132 | appends and registers only when open |
| `MillFallible.FallibleChannel.GetResultFromBuffer` | Source/Venice/FallibleChannel/FallibleChannel.swift:163-168 | is `Take` on the state |
| `MillFallible.FallibleChannel.ReceiveResult` | Source/Venice/FallibleChannel/FallibleChannel.swift:151-157 | the head result, unchanged and removed; nil when closed and drained |
| `MillFallible.FallibleChannel.Receive` | Source/Venice/FallibleChannel/FallibleChannel.swift:135-148 | is `Unwrap` of `ReceiveStep`: the value returned or the error thrown, the head removed |
| `MillFallible.FallibleReceivingChannel.constructor` | Source/Venice/FallibleChannel/FallibleReceivingChannel.swift:28-30 | the view refers to the shared channel |
| `MillFallible.FallibleReceivingChannel.Receive` | Source/Venice/FallibleChannel/FallibleReceivingChannel.swift:32-34 | has the same result and effect as the channel's `receive` |
| `MillFallible.FallibleReceivingChannel.ReceiveResult` | Source/Venice/FallibleChannel/FallibleReceivingChannel.swift:36-38 | has the same result and effect as the channel's `receiveResult` |
| `MillFallible.FallibleReceivingChannel.MakeIterator` | Source/Venice/FallibleChannel/FallibleReceivingChannel.swift:40-42 | the iterator draws from the same channel |
| `MillFallible.FallibleReceivingChannel.Close` | Source/Venice/FallibleChannel/FallibleReceivingChannel.swift:44-46 | closes the shared channel |
| `MillFallible.FallibleReceivingChannel.GetResultFromBuffer` | Source/Venice/FallibleChannel/FallibleReceivingChannel.swift:52-54 | is the channel's `getResultFromBuffer` |
| `MillFallible.FallibleGenerator.constructor` | Source/Venice/FallibleChannel/FallibleChannel.swift:27-28 | the generator holds the receive-only view |
| `MillFallible.FallibleGenerator.Next` | Source/Venice/FallibleChannel/FallibleChannel.swift:27-33 | `next()` is `receiveResult()`, so iteration yields the results in order and stops at nil |
| `MillFallible.MakeIterator` | Source/Venice/FallibleChannel/FallibleChannel.swift:80-82 | the channel's iterator goes through its view and draws from the channel itself |
| `MillSelect.CaseOf` | Source/Venice/Select/Select.swift:254-322 | a case added names an existing channel and keeps the arm's closure, and a send case added is on an open channel |
| `MillSelect.CaseOfFilter` | Source/Venice/Select/Select.swift:254-336 | both directions of the filter: `otherwise` adds no case; a receive arm adds one iff its channel is not nil; a send arm adds one iff its channel is not nil and not closed; the case is of the arm's kind and on the arm's channel |
| `MillSelect.KeptIndicesExact` | Source/Venice/Select/Select.swift:254-322 | the positions of the arms that add a case, strictly increasing, are exactly those `CaseOf` keeps |
| `MillSelect.BuildKeepsOrder` | Source/Venice/Select/Select.swift:250-322 | there are exactly as many cases as kept arms, and case `j` is the case of the `j`-th kept arm, so cases stay in call order |
| `MillSelect.BuildProperties` | Source/Venice/Select/Select.swift:250-336 | never more cases than arms, every case names an existing channel, every send case is on an open channel, `otherwise` is set iff some arm set it, and the last one wins |
| `MillSelect.Builder.constructor` | Source/Venice/Select/Select.swift:250-252 | a new builder has no case and no `otherwise` |
| `MillSelect.Builder.Add` | Source/Venice/Select/Select.swift:254-336 | each builder call appends the case `CaseOf` gives, if any, or replaces `otherwise` |
| `MillSelect.BuildWith` | Source/Venice/Select/Select.swift:365-368 | a fresh builder given the arms in order holds `Build(arms)` |
| `MillSelect.ClauseFor` | Source/Venice/Select/Select.swift:41-43 | a receive registers `mill_choose_in`, an open send `mill_choose_out`, both under the case's index; a send on a closed channel registers nothing |
| `MillSelect.RegisterCase` | Source/Venice/Select/Select.swift:123-125 | registering a case changes no channel's `closed` flag |
| `MillSelect.RegisterAll` | Source/Venice/Select/Select.swift:344-348 | registering all cases changes no channel's `closed` flag |
| `MillSelect.RegisterAllBuffers` | Source/Venice/Select/Select.swift:344-348 | registration appends each send arm's payload to its open channel in case order, and leaves closed channels alone |
| `MillSelect.Register` | Source/Venice/Select/Select.swift:344-348 | the loop registers case `i` under index `i` and leaves the world `RegisterAll` describes |
| `MillSelect.Execute` | Source/Venice/Select/Select.swift:45-49 | a receive case runs its closure only when a value comes out; a send case only runs its closure |
| `MillSelect.DispatchRuns` | Source/Venice/Select/Select.swift:354-360 | -1 runs `otherwise` (if any) and no case; any other index runs exactly that case's closure |
| `MillSelect.ReceiveGetsOldest` | Source/Venice/Select/Select.swift:65-69 | a chosen receive case gets the oldest buffered value, and only that entry leaves the buffer |
| `MillSelect.UnchosenSendStaysBuffered` | Source/Venice/Select/Select.swift:127-129 | a send arm's payload is buffered at registration and stays buffered when the wait returns -1 |
| `MillSelect.Select` | Source/Venice/Select/Select.swift:339-363 | registers every case under its index, calls `mill_choose_otherwise` iff there is an `otherwise`, and dispatches as `SelectStep` says |
| `MillSelect.StopsAtDone` | Source/Venice/Select/Select.swift:377-385 | `forSelect` runs the turns up to and including the first that calls `done`, and no more |
| `MillSelect.RunTurnsStep` | Source/Venice/Select/Select.swift:381-385 | a turn that does not call `done` is followed by the rest of the loop from the world it leaves |
| `MillSelect.SelectTurn` | Source/Venice/Select/Select.swift:382-384 | one iteration, a fresh builder handed to `build` and then `select`, does what `TurnStep` says |
| `MillSelect.ForSelect` | Source/Venice/Select/Select.swift:375-386 | the `keepRunning` loop leaves the world and runs that `RunTurns` gives |
| `GoChannel.Counted` | SwiftGo/Channel.swift:146-153 | a put counts one more iff the channel is unbuffered or below `bufferSize`, and otherwise leaves the count |
| `GoChannel.TakeStep` | SwiftGo/Channel.swift:156-166 | a take reaches the C channel iff the channel is open or the count is positive, and only then counts one less |
| `GoChannel.Takes` | SwiftGo/Channel.swift:156-166 | `n` takes give `n` outcomes |
| `GoChannel.CountStaysBounded` | SwiftGo/Channel.swift:150-152 | a put never pushes a buffered count past `bufferSize` |
| `GoChannel.PutsSaturate` | SwiftGo/Channel.swift:146-153 | `n` puts on a buffered channel count `min(count + n, bufferSize)` |
| `GoChannel.UnbufferedPutsAllCount` | SwiftGo/Channel.swift:150-152 | on an unbuffered channel every put counts |
| `GoChannel.ClosedDrainsCount` | SwiftGo/Channel.swift:156-158 | after `close`, exactly as many takes reach C as the count says, and every later one returns nil |
| `GoChannel.OpenTakesAll` | SwiftGo/Channel.swift:159-165 | while open, every take reaches C |
| `GoChannel.Channel.constructor` | SwiftGo/Channel.swift:116-119 | a new channel is open, counts nothing and has seen no value |
| `GoChannel.Channel.Close` | SwiftGo/Channel.swift:137-143 | `closed` becomes true for good; `go_close_channel` is called, with the last value, only if one was seen |
| `GoChannel.Channel.Receive` | SwiftGo/Channel.swift:146-153 | the put records the value as last seen and counts it per `Counted`; the bound invariant is kept |
| `GoChannel.Channel.Send` | SwiftGo/Channel.swift:156-166 | the take returns nil with nothing changed iff the channel is closed and counted empty; otherwise it counts one less and returns and records the value taken |
| `GoChannel.Generator.constructor` | SwiftGo/Channel.swift:97-99 | the generator draws from its channel |
| `GoChannel.Generator.Next` | SwiftGo/Channel.swift:97-103 | `next()` is `send()`, so iteration stops at the first nil |
| `GoChannel.InfixArrow` | SwiftGo/Channel.swift:171-173 | `channel <- value` is the put |
| `GoChannel.PrefixArrow` | SwiftGo/Channel.swift:177-179 | `<-channel` is the take |
| `GoFallible.Unwrap` | SwiftGo/FallibleChannel.swift:189-196 | a value entry is returned, an error entry is thrown |
| `GoFallible.Quiet` | SwiftGo/FallibleChannel.swift:110-112 | `(try? send()) ?? nil` is a value only when `send` returned one |
| `GoFallible.GeneratorHidesErrors` | SwiftGo/FailableChannel.swift:107-113 | the generator yields nil both at the end of the stream and for an error entry, and delivers every value entry |
| `GoFallible.Counter.constructor` | SwiftGo/FallibleChannel.swift:120 | the global counter starts at 0, with no identity issued |
| `GoFallible.FallibleChannel.constructor` | SwiftGo/FallibleChannel.swift:134-139 | the identity is the counter's current value, which no earlier channel has, and the counter advances by one |
| `GoFallible.FallibleChannel.Close` | SwiftGo/FallibleChannel.swift:156-162 | `closed` becomes true for good; the C channel is signalled only if an entry was seen |
| `GoFallible.FallibleChannel.Receive` | SwiftGo/FallibleChannel.swift:165-172 | records `.Value` as last entry and counts it per `Counted` |
| `GoFallible.FallibleChannel.ReceiveError` | SwiftGo/FallibleChannel.swift:175-182 | records `.Error` as last entry and counts it per `Counted` |
| `GoFallible.FallibleChannel.Send` | SwiftGo/FallibleChannel.swift:185-198 | nil with nothing changed when closed and counted empty; otherwise one less, and the taken entry is returned or thrown |
| `GoFallible.LaterChannelIsUnequal` | SwiftGo/FailableChannel.swift:201-203 | a channel made after another is never `==` to it |
| `GoFallible.FallibleGenerator.constructor` | SwiftGo/FallibleChannel.swift:107-108 | the generator draws from its channel |
| `GoFallible.FallibleGenerator.Next` | SwiftGo/FallibleChannel.swift:107-113 | `next()` yields a value iff the take reached C and got a value entry |
| `GoFallible.InfixArrow` | SwiftGo/FallibleChannel.swift:205-207 | `channel <- value` is `receive(value)` |
| `GoFallible.OptionalInfixArrow` | SwiftGo/FallibleChannel.swift:209-211 | `<-` into a nil channel does nothing; otherwise it is `receive(value)` |
| `GoFallible.InfixArrowError` | SwiftGo/FallibleChannel.swift:213-215 | `channel <- error` is `receiveError` |
| `GoFallible.PrefixArrow` | SwiftGo/FallibleChannel.swift:217-219 | `<-channel` is `send()` |
| `GoFallible.ForcedPrefixArrow` | SwiftGo/FallibleChannel.swift:221-223 | `!<-channel` on an open or non-empty channel counts one less and never yields nil |
| `GoSelect.CaseOf` | SwiftGo/Select.swift:78-98 | every builder call except `otherwise` yields a case with its closure |
| `GoSelect.OtherwiseCount` | SwiftGo/Select.swift:100-102 | at most one per arm |
| `GoSelect.BuildKeepsEveryArm` | SwiftGo/Select.swift:78-102 | no arm is filtered: every non-`otherwise` arm becomes a case, `otherwise` is set iff given, and the last one wins |
| `GoSelect.Builder.constructor` | SwiftGo/Select.swift:74-76 | a new builder has no case and no `otherwise` |
| `GoSelect.Builder.ReceiveFrom` | SwiftGo/Select.swift:78-81 | appends exactly one receive case at the end |
| `GoSelect.Builder.SendValue` | SwiftGo/Select.swift:83-86 | appends exactly one send case at the end |
| `GoSelect.Builder.Timeout` | SwiftGo/Select.swift:88-98 | appends exactly one timeout case at the end |
| `GoSelect.Builder.Otherwise` | SwiftGo/Select.swift:100-102 | replaces any earlier `otherwise` and adds no case |
| `GoSelect.Builder.Add` | SwiftGo/Select.swift:78-102 | one builder call, as the arm says |
| `GoSelect.BuildWith` | SwiftGo/Select.swift:105-108 | a fresh builder given the arms in order holds `Build(arms)` |
| `GoSelect.Register` | SwiftGo/Select.swift:113-117 | case `i` is registered under index `i`, for output (with its value) iff it is a send case |
| `GoSelect.Call` | SwiftGo/Select.swift:40-44 | a receive case passes the selected value to its closure; send and timeout cases run their closure with nothing |
| `GoSelect.Dispatch` | SwiftGo/Select.swift:125-130 | -1 runs `otherwise` iff present; any other index runs that case's closure once |
| `GoSelect.Select` | SwiftGo/Select.swift:105-135 | registers every case under its index, calls `go_select_otherwise` iff there is an `otherwise`, and dispatches as `Dispatch` says |
| `GoSelect.SelectWith` | SwiftGo/Select.swift:105-135 | `select` with the builder calls `build` makes |

## Left out

- The C runtimes (libmill, libdill and the SwiftGo shim) are not part of this model. Each call is an input, and so are the scheduler's choices, the clock, cancellation delivery and wake-ups. Random tie-breaking, FIFO order among blocked coroutines and wake-on-done liveness are not claimed.
- Concurrency is left out. A libmill receive on an open, empty channel is the outcome `Blocked` with no state change: the sender or `close` that would wake it is outside a sequential model.
- `deinit` (which cancels or closes), `malloc`/`free` of clauses, the `print` in the coroutine wrapper (its error is returned as "reported" instead), `fanIn`, `sel`/`forSel` (plain aliases), and the lazy `sendingChannel`/`receivingChannel` properties are left out.
- The `timedOut`/`timeout` select arms of both generations spawn a coroutine that sleeps and then sends on a private channel. `GoSelect` keeps the timeout case itself; the libmill `timedOut` arm and both helper coroutines are left out, since they are concurrency and floating-point seconds.
- The libmill builder arms on `ReceivingChannel`, `SendingChannel` and `FallibleSendingChannel` are left out: those view classes are not part of this model. The arms on `Channel` and `FallibleChannel`, and the receive arm on `FallibleReceivingChannel`, are modelled.
- `MillChannel.ReceiveStep`: a receive on an open channel with a buffered entry returns that entry at once. In the source, an entry left by a select send arm that was not chosen has no C send behind it, so `mill_chr` waits for a later send or `close`; the entry then delivered is the same head. The waiting is not modelled, and `MillChannel.Channel.Receive`, the fallible receives, both generators and `MillSelect.Ready` inherit this.
- `GoChannel.Channel.Receive`: `valuesInBuffer` is an unbounded integer. Swift's `++` on it traps on `Int` overflow; the model does not stop there. The same holds for `GoChannel.Channel.Send`'s `--`.
- `GoFallible.FallibleChannel.Receive`: as for `GoChannel`, the `++`/`--` on `valuesInBuffer` here and in `ReceiveError` and `Send` are unbounded, without Swift's overflow trap.
- `MillSelect` models the channels a select touches as a value (`World`, by channel number), not as shared objects. Aliasing between a select and other code holding the same channel, and update in place, are therefore not captured. The arms of one select carry one element type, and closures are integer tags.
- `GoSelect.Select` does not change the channels' counters, because SwiftGo's select goes to C directly, bypassing `receive`/`send`. The value `go_select_value` returns is an input.
- `MillSelect.ForSelect` requires that some turn calls `done`. A `forSelect` that never stops is not modelled.
- Generators hold the channel (or, for the fallible channel, its receive-only view) directly. Swift builds the plain generator on the `ReceivingChannel` wrapper, which only forwards.
- `Time.Millisecond`: the unit accessors require their intermediate products to fit in 64 bits instead of modelling Swift's overflow trap. `Time.FromNow` likewise requires the sum to fit.
- `GoFallible.FallibleChannel.constructor`: Swift `Int` overflow of the global channel counter is not modelled.
- `GoChannel.Channel.Close`: what `go_close_channel` does in C is not modelled; the ghost `CloseSignals` only records that it was called and with which value.
- `Coroutines.Group.CancelAll`: Swift walks the dictionary in an unspecified order, so the contract states the set of ids canceled (each once), not their order.
- `Coroutines.Group.AddCoroutine`: whether the body finishes inside `co` is an input (`finishedAtLaunch`). A body that finishes later is recorded by `BodyFinished`.
- `Handles.Runtime`: libdill's handle table is modelled only as far as the Open/Done/Closed lifecycle the tests observe.
- `LegacyChannel.Channel.Done` and `Coroutines.Coroutine.Cancel` drop what `hdone`/`hclose` report, as the source does. Their contracts speak only of the handle's new state.
- The file-descriptor, polling and networking code, `Source/Venice/Coroutine/Coroutine.swift` and `SwiftGo/Go.swift` are not part of this model: they are OS I/O and thin spawn/sleep wrappers with floating-point time.

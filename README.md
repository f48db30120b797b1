# JackTrip hub worker: a Dafny model

This project models the per-connection worker of JackTrip's hub server
(`JackTripWorker`). The hub listener gives each new client a worker slot. The
slot marks itself as spawning and runs a short UDP handshake to learn the
peer's channel layout. It then configures and starts a JackTrip session,
waits for the session to end, and hands itself back with `releaseThread(id)`.

The model has three parts:

- **Channel resolution** (`channels.dfy`, module `Channels`). A pure rule that
  turns the peer's incoming and outgoing header fields into the session's
  input and output channel counts. An outgoing field of 0 is the legacy
  `NORMAL` connection mode and means "as many outputs as inputs". A field of
  255 means "no outputs". Any other value is taken literally.
- **Handshake rendezvous** (`handshake.dfy`, module `Handshake`). The poll loop
  sleeps 100 ms at a time until a datagram is pending or the elapsed time
  exceeds the timeout. It is a method with a `while` loop, proved against the
  closed form `TimeoutSteps`. The socket is replaced by `firstPending`: the
  number of sleeps after which the peer's datagram is first pending, or
  `None`. `SetJackTripFromClientHeader` returns -1 exactly on timeout. On
  arrival it tells the session its resolved channel counts and returns the
  raw outgoing field.
- **Worker slot** (`worker_slot.dfy`, module `WorkerSlot`). A class
  `JackTripWorker` with the source's fields and the `spawning` flag. It has
  two ghost fields. `log` records every write to the flag, every
  `releaseThread` call and the blocking session wait. `sessionCalls` records
  what the session of the latest `run()` was told (`session_calls.dfy`).
  `Valid()` says that the flag equals the last write in the log, that
  releases happen only while spawning, and that the session wait happens only
  while not spawning. `Run` takes the handshake timing, the decoded header and
  an optional fault stage in place of real I/O.

Points of the source that the model states as they are:

- `setJackTrip` does not check that the slot is idle, so `SetJackTrip` only
  requires the object invariant.
- The handshake sets the resolved channel counts on the session and returns
  the raw outgoing field; `run()` compares that field with -1.
- On the three modelled exit paths (handshake timeout, an exception before
  the session starts, a completed session) the code calls `releaseThread`
  first and clears the flag after it. `WellOrdered` states that order: every
  release happens while the flag is still set. An exception thrown out of
  the session wait (`event_loop.exec()`, line 240) breaks that order: the
  handler at line 251 releases the slot after line 237 has cleared the flag.
  `SessionFaultReleasesUnordered` proves that this path's trace is not
  `WellOrdered`, and `Run` does not take it.

## Model

| member | source | states |
|---|---|---|
| `Channels.ResolveChannels` | src/JackTripWorker.cpp:337-351 | The input count always equals the incoming field. The output count is within 0..255. Outputs are 0 exactly when the field is 255, or when it is NORMAL and there are no inputs. A non-NORMAL field never gives 255 outputs. |
| `Channels.ResolveLegacyNormal` | src/JackTripWorker.cpp:342-344 | Outgoing field NORMAL (0) gives inputs = outputs = incoming. |
| `Channels.ResolveNoOutputs` | src/JackTripWorker.cpp:345-347 | Outgoing field 255 gives inputs = incoming and outputs = 0. |
| `Channels.ResolveLiteral` | src/JackTripWorker.cpp:348-351 | Any other outgoing field gives inputs = incoming and outputs = the field. |
| `Channels.RequestedOutputsRoundTrip` | src/JackTripWorker.cpp:337-351 | Every output count 0..254 can be requested by some field value (0 as 255, others literally). It resolves back to exactly that count, whatever the incoming count. |
| `Channels.MaxOutputsOnlyFromLegacy` | src/JackTripWorker.cpp:342-351 | 255 outputs arise exactly from a legacy peer (field 0) with 255 inputs. |
| `Handshake.TimeoutSteps` | src/JackTripWorker.cpp:297-306 | The closed-form number of 100 ms sleeps after which the elapsed time first exceeds the timeout: it exceeds it, and one sleep fewer does not. |
| `Handshake.TimeoutStepsIsLeast` | src/JackTripWorker.cpp:302 | Any sleep count whose elapsed time exceeds the timeout is at least `TimeoutSteps`. |
| `Handshake.AwaitDatagram` | src/JackTripWorker.cpp:297-309 | The loop adds exactly 100 ms per sleep. It stops at the first step with a pending datagram or with elapsed > timeout, and never earlier. For timeout >= 0 the final elapsed time is at most timeout + 100. With no datagram it sleeps timeout/100 + 1 times. It ends without a datagram exactly when `TimedOut` holds. |
| `Handshake.SetJackTripFromClientHeader` | src/JackTripWorker.cpp:279-353 | A bind failure raises `BindError` and tells the session nothing. A timeout returns -1 and sets no channel counts. Otherwise it returns the outgoing field and appends the two resolved channel-count calls. It returns -1 exactly when the bind succeeded and the wait timed out. |
| `WorkerSlot.ReleasedIds` | src/JackTripWorker.cpp:263-266 | The released ids are exactly the ids of the `releaseThread` events in the log, and there are no more of them than events. |
| `WorkerSlot.AppendEvent` | src/JackTripWorker.cpp:95-98 | One more event keeps the ordering rules, provided a release happens while spawning and a wait while not spawning. A flag write sets the flag and anything else keeps it. Only a release adds its id. |
| `WorkerSlot.RunReleasesOnce` | src/JackTripWorker.cpp:215-274 | After any history, one `run()` trace on any exit path adds exactly `[id]` to the released ids, ends with the flag cleared, and keeps the ordering rules. |
| `WorkerSlot.CompletedRunReleasesOnce` | src/JackTripWorker.cpp:234-274 | Same for the path where the session runs and completes. |
| `WorkerSlot.SessionWaitThenTeardown` | src/JackTripWorker.cpp:234-246 | On the success path the flag is cleared before the session wait and set again for tear-down. Nothing is released during that time. |
| `WorkerSlot.ReleaseThenIdle` | src/JackTripWorker.cpp:263-274 | Releasing while spawning and then clearing the flag adds exactly the id, leaves the flag false, and keeps the ordering rules. |
| `WorkerSlot.SessionFaultReleasesUnordered` | src/JackTripWorker.cpp:234-260 | An exception out of the session wait, caught at line 251, still releases the slot exactly once and leaves the flag cleared. After any well-ordered history its trace is not well ordered, because the release happens while the flag is clear. |
| `WorkerSlot.SetupAlwaysForwards` | src/JackTripWorker.cpp:136-210 | The session is built with placeholder channel counts 1/1 and the buffer queue length. It always receives the connect-default-ports flag, the underrun mode, the peer address, the bind port, the buffer strategy, the impairment parameters, the broadcast queue and the RT priority flag. |
| `WorkerSlot.SetupForwardsIOStat` | src/JackTripWorker.cpp:174-177 | The IO-stat timeout and stream are set when the timeout is positive, and only then. |
| `WorkerSlot.SetupForwardsClientName` | src/JackTripWorker.cpp:179 | The client name is set, unchanged, when it is non-empty, and only then. |
| `WorkerSlot.SetupForwardsSessionId` | src/JackTripWorker.cpp:202 | The session id is set to `id + 1` when thread ids are appended, and only then. |
| `WorkerSlot.SetupLeavesChannelsAlone` | src/JackTripWorker.cpp:170-210 | Before the handshake the session gets no channel counts and is not started. |
| `WorkerSlot.SessionStartsOnlyAfterHandshake` | src/JackTripWorker.cpp:215-230 | The session is started exactly on the success path, or when `startProcess` itself throws. It gets channel counts exactly when it is started, and then the resolved ones. |
| `WorkerSlot.JackTripWorker.constructor` | src/JackTripWorker.cpp:62-70 | A new slot is idle with an empty log and stores the buffer queue length, underrun mode, client name and the remaining settings. |
| `WorkerSlot.JackTripWorker.SetJackTrip` | src/JackTripWorker.cpp:73-85 | Sets `spawning` (logged) and records id, client address, server port, client port and the connect-default flag unchanged. Nothing else changes. |
| `WorkerSlot.JackTripWorker.IsSpawning` | src/JackTripWorker.cpp:357-361 | Returns the flag, which is the value of the last write in the log. |
| `WorkerSlot.JackTripWorker.SetUpSession` | src/JackTripWorker.cpp:136-210 | The setter calls made on a new session equal `SetupCalls` of the worker's configuration. |
| `WorkerSlot.JackTripWorker.PrepareSession` | src/JackTripWorker.cpp:103-230 | Tells how `run()` ends (`ExitOf`) and returns everything the session was told (`SessionCallsOf`). |
| `WorkerSlot.JackTripWorker.Run` | src/JackTripWorker.cpp:88-275 | Re-asserts `spawning` on entry and appends exactly the `RunTrace` of its exit path to the log. Releases `id` exactly once and ends with `spawning == false`. Keeps `Valid()` and records the session's calls. |

## Left out

- `stopThread` (src/JackTripWorker.cpp:364-368), the signal/slot connections
  and `QEventLoop::exec` (lines 187-195, 240): cross-thread notification is
  collapsed into the single `SessionWait` event, which always ends.
- `QMutex`/`QMutexLocker`: the flag is modelled sequentially, because mutual
  exclusion between the pool thread and the worker thread is not verified
  here.
- The `WAIR` and `__JAMTEST__` build variants (lines 114-168, 227-229) and
  their plugin objects.
- Console and error logging.
- `QUdpSocket` bind, read and close (lines 283-317): binding is the input
  `bindOk`, arrival is `firstPending`. The socket's open/closed state is not
  tracked. Both non-throwing paths close it, and the datagram buffer is not
  modelled.
- The five header fields come from the JackTrip codec (lines 319-323), which
  is not part of this model. They are opaque integers, with the two channel
  fields in 0..255. The value `JackTrip::NORMAL == 0` comes from the comment
  at line 338, because JackTrip.h is not part of this model.
- The JackTrip session is a record of the calls it receives. Its own
  behaviour, including what its setters do, is not modelled. Exceptions are
  modelled at three points: construction, the handshake bind, and
  `startProcess`. Throwing setters are not modelled.
- JackTripWorker.h is not part of this model. The settings it assigns through
  inline setters come in through the constructor's `Tuning` argument. The
  constructor starts the slot with `spawning` false, which assumes `mSpawning`
  is initialised to false in that header. It also starts with id 0, an empty
  client address, ports 0 and the connect-default flag false, values that
  `setJackTrip` overwrites before any `run()`.
- `WorkerSlot.JackTripWorker.Run`: an exception thrown out of
  `event_loop.exec()` (line 240) is not one of its fault stages, so `Run`
  keeps `WellOrdered`, which that path does not.
  `SessionFaultReleasesUnordered` states that path separately.
- `Handshake.AwaitDatagram`: `elapsedTime` is unbounded. The 32-bit overflow
  the C++ `int` would hit for a timeout within 100 of `INT_MAX` is not
  modelled. The timeout is the hub-wide constant
  `gTimeOutMultiThreadedServer`.
- `Handshake.AwaitDatagram`: the check after the loop (line 309) is taken at
  the same step as the loop's last check. A datagram arriving between those
  two calls is not modelled.
- `WorkerSlot.JackTripWorker.Run`: the handshake-timeout return (lines
  215-221) and the exception handler (lines 251-260) do the same two steps,
  release then clear, and share one branch in the model.
  `PrepareSession` tells which exit was taken.

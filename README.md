# Bluetooth RFCOMM server addon, modelled in Dafny

This project models the core of the Linux RFCOMM server of a Node native addon
(`BTSerialPortBindingServer`). The server binds a listening socket to a channel,
advertises a service record through the local SDP daemon, and accepts one client. It
then serialises writes to that client through a FIFO queue and serves reads that `close`
can cancel through a pipe. System calls, the SDP daemon, the event loop and peer
behaviour are inputs of the model. Whatever the server does to the outside world (binds,
closes, pipe writes, callbacks, thrown errors) is recorded in order in an effect log.

Files:

- `common.dfy`, module `Common`: bytes, `Option`, `Result`, the error kinds, and the
  `int32_t` cast.
- `uuid.dfy`, module `Uuid`: `str2uuid`, the parser for 16-bit, 32-bit and 128-bit UUID
  strings, with lemmas that say exactly which strings it accepts and what it builds.
- `read_channel.dfy`, module `ReadChannel`: the synchronous check of `Read`, the
  pselect/read worker `EIO_Read`, and the completion mapping `EIO_AfterRead`.
- `write_queue.dfy`, module `WriteQueue`: the process-wide write queue as a class. It
  holds the list of pending requests, the requests handed to the worker pool, the
  callbacks fired and the write(2) calls issued. Its invariant proves that, between two
  server constructions, at most one request is in flight, that the request in flight is
  the head, and that callbacks fire in submission order. (A construction while a write
  is in flight breaks this in the code; see `WriteQueue.Queue.Reset` under "Left out".)
- `server.dfy`, module `Server`: the server object as a class over the source's fields
  (`s`, `mClientSocket`, the pipe `rep`, `mSdpSession`, the callback handles, the listen
  baton's status). It covers the listen, accept and close sequencing, and the
  effect-log functions that these methods are proved against.

## Model

| member | source | states |
|---|---|---|
| `Common.ToInt32` | src/linux/BTSerialPortBindingServer.cc:214 | The `(int32_t)` cast: the result is in the 32-bit signed range, agrees with the input modulo 2^32, and equals the input when it already fits. |
| `Uuid.CString` | src/linux/BTSerialPortBindingServer.cc:69 | What `strlen` sees: the result is a NUL-free prefix of the input, followed by a NUL when shorter than the input. |
| `Uuid.HexValue` | src/linux/BTSerialPortBindingServer.cc:79 | The number a string of n hex digits denotes is below 16^n. |
| `Uuid.StrToHex` | src/linux/BTSerialPortBindingServer.cc:79-80 | The strict `strtoul(…, 16)` reading: the number of characters consumed equals the whole length iff every character is a hex digit, and then the value is the digits' number. |
| `Uuid.Str2Uuid` | src/linux/BTSerialPortBindingServer.cc:64-124 | `str2uuid` succeeds only for C strings of length 4, 8 or 36, and builds a 16-bit, 32-bit or 128-bit UUID to match the length. |
| `Uuid.ShortForm` | src/linux/BTSerialPortBindingServer.cc:105-121 | For length 4 or 8, the parse succeeds iff every character is a hex digit. The UUID is then the number they denote, below 16^4 or 16^8. |
| `Uuid.LongForm` | src/linux/BTSerialPortBindingServer.cc:69-104 | For length 36, the parse succeeds iff the dash test passes and the four words are hex digits. The words are chars 0–7, chars 9–12 then 14–17, chars 19–22 then 24–27, and chars 28–35. The UUID's words are their values in that order; each split word is high half × 2^16 + low half. |
| `Uuid.HexValueConcat` | src/linux/BTSerialPortBindingServer.cc:84-86 | Parsing two runs of digits copied one after the other gives the first run's value shifted by four bits per digit of the second, plus the second's value. |
| `Uuid.LongFormWordsFit` | src/linux/BTSerialPortBindingServer.cc:66-99 | Every word of an accepted 128-bit UUID fits in a `uint32_t`. |
| `Uuid.DashTestPasses` | src/linux/BTSerialPortBindingServer.cc:73-74 | The dash test as written: a 36-character string passes iff it is not the case that all four of positions 8, 13, 18 and 23 are non-dash. |
| `Uuid.DashPositionsIgnored` | src/linux/BTSerialPortBindingServer.cc:73-98 | Positions 8, 13, 18 and 23 are never parsed: two 36-character strings that pass the dash test and agree elsewhere give the same result. |
| `Uuid.MisplacedDashesAccepted` | src/linux/BTSerialPortBindingServer.cc:73-76 | The dash test rejects only when all four positions are non-dash. A string with a dash at 8 and none at 13, 18 and 23 is accepted when its words are hex. |
| `Uuid.OtherLengthsRejected` | src/linux/BTSerialPortBindingServer.cc:119-121 | Every length other than 4, 8 and 36 is rejected. |
| `Uuid.Str2UuidIntended` | src/linux/BTSerialPortBindingServer.cc:70-76 | The parser the 128-bit format intends, defined directly over hex digits: a 36-character string it accepts has dashes at all of 8, 13, 18 and 23. |
| `Uuid.IntendedRejectsMisplacedDashes` | src/linux/BTSerialPortBindingServer.cc:73-76 | The intended parser rejects every 36-character string with a non-dash at any one of positions 8, 13, 18 and 23. |
| `Uuid.IntendedAgreesWhenDashesInPlace` | src/linux/BTSerialPortBindingServer.cc:69-121 | When all four dashes are in place, and for every other length, `Str2Uuid` and the intended parser give the same result. |
| `Uuid.WrittenAndIntendedDiffer` | src/linux/BTSerialPortBindingServer.cc:73-98 | The two parsers differ exactly on the 36-character strings whose words are hex and whose dash test passes with some dash missing. On those the code accepts and the intended parser rejects. |
| `ReadChannel.ReadDispatch` | src/linux/BTSerialPortBindingServer.cc:537-553 | `Read` fails synchronously, with `ConnectionClosed` and no work scheduled, iff `mClientSocket == 0`. |
| `ReadChannel.ReadDispatchIntended` | src/linux/BTSerialPortBindingServer.cc:537 | The intended check: a rejection always carries `ConnectionClosed`, and -1 (a failed accept) is rejected like 0. |
| `ReadChannel.DispatchDiffersOnFailedAccept` | src/linux/BTSerialPortBindingServer.cc:537 | The check as written and the intended one differ iff the socket is -1. The code then schedules a read and the intended check rejects it. |
| `ReadChannel.FreshBaton` | src/linux/BTSerialPortBindingServer.cc:546 | A new read baton has size 0 and a result buffer of 1024 bytes. |
| `ReadChannel.ReadWorker` | src/linux/BTSerialPortBindingServer.cc:237-264 | `EIO_Read`: the size is negative iff the client socket woke pselect and read(2) failed. When the socket woke it and bytes arrived, the size is their count and the buffer begins with them. A wake-up not caused by the client socket, or a failed pselect, leaves size 0. The size never exceeds 1024. |
| `ReadChannel.AfterRead` | src/linux/BTSerialPortBindingServer.cc:266-289 | `EIO_AfterRead` reports `ReadFailed` iff the size is negative. Otherwise the buffer delivered holds exactly `size` bytes, the first `size` of the result buffer. |
| `ReadChannel.ReadCompletionOutcome` | src/linux/BTSerialPortBindingServer.cc:251-287 | A scheduled read fails iff the client socket was ready and read(2) failed. Otherwise it delivers exactly the bytes received, or nothing when the pipe woke it, and never more than 1024 bytes. |
| `ReadChannel.CancelledReadIsEmpty` | src/linux/BTSerialPortBindingServer.cc:254-257 | A read woken by the close sentinel in the pipe completes with an empty buffer, whatever the socket holds. |
| `WriteQueue.WriteOutcome` | src/linux/BTSerialPortBindingServer.cc:191-215 | A write reports an error iff the socket is 0 or -1 or the count written differs from the buffer length. The error is `WriteIncomplete` iff the count differs. Otherwise the callback gets the byte count, through the `int32_t` cast. |
| `WriteQueue.WriteOutcomeIntended` | src/linux/BTSerialPortBindingServer.cc:191-199 | The intended outcome: failure iff the socket is 0 or -1 or the write is short, and the error is `ConnectionClosed` iff the socket is 0 or -1. |
| `WriteQueue.WriteCallsIntended` | src/linux/BTSerialPortBindingServer.cc:191-195 | The intended write issues no write(2) at all iff the connection is closed. |
| `WriteQueue.WriteOutcomeDiffers` | src/linux/BTSerialPortBindingServer.cc:191-199 | The code and the intended outcome always agree on whether the write failed. They differ iff the socket is 0 or -1 and the write is short; the code then reports `WriteIncomplete` where `ConnectionClosed` is meant. |
| `WriteQueue.Queue.Valid` | src/linux/BTSerialPortBindingServer.cc:485-493 | Queue invariant: at most one request is dispatched, and it is the head of the list. Callbacks have fired for exactly the requests submitted before the list, in submission order. |
| `WriteQueue.Queue.constructor` | src/linux/BTSerialPortBindingServer.cc:51 | The queue starts empty, with nothing dispatched and nothing fired. |
| `WriteQueue.Queue.Reset` | src/linux/BTSerialPortBindingServer.cc:328-329 | Constructing a server re-initialises the shared queue: the list and the dispatched set become empty and the invariant holds. |
| `WriteQueue.Queue.Write` | src/linux/BTSerialPortBindingServer.cc:480-493 | The request gets a fresh identity and is appended at the tail. It is dispatched iff the queue was empty before the insertion. Nothing fires. |
| `WriteQueue.Queue.Complete` | src/linux/BTSerialPortBindingServer.cc:185-228 | The request that completes is the head. Its write(2) is issued even on an invalid socket, its callback fires with `WriteOutcome`, it is unlinked, and the new head (if any) becomes the only dispatched request. |
| `Server.ChannelByte` | src/linux/BTSerialPortBindingServer.cc:142 | `(uint8_t)` of the channel: a value in 0..255 congruent to the channel modulo 256. |
| `Server.ListenWorker` | src/linux/BTSerialPortBindingServer.cc:127-159 | Bind, listen, SDP connect and SDP register run in that order, each only if the one before succeeded. The status is 0 iff all four succeed. Each failure has its own error kind. The SDP session is updated iff advertising was reached, and stays open when only registration failed. |
| `Server.AcceptEffects` | src/linux/BTSerialPortBindingServer.cc:585-603 | The SDP session, if open, is closed before anything else. Exactly one callback then fires: the error callback iff the accepted descriptor is -1, the connect callback with the peer address otherwise. |
| `Server.CloseEffects` | src/linux/BTSerialPortBindingServer.cc:501-518 | The effects of `Close`: the client part, then the listening part with the sentinel, then the closes of both pipe ends, which always come last. |
| `Server.CloseOrder` | src/linux/BTSerialPortBindingServer.cc:498-518 | The client socket is closed first when non-zero, and the listening socket is closed when non-zero. Both pipe ends are closed last, unconditionally. No earlier close is of a descriptor equal to 0. |
| `Server.CloseCount` | src/linux/BTSerialPortBindingServer.cc:501-518 | `Close` closes exactly two descriptors plus one for each socket that is not 0. |
| `Server.CloseSentinel` | src/linux/BTSerialPortBindingServer.cc:506-511 | The sentinel is written to `rep[1]`, and to nothing else, iff `s` was non-zero. A pipe-write failure other than would-block is thrown. |
| `Server.CloseAgain` | src/linux/BTSerialPortBindingServer.cc:501-518 | A second `Close` closes nothing but the two pipe ends, again. |
| `Server.CloseEffectsIntended` | src/linux/BTSerialPortBindingServer.cc:501-518 | The intended `Close`: with both sockets at 0 and the pipe already closed, it does nothing. |
| `Server.CloseDiffersOnClosedPipe` | src/linux/BTSerialPortBindingServer.cc:516-518 | The code and the intended `Close` differ iff the pipe is already closed. A second call then closes two descriptors in the code and none as intended. |
| `Server.AfterListenPhaseIntended` | src/linux/BTSerialPortBindingServer.cc:169-181 | The intended `EIO_AfterListen` queues the accept worker iff the status is 0. |
| `Server.AfterListenDiffers` | src/linux/BTSerialPortBindingServer.cc:127-181 | Composed with `ListenWorker`, the intended completion withholds the accept worker iff bind, listen, SDP connect or SDP register failed. The code queues it in every case. |
| `Server.Server.Valid` | src/linux/BTSerialPortBindingServer.cc:161-182 | Lifecycle invariant: the baton's error string is set iff its status is non-zero (what `EIO_AfterListen` relies on to report it), and once `HandleOKCallback` has run the SDP session is gone. |
| `Server.Server.constructor` | src/linux/BTSerialPortBindingServer.cc:319-383 | `New` resets the write queue, sets `s` to 0 and leaves `mClientSocket` uninitialised (a parameter here). It stores the parsed UUID and the pipe, and keeps both callbacks live. An invalid UUID or a failed pipe is thrown without stopping construction. The listen worker is queued. |
| `Server.Server.RunListen` | src/linux/BTSerialPortBindingServer.cc:127-159 | `EIO_Listen` stores the socket, the status and the error kind computed by `ListenWorker`, and updates the SDP session as it says. The calls go to the log. No other field changes. |
| `Server.Server.ListenCompleted` | src/linux/BTSerialPortBindingServer.cc:161-182 | `EIO_AfterListen` fires the error callback iff the status is non-zero, and queues the accept worker in every case. |
| `Server.Server.RunAccept` | src/linux/BTSerialPortBindingServer.cc:567-580 | `ClientWorker::Execute` calls accept on the current listening socket. It stores the result in `mClientSocket` and the peer address. |
| `Server.Server.AcceptCompleted` | src/linux/BTSerialPortBindingServer.cc:582-608 | `HandleOKCallback` appends `AcceptEffects` to the log, clears the SDP session and resets both callback handles. When accept returned -1, the baton's status becomes -1 and its error the accept failure. Otherwise both stay as they were. |
| `Server.Server.Read` | src/linux/BTSerialPortBindingServer.cc:526-556 | Rejected with `ConnectionClosed` iff `mClientSocket == 0`; scheduled otherwise. |
| `Server.Server.RunWrite` | src/linux/BTSerialPortBindingServer.cc:185-200 | A dispatched write runs against the server's current `mClientSocket`, with the queue effects of `Queue.Complete`. |
| `Server.Server.CloseClientSocket` | src/linux/BTSerialPortBindingServer.cc:501-504 | The first block of `Close`: the client socket is closed iff it is not 0, and ends at 0. Only `mClientSocket` and the log change. |
| `Server.Server.CloseListeningSocket` | src/linux/BTSerialPortBindingServer.cc:506-515 | The second block of `Close`: the log grows by `ListeningPart` of the old `s`, and `s` ends at 0. Only `s` and the log change. |
| `Server.Server.Close` | src/linux/BTSerialPortBindingServer.cc:498-524 | After `Close`, both `mClientSocket` and `s` are 0 and the listen baton is released. The log grows by `CloseEffects` of the old descriptors. |

## Where the code departs from the intended design

Each point below is modelled as the code is written, and the rest of the model keeps to
the code. Beside each, the model also defines the behaviour the code around it calls
for, and proves exactly where the two differ.

- The 128-bit UUID form is meant to have dashes at positions 8, 13, 18 and 23. The test
  at lines 73-74 joins its comparisons with `&&`, so it rejects only when all four are
  missing (`Uuid.MisplacedDashesAccepted`). The intended half is `Uuid.Str2UuidIntended`,
  and `Uuid.WrittenAndIntendedDiffer` states where the two differ.
- A write on a closed connection (socket 0 or -1) is meant to fail as such without
  touching the socket: line 192 sets "Attempting to write to a closed connection". The
  code still calls write(2) (line 195). When that write is short, line 198 overwrites the
  message, and the closed connection is reported as an incomplete write. The intended
  half is `WriteQueue.WriteOutcomeIntended` and `WriteQueue.WriteCallsIntended`.
  `WriteQueue.WriteOutcomeDiffers` states where the outcomes differ.
- `Read` rejects only `mClientSocket == 0` (line 537). After a failed accept (-1), a read
  is still scheduled. The intended half is `ReadChannel.ReadDispatchIntended`, with
  `ReadChannel.DispatchDiffersOnFailedAccept`.
- A failed listen or advertise is meant to be terminal. `EIO_AfterListen` queues the
  accept worker in every case (line 181). The intended half is
  `Server.AfterListenPhaseIntended`, and `Server.AfterListenDiffers` states where the two
  differ.
- `Close` is meant to be idempotent. It closes both pipe ends on every call
  (`Server.CloseAgain`), and it deletes the listen baton every time. The intended half is
  `Server.CloseEffectsIntended`, which closes the pipe only while it is open.
  `Server.CloseDiffersOnClosedPipe` states where the two differ. The baton's double
  `delete` is memory-safety behaviour and is not part of either half.

Two scenario methods run the operations in sequence to check that they compose:
`WriteQueue.TwoWritesInOrder` (two writes complete in submission order) and
`Server.ConnectThenClose` (listen, connect, `Close`, then a rejected read). They state
nothing of their own and have no row.

## Left out

- V8 and Nan marshalling, `Init`, and the argument count and type checks: host-runtime
  boilerplate.
- The libuv worker pool and the queue mutex: the model runs events one after another.
  The order of events is chosen by the caller of the model, and the methods' `phase`
  and `dispatched` preconditions say which events the event loop can deliver.
- System calls (socket, bind, listen, accept, pselect, read, write, pipe, fcntl, close)
  and the SDP library: they are inputs (results) or log entries (calls). The
  construction of the SDP record in `Advertise` is left out, and only its effect on
  `status` and `mSdpSession` is kept.
- `ba2str`, errno values, message texts and the `sprintf` buffers: errors are kinds.
  `Ref`/`Unref` reference counting is left out.
- `Uuid.Str2Uuid`: strtoul/strtol are modelled strictly, as "hex digits only". The C
  functions also accept leading white space, a sign and a `0x` prefix, and they
  saturate on overflow. Strings that rely on these quirks are rejected here.
- `Uuid.Str2Uuid`: the words are kept as numbers, without `htonl`'s byte swap. The
  UTF-8 conversion of the JavaScript string is left out: the input is the byte string,
  one `char` per byte.
- `Server.Server.Close`: the double `delete` of the listen baton and the double close of
  the pipe on a second `Close` are memory-safety behaviour. The model records only that
  the pipe closes happen each time and that the baton is released. Use of the baton
  after `Close` is not modelled.
- `Server.Server.constructor`: when a UUID error and a pipe error are both thrown, which
  exception JavaScript sees is host behaviour. Both are logged. The effect of
  `O_NONBLOCK` on the pipe's read end is not modelled.
- `mSdpSession`, `mListenBaton` and the write queue are process-wide statics. The model
  gives each server its own SDP session and baton flag, starting with no session, and
  keeps the queue as a separate object that every construction resets.
- `WriteQueue.Queue.Reset`: the model drops pending and dispatched requests on reset, and
  its in-flight write never completes. In the code, a write A already dispatched when a
  new server is constructed still completes, which has two consequences the model does
  not capture. First, a write B submitted after the construction finds the list empty
  and is dispatched at once (lines 486-491), so two writes are in flight together.
  Second, A's `ngx_queue_remove` (line 220) rewrites the re-initialised list head so
  that the list looks empty. A write C queued behind B is then never dispatched (line
  222), and its callback never fires. The pointer-level unlink that causes this is not
  modelled.
- `Server.Server.RunWrite`: a request does not record which server submitted it, and
  the model assumes one server per queue. The code writes to the submitting server's
  `mClientSocket` (line 189). With several servers, the model's `RunWrite` could run one
  server's request against another server's socket.
- `WriteQueue.Queue.Complete`: `EIO_Write` and `EIO_AfterWrite` are one step. `EIO_Write`
  touches no queue state, so a `Write` between them has the same effect before or after.
- `ReadChannel.FreshBaton`: `new read_baton_t()` is taken to zero the baton (a plain
  struct). A failed pselect then completes with an empty buffer. The header that
  declares the struct is not part of this model.
- The descriptor arithmetic for pselect (`nfds`) and `FD_SET` on an invalid descriptor
  are not modelled.

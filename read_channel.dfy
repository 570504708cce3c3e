/** The read path: `Read` decides synchronously whether background work is scheduled,
    `EIO_Read` waits on the client socket and the cancellation pipe and reads at most one
    scratch buffer, and `EIO_AfterRead` maps the byte count to an error or a buffer. */
module ReadChannel {
  import opened Common

  /** Size of the scratch buffer of `EIO_Read` and of the baton's result buffer. */
  const ScratchSize: nat := 1024

  /** What read(2) on the client socket can return into a scratch buffer of
      `ScratchSize` bytes: the bytes received (none when the peer closed), or -1. */
  type Chunk = s: seq<byte> | |s| <= ScratchSize witness []

  datatype ReadCall = Received(data: Chunk) | ReadError

  /** How pselect(2) returned: with an error, or with the set of ready descriptors, of
      which only whether the client socket is among them matters. */
  datatype Wakeup = SelectFailed | Selected(clientReady: bool)

  /** The part of `read_baton_t` the read path uses: the byte count and the result buffer. */
  datatype ReadBaton = ReadBaton(size: int, result: seq<byte>)

  /** What the `read` call does synchronously. */
  datatype Dispatch = Rejected(error: ServerError) | Scheduled

  /** `Read`: fails at once, with no background work, iff the client socket is 0. */
  function ReadDispatch(clientSocket: int): (d: Dispatch)
    ensures d.Rejected? <==> clientSocket == 0
    ensures d.Rejected? ==> d.error == ConnectionClosed
  {
    if clientSocket == 0 then Rejected(ConnectionClosed) else Scheduled
  }

  /** `Read` as the connection states intend it: -1, the value a failed accept leaves in
      the client socket, is rejected like 0. */
  function ReadDispatchIntended(clientSocket: int): (d: Dispatch)
    ensures d.Rejected? ==> d.error == ConnectionClosed
  {
    if clientSocket == 0 || clientSocket == -1 then Rejected(ConnectionClosed) else Scheduled
  }

  /** The check as written and the intended one disagree exactly on a failed accept's -1,
      which the code schedules and the intended check rejects. */
  lemma DispatchDiffersOnFailedAccept(clientSocket: int)
    ensures ReadDispatch(clientSocket) != ReadDispatchIntended(clientSocket) <==> clientSocket == -1
    ensures clientSocket == -1 ==>
              ReadDispatch(clientSocket) == Scheduled &&
              ReadDispatchIntended(clientSocket) == Rejected(ConnectionClosed)
  {
  }

  /** A freshly allocated baton: `new read_baton_t()` value-initialises it. */
  function FreshBaton(): (b: ReadBaton)
    ensures b.size == 0 && |b.result| == ScratchSize
  {
    ReadBaton(0, seq(ScratchSize, _ => 0 as byte))
  }

  /** `EIO_Read` on a fresh baton. */
  function ReadWorker(w: Wakeup, call: ReadCall): (b: ReadBaton)
    ensures |b.result| == ScratchSize
    ensures -1 <= b.size <= ScratchSize
    ensures b.size < 0 <==> w == Selected(true) && call.ReadError?
    ensures w == Selected(true) && call.Received? ==>
              b.size == |call.data| && b.result[..b.size] == call.data
    ensures w != Selected(true) ==> b.size == 0
  {
    var b0 := FreshBaton();
    match w
    case SelectFailed => b0
    case Selected(clientReady) =>
      var size := if !clientReady then 0 else if call.ReadError? then -1 else |call.data|;
      if size > 0 then ReadBaton(size, call.data + b0.result[size..])
      else ReadBaton(size, b0.result)
  }

  /** `EIO_AfterRead`: a negative count is an error, otherwise the callback receives a new
      buffer holding the first `size` bytes of the result buffer. */
  function AfterRead(b: ReadBaton): (r: Result<seq<byte>, ServerError>)
    requires b.size <= |b.result|
    ensures r.Failure? <==> b.size < 0
    ensures r.Failure? ==> r.error == ReadFailed
    ensures r.Success? ==> |r.value| == b.size && r.value == b.result[..b.size]
  {
    if b.size < 0 then Failure(ReadFailed) else Success(b.result[..b.size])
  }

  /** A scheduled read from wake-up to callback. */
  function ReadCompletion(w: Wakeup, call: ReadCall): (r: Result<seq<byte>, ServerError>)
  {
    AfterRead(ReadWorker(w, call))
  }

  /** A scheduled read fails iff the client socket woke pselect and read(2) failed; it
      otherwise delivers exactly the bytes received from the socket, or no bytes when the
      wake-up came from elsewhere, and never more than one scratch buffer. */
  lemma ReadCompletionOutcome(w: Wakeup, call: ReadCall)
    ensures ReadCompletion(w, call).Failure? <==> w == Selected(true) && call.ReadError?
    ensures ReadCompletion(w, call).Failure? ==> ReadCompletion(w, call).error == ReadFailed
    ensures ReadCompletion(w, call).Success? ==>
              ReadCompletion(w, call).value ==
                (if w == Selected(true) then call.data else []) &&
              |ReadCompletion(w, call).value| <= ScratchSize
  {
  }

  /** A read woken by the sentinel that `Close` writes into the pipe completes with an empty
      buffer, whatever the socket would have returned. */
  lemma CancelledReadIsEmpty(call: ReadCall)
    ensures ReadCompletion(Selected(false), call) == Success([])
  {
  }
}

/** The server object: construction, the listen worker and its completion, the accept
    worker and its completion, `Read`, the write path seen from the server, and `Close`.
    System calls are inputs of the methods; what the object does to the outside world is
    recorded, in order, in `log`. */
module Server {
  import opened Common
  import opened Uuid
  import ReadChannel
  import WriteQueue

  /** The message `Close` writes into the cancellation pipe: "close" and its NUL. */
  const Sentinel: string := "close" + ['\0']

  /** Background work the event loop holds for the server. */
  datatype Phase =
    | ListenQueued   // `New` queued EIO_Listen
    | ListenDone     // EIO_Listen ran; EIO_AfterListen is due
    | AcceptQueued   // EIO_AfterListen queued the ClientWorker
    | AcceptDone     // ClientWorker::Execute ran; HandleOKCallback is due
    | Settled        // HandleOKCallback ran

  /** What the server does to the outside world. */
  datatype Effect =
    | Bind(fd: int, channel: int)
    | ListenCall(fd: int, backlog: int)
    | SdpConnect
    | SdpRegister
    | AcceptCall(fd: int)
    | SdpClose
    | CloseFd(fd: int)
    | PipeWrite(fd: int, message: string)
    | ErrorCallback(error: ServerError)
    | ConnectCallback(address: string)
    | Thrown(error: ServerError)

  /** `(uint8_t) listeningChannelID`: the channel truncated to one octet. */
  function ChannelByte(channel: int): (ch: int)
    ensures 0 <= ch < 256
    ensures (channel - ch) % 256 == 0
    ensures 0 <= channel < 256 ==> ch == channel
  {
    channel % 256
  }

  /** The listen baton after `EIO_Listen` (with the status part of `Advertise`): the calls
      made, `status`, the kind of the error string, and the new value of the SDP session
      (None when `Advertise` was not reached and the session is left as it was). */
  datatype ListenResult = ListenResult(
    calls: seq<Effect>, status: int, error: Option<ServerError>, session: Option<bool>)

  /** `EIO_Listen`: bind, then listen, then connect to the SDP daemon and register; each
      step runs only if the one before succeeded. */
  function ListenWorker(fd: int, channel: int, bindResult: int, listenResult: int,
                        connected: bool, registered: bool): (r: ListenResult)
    ensures r.status == 0 <==> r.error == None
    ensures r.status == 0 <==>
              bindResult == 0 && listenResult == 0 && connected && registered
    ensures r.error == Some(BindFailed) <==> bindResult != 0
    ensures r.error == Some(ListenFailed) <==> bindResult == 0 && listenResult != 0
    ensures r.error == Some(SdpConnectFailed) <==>
              bindResult == 0 && listenResult == 0 && !connected
    ensures r.error == Some(SdpRegisterFailed) <==>
              bindResult == 0 && listenResult == 0 && connected && !registered
    ensures |r.calls| >= 1 && r.calls[0] == Bind(fd, ChannelByte(channel))
    ensures r.calls <= [Bind(fd, ChannelByte(channel)), ListenCall(fd, 1), SdpConnect, SdpRegister]
    ensures ListenCall(fd, 1) in r.calls <==> bindResult == 0
    ensures SdpConnect in r.calls <==> bindResult == 0 && listenResult == 0
    ensures SdpRegister in r.calls <==> bindResult == 0 && listenResult == 0 && connected
    ensures r.session.Some? <==> bindResult == 0 && listenResult == 0
    ensures r.session.Some? ==> r.session.value == connected
  {
    var bound := [Bind(fd, ChannelByte(channel))];
    if bindResult != 0 then
      ListenResult(bound, bindResult, Some(BindFailed), None)
    else
      var listened := bound + [ListenCall(fd, 1)];
      if listenResult != 0 then
        ListenResult(listened, listenResult, Some(ListenFailed), None)
      else if !connected then
        ListenResult(listened + [SdpConnect], -1, Some(SdpConnectFailed), Some(false))
      else if !registered then
        ListenResult(listened + [SdpConnect, SdpRegister], -1, Some(SdpRegisterFailed), Some(true))
      else
        ListenResult(listened + [SdpConnect, SdpRegister], 0, None, Some(true))
  }

  /** `ClientWorker::HandleOKCallback`: tear the SDP session down if there is one, then call
      exactly one of the two callbacks. */
  function AcceptEffects(sessionOpen: bool, client: int, address: string): (e: seq<Effect>)
    ensures |e| == if sessionOpen then 2 else 1
    ensures SdpClose in e <==> sessionOpen
    ensures forall i :: 0 <= i < |e| - 1 ==> e[i] == SdpClose
    ensures e[|e| - 1] == ErrorCallback(AcceptFailed) <==> client == -1
    ensures e[|e| - 1] == ConnectCallback(address) <==> client != -1
  {
    (if sessionOpen then [SdpClose] else []) +
    [if client == -1 then ErrorCallback(AcceptFailed) else ConnectCallback(address)]
  }

  /** Number of descriptor closes in a sequence of effects. */
  function Closes(e: seq<Effect>): (n: nat)
    ensures n <= |e|
  {
    if e == [] then 0 else (if e[0].CloseFd? then 1 else 0) + Closes(e[1..])
  }

  lemma {:induction false} ClosesConcat(a: seq<Effect>, b: seq<Effect>)
    ensures Closes(a + b) == Closes(a) + Closes(b)
    decreases |a|
  {
    if a == [] {
      assert a + b == b;
    } else {
      assert (a + b)[1..] == a[1..] + b;
      ClosesConcat(a[1..], b);
    }
  }

  /** `Close` on the client socket: closed iff it is not 0. */
  function ClientPart(client: int): seq<Effect> {
    if client != 0 then [CloseFd(client)] else []
  }

  /** `Close` on the listening socket: iff it is not 0, close it and write the sentinel into
      the pipe; a failed write other than would-block is thrown. */
  function ListeningPart(listening: int, rep1: int, pipeWritten: int, wouldBlock: bool): seq<Effect> {
    if listening != 0 then
      [CloseFd(listening), PipeWrite(rep1, Sentinel)] +
      (if pipeWritten < 0 && !wouldBlock then [Thrown(PipeWriteFailed)] else [])
    else []
  }

  /** `Close`: the client socket, then the listening socket with the sentinel, then both
      pipe ends, always. */
  function CloseEffects(client: int, listening: int, rep0: int, rep1: int,
                        pipeWritten: int, wouldBlock: bool): (e: seq<Effect>)
    ensures |e| >= 2 && e[|e| - 2..] == [CloseFd(rep0), CloseFd(rep1)]
  {
    ClientPart(client) + ListeningPart(listening, rep1, pipeWritten, wouldBlock) +
    [CloseFd(rep0), CloseFd(rep1)]
  }

  /** `Close` closes in this order: the client socket first when it is not 0, the
      listening socket when it is not 0, and both pipe ends last, unconditionally; no
      descriptor equal to 0 is closed before the pipe ends. */
  lemma CloseOrder(client: int, listening: int, rep0: int, rep1: int,
                   pipeWritten: int, wouldBlock: bool)
    ensures var e := CloseEffects(client, listening, rep0, rep1, pipeWritten, wouldBlock);
      |e| >= 2 && e[|e| - 2..] == [CloseFd(rep0), CloseFd(rep1)] &&
      (forall i :: 0 <= i < |e| - 2 ==> e[i] != CloseFd(0)) &&
      (client != 0 ==> e[0] == CloseFd(client)) &&
      (listening != 0 ==> CloseFd(listening) in e)
  {
    var e := CloseEffects(client, listening, rep0, rep1, pipeWritten, wouldBlock);
    var front := ClientPart(client) + ListeningPart(listening, rep1, pipeWritten, wouldBlock);
    assert e[..|e| - 2] == front;
    assert forall x :: x in front ==> x != CloseFd(0);
    forall i | 0 <= i < |e| - 2 ensures e[i] != CloseFd(0) {
      assert e[i] == front[i];
    }
    if listening != 0 {
      assert CloseFd(listening) in ListeningPart(listening, rep1, pipeWritten, wouldBlock);
    }
  }

  /** `Close` closes exactly two descriptors plus one for each socket that is not 0. */
  lemma CloseCount(client: int, listening: int, rep0: int, rep1: int,
                   pipeWritten: int, wouldBlock: bool)
    ensures Closes(CloseEffects(client, listening, rep0, rep1, pipeWritten, wouldBlock)) ==
            2 + (if client != 0 then 1 else 0) + (if listening != 0 then 1 else 0)
  {
    var c := ClientPart(client);
    var l := ListeningPart(listening, rep1, pipeWritten, wouldBlock);
    ClosesConcat(c + l, [CloseFd(rep0), CloseFd(rep1)]);
    ClosesConcat(c, l);
    if listening != 0 {
      ClosesConcat([CloseFd(listening), PipeWrite(rep1, Sentinel)],
                   if pipeWritten < 0 && !wouldBlock then [Thrown(PipeWriteFailed)] else []);
    }
  }

  /** The sentinel is written, to the pipe's write end only, iff the listening socket was
      open; a failed write other than would-block is thrown. */
  lemma CloseSentinel(client: int, listening: int, rep0: int, rep1: int,
                      pipeWritten: int, wouldBlock: bool)
    ensures var e := CloseEffects(client, listening, rep0, rep1, pipeWritten, wouldBlock);
      (PipeWrite(rep1, Sentinel) in e <==> listening != 0) &&
      (forall x :: x in e && x.PipeWrite? ==> x == PipeWrite(rep1, Sentinel)) &&
      (Thrown(PipeWriteFailed) in e <==> listening != 0 && pipeWritten < 0 && !wouldBlock)
  {
  }

  /** A second `Close` finds both sockets at 0: it closes only the pipe ends, again. */
  lemma CloseAgain(rep0: int, rep1: int, pipeWritten: int, wouldBlock: bool)
    ensures CloseEffects(0, 0, rep0, rep1, pipeWritten, wouldBlock) == [CloseFd(rep0), CloseFd(rep1)]
  {
  }

  /** `Close` as it is meant to behave on a repeated call: the pipe ends are closed only
      while the pipe is open (`pipeOpen`), so a second call does nothing. */
  function CloseEffectsIntended(client: int, listening: int, pipeOpen: bool, rep0: int, rep1: int,
                                pipeWritten: int, wouldBlock: bool): (e: seq<Effect>)
    ensures client == 0 && listening == 0 && !pipeOpen ==> e == []
  {
    ClientPart(client) + ListeningPart(listening, rep1, pipeWritten, wouldBlock) +
    (if pipeOpen then [CloseFd(rep0), CloseFd(rep1)] else [])
  }

  /** The code and the intended `Close` differ exactly once the pipe is closed: the code
      then closes both (already closed) pipe ends again. A second call, with both sockets
      already 0, closes two descriptors in the code and none as intended. */
  lemma {:induction false} CloseDiffersOnClosedPipe(client: int, listening: int, pipeOpen: bool,
                                                    rep0: int, rep1: int, pipeWritten: int, wouldBlock: bool)
    ensures CloseEffects(client, listening, rep0, rep1, pipeWritten, wouldBlock) !=
            CloseEffectsIntended(client, listening, pipeOpen, rep0, rep1, pipeWritten, wouldBlock)
            <==> !pipeOpen
    ensures !pipeOpen ==>
              Closes(CloseEffects(0, 0, rep0, rep1, pipeWritten, wouldBlock)) == 2 &&
              Closes(CloseEffectsIntended(0, 0, pipeOpen, rep0, rep1, pipeWritten, wouldBlock)) == 0
  {
    var e := CloseEffects(client, listening, rep0, rep1, pipeWritten, wouldBlock);
    var i := CloseEffectsIntended(client, listening, pipeOpen, rep0, rep1, pipeWritten, wouldBlock);
    if !pipeOpen {
      assert |e| == |i| + 2;
      CloseCount(0, 0, rep0, rep1, pipeWritten, wouldBlock);
    }
  }

  /** `EIO_AfterListen` as a failed listen is meant to end things: the accept worker is
      queued only after a successful listen, and a failure settles the server. */
  function AfterListenPhaseIntended(status: int): (p: Phase)
    ensures p == AcceptQueued <==> status == 0
  {
    if status == 0 then AcceptQueued else Settled
  }

  /** The code always queues the accept worker; the intended completion queues it exactly
      when bind, listen, SDP connect and SDP register all succeeded. So the two differ
      exactly on a failed listen or advertise, after which the code still calls accept. */
  lemma AfterListenDiffers(fd: int, channel: int, bindResult: int, listenResult: int,
                           connected: bool, registered: bool)
    ensures var r := ListenWorker(fd, channel, bindResult, listenResult, connected, registered);
      AfterListenPhaseIntended(r.status) != AcceptQueued <==>
        !(bindResult == 0 && listenResult == 0 && connected && registered)
  {
  }

  class Server {
    /** Listening socket; 0 when not open. */
    var s: int
    /** `mClientSocket`: the accepted connection; -1 after a failed accept, 0 after `Close`. */
    var clientSocket: int
    /** The cancellation pipe `rep`: read end and write end. */
    var rep0: int
    var rep1: int
    /** The parsed UUID, when `str2uuid` accepted the string. */
    var uuid: Option<Uuid>
    /** `listeningChannelID`. */
    var channel: int
    /** `mSdpSession != NULL`. */
    var sdpSession: bool
    /** The connect and connect-error callback handles; false once reset. */
    var cb: bool
    var ecb: bool
    /** `status` and the kind of `errorString` of the listen baton. */
    var status: int
    var listenError: Option<ServerError>
    /** The peer address `ba2str` wrote. */
    var clientAddress: string
    /** Whether the listen baton is still allocated. */
    var batonLive: bool
    var phase: Phase
    var log: seq<Effect>

    /** The error string is set iff the status is non-zero; once the accept completion has
        run, the advertisement is gone and neither callback can fire again. */
    ghost predicate Valid()
      reads this
      ensures Valid() ==> (listenError == None <==> status == 0)
      ensures Valid() && phase == Settled ==> !sdpSession
    {
      (status != 0 <==> listenError.Some?) &&
      (phase == Settled ==> !sdpSession && !cb && !ecb)
    }

    /** `New`: re-initialise the write queue, parse the UUID, create the cancellation pipe
        and queue the listen worker. `Nan::ThrowError` does not return, so an invalid UUID
        or a failed pipe is thrown and construction carries on. The C++ constructor sets
        only `s`, so `mClientSocket` starts as whatever `initialClient` stands for; after a
        failed pipe(2) the pipe descriptors are likewise the given values. */
    constructor (q: WriteQueue.Queue, uuidText: string, channelId: int,
                 pipeCreated: bool, pipeRead: int, pipeWrite: int, initialClient: int)
      requires q.Valid()
      modifies q
      ensures q.Valid() && q.pending == [] && q.dispatched == []
      ensures q.fired == old(q.fired) && q.calls == old(q.calls)
      ensures Valid()
      ensures s == 0 && clientSocket == initialClient
      ensures rep0 == pipeRead && rep1 == pipeWrite
      ensures uuid == Str2Uuid(uuidText) && channel == channelId
      ensures !sdpSession && cb && ecb && batonLive
      ensures status == 0 && listenError == None && clientAddress == []
      ensures phase == ListenQueued
      ensures log == (if uuid.None? then [Thrown(InvalidUuid)] else []) +
                     (if !pipeCreated then [Thrown(PipeCreationFailed)] else [])
    {
      q.Reset();
      var thrown: seq<Effect> := [];
      var parsed := Str2Uuid(uuidText);
      if parsed.None? {
        thrown := thrown + [Thrown(InvalidUuid)];
      }
      if !pipeCreated {
        thrown := thrown + [Thrown(PipeCreationFailed)];
      }
      s := 0;
      clientSocket := initialClient;
      batonLive := true;
      uuid := parsed;
      rep0, rep1 := pipeRead, pipeWrite;
      cb, ecb := true, true;
      channel := channelId;
      sdpSession := false;
      status, listenError := 0, None;
      clientAddress := [];
      log := thrown;
      phase := ListenQueued;
    }

    /** `EIO_Listen` on the worker pool: socket(2) returned `socketFd`, and the later steps
        returned the given results. */
    method RunListen(socketFd: int, bindResult: int, listenResult: int,
                     connected: bool, registered: bool)
      requires Valid() && phase == ListenQueued
      modifies this
      ensures Valid()
      ensures var r := ListenWorker(socketFd, channel, bindResult, listenResult, connected, registered);
        s == socketFd && status == r.status && listenError == r.error &&
        sdpSession == (if r.session.Some? then r.session.value else old(sdpSession)) &&
        log == old(log) + r.calls
      ensures phase == ListenDone
      ensures clientSocket == old(clientSocket) && rep0 == old(rep0) && rep1 == old(rep1)
      ensures uuid == old(uuid) && channel == old(channel) && cb == old(cb) && ecb == old(ecb)
      ensures clientAddress == old(clientAddress) && batonLive == old(batonLive)
    {
      s := socketFd;
      var r := ListenWorker(socketFd, channel, bindResult, listenResult, connected, registered);
      status, listenError := r.status, r.error;
      if r.session.Some? {
        sdpSession := r.session.value;
      }
      log := log + r.calls;
      phase := ListenDone;
    }

    /** `EIO_AfterListen`: a non-zero status goes to the error callback; the accept worker
        is queued in every case. */
    method ListenCompleted()
      requires Valid() && phase == ListenDone
      modifies this
      ensures Valid()
      ensures log == old(log) + (if status != 0 then [ErrorCallback(listenError.value)] else [])
      ensures phase == AcceptQueued
      ensures s == old(s) && clientSocket == old(clientSocket) && rep0 == old(rep0)
      ensures rep1 == old(rep1) && uuid == old(uuid) && channel == old(channel)
      ensures sdpSession == old(sdpSession) && cb == old(cb) && ecb == old(ecb)
      ensures status == old(status) && listenError == old(listenError)
      ensures clientAddress == old(clientAddress) && batonLive == old(batonLive)
    {
      if status != 0 {
        log := log + [ErrorCallback(listenError.value)];
      }
      phase := AcceptQueued;
    }

    /** `ClientWorker::Execute`: accept(2) on the listening socket returned `acceptResult`
        and the peer address was formatted as `address`. */
    method RunAccept(acceptResult: int, address: string)
      requires Valid() && phase == AcceptQueued
      modifies this
      ensures Valid()
      ensures log == old(log) + [AcceptCall(old(s))]
      ensures clientSocket == acceptResult && clientAddress == address && phase == AcceptDone
      ensures s == old(s) && rep0 == old(rep0) && rep1 == old(rep1)
      ensures uuid == old(uuid) && channel == old(channel)
      ensures sdpSession == old(sdpSession) && cb == old(cb) && ecb == old(ecb)
      ensures status == old(status) && listenError == old(listenError)
      ensures batonLive == old(batonLive)
    {
      log := log + [AcceptCall(s)];
      clientSocket := acceptResult;
      clientAddress := address;
      phase := AcceptDone;
    }

    /** `ClientWorker::HandleOKCallback`: the SDP session is closed and cleared before any
        callback fires; the error callback fires iff accept returned -1, after the baton's
        status is set to -1 and its error string to the accept failure, and the connect
        callback with the peer address fires otherwise; both handles are reset afterwards. */
    method AcceptCompleted()
      requires Valid() && phase == AcceptDone
      modifies this
      ensures Valid()
      ensures log == old(log) + AcceptEffects(old(sdpSession), clientSocket, clientAddress)
      ensures !sdpSession && !cb && !ecb && phase == Settled
      ensures s == old(s) && clientSocket == old(clientSocket) && rep0 == old(rep0)
      ensures rep1 == old(rep1) && uuid == old(uuid) && channel == old(channel)
      ensures status == if clientSocket == -1 then -1 else old(status)
      ensures listenError == if clientSocket == -1 then Some(AcceptFailed) else old(listenError)
      ensures clientAddress == old(clientAddress) && batonLive == old(batonLive)
    {
      if sdpSession {
        log := log + [SdpClose];
        sdpSession := false;
      }
      if clientSocket == -1 {
        status, listenError := -1, Some(AcceptFailed);
        log := log + [ErrorCallback(AcceptFailed)];
      } else {
        log := log + [ConnectCallback(clientAddress)];
      }
      cb, ecb := false, false;
      phase := Settled;
    }

    /** `Read`: rejected at once with no work scheduled iff the client socket is 0. */
    method Read() returns (d: ReadChannel.Dispatch)
      ensures d.Rejected? <==> clientSocket == 0
      ensures d.Rejected? ==> d.error == ConnectionClosed
    {
      d := ReadChannel.ReadDispatch(clientSocket);
    }

    /** The worker pool runs the dispatched write `q.dispatched[k]` against this server's
        client socket, and write(2) returns `written`. */
    method RunWrite(q: WriteQueue.Queue, k: nat, written: int) returns (c: WriteQueue.Completion)
      requires q.Valid() && k < |q.dispatched|
      modifies q
      ensures q.Valid()
      ensures c.request == old(q.pending)[0]
      ensures c.outcome == WriteQueue.WriteOutcome(clientSocket, |c.request.data|, written)
      ensures q.calls == old(q.calls) + [WriteQueue.WriteCall(clientSocket, c.request)]
      ensures q.fired == old(q.fired) + [c]
      ensures q.pending == old(q.pending)[1..]
      ensures q.dispatched == if q.pending == [] then [] else [q.pending[0]]
    {
      c := q.Complete(k, clientSocket, written);
    }

    /** The first block of `Close`: the client socket is closed and cleared iff it is not 0. */
    method CloseClientSocket()
      modifies this`clientSocket, this`log
      ensures clientSocket == 0
      ensures log == old(log) + ClientPart(old(clientSocket))
    {
      if clientSocket != 0 {
        log := log + [CloseFd(clientSocket)];
        clientSocket := 0;
      }
    }

    /** The second block of `Close`: iff the listening socket is not 0, it is closed, the
        sentinel is written into the pipe (`pipeWritten` is what write(2) returns) and the
        socket is cleared; a failed write other than would-block is thrown. */
    method CloseListeningSocket(pipeWritten: int, wouldBlock: bool)
      modifies this`s, this`log
      ensures s == 0
      ensures log == old(log) + ListeningPart(old(s), rep1, pipeWritten, wouldBlock)
    {
      if s != 0 {
        log := log + [CloseFd(s), PipeWrite(rep1, Sentinel)];
        if pipeWritten < 0 && !wouldBlock {
          log := log + [Thrown(PipeWriteFailed)];
        }
        s := 0;
      }
    }

    /** `Close`: write(2) of the sentinel returns `pipeWritten`, and `wouldBlock` is whether
        errno is then EWOULDBLOCK. Both sockets end at 0; the listen baton is released. */
    method Close(pipeWritten: int, wouldBlock: bool)
      requires Valid()
      modifies this`clientSocket, this`s, this`log, this`batonLive
      ensures Valid()
      ensures clientSocket == 0 && s == 0 && !batonLive
      ensures log == old(log) + CloseEffects(old(clientSocket), old(s), rep0, rep1, pipeWritten, wouldBlock)
      ensures rep0 == old(rep0) && rep1 == old(rep1) && uuid == old(uuid) && channel == old(channel)
      ensures sdpSession == old(sdpSession) && cb == old(cb) && ecb == old(ecb)
      ensures status == old(status) && listenError == old(listenError)
      ensures clientAddress == old(clientAddress) && phase == old(phase)
    {
      ghost var log0 := log;
      ghost var cp := ClientPart(clientSocket);
      ghost var lp := ListeningPart(s, rep1, pipeWritten, wouldBlock);
      CloseClientSocket();
      CloseListeningSocket(pipeWritten, wouldBlock);
      // closing the pipe
      log := log + [CloseFd(rep0), CloseFd(rep1)];
      assert log == log0 + (cp + lp + [CloseFd(rep0), CloseFd(rep1)]);
      batonLive := false;
    }
  }

  /** A server whose listen succeeds and whose client connects: the connect callback
      fires after the advertisement is torn down, and after `Close` a read is rejected. */
  method ConnectThenClose(q: WriteQueue.Queue, fd: int, client: int, address: string)
    requires q.Valid()
    requires client != -1
    modifies q
  {
    var srv := new Server(q, "1101", 1, true, 10, 11, 0);
    srv.RunListen(fd, 0, 0, true, true);
    srv.ListenCompleted();
    assert srv.sdpSession;
    srv.RunAccept(client, address);
    var before := srv.log;
    srv.AcceptCompleted();
    assert srv.log == before + [SdpClose, ConnectCallback(address)];
    srv.Close(6, false);
    var d := srv.Read();
    assert d == ReadChannel.Rejected(ConnectionClosed);
  }
}

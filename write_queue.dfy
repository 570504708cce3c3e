/** The process-wide write queue: `Write` appends a request and dispatches it only when the
    queue was empty; `EIO_Write` issues one write(2); `EIO_AfterWrite` fires the request's
    callback, unlinks it and dispatches the new head. */
module WriteQueue {
  import opened Common

  /** A queued write: the bytes of the caller's buffer. `id` tells apart requests with
      equal bytes; it stands for the identity of the `queued_write_t` node. */
  datatype Request = Request(id: nat, data: seq<byte>)

  /** One call of a request's callback: an error, or the byte count written. */
  datatype Completion = Completion(request: Request, outcome: Result<int, ServerError>)

  /** One write(2) issued by `EIO_Write`: the descriptor and the request it wrote. */
  datatype WriteCall = WriteCall(fd: int, request: Request)

  /** What `EIO_Write` followed by `EIO_AfterWrite` reports for a buffer of `length` bytes
      when the connection's descriptor is `clientSocket` and write(2) returned `written`.
      The error string is set when the socket is 0 or -1 and again, overwriting it, when
      the count differs from the length. */
  function WriteOutcome(clientSocket: int, length: nat, written: int): (r: Result<int, ServerError>)
    ensures r.Failure? <==> clientSocket == 0 || clientSocket == -1 || written != length
    ensures r.Failure? ==> (r.error == WriteIncomplete <==> written != length)
    ensures r.Failure? ==> r.error == WriteIncomplete || r.error == ConnectionClosed
    ensures r.Success? ==> r.value == ToInt32(length)
    ensures r.Success? && length < 0x8000_0000 ==> r.value == length
  {
    var closed := clientSocket == 0 || clientSocket == -1;
    var incomplete := written != length;
    if incomplete then Failure(WriteIncomplete)
    else if closed then Failure(ConnectionClosed)
    else Success(ToInt32(written))
  }

  /** What a write is meant to report, as the message "Attempting to write to a closed
      connection" says: a closed connection is reported as such, and only a write on an
      open connection can be short. */
  function WriteOutcomeIntended(clientSocket: int, length: nat, written: int): (r: Result<int, ServerError>)
    ensures r.Failure? <==> clientSocket == 0 || clientSocket == -1 || written != length
    ensures r.Failure? ==> (r.error == ConnectionClosed <==> clientSocket == 0 || clientSocket == -1)
  {
    if clientSocket == 0 || clientSocket == -1 then Failure(ConnectionClosed)
    else if written != length then Failure(WriteIncomplete)
    else Success(ToInt32(written))
  }

  /** The write(2) calls a write is meant to issue: none on a closed connection. */
  function WriteCallsIntended(clientSocket: int, request: Request): (c: seq<WriteCall>)
    ensures c == [] <==> clientSocket == 0 || clientSocket == -1
  {
    if clientSocket == 0 || clientSocket == -1 then [] else [WriteCall(clientSocket, request)]
  }

  /** The code and the intended outcome differ exactly when a write on a closed connection
      is also short: the second message overwrites the first, so the code reports
      `WriteIncomplete` where `ConnectionClosed` is meant. They always agree on whether
      the write failed. */
  lemma WriteOutcomeDiffers(clientSocket: int, length: nat, written: int)
    ensures WriteOutcome(clientSocket, length, written) != WriteOutcomeIntended(clientSocket, length, written)
            <==> (clientSocket == 0 || clientSocket == -1) && written != length
    ensures (clientSocket == 0 || clientSocket == -1) && written != length ==>
              WriteOutcome(clientSocket, length, written) == Failure(WriteIncomplete) &&
              WriteOutcomeIntended(clientSocket, length, written) == Failure(ConnectionClosed)
    ensures WriteOutcome(clientSocket, length, written).Failure? <==>
            WriteOutcomeIntended(clientSocket, length, written).Failure?
  {
  }

  class Queue {
    /** The list `write_queue`, head first. */
    var pending: seq<Request>
    /** Requests handed to the worker pool (by `uv_queue_work`) whose completion has not run. */
    var dispatched: seq<Request>
    /** Callbacks fired, in the order they were called. */
    var fired: seq<Completion>
    /** write(2) calls issued, in order. */
    var calls: seq<WriteCall>
    /** Identity of the next request. */
    var nextId: nat
    /** Every request ever appended to the current list, in order. */
    ghost var submitted: seq<Request>

    /** At most one request is dispatched, and it is the head of the list; callbacks have
        fired for exactly the requests before the list, in submission order. */
    ghost predicate Valid()
      reads this
      ensures Valid() ==> |dispatched| <= 1
      ensures Valid() && dispatched != [] ==> pending != [] && dispatched[0] == pending[0]
    {
      (pending == [] ==> dispatched == []) &&
      (pending != [] ==> dispatched == [pending[0]]) &&
      |fired| <= |submitted| &&
      pending == submitted[|fired|..] &&
      (forall i :: 0 <= i < |fired| ==> fired[i].request == submitted[i]) &&
      (forall i :: 0 <= i < |submitted| ==> submitted[i].id < nextId)
    }

    constructor ()
      ensures Valid()
      ensures pending == [] && dispatched == [] && fired == [] && calls == []
      ensures submitted == []
    {
      pending, dispatched, fired, calls := [], [], [], [];
      nextId := 0;
      submitted := [];
    }

    /** `ngx_queue_init`, run by every server construction: the list becomes empty. */
    method Reset()
      requires Valid()
      modifies this
      ensures Valid()
      ensures pending == [] && dispatched == []
      ensures fired == old(fired) && calls == old(calls) && nextId == old(nextId)
      ensures submitted == old(submitted)[..|fired|]
    {
      pending, dispatched := [], [];
      submitted := submitted[..|fired|];
    }

    /** `Write`: append at the tail; dispatch iff the queue was empty before. */
    method Write(data: seq<byte>) returns (req: Request)
      requires Valid()
      modifies this
      ensures Valid()
      ensures req.data == data
      ensures forall r :: r in old(submitted) ==> r.id != req.id
      ensures pending == old(pending) + [req]
      ensures submitted == old(submitted) + [req]
      ensures dispatched == if old(pending) == [] then [req] else old(dispatched)
      ensures fired == old(fired) && calls == old(calls)
    {
      req := Request(nextId, data);
      nextId := nextId + 1;
      var empty := pending == [];
      pending := pending + [req];
      if empty {
        dispatched := dispatched + [req];
      }
      submitted := submitted + [req];
    }

    /** The worker pool runs the dispatched request `dispatched[k]`: `EIO_Write` writes its
        bytes to `clientSocket` (always, even when the socket is 0 or -1) and write(2)
        returns `written`; then `EIO_AfterWrite` calls its callback, unlinks it and
        dispatches the new head, if any. */
    method Complete(k: nat, clientSocket: int, written: int) returns (c: Completion)
      requires Valid()
      requires k < |dispatched|
      modifies this
      ensures Valid()
      ensures c.request == old(pending)[0] == old(dispatched)[k]
      ensures c.outcome == WriteOutcome(clientSocket, |c.request.data|, written)
      ensures calls == old(calls) + [WriteCall(clientSocket, c.request)]
      ensures fired == old(fired) + [c]
      ensures pending == old(pending)[1..]
      ensures dispatched == if pending == [] then [] else [pending[0]]
      ensures submitted == old(submitted) && nextId == old(nextId)
    {
      var req := dispatched[k];
      // EIO_Write
      calls := calls + [WriteCall(clientSocket, req)];
      var outcome := WriteOutcome(clientSocket, |req.data|, written);
      // EIO_AfterWrite: the callback, then the unlink of this node, which is the head
      c := Completion(req, outcome);
      fired := fired + [c];
      assert req == pending[0];
      pending := pending[1..];
      dispatched := dispatched[..k] + dispatched[k + 1..];
      if pending != [] {
        dispatched := dispatched + [pending[0]];
      }
    }
  }

  /** Two writes submitted back to back: the second is not dispatched until the first has
      completed, and the callbacks fire in submission order. */
  method TwoWritesInOrder(a: seq<byte>, b: seq<byte>, fd: int)
  {
    var q := new Queue();
    var ra := q.Write(a);
    var rb := q.Write(b);
    assert q.dispatched == [ra];
    var ca := q.Complete(0, fd, |a|);
    assert q.dispatched == [rb];
    var cb := q.Complete(0, fd, |b|);
    assert q.fired == [ca, cb] && ca.request == ra && cb.request == rb;
    assert q.pending == [] && q.dispatched == [];
  }
}

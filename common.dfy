/** Values shared by the UUID parser, the read and write paths and the server. */
module Common {

  /** One octet of a Node buffer or of a socket read. */
  newtype byte = x: int | 0 <= x < 256

  datatype Option<+T> = None | Some(value: T)

  datatype Result<+T, +E> = Success(value: T) | Failure(error: E)

  /** The kinds of error the addon reports, one per distinct message it builds.
      The errno values and message texts are not modelled. */
  datatype ServerError =
    | InvalidUuid          // str2uuid rejected the UUID string given to the constructor
    | PipeCreationFailed   // pipe(2) for the cancellation pipe failed
    | BindFailed           // bind(2) of the listening socket returned non-zero
    | ListenFailed         // listen(2) returned non-zero
    | SdpConnectFailed     // no session with the local SDP daemon
    | SdpRegisterFailed    // the service record could not be registered
    | AcceptFailed         // accept(2) returned -1
    | ConnectionClosed     // read or write on a connection that is not open
    | WriteIncomplete      // write(2) did not write the whole buffer
    | ReadFailed           // read(2) returned a negative count
    | PipeWriteFailed      // the close sentinel could not be written to the pipe

  /** A C cast to int32_t: two's-complement truncation to 32 bits. */
  function ToInt32(x: int): (r: int)
    ensures -0x8000_0000 <= r < 0x8000_0000
    ensures (x - r) % 0x1_0000_0000 == 0
    ensures -0x8000_0000 <= x < 0x8000_0000 ==> r == x
  {
    var m := x % 0x1_0000_0000;
    if m < 0x8000_0000 then m else m - 0x1_0000_0000
  }
}

/**
 * The client facade: it takes ownership of a transport and runs the
 * handshake before handing itself out. The transport is the in-memory
 * `PTPServer`.
 */
module Client {
  import opened Wire
  import opened Results
  import opened HandshakeFrame
  import opened TestServer

  /** The client's error kinds; the handshake never produces one. */
  datatype PTPResult = UnknownError

  /** The friendly name the client announces, "Rust PTP/IP", as its UTF-8 bytes. */
  const ClientName: seq<byte> := AsciiBytes("Rust PTP/IP")

  /** The size of the zeroed buffer the handshake reads the reply into. */
  const ResponseBufferSize: nat := 128

  class PTPClient {
    var transport: PTPServer

    constructor (transport: PTPServer)
      ensures this.transport == transport
    {
      this.transport := transport;
    }

    /** Wraps `transport` in a client and conducts the handshake; fails only if the handshake does. */
    static method New(transport: PTPServer) returns (r: Result<PTPClient, PTPResult>)
      ensures r.Ok? && r.value.transport == transport
    {
      var inner := new PTPClient(transport);
      var outcome;
      ghost var request, response;
      outcome, request, response := inner.Handshake();
      match outcome {
        case Ok(_) => r := Ok(inner);
        case Err(e) => r := Err(e);
      }
    }

    /**
     * Encodes the init command request for `ClientName`, writes and flushes
     * it, reads the reply into a zeroed 128-byte buffer and succeeds. The
     * request and the filled buffer are given back as ghost results.
     */
    method Handshake() returns (r: Result<(), PTPResult>, ghost request: seq<byte>, ghost response: seq<byte>)
      ensures r == Ok(())
      ensures request == Frame(ClientName) && |request| == FrameLength
      ensures response == CannedResponse + Zeros(ResponseBufferSize - |CannedResponse|)
    {
      var hs := PTPHandshake.New(ClientName);
      var req := hs.ToU8();
      request := req;

      // the results of the transport calls are discarded
      var written := transport.Write(req);
      var flushed := transport.Flush();
      var buffer := new byte[ResponseBufferSize](_ => 0);
      var read := transport.Read(buffer);
      response := buffer[..];
      r := Ok(());
    }
  }

  /** Constructs a client over a fresh in-memory server and reports whether that succeeded. */
  method TestHandshake() returns (isOk: bool)
    ensures isOk
  {
    var server := new PTPServer();
    var client := PTPClient.New(server);
    isOk := client.Ok?;
  }
}

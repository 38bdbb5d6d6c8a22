/**
 * The in-memory stand-in for a camera: a byte-stream transport that
 * accepts nothing it is sent and answers every read with the same
 * 12-byte reply.
 */
module TestServer {
  import opened Wire
  import opened Results

  /** The reply copied into the front of the caller's buffer on every read. */
  const CannedResponse: seq<byte> :=
    [0x00, 0x00, 0x00, 0x0c, 0x00, 0x00, 0x00, 0x05, 0x00, 0x00, 0x20, 0x1e]

  class PTPServer {

    /** A server with no state of its own. */
    constructor ()
    {
    }

    /** Takes none of the bytes offered and reports that zero were written. */
    method Write(buf: seq<byte>) returns (r: IoResult<nat>)
      ensures r == Ok(0)
    {
      r := Ok(0);
    }

    /** Nothing is buffered, so flushing always succeeds. */
    method Flush() returns (r: IoResult<()>)
      ensures r == Ok(())
    {
      r := Ok(());
    }

    /**
     * Copies the canned reply over the first 12 bytes of `buf`, leaves the
     * rest of `buf` as it was, and reports 12 bytes read. A buffer shorter
     * than the reply makes the slice copy panic, so callers must pass one
     * that is at least 12 bytes long.
     */
    method Read(buf: array<byte>) returns (r: IoResult<nat>)
      requires buf.Length >= |CannedResponse|
      modifies buf
      ensures r == Ok(|CannedResponse|)
      ensures buf[..] == CannedResponse + old(buf[|CannedResponse|..])
    {
      var response := CannedResponse;
      var len := |response|;
      forall i | 0 <= i < len {
        buf[i] := response[i];
      }
      assert buf[..] == buf[..len] + buf[len..];
      r := Ok(len);
    }
  }
}

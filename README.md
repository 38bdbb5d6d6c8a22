# rptpip: the PTP/IP init command request, its test transport and the client handshake

This project models the core of `rptpip`, a Rust client for PTP/IP (Picture
Transfer Protocol over IP). The core is one library file, `src/lib.rs`:

- `PTPHandshake` holds the client's friendly name. Its `to_u8` builds the
  init command request frame byte by byte: a little-endian length field
  `0x52`, a little-endian packet type tag `1`, a fixed 20-byte identity
  block, the name with a zero byte after every name byte, and zero padding
  up to a name field of 27 two-byte units. For a name of at most 27 bytes
  the frame is 82 bytes long.
- `PTPServer` is an in-memory transport used in place of a camera. `write`
  takes nothing and returns 0. `flush` succeeds. `read` copies a fixed
  12-byte reply into the front of the caller's buffer.
- `PTPClient::new` takes a transport and runs `handshake`. The handshake
  encodes the frame for the name "Rust PTP/IP", writes and flushes it, reads
  the reply into a zeroed 128-byte buffer and returns `Ok(())`. So
  construction always succeeds, as the library's one test asserts.

Files:

- `wire.dfy`: module `Wire` (the byte type, a 32-bit signed integer type,
  the little-endian reading of a 4-byte field, zero runs, ASCII text as
  UTF-8 bytes) and module `Results` (the `Result` type and the transport
  error).
- `handshake.dfy`: module `HandshakeFrame`. `PTPHandshake.ToU8` is an
  imperative method with the source's two loops. It is proved equal to the
  declarative `Frame`, and the lemmas state the frame's layout.
- `server.dfy`: module `TestServer`, the `PTPServer` class. `Read` updates
  the caller's array in place.
- `client.dfy`: module `Client`, the `PTPClient` class with `New` and
  `Handshake` over a `PTPServer`, and `TestHandshake`, the library's test
  (src/lib.rs:175-181), as a client of those contracts.

The name is modelled as the sequence of its UTF-8 bytes, since the encoder
pushes `as_bytes()`. The counter `namecap` is a Rust `i32`. It is modelled
with the 32-bit type `Wire.int32`.

The library's own text implies a fixed 82-byte frame. The vector is
allocated with capacity `0x52` (src/lib.rs:78), the length field is the
constant `0x52` (src/lib.rs:80-83), and the padding loop is meant to "fill
the remainder" of the name field (src/lib.rs:107-114). A name longer than
27 bytes breaks this. `namecap` goes negative, and the name is neither
truncated nor padded. The frame is then `28 + 2|name|` bytes, more than the
82 its length field declares. The model follows the code (`LongNameFrame`).

The canned reply of `PTPServer` reads `00 00 00 0c 00 00 00 05 00 00 20 1e`.
That is a length 12, type 5 and code 0x201e in big-endian order, while the
frames the client sends are little-endian. The client never decodes the
reply.

## Model

| member | source | states |
|---|---|---|
| `HandshakeFrame.PTPHandshake.New` | src/lib.rs:51-55 | the handshake carries exactly the name it was given |
| `HandshakeFrame.PTPHandshake.ToU8` | src/lib.rs:70-118 | the bytes pushed by the two loops equal the frame `Frame(name)`; the result is 82 bytes for a name of at most 27 bytes and `28 + 2|name|` bytes for a longer one; requires that the `i32` counter cannot overflow |
| `HandshakeFrame.Widen` | src/lib.rs:102-106 | writing each name byte followed by a zero byte produces twice as many bytes as the name has |
| `HandshakeFrame.WidenAt` | src/lib.rs:102-106 | in the widened name, position `2i` holds name byte `i` and position `2i+1` holds zero |
| `HandshakeFrame.FrameHeader` | src/lib.rs:78-96 | for every name the frame starts `52 00 00 00` (82 read little-endian), then `01 00 00 00` (type 1 read little-endian), then the 20-byte identity block |
| `HandshakeFrame.FrameNameByte` | src/lib.rs:100-106 | for every `i < |name|`, byte `28+2i` is `name[i]` and byte `29+2i` is zero, so no name byte is dropped |
| `HandshakeFrame.ShortNameFrame` | src/lib.rs:78-83 | for a name of at most 27 bytes the frame is exactly 82 bytes, agrees with its own length field, and every byte after the name is zero |
| `HandshakeFrame.LongNameFrame` | src/lib.rs:100-114 | for a name over 27 bytes nothing is padded or truncated: the frame is `28 + 2|name|` bytes, longer than the declared 82, and ends with the last name byte and its zero |
| `HandshakeFrame.FrameLaidOut` | src/lib.rs:70-118 | a byte sequence has the complete layout (length, header fields, identity, interleaved name, zero tail) if and only if it is the frame of that name |
| `TestServer.PTPServer.constructor` | src/lib.rs:12-14 | `PTPServer::new` builds a server with no state of its own |
| `TestServer.PTPServer.Write` | src/lib.rs:18-21 | for any buffer, the write reports success with 0 bytes written |
| `TestServer.PTPServer.Flush` | src/lib.rs:23-25 | flushing always succeeds |
| `TestServer.PTPServer.Read` | src/lib.rs:29-35 | needs a buffer of at least 12 bytes; afterwards its first 12 bytes are the canned reply, the rest of the buffer is unchanged, and the result is `Ok(12)` |
| `Client.PTPClient.constructor` | src/lib.rs:130-132 | the client owns exactly the transport it was given |
| `Client.PTPClient.New` | src/lib.rs:129-143 | construction over the in-memory server always returns `Ok`, holding that server |
| `Client.PTPClient.Handshake` | src/lib.rs:145-167 | the handshake always returns `Ok(())`; the request it sends is the 82-byte frame for "Rust PTP/IP"; the response buffer ends as the 12 canned bytes followed by 116 zeros |
| `Client.TestHandshake` | src/lib.rs:174-181 | constructing a client over a fresh in-memory server is `Ok`, as the library's test asserts |

## Left out

- `TestServer.PTPServer.Read`: a buffer shorter than 12 bytes is excluded by its precondition. There `clone_from_slice` panics (src/lib.rs:33). The one caller passes a 128-byte buffer (src/lib.rs:155).
- `PTPHandshake.ToU8`: names longer than 2^31 + 27 bytes are excluded by its precondition. There the `i32` counter would overflow, which panics in a debug build and wraps in a release build.
- The transport is the concrete `PTPServer`. The Rust client is generic over any `Read + Write` stream, such as the `TcpStream` of `src/main.rs`, and a real socket is outside the model. `src/main.rs` is not part of this model: it only opens a socket and hands it to the client.
- The `println!` calls in `handshake` (src/lib.rs:149, src/lib.rs:162-164) are console output and do not affect the result.
- `Handshake` discards the results of `write`, `flush` and `read`, as the source does. The bytes it writes and the buffer it reads into are exposed only as ghost results, because the source returns neither.
- Text is not encoded to UTF-8 in general. The client's one name, "Rust PTP/IP", is ASCII, so its UTF-8 bytes are its character codes (`Wire.AsciiBytes`).
- The crate imports (`nom`, `std::mem`) and `#[repr(packed)]` carry no behaviour.
- The client never decodes the reply it reads (src/lib.rs:158-166), so the model has no decoder either.

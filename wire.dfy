/** Bytes as they travel on the wire, and the integer widths the client uses. */
module Wire {

  /** One octet, as Rust's `u8`. */
  type byte = x: int | 0 <= x < 0x100

  /** A signed 32-bit integer, as Rust's default integer type `i32`. */
  newtype int32 = x: int | -0x8000_0000 <= x < 0x8000_0000

  /** The unsigned value of a 4-byte field read least significant byte first. */
  function LittleEndian32(b: seq<byte>): (v: nat)
    requires |b| == 4
    ensures v < 0x1_0000_0000
    ensures v % 0x100 == b[0]
  {
    b[0] as int + 0x100 * (b[1] as int) + 0x1_0000 * (b[2] as int) + 0x100_0000 * (b[3] as int)
  }

  /** A run of `n` zero bytes. */
  function Zeros(n: nat): (z: seq<byte>)
    ensures |z| == n
    ensures forall i :: 0 <= i < n ==> z[i] == 0
  {
    seq(n, _ => 0)
  }

  /** Text made of ASCII characters only, as its UTF-8 bytes (one byte per character). */
  function AsciiBytes(s: string): (r: seq<byte>)
    requires forall i :: 0 <= i < |s| ==> s[i] as int < 0x80
  {
    seq(|s|, i requires 0 <= i < |s| => s[i] as int)
  }
}

/** The success-or-error values that the client and its transport return. */
module Results {

  datatype Result<+T, +E> = Ok(value: T) | Err(error: E)

  /** A transport failure, as Rust's `io::Error`; only its kind code is kept. */
  datatype IoError = IoError(kind: nat)

  type IoResult<+T> = Result<T, IoError>
}

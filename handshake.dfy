/**
 * The PTP/IP init command request that opens a session: a length field, a
 * packet type tag, a fixed identity block and the client's friendly name,
 * each name byte followed by a zero byte and the field zero-padded to 27
 * two-byte units.
 */
module HandshakeFrame {
  import opened Wire

  /** The total frame length the request declares, header included (0x52 = 82). */
  const FrameLength: nat := 0x52
  /** The packet type tag of an init command request. */
  const InitCommandRequest: nat := 1
  /** The width of the name field, in two-byte units. */
  const NameCap: nat := 27
  /** Where the name field starts: two 4-byte header fields and the 20-byte identity block. */
  const NameOffset: nat := 28

  /** The length field as sent: 0x52 in little-endian order. */
  const LengthField: seq<byte> := [0x52, 0x00, 0x00, 0x00]
  /** The packet type field as sent: 1 in little-endian order. */
  const TypeField: seq<byte> := [0x01, 0x00, 0x00, 0x00]
  /** The fixed 20-byte identity block the client sends whatever its name. */
  const Identity: seq<byte> :=
    [ 0xf2, 0xe4, 0x53, 0x8f,
      0xad, 0xa5, 0x48, 0x5d,
      0x87, 0xb2, 0x7f, 0x0b,
      0xd3, 0xd5, 0xde, 0xd0,
      0x03, 0x5f, 0xa8, 0xc0 ]

  /**
   * The longest name whose bytes the `i32` counter of the name field can
   * count down from 27 without overflowing.
   */
  const MaxNameBytes: nat := NameCap + 0x8000_0000

  /** The name bytes, each followed by a zero byte, in order. */
  function Widen(s: seq<byte>): (r: seq<byte>)
    ensures |r| == 2 * |s|
  {
    if s == [] then [] else Widen(s[..|s| - 1]) + [s[|s| - 1], 0]
  }

  /** How many zero units pad a name of `n` bytes; none once the name fills the field. */
  function PadUnits(n: nat): (p: nat)
    ensures n <= NameCap ==> n + p == NameCap
    ensures NameCap <= n ==> p == 0
  {
    if n < NameCap then NameCap - n else 0
  }

  /** The 28 bytes in front of the name: length field, type field and identity block. */
  function Prefix(): (p: seq<byte>)
    ensures |p| == NameOffset
  {
    LengthField + TypeField + Identity
  }

  /** The bytes of the init command request for `name`, as the encoder lays them out. */
  function Frame(name: seq<byte>): (f: seq<byte>)
    ensures |f| == NameOffset + 2 * |name| + 2 * PadUnits(|name|)
  {
    Prefix() + Widen(name) + Zeros(2 * PadUnits(|name|))
  }

  /**
   * `out` is laid out as the init command request for `name`: its length,
   * the two header fields, the identity block, every name byte at its even
   * position with a zero after it, and nothing but zeros after the name.
   */
  ghost predicate LaidOut(name: seq<byte>, out: seq<byte>)
  {
    && |out| == NameOffset + 2 * |name| + 2 * PadUnits(|name|)
    && out[..4] == LengthField
    && out[4..8] == TypeField
    && out[8..NameOffset] == Identity
    && (forall i :: 0 <= i < |name| ==> out[NameOffset + 2 * i] == name[i] && out[NameOffset + 2 * i + 1] == 0)
    && (forall j :: NameOffset + 2 * |name| <= j < |out| ==> out[j] == 0)
  }

  datatype PTPHandshake = PTPHandshake(name: seq<byte>)
  {
    /** A handshake that announces `name` (the UTF-8 bytes of the given text). */
    static function New(name: seq<byte>): (h: PTPHandshake)
      ensures h.name == name
    {
      PTPHandshake(name)
    }

    /** Builds the init command request byte by byte. */
    method ToU8() returns (result: seq<byte>)
      requires |name| <= MaxNameBytes
      ensures result == Frame(name)
      ensures |name| <= NameCap ==> |result| == FrameLength
      ensures NameCap < |name| ==> |result| == NameOffset + 2 * |name|
    {
      result := [];
      // the message length
      result := result + [0x52];
      result := result + [0x00];
      result := result + [0x00];
      result := result + [0x00];
      // the command type
      result := result + [0x01];
      result := result + [0x00];
      result := result + [0x00];
      result := result + [0x00];
      // the identity block
      result := result + Identity;
      assert result == Prefix();
      // each name byte followed by a zero byte
      var namecap: int32 := 27;
      var nameBytes := name;
      for i := 0 to |nameBytes|
        invariant result == Prefix() + Widen(nameBytes[..i])
        invariant namecap as int == NameCap - i
      {
        assert nameBytes[..i + 1][..i] == nameBytes[..i];
        result := result + [nameBytes[i]];
        result := result + [0];
        namecap := namecap - 1;
      }
      assert nameBytes[..|nameBytes|] == name;
      // zero units for the rest of the field
      ghost var filled: nat := 0;
      while namecap > 0
        invariant result == Prefix() + Widen(name) + Zeros(2 * filled)
        invariant namecap as int == NameCap - |name| - filled
        invariant filled <= PadUnits(|name|)
      {
        result := result + [0];
        result := result + [0];
        namecap := namecap - 1;
        filled := filled + 1;
      }
    }
  }

  /** The byte at position `2i` of the widened name is name byte `i`, and a zero byte follows it. */
  lemma {:induction false} WidenAt(s: seq<byte>, i: nat)
    requires i < |s|
    ensures Widen(s)[2 * i] == s[i] && Widen(s)[2 * i + 1] == 0
  {
    if i < |s| - 1 {
      WidenAt(s[..|s| - 1], i);
    }
  }

  /**
   * The frame opens with the length field 52 00 00 00 (82, little-endian),
   * then the type tag 01 00 00 00 (1, little-endian), then the identity
   * block, whatever the name.
   */
  lemma FrameHeader(name: seq<byte>)
    ensures |Frame(name)| >= NameOffset
    ensures Frame(name)[..4] == [0x52, 0x00, 0x00, 0x00]
    ensures LittleEndian32(Frame(name)[..4]) == FrameLength
    ensures Frame(name)[4..8] == [0x01, 0x00, 0x00, 0x00]
    ensures LittleEndian32(Frame(name)[4..8]) == InitCommandRequest
    ensures Frame(name)[8..NameOffset] == Identity
  {
  }

  /** Name byte `i` sits at offset `28 + 2i` and is followed by a zero byte; the name is never cut. */
  lemma FrameNameByte(name: seq<byte>, i: nat)
    requires i < |name|
    ensures NameOffset + 2 * i + 1 < |Frame(name)|
    ensures Frame(name)[NameOffset + 2 * i] == name[i]
    ensures Frame(name)[NameOffset + 2 * i + 1] == 0
  {
    WidenAt(name, i);
  }

  /**
   * A name of at most 27 bytes gives a frame of exactly 82 bytes, the length
   * its length field declares, and every byte after the name is zero.
   */
  lemma ShortNameFrame(name: seq<byte>)
    requires |name| <= NameCap
    ensures |Frame(name)| == FrameLength
    ensures |Frame(name)| == LittleEndian32(Frame(name)[..4])
    ensures forall j :: NameOffset + 2 * |name| <= j < FrameLength ==> Frame(name)[j] == 0
  {
  }

  /**
   * A name longer than 27 bytes is neither truncated nor padded: the frame is
   * `28 + 2|name|` bytes, longer than the 82 its length field declares, and
   * ends with the last name byte and its zero.
   */
  lemma LongNameFrame(name: seq<byte>)
    requires NameCap < |name|
    ensures |Frame(name)| == NameOffset + 2 * |name|
    ensures LittleEndian32(Frame(name)[..4]) == FrameLength < |Frame(name)|
    ensures Frame(name) == Prefix() + Widen(name)
    ensures Frame(name)[|Frame(name)| - 2] == name[|name| - 1]
    ensures Frame(name)[|Frame(name)| - 1] == 0
  {
    WidenAt(name, |name| - 1);
  }

  /** The frame of `name` is laid out as described by `LaidOut`, and it is the only such sequence. */
  lemma FrameLaidOut(name: seq<byte>, out: seq<byte>)
    ensures LaidOut(name, out) <==> out == Frame(name)
  {
    var f := Frame(name);
    FrameHeader(name);
    forall i | 0 <= i < |name|
      ensures f[NameOffset + 2 * i] == name[i] && f[NameOffset + 2 * i + 1] == 0
    {
      FrameNameByte(name, i);
    }
    assert LaidOut(name, f);
    if LaidOut(name, out) {
      forall k | 0 <= k < |out|
        ensures out[k] == f[k]
      {
        if k < 4 {
          assert out[k] == out[..4][k];
          assert f[k] == f[..4][k];
        } else if k < 8 {
          assert out[k] == out[4..8][k - 4];
          assert f[k] == f[4..8][k - 4];
        } else if k < NameOffset {
          assert out[k] == out[8..NameOffset][k - 8];
          assert f[k] == f[8..NameOffset][k - 8];
        } else if k < NameOffset + 2 * |name| {
          var i := (k - NameOffset) / 2;
          assert k == NameOffset + 2 * i || k == NameOffset + 2 * i + 1;
        }
      }
    }
  }
}

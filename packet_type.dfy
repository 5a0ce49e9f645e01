/**
 * The packet types and the media header shared by the TV station and the
 * receiver (lab5/src/PacketType.h). The header is copied into a packet as
 * raw memory, so its bytes are those of the C++ struct on a little-endian
 * LP64 machine: the type byte, 7 bytes of padding, the 64-bit timestamp,
 * the 32-bit sequence number and 4 more bytes of padding, 24 in all.
 */
module PacketTypes {
  type byte = x: int | 0 <= x < 0x100
  type int16 = x: int | -0x8000 <= x < 0x8000

  const AUDIO_PACKET: byte := 0x01
  const VIDEO_PACKET: byte := 0x02

  const UINT32_MODULUS: int := 0x1_0000_0000
  const UINT64_MODULUS: int := 0x1_0000_0000_0000_0000

  /** `sizeof(MediaHeader)`. */
  const HEADER_SIZE: nat := 24

  datatype MediaHeader = MediaHeader(packetType: byte, timestamp: nat, sequence: nat)

  predicate ValidHeader(h: MediaHeader) {
    h.timestamp < UINT64_MODULUS && h.sequence < UINT32_MODULUS
  }

  /** The low `n` bytes of `x`, least significant first. */
  function LittleEndian(x: nat, n: nat): (r: seq<byte>)
    ensures |r| == n
  {
    if n == 0 then [] else [x % 0x100] + LittleEndian(x / 0x100, n - 1)
  }

  /** `n` bytes read least significant first. */
  function FromLittleEndian(bytes: seq<byte>): nat {
    if bytes == [] then 0 else bytes[0] + 0x100 * FromLittleEndian(bytes[1..])
  }

  function Pow256(n: nat): (p: nat)
    ensures p >= 1
  {
    if n == 0 then 1 else 0x100 * Pow256(n - 1)
  }

  /** A number that fits in `n` bytes is read back from its `n` bytes. */
  lemma {:induction false} LittleEndianRoundTrip(x: nat, n: nat)
    requires x < Pow256(n)
    ensures FromLittleEndian(LittleEndian(x, n)) == x
    decreases n
  {
    if n > 0 {
      var q := x / 0x100;
      assert x == x % 0x100 + 0x100 * q;
      assert q < Pow256(n - 1);
      LittleEndianRoundTrip(q, n - 1);
      assert LittleEndian(x, n)[1..] == LittleEndian(q, n - 1);
    }
  }

  /**
   * The header's bytes in memory. Padding bytes hold whatever the stack held;
   * they are modelled as zero.
   */
  function HeaderBytes(h: MediaHeader): (r: seq<byte>)
    ensures |r| == HEADER_SIZE && r[0] == h.packetType
  {
    [h.packetType] + [0, 0, 0, 0, 0, 0, 0] + LittleEndian(h.timestamp, 8) + LittleEndian(h.sequence, 4) + [0, 0, 0, 0]
  }

  /** The timestamp and the sequence number are read back from their places in the header. */
  lemma HeaderFields(h: MediaHeader)
    requires ValidHeader(h)
    ensures FromLittleEndian(HeaderBytes(h)[8..16]) == h.timestamp
    ensures FromLittleEndian(HeaderBytes(h)[16..20]) == h.sequence
  {
    var r := HeaderBytes(h);
    assert r[8..16] == LittleEndian(h.timestamp, 8);
    assert r[16..20] == LittleEndian(h.sequence, 4);
    assert Pow256(4) == UINT32_MODULUS;
    assert Pow256(8) == UINT64_MODULUS;
    LittleEndianRoundTrip(h.timestamp, 8);
    LittleEndianRoundTrip(h.sequence, 4);
  }
}

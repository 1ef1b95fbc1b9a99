/**
 Bytes on the wire and the 4-byte big-endian unsigned integer that
 prefixes every frame (a quint32 written most significant byte first).
 */
module Bytes {

  /** One octet, as `unsigned char` sees it. */
  type Byte = b: int | 0 <= b < 256

  /** 2^32: the modulus of quint32 arithmetic. */
  const Two32: int := 0x1_0000_0000

  /** Writes `n` as four bytes, most significant first. */
  function Be32(n: nat): (h: seq<Byte>)
    requires n < Two32
    ensures |h| == 4
  {
    [n / 0x100_0000, (n / 0x1_0000) % 0x100, (n / 0x100) % 0x100, n % 0x100]
  }

  /** Reads the first four bytes of `h` as a big-endian unsigned integer. */
  function ReadBe32(h: seq<Byte>): (n: nat)
    requires |h| >= 4
    ensures n < Two32
  {
    (h[0] as int) * 0x100_0000 + (h[1] as int) * 0x1_0000 + (h[2] as int) * 0x100 + h[3] as int
  }

  /** Reading back a written header gives the number that was written. */
  lemma Be32RoundTrip(n: nat)
    requires n < Two32
    ensures ReadBe32(Be32(n)) == n
  {
    var h := Be32(n);
    var q1 := n / 0x100;
    var q2 := q1 / 0x100;
    assert n == q1 * 0x100 + h[3];
    assert q1 == q2 * 0x100 + h[2];
    assert q2 == (h[0] as int) * 0x100 + h[1] as int;
  }

  /** Every 4-byte header is the encoding of the number it reads as, so
      two headers that read the same are the same bytes. */
  lemma ReadBe32Inverse(h: seq<Byte>)
    requires |h| >= 4
    ensures Be32(ReadBe32(h)) == h[..4]
  {
    var n := ReadBe32(h);
    var b0, b1, b2, b3 := h[0] as int, h[1] as int, h[2] as int, h[3] as int;
    var lo16 := b2 * 0x100 + b3;
    var hi16 := b0 * 0x100 + b1;
    assert 0 <= lo16 < 0x1_0000;
    assert n == hi16 * 0x1_0000 + lo16;
    assert n / 0x1_0000 == hi16;
    assert n % 0x100 == b3;
    assert n / 0x100 == hi16 * 0x100 + b2;
    assert n / 0x100_0000 == b0;
    assert hi16 % 0x100 == b1;
    assert (hi16 * 0x100 + b2) % 0x100 == b2;
  }
}

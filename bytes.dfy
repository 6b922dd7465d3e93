/** Octets, clamping and the little-endian integer fields that the robot's
    wire format uses (DataView.setUint16/setUint32 with littleEndian = true). */
module Bytes {

  type byte = x: int | 0 <= x < 256

  /** Four opaque octets: the IEEE-754 single-precision image of a value. */
  type Quad = s: seq<byte> | |s| == 4 witness [0, 0, 0, 0]

  const TWO16: int := 0x1_0000
  const TWO32: int := 0x1_0000_0000

  /** clamp(v, lo, hi) as min/max. */
  function Clamp(v: int, lo: int, hi: int): (r: int)
    requires lo <= hi
    ensures lo <= r <= hi
    ensures lo <= v <= hi ==> r == v
    ensures v < lo ==> r == lo
    ensures hi < v ==> r == hi
  {
    if v < lo then lo else if hi < v then hi else v
  }

  function ClampReal(v: real, lo: real, hi: real): (r: real)
    requires lo <= hi
    ensures lo <= r <= hi
    ensures lo <= v <= hi ==> r == v
    ensures v < lo ==> r == lo
    ensures hi < v ==> r == hi
  {
    if v < lo then lo else if hi < v then hi else v
  }

  /** ToUint16 / ToUint32 of an integer: wrap-around modulo 2^16 / 2^32. */
  function U16(x: int): (r: int)
    ensures 0 <= r < TWO16
    ensures 0 <= x < TWO16 ==> r == x
  {
    x % TWO16
  }

  function U32(x: int): (r: int)
    ensures 0 <= r < TWO32
    ensures 0 <= x < TWO32 ==> r == x
  {
    x % TWO32
  }

  /** setUint16(off, x, true): the low octet first. */
  function LE16(x: int): seq<byte>
  {
    var u := U16(x);
    [u % 256, u / 256]
  }

  /** setUint32(off, x, true): the low octet first. */
  function LE32(x: int): seq<byte>
  {
    var u := U32(x);
    [u % 256, (u / 256) % 256, (u / 256 / 256) % 256, u / 256 / 256 / 256]
  }

  /** getUint16(off, true). */
  function DecodeLE16(s: seq<byte>): (r: int)
    requires |s| == 2
    ensures 0 <= r < TWO16
  {
    s[0] as int + 256 * (s[1] as int)
  }

  /** getUint32(off, true). */
  function DecodeLE32(s: seq<byte>): (r: int)
    requires |s| == 4
    ensures 0 <= r < TWO32
  {
    s[0] as int + 256 * (s[1] as int + 256 * (s[2] as int + 256 * (s[3] as int)))
  }

  /** Writing a 16-bit field and reading it back yields the wrapped value. */
  lemma LE16RoundTrip(x: int)
    ensures |LE16(x)| == 2
    ensures DecodeLE16(LE16(x)) == U16(x)
  {
    var u := U16(x);
    assert u == (u / 256) * 256 + u % 256;
  }

  /** Writing a 32-bit field and reading it back yields the wrapped value. */
  lemma LE32RoundTrip(x: int)
    ensures |LE32(x)| == 4
    ensures DecodeLE32(LE32(x)) == U32(x)
  {
    var u := U32(x);
    var q1 := u / 256;
    var q2 := q1 / 256;
    var q3 := q2 / 256;
    assert u == q1 * 256 + u % 256;
    assert q1 == q2 * 256 + q1 % 256;
    assert q2 == q3 * 256 + q2 % 256;
    assert q3 < 256;
  }
}

/** The robot's wire format: the 24-octet shot record (`packBall`,
    js/bluetooth.js) and the framed multi-shot command (`buildPacket`,
    js/runner.js), plus the fixed command packets. */
module Codec {
  import opened Bytes

  // ---------------------------------------------------------------------
  // Fixed command packets

  /** Sent by connectDevice once the write characteristic is bound. */
  const HANDSHAKE_START: seq<byte> := [0x07, 0, 0, 0]
  const AUTH_1_ACK: seq<byte> := [1, 0, 0]
  const AUTH_2_ACK: seq<byte> := [2, 0, 0]
  /** Last handshake step; differs from STOP only in its last octet. */
  const READY_ANNOUNCE: seq<byte> := [0x80, 1, 0, 0]
  /** Halts the motors (pause and stop). */
  const STOP: seq<byte> := [0x80, 1, 0, 1]

  // ---------------------------------------------------------------------
  // Motor speeds and the three affine remaps of packBall

  const RPM_MIN: int := 400
  const RPM_MAX: int := 7500

  /** Launch height: user range [-50, 100] onto the device's [-20, 30]. */
  function HeightToDevice(h: real): (r: real)
    ensures -20.0 <= r <= 30.0
    ensures h <= -50.0 ==> r == -20.0
    ensures h >= 100.0 ==> r == 30.0
    ensures -50.0 <= h <= 100.0 ==> r == -20.0 + (h + 50.0) / 3.0
  {
    (ClampReal(h, -50.0, 100.0) + 50.0) / 150.0 * 50.0 - 20.0
  }

  /** Drop: user range [-10, 10] onto the device's [-22, 22], 0 staying 0. */
  function DropToDevice(d: real): (r: real)
    ensures -22.0 <= r <= 22.0
    ensures d <= -10.0 ==> r == -22.0
    ensures d >= 10.0 ==> r == 22.0
    ensures -10.0 <= d <= 10.0 ==> r == 2.2 * d
  {
    (ClampReal(d, -10.0, 10.0) + 10.0) / 20.0 * 44.0 - 22.0
  }

  /** Oscillation frequency: percent [0, 100] onto the device's [0.5, 1.5]. */
  function FreqToDevice(f: real): (r: real)
    ensures 0.5 <= r <= 1.5
    ensures f <= 0.0 ==> r == 0.5
    ensures f >= 100.0 ==> r == 1.5
    ensures 0.0 <= f <= 100.0 ==> r == 0.5 + f / 100.0
  {
    ClampReal(f, 0.0, 100.0) / 100.0 + 0.5
  }

  /** The remaps are order-preserving: a larger user value never gives a
      smaller device value. */
  lemma RemapsMonotone(a: real, b: real)
    requires a <= b
    ensures HeightToDevice(a) <= HeightToDevice(b)
    ensures DropToDevice(a) <= DropToDevice(b)
    ensures FreqToDevice(a) <= FreqToDevice(b)
  {
  }

  // ---------------------------------------------------------------------
  // The 24-octet shot record

  /** packBall(us, ls, bh, dp, freq, reps): top and bottom RPM clamped to
      [400, 7500] as little-endian u32, the three remapped values as
      little-endian float32 (`f32` renders a value as its four octets), and
      the repeat count as little-endian u32 without clamping (ToUint32
      wrap-around). */
  function PackBall(us: int, ls: int, bh: real, dp: real, freq: real, reps: int,
                    f32: real -> Quad): (r: seq<byte>)
    ensures |r| == 24
    ensures DecodeLE32(r[0..4]) == Clamp(us, RPM_MIN, RPM_MAX)
    ensures DecodeLE32(r[4..8]) == Clamp(ls, RPM_MIN, RPM_MAX)
    ensures RPM_MIN <= DecodeLE32(r[0..4]) <= RPM_MAX && RPM_MIN <= DecodeLE32(r[4..8]) <= RPM_MAX
    ensures r[8..12] == f32(HeightToDevice(bh))
    ensures r[12..16] == f32(DropToDevice(dp))
    ensures r[16..20] == f32(FreqToDevice(freq))
    ensures DecodeLE32(r[20..24]) == U32(reps)
    ensures 0 <= reps < TWO32 ==> DecodeLE32(r[20..24]) == reps
  {
    var top := Clamp(us, RPM_MIN, RPM_MAX);
    var bottom := Clamp(ls, RPM_MIN, RPM_MAX);
    LE32RoundTrip(top);
    LE32RoundTrip(bottom);
    LE32RoundTrip(reps);
    var r := LE32(top) + LE32(bottom) + f32(HeightToDevice(bh)) + f32(DropToDevice(dp))
             + f32(FreqToDevice(freq)) + LE32(reps);
    assert r[0..4] == LE32(top) && r[4..8] == LE32(bottom) && r[20..24] == LE32(reps);
    r
  }

  // ---------------------------------------------------------------------
  // The framed multi-shot packet

  predicate AllRecords(balls: seq<seq<byte>>)
  {
    forall i :: 0 <= i < |balls| ==> |balls[i]| == 24
  }

  /** The 7-octet header: command 0x81, u16 payload length 4 + 24N,
      sub-type 1, u16 sequence id 1, a reserved zero. */
  function Header(n: nat): seq<byte>
  {
    [0x81] + LE16(4 + 24 * n) + [1] + LE16(1) + [0]
  }

  /** The records laid end to end. */
  function Flatten(balls: seq<seq<byte>>): seq<byte>
  {
    if balls == [] then [] else Flatten(balls[..|balls| - 1]) + balls[|balls| - 1]
  }

  function Frame(balls: seq<seq<byte>>): seq<byte>
  {
    Header(|balls|) + Flatten(balls)
  }

  lemma {:induction false} FlattenAt(balls: seq<seq<byte>>, i: nat)
    requires AllRecords(balls) && i < |balls|
    ensures |Flatten(balls)| == 24 * |balls|
    ensures Flatten(balls)[24 * i..24 * i + 24] == balls[i]
  {
    var n := |balls|;
    var init := balls[..n - 1];
    if i < n - 1 {
      FlattenAt(init, i);
      assert Flatten(balls) == Flatten(init) + balls[n - 1];
    } else {
      if n > 1 {
        FlattenAt(init, 0);
      }
      assert |Flatten(init)| == 24 * (n - 1);
    }
  }

  /** Layout of a framed packet of N records: total length 7 + 24N, the
      header fields, and record i at offsets 7 + 24i .. 7 + 24i + 23. */
  lemma FrameLayout(balls: seq<seq<byte>>)
    requires AllRecords(balls)
    ensures |Frame(balls)| == 7 + 24 * |balls|
    ensures Frame(balls)[0] == 0x81
    ensures DecodeLE16(Frame(balls)[1..3]) == U16(4 + 24 * |balls|)
    ensures 4 + 24 * |balls| < TWO16 ==> DecodeLE16(Frame(balls)[1..3]) == 4 + 24 * |balls|
    ensures Frame(balls)[3] == 1
    ensures DecodeLE16(Frame(balls)[4..6]) == 1
    ensures Frame(balls)[6] == 0
    ensures forall i :: 0 <= i < |balls| ==> Frame(balls)[7 + 24 * i..7 + 24 * i + 24] == balls[i]
  {
    var n := |balls|;
    var f := Frame(balls);
    LE16RoundTrip(4 + 24 * n);
    LE16RoundTrip(1);
    if n == 0 {
      assert |Flatten(balls)| == 0;
    } else {
      FlattenAt(balls, 0);
    }
    assert f[1..3] == LE16(4 + 24 * n);
    assert f[4..6] == LE16(1);
    forall i | 0 <= i < n ensures f[7 + 24 * i..7 + 24 * i + 24] == balls[i] {
      FlattenAt(balls, i);
      assert f[7..] == Flatten(balls);
    }
  }

  /** Writes one 24-byte ball record at `off`, leaving the bytes before it alone. */
  method CopyRecord(u: array<byte>, off: nat, ba: seq<byte>)
    requires |ba| == 24 && off + 24 <= u.Length
    modifies u
    ensures u[..off + 24] == old(u[..off]) + ba
  {
    forall j | 0 <= j < 24 {
      u[off + j] := ba[j];
    }
    assert u[..off + 24] == u[..off] + u[off..off + 24];
  }

  /** Writes the header for `n` records into the first seven octets. */
  method WriteHeader(u: array<byte>, n: nat)
    requires 7 <= u.Length
    modifies u
    ensures u[..7] == Header(n)
  {
    var len := LE16(4 + n * 24);
    var id := LE16(1);
    u[0] := 0x81;
    u[1], u[2] := len[0], len[1];
    u[3] := 1;
    u[4], u[5] := id[0], id[1];
    u[6] := 0;
  }

  /** buildPacket(balls): the header written field by field into a fresh
      buffer, then each record copied in at an advancing offset. */
  method BuildPacket(balls: seq<seq<byte>>) returns (packet: seq<byte>)
    requires AllRecords(balls)
    ensures packet == Frame(balls)
  {
    var n := |balls|;
    var u := new byte[7 + n * 24];
    WriteHeader(u, n);
    var off := 7;
    var k := 0;
    assert balls[..0] == [];
    while k < n
      invariant 0 <= k <= n && off == 7 + 24 * k
      invariant u[..off] == Header(n) + Flatten(balls[..k])
    {
      CopyRecord(u, off, balls[k]);
      assert balls[..k + 1][..k] == balls[..k];
      assert Flatten(balls[..k + 1]) == Flatten(balls[..k]) + balls[k];
      off := off + 24;
      k := k + 1;
    }
    assert balls[..n] == balls;
    assert u[..] == u[..off];
    packet := u[..];
  }
}

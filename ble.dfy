/** The connection manager and handshake of js/bluetooth.js: the module-level
    `bleState` record, the guarded write path, the post-discovery step of
    `connectDevice`, `onDisconnect`, and `onNotify` (the four-step
    authentication chain and the completion-marker search). */
module Ble {
  import opened Bytes
  import opened Optional
  import opened Text
  import opened Codec

  /** Salt table of the challenge response (36 characters). */
  const SALT: string := "Mjgx1jAwXDBaMFcxCz3JBgNVBAYT4kJF7Rkw"

  /** Hex rendering of the device's "batch finished" notification. */
  const MSG_DONE: string := "00020300050100"

  datatype HandshakeState = Disconnected | Handshake | Auth1 | Auth2 | Auth3 | Ready

  /** An MD5 digest as the helper returns it: 32 lower-case hex digits. */
  type Digest = s: string | |s| == 32 && forall i :: 0 <= i < |s| ==> s[i] in HEX_DIGITS
    witness "00000000000000000000000000000000"

  /** TextDecoder on the notification, read one character per octet. */
  function DecodeText(buf: seq<byte>): (s: string)
    ensures |s| == |buf|
    ensures forall i :: 0 <= i < |buf| ==> s[i] as int == buf[i]
  {
    seq(|buf|, i requires 0 <= i < |buf| => buf[i] as char)
  }

  /** TextEncoder on a digest: one octet per (ASCII) character. */
  function EncodeDigest(d: Digest): (b: seq<byte>)
    ensures |b| == |d|
    ensures forall i :: 0 <= i < |d| ==> b[i] == d[i] as int
  {
    seq(|d|, i requires 0 <= i < |d| =>
      assert d[i] in HEX_DIGITS && d[i] as int <= 'f' as int; d[i] as int)
  }

  // ---------------------------------------------------------------------
  // The challenge

  /** The salt character paired with a serial character. */
  function SaltFor(c: char): (s: char)
    ensures s in SALT
  {
    SALT[(c as int) % 0x24]
  }

  /** The string handed to MD5 for a challenge text longer than 18
      characters: the 12-character serial at offset 6, one salt character
      per serial character, then the code from offset 18 on. */
  function HashInput(text: string): (h: string)
    requires |text| > 18
    ensures |h| == 24 + (|text| - 18)
    ensures h[..12] == text[6..18]
    ensures forall i :: 12 <= i < 24 ==> h[i] == SaltFor(text[i - 6])
    ensures h[24..] == text[18..]
  {
    var serial := text[6..18];
    serial + seq(12, i requires 0 <= i < 12 => SaltFor(serial[i])) + text[18..]
  }

  /** The loop of onNotify that builds the hashed string one character at
      a time. */
  method BuildHashInput(text: string) returns (hashme: string)
    requires |text| > 18
    ensures hashme == HashInput(text)
  {
    var serial := text[6..18];
    hashme := serial;
    var i := 0;
    while i < |serial|
      invariant 0 <= i <= |serial|
      invariant hashme == serial + seq(i, k requires 0 <= k < i => SaltFor(serial[k]))
    {
      hashme := hashme + [SALT[(serial[i] as int) % 0x24]];
      i := i + 1;
    }
    hashme := hashme + text[18..];
  }

  /** The response buffer: four header octets written, then the digest's
      ASCII octets written from offset 3, overwriting the fourth. */
  method HandshakeResponse(digest: Digest) returns (resp: seq<byte>)
    ensures |resp| == 3 + |digest|
    ensures resp[..3] == [0x08, 0x20, 0x00]
    ensures resp[3..] == EncodeDigest(digest)
  {
    var enc := EncodeDigest(digest);
    var u := new byte[3 + |enc|];
    u[0], u[1], u[2], u[3] := 0x08, 0x20, 0, 0;
    forall j | 0 <= j < |enc| {
      u[3 + j] := enc[j];
    }
    resp := u[..];
    assert resp[3..] == enc;
  }

  /** The response as a value, for the transition function below. */
  function Response(digest: Digest): seq<byte>
  {
    [0x08, 0x20, 0x00] + EncodeDigest(digest)
  }

  // ---------------------------------------------------------------------
  // The handshake chain as a transition function

  /** What onNotify does to the handshake: the next state, the packet it
      sends (if any) and whether the link becomes ready. */
  datatype Reaction = Reaction(next: HandshakeState, packet: Option<seq<byte>>, ready: bool)

  function HandshakeStep(st: HandshakeState, text: string, md5: string -> Digest): (r: Reaction)
    // one step forward exactly when a packet goes out, otherwise no change
    ensures (r.next == st && r.packet == None) ||
            (st != Disconnected && Progress(r.next) == Progress(st) + 1 && r.packet.Some?)
    ensures r.ready <==> st == Auth3
  {
    match st
    case Handshake =>
      if |text| > 18 then Reaction(Auth1, Some(Response(md5(HashInput(text)))), false)
      else Reaction(Handshake, None, false)
    case Auth1 => Reaction(Auth2, Some(AUTH_1_ACK), false)
    case Auth2 => Reaction(Auth3, Some(AUTH_2_ACK), false)
    case Auth3 => Reaction(Ready, Some(READY_ANNOUNCE), true)
    case _ => Reaction(st, None, false)
  }

  /** Position along the chain handshake, auth_1, auth_2, auth_3, ready. */
  function Progress(st: HandshakeState): nat
  {
    match st
    case Disconnected => 0
    case Handshake => 0
    case Auth1 => 1
    case Auth2 => 2
    case Auth3 => 3
    case Ready => 4
  }

  /** The chain only moves forward, one step at a time, and it moves exactly
      when a packet is sent; `disconnected` and `ready` are left alone. */
  lemma HandshakeForwardOnly(st: HandshakeState, text: string, md5: string -> Digest)
    ensures var r := HandshakeStep(st, text, md5);
            (r.next == st && r.packet == None) ||
            (st != Disconnected && Progress(r.next) == Progress(st) + 1 && r.packet.Some?)
    ensures var r := HandshakeStep(st, text, md5);
            r.ready <==> (st == Auth3)
    ensures st == Ready ==> HandshakeStep(st, text, md5) == Reaction(Ready, None, false)
    ensures st == Disconnected ==> HandshakeStep(st, text, md5) == Reaction(Disconnected, None, false)
  {
  }

  /** In `handshake`, a notification of at most 18 characters is ignored; a
      longer one is answered with [0x08, 0x20, 0x00] followed by the ASCII
      digest of the salted challenge, and moves on to `auth_1`. */
  lemma ChallengeAnswer(text: string, md5: string -> Digest)
    ensures |text| <= 18 ==> HandshakeStep(Handshake, text, md5) == Reaction(Handshake, None, false)
    ensures |text| > 18 ==>
      var r := HandshakeStep(Handshake, text, md5);
      && r.next == Auth1 && r.packet.Some?
      && |r.packet.value| == 3 + 32
      && r.packet.value[..3] == [0x08, 0x20, 0x00]
      && r.packet.value[3..] == EncodeDigest(md5(HashInput(text)))
  {
    if |text| > 18 {
      var p := Response(md5(HashInput(text)));
      assert p[3..] == EncodeDigest(md5(HashInput(text)));
    }
  }

  /** Runs the chain over a series of notifications, collecting what it sends. */
  function RunChain(st: HandshakeState, texts: seq<string>, md5: string -> Digest): (HandshakeState, seq<seq<byte>>)
    decreases |texts|
  {
    if texts == [] then (st, [])
    else
      var r := HandshakeStep(st, texts[0], md5);
      var rest := RunChain(r.next, texts[1..], md5);
      (rest.0, (if r.packet.Some? then [r.packet.value] else []) + rest.1)
  }

  /** A long challenge followed by three notifications of any content brings
      the link from `handshake` to `ready`, sending exactly the response and
      the three acknowledgements, in that order. */
  lemma {:induction false} FourNotificationsToReady(texts: seq<string>, md5: string -> Digest)
    requires |texts| == 4 && |texts[0]| > 18
    ensures RunChain(Handshake, texts, md5) ==
      (Ready, [Response(md5(HashInput(texts[0]))), AUTH_1_ACK, AUTH_2_ACK, READY_ANNOUNCE])
  {
    var t1 := texts[1..];
    var t2 := t1[1..];
    var t3 := t2[1..];
    assert t3[1..] == [];
    var e := RunChain(Ready, t3[1..], md5);
    assert e == (Ready, []);
    var r3 := HandshakeStep(Auth3, t3[0], md5);
    assert r3 == Reaction(Ready, Some(READY_ANNOUNCE), true);
    var c3 := RunChain(Auth3, t3, md5);
    assert c3 == (e.0, [READY_ANNOUNCE] + e.1);
    var c2 := RunChain(Auth2, t2, md5);
    assert c2 == (c3.0, [AUTH_2_ACK] + c3.1);
    var c1 := RunChain(Auth1, t1, md5);
    assert c1 == (c2.0, [AUTH_1_ACK] + c2.1);
    var r0 := HandshakeStep(Handshake, texts[0], md5);
    assert r0.packet == Some(Response(md5(HashInput(texts[0]))));
    assert c3.1 == [READY_ANNOUNCE];
    assert c2.1 == [AUTH_2_ACK, READY_ANNOUNCE];
    assert c1.1 == [AUTH_1_ACK, AUTH_2_ACK, READY_ANNOUNCE];
    assert RunChain(Handshake, texts, md5) == (c1.0, [r0.packet.value] + c1.1);
    assert c1.0 == Ready;
    assert [r0.packet.value] + c1.1 == [Response(md5(HashInput(texts[0]))), AUTH_1_ACK, AUTH_2_ACK, READY_ANNOUNCE];
  }

  // ---------------------------------------------------------------------
  // The completion marker

  /** Whether onNotify hands the notification to the runner's handleDone. */
  predicate IsDone(buf: seq<byte>): (b: bool)
    ensures b <==> exists i :: OccursAt(HexOf(buf), MSG_DONE, i)
  {
    var found := Includes(HexOf(buf), MSG_DONE);
    assert found ==> exists i :: OccursAt(HexOf(buf), MSG_DONE, i);
    found
  }

  /** The marker's seven octets. */
  const DONE_BYTES: seq<byte> := [0x00, 0x02, 0x03, 0x00, 0x05, 0x01, 0x00]

  lemma DoneBytesHex()
    ensures HexOf(DONE_BYTES) == MSG_DONE
  {
  }

  /** A notification carrying the marker's seven octets anywhere is
      recognised as a finished batch. */
  lemma {:induction false} DoneBytesDetected(buf: seq<byte>, p: nat)
    requires p + 7 <= |buf| && buf[p..p + 7] == DONE_BYTES
    ensures IsDone(buf)
  {
    var x := buf[..p];
    var y := buf[p + 7..];
    assert buf == x + DONE_BYTES + y;
    HexOfAppend(x + DONE_BYTES, y);
    HexOfAppend(x, DONE_BYTES);
    DoneBytesHex();
    var h := HexOf(buf);
    assert h == HexOf(x) + MSG_DONE + HexOf(y);
    assert h[2 * p..2 * p + 14] == MSG_DONE;
    assert OccursAt(h, MSG_DONE, 2 * p);
  }

  /** The rendering of a concatenation is the concatenation of the
      renderings. */
  lemma {:induction false} HexOfAppend(x: seq<byte>, y: seq<byte>)
    ensures HexOf(x + y) == HexOf(x) + HexOf(y)
  {
    if x == [] {
      assert x + y == y;
    } else {
      assert (x + y)[1..] == x[1..] + y;
      HexOfAppend(x[1..], y);
    }
  }

  /** The search runs over hex characters, not octets, so a match may start
      in the middle of an octet: this notification has no marker octets yet
      is taken as a finished batch. */
  lemma MisalignedMarkerAccepted(buf: seq<byte>)
    requires |buf| == 8 && buf[0] == 0xa0 && buf[1] == 0x00 && buf[2] == 0x20 && buf[3] == 0x30
    requires buf[4] == 0x00 && buf[5] == 0x50 && buf[6] == 0x10 && buf[7] == 0x0b
    ensures IsDone(buf)
    ensures buf[0..7] != DONE_BYTES && buf[1..8] != DONE_BYTES
  {
    var h := HexOf(buf);
    assert HexDigit(0) == '0' && HexDigit(2) == '2' && HexDigit(3) == '3';
    assert HexDigit(5) == '5' && HexDigit(1) == '1';
    assert h[1] == HexDigit(buf[0] % 16);
    assert h[2] == HexDigit(buf[1] / 16) && h[3] == HexDigit(buf[1] % 16);
    assert h[4] == HexDigit(buf[2] / 16) && h[5] == HexDigit(buf[2] % 16);
    assert h[6] == HexDigit(buf[3] / 16) && h[7] == HexDigit(buf[3] % 16);
    assert h[8] == HexDigit(buf[4] / 16) && h[9] == HexDigit(buf[4] % 16);
    assert h[10] == HexDigit(buf[5] / 16) && h[11] == HexDigit(buf[5] % 16);
    assert h[12] == HexDigit(buf[6] / 16) && h[13] == HexDigit(buf[6] % 16);
    assert h[14] == HexDigit(buf[7] / 16);
    assert h[1..15] == MSG_DONE;
    assert OccursAt(h, MSG_DONE, 1);
    assert buf[0..7][0] != 0 && buf[1..8][1] != 2;
  }

  // ---------------------------------------------------------------------
  // The connection state

  /** bleState together with the ordered log of octets handed to the write
      characteristic (the serialised write queue). */
  class Link {
    var isConnected: bool
    /** A device handle is held. */
    var device: bool
    /** The write characteristic is bound. */
    var writeChar: bool
    var handshakeState: HandshakeState
    /** Every packet accepted by sendPacket, in call order. */
    var outbox: seq<seq<byte>>

    constructor ()
      ensures !isConnected && !device && !writeChar
      ensures handshakeState == Disconnected && outbox == []
    {
      isConnected, device, writeChar := false, false, false;
      handshakeState := Disconnected;
      outbox := [];
    }

    /** sendPacket: rejected without a write characteristic; otherwise
        queued behind every earlier write. */
    method SendPacket(data: seq<byte>) returns (accepted: bool)
      modifies `outbox
      ensures accepted == writeChar
      ensures outbox == old(outbox) + (if accepted then [data] else [])
    {
      accepted := writeChar;
      if accepted {
        outbox := outbox + [data];
      }
    }

    /** The end of connectDevice once discovery succeeded: the device is
        held, the write characteristic bound if one was found, and only when
        one is bound does the handshake start. */
    method ConnectDevice(foundWrite: bool)
      modifies this
      ensures device && writeChar == (old(writeChar) || foundWrite)
      ensures isConnected == old(isConnected)
      ensures writeChar ==> handshakeState == Handshake && outbox == old(outbox) + [HANDSHAKE_START]
      ensures !writeChar ==> handshakeState == old(handshakeState) && outbox == old(outbox)
    {
      device := true;
      if foundWrite {
        writeChar := true;
      }
      if writeChar {
        handshakeState := Handshake;
        var _ := SendPacket(HANDSHAKE_START);
      }
    }

    /** onDisconnect: everything back to the disconnected state. */
    method OnDisconnect()
      modifies this
      ensures !isConnected && !device && !writeChar && handshakeState == Disconnected
      ensures outbox == old(outbox)
    {
      isConnected := false;
      device := false;
      writeChar := false;
      handshakeState := Disconnected;
    }

    /** onNotify: one step of the handshake chain, then the marker search
        that decides whether the runner's handleDone is called. */
    method OnNotify(buf: seq<byte>, md5: string -> Digest) returns (done: bool)
      modifies this
      ensures var r := HandshakeStep(old(handshakeState), DecodeText(buf), md5);
              && handshakeState == r.next
              && isConnected == (old(isConnected) || r.ready)
              && outbox == old(outbox) + (if r.packet.Some? && writeChar then [r.packet.value] else [])
      ensures device == old(device) && writeChar == old(writeChar)
      ensures done == IsDone(buf)
    {
      var hex := HexOf(buf);
      if handshakeState == Handshake {
        var str := DecodeText(buf);
        if |str| > 18 {
          var hashme := BuildHashInput(str);
          var hash := md5(hashme);
          var resp := HandshakeResponse(hash);
          assert resp == Response(hash);
          var _ := SendPacket(resp);
          handshakeState := Auth1;
        }
      } else if handshakeState == Auth1 {
        var _ := SendPacket(AUTH_1_ACK);
        handshakeState := Auth2;
      } else if handshakeState == Auth2 {
        var _ := SendPacket(AUTH_2_ACK);
        handshakeState := Auth3;
      } else if handshakeState == Auth3 {
        var _ := SendPacket(READY_ANNOUNCE);
        handshakeState := Ready;
        isConnected := true;
      }
      done := Includes(hex, MSG_DONE);
    }
  }

  /** After a disconnect, nothing more reaches the device until a new
      connection binds a write characteristic. */
  method DisconnectThenSend(link: Link, data: seq<byte>) returns (accepted: bool)
    modifies link
    ensures !accepted && link.outbox == old(link.outbox)
    ensures link.handshakeState == Disconnected && !link.isConnected
  {
    link.OnDisconnect();
    accepted := link.SendPacket(data);
  }
}

/** What the checksum is for (crates/protocol/src/mcu.rs:117-188). A frame hit by a single wrong
    byte is refused, unless the byte is its length: then what follows can pass for another frame,
    and exactly when it does is stated here. */
module Corruption {
  import opened Base
  import opened Mcu
  import opened Decoding

  lemma XorHalves(a: nat, c: nat)
    ensures XorBits(a, c) % 2 == (a % 2 + c % 2) % 2 && XorBits(a, c) / 2 == XorBits(a / 2, c / 2)
  {}

  lemma {:induction false} XorCommutes(a: nat, c: nat)
    ensures XorBits(a, c) == XorBits(c, a)
    decreases a + c
  {
    if a > 0 || c > 0 {
      XorCommutes(a / 2, c / 2);
    }
  }

  lemma {:induction false} XorCancels(a: nat, b: nat, c: nat)
    requires a != b
    ensures XorBits(a, c) != XorBits(b, c) && XorBits(c, a) != XorBits(c, b)
    decreases a + b
  {
    XorHalves(a, c);
    XorHalves(b, c);
    XorCommutes(a, c);
    XorCommutes(b, c);
    hide XorBits;
    if a % 2 == b % 2 {
      XorCancels(a / 2, b / 2, c / 2);
    }
  }

  /** Changing one byte always changes the checksum. */
  lemma {:induction false} ChecksumSeesChange(b: seq<Byte>, i: nat, x: Byte)
    requires i < |b| && x != b[i]
    ensures Checksum(b[i := x]) != Checksum(b)
    decreases |b|
  {
    var n, c := |b| - 1, b[i := x];
    if i == n {
      assert c[..n] == b[..n];
      XorCancels(x, b[n], Checksum(b[..n]));
    } else {
      assert c[..n] == b[..n][i := x];
      ChecksumSeesChange(b[..n], i, x);
      XorCancels(Checksum(c[..n]), Checksum(b[..n]), b[n]);
    }
  }

  /** What the decoder makes of a frame of `f`'s type whose length byte reads `x`: the `x` bytes
      after it, taken from the payload, the checksum and whatever follows, are delivered as the
      payload if and only if the next byte happens to be their checksum. */
  function Relengthened(f: Frame, x: Byte, more: seq<Byte>): Move {
    var tail := f.payload + [Checksum(Body(f))] + more;
    if |tail| <= x as int then Halt
    else if tail[x] == Checksum([f.msg.ToU8(), x] + tail[..x]) then Emit(Frame(f.msg, tail[..x]))
    else Reject
  }

  lemma LengthHit(f: Frame, x: Byte, more: seq<Byte>)
    ensures Head(Encode(f)[3 := x] + more) == Relengthened(f, x, more)
  {
    hide Checksum, FromU8, MsgType.ToU8;
    var tail := f.payload + [Checksum(Body(f))] + more;
    var head: seq<Byte> := [MAGIC0, MAGIC1, f.msg.ToU8(), x];
    assert Encode(f)[3 := x] + more == head + tail;
    if |tail| > x as int {
      assert (head + tail)[2..4 + x] == [f.msg.ToU8(), x] + tail[..x];
      assert (head + tail)[4..4 + x] == tail[..x];
    }
    KnownType(f.msg.ToU8(), f.msg);
  }

  /** A frame with any one byte wrong is never delivered as sent, whatever follows on the line: it
      is skipped if the magic was hit and rejected otherwise; only if its length was hit can it
      pass for a different frame. */
  lemma CorruptFrameRefused(f: Frame, i: nat, x: Byte, more: seq<Byte>)
    requires i < |Encode(f)| && x != Encode(f)[i]
    ensures Head(Encode(f)[i := x] + more) ==
            if i < 2 then Skip else if i == 3 then Relengthened(f, x, more) else Reject
    ensures Head(Encode(f)[i := x] + more) != Emit(f)
  {
    var e, n := Encode(f), 4 + |f.payload|;
    var b := e[i := x] + more;
    if i == 3 {
      LengthHit(f, x, more);
    } else if i >= 2 {
      assert b[3] == |f.payload| && b[n] == e[i := x][n];
      assert e[2..n] == Body(f);
      if i < n {
        assert b[2..n] == Body(f)[i - 2 := x];
        ChecksumSeesChange(Body(f), i - 2, x);
      } else {
        assert b[2..n] == Body(f);
      }
    }
    hide Checksum;
  }

  /** A length that reads shorter delivers a wrong frame if and only if the payload byte it cuts at
      is the checksum of what comes before, whatever follows the frame. */
  lemma ShortenedFrameEmittedIff(f: Frame, x: Byte, more: seq<Byte>)
    requires x < |f.payload|
    ensures var m := Head(Encode(f)[3 := x] + more);
            && (m.Emit? <==> f.payload[x] == Checksum([f.msg.ToU8(), x] + f.payload[..x]))
            && (m.Emit? ==> m.frame == Frame(f.msg, f.payload[..x]))
            && (!m.Emit? ==> m == Reject)
  {
    LengthHit(f, x, more);
    var tail := f.payload + [Checksum(Body(f))] + more;
    assert tail[x] == f.payload[x] && tail[..x] == f.payload[..x];
    hide Checksum;
  }

  /** It does happen: a ping carrying 00 7F whose length is hit to read 1 is delivered as a ping
      carrying 00. */
  lemma ShortenedPing()
    ensures Head(Encode(Frame(Ping, [0, 0x7F]))[3 := 1]) == Emit(Frame(Ping, [0]))
  {
    var f, b: seq<Byte> := Frame(Ping, [0, 0x7F]), [0x7E, 1, 0];
    EvenSum(0x7E);
    assert Encode(f)[3 := 1] + [] == Encode(f)[3 := 1];
    assert [f.msg.ToU8(), 1] + f.payload[..1] == b;
    ShortenedFrameEmittedIff(f, 1, []);
    hide *;
  }

  lemma ChecksumMore(b: seq<Byte>, x: Byte)
    ensures Checksum(b + [x]) == XorBits(Checksum(b), x)
  {
    assert (b + [x])[..|b|] == b;
  }

  lemma EvenSum(t: Byte)
    requires t % 2 == 0
    ensures Checksum([t, 1, 0]) == t + 1
  {
    ChecksumMore([], t);
    ChecksumMore([t], 1);
    ChecksumMore([t, 1], 0);
    assert Checksum([]) == 0;
    assert [] + [t] == [t] && [t] + [1] == [t, 1] && [t, 1] + [0] == [t, 1, 0];
    XorCommutes(0, t);
    XorZero(t);
    XorZero(t / 2);
    assert XorBits(t, 1) == t + 1;
    XorZero(t + 1);
    hide *;
  }

  lemma {:induction false} XorZero(a: nat)
    ensures XorBits(a, 0) == a
  {
    if a > 0 {
      XorZero(a / 2);
    }
  }
}

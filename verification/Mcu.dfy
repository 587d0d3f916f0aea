/** The UART frame protocol between the sensor MCU and the edge computer
    (crates/protocol/src/mcu.rs): payload codecs, frame encoding and the streaming
    decoder, which resynchronises on the two magic bytes. */
module Mcu {
  import opened Base

  const MAGIC0: Byte := 0xCA
  const MAGIC1: Byte := 0x15

  datatype MsgType = Sense | Button | Led | Ping | Pong {
    function ToU8(): Byte {
      match this
      case Sense => 0x01
      case Button => 0x02
      case Led => 0x10
      case Ping => 0x7E
      case Pong => 0x7F
    }
  }

  function FromU8(v: Byte): Option<MsgType> {
    match v
    case 0x01 => Some(Sense)
    case 0x02 => Some(Button)
    case 0x10 => Some(Led)
    case 0x7E => Some(Ping)
    case 0x7F => Some(Pong)
    case _ => None
  }

  function LowByte(n: U16): Byte { n % 0x100 }

  function HighByte(n: U16): Byte { n / 0x100 }

  function FromLeBytes(low: Byte, high: Byte): U16 { high * 0x100 + low }

  /** Eight-byte sensor sample. A time-of-flight distance of 0 means "no reading". */
  datatype SensePayload = SensePayload(forceDeciN: U16, tofMm: U16, flags: Byte, pad: (Byte, Byte, Byte)) {
    function ForceN(): real { forceDeciN as real / 10.0 }

    predicate Motion() { flags % 2 == 1 }

    function ToBytes(): seq<Byte> {
      [LowByte(forceDeciN), HighByte(forceDeciN), LowByte(tofMm), HighByte(tofMm),
       flags, pad.0, pad.1, pad.2]
    }
  }

  function SenseFromBytes(b: seq<Byte>): Option<SensePayload> {
    if |b| < 8 then None
    else Some(SensePayload(FromLeBytes(b[0], b[1]), FromLeBytes(b[2], b[3]), b[4], (b[5], b[6], b[7])))
  }

  datatype ButtonPayload = ButtonPayload(pad: Byte, event: Byte, holdMs: U16) {
    function ToBytes(): seq<Byte> { [pad, event, LowByte(holdMs), HighByte(holdMs)] }
  }

  function ButtonFromBytes(b: seq<Byte>): Option<ButtonPayload> {
    if |b| < 4 then None
    else Some(ButtonPayload(b[0], b[1], FromLeBytes(b[2], b[3])))
  }

  lemma LeRoundTrip(n: U16, low: Byte, high: Byte)
    ensures FromLeBytes(low, high) == n <==> low == LowByte(n) && high == HighByte(n)
  {}

  /** The sense codec is an exact inverse on the eight bytes it reads. */
  lemma SenseRoundTrip(p: SensePayload, b: seq<Byte>)
    ensures SenseFromBytes(b) == Some(p) <==> p.ToBytes() <= b
  {
    hide LowByte, HighByte, FromLeBytes;
    if |b| >= 8 {
      LeRoundTrip(p.forceDeciN, b[0], b[1]);
      LeRoundTrip(p.tofMm, b[2], b[3]);
      assert p.ToBytes() <= b <==> forall i :: 0 <= i < 8 ==> p.ToBytes()[i] == b[i];
    }
  }

  /** The button codec is an exact inverse on the four bytes it reads. */
  lemma ButtonRoundTrip(p: ButtonPayload, b: seq<Byte>)
    ensures ButtonFromBytes(b) == Some(p) <==> p.ToBytes() <= b
  {
    hide LowByte, HighByte, FromLeBytes;
    if |b| >= 4 {
      LeRoundTrip(p.holdMs, b[2], b[3]);
      assert p.ToBytes() <= b <==> forall i :: 0 <= i < 4 ==> p.ToBytes()[i] == b[i];
    }
  }

  /** Exclusive or, bit by bit from the lowest. */
  function XorBits(a: nat, b: nat): nat
    decreases a + b
  {
    if a == 0 && b == 0 then 0 else (a % 2 + b % 2) % 2 + 2 * XorBits(a / 2, b / 2)
  }

  function Pow2(n: nat): nat { if n == 0 then 1 else 2 * Pow2(n - 1) }

  lemma {:induction false} XorBound(a: nat, b: nat, n: nat)
    requires a < Pow2(n) && b < Pow2(n)
    ensures XorBits(a, b) < Pow2(n)
    decreases n
  {
    if n > 0 {
      XorBound(a / 2, b / 2, n - 1);
    }
  }

  lemma Pow2Of8()
    ensures Pow2(8) == 0x100
  {
    assert Pow2(4) == 16;
    assert Pow2(6) == 64;
  }

  function Xor(a: Byte, b: Byte): Byte {
    Pow2Of8();
    XorBound(a, b, 8);
    XorBits(a, b)
  }

  function Checksum(bytes: seq<Byte>): Byte {
    if bytes == [] then 0 else Xor(Checksum(bytes[..|bytes| - 1]), bytes[|bytes| - 1])
  }

  datatype FrameData = Frame(msg: MsgType, payload: seq<Byte>)

  /** A frame that fits the one-byte length field, as `encode` asserts of its argument. */
  type Frame = f: FrameData | |f.payload| <= 255 witness Frame(Ping, [])

  /** The bytes covered by the checksum: type, length, payload. */
  function Body(f: Frame): seq<Byte> {
    [f.msg.ToU8(), |f.payload|] + f.payload
  }

  function Encode(f: Frame): seq<Byte> {
    [MAGIC0, MAGIC1] + Body(f) + [Checksum(Body(f))]
  }

  /// What the head of the buffer forces the decoder to do next.
  ///
  /// `Halt`    wait for more bytes, or sit on a frame of unknown type;
  /// `Skip`    drop one byte while looking for the magic pair;
  /// `Reject`  drop one byte because the checksum is wrong, and end the call;
  /// `Emit`    consume a whole frame.
  datatype Move = Halt | Skip | Reject | Emit(frame: Frame)

  predicate AtMagic(b: seq<Byte>) { |b| >= 2 && b[0] == MAGIC0 && b[1] == MAGIC1 }

  function Head(b: seq<Byte>): (m: Move)
    ensures m.Emit? ==> 5 + |m.frame.payload| <= |b|
    ensures m.Skip? || m.Reject? ==> |b| > 0
  {
    if |b| < 2 then Halt
    else if !AtMagic(b) then Skip
    else if |b| < 5 then Halt
    else if |b| < 5 + b[3] as int then Halt
    else if b[4 + b[3]] != Checksum(b[2..4 + b[3]]) then Reject
    else
      match FromU8(b[2])
      case None => Halt
      case Some(msg) => Emit(Frame(msg, b[4..4 + b[3]]))
  }

  /** How many bytes a move takes off the buffer. */
  function Width(m: Move): nat {
    match m
    case Halt => 0
    case Skip => 1
    case Reject => 1
    case Emit(f) => 5 + |f.payload|
  }

  /** Frames handed out by a call, and the buffer it leaves. */
  datatype Output = Output(frames: seq<Frame>, rest: seq<Byte>)

  /** One `try_pop`: at most one frame. */
  function Popped(b: seq<Byte>): (o: Output)
    ensures |o.rest| <= |b|
    ensures o.frames == [] || (|o.frames| == 1 && |o.rest| < |b|)
  {
    var m := Head(b);
    match m
    case Halt => Output([], b)
    case Skip => Popped(b[1..])
    case Reject => Output([], b[1..])
    case Emit(f) => Output([f], b[Width(m)..])
  }

  /** One `push`, on the buffer with the new bytes appended: pop until a pop yields nothing. */
  function Pushed(b: seq<Byte>): Output
    decreases |b|
  {
    var p := Popped(b);
    if p.frames == [] then p
    else
      var q := Pushed(p.rest);
      Output(p.frames + q.frames, q.rest)
  }

  /** The decoder as it stands in the source: a byte buffer edited in place. */
  class FrameDecoder {
    var buf: seq<Byte>

    constructor ()
      ensures buf == []
    {
      buf := [];
    }

    method Push(data: seq<Byte>) returns (frames: seq<Frame>)
      modifies this
      ensures Output(frames, buf) == Pushed(old(buf) + data)
    {
      buf := buf + data;
      frames := [];
      ghost var b := buf;
      var f := TryPop();
      while f.Some?
        invariant |buf| <= |b|
        invariant f.Some? ==> Pushed(b) == Output(frames + [f.value] + Pushed(buf).frames, Pushed(buf).rest)
        invariant f.None? ==> Pushed(b) == Output(frames, buf)
        decreases |buf|, f.Some?
      {
        ghost var before := buf;
        frames := frames + [f.value];
        f := TryPop();
        assert f.Some? ==> Pushed(before).frames == [f.value] + Pushed(buf).frames;
      }
    }

    method TryPop() returns (f: Option<Frame>)
      modifies this
      ensures Popped(old(buf)) == Output(if f.Some? then [f.value] else [], buf)
      ensures f.Some? ==> |buf| < |old(buf)|
    {
      while |buf| >= 2
        invariant |buf| <= |old(buf)|
        invariant Popped(buf) == Popped(old(buf))
      {
        if buf[0] == MAGIC0 && buf[1] == MAGIC1 {
          break;
        }
        buf := buf[1..];
      }
      if |buf| < 5 {
        return None;
      }
      var plen := buf[3] as int;
      var total := 5 + plen;
      if |buf| < total {
        return None;
      }
      var csum := buf[4 + plen];
      var wanted := Checksum(buf[2..4 + plen]);
      if csum != wanted {
        buf := buf[1..];
        return None;
      }
      var msg := FromU8(buf[2]);
      if msg.None? {
        return None;
      }
      f := Some(Frame(msg.value, buf[4..4 + plen]));
      buf := buf[total..];
    }
  }
}

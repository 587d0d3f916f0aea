/** The sensing pipeline (edge/canis-sense/src/lib.rs): a frame decoder feeding the presence
    filter, next to the entry point that takes samples directly. */
module Sense {
  import opened Base
  import opened Protocol
  import opened Mcu
  import opened Presence

  datatype Snapshot = Snapshot(present: bool, confidence: real, forceN: real, forceBand: ForceBand,
                               tofMm: Option<U16>, flipped: bool)

  datatype Pipe = Pipe(buf: seq<Byte>, filter: Filter, tMs: nat)

  datatype PipeOutput = PipeOutput(pipe: Pipe, snaps: seq<Snapshot>)

  const EMPTY_PIPE := Pipe([], INITIAL, 0)

  function SnapshotOf(f: Filter, flipped: bool): Snapshot {
    Snapshot(f.present, f.confidence, f.lastForceN, BandOf(f.lastForceN), f.lastTof, flipped)
  }

  /** One sample through the filter. */
  function Absorbed(p: Pipe, s: Sample): PipeOutput {
    var f := Updated(DEFAULT_CONFIG, p.filter, s);
    PipeOutput(p.(filter := f), [SnapshotOf(f, f.present != p.filter.present)])
  }

  function SampleOf(payload: SensePayload, tMs: nat): Sample {
    Sample(payload.ForceN(), if payload.tofMm == 0 then None else Some(payload.tofMm), payload.Motion(), tMs)
  }

  /** The sample a frame carries, if it is a sense frame long enough to read. */
  function SampleIn(fr: Frame, tMs: nat): Option<Sample> {
    if fr.msg != MsgType.Sense then None
    else
      match SenseFromBytes(fr.payload)
      case None => None
      case Some(p) => Some(SampleOf(p, tMs))
  }

  function AbsorbedFrames(p: Pipe, frames: seq<Frame>): PipeOutput
    decreases |frames|
  {
    if frames == [] then PipeOutput(p, [])
    else
      match SampleIn(frames[0], p.tMs)
      case None => AbsorbedFrames(p, frames[1..])
      case Some(s) =>
        var o := Absorbed(p, s);
        var more := AbsorbedFrames(o.pipe, frames[1..]);
        PipeOutput(more.pipe, o.snaps + more.snaps)
  }

  function SamplePushed(p: Pipe, forceN: real, tofMm: Option<U16>, motion: bool, dtMs: nat): PipeOutput {
    var t := SaturatingAdd(p.tMs, dtMs);
    Absorbed(p.(tMs := t), Sample(forceN, tofMm, motion, t))
  }

  function BytesPushed(p: Pipe, data: seq<Byte>, dtMs: nat): PipeOutput {
    var o := Pushed(p.buf + data);
    AbsorbedFrames(p.(tMs := SaturatingAdd(p.tMs, dtMs), buf := o.rest), o.frames)
  }

  class SensePipeline {
    const decoder: FrameDecoder
    const filter: PresenceFilter
    var tMs: nat

    ghost predicate Valid()
      reads this, filter
    {
      filter.cfg == DEFAULT_CONFIG
    }

    ghost function View(): Pipe
      reads this, decoder, filter
    {
      Pipe(decoder.buf, filter.View(), tMs)
    }

    constructor ()
      ensures Valid() && View() == EMPTY_PIPE && fresh(decoder) && fresh(filter)
    {
      decoder := new FrameDecoder();
      filter := new PresenceFilter(DEFAULT_CONFIG);
      tMs := 0;
    }

    method PushSample(forceN: real, tofMm: Option<U16>, motion: bool, dtMs: nat) returns (snap: Snapshot)
      requires Valid()
      modifies this, filter
      ensures Valid() && PipeOutput(View(), [snap]) == SamplePushed(old(View()), forceN, tofMm, motion, dtMs)
    {
      tMs := SaturatingAdd(tMs, dtMs);
      var flipped := filter.Update(Sample(forceN, tofMm, motion, tMs));
      snap := TakeSnapshot(flipped);
    }

    method PushBytes(data: seq<Byte>, dtMs: nat) returns (out: seq<Snapshot>)
      requires Valid()
      modifies this, decoder, filter
      ensures Valid() && PipeOutput(View(), out) == BytesPushed(old(View()), data, dtMs)
    {
      hide Pushed, Updated, SenseFromBytes, BandOf, SensePayload.ForceN, SensePayload.Motion;
      tMs := SaturatingAdd(tMs, dtMs);
      var frames := decoder.Push(data);
      ghost var start := View();
      out := [];
      for i := 0 to |frames|
        invariant Valid()
        invariant AbsorbedFrames(start, frames)
                  == PipeOutput(AbsorbedFrames(View(), frames[i..]).pipe,
                                out + AbsorbedFrames(View(), frames[i..]).snaps)
        invariant View().buf == start.buf && tMs == start.tMs
      {
        var fr := frames[i];
        assert frames[i..][1..] == frames[i + 1..];
        if fr.msg != MsgType.Sense {
          continue;
        }
        var p := SenseFromBytes(fr.payload);
        if p.None? {
          continue;
        }
        var tof := if p.value.tofMm == 0 then None else Some(p.value.tofMm);
        var flipped := filter.Update(Sample(p.value.ForceN(), tof, p.value.Motion(), tMs));
        var snap := TakeSnapshot(flipped);
        out := out + [snap];
      }
    }

    method TakeSnapshot(flipped: bool) returns (snap: Snapshot)
      ensures snap == SnapshotOf(filter.View(), flipped)
    {
      snap := Snapshot(filter.present, filter.confidence, filter.lastForceN, BandOf(filter.lastForceN),
                       filter.lastTof, flipped);
    }
  }
}

/** The MCU emulator (firmware/mcu-emu/src/lib.rs) and the proof that the UART path computes
    what the direct path computes. */
module McuEmu {
  import opened Base
  import opened Protocol
  import opened Mcu
  import opened Presence
  import opened Sense
  import opened Decoding

  datatype World = World(forceN: real, tofMm: Option<U16>, motion: bool)

  /** Newtons to tenths of a newton: clamped to sixteen bits, then truncated. */
  function ForceDeciN(forceN: real): U16 {
    var scaled := forceN * 10.0;
    if scaled < 0.0 then 0 else if scaled > 65535.0 then 65535 else scaled.Floor
  }

  function SensePayloadOf(w: World): SensePayload {
    SensePayload(ForceDeciN(w.forceN), if w.tofMm.Some? then w.tofMm.value else 0,
                 if w.motion then 1 else 0, (0, 0, 0))
  }

  function SenseFrame(w: World): Frame { Frame(MsgType.Sense, SensePayloadOf(w).ToBytes()) }

  function ButtonFrame(b: ButtonPayload): Frame { Frame(MsgType.Button, b.ToBytes()) }

  function ButtonItems(buttons: seq<ButtonPayload>): seq<Item> {
    seq(|buttons|, i requires 0 <= i < |buttons| => Item([], ButtonFrame(buttons[i])))
  }

  function TickItems(w: World, buttons: seq<ButtonPayload>): seq<Item> {
    [Item([], SenseFrame(w))] + ButtonItems(buttons)
  }

  /** The bytes of one tick: a sense frame, then the pending buttons in order. */
  function TickBytes(w: World, buttons: seq<ButtonPayload>): seq<Byte> {
    Line(TickItems(w, buttons), [])
  }

  class Emulator {
    var world: World
    var pendingButtons: seq<ButtonPayload>
    var tick: nat

    constructor ()
      ensures world == World(0.0, Some(2000), false) && pendingButtons == [] && tick == 0
    {
      world, pendingButtons, tick := World(0.0, Some(2000), false), [], 0;
    }

    method SetWorld(w: World)
      modifies this
      ensures world == w && pendingButtons == old(pendingButtons) && tick == old(tick)
    {
      world := w;
    }

    method PressPad(pad: Byte)
      modifies this
      ensures pendingButtons == old(pendingButtons) + [ButtonPayload(pad, 1, 0)]
      ensures world == old(world) && tick == old(tick)
    {
      pendingButtons := pendingButtons + [ButtonPayload(pad, 1, 0)];
    }

    method Tick50ms() returns (out: seq<Byte>)
      modifies this
      ensures out == TickBytes(world, old(pendingButtons)) && pendingButtons == []
      ensures world == old(world) && tick == old(tick) + 1
    {
      tick := tick + 1;
      var deci := ForceDeciN(world.forceN);
      var tof := if world.tofMm.Some? then world.tofMm.value else 0;
      var flags := if world.motion then 1 else 0;
      var sense := SensePayload(deci, tof, flags, (0, 0, 0));
      out := Encode(Frame(MsgType.Sense, sense.ToBytes()));
      assert out == Encode(SenseFrame(world));
      hide Encode, ButtonBytes, TickBytes, SenseFrame;
      ghost var first := out;
      while pendingButtons != []
        invariant out + ButtonBytes(pendingButtons) == first + ButtonBytes(old(pendingButtons))
        invariant world == old(world) && tick == old(tick) + 1
        decreases |pendingButtons|
      {
        var b := pendingButtons[0];
        ButtonBytesStep(pendingButtons);
        out := out + Encode(ButtonFrame(b));
        pendingButtons := pendingButtons[1..];
      }
      ButtonBytesStep([]);
      TickBytesSplit(world, old(pendingButtons));
    }
  }

  function ButtonBytes(buttons: seq<ButtonPayload>): seq<Byte> {
    if buttons == [] then [] else Encode(ButtonFrame(buttons[0])) + ButtonBytes(buttons[1..])
  }

  lemma ButtonBytesStep(buttons: seq<ButtonPayload>)
    ensures ButtonBytes([]) == []
    ensures buttons != [] ==> ButtonBytes(buttons) == Encode(ButtonFrame(buttons[0])) + ButtonBytes(buttons[1..])
  {
    hide Encode;
  }

  lemma {:induction false} ButtonLine(buttons: seq<ButtonPayload>)
    ensures Line(ButtonItems(buttons), []) == ButtonBytes(buttons)
    decreases |buttons|
  {
    hide Encode;
    if buttons != [] {
      assert ButtonItems(buttons)[1..] == ButtonItems(buttons[1..]);
      ButtonLine(buttons[1..]);
    }
  }

  lemma TickBytesSplit(w: World, buttons: seq<ButtonPayload>)
    ensures TickBytes(w, buttons) == Encode(SenseFrame(w)) + ButtonBytes(buttons)
  {
    hide Encode;
    assert TickItems(w, buttons)[1..] == ButtonItems(buttons);
    ButtonLine(buttons);
  }

  /// ---- The UART path against the direct path ----

  /** One tick of a run: the world at that moment, buttons pressed since the last tick, and
      the time since then. */
  datatype Tick = Tick(world: World, buttons: seq<ButtonPayload>, dtMs: nat)

  function UartRun(p: Pipe, ticks: seq<Tick>): PipeOutput
    decreases |ticks|
  {
    if ticks == [] then PipeOutput(p, [])
    else
      var o := BytesPushed(p, TickBytes(ticks[0].world, ticks[0].buttons), ticks[0].dtMs);
      var more := UartRun(o.pipe, ticks[1..]);
      PipeOutput(more.pipe, o.snaps + more.snaps)
  }

  /** What the wire keeps of a world: force in tenths of a newton, zero distance as none. */
  function OnWire(w: World): World {
    World(ForceDeciN(w.forceN) as real / 10.0, if w.tofMm == Some(0) then None else w.tofMm, w.motion)
  }

  function DirectRun(p: Pipe, ticks: seq<Tick>): PipeOutput
    decreases |ticks|
  {
    if ticks == [] then PipeOutput(p, [])
    else
      var w := ticks[0].world;
      var o := SamplePushed(p, w.forceN, w.tofMm, w.motion, ticks[0].dtMs);
      var more := DirectRun(o.pipe, ticks[1..]);
      PipeOutput(more.pipe, o.snaps + more.snaps)
  }

  function WireTicks(ticks: seq<Tick>): seq<Tick> {
    if ticks == [] then [] else [ticks[0].(world := OnWire(ticks[0].world))] + WireTicks(ticks[1..])
  }

  lemma {:induction false} ButtonsCarryNoSample(p: Pipe, buttons: seq<ButtonPayload>)
    ensures AbsorbedFrames(p, Sent(ButtonItems(buttons))) == PipeOutput(p, [])
    decreases |buttons|
  {
    if buttons != [] {
      assert ButtonItems(buttons)[1..] == ButtonItems(buttons[1..]);
      ButtonsCarryNoSample(p, buttons[1..]);
    }
  }

  /** What any frame is read as: nothing, unless it is a sense frame of at least eight bytes; then force
      in tenths of a newton, no distance if it is zero, and motion from the lowest flag bit alone. */
  lemma FrameReadsAs(f: Frame, p: SensePayload, high: nat, bit: nat, tMs: nat)
    requires p.flags == 2 * high + bit && bit < 2
    ensures SampleIn(f, tMs).None? <==> f.msg != MsgType.Sense || |f.payload| < 8
    ensures f.msg == MsgType.Sense && p.ToBytes() <= f.payload ==>
              SampleIn(f, tMs) == Some(Sample(p.forceDeciN as real / 10.0,
                                              if p.tofMm == 0 then None else Some(p.tofMm), bit == 1, tMs))
  {
    SenseRoundTrip(p, f.payload);
    hide SensePayload.ToBytes;
  }

  lemma SenseFrameSample(w: World, tMs: nat)
    ensures SampleIn(SenseFrame(w), tMs)
            == Some(Sample(OnWire(w).forceN, OnWire(w).tofMm, OnWire(w).motion, tMs))
  {
    hide SenseFromBytes, SensePayload.ToBytes, ForceDeciN;
    SenseRoundTrip(SensePayloadOf(w), SenseFrame(w).payload);
  }

  /** One tick over the wire is one direct push of the world as the wire keeps it. */
  lemma TickRefines(p: Pipe, w: World, buttons: seq<ButtonPayload>, dtMs: nat)
    requires p.buf == []
    ensures BytesPushed(p, TickBytes(w, buttons), dtMs)
            == SamplePushed(p, OnWire(w).forceN, OnWire(w).tofMm, OnWire(w).motion, dtMs)
  {
    hide Line, Pushed, Parse, Clean, SampleIn, OnWire, Updated;
    var items := TickItems(w, buttons);
    LineParses(items, []);
    CleanPush(TickBytes(w, buttons));
    assert [] + TickBytes(w, buttons) == TickBytes(w, buttons);
    assert items[1..] == ButtonItems(buttons);
    assert Sent(items) == [SenseFrame(w)] + Sent(ButtonItems(buttons));
    var t := SaturatingAdd(p.tMs, dtMs);
    SenseFrameSample(w, t);
    var s := Sample(OnWire(w).forceN, OnWire(w).tofMm, OnWire(w).motion, t);
    ButtonsCarryNoSample(Absorbed(p.(tMs := t), s).pipe, buttons);
  }

  /** Refinement over whole runs: from an empty buffer, feeding each emulator tick to
      `push_bytes` gives the snapshots, filter and clock that `push_sample` gives, with force
      truncated to 0.1 N and a zero distance read as none. */
  lemma {:induction false} UartRefinesDirect(p: Pipe, ticks: seq<Tick>)
    requires p.buf == []
    ensures UartRun(p, ticks) == DirectRun(p, WireTicks(ticks))
    ensures |UartRun(p, ticks).snaps| == |ticks| && UartRun(p, ticks).pipe.buf == []
    decreases |ticks|
  {
    if ticks != [] {
      TickRefines(p, ticks[0].world, ticks[0].buttons, ticks[0].dtMs);
      var w := OnWire(ticks[0].world);
      UartRefinesDirect(SamplePushed(p, w.forceN, w.tofMm, w.motion, ticks[0].dtMs).pipe, ticks[1..]);
      assert WireTicks(ticks)[1..] == WireTicks(ticks[1..]);
    }
  }

  /// ---- Several ticks in one chunk ----

  /** The bytes of several ticks, read at once. */
  function BurstBytes(ticks: seq<Tick>): seq<Byte> {
    if ticks == [] then [] else TickBytes(ticks[0].world, ticks[0].buttons) + BurstBytes(ticks[1..])
  }

  function BurstItems(ticks: seq<Tick>): seq<Item> {
    if ticks == [] then [] else TickItems(ticks[0].world, ticks[0].buttons) + BurstItems(ticks[1..])
  }

  /** The worlds of the ticks as the wire keeps them, all seen at the moment the chunk is read. */
  function AtOnce(ticks: seq<Tick>, dtMs: nat): seq<Tick> {
    if ticks == [] then []
    else [ticks[0].(world := OnWire(ticks[0].world), dtMs := dtMs)] + AtOnce(ticks[1..], 0)
  }

  lemma {:induction false} LineAppend(items: seq<Item>, more: seq<Item>)
    requires Sendable(items) && Sendable(more)
    ensures Sendable(items + more) && Line(items + more, []) == Line(items, []) + Line(more, [])
    ensures Sent(items + more) == Sent(items) + Sent(more)
    decreases |items|
  {
    hide Encode, Quiet;
    if items == [] {
      assert items + more == more;
    } else {
      assert (items + more)[1..] == items[1..] + more;
      LineAppend(items[1..], more);
    }
  }

  lemma {:induction false} BurstLine(ticks: seq<Tick>)
    ensures Sendable(BurstItems(ticks)) && Line(BurstItems(ticks), []) == BurstBytes(ticks)
    decreases |ticks|
  {
    hide Line;
    if ticks == [] {
      EmptyLine();
    } else {
      BurstLine(ticks[1..]);
      LineAppend(TickItems(ticks[0].world, ticks[0].buttons), BurstItems(ticks[1..]));
    }
  }

  lemma EmptyLine()
    ensures Line([], []) == []
  {}

  /** The frames of a chunk are taken in one after another. */
  lemma {:induction false} FramesInTurn(p: Pipe, frames: seq<Frame>, more: seq<Frame>)
    ensures var o := AbsorbedFrames(p, frames);
            var q := AbsorbedFrames(o.pipe, more);
            AbsorbedFrames(p, frames + more) == PipeOutput(q.pipe, o.snaps + q.snaps)
    ensures AbsorbedFrames(p, frames).pipe.tMs == p.tMs
    decreases |frames|
  {
    hide SampleIn, Updated;
    if frames == [] {
      assert frames + more == more;
    } else {
      assert (frames + more)[1..] == frames[1..] + more;
      match SampleIn(frames[0], p.tMs)
      case None => FramesInTurn(p, frames[1..], more);
      case Some(s) => FramesInTurn(Absorbed(p, s).pipe, frames[1..], more);
    }
  }

  lemma SentTick(w: World, buttons: seq<ButtonPayload>)
    ensures Sent(TickItems(w, buttons)) == [SenseFrame(w)] + Sent(ButtonItems(buttons))
  {
    hide ButtonItems, SenseFrame;
    assert TickItems(w, buttons)[1..] == ButtonItems(buttons);
  }

  lemma OneAbsorbed(p: Pipe, fr: Frame, s: Sample, more: seq<Frame>)
    requires SampleIn(fr, p.tMs) == Some(s)
    requires AbsorbedFrames(Absorbed(p, s).pipe, more) == PipeOutput(Absorbed(p, s).pipe, [])
    ensures AbsorbedFrames(p, [fr] + more) == Absorbed(p, s)
  {
    hide SampleIn, Updated;
    assert ([fr] + more)[1..] == more;
  }

  lemma DirectNow(p: Pipe, s: Sample)
    requires p.tMs <= U64_MAX && s.tMs == p.tMs
    ensures SamplePushed(p, s.forceN, s.tofMm, s.motion, 0) == Absorbed(p, s)
  {
    hide Updated;
  }

  lemma TickAbsorbed(p: Pipe, w: World, buttons: seq<ButtonPayload>)
    requires p.tMs <= U64_MAX
    ensures AbsorbedFrames(p, Sent(TickItems(w, buttons)))
            == SamplePushed(p, OnWire(w).forceN, OnWire(w).tofMm, OnWire(w).motion, 0)
  {
    hide *;
    var s := Sample(OnWire(w).forceN, OnWire(w).tofMm, OnWire(w).motion, p.tMs);
    SentTick(w, buttons);
    SenseFrameSample(w, p.tMs);
    ButtonsCarryNoSample(Absorbed(p, s).pipe, buttons);
    OneAbsorbed(p, SenseFrame(w), s, Sent(ButtonItems(buttons)));
    DirectNow(p, s);
  }

  lemma {:induction false} BurstAbsorbed(p: Pipe, ticks: seq<Tick>)
    requires p.tMs <= U64_MAX
    ensures AbsorbedFrames(p, Sent(BurstItems(ticks))) == DirectRun(p, AtOnce(ticks, 0))
    decreases |ticks|
  {
    hide AbsorbedFrames, SamplePushed, Line, OnWire;
    if ticks == [] {
      NothingAbsorbed(p);
    } else {
      var w, items := OnWire(ticks[0].world), TickItems(ticks[0].world, ticks[0].buttons);
      BurstLine(ticks[1..]);
      LineAppend(items, BurstItems(ticks[1..]));
      FramesInTurn(p, Sent(items), Sent(BurstItems(ticks[1..])));
      TickAbsorbed(p, ticks[0].world, ticks[0].buttons);
      BurstAbsorbed(SamplePushed(p, w.forceN, w.tofMm, w.motion, 0).pipe, ticks[1..]);
      assert AtOnce(ticks, 0)[1..] == AtOnce(ticks[1..], 0);
    }
  }

  lemma NothingAbsorbed(p: Pipe)
    ensures AbsorbedFrames(p, []) == PipeOutput(p, []) && Sent([]) == []
  {}

  lemma FirstLater(p: Pipe, ticks: seq<Tick>, dtMs: nat)
    requires ticks != []
    ensures var t := SaturatingAdd(p.tMs, dtMs);
            t <= U64_MAX && DirectRun(p.(tMs := t), AtOnce(ticks, 0)) == DirectRun(p, AtOnce(ticks, dtMs))
  {
    assert AtOnce(ticks, 0)[1..] == AtOnce(ticks, dtMs)[1..];
    hide Updated, OnWire;
  }

  /** A backlog: several ticks read in one chunk give one snapshot each, in order, as direct samples all
      taken at the moment the chunk is read. */
  lemma {:induction false} BurstRefines(p: Pipe, ticks: seq<Tick>, dtMs: nat)
    requires p.buf == [] && ticks != []
    ensures BytesPushed(p, BurstBytes(ticks), dtMs) == DirectRun(p, AtOnce(ticks, dtMs))
  {
    hide Line, Pushed, Parse, Clean, AbsorbedFrames, DirectRun;
    var items := BurstItems(ticks);
    BurstLine(ticks);
    LineParses(items, []);
    CleanPush(BurstBytes(ticks));
    assert [] + BurstBytes(ticks) == BurstBytes(ticks);
    FirstLater(p, ticks, dtMs);
    BurstAbsorbed(p.(tMs := SaturatingAdd(p.tMs, dtMs)), ticks);
  }

  /// ---- Truncation loses nothing the filter looks at ----

  /** Every threshold of the default filter and of the force bands is a whole number of
      tenths, so truncating to tenths crosses none of them. */
  lemma TruncationKeepsThreshold(forceN: real, deci: int)
    requires 0 < deci <= 65535
    ensures ForceDeciN(forceN) as real / 10.0 >= deci as real / 10.0 <==> forceN >= deci as real / 10.0
  {
    var scaled := forceN * 10.0;
    assert forceN >= deci as real / 10.0 <==> scaled >= deci as real;
    assert ForceDeciN(forceN) as real / 10.0 >= deci as real / 10.0 <==> ForceDeciN(forceN) >= deci;
    assert 0.0 <= scaled <= 65535.0 ==> (scaled.Floor >= deci <==> scaled >= deci as real);
  }

  predicate SameFlags(f: Filter, g: Filter) {
    f.present == g.present && f.raw == g.raw && f.rawSinceMs == g.rawSinceMs &&
    f.confidence == g.confidence && BandOf(f.lastForceN) == BandOf(g.lastForceN)
  }

  predicate SameReport(s: Snapshot, t: Snapshot) {
    s.present == t.present && s.confidence == t.confidence && s.forceBand == t.forceBand && s.flipped == t.flipped
  }

  lemma WireKeepsFlags(p: Pipe, q: Pipe, w: World, dtMs: nat)
    requires p.tMs == q.tMs && SameFlags(p.filter, q.filter)
    ensures var o := SamplePushed(p, OnWire(w).forceN, OnWire(w).tofMm, OnWire(w).motion, dtMs);
            var e := SamplePushed(q, w.forceN, w.tofMm, w.motion, dtMs);
            o.pipe.tMs == e.pipe.tMs && SameFlags(o.pipe.filter, e.pipe.filter) && SameReport(o.snaps[0], e.snaps[0])
  {
    TruncationKeepsThreshold(w.forceN, 150);
    TruncationKeepsThreshold(w.forceN, 250);
    TruncationKeepsThreshold(w.forceN, 800);
    TruncationKeepsThreshold(w.forceN, 2000);
    TruncationKeepsThreshold(w.forceN, 4500);
    assert 150 as real / 10.0 == 15.0 && 250 as real / 10.0 == 25.0 && 800 as real / 10.0 == 80.0;
    assert 2000 as real / 10.0 == 200.0 && 4500 as real / 10.0 == 450.0;
  }

  lemma {:induction false} WireRunKeepsFlags(p: Pipe, q: Pipe, ticks: seq<Tick>)
    requires p.tMs == q.tMs && SameFlags(p.filter, q.filter)
    ensures var o, e := DirectRun(p, WireTicks(ticks)), DirectRun(q, ticks);
            SameFlags(o.pipe.filter, e.pipe.filter) && |o.snaps| == |e.snaps| == |ticks| &&
            forall i :: 0 <= i < |ticks| ==> SameReport(o.snaps[i], e.snaps[i])
    decreases |ticks|
  {
    if ticks != [] {
      var w, v := ticks[0].world, OnWire(ticks[0].world);
      WireKeepsFlags(p, q, w, ticks[0].dtMs);
      assert WireTicks(ticks)[1..] == WireTicks(ticks[1..]);
      WireRunKeepsFlags(SamplePushed(p, v.forceN, v.tofMm, v.motion, ticks[0].dtMs).pipe,
                        SamplePushed(q, w.forceN, w.tofMm, w.motion, ticks[0].dtMs).pipe, ticks[1..]);
    }
  }

  /** End to end: for every run of worlds, whatever buttons are pressed, the snapshots the
      UART path reports agree with those computed from the exact, untruncated worlds in
      presence, confidence, force band and flips. */
  lemma {:induction false} UartReportsExactWorld(ticks: seq<Tick>)
    ensures var o, e := UartRun(EMPTY_PIPE, ticks), DirectRun(EMPTY_PIPE, ticks);
            |o.snaps| == |e.snaps| == |ticks| &&
            forall i :: 0 <= i < |ticks| ==> SameReport(o.snaps[i], e.snaps[i])
  {
    UartRefinesDirect(EMPTY_PIPE, ticks);
    WireRunKeepsFlags(EMPTY_PIPE, EMPTY_PIPE, ticks);
  }
}

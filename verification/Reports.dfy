/** From the world on the mat to the report: what the terminal says after any run of ticks, said of
    the worlds themselves (edge/canis-sense/src/lib.rs:44-95 over crates/presence/src/lib.rs). */
module Reports {
  import opened Base
  import opened Protocol
  import opened Presence
  import opened Stretches
  import opened Sense
  import opened McuEmu

  /** The time since start, which stops at the greatest 64-bit number. */
  function Elapsed(ticks: seq<Tick>, n: nat): nat
    requires n <= |ticks|
  {
    if n == 0 then 0
    else
      var t := Elapsed(ticks, n - 1) + ticks[n - 1].dtMs;
      if t < 0x1_0000_0000_0000_0000 then t else 0xFFFF_FFFF_FFFF_FFFF
  }

  /** The worlds of a run as samples. */
  function Seen(ticks: seq<Tick>): seq<Sample> {
    seq(|ticks|, i requires 0 <= i < |ticks| =>
      var w := ticks[i].world;
      Sample(w.forceN, w.tofMm, w.motion, Elapsed(ticks, i + 1)))
  }

  lemma {:induction false} ElapsedGrows(ticks: seq<Tick>, m: nat, n: nat)
    requires m <= n <= |ticks|
    ensures Elapsed(ticks, m) <= Elapsed(ticks, n) <= U64_MAX
    decreases n
  {
    if m < n {
      ElapsedGrows(ticks, m, n - 1);
    } else if n > 0 {
      ElapsedGrows(ticks, n - 1, n - 1);
    }
  }

  lemma SeenInOrder(ticks: seq<Tick>)
    ensures Clocked(Seen(ticks)) && |Seen(ticks)| == |ticks|
  {
    forall i, j | 0 <= i < j < |ticks| ensures Seen(ticks)[i].tMs <= Seen(ticks)[j].tMs {
      ElapsedGrows(ticks, i + 1, j + 1);
    }
  }

  /** The pipeline after the first `n` ticks of direct samples. */
  function PipeAfter(ticks: seq<Tick>, n: nat): Pipe
    requires n <= |ticks|
  {
    Pipe([], Replay(DEFAULT_CONFIG, Seen(ticks), n), Elapsed(ticks, n))
  }

  function SnapAfter(ticks: seq<Tick>, n: nat): Snapshot
    requires n < |ticks|
  {
    var f, g := Replay(DEFAULT_CONFIG, Seen(ticks), n), Replay(DEFAULT_CONFIG, Seen(ticks), n + 1);
    SnapshotOf(g, g.present != f.present)
  }

  lemma PipeStep(ticks: seq<Tick>, n: nat)
    requires n < |ticks|
    ensures var w := ticks[n].world;
            SamplePushed(PipeAfter(ticks, n), w.forceN, w.tofMm, w.motion, ticks[n].dtMs)
            == PipeOutput(PipeAfter(ticks, n + 1), [SnapAfter(ticks, n)])
  {
    ElapsedGrows(ticks, n, n + 1);
    hide Updated, SnapshotOf;
  }

  lemma {:induction false} DirectFrom(ticks: seq<Tick>, n: nat)
    requires n <= |ticks|
    ensures var o := DirectRun(PipeAfter(ticks, n), ticks[n..]);
            |o.snaps| == |ticks| - n && forall k :: n <= k < |ticks| ==> o.snaps[k - n] == SnapAfter(ticks, k)
    decreases |ticks| - n
  {
    hide SamplePushed, PipeAfter, SnapAfter;
    if n < |ticks| {
      PipeStep(ticks, n);
      DirectFrom(ticks, n + 1);
      assert ticks[n..][1..] == ticks[n + 1..] && ticks[n..][0] == ticks[n];
    }
  }

  lemma DirectSnaps(ticks: seq<Tick>, n: nat)
    requires n < |ticks|
    ensures |DirectRun(EMPTY_PIPE, ticks).snaps| == |ticks|
    ensures DirectRun(EMPTY_PIPE, ticks).snaps[n] == SnapAfter(ticks, n)
  {
    assert PipeAfter(ticks, 0) == EMPTY_PIPE && ticks[0..] == ticks;
    hide *;
    DirectFrom(ticks, 0);
    assert DirectRun(EMPTY_PIPE, ticks).snaps[n - 0] == SnapAfter(ticks, n);
  }

  lemma SameMeans(s: Snapshot, t: Snapshot)
    requires SameReport(s, t)
    ensures s.present == t.present && s.confidence == t.confidence && s.forceBand == t.forceBand
    ensures s.flipped == t.flipped
  {}

  lemma SnapsMatch(ticks: seq<Tick>, n: nat)
    requires n < |ticks|
    ensures |UartRun(EMPTY_PIPE, ticks).snaps| == |ticks|
    ensures var s, t := UartRun(EMPTY_PIPE, ticks).snaps[n], SnapAfter(ticks, n);
            && s.present == t.present && s.confidence == t.confidence && s.forceBand == t.forceBand
            && s.flipped == t.flipped
  {
    hide *;
    UartReportsExactWorld(ticks);
    DirectSnaps(ticks, n);
    SameMeans(UartRun(EMPTY_PIPE, ticks).snaps[n], DirectRun(EMPTY_PIPE, ticks).snaps[n]);
  }

  lemma LastSample(cfg: Config, h: seq<Sample>, n: nat)
    requires n < |h|
    ensures var f := Replay(cfg, h, n + 1);
            f.lastForceN == h[n].forceN && f.lastTof == h[n].tofMm &&
            f.confidence == ConfidenceOf(cfg, h[n], RawPresent(cfg, h[n]))
  {
    hide ConfidenceOf, RawPresent;
  }

  predicate InBand(d: Option<U16>) { d.Some? && 50 <= d.value <= 900 }

  /** How sure the terminal is of a world: hardly, if no dog shows; else certain if it both moves and
      stands in the band, and less so if only one of these. */
  function Sureness(w: World): real {
    if w.forceN < 25.0 || !(w.motion || InBand(w.tofMm)) then 0.05
    else if w.motion && InBand(w.tofMm) then 1.0
    else if w.motion then 0.8
    else 0.95
  }

  function Pressure(forceN: real): ForceBand {
    if forceN >= 450.0 then Overload
    else if forceN >= 200.0 then Large
    else if forceN >= 80.0 then Medium
    else if forceN >= 15.0 then Small
    else Empty
  }

  lemma SnapFields(ticks: seq<Tick>, n: nat)
    requires n < |ticks|
    ensures var s, w := SnapAfter(ticks, n), ticks[n].world;
            && s.confidence == Sureness(w) && s.forceBand == Pressure(w.forceN)
            && s.forceN == w.forceN && s.tofMm == w.tofMm
            && s.present == Replay(DEFAULT_CONFIG, Seen(ticks), n + 1).present
            && s.flipped == (s.present != Replay(DEFAULT_CONFIG, Seen(ticks), n).present)
  {
    LastSample(DEFAULT_CONFIG, Seen(ticks), n);
    hide Replay;
  }

  /** End to end, for any run of worlds and any buttons pressed. Snapshot `n` read off the bytes says
      present if and only if the dog stood on the mat for 800 ms and has not been gone for 2500 ms
      since; it says flipped if and only if that differs from the snapshot before; and its
      confidence and force band are those of the present world. */
  lemma UartReportsWorld(ticks: seq<Tick>, n: nat)
    requires n < |ticks|
    ensures |UartRun(EMPTY_PIPE, ticks).snaps| == |ticks|
    ensures var o := UartRun(EMPTY_PIPE, ticks).snaps;
            && (o[n].present <==> StillThere(Seen(ticks), n + 1))
            && (o[n].flipped <==> o[n].present != (n > 0 && o[n - 1].present))
            && o[n].confidence == Sureness(ticks[n].world)
            && o[n].forceBand == Pressure(ticks[n].world.forceN)
  {
    hide *;
    SnapsMatch(ticks, n);
    SnapFields(ticks, n);
    SeenInOrder(ticks);
    DefaultPresence(Seen(ticks), n + 1);
    if n > 0 {
      SnapsMatch(ticks, n - 1);
      SnapFields(ticks, n - 1);
    } else {
      AbsentAtFirst(ticks);
    }
  }

  lemma AbsentAtFirst(ticks: seq<Tick>)
    ensures !Replay(DEFAULT_CONFIG, Seen(ticks), 0).present
  {
    hide Seen;
  }

  lemma {:induction false} WireAt(ticks: seq<Tick>)
    ensures |WireTicks(ticks)| == |ticks|
    ensures forall i :: 0 <= i < |ticks| ==> WireTicks(ticks)[i].world == OnWire(ticks[i].world)
    decreases |ticks|
  {
    hide OnWire;
    if ticks != [] {
      WireAt(ticks[1..]);
    }
  }

  predicate WholeTenths(f: real) { 0.0 <= f <= 6553.5 && (f * 10.0).Floor as real == f * 10.0 }

  /** The measurement of a world: its force cut to tenths of a newton, within the 0 to 6553.5 N the wire
      can carry, and its distance, unless that is zero. */
  predicate Measures(w: World, forceN: real, tofMm: Option<U16>) {
    && WholeTenths(forceN)
    && (0.0 <= w.forceN <= 6553.5 ==> forceN <= w.forceN < forceN + 0.1)
    && (w.forceN < 0.0 ==> forceN == 0.0) && (w.forceN > 6553.5 ==> forceN == 6553.5)
    && tofMm == if w.tofMm == Some(0) then None else w.tofMm
  }

  lemma Tenths(w: World)
    ensures Measures(w, OnWire(w).forceN, OnWire(w).tofMm)
  {
    assert OnWire(w).forceN * 10.0 == ForceDeciN(w.forceN) as real;
  }

  lemma WireSnap(ticks: seq<Tick>, n: nat)
    requires n < |ticks|
    ensures |WireTicks(ticks)| == |ticks|
    ensures var s := SnapAfter(WireTicks(ticks), n);
            s.forceN == OnWire(ticks[n].world).forceN && s.tofMm == OnWire(ticks[n].world).tofMm
  {
    hide *;
    WireAt(ticks);
    SnapFields(WireTicks(ticks), n);
  }

  /** Every snapshot measures the world of its tick. */
  lemma UartMeasures(ticks: seq<Tick>, n: nat)
    requires n < |ticks|
    ensures |UartRun(EMPTY_PIPE, ticks).snaps| == |ticks|
    ensures var o := UartRun(EMPTY_PIPE, ticks).snaps[n]; Measures(ticks[n].world, o.forceN, o.tofMm)
  {
    assert EMPTY_PIPE.buf == [];
    hide *;
    UartRefinesDirect(EMPTY_PIPE, ticks);
    WireSnap(ticks, n);
    DirectSnaps(WireTicks(ticks), n);
    Tenths(ticks[n].world);
  }
}

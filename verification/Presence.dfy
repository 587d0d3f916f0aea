/** Presence fusion on the edge (crates/presence/src/lib.rs): mat force, distance and motion
    become one debounced flag. The filter keeps constant-size state; the lemmas relate it to
    the whole history of samples. */
module Presence {
  import opened Base
  import opened Protocol

  datatype Config = Config(forceMinN: real, tofNearMm: U16, tofFarMm: U16, enterMs: nat, exitMs: nat)

  const DEFAULT_CONFIG := Config(25.0, 50, 900, PRESENCE_ENTER_MS, PRESENCE_EXIT_MS)

  datatype Sample = Sample(forceN: real, tofMm: Option<U16>, motion: bool, tMs: nat)

  datatype Filter = Filter(present: bool, raw: bool, rawSinceMs: nat, lastTMs: nat,
                           confidence: real, lastForceN: real, lastTof: Option<U16>)

  const INITIAL := Filter(false, false, 0, 0, 0.0, 0.0, None)

  predicate TofOk(cfg: Config, s: Sample) {
    s.tofMm.Some? && cfg.tofNearMm <= s.tofMm.value <= cfg.tofFarMm
  }

  predicate RawPresent(cfg: Config, s: Sample) {
    s.forceN >= cfg.forceMinN && (TofOk(cfg, s) || s.motion)
  }

  function ConfidenceOf(cfg: Config, s: Sample, raw: bool): real {
    if !raw then 0.05
    else
      var c := 0.4 + (if s.forceN >= cfg.forceMinN then 0.35 else 0.0)
               + (if TofOk(cfg, s) then 0.2 else 0.0) + (if s.motion then 0.05 else 0.0);
      if c < 0.0 then 0.0 else if c > 1.0 then 1.0 else c
  }

  function Updated(cfg: Config, f: Filter, s: Sample): Filter {
    var raw := RawPresent(cfg, s);
    var since := if raw != f.raw then s.tMs else f.rawSinceMs;
    var held := SaturatingSub(s.tMs, since);
    var present := if !f.present && raw && held >= cfg.enterMs then true
                   else if f.present && !raw && held >= cfg.exitMs then false
                   else f.present;
    Filter(present, raw, since, s.tMs, ConfidenceOf(cfg, s, raw), s.forceN, s.tofMm)
  }

  class PresenceFilter {
    var cfg: Config
    var present: bool
    var raw: bool
    var rawSinceMs: nat
    var lastTMs: nat
    var confidence: real
    var lastForceN: real
    var lastTof: Option<U16>

    ghost function View(): Filter
      reads this
    {
      Filter(present, raw, rawSinceMs, lastTMs, confidence, lastForceN, lastTof)
    }

    constructor (cfg: Config)
      ensures this.cfg == cfg && View() == INITIAL
    {
      this.cfg := cfg;
      present, raw, rawSinceMs, lastTMs := false, false, 0, 0;
      confidence, lastForceN, lastTof := 0.0, 0.0, None;
    }

    method Update(s: Sample) returns (flipped: bool)
      modifies this
      ensures cfg == old(cfg) && View() == Updated(cfg, old(View()), s)
      ensures flipped <==> present != old(present)
    {
      lastTMs := s.tMs;
      lastForceN := s.forceN;
      lastTof := s.tofMm;
      var rawNow := RawPresent(cfg, s);
      confidence := ConfidenceOf(cfg, s, rawNow);
      if rawNow != raw {
        raw := rawNow;
        rawSinceMs := s.tMs;
      }
      var held := SaturatingSub(s.tMs, rawSinceMs);
      var prev := present;
      if !present && raw && held >= cfg.enterMs {
        present := true;
      } else if present && !raw && held >= cfg.exitMs {
        present := false;
      }
      flipped := prev != present;
    }
  }

  /// ---- Exactness: the filter against the history of samples ----

  /** The filter after the first `n` samples of `h`. */
  function Replay(cfg: Config, h: seq<Sample>, n: nat): Filter
    requires n <= |h|
  {
    if n == 0 then INITIAL else Updated(cfg, Replay(cfg, h, n - 1), h[n - 1])
  }

  /** The raw reading of sample `i`; before the first sample it counts as absent. */
  predicate RawAt(cfg: Config, h: seq<Sample>, i: int)
    requires i < |h|
  {
    i >= 0 && RawPresent(cfg, h[i])
  }

  /** Samples `j..i` form a maximal run of equal raw readings ending at `i`. */
  predicate Run(cfg: Config, h: seq<Sample>, j: nat, i: nat)
    requires j <= i < |h|
  {
    RawAt(cfg, h, j - 1) != RawAt(cfg, h, i) &&
    forall k :: j <= k <= i ==> RawAt(cfg, h, k) == RawAt(cfg, h, i)
  }

  /** No sample up to `i` has read present, so the current run began at time zero. */
  predicate NeverRaw(cfg: Config, h: seq<Sample>, i: nat)
    requires i < |h|
  {
    forall k :: 0 <= k <= i ==> !RawAt(cfg, h, k)
  }

  /** The maximal run of equal raw readings ending at `i` spans at least `ms`. */
  predicate Spans(cfg: Config, h: seq<Sample>, i: nat, ms: nat)
    requires i < |h|
  {
    (NeverRaw(cfg, h, i) && h[i].tMs >= ms) ||
    exists j :: 0 <= j <= i && Run(cfg, h, j, i) && SaturatingSub(h[i].tMs, h[j].tMs) >= ms
  }

  predicate Enters(cfg: Config, h: seq<Sample>, i: nat)
    requires i < |h|
  {
    RawAt(cfg, h, i) && Spans(cfg, h, i, cfg.enterMs)
  }

  predicate Exits(cfg: Config, h: seq<Sample>, i: nat)
    requires i < |h|
  {
    !RawAt(cfg, h, i) && Spans(cfg, h, i, cfg.exitMs)
  }

  /** The filter remembers exactly the current run, its reading and when it began, and the last sample. */
  lemma {:induction false} RemembersRun(cfg: Config, h: seq<Sample>, n: nat)
    requires 0 < n <= |h|
    ensures var f := Replay(cfg, h, n);
            f.raw == RawAt(cfg, h, n - 1) &&
            f.lastTMs == h[n - 1].tMs && f.lastForceN == h[n - 1].forceN && f.lastTof == h[n - 1].tofMm &&
            ((NeverRaw(cfg, h, n - 1) && f.rawSinceMs == 0) ||
             exists j :: 0 <= j < n && Run(cfg, h, j, n - 1) && f.rawSinceMs == h[j].tMs)
  {
    var i := n - 1;
    if i == 0 {
      if RawAt(cfg, h, 0) {
        assert Run(cfg, h, 0, 0);
      }
    } else {
      RemembersRun(cfg, h, i);
      if RawAt(cfg, h, i) != RawAt(cfg, h, i - 1) {
        assert Run(cfg, h, i, i);
      } else if !NeverRaw(cfg, h, i) {
        var j :| 0 <= j < i && Run(cfg, h, j, i - 1) && Replay(cfg, h, i).rawSinceMs == h[j].tMs;
        assert Run(cfg, h, j, i);
      }
    }
  }

  lemma RunUnique(cfg: Config, h: seq<Sample>, j: nat, k: nat, i: nat)
    requires j <= i < |h| && k <= i && Run(cfg, h, j, i) && Run(cfg, h, k, i)
    ensures j == k && !NeverRaw(cfg, h, i)
  {}

  lemma SpansIff(cfg: Config, h: seq<Sample>, i: nat, ms: nat)
    requires i < |h|
    ensures Spans(cfg, h, i, ms) <==> SaturatingSub(h[i].tMs, Replay(cfg, h, i + 1).rawSinceMs) >= ms
  {
    RemembersRun(cfg, h, i + 1);
    if !NeverRaw(cfg, h, i) {
      var j :| 0 <= j < i + 1 && Run(cfg, h, j, i) && Replay(cfg, h, i + 1).rawSinceMs == h[j].tMs;
      forall k | 0 <= k <= i && Run(cfg, h, k, i) ensures k == j {
        RunUnique(cfg, h, j, k, i);
      }
    } else {
      forall k | 0 <= k <= i && Run(cfg, h, k, i) ensures false {
        RunUnique(cfg, h, k, k, i);
      }
    }
  }

  lemma PresentStep(cfg: Config, h: seq<Sample>, n: nat)
    requires n < |h|
    ensures Replay(cfg, h, n + 1).present ==
            if Enters(cfg, h, n) then true
            else if Exits(cfg, h, n) then false
            else Replay(cfg, h, n).present
    ensures !(Enters(cfg, h, n) && Exits(cfg, h, n))
  {
    RemembersRun(cfg, h, n + 1);
    SpansIff(cfg, h, n, cfg.enterMs);
    SpansIff(cfg, h, n, cfg.exitMs);
  }

  /** At sample `i` the present reading had lasted the enter time, and at no later sample
      before `n` had an absent reading lasted the exit time. */
  predicate SetAt(cfg: Config, h: seq<Sample>, i: nat, n: nat)
    requires n <= |h|
  {
    i < n && Enters(cfg, h, i) && forall k :: i < k < n ==> !Exits(cfg, h, k)
  }

  lemma SetAtStep(cfg: Config, h: seq<Sample>, i: nat, n: nat)
    requires n < |h|
    ensures SetAt(cfg, h, i, n + 1) <==> (i == n && Enters(cfg, h, n)) || (SetAt(cfg, h, i, n) && !Exits(cfg, h, n))
  {
    hide Enters, Exits;
    if i < n && (forall k :: i < k < n + 1 ==> !Exits(cfg, h, k)) {
      assert !Exits(cfg, h, n);
    }
  }

  /** Debounce exactness: the constant-size filter sets its flag exactly when the history
      does. */
  lemma {:induction false} DebounceExact(cfg: Config, h: seq<Sample>, n: nat)
    requires n <= |h|
    ensures Replay(cfg, h, n).present <==> exists i: nat :: SetAt(cfg, h, i, n)
  {
    if n > 0 {
      hide Replay, Enters, Exits, SetAt;
      DebounceExact(cfg, h, n - 1);
      PresentStep(cfg, h, n - 1);
      forall i: nat ensures SetAt(cfg, h, i, n) <==>
                       (i == n - 1 && Enters(cfg, h, n - 1)) || (SetAt(cfg, h, i, n - 1) && !Exits(cfg, h, n - 1))
      {
        SetAtStep(cfg, h, i, n - 1);
      }
      if Enters(cfg, h, n - 1) {
        assert SetAt(cfg, h, n - 1, n);
      } else if Replay(cfg, h, n).present {
        var i: nat :| SetAt(cfg, h, i, n - 1);
        assert SetAt(cfg, h, i, n);
      }
    } else {
      hide Enters, Exits;
    }
  }

  /// ---- How fast the flag can flip ----

  predicate Clocked(h: seq<Sample>) {
    forall i, j :: 0 <= i < j < |h| ==> h[i].tMs <= h[j].tMs
  }

  /** The times of the samples at which the flag changed, among the first `n`. */
  function FlipTimes(cfg: Config, h: seq<Sample>, n: nat): seq<nat>
    requires n <= |h|
  {
    if n == 0 then []
    else
      var before := FlipTimes(cfg, h, n - 1);
      if Replay(cfg, h, n).present != Replay(cfg, h, n - 1).present then before + [h[n - 1].tMs] else before
  }

  lemma {:induction false} FlipStep(cfg: Config, h: seq<Sample>, n: nat)
    requires n <= |h| && Clocked(h)
    ensures var f, ts := Replay(cfg, h, n), FlipTimes(cfg, h, n);
            && (f.present <==> |ts| % 2 == 1)
            && (n > 0 ==> f.rawSinceMs <= h[n - 1].tMs)
            && (n > 0 && f.raw ==> f.rawSinceMs >= h[0].tMs)
            && (ts != [] ==> n > 0 && ts[|ts| - 1] <= h[n - 1].tMs && ts[0] >= h[0].tMs + cfg.enterMs)
            && (ts != [] && f.raw != f.present ==> f.rawSinceMs >= ts[|ts| - 1])
            && (n == 0 ==> !f.raw && ts == [])
            && forall k :: 0 <= k < |ts| - 1 ==> ts[k + 1] - ts[k] >= if k % 2 == 0 then cfg.exitMs else cfg.enterMs
  {
    if n > 0 {
      FlipStep(cfg, h, n - 1);
    }
  }

  /** The least time between the first and the k-th flip. */
  function MinGap(k: nat, enter: nat, exit: nat): nat
    requires k >= 1
  {
    (k / 2) * exit + ((k - 1) / 2) * enter
  }

  lemma GapStep(k: nat, enter: nat, exit: nat)
    requires k >= 1
    ensures MinGap(1, enter, exit) == 0
    ensures MinGap(k + 1, enter, exit) == MinGap(k, enter, exit) + if k % 2 == 1 then exit else enter
  {
    if k % 2 == 1 {
      assert (k + 1) / 2 == k / 2 + 1 && (k - 1) / 2 == k / 2;
      assert (k / 2 + 1) * exit == (k / 2) * exit + exit;
    } else {
      assert (k + 1) / 2 == k / 2 && k / 2 == (k - 1) / 2 + 1;
      assert ((k - 1) / 2 + 1) * enter == ((k - 1) / 2) * enter + enter;
    }
  }

  lemma FlipGaps(cfg: Config, h: seq<Sample>)
    requires Clocked(h)
    ensures var ts := FlipTimes(cfg, h, |h|);
            && (ts != [] ==> h != [] && ts[0] >= h[0].tMs + cfg.enterMs)
            && forall k :: 0 <= k < |ts| - 1 ==> ts[k + 1] - ts[k] >= if k % 2 == 0 then cfg.exitMs else cfg.enterMs
  {
    FlipStep(cfg, h, |h|);
    hide *;
  }

  lemma {:induction false} FlipsApart(cfg: Config, h: seq<Sample>, k: nat)
    requires Clocked(h) && 1 <= k <= |FlipTimes(cfg, h, |h|)|
    ensures var ts := FlipTimes(cfg, h, |h|);
            ts[k - 1] - ts[0] >= MinGap(k, cfg.enterMs, cfg.exitMs)
    decreases k
  {
    hide *;
    GapStep(1, cfg.enterMs, cfg.exitMs);
    if k > 1 {
      FlipsApart(cfg, h, k - 1);
      FlipGaps(cfg, h);
      GapStep(k - 1, cfg.enterMs, cfg.exitMs);
      var ts := FlipTimes(cfg, h, |h|);
      assert ts[k - 2 + 1] - ts[k - 2] >= if (k - 2) % 2 == 0 then cfg.exitMs else cfg.enterMs;
    }
  }

  /** Flip spacing: with a nondecreasing clock the first flip comes at least the enter time
      after the first sample, and the first and k-th flips are at least
      floor(k/2) exit times plus floor((k-1)/2) enter times apart. */
  lemma FlipSpacing(cfg: Config, h: seq<Sample>, k: nat)
    requires Clocked(h) && 1 <= k <= |FlipTimes(cfg, h, |h|)|
    ensures var ts := FlipTimes(cfg, h, |h|);
            h != [] && ts[0] >= h[0].tMs + cfg.enterMs &&
            ts[k - 1] - ts[0] >= (k / 2) * cfg.exitMs + ((k - 1) / 2) * cfg.enterMs
  {
    FlipGaps(cfg, h);
    FlipsApart(cfg, h, k);
    hide FlipTimes, Clocked;
  }
}

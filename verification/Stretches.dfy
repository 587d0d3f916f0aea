/** The presence flag said of the samples themselves: which stretches of readings raise it and
    which lower it (crates/presence/src/lib.rs:94-148). */
module Stretches {
  import opened Base
  import opened Presence

  /** The sample shows a dog: enough force, and motion or a distance in the band. */
  predicate Shows(cfg: Config, s: Sample) {
    s.forceN >= cfg.forceMinN &&
    (s.motion || (s.tofMm.Some? && s.tofMm.value >= cfg.tofNearMm && s.tofMm.value <= cfg.tofFarMm))
  }

  /** Samples `j..i` all show a dog, or all show none. */
  predicate Steady(cfg: Config, h: seq<Sample>, j: nat, i: nat, dog: bool) {
    j <= i < |h| && forall k :: j <= k <= i ==> Shows(cfg, h[k]) == dog
  }

  /** They are moreover the first of their kind: the sample before them differs. */
  predicate Stretch(cfg: Config, h: seq<Sample>, j: nat, i: nat, dog: bool) {
    Steady(cfg, h, j, i, dog) && (j > 0 ==> Shows(cfg, h[j - 1]) != dog)
  }

  /** From sample `j` to sample `i` at least `ms` pass. */
  predicate Lasts(h: seq<Sample>, j: nat, i: nat, ms: nat)
    requires j < |h| && i < |h|
  {
    ms == 0 || h[j].tMs + ms <= h[i].tMs
  }

  /** The samples `j..i` raise the flag: a stretch showing a dog that lasts the enter time. */
  predicate Raises(cfg: Config, h: seq<Sample>, j: nat, i: nat) {
    Stretch(cfg, h, j, i, true) && Lasts(h, j, i, cfg.enterMs)
  }

  predicate Lowers(cfg: Config, h: seq<Sample>, j: nat, i: nat) {
    Stretch(cfg, h, j, i, false) && Lasts(h, j, i, cfg.exitMs)
  }

  /** A stretch up to `i` raises the flag, and none that begins later lowers it before `n`. */
  ghost predicate RaisedAt(cfg: Config, h: seq<Sample>, n: nat, j: nat, i: nat) {
    i < n && Raises(cfg, h, j, i) && forall k: nat, l: nat :: i < k && l < n ==> !Lowers(cfg, h, k, l)
  }

  lemma ReadsAsShown(cfg: Config, h: seq<Sample>)
    ensures forall i: nat :: i < |h| ==> (RawAt(cfg, h, i) <==> Shows(cfg, h[i]))
    ensures |h| > 0 ==> !RawAt(cfg, h, -1)
  {}

  lemma RunIsStretch(cfg: Config, h: seq<Sample>, j: nat, i: nat, dog: bool)
    requires j <= i < |h| && (dog || j > 0)
    ensures Run(cfg, h, j, i) && RawAt(cfg, h, i) == dog <==> Stretch(cfg, h, j, i, dog)
  {
    ReadsAsShown(cfg, h);
    hide RawAt, Shows;
  }

  lemma EntersIff(cfg: Config, h: seq<Sample>, i: nat)
    requires i < |h|
    ensures Enters(cfg, h, i) <==> exists j: nat :: Raises(cfg, h, j, i)
  {
    forall j: nat | j <= i ensures Run(cfg, h, j, i) && RawAt(cfg, h, i) <==> Stretch(cfg, h, j, i, true) {
      RunIsStretch(cfg, h, j, i, true);
    }
    hide Run, RawAt, Shows;
    forall j: nat | Raises(cfg, h, j, i) ensures Enters(cfg, h, i) {
      assert Run(cfg, h, j, i) && SaturatingSub(h[i].tMs, h[j].tMs) >= cfg.enterMs;
    }
    if Enters(cfg, h, i) {
      assert !NeverRaw(cfg, h, i);
      var j: nat :| j <= i && Run(cfg, h, j, i) && SaturatingSub(h[i].tMs, h[j].tMs) >= cfg.enterMs;
      assert Raises(cfg, h, j, i);
    }
  }

  /** After a sample that showed a dog. */
  lemma ExitsIff(cfg: Config, h: seq<Sample>, i: nat, l: nat)
    requires i < l < |h| && Shows(cfg, h[i])
    ensures Exits(cfg, h, l) <==> exists k: nat :: i < k && Lowers(cfg, h, k, l)
  {
    ReadsAsShown(cfg, h);
    forall k: nat | 0 < k <= l ensures Run(cfg, h, k, l) && !RawAt(cfg, h, l) <==> Stretch(cfg, h, k, l, false) {
      RunIsStretch(cfg, h, k, l, false);
    }
    assert !NeverRaw(cfg, h, l);
    hide RawAt, Shows;
    forall k: nat | i < k && Lowers(cfg, h, k, l) ensures Exits(cfg, h, l) {
      assert Run(cfg, h, k, l) && SaturatingSub(h[l].tMs, h[k].tMs) >= cfg.exitMs;
    }
    if Exits(cfg, h, l) {
      var k: nat :| k <= l && Run(cfg, h, k, l) && SaturatingSub(h[l].tMs, h[k].tMs) >= cfg.exitMs;
      assert i < k;
      assert Lowers(cfg, h, k, l);
    }
  }

  lemma NoneLowers(cfg: Config, h: seq<Sample>, n: nat, i: nat)
    requires i < n <= |h| && Shows(cfg, h[i])
    ensures (forall l :: i < l < n ==> !Exits(cfg, h, l)) <==>
            forall k: nat, l: nat :: i < k && l < n ==> !Lowers(cfg, h, k, l)
  {
    hide Exits, Lowers, Shows;
    if forall l :: i < l < n ==> !Exits(cfg, h, l) {
      forall k: nat, l: nat | i < k && l < n ensures !Lowers(cfg, h, k, l) {
        if Lowers(cfg, h, k, l) {
          LowererOrdered(cfg, h, k, l);
          ExitsIff(cfg, h, i, l);
        }
      }
    }
    if forall k: nat, l: nat :: i < k && l < n ==> !Lowers(cfg, h, k, l) {
      forall l | i < l < n ensures !Exits(cfg, h, l) {
        ExitsIff(cfg, h, i, l);
      }
    }
  }

  lemma SetIffRaised(cfg: Config, h: seq<Sample>, n: nat, i: nat)
    requires n <= |h|
    ensures SetAt(cfg, h, i, n) <==> exists j: nat :: RaisedAt(cfg, h, n, j, i)
  {
    hide Enters, Exits, Raises, Lowers, Shows;
    if i < n {
      EntersIff(cfg, h, i);
      if Enters(cfg, h, i) {
        var j: nat :| Raises(cfg, h, j, i);
        RaiserShows(cfg, h, j, i);
        NoneLowers(cfg, h, n, i);
        assert SetAt(cfg, h, i, n) ==> RaisedAt(cfg, h, n, j, i);
      }
    }
  }

  lemma RaiserShows(cfg: Config, h: seq<Sample>, j: nat, i: nat)
    requires Raises(cfg, h, j, i)
    ensures j <= i < |h| && Shows(cfg, h[i])
  {
    hide Shows;
  }

  lemma LowererOrdered(cfg: Config, h: seq<Sample>, j: nat, i: nat)
    requires Lowers(cfg, h, j, i)
    ensures j <= i < |h|
  {
    hide Shows;
  }

  /** The flag, for any settings and any clock: up if and only if some stretch of samples showing a
      dog lasted the enter time, and no stretch showing none that began later has lasted the exit
      time. */
  lemma FlagIffStretch(cfg: Config, h: seq<Sample>, n: nat)
    requires n <= |h|
    ensures Replay(cfg, h, n).present <==> exists j: nat, i: nat :: RaisedAt(cfg, h, n, j, i)
  {
    DebounceExact(cfg, h, n);
    hide Replay, SetAt, RaisedAt;
    if Replay(cfg, h, n).present {
      var i: nat :| SetAt(cfg, h, i, n);
      SetIffRaised(cfg, h, n, i);
    }
    forall j: nat, i: nat | RaisedAt(cfg, h, n, j, i) ensures SetAt(cfg, h, i, n) {
      SetIffRaised(cfg, h, n, i);
    }
  }

  /// ---- The default settings, and a clock that does not run back ----

  predicate DogOnMat(s: Sample) {
    s.forceN >= 25.0 && (s.motion || (s.tofMm.Some? && 50 <= s.tofMm.value <= 900))
  }

  /** At every sample from `j` to `i` the dog was on the mat, and 800 ms passed. */
  predicate StoodLong(h: seq<Sample>, j: nat, i: nat) {
    j <= i < |h| && h[i].tMs - h[j].tMs >= 800 && forall k :: j <= k <= i ==> DogOnMat(h[k])
  }

  /** At no sample from `j` to `i` was the dog on the mat, and 2500 ms passed. */
  predicate GoneLong(h: seq<Sample>, j: nat, i: nat) {
    j <= i < |h| && h[i].tMs - h[j].tMs >= 2500 && forall k :: j <= k <= i ==> !DogOnMat(h[k])
  }

  /** The dog stood on the mat long enough by sample `i`, and has not been gone long since. */
  ghost predicate ThereSince(h: seq<Sample>, n: nat, j: nat, i: nat) {
    i < n && StoodLong(h, j, i) && forall k: nat, l: nat :: i < k && l < n ==> !GoneLong(h, k, l)
  }

  /** By the first `n` samples some stretch on the mat was long enough, and none off it since. */
  ghost predicate StillThere(h: seq<Sample>, n: nat) {
    exists j: nat, i: nat :: ThereSince(h, n, j, i)
  }

  const DEFAULTS := Config(25.0, 50, 900, 800, 2500)

  lemma {:induction false} Reaches(cfg: Config, h: seq<Sample>, j: nat, i: nat, dog: bool) returns (k: nat)
    requires Steady(cfg, h, j, i, dog)
    ensures k <= j && Stretch(cfg, h, k, i, dog)
    decreases j
  {
    hide Shows;
    if j > 0 && Shows(cfg, h[j - 1]) == dog {
      k := Reaches(cfg, h, j - 1, i, dog);
    } else {
      k := j;
    }
  }

  lemma ShowsIsOnMat(s: Sample)
    ensures Shows(DEFAULTS, s) <==> DogOnMat(s)
  {}

  lemma RaisesIff(h: seq<Sample>, i: nat)
    requires Clocked(h)
    ensures (exists j: nat :: Raises(DEFAULTS, h, j, i)) <==> exists j: nat :: StoodLong(h, j, i)
  {
    forall s ensures Shows(DEFAULTS, s) <==> DogOnMat(s) { ShowsIsOnMat(s); }
    hide Shows, DogOnMat;
    forall j: nat | Raises(DEFAULTS, h, j, i) ensures StoodLong(h, j, i) {}
    forall j: nat | StoodLong(h, j, i) ensures exists k: nat :: Raises(DEFAULTS, h, k, i) {
      var k := Reaches(DEFAULTS, h, j, i, true);
      assert h[k].tMs <= h[j].tMs;
      assert Raises(DEFAULTS, h, k, i);
    }
  }

  lemma LowersIff(h: seq<Sample>, i: nat, l: nat)
    requires Clocked(h) && i < |h| && DogOnMat(h[i])
    ensures (exists k: nat :: i < k && Lowers(DEFAULTS, h, k, l)) <==> exists k: nat :: i < k && GoneLong(h, k, l)
  {
    forall s ensures Shows(DEFAULTS, s) <==> DogOnMat(s) { ShowsIsOnMat(s); }
    hide Shows, DogOnMat;
    forall k: nat | i < k && Lowers(DEFAULTS, h, k, l) ensures GoneLong(h, k, l) {}
    forall k: nat | i < k && GoneLong(h, k, l) ensures exists m: nat :: i < m && Lowers(DEFAULTS, h, m, l) {
      var m := Reaches(DEFAULTS, h, k, l, false);
      assert h[m].tMs <= h[k].tMs;
      assert Lowers(DEFAULTS, h, m, l);
    }
  }

  lemma NeverLowered(h: seq<Sample>, n: nat, i: nat)
    requires Clocked(h) && i < |h| && DogOnMat(h[i])
    ensures (forall k: nat, l: nat :: i < k && l < n ==> !Lowers(DEFAULTS, h, k, l)) <==>
            forall k: nat, l: nat :: i < k && l < n ==> !GoneLong(h, k, l)
  {
    hide Lowers, GoneLong, DogOnMat, Clocked;
    forall k: nat, l: nat | i < k && l < n && Lowers(DEFAULTS, h, k, l)
      ensures exists m: nat :: i < m && GoneLong(h, m, l)
    {
      LowersIff(h, i, l);
    }
    forall k: nat, l: nat | i < k && l < n && GoneLong(h, k, l)
      ensures exists m: nat :: i < m && Lowers(DEFAULTS, h, m, l)
    {
      LowersIff(h, i, l);
    }
  }

  lemma RaisedIffThere(h: seq<Sample>, n: nat, i: nat)
    requires Clocked(h) && n <= |h|
    ensures (exists j: nat :: RaisedAt(DEFAULTS, h, n, j, i)) <==> exists j: nat :: ThereSince(h, n, j, i)
  {
    RaisesIff(h, i);
    hide Raises, Lowers, StoodLong, GoneLong, DogOnMat, Clocked;
    if i < n && exists j: nat :: StoodLong(h, j, i) {
      OnMatAt(h, i);
      NeverLowered(h, n, i);
      var j: nat :| Raises(DEFAULTS, h, j, i);
      var m: nat :| StoodLong(h, m, i);
      assert RaisedAt(DEFAULTS, h, n, j, i) <==> ThereSince(h, n, m, i);
    }
  }

  lemma OnMatAt(h: seq<Sample>, i: nat)
    requires exists j: nat :: StoodLong(h, j, i)
    ensures i < |h| && DogOnMat(h[i])
  {
    hide DogOnMat;
  }

  /** With the default settings and a clock that does not run back, the flag is up if and only if, at
      some samples 800 ms apart and all between them, the mat felt 25 N and the dog moved or stood 50
      to 900 mm away, and at no later samples 2500 ms apart was this so of none. */
  lemma DefaultPresence(h: seq<Sample>, n: nat)
    requires Clocked(h) && n <= |h|
    ensures Replay(DEFAULT_CONFIG, h, n).present <==> StillThere(h, n)
  {
    FlagIffStretch(DEFAULTS, h, n);
    hide Replay, RaisedAt, ThereSince, Clocked;
    forall j: nat, i: nat | RaisedAt(DEFAULTS, h, n, j, i) ensures exists m: nat :: ThereSince(h, n, m, i) {
      RaisedIffThere(h, n, i);
    }
    forall j: nat, i: nat | ThereSince(h, n, j, i) ensures exists m: nat :: RaisedAt(DEFAULTS, h, n, m, i) {
      RaisedIffThere(h, n, i);
    }
  }
}

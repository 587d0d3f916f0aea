/** Welfare rules as code (crates/policy/src/lib.rs). */
module Policy {
  import opened Base
  import opened Protocol

  datatype DogPolicy = DogPolicy(dogId: DogId, timezone: string, sleepStartMin: U16, sleepEndMin: U16,
                                 utcOffsetMin: int, emergencyStop: bool, socialDisabled: bool,
                                 maxInvitesPerHour: nat, maxSessionSec: nat, segmentSec: nat)

  function DefaultFor(dog: DogId): DogPolicy {
    DogPolicy(dog, "UTC", 22 * 60, 7 * 60, 0, false, false, 12, 15 * 60, 5 * 60)
  }

  const DAY_MIN := 24 * 60

  /** The offset that counts: a day or more either way is taken as none. */
  function EffectiveOffset(p: DogPolicy): int { if -DAY_MIN < p.utcOffsetMin < DAY_MIN then p.utcOffsetMin else 0 }

  /** Local minutes since midnight. */
  function LocalMinutes(p: DogPolicy, now: Time): nat {
    (now / 60_000 + EffectiveOffset(p)) % DAY_MIN
  }

  predicate InSleep(p: DogPolicy, now: Time) {
    var m := LocalMinutes(p, now);
    if p.sleepStartMin == p.sleepEndMin then false
    else if p.sleepStartMin < p.sleepEndMin then p.sleepStartMin <= m < p.sleepEndMin
    else m >= p.sleepStartMin || m < p.sleepEndMin
  }

  /** The wrap-aware window is the arc of the day's circle from start to end: walking forward from
      the start one meets the current minute before the end. A steward may also store minutes past
      the end of the day. The window then does not wrap: it runs from the start until midnight, so
      is empty if the start is past the day too; or, with the end before the start, from midnight
      until the end, so is the whole day if the end is past it. */
  lemma SleepIsArc(p: DogPolicy, now: Time)
    ensures var m, s, e := LocalMinutes(p, now), p.sleepStartMin, p.sleepEndMin;
            InSleep(p, now) <==>
            if s < DAY_MIN && e < DAY_MIN then (m - s) % DAY_MIN < (e - s) % DAY_MIN
            else (s < e && s <= m) || (e < s && m < e)
  {}

  /** Sleep follows the local day: an offset east is the same window on a clock that far ahead, and
      it recurs every day. */
  lemma SleepFollowsLocalDay(p: DogPolicy, now: Time, days: int)
    ensures InSleep(p, now) <==> InSleep(p.(utcOffsetMin := 0), now + EffectiveOffset(p) * 60_000)
    ensures InSleep(p, now) <==> InSleep(p, now + days * DAY_MIN * 60_000)
  {
    assert (now + EffectiveOffset(p) * 60_000) / 60_000 == now / 60_000 + EffectiveOffset(p);
    assert (now + days * DAY_MIN * 60_000) / 60_000 == now / 60_000 + days * DAY_MIN;
  }

  datatype PolicyDeny = EmergencyStop | SocialDisabled | Sleep | RateLimit

  /** May this dog initiate or accept contact now? The first rule that denies, if any. */
  function SocialDenied(p: DogPolicy, now: Time): Option<PolicyDeny> {
    if p.emergencyStop then Some(EmergencyStop)
    else if p.socialDisabled then Some(SocialDisabled)
    else if InSleep(p, now) then Some(Sleep)
    else None
  }

  function Least(a: int, b: int): int { if a < b then a else b }

  /** The night that starts on a given local day lasts from `NightFrom` until `NightTo`, in minutes
      of local time since the epoch: until the end minute of that day, or of the next day if the
      end is not after the start. Stored minutes past the day count as its last midnight. */
  function NightFrom(p: DogPolicy, day: int): int { day * 1440 + Least(p.sleepStartMin, 1440) }

  function NightTo(p: DogPolicy, day: int): int {
    (if p.sleepStartMin < p.sleepEndMin then day else day + 1) * 1440 + Least(p.sleepEndMin, 1440)
  }

  predicate InNight(p: DogPolicy, day: int, now: Time) {
    var local := now + (if -1440 < p.utcOffsetMin < 1440 then p.utcOffsetMin else 0) * 60_000;
    NightFrom(p, day) * 60_000 <= local < NightTo(p, day) * 60_000
  }

  /** Some night covers this moment. A start equal to the end means no nights at all. */
  ghost predicate Asleep(p: DogPolicy, now: Time) {
    p.sleepStartMin != p.sleepEndMin && exists day: int :: InNight(p, day, now)
  }

  lemma NightOf(p: DogPolicy, now: Time, day: int)
    requires p.sleepStartMin != p.sleepEndMin && InNight(p, day, now)
    ensures InSleep(p, now)
  {
    assert now / 60_000 + EffectiveOffset(p) == (now + EffectiveOffset(p) * 60_000) / 60_000;
    var t := now / 60_000 + EffectiveOffset(p);
    assert NightFrom(p, day) <= t < NightTo(p, day);
    var d := t / DAY_MIN;
    assert d == day || d == day + 1;
  }

  lemma AsleepIff(p: DogPolicy, now: Time)
    ensures InSleep(p, now) <==> Asleep(p, now)
  {
    if Asleep(p, now) {
      var day: int :| InNight(p, day, now);
      NightOf(p, now, day);
    }
    if InSleep(p, now) {
      var t := now / 60_000 + EffectiveOffset(p);
      assert t == (now + EffectiveOffset(p) * 60_000) / 60_000;
      var d := t / DAY_MIN;
      assert InNight(p, d, now) || InNight(p, d - 1, now);
    }
  }

  /** May the dog meet others now: not stopped, not disabled by the steward, and awake. */
  ghost predicate Sociable(p: DogPolicy, now: Time) {
    !p.emergencyStop && !p.socialDisabled && !Asleep(p, now)
  }

  /** The rule that denies the dog now, in the order of precedence. */
  ghost predicate Denies(p: DogPolicy, now: Time, rule: PolicyDeny) {
    match rule
    case EmergencyStop => p.emergencyStop
    case SocialDisabled => p.socialDisabled && !p.emergencyStop
    case Sleep => Asleep(p, now) && !p.emergencyStop && !p.socialDisabled
    case RateLimit => false
  }

  /** An emergency stop denies before everything, then the steward's social flag, then a night that
      covers this moment; and nothing else denies. */
  lemma DeniedIff(p: DogPolicy, now: Time)
    ensures forall rule :: SocialDenied(p, now) == Some(rule) <==> Denies(p, now, rule)
    ensures SocialDenied(p, now).None? <==> Sociable(p, now)
  {
    AsleepIff(p, now);
    hide InSleep, Asleep;
  }

  /** A dog whose policy nobody has touched sleeps from ten in the evening until seven in the morning,
      UTC, and is otherwise free to meet. */
  lemma UntouchedNight(dog: DogId, now: Time)
    ensures Sociable(DefaultFor(dog), now) <==> 7 * 3_600_000 <= now % 86_400_000 < 22 * 3_600_000
  {
    DeniedIff(DefaultFor(dog), now);
    hide Asleep, Sociable;
  }

  predicate InviteRateOk(sentInWindow: nat, maxPerHour: nat) { sentInWindow < maxPerHour }

  /** Age in whole seconds, cast to unsigned, against the limit. */
  predicate PastMax(startedAt: Time, maxSec: nat, now: Time) {
    AsU64(NumSeconds(now - startedAt)) >= maxSec
  }

  /** With a clock that has not run backwards the cast is harmless and the limit is exact. */
  lemma PastMaxIff(startedAt: Time, maxSec: nat, now: Time)
    requires startedAt <= now
    ensures PastMax(startedAt, maxSec, now) <==> now - startedAt >= maxSec * 1000
  {}

  /** Extend the soft segment, never past the hard end. */
  function ExtendSegment(now: Time, segmentSec: nat, maxEnd: Time): Time {
    var next := now + segmentSec * 1000;
    if next > maxEnd then maxEnd else next
  }
}

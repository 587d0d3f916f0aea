/** What requests amount to over a run: each dog's policy and each bond is what the steward last
    asked for, and each dog's presence what its newest report said
    (services/device-api/src/main.rs:747-900, crates/bond/src/lib.rs:25-42). */
module Settings {
  import opened Base
  import opened Protocol
  import opened Policy
  import opened Bond
  import opened Memory
  import opened Sqlite
  import opened DeviceApi
  import opened Runs
  import opened Consent
  import opened Convergence

  /// ---- Policies ----

  datatype Knob =
    | NightStart | NightEnd | HoursEast | SessionLimit | SegmentLength | HourlyLimit | StopFlag | SocialFlag

  datatype Setting = Number(value: int) | Flag(on: bool)

  /** How a knob of this policy is set. */
  function Reading(p: DogPolicy, k: Knob): Setting {
    match k
    case NightStart => Number(p.sleepStartMin)
    case NightEnd => Number(p.sleepEndMin)
    case HoursEast => Number(p.utcOffsetMin)
    case SessionLimit => Number(p.maxSessionSec)
    case SegmentLength => Number(p.segmentSec)
    case HourlyLimit => Number(p.maxInvitesPerHour)
    case StopFlag => Flag(p.emergencyStop)
    case SocialFlag => Flag(p.socialDisabled)
  }

  /** A night from ten to seven, UTC, fifteen minutes in segments of five, twelve invites an hour. */
  function AsDelivered(k: Knob): Setting {
    match k
    case NightStart => Number(1320)
    case NightEnd => Number(420)
    case HoursEast => Number(0)
    case SessionLimit => Number(900)
    case SegmentLength => Number(300)
    case HourlyLimit => Number(12)
    case StopFlag => Flag(false)
    case SocialFlag => Flag(false)
  }

  function AsNumber(x: Option<int>): Option<Setting> { if x.Some? then Some(Number(x.value)) else None }

  /** The setting of a dog's knob that the step asks for, if it does. */
  function Asked(e: Event, d: DogId, k: Knob): Option<Setting> {
    match e
    case Estop(dog, on) => if dog == d && k == StopFlag then Some(Flag(on)) else None
    case Social(dog, on) => if dog == d && k == SocialFlag then Some(Flag(on)) else None
    case Amend(dog, c) =>
      if dog != d then None
      else
        (match k
         case NightStart => AsNumber(c.sleepStartMin)
         case NightEnd => AsNumber(c.sleepEndMin)
         case HoursEast => AsNumber(c.utcOffsetMin)
         case SessionLimit => AsNumber(c.maxSessionSec)
         case SegmentLength => AsNumber(c.segmentSec)
         case HourlyLimit => AsNumber(c.maxInvitesPerHour)
         case _ => None)
    case _ => None
  }

  lemma AskedStep(w: World, e: Event, d: DogId, k: Knob)
    requires WorldOk(w)
    ensures Reading(PolicyFor(Next(w, e).app.policies, d), k) ==
            if Asked(e, d, k).Some? then Asked(e, d, k).value else Reading(PolicyFor(w.app.policies, d), k)
  {
    hide *;
    if e.Estop? || e.Social? || e.Amend? {
      KeyedPolicies(w);
      StewardStep(w.app, e, d, k);
      PoliciesKept(w, e);
    } else {
      PoliciesKept(w, e);
      NobodyAsks(e, d, k);
    }
  }

  lemma NobodyAsks(e: Event, d: DogId, k: Knob)
    requires !(e.Estop? || e.Social? || e.Amend?)
    ensures Asked(e, d, k).None?
  {}

  lemma PoliciesKept(w: World, e: Event)
    ensures Next(w, e).app == After(w.app, e)
    ensures !(e.Estop? || e.Social? || e.Amend?) ==> Next(w, e).app.policies == w.app.policies
  {
    if e.Create? {
      CreateShape(w.app, e);
    }
    if e.Accept? {
      AcceptShape(w.app, e);
    }
    hide InvitesExpired, InviteCreated, InviteAccepted, RowOf, ExtendSegment, PolicyFor, PolicySet, Upserted,
         Bootstrapped, MediaSet, TickSet;
  }

  lemma KeyedPolicies(w: World)
    requires WorldOk(w)
    ensures KeyedByDog(w.app.policies)
  {
    hide InvitesOk, SessionsOk, KeyedByDog;
  }

  /** The policy a steward's request leaves the dog with. */
  function Steered(p: DogPolicy, e: Event): DogPolicy
    requires e.Estop? || e.Social? || e.Amend?
  {
    match e
    case Estop(_, on) => p.(emergencyStop := on)
    case Social(_, on) => p.(socialDisabled := on)
    case Amend(_, c) => Changed(p, c)
  }

  lemma SteeredReads(p: DogPolicy, e: Event, k: Knob)
    requires e.Estop? || e.Social? || e.Amend?
    ensures Steered(p, e).dogId == p.dogId
    ensures Reading(Steered(p, e), k) ==
            if Asked(e, e.dog, k).Some? then Asked(e, e.dog, k).value else Reading(p, k)
  {}

  lemma SteeredIs(a: App, e: Event)
    requires e.Estop? || e.Social? || e.Amend?
    ensures After(a, e).policies == PolicySet(a.policies, Steered(PolicyFor(a.policies, e.dog), e))
  {
    hide PolicySet, PolicyFor, SessionEnded, SessionForDog, Changed;
  }

  lemma StewardStep(a: App, e: Event, d: DogId, k: Knob)
    requires (e.Estop? || e.Social? || e.Amend?) && KeyedByDog(a.policies)
    ensures Reading(PolicyFor(After(a, e).policies, d), k) ==
            if Asked(e, d, k).Some? then Asked(e, d, k).value else Reading(PolicyFor(a.policies, d), k)
  {
    var p := PolicyFor(a.policies, e.dog);
    assert p.dogId == e.dog;
    hide *;
    SteeredIs(a, e);
    SteeredReads(p, e, k);
    PolicySetReads(a.policies, Steered(p, e), d);
    AsksOne(e, d, k);
  }

  lemma AsksOne(e: Event, d: DogId, k: Knob)
    ensures Asked(e, d, k).Some? ==> (e.Estop? || e.Social? || e.Amend?) && e.dog == d
  {}

  /** Step `j` is the last before `n` that asks for a setting of this dog's knob. */
  predicate LastAsked(es: seq<Event>, j: nat, n: nat, d: DogId, k: Knob)
    requires n <= |es|
  {
    j < n && Asked(es[j], d, k).Some? && forall i :: j < i < n ==> Asked(es[i], d, k).None?
  }

  predicate NeverAsked(es: seq<Event>, n: nat, d: DogId, k: Knob)
    requires n <= |es|
  {
    forall i :: 0 <= i < n ==> Asked(es[i], d, k).None?
  }

  lemma AskedMore(es: seq<Event>, j: nat, n: nat, d: DogId, k: Knob)
    requires n < |es|
    ensures Asked(es[n], d, k).Some? ==> LastAsked(es, n, n + 1, d, k) && !NeverAsked(es, n + 1, d, k)
    ensures Asked(es[n], d, k).None? ==>
              (NeverAsked(es, n, d, k) ==> NeverAsked(es, n + 1, d, k)) &&
              (LastAsked(es, j, n, d, k) ==> LastAsked(es, j, n + 1, d, k) && !NeverAsked(es, n + 1, d, k))
  {
    hide Asked;
  }

  /** Each knob of each dog's policy, in every reachable state, is set as the steward last asked, or as
      delivered if it never was asked for: nothing else moves it. Returns the step that asked. */
  lemma {:induction false} PolicyIsLastAsked(ws: seq<World>, es: seq<Event>, n: nat, d: DogId, k: Knob)
    returns (j: nat)
    requires Run(ws, es) && n <= |es|
    ensures NeverAsked(es, n, d, k) || LastAsked(es, j, n, d, k)
    ensures Reading(PolicyFor(ws[n].app.policies, d), k) ==
            if NeverAsked(es, n, d, k) then AsDelivered(k) else Asked(es[j], d, k).value
    decreases n
  {
    hide *;
    j := 0;
    if n == 0 {
      Untouched(ws, es, d, k);
    } else {
      LinkedAt(ws, es, n - 1);
      RunKeeps(ws, es, n - 1);
      AskedStep(ws[n - 1], es[n - 1], d, k);
      j := PolicyIsLastAsked(ws, es, n - 1, d, k);
      AskedMore(es, j, n - 1, d, k);
      if Asked(es[n - 1], d, k).Some? {
        j := n - 1;
      }
    }
  }

  lemma Untouched(ws: seq<World>, es: seq<Event>, d: DogId, k: Knob)
    requires Run(ws, es)
    ensures Reading(PolicyFor(ws[0].app.policies, d), k) == AsDelivered(k) && NeverAsked(es, 0, d, k)
  {
    hide Linked;
  }

  /// ---- Bonds ----

  predicate Pairs(e: Event, a: DogId, b: DogId) {
    e.BondPair? && ((e.a == a && e.b == b) || (e.a == b && e.b == a))
  }

  predicate LastPaired(es: seq<Event>, j: nat, n: nat, a: DogId, b: DogId)
    requires n <= |es|
  {
    j < n && Pairs(es[j], a, b) && forall i :: j < i < n ==> !Pairs(es[i], a, b)
  }

  predicate NeverPaired(es: seq<Event>, n: nat, a: DogId, b: DogId)
    requires n <= |es|
  {
    forall i :: 0 <= i < n ==> !Pairs(es[i], a, b)
  }

  /** The weight a bond is given: the one asked for, but no less than 0.3 and no more than 1. */
  function Bounded(w: real): real { if w > 1.0 then 1.0 else if w > 0.3 then w else 0.3 }

  lemma PairStep(w: World, e: Event, a: DogId, b: DogId)
    ensures Weight(Next(w, e).app.bonds, a, b) ==
            if Pairs(e, a, b) then Bounded(e.weight) else Weight(w.app.bonds, a, b)
  {
    BondStep(w, e);
    hide Next;
  }

  /** Two dogs are bonded, in every reachable state, if and only if the steward ever paired them, and
      then equally strongly both ways, as the last pairing asked. Returns that pairing. */
  lemma {:induction false} BondIsLastPairing(ws: seq<World>, es: seq<Event>, n: nat, a: DogId, b: DogId)
    returns (j: nat)
    requires Run(ws, es) && n <= |es|
    ensures NeverPaired(es, n, a, b) || LastPaired(es, j, n, a, b)
    ensures MutualEligible(ws[n].app.bonds, a, b) <==> !NeverPaired(es, n, a, b)
    ensures Weight(ws[n].app.bonds, a, b) == Weight(ws[n].app.bonds, b, a) ==
            if NeverPaired(es, n, a, b) then 0.0 else Bounded(es[j].weight)
    decreases n
  {
    j := 0;
    if n == 0 {
      hide Linked;
    } else {
      hide Run, Enabled, Next, Weight;
      LinkedAt(ws, es, n - 1);
      PairStep(ws[n - 1], es[n - 1], a, b);
      PairStep(ws[n - 1], es[n - 1], b, a);
      j := BondIsLastPairing(ws, es, n - 1, a, b);
      if Pairs(es[n - 1], a, b) {
        j := n - 1;
      }
    }
  }

  /// ---- Presence ----

  /** The presence reports among the first `n` steps. */
  function ReportsIn(es: seq<Event>, n: nat): seq<PresenceReport>
    requires n <= |es|
  {
    if n == 0 then [] else ReportsIn(es, n - 1) + if es[n - 1].Report? then [es[n - 1].report] else []
  }

  lemma PresenceStep(w: World, e: Event)
    ensures Next(w, e).app.presence == if e.Report? then Upserted(w.app.presence, e.report) else w.app.presence
  {
    if e.Create? {
      CreateShape(w.app, e);
    }
    if e.Accept? {
      AcceptShape(w.app, e);
    }
    hide InvitesExpired, InviteCreated, InviteAccepted, RowOf, ExtendSegment, PolicyFor, PolicySet, Upserted,
         Bootstrapped, MediaSet, TickSet;
  }

  lemma DeliveredMore(rs: seq<PresenceReport>, r: PresenceReport)
    ensures Delivered(rs + [r]) == Upserted(Delivered(rs), r)
  {
    assert (rs + [r])[..|rs|] == rs;
  }

  lemma {:induction false} PresenceIsDelivered(ws: seq<World>, es: seq<Event>, n: nat)
    requires Run(ws, es) && n <= |es|
    ensures ws[n].app.presence == Delivered(ReportsIn(es, n))
    decreases n
  {
    if n == 0 {
      hide Linked;
    } else {
      hide Run, Enabled, Next, Upserted, Delivered;
      LinkedAt(ws, es, n - 1);
      PresenceIsDelivered(ws, es, n - 1);
      PresenceStep(ws[n - 1], es[n - 1]);
      if es[n - 1].Report? {
        DeliveredMore(ReportsIn(es, n - 1), es[n - 1].report);
      } else {
        assert ReportsIn(es, n) == ReportsIn(es, n - 1);
      }
    }
  }

  /** In every reachable state a dog counts as present if and only if, of all reports delivered, its
      newest says present and is no older than ten seconds. */
  lemma PresentIffReported(ws: seq<World>, es: seq<Event>, n: nat, d: DogId, now: Time)
    requires Run(ws, es) && n <= |es|
    ensures var rs := ReportsIn(es, n);
            PresentAt(ws[n].app.presence, d, now) <==>
            exists i: nat :: Newest(rs, i) && rs[i].dogId == d && rs[i].present && now - rs[i].ts <= 10_000
  {
    PresenceIsDelivered(ws, es, n);
    var rs := ReportsIn(es, n);
    var i := SeenAsNewest(rs, d, now);
    ListedIffNewest(rs, d, now);
    hide *;
  }
}

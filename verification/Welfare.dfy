/** Welfare limits over all runs: the hourly invite limit, how long a session can live, the soft
    and hard deadlines, and the emergency stop. */
module Welfare {
  import opened Base
  import opened Protocol
  import opened Policy
  import opened Bond
  import opened Session
  import opened Memory
  import opened Sqlite
  import opened DeviceApi
  import opened Runs
  import opened Steps
  import opened Consent

  const HOUR_MS := 3600 * 1000

  /// ---- The rolling rate limit ----

  /** The time of the invite dog `d` created at step `n`, if that is what the step did. */
  ghost function Entry(ws: seq<World>, es: seq<Event>, d: DogId, n: nat): seq<Time>
    requires Run(ws, es) && n < |es|
  {
    if es[n].Create? && es[n].dog == d && CreateReply(ws[n], es[n]).result.Success? then [es[n].now] else []
  }

  /** The times of every invite dog `d` ever created in the first `n` steps: the full history
      that the store prunes. */
  ghost function InvitesBy(ws: seq<World>, es: seq<Event>, d: DogId, n: nat): seq<Time>
    requires Run(ws, es) && n <= |es|
  {
    if n == 0 then [] else InvitesBy(ws, es, d, n - 1) + Entry(ws, es, d, n - 1)
  }

  lemma EntryClock(ws: seq<World>, es: seq<Event>, d: DogId, n: nat)
    requires Run(ws, es) && n < |es|
    ensures forall t :: t in Entry(ws, es, d, n) ==> ws[n].clock <= t <= ws[n + 1].clock
    ensures ws[n].clock <= ws[n + 1].clock
  {
    hide CreateReply, After, IsCandidates;
    assert Linked(ws, es, n);
  }

  lemma {:induction false} RecentTwice(ts: seq<Time>, now: Time, later: Time)
    requires now <= later
    ensures Recent(Recent(ts, now), later) == Recent(ts, later)
    decreases |ts|
  {
    if ts != [] {
      RecentTwice(ts[1..], now, later);
      var rest := Recent(ts[1..], now);
      assert ([ts[0]] + rest)[1..] == rest && [] + rest == rest;
      assert NumSeconds(now - ts[0]) <= NumSeconds(later - ts[0]);
    }
  }

  lemma {:induction false} RecentAppend(ts: seq<Time>, us: seq<Time>, now: Time)
    ensures Recent(ts + us, now) == Recent(ts, now) + Recent(us, now)
    decreases |ts|
  {
    if ts == [] {
      assert ts + us == us;
    } else {
      assert (ts + us)[1..] == ts[1..] + us;
      RecentAppend(ts[1..], us, now);
    }
  }

  /** How one step changes a dog's stored times: only its own creates touch them, forgetting old
      entries and, on success, adding the new one. */
  lemma TimesStep(w: World, e: Event, d: DogId)
    requires WorldOk(w)
    ensures var before, after := TimesOf(w.app.invites, d), TimesOf(Next(w, e).app.invites, d);
            if e.Create? && e.dog == d then
              (CreateReply(w, e).result.Success? ==> after == Recent(before, e.now) + [e.now]) &&
              (CreateReply(w, e).result.Failure? ==> after == before || after == Recent(before, e.now))
            else after == before
  {
    hide WorldOk, InviteCreated, InviteAccepted, SocialDenied, PresentDogs, PresentAt, RouteInvite, PolicySet, TickEnds,
         PolicyFor, Engaged, Free, SessionInserted, RowOf;
    match e
    case Create(_, _, _, _, _, _, _) => CreateShape(w.app, e);
    case Accept(_, _, _, _) => AcceptShape(w.app, e);
    case _ =>
  }

  /** Pruning is invisible: from any state on, the stored list and the full history hold the same
      invites of the last hour. */
  lemma {:induction false} PrunedAgrees(ws: seq<World>, es: seq<Event>, d: DogId, n: nat, now: Time)
    requires Run(ws, es) && n <= |es| && ws[n].clock <= now
    ensures Recent(TimesOf(ws[n].app.invites, d), now) == Recent(InvitesBy(ws, es, d, n), now)
    decreases n
  {
    hide *;
    if n == 0 {
      NothingStored(ws, es, d, now);
    } else {
      LinkedAt(ws, es, n - 1);
      EntryClock(ws, es, d, n - 1);
      PrunedAgrees(ws, es, d, n - 1, now);
      EntryRecorded(ws, es, d, n - 1, now);
      HistoryGrows(ws, es, d, n);
      RecentAppend(InvitesBy(ws, es, d, n - 1), Entry(ws, es, d, n - 1), now);
    }
  }

  lemma NothingStored(ws: seq<World>, es: seq<Event>, d: DogId, now: Time)
    requires Run(ws, es)
    ensures TimesOf(ws[0].app.invites, d) == InvitesBy(ws, es, d, 0) == [] && NotAfter([], ws[0].clock)
  {
    hide Linked;
  }

  lemma HistoryGrows(ws: seq<World>, es: seq<Event>, d: DogId, n: nat)
    requires Run(ws, es) && 0 < n <= |es|
    ensures InvitesBy(ws, es, d, n) == InvitesBy(ws, es, d, n - 1) + Entry(ws, es, d, n - 1)
  {
    hide Run, Entry;
  }

  lemma EntryRecorded(ws: seq<World>, es: seq<Event>, d: DogId, n: nat, now: Time)
    requires Run(ws, es) && n < |es| && ws[n + 1].clock <= now
    ensures Recent(TimesOf(ws[n + 1].app.invites, d), now)
            == Recent(TimesOf(ws[n].app.invites, d), now) + Recent(Entry(ws, es, d, n), now)
  {
    hide WorldOk, CreateReply, After, TimesOf;
    RunKeeps(ws, es, n);
    assert Linked(ws, es, n);
    TimesStep(ws[n], es[n], d);
    var before := TimesOf(ws[n].app.invites, d);
    if es[n].Create? && es[n].dog == d {
      RecentTwice(before, es[n].now, now);
      RecentAppend(Recent(before, es[n].now), [es[n].now], now);
    }
  }

  predicate NotAfter(ts: seq<Time>, t: Time) { forall x :: x in ts ==> x <= t }

  lemma {:induction false} HistoryPast(ws: seq<World>, es: seq<Event>, d: DogId, n: nat)
    requires Run(ws, es) && n <= |es|
    ensures NotAfter(InvitesBy(ws, es, d, n), ws[n].clock)
    decreases n
  {
    hide *;
    if n == 0 {
      NothingStored(ws, es, d, 0);
    } else {
      LinkedAt(ws, es, n - 1);
      HistoryPast(ws, es, d, n - 1);
      EntryClock(ws, es, d, n - 1);
      HistoryGrows(ws, es, d, n);
      AllPast(InvitesBy(ws, es, d, n - 1), Entry(ws, es, d, n - 1), ws[n - 1].clock, ws[n].clock);
    }
  }

  lemma AllPast(ts: seq<Time>, us: seq<Time>, t: Time, u: Time)
    requires NotAfter(ts, t) && t <= u && forall x :: x in us ==> x <= u
    ensures NotAfter(ts + us, u)
  {}

  /** The entries of a list that fall in the hour starting at `lo`. */
  function InHour(ts: seq<Time>, lo: Time): seq<Time> {
    if ts == [] then []
    else (if lo <= ts[0] < lo + HOUR_MS then [ts[0]] else []) + InHour(ts[1..], lo)
  }

  /** How many entries are less than an hour old. */
  function InLastHour(ts: seq<Time>, now: Time): nat { |InHour(ts, now - HOUR_MS + 1)| }

  lemma {:induction false} RecentIsHour(ts: seq<Time>, now: Time)
    requires NotAfter(ts, now)
    ensures Recent(ts, now) == InHour(ts, now - HOUR_MS + 1)
    decreases |ts|
  {
    if ts != [] {
      assert ts[0] in ts;
      assert forall t :: t in ts[1..] ==> t in ts;
      RecentIsHour(ts[1..], now);
    }
  }

  lemma HourCount(ws: seq<World>, es: seq<Event>, d: DogId, n: nat, now: Time)
    requires Run(ws, es) && n <= |es| && ws[n].clock <= now
    ensures |Recent(InvitesBy(ws, es, d, n), now)| == InLastHour(InvitesBy(ws, es, d, n), now)
  {
    HistoryPast(ws, es, d, n);
    RecentIsHour(InvitesBy(ws, es, d, n), now) by { hide Run, InvitesBy; }
    hide Run, InvitesBy, Recent;
  }

  /** The rate check refuses exactly when the full history has reached the limit. */
  lemma RateRefusalExact(ws: seq<World>, es: seq<Event>, n: nat)
    requires Run(ws, es) && n < |es| && es[n].Create?
    ensures var e, pol := es[n], PolicyFor(ws[n].app.policies, es[n].dog);
            CreateReply(ws[n], e).result == Failure(RateLimited) <==>
            Willing(ws[n].app, e.dog, e.now) && InLastHour(InvitesBy(ws, es, e.dog, n), e.now) >= pol.maxInvitesPerHour
  {
    assert Linked(ws, es, n);
    HourCount(ws, es, es[n].dog, n, es[n].now);
    DeniedIff(PolicyFor(ws[n].app.policies, es[n].dog), es[n].now);
    PrunedAgrees(ws, es, es[n].dog, n, es[n].now);
    RateShape(ws[n].app, es[n]);
    hide InviteCreated, PolicyFor, SocialDenied, Sociable, After, Recent, InLastHour;
  }

  lemma RateShape(a: App, e: Event)
    requires e.Create?
    ensures InviteCreated(a, e.dog, e.preferred, e.mode, e.id, e.now, e.stamp, e.cands).result == Failure(RateLimited)
            <==>
            SocialDenied(PolicyFor(a.policies, e.dog), e.now).None? &&
            |Recent(TimesOf(a.invites, e.dog), e.now)| >= PolicyFor(a.policies, e.dog).maxInvitesPerHour
  {
    hide PolicyFor, SocialDenied, RouteInvite, PresentDogs, PresentAt, Engaged, Free, Pruned;
  }

  lemma InHourNil(lo: Time)
    ensures InHour([], lo) == []
  {}

  lemma InHourUncons(ts: seq<Time>, lo: Time)
    requires ts != []
    ensures InHour(ts, lo) == (if lo <= ts[0] < lo + HOUR_MS then [ts[0]] else []) + InHour(ts[1..], lo)
  {}

  lemma {:induction false} InHourAppend(ts: seq<Time>, t: Time, lo: Time)
    ensures InHour(ts + [t], lo) == InHour(ts, lo) + InHour([t], lo)
    decreases |ts|
  {
    hide *;
    if ts == [] {
      assert ts + [t] == [t];
      InHourNil(lo);
    } else {
      var all := ts + [t];
      assert all[1..] == ts[1..] + [t] && all[0] == ts[0];
      InHourUncons(all, lo);
      InHourUncons(ts, lo);
      InHourAppend(ts[1..], t, lo);
    }
  }

  lemma {:induction false} HourIsRecent(ts: seq<Time>, lo: Time, now: Time)
    requires now < lo + HOUR_MS && NotAfter(ts, now)
    ensures |InHour(ts, lo)| <= |Recent(ts, now)|
    decreases |ts|
  {
    if ts != [] {
      assert forall t :: t in ts[1..] ==> t in ts;
      HourIsRecent(ts[1..], lo, now);
      assert ts[0] in ts;
    }
  }

  lemma LimitStep(ts: seq<Time>, now: Time, lo: Time, limit: nat)
    requires |InHour(ts, lo)| <= limit && |Recent(ts, now)| < limit && NotAfter(ts, now)
    ensures |InHour(ts + [now], lo)| <= limit
  {
    InHourAppend(ts, now, lo);
    if lo <= now < lo + HOUR_MS {
      HourIsRecent(ts, lo, now);
    }
  }

  lemma EntryWithinLimit(ws: seq<World>, es: seq<Event>, d: DogId, n: nat)
    requires Run(ws, es) && n < |es| && Entry(ws, es, d, n) != []
    ensures var now := es[n].now;
            Entry(ws, es, d, n) == [now] && NotAfter(InvitesBy(ws, es, d, n), now) &&
            |Recent(InvitesBy(ws, es, d, n), now)| < PolicyFor(ws[n].app.policies, d).maxInvitesPerHour
  {
    hide CreateReply, InvitesBy, Recent, PolicyFor, InLastHour;
    HistoryPast(ws, es, d, n);
    EntryClock(ws, es, d, n);
    assert es[n].now in Entry(ws, es, d, n);
    RateRefusalExact(ws, es, n);
    HourCount(ws, es, d, n, es[n].now) by { LinkedAt(ws, es, n); hide Next; }
    NotDenied(ws[n], es[n]);
  }

  lemma RollingStep(ws: seq<World>, es: seq<Event>, d: DogId, n: nat, limit: nat, lo: Time)
    requires Run(ws, es) && n < |es| && PolicyFor(ws[n].app.policies, d).maxInvitesPerHour <= limit
    requires |InHour(InvitesBy(ws, es, d, n), lo)| <= limit
    ensures |InHour(InvitesBy(ws, es, d, n + 1), lo)| <= limit
  {
    var before := InvitesBy(ws, es, d, n);
    assert InvitesBy(ws, es, d, n + 1) == before + Entry(ws, es, d, n);
    hide *;
    if Entry(ws, es, d, n) == [] {
      assert before + [] == before;
    } else {
      EntryWithinLimit(ws, es, d, n);
      LimitStep(before, es[n].now, lo, limit);
    }
  }

  /** Before each of the first `n` steps the dog's hourly limit was at most `limit`. */
  ghost predicate LimitedTo(ws: seq<World>, es: seq<Event>, n: nat, d: DogId, limit: nat)
    requires Run(ws, es) && n <= |es|
  {
    forall i :: 0 <= i < n ==> PolicyFor(ws[i].app.policies, d).maxInvitesPerHour <= limit
  }

  lemma LimitedStep(ws: seq<World>, es: seq<Event>, n: nat, d: DogId, limit: nat)
    requires Run(ws, es) && 0 < n <= |es| && LimitedTo(ws, es, n, d, limit)
    ensures LimitedTo(ws, es, n - 1, d, limit) && |ws| == |es| + 1
    ensures PolicyFor(ws[n - 1].app.policies, d).maxInvitesPerHour <= limit
  {
    hide Linked, PolicyFor;
  }

  lemma NoInvitesYet(ws: seq<World>, es: seq<Event>, d: DogId, lo: Time)
    requires Run(ws, es)
    ensures InHour(InvitesBy(ws, es, d, 0), lo) == []
  {
    hide Run, Entry;
  }

  /** Rolling rate limit: while a dog's limit stays at most `limit`, no window of 3600 seconds,
      wherever it starts, ever holds more than `limit` invites that dog created. */
  lemma {:induction false} RollingLimit(ws: seq<World>, es: seq<Event>, d: DogId, n: nat, limit: nat, lo: Time)
    requires Run(ws, es) && n <= |es| && LimitedTo(ws, es, n, d, limit)
    ensures |InHour(InvitesBy(ws, es, d, n), lo)| <= limit
    decreases n
  {
    hide *;
    if n == 0 {
      NoInvitesYet(ws, es, d, lo);
    } else {
      LimitedStep(ws, es, n, d, limit);
      RollingLimit(ws, es, d, n - 1, limit, lo);
      RollingStep(ws, es, d, n - 1, limit, lo);
    }
  }

  lemma NotDenied(w: World, e: Event)
    requires e.Create? && CreateReply(w, e).result.Success?
    ensures Willing(w.app, e.dog, e.now)
  {
    CreateShape(w.app, e);
    DeniedIff(PolicyFor(w.app.policies, e.dog), e.now);
    hide InviteCreated, Sociable;
  }

  /// ---- Session lifetime ----

  /** What survives a tick: exactly the sessions younger than the caller's limit, not Active past
      their segment deadline, and with neither dog stopped. */
  lemma TickSurvivors(w: World, now: Time, sid: SessionId)
    requires sid in w.app.sessions.byId && w.app.sessions.byId[sid].startedAt <= now
    ensures var s, p := w.app.sessions.byId[sid], w.app.policies;
            sid in Next(w, Tick(now)).app.sessions.byId <==>
            && now - s.startedAt < PolicyFor(p, s.dogA).maxSessionSec * 1000
            && (s.state == Active ==> now < s.segmentDeadlineAt)
            && !PolicyFor(p, s.dogA).emergencyStop && !PolicyFor(p, s.dogB).emergencyStop
  {
    var s := w.app.sessions.byId[sid];
    PastMaxIff(s.startedAt, PolicyFor(w.app.policies, s.dogA).maxSessionSec, now);
    hide InvitesExpired, PastMax, PolicyFor;
  }

  lemma StartedBefore(ws: seq<World>, es: seq<Event>, n: nat, sid: SessionId)
    requires Run(ws, es) && n <= |es| && sid in ws[n].app.sessions.byId
    ensures ws[n].app.sessions.byId[sid].startedAt <= ws[n].clock && ws[n].lastTick <= ws[n].clock
  {
    var j, i := ConsentProvenance(ws, es, n, sid);
    assert Linked(ws, es, i);
    ClockMonotone(ws, es, i + 1, n);
    TickBefore(ws, es, n);
    hide WorldOk, After, PresentAt, Enabled;
  }

  lemma {:induction false} TickBefore(ws: seq<World>, es: seq<Event>, n: nat)
    requires Run(ws, es) && n <= |es|
    ensures ws[n].lastTick <= ws[n].clock
    decreases n
  {
    if n > 0 {
      TickBefore(ws, es, n - 1);
      assert Linked(ws, es, n - 1);
      hide After;
    }
  }

  /** No tick among the first `n` steps found the dog's limit above `maxSec`. */
  ghost predicate CappedAtTicks(ws: seq<World>, es: seq<Event>, n: nat, d: DogId, maxSec: nat)
    requires Run(ws, es) && n <= |es|
  {
    forall i :: 0 <= i < n && es[i].Tick? ==> PolicyFor(ws[i].app.policies, d).maxSessionSec <= maxSec
  }

  /** A session older than the last tick was within its caller's limit at that tick. */
  lemma {:induction false} YoungAtLastTick(ws: seq<World>, es: seq<Event>, n: nat, sid: SessionId, maxSec: nat)
    requires Run(ws, es) && n <= |es| && sid in ws[n].app.sessions.byId
    requires CappedAtTicks(ws, es, n, ws[n].app.sessions.byId[sid].dogA, maxSec)
    ensures ws[n].lastTick <= ws[n].app.sessions.byId[sid].startedAt ||
            ws[n].lastTick - ws[n].app.sessions.byId[sid].startedAt < maxSec * 1000
    decreases n
  {
    hide WorldOk, After, Enabled, AcceptReply, PolicyFor;
    assert n > 0;
    var w, e := ws[n - 1], es[n - 1];
    assert Linked(ws, es, n - 1);
    RunKeeps(ws, es, n - 1);
    SessionStep(w, e, sid);
    TickBefore(ws, es, n - 1);
    TickClock(w, e);
    if sid in w.app.sessions.byId && SameSession(ws[n].app.sessions.byId[sid], w.app.sessions.byId[sid]) {
      YoungAtLastTick(ws, es, n - 1, sid, maxSec);
      if e.Tick? {
        StartedBefore(ws, es, n - 1, sid);
        TickSurvivors(w, e.now, sid);
      }
    } else {
      BornFacts(ws, es, n - 1);
    }
  }

  lemma TickClock(w: World, e: Event)
    requires Enabled(w, e)
    ensures e.Tick? || e.Accept? ==> w.clock <= e.now
    ensures Next(w, e).lastTick == if e.Tick? then e.now else w.lastTick
  {
    hide After;
  }

  /** Lifetime bound: if the caller's limit was never above `maxSec` seconds at a tick, and a tick
      has run within the last `gap` milliseconds, no session in any reachable state is as old as
      the limit plus the gap, whatever Again, media and steward requests occur. */
  lemma LifetimeBound(ws: seq<World>, es: seq<Event>, n: nat, sid: SessionId, maxSec: nat, gap: nat)
    requires Run(ws, es) && n <= |es| && sid in ws[n].app.sessions.byId && maxSec > 0
    requires CappedAtTicks(ws, es, n, ws[n].app.sessions.byId[sid].dogA, maxSec)
    requires ws[n].clock - ws[n].lastTick <= gap
    ensures ws[n].clock - ws[n].app.sessions.byId[sid].startedAt < maxSec * 1000 + gap
  {
    YoungAtLastTick(ws, es, n, sid, maxSec);
  }

  /// ---- The soft deadline and the hard end ----

  /** A press of Again by a party of the session. */
  predicate Extends(e: Event, s: SessionRecord) { e.Again? && e.sid == s.id && Party(s, e.dog) }

  /** A step moves a session's segment deadline only by such a press, and then never past the
      hard end. */
  lemma DeadlineStep(w: World, e: Event, sid: SessionId)
    requires WorldOk(w) && Enabled(w, e)
    requires sid in w.app.sessions.byId && sid in Next(w, e).app.sessions.byId
    ensures var s, t := w.app.sessions.byId[sid], Next(w, e).app.sessions.byId[sid];
            if Extends(e, s) then t.segmentDeadlineAt <= s.maxEndAt else t.segmentDeadlineAt == s.segmentDeadlineAt
  {
    if e.Again? {
      AgainDeadline(w, e, sid);
    } else {
      OtherDeadlines(w, e, sid);
    }
    hide *;
  }

  lemma OtherDeadlines(w: World, e: Event, sid: SessionId)
    requires WorldOk(w) && Enabled(w, e) && !e.Again?
    requires sid in w.app.sessions.byId && sid in Next(w, e).app.sessions.byId
    ensures var s, t := w.app.sessions.byId[sid], Next(w, e).app.sessions.byId[sid];
            t.segmentDeadlineAt == s.segmentDeadlineAt && !Extends(e, s)
  {
    hide InvitesOk, SessionsOk, InviteCreated, InviteAccepted, TickEnds, InvitesExpired, PolicyFor, RowOf, InviteClosed,
         PolicySet, IsCandidates;
    match e
    case Create(_, _, _, _, _, _, _) => CreateLeavesSessions(w, e);
    case Accept(_, _, _, _) => AcceptSessions(w, e); FreshSession(w, e);
    case _ =>
  }

  lemma AgainDeadline(w: World, e: Event, sid: SessionId)
    requires WorldOk(w) && e.Again?
    requires sid in w.app.sessions.byId && sid in Next(w, e).app.sessions.byId
    ensures var s, t := w.app.sessions.byId[sid], Next(w, e).app.sessions.byId[sid];
            if Extends(e, s) then t.segmentDeadlineAt <= s.maxEndAt else t.segmentDeadlineAt == s.segmentDeadlineAt
  {
    hide InvitesOk, PolicyFor, RowOf;
    IdsMatch(w, sid);
    hide WorldOk;
  }

  /** A press of Again can bring the deadline forward: it postpones it, or leaves it, exactly when
      the old deadline is no later than the presser's new segment and the hard end. */
  lemma AgainPostponesIff(w: World, e: Event, sid: SessionId)
    requires WorldOk(w) && sid in w.app.sessions.byId && Extends(e, w.app.sessions.byId[sid])
    ensures var s := w.app.sessions.byId[sid];
            sid in Next(w, e).app.sessions.byId &&
            (Next(w, e).app.sessions.byId[sid].segmentDeadlineAt >= s.segmentDeadlineAt <==>
             s.segmentDeadlineAt <= e.now + PolicyFor(w.app.policies, e.dog).segmentSec * 1000 &&
             s.segmentDeadlineAt <= s.maxEndAt)
  {
    IdsMatch(w, sid);
    hide WorldOk, PolicyFor, RowOf;
  }

  lemma FreshSession(w: World, e: Event)
    requires WorldOk(w) && Enabled(w, e) && e.Accept?
    ensures e.sid !in w.app.sessions.byId
  {}

  /** The deadlines a session starts with are in order exactly when the accepting dog's segment
      is no longer than its maximum. */
  lemma BirthDeadlines(ws: seq<World>, es: seq<Event>, i: nat)
    requires Run(ws, es) && i < |es| && es[i].Accept? && AcceptReply(ws[i], es[i]).result.Success?
    ensures var s, pol := AcceptReply(ws[i], es[i]).result.value, PolicyFor(ws[i].app.policies, es[i].dog);
            s.segmentDeadlineAt <= s.maxEndAt <==> pol.segmentSec <= pol.maxSessionSec
  {
    BornFacts(ws, es, i);
    hide WorldOk, InviteAccepted, PolicyFor;
  }

  /** Some step after `i` and before `n` was a press of Again by a party of the session. */
  predicate ExtendedSince(es: seq<Event>, i: nat, n: nat, s: SessionRecord)
    requires n <= |es|
  {
    exists k :: i < k < n && Extends(es[k], s)
  }

  lemma ExtendedMore(es: seq<Event>, i: nat, n: nat, s: SessionRecord)
    requires i < n < |es|
    ensures ExtendedSince(es, i, n + 1, s) <==> ExtendedSince(es, i, n, s) || Extends(es[n], s)
  {
    hide Extends;
    if ExtendedSince(es, i, n, s) {
      var k :| i < k < n && Extends(es[k], s);
      assert i < k < n + 1 && Extends(es[k], s);
    }
  }

  lemma SameExtensions(es: seq<Event>, i: nat, n: nat, s: SessionRecord, t: SessionRecord)
    requires n <= |es| && SameSession(s, t)
    ensures ExtendedSince(es, i, n, s) <==> ExtendedSince(es, i, n, t)
    ensures n < |es| ==> (Extends(es[n], s) <==> Extends(es[n], t))
  {
    assert forall e :: Extends(e, s) <==> Extends(e, t);
    hide Extends;
  }

  /** When the segment deadline lies within the hard end, whatever policies are edited later: if
      and only if the accepting dog's policy had its segment within its maximum when it
      accepted, or a party has pressed Again since. Returns the step of that accept. */
  lemma {:induction false} DeadlineWithinEndIff(ws: seq<World>, es: seq<Event>, n: nat, sid: SessionId) returns (i: nat)
    requires Run(ws, es) && n <= |es| && sid in ws[n].app.sessions.byId
    ensures i < n && es[i].Accept? && es[i].sid == sid && AcceptReply(ws[i], es[i]).result.Success?
    ensures var s, pol := ws[n].app.sessions.byId[sid], PolicyFor(ws[i].app.policies, es[i].dog);
            s.segmentDeadlineAt <= s.maxEndAt <==> pol.segmentSec <= pol.maxSessionSec || ExtendedSince(es, i, n, s)
    decreases n
  {
    hide WorldOk, After, Enabled, AcceptReply, PolicyFor, Extends, ExtendedSince;
    assert n > 0;
    var w, e, s := ws[n - 1], es[n - 1], ws[n].app.sessions.byId[sid];
    assert Linked(ws, es, n - 1);
    RunKeeps(ws, es, n - 1);
    SessionStep(w, e, sid);
    if sid in w.app.sessions.byId && SameSession(s, w.app.sessions.byId[sid]) {
      i := DeadlineWithinEndIff(ws, es, n - 1, sid);
      DeadlineStep(w, e, sid);
      SameExtensions(es, i, n - 1, s, w.app.sessions.byId[sid]);
      ExtendedMore(es, i, n - 1, s);
    } else {
      i := n - 1;
      BirthDeadlines(ws, es, i);
      NoRoom(es, i, s);
    }
  }

  lemma NoRoom(es: seq<Event>, i: nat, s: SessionRecord)
    requires i < |es|
    ensures !ExtendedSince(es, i, i + 1, s)
  {}

  /** So the tick enforces the hard end although it never reads it: under that same condition no
      Active session survives a tick at or after its hard end. */
  lemma HardEndEnforced(ws: seq<World>, es: seq<Event>, n: nat, sid: SessionId) returns (i: nat)
    requires Run(ws, es) && n < |es| && es[n].Tick? && sid in ws[n].app.sessions.byId
    requires ws[n].app.sessions.byId[sid].state == Active && es[n].now >= ws[n].app.sessions.byId[sid].maxEndAt
    ensures i < n && es[i].Accept? && es[i].sid == sid
    ensures var s, pol := ws[n].app.sessions.byId[sid], PolicyFor(ws[i].app.policies, es[i].dog);
            pol.segmentSec <= pol.maxSessionSec || ExtendedSince(es, i, n, s) ==> sid !in ws[n + 1].app.sessions.byId
  {
    hide WorldOk, After, AcceptReply, PolicyFor, ExtendedSince;
    i := DeadlineWithinEndIff(ws, es, n, sid);
    assert Linked(ws, es, n);
    StartedBefore(ws, es, n, sid);
    TickSurvivors(ws[n], es[n].now, sid);
  }

  /** The next moment a tick can come that is at or after the session's hard end. */
  function NextOverdue(w: World, s: SessionRecord): Time {
    if w.clock < s.maxEndAt then s.maxEndAt else w.clock
  }

  /** Some tick that can still come, at or after the session's hard end, would spare it. */
  ghost predicate CanOutlive(w: World, sid: SessionId)
    requires sid in w.app.sessions.byId
  {
    exists now :: w.clock <= now && w.app.sessions.byId[sid].maxEndAt <= now &&
                  sid in Next(w, Tick(now)).app.sessions.byId
  }

  lemma OutlivesIff(w: World, sid: SessionId)
    requires sid in w.app.sessions.byId && w.app.sessions.byId[sid].state == Active
    requires w.app.sessions.byId[sid].startedAt <= w.clock
    ensures var s, p := w.app.sessions.byId[sid], w.app.policies;
            var t := NextOverdue(w, s);
            CanOutlive(w, sid) <==>
            && t < s.segmentDeadlineAt
            && t - s.startedAt < PolicyFor(p, s.dogA).maxSessionSec * 1000
            && !PolicyFor(p, s.dogA).emergencyStop && !PolicyFor(p, s.dogB).emergencyStop
  {
    hide Next, PolicyFor;
    var s := w.app.sessions.byId[sid];
    var t := NextOverdue(w, s);
    TickSurvivors(w, t, sid);
    forall now | w.clock <= now && s.maxEndAt <= now && sid in Next(w, Tick(now)).app.sessions.byId
      ensures sid in Next(w, Tick(t)).app.sessions.byId
    {
      TickSurvivors(w, now, sid);
    }
  }

  /** Exactly which Active sessions, in any reachable state, can outlive their hard end: a tick that
      can still come at or after it would spare the session if and only if, at the earliest such
      moment, its segment deadline still lies ahead, the caller's own limit is not used up, and
      neither dog is stopped. */
  lemma HardEndMissedIff(ws: seq<World>, es: seq<Event>, n: nat, sid: SessionId)
    requires Run(ws, es) && n <= |es| && sid in ws[n].app.sessions.byId && ws[n].app.sessions.byId[sid].state == Active
    ensures var s, p := ws[n].app.sessions.byId[sid], ws[n].app.policies;
            var t := NextOverdue(ws[n], s);
            CanOutlive(ws[n], sid) <==>
            && t < s.segmentDeadlineAt
            && t - s.startedAt < PolicyFor(p, s.dogA).maxSessionSec * 1000
            && !PolicyFor(p, s.dogA).emergencyStop && !PolicyFor(p, s.dogB).emergencyStop
  {
    StartedBefore(ws, es, n, sid);
    OutlivesIff(ws[n], sid);
    hide *;
  }

  /// ---- Emergency stop ----

  lemma StopEnds(w: World, e: Event, sid: SessionId)
    requires WorldOk(w) && e.Estop? && e.on && sid in Next(w, e).app.sessions.byId
    ensures sid in w.app.sessions.byId && !Party(w.app.sessions.byId[sid], e.dog)
  {
    PartyIsIndexed(w.app.sessions, sid, e.dog) by { hide InvitesOk, After; }
    hide AppOk, PolicySet, PolicyFor;
  }

  lemma PartyIsIndexed(s: Sessions, sid: SessionId, d: DogId)
    requires SessionsOk(s)
    ensures sid in s.byId && Party(s.byId[sid], d) ==>
              SessionForDog(s, d) == Some(s.byId[sid]) && s.byId[sid].id == sid
  {}

  /** The callee of a session is never under emergency stop, in any reachable state. */
  lemma {:induction false} CalleeNeverStopped(ws: seq<World>, es: seq<Event>, n: nat, sid: SessionId)
    requires Run(ws, es) && n <= |es| && sid in ws[n].app.sessions.byId
    ensures !PolicyFor(ws[n].app.policies, ws[n].app.sessions.byId[sid].dogB).emergencyStop
    decreases n
  {
    hide WorldOk, After, Enabled, AcceptReply, PolicyFor;
    assert n > 0;
    var w, e := ws[n - 1], es[n - 1];
    assert Linked(ws, es, n - 1);
    RunKeeps(ws, es, n - 1);
    SessionStep(w, e, sid);
    EstopStep(w, e, ws[n].app.sessions.byId[sid].dogB);
    if sid in w.app.sessions.byId && SameSession(ws[n].app.sessions.byId[sid], w.app.sessions.byId[sid]) {
      CalleeNeverStopped(ws, es, n - 1, sid);
      if e.Estop? && e.on {
        StopEnds(w, e, sid);
      }
    } else {
      BornFacts(ws, es, n - 1);
    }
  }

  /** An open invite from a stopped dog was already ringing when the dog was stopped. */
  lemma {:induction false} StoppedWhileRinging(ws: seq<World>, es: seq<Event>, n: nat, id: InviteId) returns (k: nat)
    requires Run(ws, es) && n <= |es| && id in ws[n].app.invites.byId
    requires PolicyFor(ws[n].app.policies, ws[n].app.invites.byId[id].fromDog).emergencyStop
    ensures k < n && es[k] == Estop(ws[n].app.invites.byId[id].fromDog, true)
    ensures id in ws[k].app.invites.byId && ws[k].app.invites.byId[id] == ws[n].app.invites.byId[id]
    decreases n
  {
    hide WorldOk, After, Enabled, CreateReply, PolicyFor;
    assert n > 0;
    var w, e, inv := ws[n - 1], es[n - 1], ws[n].app.invites.byId[id];
    assert Linked(ws, es, n - 1);
    RunKeeps(ws, es, n - 1);
    InviteStep(w, e, id);
    EstopStep(w, e, inv.fromDog);
    k := n - 1;
    if id in w.app.invites.byId && inv == w.app.invites.byId[id] {
      if PolicyFor(w.app.policies, inv.fromDog).emergencyStop {
        k := StoppedWhileRinging(ws, es, n - 1, id);
      }
    } else {
      MadeFacts(w, e);
    }
  }

  /** A stopped dog can be in a session only as its caller, and only if the invite that became
      the session was already ringing at the moment it was stopped. */
  lemma {:induction false} StoppedOnlyAsCaller(ws: seq<World>, es: seq<Event>, n: nat, sid: SessionId) returns (k: nat)
    requires Run(ws, es) && n <= |es| && sid in ws[n].app.sessions.byId
    requires PolicyFor(ws[n].app.policies, ws[n].app.sessions.byId[sid].dogA).emergencyStop
    ensures var s := ws[n].app.sessions.byId[sid];
            && s.dogA != s.dogB && k < n && es[k] == Estop(s.dogA, true)
            && s.inviteId in ws[k].app.invites.byId && ws[k].app.invites.byId[s.inviteId].fromDog == s.dogA
    decreases n
  {
    hide WorldOk, After, Enabled, AcceptReply, PolicyFor;
    assert n > 0;
    var w, e, s := ws[n - 1], es[n - 1], ws[n].app.sessions.byId[sid];
    CalleeNeverStopped(ws, es, n, sid);
    assert Linked(ws, es, n - 1);
    RunKeeps(ws, es, n - 1);
    SessionStep(w, e, sid);
    EstopStep(w, e, s.dogA);
    if sid in w.app.sessions.byId && SameSession(s, w.app.sessions.byId[sid]) {
      if e.Estop? && e.on {
        StopEnds(w, e, sid);
      }
      k := StoppedOnlyAsCaller(ws, es, n - 1, sid);
    } else {
      BornFacts(ws, es, n - 1);
      k := StoppedWhileRinging(ws, es, n - 1, e.id);
    }
  }

  /** No request since `i` and before `n` took the dog's emergency stop off. */
  predicate NotReleased(es: seq<Event>, i: nat, n: nat, d: DogId)
    requires n <= |es|
  {
    forall k :: i < k < n ==> es[k] != Estop(d, false)
  }

  /** When the caller of a session is under emergency stop: exactly when it was already stopped as
      its callee accepted, and has not been released since. Returns the step of that accept. */
  lemma {:induction false} StoppedInSessionIff(ws: seq<World>, es: seq<Event>, n: nat, sid: SessionId) returns (i: nat)
    requires Run(ws, es) && n <= |es| && sid in ws[n].app.sessions.byId
    ensures i < n && es[i].Accept? && es[i].sid == sid && AcceptReply(ws[i], es[i]).result.Success?
    ensures var d := ws[n].app.sessions.byId[sid].dogA;
            PolicyFor(ws[n].app.policies, d).emergencyStop <==>
            PolicyFor(ws[i].app.policies, d).emergencyStop && NotReleased(es, i, n, d)
    decreases n
  {
    hide WorldOk, After, Enabled, AcceptReply, PolicyFor;
    assert n > 0;
    var w, e, s := ws[n - 1], es[n - 1], ws[n].app.sessions.byId[sid];
    assert Linked(ws, es, n - 1);
    RunKeeps(ws, es, n - 1);
    SessionStep(w, e, sid);
    EstopStep(w, e, s.dogA);
    if sid in w.app.sessions.byId && SameSession(s, w.app.sessions.byId[sid]) {
      i := StoppedInSessionIff(ws, es, n - 1, sid);
      if e.Estop? && e.on {
        StopEnds(w, e, sid);
      }
      assert NotReleased(es, i, n, s.dogA) <==> NotReleased(es, i, n - 1, s.dogA) && e != Estop(s.dogA, false);
    } else {
      i := n - 1;
    }
  }
}

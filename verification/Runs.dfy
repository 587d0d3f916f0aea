/** Runs of the control plane: arbitrary sequences of client requests, steward actions, ticks
    and passing time, each an atomic step (services/device-api/src/main.rs), starting from
    empty stores. */
module Runs {
  import opened Base
  import opened Protocol
  import opened Policy
  import opened Bond
  import opened Session
  import opened Memory
  import opened Sqlite
  import opened DeviceApi

  datatype Event =
    | Report(report: PresenceReport)
    | BondPair(a: DogId, b: DogId, weight: real)
    | Create(dog: DogId, preferred: Option<DogId>, mode: InviteMode, id: InviteId, now: Time, stamp: Time,
             cands: seq<(DogId, real)>)
    | Poll(dog: DogId, now: Time)
    | Cancel(dog: DogId, id: InviteId)
    | Accept(dog: DogId, id: InviteId, sid: SessionId, now: Time)
    | End(dog: DogId, sid: SessionId)
    | Media(dog: DogId, sid: SessionId, ready: bool)
    | Again(dog: DogId, sid: SessionId, now: Time)
    | Estop(dog: DogId, on: bool)
    | Social(dog: DogId, on: bool)
    | Amend(dog: DogId, change: PolicyChange)
    | Tick(now: Time)
    | Wait(now: Time)

  function After(a: App, e: Event): App {
    match e
    case Report(r) => a.(presence := Upserted(a.presence, r))
    case BondPair(x, y, w) => a.(bonds := Bootstrapped(a.bonds, x, y, w))
    case Create(dog, preferred, mode, id, now, stamp, cands) =>
      InviteCreated(a, dog, preferred, mode, id, now, stamp, cands).app
    case Poll(dog, now) => IncomingRead(a, dog, now).app
    case Cancel(dog, id) => InviteCancelled(a, dog, id).app
    case Accept(dog, id, sid, now) => InviteAccepted(a, dog, id, sid, now).app
    case End(dog, sid) => SessionClosed(a, dog, sid).app
    case Media(dog, sid, ready) => MediaReported(a, dog, sid, ready).app
    case Again(dog, sid, now) => AgainPressed(a, dog, sid, now).app
    case Estop(dog, on) => Stopped(a, dog, on)
    case Social(dog, on) => SocialSet(a, dog, on)
    case Amend(dog, c) => PolicyChanged(a, dog, c)
    case Tick(now) => Ticked(a, now)
    case Wait(_) => a
  }

  /** The stores, the clock, identifiers already drawn, and when the last tick ran. */
  datatype World = World(app: App, clock: Time, usedInvites: set<InviteId>, usedSessions: set<SessionId>,
                         lastTick: Time)

  function Start(t: Time): World { World(EMPTY_APP, t, {}, {}, t) }

  /** The clock never runs backwards, fresh identifiers are fresh, and the candidate list is one
      the bond graph may produce. */
  ghost predicate Enabled(w: World, e: Event) {
    match e
    case Create(dog, _, _, id, now, stamp, cands) =>
      w.clock <= now <= stamp && id !in w.usedInvites && IsCandidates(w.app.bonds, dog, cands)
    case Poll(_, now) => w.clock <= now
    case Accept(_, _, sid, now) => w.clock <= now && sid !in w.usedSessions
    case Again(_, _, now) => w.clock <= now
    case Tick(now) => w.clock <= now
    case Wait(now) => w.clock <= now
    case _ => true
  }

  function ClockAfter(clock: Time, e: Event): Time {
    match e
    case Create(_, _, _, _, _, stamp, _) => stamp
    case Poll(_, now) => now
    case Accept(_, _, _, now) => now
    case Again(_, _, now) => now
    case Tick(now) => now
    case Wait(now) => now
    case _ => clock
  }

  function Next(w: World, e: Event): World {
    World(After(w.app, e), ClockAfter(w.clock, e),
          if e.Create? then w.usedInvites + {e.id} else w.usedInvites,
          if e.Accept? then w.usedSessions + {e.sid} else w.usedSessions,
          if e.Tick? then e.now else w.lastTick)
  }

  /** Step `i` of a run: the event was possible, and leads to the next world. */
  ghost predicate Linked(ws: seq<World>, es: seq<Event>, i: nat)
    requires |ws| == |es| + 1 && i < |es|
  {
    Enabled(ws[i], es[i]) && ws[i + 1] == Next(ws[i], es[i])
  }

  ghost predicate Run(ws: seq<World>, es: seq<Event>) {
    |ws| == |es| + 1 && ws[0] == Start(ws[0].clock) && forall i :: 0 <= i < |es| ==> Linked(ws, es, i)
  }

  lemma LinkedAt(ws: seq<World>, es: seq<Event>, i: nat)
    requires Run(ws, es) && i < |es|
    ensures |ws| == |es| + 1 && Enabled(ws[i], es[i]) && ws[i + 1] == Next(ws[i], es[i])
  {
    assert Linked(ws, es, i);
    hide Enabled, Next;
  }

  /// ---- What every step keeps ----

  predicate InvitesOk(s: Invites) {
    (forall id :: id in s.byId ==>
                    s.byId[id].id == id && s.byId[id].state == Ringing &&
                    s.byId[id].fromDog in s.open && s.open[s.byId[id].fromDog] == id &&
                    s.byId[id].toDog in s.open && s.open[s.byId[id].toDog] == id) &&
    (forall d :: d in s.open ==>
                   s.open[d] in s.byId && (s.byId[s.open[d]].fromDog == d || s.byId[s.open[d]].toDog == d))
  }

  predicate SessionsOk(s: Sessions) {
    (forall id :: id in s.byId ==>
                    s.byId[id].id == id &&
                    s.byId[id].dogA in s.byDog && s.byDog[s.byId[id].dogA] == id &&
                    s.byId[id].dogB in s.byDog && s.byDog[s.byId[id].dogB] == id) &&
    (forall d :: d in s.byDog ==> s.byDog[d] in s.byId && Party(s.byId[s.byDog[d]], d)) &&
    s.media.Keys == s.byId.Keys
  }

  /** The indexes agree with the records, no dog is in both an open invite and a session, and
      the durable table has a row for exactly the live sessions. */
  predicate AppOk(a: App) {
    InvitesOk(a.invites) && SessionsOk(a.sessions) && KeyedByDog(a.policies) &&
    a.invites.open.Keys !! a.sessions.byDog.Keys && a.rows.Keys == a.sessions.byId.Keys
  }

  predicate WorldOk(w: World) {
    AppOk(w.app) && w.app.invites.byId.Keys <= w.usedInvites && w.app.sessions.byId.Keys <= w.usedSessions
  }

  lemma InsertKeeps(s: Invites, inv: Invite)
    requires InvitesOk(s) && Free(s, inv) && inv.id !in s.byId && inv.state == Ringing
    ensures InvitesOk(InviteInserted(s, inv))
    ensures InviteInserted(s, inv).open.Keys == s.open.Keys + {inv.fromDog, inv.toDog}
  {}

  lemma StaysOpen(s: Invites, ids: set<InviteId>, d: DogId)
    requires InvitesOk(s)
    ensures d in Parties(s, ids) <==> d in s.open && s.open[d] in ids
  {}

  lemma CloseAllKeeps(s: Invites, ids: set<InviteId>)
    requires InvitesOk(s)
    ensures InvitesOk(ClosedAll(s, ids))
    ensures ClosedAll(s, ids).open.Keys <= s.open.Keys
  {
    forall d ensures d in Parties(s, ids) <==> d in s.open && s.open[d] in ids {
      StaysOpen(s, ids, d);
    }
    hide Parties;
  }

  lemma CloseIsCloseAll(s: Invites, id: InviteId)
    requires id in s.byId
    ensures InviteClosed(s, id) == ClosedAll(s, {id})
  {
    assert Parties(s, {id}) == {s.byId[id].fromDog, s.byId[id].toDog};
  }

  lemma SessionInsertKeeps(s: Sessions, r: SessionRecord)
    requires SessionsOk(s) && SessionFree(s, r) && r.id !in s.byId
    ensures SessionsOk(SessionInserted(s, r))
    ensures SessionInserted(s, r).byDog.Keys == s.byDog.Keys + {r.dogA, r.dogB}
  {}

  lemma LivesOn(s: Sessions, ids: set<SessionId>, d: DogId)
    requires SessionsOk(s)
    ensures d in SessionParties(s, ids) <==> d in s.byDog && s.byDog[d] in ids
  {}

  lemma EndAllKeeps(s: Sessions, ids: set<SessionId>)
    requires SessionsOk(s)
    ensures SessionsOk(SessionsEnded(s, ids))
    ensures SessionsEnded(s, ids).byDog.Keys <= s.byDog.Keys
  {
    forall d ensures d in SessionParties(s, ids) <==> d in s.byDog && s.byDog[d] in ids {
      LivesOn(s, ids, d);
    }
    hide SessionParties, Party;
  }

  lemma EndIsEndAll(s: Sessions, id: SessionId)
    requires id in s.byId
    ensures SessionEnded(s, id) == SessionsEnded(s, {id})
  {
    assert SessionParties(s, {id}) == {s.byId[id].dogA, s.byId[id].dogB};
  }

  /** The two ways `create` can go: refused, with due invites expired and perhaps old times
      forgotten, or a new ringing invite between two free dogs. */
  lemma CreateShape(a: App, e: Event)
    requires e.Create?
    ensures var r := InviteCreated(a, e.dog, e.preferred, e.mode, e.id, e.now, e.stamp, e.cands);
            var x := InvitesExpired(a.invites, e.now);
            var p := Pruned(x, e.dog, e.now);
            && (r.result.Failure? ==> r.app == a.(invites := x) || r.app == a.(invites := p))
            && (r.result.Success? ==>
                  var inv := r.result.value;
                  && inv == NewInvite(e.id, e.dog, inv.toDog, e.mode, e.stamp)
                  && RouteInvite(e.dog, e.preferred, a.bonds, e.cands, PresentDogs(a.presence, e.now),
                                 PresentAt(a.presence, e.dog, e.now)) == Success(inv.toDog)
                  && SocialDenied(PolicyFor(a.policies, e.dog), e.now).None?
                  && SocialDenied(PolicyFor(a.policies, inv.toDog), e.now).None?
                  && |Recent(TimesOf(x, e.dog), e.now)| < PolicyFor(a.policies, e.dog).maxInvitesPerHour
                  && !Engaged(a.(invites := p), e.dog) && !Engaged(a.(invites := p), inv.toDog)
                  && Free(p, inv)
                  && r.app == a.(invites := Recorded(InviteInserted(p, inv), e.dog, e.now)))
  {
    hide SocialDenied, RouteInvite, PresentDogs, PresentAt, Recent, InvitesExpired, Engaged, Free, PolicyFor;
  }

  /** The ways `accept` can go: refused at once, refused after expiring due invites, refused
      because a party is in a session, or the invite replaced by a session. */
  lemma AcceptShape(a: App, e: Event)
    requires e.Accept?
    ensures var r := InviteAccepted(a, e.dog, e.id, e.sid, e.now);
            var x := InvitesExpired(a.invites, e.now);
            && (r.result.Failure? && r.result.error != SessionBusy ==> r.app == a || r.app == a.(invites := x))
            && (r.result.Success? || r.result.error == SessionBusy ==>
                  && e.id in x.byId && x.byId[e.id].toDog == e.dog && e.now < x.byId[e.id].expiresAt
                  && PresentAt(a.presence, e.dog, e.now)
                  && SocialDenied(PolicyFor(a.policies, e.dog), e.now).None?)
            && (r.result == Failure(SessionBusy) ==> r.app == a.(invites := InviteClosed(x, e.id)))
            && (r.result == Failure(SessionBusy) ==>
                  x.byId[e.id].fromDog in a.sessions.byDog || e.dog in a.sessions.byDog)
            && (r.result.Success? ==>
                  var inv, s, pol := x.byId[e.id], r.result.value, PolicyFor(a.policies, e.dog);
                  && s == SessionRecord(e.sid, inv.id, inv.fromDog, inv.toDog, inv.mode, Negotiating, e.now,
                                        e.now + pol.maxSessionSec * 1000, e.now + pol.segmentSec * 1000)
                  && SessionFree(a.sessions, s)
                  && r.app == a.(invites := InviteClosed(x, e.id), sessions := SessionInserted(a.sessions, s),
                                 rows := a.rows[e.sid := RowOf(s, false, false)]))
  {
    hide SocialDenied, PresentAt, RowOf, InvitesExpired, PolicyFor, InviteClosed, SessionInserted;
  }

  lemma TimesIrrelevant(s: Invites, t: Invites)
    requires s.byId == t.byId && s.open == t.open
    ensures InvitesOk(s) <==> InvitesOk(t)
  {}

  lemma IdleIsUnindexed(a: App, d: DogId)
    requires AppOk(a) && SessionForDog(a.sessions, d).None?
    ensures d !in a.sessions.byDog
  {}

  lemma InviteMade(s: Invites, d: DogId, inv: Invite, now: Time)
    requires InvitesOk(s) && inv.id !in s.byId && inv.state == Ringing && Free(Pruned(s, d, now), inv)
    ensures var t := Recorded(InviteInserted(Pruned(s, d, now), inv), d, now);
            InvitesOk(t) && t.open.Keys == s.open.Keys + {inv.fromDog, inv.toDog} && t.byId == s.byId[inv.id := inv]
  {
    TimesIrrelevant(s, Pruned(s, d, now));
    InsertKeeps(Pruned(s, d, now), inv);
    TimesIrrelevant(InviteInserted(Pruned(s, d, now), inv), Recorded(InviteInserted(Pruned(s, d, now), inv), d, now));
  }

  lemma PrunedKeeps(a: App, x: Invites, d: DogId, now: Time)
    requires AppOk(a.(invites := x))
    ensures AppOk(a.(invites := Pruned(x, d, now))) && Pruned(x, d, now).byId == x.byId
  {
    TimesIrrelevant(x, Pruned(x, d, now));
  }

  lemma CreatedKeeps(a: App, x: Invites, d: DogId, inv: Invite, now: Time)
    requires AppOk(a.(invites := x)) && inv.id !in x.byId && inv.state == Ringing && Free(Pruned(x, d, now), inv)
    requires SessionForDog(a.sessions, inv.fromDog).None? && SessionForDog(a.sessions, inv.toDog).None?
    ensures var t := Recorded(InviteInserted(Pruned(x, d, now), inv), d, now);
            AppOk(a.(invites := t)) && t.byId == x.byId[inv.id := inv]
  {
    InviteMade(x, d, inv, now);
    IdleIsUnindexed(a.(invites := x), inv.fromDog);
    IdleIsUnindexed(a.(invites := x), inv.toDog);
    hide InvitesOk, SessionsOk, InviteInserted, Pruned, Recorded, Free;
  }

  lemma CreateKeeps(w: World, e: Event)
    requires WorldOk(w) && e.Create? && Enabled(w, e)
    ensures WorldOk(Next(w, e))
  {
    hide InviteCreated, InvitesExpired, AppOk, SocialDenied, RouteInvite, PresentDogs, PresentAt, Recent, PolicyFor,
         IsCandidates, InviteInserted, Pruned, Recorded, Free, SessionForDog, InviteForDog, TimesOf;
    CreateShape(w.app, e);
    KeepsInvites(w.app, e.now);
    var x := InvitesExpired(w.app.invites, e.now);
    PrunedKeeps(w.app, x, e.dog, e.now);
    var r := InviteCreated(w.app, e.dog, e.preferred, e.mode, e.id, e.now, e.stamp, e.cands);
    if r.result.Success? {
      CreatedKeeps(w.app, x, e.dog, r.result.value, e.now);
    }
  }

  lemma KeepsInvites(a: App, now: Time)
    requires AppOk(a)
    ensures AppOk(a.(invites := InvitesExpired(a.invites, now)))
    ensures InvitesExpired(a.invites, now).byId.Keys <= a.invites.byId.Keys
  {
    ExpiredKeeps(a, now);
  }

  /** Replacing an open invite by a session of its two dogs keeps the stores consistent. */
  lemma AcceptedKeeps(a: App, x: Invites, id: InviteId, s: SessionRecord)
    requires AppOk(a) && InvitesOk(x) && x.open.Keys <= a.invites.open.Keys && id in x.byId
    requires s.dogA == x.byId[id].fromDog && s.dogB == x.byId[id].toDog
    requires SessionFree(a.sessions, s) && s.id !in a.sessions.byId
    ensures AppOk(a.(invites := InviteClosed(x, id), sessions := SessionInserted(a.sessions, s),
                     rows := a.rows[s.id := RowOf(s, false, false)]))
  {
    hide InvitesOk, SessionsOk, RowOf, ClosedAll, InviteClosed, SessionInserted;
    CloseKeeps(x, id);
    SessionInsertKeeps(a.sessions, s);
    SessionInsertKeys(a.sessions, s);
  }

  lemma CloseKeeps(s: Invites, id: InviteId)
    requires InvitesOk(s) && id in s.byId
    ensures InvitesOk(InviteClosed(s, id)) && InviteClosed(s, id).byId.Keys == s.byId.Keys - {id}
    ensures InviteClosed(s, id).open.Keys == s.open.Keys - {s.byId[id].fromDog, s.byId[id].toDog}
  {
    CloseIsCloseAll(s, id);
    CloseAllKeeps(s, {id});
  }

  /** Under the store invariants the session insert of an accept never reports busy. */
  lemma AcceptKeeps(w: World, e: Event)
    requires WorldOk(w) && e.Accept? && Enabled(w, e)
    ensures WorldOk(Next(w, e))
    ensures InviteAccepted(w.app, e.dog, e.id, e.sid, e.now).result != Failure(SessionBusy)
  {
    hide InviteAccepted, InvitesExpired, InvitesOk, SessionsOk, SocialDenied, PresentAt, RowOf, ClosedAll, InviteClosed,
         SessionInserted, PolicyFor;
    AcceptShape(w.app, e);
    ExpiredKeeps(w.app, e.now);
    var x := InvitesExpired(w.app.invites, e.now);
    if e.id in x.byId {
      OpenDogsAreFree(w.app, x, e.id);
    }
    var r := InviteAccepted(w.app, e.dog, e.id, e.sid, e.now);
    if r.result.Success? {
      assert x.byId[e.id].toDog == e.dog;
      AcceptedKeeps(w.app, x, e.id, r.result.value);
      CloseKeeps(x, e.id);
      SessionInsertKeys(w.app.sessions, r.result.value);
    }
  }

  lemma ExpiredKeeps(a: App, now: Time)
    requires AppOk(a)
    ensures var x := InvitesExpired(a.invites, now);
            InvitesOk(x) && x.open.Keys <= a.invites.open.Keys && x.byId.Keys <= a.invites.byId.Keys &&
            x.times == a.invites.times && AppOk(a.(invites := x)) &&
            (forall id :: id in x.byId ==> x.byId[id] == a.invites.byId[id] && now < x.byId[id].expiresAt)
  {
    CloseAllKeeps(a.invites, Due(a.invites, now));
  }

  lemma OpenDogsAreFree(a: App, x: Invites, id: InviteId)
    requires AppOk(a) && InvitesOk(x) && x.open.Keys <= a.invites.open.Keys && id in x.byId
    ensures x.byId[id].fromDog !in a.sessions.byDog && x.byId[id].toDog !in a.sessions.byDog
  {
    assert x.byId[id].fromDog in x.open.Keys && x.byId[id].toDog in x.open.Keys;
  }

  lemma SessionInsertKeys(s: Sessions, r: SessionRecord)
    ensures SessionInserted(s, r).byId == s.byId[r.id := r]
  {}

  lemma EndKeeps(s: Sessions, id: SessionId)
    requires SessionsOk(s) && id in s.byId
    ensures SessionsOk(SessionEnded(s, id)) && SessionEnded(s, id).byId.Keys == s.byId.Keys - {id}
    ensures SessionEnded(s, id).byDog.Keys <= s.byDog.Keys
  {
    EndIsEndAll(s, id);
    EndAllKeeps(s, {id});
  }

  lemma ForDogIsThere(s: Sessions, d: DogId)
    requires SessionsOk(s) && SessionForDog(s, d).Some?
    ensures SessionForDog(s, d).value.id in s.byId
  {}

  lemma EndsKeep(w: World, e: Event)
    requires WorldOk(w) && (e.End? || e.Estop?)
    ensures WorldOk(Next(w, e))
  {
    hide InvitesOk, SessionsOk, SessionEnded, PolicySet, PolicyFor;
    match e
    case End(dog, sid) =>
      if sid in w.app.sessions.byId {
        EndKeeps(w.app.sessions, sid);
      }
    case Estop(dog, on) =>
      PolicySetReads(w.app.policies, PolicyFor(w.app.policies, dog).(emergencyStop := on), dog);
      var s := SessionForDog(w.app.sessions, dog);
      if s.Some? {
        ForDogIsThere(w.app.sessions, dog);
        EndKeeps(w.app.sessions, s.value.id);
      }
  }

  lemma TickKeeps(w: World, e: Event)
    requires WorldOk(w) && e.Tick?
    ensures WorldOk(Next(w, e))
  {
    hide InvitesOk, SessionsOk, TickSet, InvitesExpired;
    ExpiredKeeps(w.app, e.now);
    EndAllKeeps(w.app.sessions, TickSet(w.app, e.now));
  }

  lemma InviteReadsKeep(w: World, e: Event)
    requires WorldOk(w) && (e.Poll? || e.Cancel?)
    ensures WorldOk(Next(w, e))
  {
    hide InvitesExpired, InviteClosed, InvitesOk, SessionsOk;
    match e
    case Poll(dog, now) => ExpiredKeeps(w.app, now);
    case Cancel(dog, id) =>
      if id in w.app.invites.byId {
        CloseKeeps(w.app.invites, id);
      }
  }

  lemma MediaSetKeeps(s: Sessions, id: SessionId, d: DogId, ready: bool)
    requires SessionsOk(s) && CanSetMedia(s, id, d)
    ensures var t := MediaSet(s, id, d, ready);
            SessionsOk(t) && t.byDog == s.byDog && t.byId.Keys == s.byId.Keys && t.byId[id].id == id
  {}

  lemma DeadlineSetKeeps(s: Sessions, id: SessionId, deadline: Time)
    requires SessionsOk(s) && id in s.byId
    ensures var t := DeadlineSet(s, id, deadline);
            SessionsOk(t) && t.byDog == s.byDog && t.byId.Keys == s.byId.Keys && t.byId[id].id == id
  {}

  lemma RecordEditsKeep(w: World, e: Event)
    requires WorldOk(w) && (e.Media? || e.Again?)
    ensures WorldOk(Next(w, e))
  {
    if e.Media? {
      MediaKeeps(w, e);
    } else {
      AgainKeeps(w, e);
    }
    hide *;
  }

  lemma MediaKeeps(w: World, e: Event)
    requires WorldOk(w) && e.Media?
    ensures WorldOk(Next(w, e))
  {
    hide RowOf, InvitesOk, SessionsOk, MediaSet;
    if CanSetMedia(w.app.sessions, e.sid, e.dog) {
      MediaSetKeeps(w.app.sessions, e.sid, e.dog, e.ready);
    }
  }

  lemma AgainKeeps(w: World, e: Event)
    requires WorldOk(w) && e.Again?
    ensures WorldOk(Next(w, e))
  {
    hide RowOf, ExtendSegment, PolicyFor, InvitesOk, SessionsOk, DeadlineSet;
    if e.sid in w.app.sessions.byId {
      DeadlineSetKeeps(w.app.sessions, e.sid,
                       ExtendSegment(e.now, PolicyFor(w.app.policies, e.dog).segmentSec,
                                     w.app.sessions.byId[e.sid].maxEndAt));
    }
  }

  lemma PolicyEditsKeep(w: World, e: Event)
    requires WorldOk(w) && (e.Social? || e.Amend?)
    ensures WorldOk(Next(w, e))
  {
    hide InvitesOk, SessionsOk;
  }

  /** Every step keeps the stores consistent with each other. */
  lemma StepKeeps(w: World, e: Event)
    requires WorldOk(w) && Enabled(w, e)
    ensures WorldOk(Next(w, e))
  {
    match e
    case Create(_, _, _, _, _, _, _) => CreateKeeps(w, e);
    case Accept(_, _, _, _) => AcceptKeeps(w, e);
    case End(_, _) => EndsKeep(w, e);
    case Estop(_, _) => EndsKeep(w, e);
    case Tick(_) => TickKeeps(w, e);
    case Poll(_, _) => InviteReadsKeep(w, e);
    case Cancel(_, _) => InviteReadsKeep(w, e);
    case Media(_, _, _) => RecordEditsKeep(w, e);
    case Again(_, _, _) => RecordEditsKeep(w, e);
    case Social(_, _) => PolicyEditsKeep(w, e);
    case Amend(_, _) => PolicyEditsKeep(w, e);
    case Report(_) =>
    case BondPair(_, _, _) =>
    case Wait(_) =>
  }

  lemma {:induction false} RunKeeps(ws: seq<World>, es: seq<Event>, n: nat)
    requires Run(ws, es) && n <= |es|
    ensures WorldOk(ws[n])
    decreases n
  {
    if n > 0 {
      RunKeeps(ws, es, n - 1);
      assert Linked(ws, es, n - 1);
      StepKeeps(ws[n - 1], es[n - 1]);
    }
  }

  lemma {:induction false} ClockMonotone(ws: seq<World>, es: seq<Event>, m: nat, n: nat)
    requires Run(ws, es) && m <= n <= |es|
    ensures ws[m].clock <= ws[n].clock && ws[m].usedInvites <= ws[n].usedInvites
    ensures ws[m].usedSessions <= ws[n].usedSessions
    decreases n
  {
    if m < n {
      ClockMonotone(ws, es, m, n - 1);
      assert Linked(ws, es, n - 1);
    }
  }
}

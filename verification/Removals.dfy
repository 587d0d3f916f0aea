/** What can take an invite or a session away: the exact condition for every step of every run
    (services/device-api/src/main.rs:166-196, 416-660 and 747-771). */
module Removals {
  import opened Base
  import opened Protocol
  import opened Policy
  import opened Bond
  import opened Session
  import opened Memory
  import opened Sqlite
  import opened DeviceApi
  import opened Runs
  import opened Steps
  import opened Consent
  import opened Welfare
  import opened Outcomes

  /// ---- Sessions ----

  /** The tick's reasons, in milliseconds: the caller's limit is used up, the session is Active past
      its segment, or one of its dogs is stopped. */
  predicate Overdue(p: Policies, s: SessionRecord, now: Time) {
    || now - s.startedAt >= PolicyFor(p, s.dogA).maxSessionSec * 1000
    || (s.state == Active && now >= s.segmentDeadlineAt)
    || PolicyFor(p, s.dogA).emergencyStop || PolicyFor(p, s.dogB).emergencyStop
  }

  /** A step that ends the session: an end by one of its own dogs, an emergency stop of one of them,
      or a tick that finds it overdue. */
  predicate EndsIt(p: Policies, s: SessionRecord, e: Event) {
    match e
    case End(dog, sid) => sid == s.id && (dog == s.dogA || dog == s.dogB)
    case Estop(dog, on) => on && (dog == s.dogA || dog == s.dogB)
    case Tick(now) => Overdue(p, s, now)
    case _ => false
  }

  /** A live session is gone after a step, in memory and in the table, if and only if the step ends it
      in one of these ways. */
  lemma SessionGoneIff(ws: seq<World>, es: seq<Event>, n: nat, sid: SessionId)
    requires Run(ws, es) && n < |es| && sid in ws[n].app.sessions.byId
    ensures var a, b := ws[n].app, ws[n + 1].app;
            && (sid !in b.sessions.byId <==> EndsIt(a.policies, a.sessions.byId[sid], es[n]))
            && (sid in b.rows <==> sid in b.sessions.byId)
  {
    hide *;
    LinkedAt(ws, es, n);
    RunKeeps(ws, es, n);
    RunKeeps(ws, es, n + 1);
    StartedBefore(ws, es, n, sid);
    SessionGone(ws[n], es[n], sid);
    RowsFollow(ws[n + 1], sid);
  }

  lemma RowsFollow(w: World, sid: SessionId)
    requires WorldOk(w)
    ensures sid in w.app.rows <==> sid in w.app.sessions.byId
  {
    assert sid in w.app.rows.Keys <==> sid in w.app.sessions.byId.Keys;
    hide InvitesOk, SessionsOk;
  }

  lemma SessionGone(w: World, e: Event, sid: SessionId)
    requires WorldOk(w) && Enabled(w, e) && sid in w.app.sessions.byId
    requires w.app.sessions.byId[sid].startedAt <= w.clock
    ensures sid !in Next(w, e).app.sessions.byId <==> EndsIt(w.app.policies, w.app.sessions.byId[sid], e)
  {
    hide *;
    if e.Tick? {
      TickGone(w, e, sid);
    } else if e.End? {
      EndGone(w, e, sid);
    } else if e.Estop? {
      StopGone(w, e, sid);
    } else {
      RestGone(w, e, sid);
    }
  }

  lemma TickGone(w: World, e: Event, sid: SessionId)
    requires Enabled(w, e) && e.Tick? && sid in w.app.sessions.byId && w.app.sessions.byId[sid].startedAt <= w.clock
    ensures sid !in Next(w, e).app.sessions.byId <==> EndsIt(w.app.policies, w.app.sessions.byId[sid], e)
  {
    TickSurvivors(w, e.now, sid);
    hide Next, PolicyFor;
  }

  lemma EndGone(w: World, e: Event, sid: SessionId)
    requires WorldOk(w) && e.End? && sid in w.app.sessions.byId
    ensures sid !in Next(w, e).app.sessions.byId <==> EndsIt(w.app.policies, w.app.sessions.byId[sid], e)
  {
    IdsMatch(w, sid);
    assert Next(w, e).app == SessionClosed(w.app, e.dog, e.sid).app by { hide WorldOk, SessionClosed; }
    hide WorldOk, Next, Overdue;
  }

  lemma StopGone(w: World, e: Event, sid: SessionId)
    requires WorldOk(w) && e.Estop? && sid in w.app.sessions.byId
    ensures sid !in Next(w, e).app.sessions.byId <==> EndsIt(w.app.policies, w.app.sessions.byId[sid], e)
  {
    IdsMatch(w, sid);
    SessionsAre(w);
    PartyIsIndexed(w.app.sessions, sid, e.dog);
    SoleSession(w.app.sessions, e.dog);
    hide WorldOk, SessionsOk, PolicySet, PolicyFor, SessionForDog;
  }

  lemma SessionsAre(w: World)
    requires WorldOk(w)
    ensures SessionsOk(w.app.sessions)
  {
    hide InvitesOk, SessionsOk;
  }

  lemma SoleSession(s: Sessions, d: DogId)
    requires SessionsOk(s)
    ensures var r := SessionForDog(s, d);
            r.Some? ==>
              r.value.id in s.byId && s.byId[r.value.id] == r.value && (r.value.dogA == d || r.value.dogB == d)
  {}

  lemma RestGone(w: World, e: Event, sid: SessionId)
    requires WorldOk(w) && Enabled(w, e) && sid in w.app.sessions.byId && !e.Tick? && !e.End? && !e.Estop?
    ensures sid in Next(w, e).app.sessions.byId && !EndsIt(w.app.policies, w.app.sessions.byId[sid], e)
  {
    hide WorldOk, InviteCreated, InviteAccepted, IsCandidates, RowOf, PolicyFor, PolicySet, InvitesExpired,
         InviteClosed, ExtraSet, ExtendSegment, Upserted, Bootstrapped;
    match e
    case Create(_, _, _, _, _, _, _) => CreateLeavesSessions(w, e);
    case Accept(_, _, _, _) => AcceptSessions(w, e);
    case _ =>
  }

  /// ---- Invites ----

  /** The steps that expire due invites before anything else: a tick, a create, a poll of a dog that
      is neither stopped nor disabled, and an accept by a willing dog. */
  ghost predicate Expires(a: App, e: Event) {
    match e
    case Create(_, _, _, _, _, _, _) => true
    case Tick(_) => true
    case Poll(dog, _) => !PolicyFor(a.policies, dog).emergencyStop && !PolicyFor(a.policies, dog).socialDisabled
    case Accept(dog, _, _, now) => Willing(a, dog, now)
    case _ => false
  }

  /** A step that closes the invite: a cancel by one of its dogs, its callee's accept while present,
      willing and in time, or, once it is due, a step that expires. */
  ghost predicate ClosesIt(a: App, inv: Invite, e: Event) {
    || (e.Cancel? && e.id == inv.id && (e.dog == inv.fromDog || e.dog == inv.toDog))
    || (e.Accept? && e.id == inv.id && e.dog == inv.toDog && e.now < inv.expiresAt &&
        PresentAt(a.presence, e.dog, e.now) && Willing(a, e.dog, e.now))
    || (Expires(a, e) && e.now >= inv.expiresAt)
  }

  /** An open invite is gone after a step if and only if the step closes it in one of these ways. */
  lemma InviteGoneIff(ws: seq<World>, es: seq<Event>, n: nat, id: InviteId)
    requires Run(ws, es) && n < |es| && id in ws[n].app.invites.byId
    ensures id !in ws[n + 1].app.invites.byId <==> ClosesIt(ws[n].app, ws[n].app.invites.byId[id], es[n])
  {
    hide *;
    LinkedAt(ws, es, n);
    RunKeeps(ws, es, n);
    InviteGone(ws[n], es[n], id);
  }

  lemma InviteGone(w: World, e: Event, id: InviteId)
    requires WorldOk(w) && Enabled(w, e) && id in w.app.invites.byId
    ensures id !in Next(w, e).app.invites.byId <==> ClosesIt(w.app, w.app.invites.byId[id], e)
  {
    hide *;
    InviteIdMatches(w, id);
    if e.Create? {
      CreateCloses(w, e, id);
    } else if e.Accept? {
      AcceptCloses(w, e, id);
    } else {
      RestCloses(w, e, id);
    }
  }

  lemma CreateCloses(w: World, e: Event, id: InviteId)
    requires WorldOk(w) && Enabled(w, e) && e.Create? && id in w.app.invites.byId
    ensures id !in Next(w, e).app.invites.byId <==> ClosesIt(w.app, w.app.invites.byId[id], e)
  {
    CreateLeft(w, e);
    ExpiryExact(w.app.invites, e.now, id);
    InviteIdMatches(w, id);
    hide WorldOk, Next, InvitesExpired, IsCandidates;
  }

  lemma CreateLeft(w: World, e: Event)
    requires e.Create?
    ensures var x := InvitesExpired(w.app.invites, e.now).byId;
            Next(w, e).app.invites.byId.Keys == x.Keys || Next(w, e).app.invites.byId.Keys == x.Keys + {e.id}
  {
    CreateShape(w.app, e);
    hide InviteCreated, InvitesExpired, SocialDenied, RouteInvite, PresentDogs, Recent, Engaged, PolicyFor, Free,
         PresentAt;
  }

  lemma AcceptCloses(w: World, e: Event, id: InviteId)
    requires WorldOk(w) && Enabled(w, e) && e.Accept? && id in w.app.invites.byId
    ensures id !in Next(w, e).app.invites.byId <==> ClosesIt(w.app, w.app.invites.byId[id], e)
  {
    hide *;
    InviteIdMatches(w, id);
    InviteIdMatches(w, e.id);
    AcceptedIff(w, e);
    AcceptUnbusy(w, e);
    AcceptIsNext(w, e);
    AcceptLeft(w, e);
    ExpiryExact(w.app.invites, e.now, id);
    AcceptParts(w, e, id);
  }

  lemma AcceptUnbusy(w: World, e: Event)
    requires WorldOk(w) && Enabled(w, e) && e.Accept?
    ensures AcceptReply(w, e).result != Failure(SessionBusy)
  {
    AcceptKeeps(w, e);
    hide InviteAccepted;
  }

  lemma AcceptLeft(w: World, e: Event)
    requires e.Accept? && AcceptReply(w, e).result != Failure(SessionBusy)
    ensures var x := InvitesExpired(w.app.invites, e.now);
            AcceptReply(w, e).app.invites ==
            if !Willing(w.app, e.dog, e.now) then w.app.invites
            else if AcceptReply(w, e).result.Success? then InviteClosed(x, e.id)
            else x
  {
    DeniedIff(PolicyFor(w.app.policies, e.dog), e.now);
    hide InvitesExpired, SocialDenied, Sociable, PresentAt, PolicyFor, AcceptInvite, InviteClosed, SessionInserted,
         SessionFree, Negotiated, RowOf;
  }

  lemma AcceptParts(w: World, e: Event, id: InviteId)
    requires e.Accept? && id in w.app.invites.byId && w.app.invites.byId[id].id == id
    requires var x := InvitesExpired(w.app.invites, e.now);
             && (id in x.byId <==> e.now < w.app.invites.byId[id].expiresAt)
             && Next(w, e).app.invites ==
                (if !Willing(w.app, e.dog, e.now) then w.app.invites
                 else if AcceptReply(w, e).result.Success? then InviteClosed(x, e.id)
                 else x)
    requires AcceptReply(w, e).result.Success? <==>
             && Acceptable(w.app, e.dog, e.id, e.now) && PresentAt(w.app.presence, e.dog, e.now)
             && Willing(w.app, e.dog, e.now)
    ensures id !in Next(w, e).app.invites.byId <==> ClosesIt(w.app, w.app.invites.byId[id], e)
  {
    hide Next, InvitesExpired, PresentAt, Willing, AcceptReply;
  }

  lemma RestCloses(w: World, e: Event, id: InviteId)
    requires id in w.app.invites.byId && w.app.invites.byId[id].id == id && !e.Create? && !e.Accept?
    ensures id !in Next(w, e).app.invites.byId <==> ClosesIt(w.app, w.app.invites.byId[id], e)
  {
    if e.Tick? || e.Poll? {
      ExpiryExact(w.app.invites, e.now, id);
    }
    hide InvitesExpired, PolicyFor, PolicySet, SessionEnded, MediaSet, CanSetMedia, DeadlineSet, ExtendSegment, RowOf,
         Upserted, Bootstrapped, BothReady, SessionForDog, SessionsEnded, TickEnds;
  }
}

/** What one step may change in each store: the case analysis every run-level proof rests on. */
module Steps {
  import opened Base
  import opened Protocol
  import opened Policy
  import opened Bond
  import opened Session
  import opened Memory
  import opened Sqlite
  import opened DeviceApi
  import opened Runs

  function CreateReply(w: World, e: Event): Reply<Invite>
    requires e.Create?
  {
    InviteCreated(w.app, e.dog, e.preferred, e.mode, e.id, e.now, e.stamp, e.cands)
  }

  function AcceptReply(w: World, e: Event): Reply<SessionRecord>
    requires e.Accept?
  {
    InviteAccepted(w.app, e.dog, e.id, e.sid, e.now)
  }

  /** An invite is in the store after a step only if it was there before, unchanged, or the step
      is a successful create of it. */
  lemma InviteStep(w: World, e: Event, id: InviteId)
    requires WorldOk(w) && Enabled(w, e) && id in Next(w, e).app.invites.byId
    ensures var inv := Next(w, e).app.invites.byId[id];
            || (id in w.app.invites.byId && inv == w.app.invites.byId[id])
            || (e.Create? && CreateReply(w, e).result == Success(inv) && id == e.id)
  {
    hide InvitesOk, SessionsOk, IsCandidates, InviteCreated, InviteAccepted, InvitesExpired, SocialDenied, RouteInvite,
         PresentDogs, PresentAt, Recent, Free, Engaged, SessionInserted, RowOf, PolicyFor;
    match e
    case Create(_, _, _, _, now, _, _) =>
      CreateShape(w.app, e);
      ExpiredKeeps(w.app, now);
    case Accept(_, _, _, now) =>
      AcceptShape(w.app, e);
      ExpiredKeeps(w.app, now);
    case Poll(_, now) => ExpiredKeeps(w.app, now);
    case Tick(now) => ExpiredKeeps(w.app, now);
    case _ =>
  }

  /** The parts of a session record no step edits. */
  predicate SameSession(s: SessionRecord, t: SessionRecord) {
    s.id == t.id && s.inviteId == t.inviteId && s.dogA == t.dogA && s.dogB == t.dogB && s.mode == t.mode &&
    s.startedAt == t.startedAt && s.maxEndAt == t.maxEndAt
  }

  lemma CreateLeavesSessions(w: World, e: Event)
    requires e.Create?
    ensures CreateReply(w, e).app == w.app.(invites := CreateReply(w, e).app.invites)
  {
    CreateShape(w.app, e);
    hide InviteCreated, InvitesExpired, SocialDenied, RouteInvite, PresentDogs, Recent, Free, Engaged, PolicyFor;
  }

  lemma AcceptSessions(w: World, e: Event)
    requires WorldOk(w) && e.Accept? && Enabled(w, e)
    ensures var r := AcceptReply(w, e);
            && r.app.policies == w.app.policies && r.app.presence == w.app.presence && r.app.bonds == w.app.bonds
            && (r.result.Failure? ==> r.app.sessions == w.app.sessions && r.app.rows == w.app.rows)
            && (r.result.Success? ==> r.app.sessions == SessionInserted(w.app.sessions, r.result.value) &&
                                      r.app.rows == w.app.rows[e.sid := RowOf(r.result.value, false, false)] &&
                                      r.result.value.id == e.sid && r.result.value.dogB == e.dog)
  {
    AcceptKeeps(w, e);
    AcceptShape(w.app, e);
    hide InviteAccepted, InvitesExpired, SocialDenied, PolicyFor, SessionInserted, RowOf, InviteClosed, WorldOk;
  }

  /** A session is in the store after a step only if it was there before, or the step is a
      successful accept by its second dog: no steward, tick or other step creates one. */
  lemma SessionStep(w: World, e: Event, sid: SessionId)
    requires WorldOk(w) && Enabled(w, e) && sid in Next(w, e).app.sessions.byId
    ensures var s := Next(w, e).app.sessions.byId[sid];
            || (sid in w.app.sessions.byId && SameSession(s, w.app.sessions.byId[sid]))
            || (e.Accept? && AcceptReply(w, e).result == Success(s) && sid == e.sid && e.dog == s.dogB)
  {
    hide *;
    if e.Create? || e.Accept? {
      SessionMade(w, e, sid);
    } else {
      SessionEdited(w, e, sid);
    }
  }

  lemma SessionMade(w: World, e: Event, sid: SessionId)
    requires WorldOk(w) && Enabled(w, e) && (e.Create? || e.Accept?) && sid in Next(w, e).app.sessions.byId
    ensures var s := Next(w, e).app.sessions.byId[sid];
            || (sid in w.app.sessions.byId && SameSession(s, w.app.sessions.byId[sid]))
            || (e.Accept? && AcceptReply(w, e).result == Success(s) && sid == e.sid && e.dog == s.dogB)
  {
    hide WorldOk, InviteCreated, InviteAccepted, IsCandidates;
    if e.Create? {
      CreateLeavesSessions(w, e);
    } else {
      AcceptSessions(w, e);
    }
  }

  lemma SessionEdited(w: World, e: Event, sid: SessionId)
    requires !e.Create? && !e.Accept? && sid in Next(w, e).app.sessions.byId
    ensures sid in w.app.sessions.byId && SameSession(Next(w, e).app.sessions.byId[sid], w.app.sessions.byId[sid])
  {
    if e.Media? || e.Again? {
      RecordEdited(w, e, sid);
    } else {
      assert forall s: SessionRecord :: SameSession(s, s);
      hide TickSet, InvitesExpired, InviteClosed, SessionParties, PolicyFor, PolicySet, Upserted, Bootstrapped,
           SameSession;
    }
    hide Next;
  }

  lemma RecordEdited(w: World, e: Event, sid: SessionId)
    requires (e.Media? || e.Again?) && sid in Next(w, e).app.sessions.byId
    ensures sid in w.app.sessions.byId && SameSession(Next(w, e).app.sessions.byId[sid], w.app.sessions.byId[sid])
  {
    hide RowOf, PolicyFor, ExtendSegment, ExtraSet, Party;
  }

  /** Emergency stop is set and cleared only by the steward's own request for that dog. */
  lemma EstopStep(w: World, e: Event, d: DogId)
    requires WorldOk(w)
    ensures PolicyFor(Next(w, e).app.policies, d).emergencyStop ==
            if e.Estop? && e.dog == d then e.on else PolicyFor(w.app.policies, d).emergencyStop
  {
    hide InvitesOk, SessionsOk, PolicySet, InviteCreated, InviteAccepted, InvitesExpired;
    match e
    case Estop(dog, on) =>
      PolicySetReads(w.app.policies, PolicyFor(w.app.policies, dog).(emergencyStop := on), d);
    case Social(dog, on) =>
      PolicySetReads(w.app.policies, PolicyFor(w.app.policies, dog).(socialDisabled := on), d);
    case Amend(dog, c) =>
      PolicySetReads(w.app.policies, Changed(PolicyFor(w.app.policies, dog), c), d);
    case Create(_, _, _, _, _, _, _) => CreateShape(w.app, e);
    case Accept(_, _, _, _) => AcceptShape(w.app, e);
    case _ =>
  }
}

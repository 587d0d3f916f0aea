/** The control-plane service (services/device-api/src/main.rs): handlers and the one-second
    tick, each as one atomic step on the stores. Every handler is a method over the store
    objects, specified by a function on the state; callers are assumed authenticated, and
    identifiers and clock readings are parameters. */
module DeviceApi {
  import opened Base
  import opened Protocol
  import opened Policy
  import opened Bond
  import opened Session
  import opened Memory
  import opened Sqlite

  datatype App = App(presence: Presences, bonds: Edges, invites: Invites, sessions: Sessions,
                     policies: Policies, rows: Rows)

  const EMPTY_APP := App(map[], map[], Invites(map[], map[], map[]), NO_SESSIONS, map[], map[])

  /** Why a request is refused. */
  datatype Refusal =
    | Denied(deny: PolicyDeny)
    | RateLimited
    | CallerBusy
    | Unroutable(routing: InviteError)
    | PeerDenied(deny: PolicyDeny)
    | PeerBusy
    | Busy
    | NotFound
    | NotParty
    | Unacceptable(reason: AcceptError)
    | SessionBusy

  datatype Reply<T> = Reply(app: App, result: Result<T, Refusal>)

  predicate Engaged(a: App, d: DogId) {
    InviteForDog(a.invites, d).Some? || SessionForDog(a.sessions, d).Some?
  }

  /** `POST /v1/invites`. `now` is the handler's clock reading, `stamp` the later one taken when
      the invite is built, `cands` the candidate list as the bond graph happened to order it. */
  function InviteCreated(a: App, dog: DogId, preferred: Option<DogId>, mode: InviteMode, id: InviteId,
                         now: Time, stamp: Time, cands: seq<(DogId, real)>): Reply<Invite>
  {
    var a1 := a.(invites := InvitesExpired(a.invites, now));
    var pol := PolicyFor(a.policies, dog);
    match SocialDenied(pol, now)
    case Some(e) => Reply(a1, Failure(Denied(e)))
    case None =>
      var a2 := a1.(invites := Pruned(a1.invites, dog, now));
      if !InviteRateOk(|Recent(TimesOf(a1.invites, dog), now)|, pol.maxInvitesPerHour) then
        Reply(a2, Failure(RateLimited))
      else if Engaged(a2, dog) then Reply(a2, Failure(CallerBusy))
      else
        match RouteInvite(dog, preferred, a.bonds, cands, PresentDogs(a.presence, now), PresentAt(a.presence, dog, now))
        case Failure(e) => Reply(a2, Failure(Unroutable(e)))
        case Success(to) =>
          match SocialDenied(PolicyFor(a.policies, to), now)
          case Some(e) => Reply(a2, Failure(PeerDenied(e)))
          case None =>
            var inv := NewInvite(id, dog, to, mode, stamp);
            if Engaged(a2, to) then Reply(a2, Failure(PeerBusy))
            else if !Free(a2.invites, inv) then Reply(a2, Failure(Busy))
            else Reply(a2.(invites := Recorded(InviteInserted(a2.invites, inv), dog, now)), Success(inv))
  }

  /** `GET /v1/invites/incoming`. */
  function IncomingRead(a: App, dog: DogId, now: Time): Reply<Option<Invite>> {
    var pol := PolicyFor(a.policies, dog);
    if pol.emergencyStop || pol.socialDisabled then Reply(a, Success(None))
    else
      var a1 := a.(invites := InvitesExpired(a.invites, now));
      var inv := InviteForDog(a1.invites, dog);
      Reply(a1, Success(if inv.Some? && inv.value.toDog == dog && inv.value.state == Ringing then inv else None))
  }

  /** `POST /v1/invites/{id}/cancel`. */
  function InviteCancelled(a: App, dog: DogId, id: InviteId): Reply<()> {
    if id !in a.invites.byId then Reply(a, Failure(NotFound))
    else
      var inv := a.invites.byId[id];
      if inv.fromDog != dog && inv.toDog != dog then Reply(a, Failure(NotParty))
      else Reply(a.(invites := InviteClosed(a.invites, id)), Success(()))
  }

  /** The session an accepted invite becomes: both deadlines come from the callee's policy. */
  function Negotiated(s: SessionRecord, pol: DogPolicy, now: Time): SessionRecord {
    s.(state := Negotiating, maxEndAt := now + pol.maxSessionSec * 1000,
       segmentDeadlineAt := now + pol.segmentSec * 1000)
  }

  /** `POST /v1/invites/{id}/accept`. */
  function InviteAccepted(a: App, dog: DogId, id: InviteId, sid: SessionId, now: Time): Reply<SessionRecord> {
    var pol := PolicyFor(a.policies, dog);
    match SocialDenied(pol, now)
    case Some(e) => Reply(a, Failure(Denied(e)))
    case None =>
      var a1 := a.(invites := InvitesExpired(a.invites, now));
      if id !in a1.invites.byId then Reply(a1, Failure(NotFound))
      else
        match AcceptInvite(a1.invites.byId[id], dog, PresentAt(a.presence, dog, now), sid, now)
        case Failure(e) => Reply(a1, Failure(Unacceptable(e)))
        case Success(plain) =>
          var s := Negotiated(plain, pol, now);
          var a2 := a1.(invites := InviteClosed(a1.invites, id));
          if !SessionFree(a2.sessions, s) then Reply(a2, Failure(SessionBusy))
          else
            Reply(a2.(sessions := SessionInserted(a2.sessions, s), rows := a2.rows[sid := RowOf(s, false, false)]),
                  Success(s))
  }

  /** `POST /v1/sessions/{id}/end`. */
  function SessionClosed(a: App, dog: DogId, sid: SessionId): Reply<()> {
    if sid !in a.sessions.byId then Reply(a, Failure(NotFound))
    else if !Party(a.sessions.byId[sid], dog) then Reply(a, Failure(NotParty))
    else Reply(a.(sessions := SessionEnded(a.sessions, sid), rows := a.rows - {sid}), Success(()))
  }

  /** `POST /v1/sessions/{id}/media_ready`. The row flags are the source's approximation. */
  function MediaReported(a: App, dog: DogId, sid: SessionId, ready: bool): Reply<bool> {
    if !CanSetMedia(a.sessions, sid, dog) then Reply(a, Failure(NotFound))
    else
      var s := MediaSet(a.sessions, sid, dog, ready);
      var both := BothReady(s, sid);
      var r := s.byId[sid];
      Reply(a.(sessions := s, rows := a.rows[r.id := RowOf(r, both || dog == r.dogA, both || dog == r.dogB)]),
            Success(both))
  }

  /** `POST /v1/sessions/{id}/again`. */
  function AgainPressed(a: App, dog: DogId, sid: SessionId, now: Time): Reply<SessionRecord> {
    if sid !in a.sessions.byId then Reply(a, Failure(NotFound))
    else
      var sess := a.sessions.byId[sid];
      if !Party(sess, dog) then Reply(a, Failure(NotParty))
      else
        var deadline := ExtendSegment(now, PolicyFor(a.policies, dog).segmentSec, sess.maxEndAt);
        var s := DeadlineSet(a.sessions, sid, deadline);
        var r := s.byId[sid];
        Reply(a.(sessions := s, rows := a.rows[r.id := RowOf(r, true, true)]), Success(r))
  }

  /** `POST /v1/steward/estop`. */
  function Stopped(a: App, dog: DogId, on: bool): App {
    var a1 := a.(policies := PolicySet(a.policies, PolicyFor(a.policies, dog).(emergencyStop := on)));
    var s := SessionForDog(a.sessions, dog);
    if on && s.Some? then
      a1.(sessions := SessionEnded(a.sessions, s.value.id), rows := a.rows - {s.value.id})
    else a1
  }

  /** `POST /v1/steward/social_disabled`. */
  function SocialSet(a: App, dog: DogId, on: bool): App {
    a.(policies := PolicySet(a.policies, PolicyFor(a.policies, dog).(socialDisabled := on)))
  }

  datatype PolicyChange = PolicyChange(sleepStartMin: Option<U16>, sleepEndMin: Option<U16>, utcOffsetMin: Option<int>,
                                       maxSessionSec: Option<nat>, segmentSec: Option<nat>,
                                       maxInvitesPerHour: Option<nat>)

  function Or<T>(change: Option<T>, value: T): T { if change.Some? then change.value else value }

  function Changed(p: DogPolicy, c: PolicyChange): DogPolicy {
    p.(sleepStartMin := Or(c.sleepStartMin, p.sleepStartMin), sleepEndMin := Or(c.sleepEndMin, p.sleepEndMin),
       utcOffsetMin := Or(c.utcOffsetMin, p.utcOffsetMin), maxSessionSec := Or(c.maxSessionSec, p.maxSessionSec),
       segmentSec := Or(c.segmentSec, p.segmentSec), maxInvitesPerHour := Or(c.maxInvitesPerHour, p.maxInvitesPerHour))
  }

  /** `POST /v1/steward/policy`. */
  function PolicyChanged(a: App, dog: DogId, c: PolicyChange): App {
    a.(policies := PolicySet(a.policies, Changed(PolicyFor(a.policies, dog), c)))
  }

  /** Does the tick end this session? The age limit is the caller's (`dogA`); the hard end stored
      in the session is not consulted. */
  predicate TickEnds(p: Policies, s: SessionRecord, now: Time) {
    PastMax(s.startedAt, PolicyFor(p, s.dogA).maxSessionSec, now) ||
    (now >= s.segmentDeadlineAt && s.state == Active) ||
    PolicyFor(p, s.dogA).emergencyStop || PolicyFor(p, s.dogB).emergencyStop
  }

  function TickSet(a: App, now: Time): set<SessionId> {
    set sid | sid in a.sessions.byId && TickEnds(a.policies, a.sessions.byId[sid], now)
  }

  /** The one-second policy tick, for any order in which the sessions are visited. */
  function Ticked(a: App, now: Time): App {
    a.(invites := InvitesExpired(a.invites, now), sessions := SessionsEnded(a.sessions, TickSet(a, now)),
       rows := a.rows - TickSet(a, now))
  }

  /** The live sessions and their rows. */
  datatype Mirrored = Mirrored(sessions: Sessions, rows: Rows)

  function Dropped(m: Mirrored, sid: SessionId): Mirrored {
    Mirrored(SessionEnded(m.sessions, sid), m.rows - {sid})
  }

  /** After the tick has visited the sessions `ids`. */
  function Swept(m: Mirrored, p: Policies, ids: set<SessionId>, now: Time): Mirrored {
    var ended := set sid | sid in ids && sid in m.sessions.byId && TickEnds(p, m.sessions.byId[sid], now);
    Mirrored(SessionsEnded(m.sessions, ended), m.rows - ended)
  }

  lemma SweptMore(m: Mirrored, p: Policies, ids: set<SessionId>, sid: SessionId, now: Time)
    requires sid in m.sessions.byId && sid !in ids
    ensures Swept(m, p, ids + {sid}, now)
            == if TickEnds(p, m.sessions.byId[sid], now) then Dropped(Swept(m, p, ids, now), sid)
               else Swept(m, p, ids, now)
  {
    hide TickEnds, SessionsEnded, SessionEnded;
    var byId := m.sessions.byId;
    var ended := set s | s in ids && s in byId && TickEnds(p, byId[s], now);
    var more := set s | s in ids + {sid} && s in byId && TickEnds(p, byId[s], now);
    assert more == if TickEnds(p, byId[sid], now) then ended + {sid} else ended;
    EndedOneMore(m.sessions, ended, sid);
    assert m.rows - ended - {sid} == m.rows - (ended + {sid});
  }

  lemma SweptNone(m: Mirrored, p: Policies, now: Time)
    ensures Swept(m, p, {}, now) == m
  {
    EndedNone(m.sessions);
    assert m.rows - {} == m.rows;
  }

  lemma SweptAll(a: App, now: Time)
    ensures Swept(Mirrored(a.sessions, a.rows), a.policies, a.sessions.byId.Keys, now)
            == Mirrored(Ticked(a, now).sessions, Ticked(a, now).rows)
  {
    hide TickEnds, SessionsEnded, InvitesExpired;
    assert TickSet(a, now)
        == set s | s in a.sessions.byId.Keys && s in a.sessions.byId && TickEnds(a.policies, a.sessions.byId[s], now);
  }

  function IdsOf(invs: set<Invite>): set<InviteId> { set inv | inv in invs :: inv.id }

  function DueInvites(s: Invites, now: Time): set<Invite> { set id | id in Due(s, now) :: s.byId[id] }

  predicate KeyedById(s: Sessions) { forall sid :: sid in s.byId ==> s.byId[sid].id == sid }

  /** The service: the shared stores, and the database pool that mirrors the session store. */
  class Server {
    const presence: PresenceStore
    const bonds: BondGraph
    const invites: InviteStore
    const sessions: SessionStore
    const policies: PolicyStore
    const pool: Pool

    ghost function View(): App
      reads presence, bonds, invites, sessions, policies, pool
    {
      App(presence.inner, bonds.edges, invites.View(), sessions.View(), policies.View(), pool.sessions)
    }

    constructor ()
      ensures View() == EMPTY_APP
      ensures fresh(presence) && fresh(bonds) && fresh(invites) && fresh(sessions) && fresh(policies) && fresh(pool)
    {
      presence := new PresenceStore();
      bonds := new BondGraph();
      invites := new InviteStore();
      sessions := new SessionStore();
      policies := new PolicyStore();
      pool := new Pool();
    }

    method PostPresence(report: PresenceReport)
      modifies presence, policies
      ensures View() == old(View()).(presence := Upserted(old(presence.inner), report))
    {
      policies.BindTerminal(report.terminalId, report.dogId);
      presence.Upsert(report);
    }

    method BootstrapBond(a: DogId, b: DogId, weight: real)
      modifies bonds
      ensures View() == old(View()).(bonds := Bootstrapped(old(bonds.edges), a, b, weight))
    {
      bonds.BootstrapMutual(a, b, weight);
    }

    method CreateInvite(dog: DogId, preferred: Option<DogId>, mode: InviteMode, id: InviteId, now: Time, stamp: Time)
      returns (r: Result<Invite, Refusal>, ghost cands: seq<(DogId, real)>)
      modifies invites, policies, pool
      ensures IsCandidates(bonds.edges, dog, cands)
      ensures pool.invites == if r.Success? then old(pool.invites)[r.value.id := r.value] else old(pool.invites)
      ensures Reply(View(), r) == InviteCreated(old(View()), dog, preferred, mode, id, now, stamp, cands)
    {
      hide PolicyStore.View, PolicyFor, SocialDenied, InvitesExpired, PresentAt, PresentDogs, RouteInvite, Pruned,
           InviteInserted, Recorded, IsCandidates, InviteForDog, SessionForDog, TimesOf, Recent, Free;
      var list := bonds.Candidates(dog);
      cands := list;
      var _ := invites.ExpireDue(now);
      var pol := policies.Ensure(dog);
      var denied := SocialDenied(pol, now);
      if denied.Some? {
        return Failure(Denied(denied.value)), cands;
      }
      var count := invites.InvitesLastHour(dog, now);
      if !InviteRateOk(count, pol.maxInvitesPerHour) {
        return Failure(RateLimited), cands;
      }
      var callerInvite := invites.ForDog(dog);
      var callerSession := sessions.ForDog(dog);
      if callerInvite.Some? || callerSession.Some? {
        return Failure(CallerBusy), cands;
      }
      var presentIds := presence.PresentDogIds(now);
      var callerPresent := presence.IsPresent(dog, now);
      var routed := RouteInvite(dog, preferred, bonds.edges, list, presentIds, callerPresent);
      if routed.Failure? {
        return Failure(Unroutable(routed.error)), cands;
      }
      var to := routed.value;
      var peerPol := policies.Ensure(to);
      var peerDenied := SocialDenied(peerPol, now);
      if peerDenied.Some? {
        return Failure(PeerDenied(peerDenied.value)), cands;
      }
      var peerInvite := invites.ForDog(to);
      var peerSession := sessions.ForDog(to);
      if peerInvite.Some? || peerSession.Some? {
        return Failure(PeerBusy), cands;
      }
      var invite := NewInvite(id, dog, to, mode, stamp);
      var ok := invites.Insert(invite);
      if !ok {
        return Failure(Busy), cands;
      }
      invites.RecordInvite(dog, now);
      pool.SaveInvite(invite);
      r := Success(invite);
    }

    method IncomingInvite(dog: DogId, now: Time) returns (r: Option<Invite>)
      modifies invites, policies
      ensures Reply(View(), Success(r)) == IncomingRead(old(View()), dog, now)
    {
      var pol := policies.Ensure(dog);
      if pol.emergencyStop || pol.socialDisabled {
        return None;
      }
      var _ := invites.ExpireDue(now);
      r := invites.ForDog(dog);
      if r.Some? && !(r.value.toDog == dog && r.value.state == Ringing) {
        r := None;
      }
    }

    method CancelInvite(dog: DogId, id: InviteId) returns (r: Result<(), Refusal>)
      modifies invites, pool
      ensures Reply(View(), r) == InviteCancelled(old(View()), dog, id)
      ensures pool.invites == if r.Success? then old(pool.invites) - {id} else old(pool.invites)
    {
      var inv := invites.Get(id);
      if inv.None? {
        return Failure(NotFound);
      }
      if inv.value.fromDog != dog && inv.value.toDog != dog {
        return Failure(NotParty);
      }
      var _ := invites.Close(id);
      pool.DeleteInvite(id);
      r := Success(());
    }

    method AcceptInviteHandler(dog: DogId, id: InviteId, sid: SessionId, now: Time)
      returns (r: Result<SessionRecord, Refusal>)
      modifies invites, sessions, policies, pool
      ensures Reply(View(), r) == InviteAccepted(old(View()), dog, id, sid, now)
      ensures pool.invites == if r.Success? then old(pool.invites) - {id} else old(pool.invites)
    {
      hide SocialDenied, InvitesExpired, PresentAt, RowOf, SessionInserted, SessionFree, InviteClosed, PolicyStore.View,
           PolicyFor;
      var pol := policies.Ensure(dog);
      var denied := SocialDenied(pol, now);
      if denied.Some? {
        return Failure(Denied(denied.value));
      }
      var _ := invites.ExpireDue(now);
      var invite := invites.Get(id);
      if invite.None? {
        return Failure(NotFound);
      }
      var present := presence.IsPresent(dog, now);
      var accepted := AcceptInvite(invite.value, dog, present, sid, now);
      if accepted.Failure? {
        return Failure(Unacceptable(accepted.error));
      }
      var session := accepted.value.(state := Negotiating);
      session := session.(maxEndAt := now + pol.maxSessionSec * 1000);
      session := session.(segmentDeadlineAt := now + pol.segmentSec * 1000);
      var _ := invites.Close(id);
      var ok := sessions.Insert(session);
      if !ok {
        return Failure(SessionBusy);
      }
      pool.DeleteInvite(id);
      pool.SaveSession(session, false, false);
      r := Success(session);
    }

    method EndSession(dog: DogId, sid: SessionId) returns (r: Result<(), Refusal>)
      modifies sessions, pool
      ensures Reply(View(), r) == SessionClosed(old(View()), dog, sid) && pool.invites == old(pool.invites)
    {
      var sess := sessions.Get(sid);
      if sess.None? {
        return Failure(NotFound);
      }
      if sess.value.dogA != dog && sess.value.dogB != dog {
        return Failure(NotParty);
      }
      var _ := sessions.End(sid);
      pool.DeleteSession(sid);
      r := Success(());
    }

    method MediaReady(dog: DogId, sid: SessionId, ready: bool) returns (r: Result<bool, Refusal>)
      modifies sessions, pool
      ensures Reply(View(), r) == MediaReported(old(View()), dog, sid, ready) && pool.invites == old(pool.invites)
    {
      var outcome := sessions.SetMediaReady(sid, dog, ready);
      if outcome.None? {
        return Failure(NotFound);
      }
      var (both, session) := outcome.value;
      pool.SaveSession(session, both || dog == session.dogA, both || dog == session.dogB);
      r := Success(both);
    }

    method Again(dog: DogId, sid: SessionId, now: Time) returns (r: Result<SessionRecord, Refusal>)
      modifies sessions, policies, pool
      ensures Reply(View(), r) == AgainPressed(old(View()), dog, sid, now) && pool.invites == old(pool.invites)
    {
      var sess := sessions.Get(sid);
      if sess.None? {
        return Failure(NotFound);
      }
      if sess.value.dogA != dog && sess.value.dogB != dog {
        return Failure(NotParty);
      }
      var pol := policies.Ensure(dog);
      var deadline := ExtendSegment(now, pol.segmentSec, sess.value.maxEndAt);
      var session := sessions.UpdateDeadline(sid, deadline);
      if session.None? {
        return Failure(NotFound);
      }
      pool.SaveSession(session.value, true, true);
      r := Success(session.value);
    }

    method StewardEstop(dog: DogId, enabled: bool)
      modifies sessions, policies, pool
      ensures View() == Stopped(old(View()), dog, enabled) && pool.invites == old(pool.invites)
    {
      policies.SetEstop(dog, enabled);
      if enabled {
        var s := sessions.ForDog(dog);
        if s.Some? {
          var _ := sessions.End(s.value.id);
          pool.DeleteSession(s.value.id);
        }
      }
    }

    method StewardSocial(dog: DogId, enabled: bool)
      modifies policies
      ensures View() == SocialSet(old(View()), dog, enabled)
    {
      policies.SetSocialDisabled(dog, enabled);
    }

    method StewardPolicy(dog: DogId, c: PolicyChange)
      modifies policies
      ensures View() == PolicyChanged(old(View()), dog, c)
    {
      var p := policies.Ensure(dog);
      p := p.(sleepStartMin := Or(c.sleepStartMin, p.sleepStartMin));
      p := p.(sleepEndMin := Or(c.sleepEndMin, p.sleepEndMin));
      p := p.(utcOffsetMin := Or(c.utcOffsetMin, p.utcOffsetMin));
      p := p.(maxSessionSec := Or(c.maxSessionSec, p.maxSessionSec));
      p := p.(segmentSec := Or(c.segmentSec, p.segmentSec));
      p := p.(maxInvitesPerHour := Or(c.maxInvitesPerHour, p.maxInvitesPerHour));
      policies.Set(p);
    }

    method ShouldEnd(sess: SessionRecord, now: Time) returns (end: bool)
      modifies policies
      ensures policies.View() == old(policies.View())
      ensures end == TickEnds(policies.View(), sess, now)
    {
      var polA := policies.Ensure(sess.dogA);
      if PastMax(sess.startedAt, polA.maxSessionSec, now) {
        return true;
      } else if now >= sess.segmentDeadlineAt && sess.state == Active {
        return true;
      }
      polA := policies.Ensure(sess.dogA);
      if polA.emergencyStop {
        return true;
      }
      var polB := policies.Ensure(sess.dogB);
      end := polB.emergencyStop;
    }

    ghost function Mirror(): Mirrored
      reads sessions, pool
    {
      Mirrored(sessions.View(), pool.sessions)
    }

    method EndIfDue(sess: SessionRecord, now: Time)
      modifies sessions, policies, pool
      ensures policies.View() == old(policies.View()) && pool.invites == old(pool.invites)
      ensures Mirror() == if TickEnds(policies.View(), sess, now) then Dropped(old(Mirror()), sess.id)
                          else old(Mirror())
    {
      var end := ShouldEnd(sess, now);
      if end {
        var _ := sessions.End(sess.id);
        pool.DeleteSession(sess.id);
      }
    }

    /** The tick's walk over a copy of the session map. */
    method EndOverdue(now: Time)
      requires KeyedById(sessions.View())
      modifies sessions, policies, pool
      ensures policies.View() == old(policies.View()) && pool.invites == old(pool.invites)
      ensures Mirror() == Swept(old(Mirror()), policies.View(), old(sessions.byId).Keys, now)
    {
      hide Swept, Dropped, TickEnds, PolicyStore.View;
      ghost var m, p := Mirror(), policies.View();
      var all := sessions.byId;
      var todo := all.Keys;
      ghost var done: set<SessionId> := {};
      SweptNone(m, p, now);
      assert m.sessions.byId == all;
      while todo != {}
        invariant done + todo == all.Keys && done !! todo
        invariant Mirror() == Swept(m, p, done, now) && policies.View() == p && pool.invites == old(pool.invites)
        decreases |todo|
      {
        hide Mirror;
        var sid :| sid in todo;
        todo := todo - {sid};
        SweptMore(m, p, done, sid, now);
        EndIfDue(all[sid], now);
        done := done + {sid};
      }
      assert done == all.Keys;
    }

    /** The rows of the invites the tick has expired. */
    method DeleteRows(gone: set<Invite>)
      modifies pool
      ensures pool.invites == old(pool.invites) - IdsOf(gone) && pool.sessions == old(pool.sessions)
    {
      var todo := gone;
      while todo != {}
        invariant todo <= gone && pool.sessions == old(pool.sessions)
        invariant pool.invites == old(pool.invites) - IdsOf(gone - todo)
        decreases |todo|
      {
        var inv :| inv in todo;
        assert gone - (todo - {inv}) == (gone - todo) + {inv};
        todo := todo - {inv};
        pool.DeleteInvite(inv.id);
      }
      assert gone - {} == gone;
    }

    method PolicyTick(now: Time)
      requires KeyedById(sessions.View())
      modifies invites, sessions, policies, pool
      ensures View() == Ticked(old(View()), now)
      ensures pool.invites == old(pool.invites) - IdsOf(DueInvites(old(invites.View()), now))
    {
      hide InvitesExpired, SessionsEnded, TickEnds, Swept, TickSet, PolicyStore.View, IdsOf;
      SweptAll(View(), now);
      var gone := invites.ExpireDue(now);
      DeleteRows(gone);
      EndOverdue(now);
    }
  }
}

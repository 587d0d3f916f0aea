/** What each request answers, and why it is refused (services/device-api/src/main.rs:416-734). */
module Answers {
  import opened Base
  import opened Protocol
  import opened Policy
  import opened Bond
  import opened Session
  import opened Memory
  import opened Sqlite
  import opened DeviceApi
  import opened Runs
  import opened Steps
  import opened Consent
  import opened Welfare
  import opened Outcomes

  /// ---- Requests about an invite or a session ----

  /** A request by a dog that is no party to the invite or session it names, or about one that is not
      there. */
  predicate Outsider(a: App, e: Event) {
    match e
    case Cancel(dog, id) =>
      id !in a.invites.byId || (a.invites.byId[id].fromDog != dog && a.invites.byId[id].toDog != dog)
    case End(dog, sid) => Foreign(a.sessions, dog, sid)
    case Media(dog, sid, _) => Foreign(a.sessions, dog, sid)
    case Again(dog, sid, _) => Foreign(a.sessions, dog, sid)
    case _ => false
  }

  predicate Foreign(s: Sessions, dog: DogId, sid: SessionId) {
    sid !in s.byId || (s.byId[sid].dogA != dog && s.byId[sid].dogB != dog)
  }

  /** How such a request was refused, if it was. */
  function Refused(a: App, e: Event): Option<Refusal> {
    match e
    case Cancel(dog, id) => ErrorOf(InviteCancelled(a, dog, id).result)
    case End(dog, sid) => ErrorOf(SessionClosed(a, dog, sid).result)
    case Media(dog, sid, ready) => ErrorOf(MediaReported(a, dog, sid, ready).result)
    case Again(dog, sid, now) => ErrorOf(AgainPressed(a, dog, sid, now).result)
    case _ => None
  }

  function ErrorOf<T>(r: Result<T, Refusal>): Option<Refusal> { if r.Failure? then Some(r.error) else None }

  /** Whether the invite or session is there at all. */
  predicate Names(a: App, e: Event) {
    match e
    case Cancel(_, id) => id in a.invites.byId
    case End(_, sid) => sid in a.sessions.byId
    case Again(_, sid, _) => sid in a.sessions.byId
    case _ => false
  }

  /** Cancels, ends, media reports and Agains are refused to outsiders and to nobody else, and then
      change nothing. A dog that is no party is told so, except that a media report is told the
      session is not there. */
  lemma OutsidersRefused(ws: seq<World>, es: seq<Event>, n: nat)
    requires Run(ws, es) && n < |es| && (es[n].Cancel? || es[n].End? || es[n].Media? || es[n].Again?)
    ensures var a, e := ws[n].app, es[n];
            && (Refused(a, e).Some? <==> Outsider(a, e))
            && (Refused(a, e) == Some(NotParty) <==> Outsider(a, e) && Names(a, e))
            && (Outsider(a, e) ==> ws[n + 1].app == a && Refused(a, e).value in {NotParty, NotFound})
  {
    hide *;
    LinkedAt(ws, es, n);
    RunKeeps(ws, es, n);
    FlagsAreThere(ws[n]);
    OutsiderStep(ws[n], es[n]);
  }

  lemma FlagsAreThere(w: World)
    requires WorldOk(w)
    ensures w.app.sessions.media.Keys == w.app.sessions.byId.Keys
  {
    hide InvitesOk;
  }

  lemma OutsiderStep(w: World, e: Event)
    requires e.Cancel? || e.End? || e.Media? || e.Again?
    requires w.app.sessions.media.Keys == w.app.sessions.byId.Keys
    ensures var a := w.app;
            && (Refused(a, e).Some? <==> Outsider(a, e))
            && (Refused(a, e) == Some(NotParty) <==> Outsider(a, e) && Names(a, e))
            && (Outsider(a, e) ==> Next(w, e).app == a && Refused(a, e).value in {NotParty, NotFound})
  {
    hide MediaSet, RowOf, BothReady, DeadlineSet, ExtendSegment, PolicyFor, SessionEnded, InviteClosed;
  }

  /** A media report is answered "both ready" if and only if the last report of each of the session's
      two dogs, this one included, was ready. */
  lemma MediaAnswer(ws: seq<World>, es: seq<Event>, n: nat)
    requires Run(ws, es) && n < |es| && es[n].Media? && !Outsider(ws[n].app, es[n])
    ensures var e, s := es[n], ws[n].app.sessions.byId[es[n].sid];
            MediaReported(ws[n].app, e.dog, e.sid, e.ready).result ==
            Success(s.dogA != s.dogB && ReadyLast(ws, es, n + 1, s.dogA, e.sid) &&
                    ReadyLast(ws, es, n + 1, s.dogB, e.sid))
  {
    hide *;
    LinkedAt(ws, es, n);
    RunKeeps(ws, es, n);
    FlagsAreThere(ws[n]);
    OutsiderStep(ws[n], es[n]);
    BothAfter(ws[n], es[n]);
    FlagIsLastReport(ws, es, n + 1, es[n].sid);
  }

  lemma BothAfter(w: World, e: Event)
    requires e.Media? && !Outsider(w.app, e) && w.app.sessions.media.Keys == w.app.sessions.byId.Keys
    ensures var t, s := Next(w, e).app.sessions, w.app.sessions.byId[e.sid];
            && e.sid in w.app.sessions.byId && e.sid in t.byId && e.sid in t.media
            && t.byId[e.sid].dogA == s.dogA && t.byId[e.sid].dogB == s.dogB
            && MediaReported(w.app, e.dog, e.sid, e.ready).result
               == Success(t.media[e.sid].mediaA && t.media[e.sid].mediaB)
  {
    hide RowOf;
  }

  /** Again, pressed by one of its dogs, answers with the session as it then stands: its segment ends a
      segment of the presser's from now, or at the hard end if that is sooner, and nothing else of it
      has changed. */
  lemma AgainAnswer(ws: seq<World>, es: seq<Event>, n: nat)
    requires Run(ws, es) && n < |es| && es[n].Again? && !Outsider(ws[n].app, es[n])
    ensures var a, e := ws[n].app, es[n];
            var s, t := a.sessions.byId[e.sid], ws[n + 1].app.sessions.byId;
            && e.sid in t && AgainPressed(a, e.dog, e.sid, e.now).result == Success(t[e.sid])
            && t[e.sid] == s.(segmentDeadlineAt :=
                                Least(e.now + PolicyFor(a.policies, e.dog).segmentSec * 1000, s.maxEndAt))
  {
    hide *;
    LinkedAt(ws, es, n);
    AgainStep(ws[n], es[n]);
  }

  lemma AgainStep(w: World, e: Event)
    requires e.Again? && !Outsider(w.app, e)
    ensures var a := w.app;
            e.sid in a.sessions.byId &&
            var s, t := a.sessions.byId[e.sid], Next(w, e).app.sessions.byId;
            && e.sid in t && AgainPressed(a, e.dog, e.sid, e.now).result == Success(t[e.sid])
            && t[e.sid] == s.(segmentDeadlineAt :=
                                Least(e.now + PolicyFor(a.policies, e.dog).segmentSec * 1000, s.maxEndAt))
  {
    hide RowOf, PolicyFor;
  }

  /// ---- Accept ----

  /** Why an accept is refused: its own policy first, then an invite that is not open or already due,
      then one addressed to another dog, then absence. It is never refused because the invite is not
      ringing, is found expired, or because a dog is in a session. */
  lemma AcceptAnswer(ws: seq<World>, es: seq<Event>, n: nat)
    requires Run(ws, es) && n < |es| && es[n].Accept?
    ensures var a, e := ws[n].app, es[n];
            var r := AcceptReply(ws[n], e).result;
            var open := e.id in a.invites.byId && e.now < a.invites.byId[e.id].expiresAt;
            && (forall rule :: r == Failure(Denied(rule)) <==> Denies(PolicyFor(a.policies, e.dog), e.now, rule))
            && (r == Failure(NotFound) <==> Willing(a, e.dog, e.now) && !open)
            && (r == Failure(Unacceptable(NotCallee)) <==>
                Willing(a, e.dog, e.now) && open && a.invites.byId[e.id].toDog != e.dog)
            && (r == Failure(Unacceptable(NotPresent)) <==>
                Willing(a, e.dog, e.now) && open && a.invites.byId[e.id].toDog == e.dog &&
                !PresentAt(a.presence, e.dog, e.now))
            && (r.Failure? ==>
                  r.error.Denied? || r.error in {NotFound, Unacceptable(NotCallee), Unacceptable(NotPresent)})
  {
    hide *;
    LinkedAt(ws, es, n);
    RunKeeps(ws, es, n);
    AcceptUnmet(ws[n], es[n]);
  }

  lemma AcceptUnmet(w: World, e: Event)
    requires WorldOk(w) && e.Accept? && Enabled(w, e)
    ensures var a, r := w.app, AcceptReply(w, e).result;
            var open := e.id in a.invites.byId && e.now < a.invites.byId[e.id].expiresAt;
            && (forall rule :: r == Failure(Denied(rule)) <==> Denies(PolicyFor(a.policies, e.dog), e.now, rule))
            && (r == Failure(NotFound) <==> Willing(a, e.dog, e.now) && !open)
            && (r == Failure(Unacceptable(NotCallee)) <==>
                Willing(a, e.dog, e.now) && open && a.invites.byId[e.id].toDog != e.dog)
            && (r == Failure(Unacceptable(NotPresent)) <==>
                Willing(a, e.dog, e.now) && open && a.invites.byId[e.id].toDog == e.dog &&
                !PresentAt(a.presence, e.dog, e.now))
            && (r.Failure? ==>
                  r.error.Denied? || r.error in {NotFound, Unacceptable(NotCallee), Unacceptable(NotPresent)})
  {
    hide *;
    AcceptNotBusy(w, e);
    StillRings(w, e.now, e.id);
    ExpiryExact(w.app.invites, e.now, e.id);
    AcceptTurns(w.app, e);
    DeniedIff(PolicyFor(w.app.policies, e.dog), e.now);
    WillingIs(w.app, e.dog, e.now);
  }

  lemma WillingIs(a: App, d: DogId, now: Time)
    ensures Willing(a, d, now) <==> Sociable(PolicyFor(a.policies, d), now)
  {}

  lemma AcceptNotBusy(w: World, e: Event)
    requires WorldOk(w) && e.Accept? && Enabled(w, e)
    ensures AcceptReply(w, e).result != Failure(SessionBusy)
    ensures AcceptReply(w, e) == InviteAccepted(w.app, e.dog, e.id, e.sid, e.now)
  {
    AcceptKeeps(w, e);
    hide InviteAccepted;
  }

  lemma StillRings(w: World, now: Time, id: InviteId)
    requires WorldOk(w)
    ensures var s, x := w.app.invites, InvitesExpired(w.app.invites, now);
            id in x.byId ==> id in s.byId && x.byId[id] == s.byId[id] && x.byId[id].state == Ringing &&
                             now < x.byId[id].expiresAt
  {
    ExpiredKeeps(w.app, now);
    InviteRings(w, id);
    hide WorldOk, InvitesExpired, AppOk, InvitesOk;
  }

  lemma AcceptTurns(a: App, e: Event)
    requires e.Accept?
    ensures var x, denied := InvitesExpired(a.invites, e.now).byId, SocialDenied(PolicyFor(a.policies, e.dog), e.now);
            var r := InviteAccepted(a, e.dog, e.id, e.sid, e.now).result;
            if denied.Some? then r == Failure(Denied(denied.value))
            else if e.id !in x then r == Failure(NotFound)
            else if x[e.id].toDog != e.dog then r == Failure(Unacceptable(NotCallee))
            else if x[e.id].state != Ringing then r == Failure(Unacceptable(NotRinging))
            else if e.now >= x[e.id].expiresAt then r == Failure(Unacceptable(Expired))
            else if !PresentAt(a.presence, e.dog, e.now) then r == Failure(Unacceptable(NotPresent))
            else r.Success? || r == Failure(SessionBusy)
  {
    hide InvitesExpired, SocialDenied, PolicyFor, PresentAt, InviteClosed, SessionInserted, SessionFree, RowOf,
         Negotiated;
  }

  /// ---- Create ----

  /** The dog asked for, if it is another than the caller. */
  predicate AsksFor(e: Event, to: DogId)
    requires e.Create?
  {
    e.preferred == Some(to) && to != e.dog
  }

  /** Some peer the call may be routed to is denied by this rule. */
  ghost predicate SomePeerDenied(a: App, e: Event, rule: PolicyDeny)
    requires e.Create?
  {
    exists to :: Callable(a, e.dog, e.preferred, to, e.now) && Denies(PolicyFor(a.policies, to), e.now, rule)
  }

  ghost predicate SomePeerBusy(a: App, e: Event)
    requires e.Create?
  {
    exists to :: Callable(a, e.dog, e.preferred, to, e.now) && Willing(a, to, e.now) && Occupied(a, to, e.now)
  }

  /** The caller has made as many invites in the last hour, by its full history, as it may. */
  ghost predicate UsedUp(ws: seq<World>, es: seq<Event>, n: nat, e: Event)
    requires Run(ws, es) && n <= |es| && e.Create?
  {
    InLastHour(InvitesBy(ws, es, e.dog, n), e.now) >= PolicyFor(ws[n].app.policies, e.dog).maxInvitesPerHour
  }

  /** Why a create is refused for the caller's own sake: its policy, then its hourly limit, then that
      it is occupied. */
  ghost predicate CallerRefused(a: App, e: Event, full: bool, r: Result<Invite, Refusal>)
    requires e.Create?
  {
    && (forall rule :: r == Failure(Denied(rule)) <==> Denies(PolicyFor(a.policies, e.dog), e.now, rule))
    && (r == Failure(RateLimited) <==> Willing(a, e.dog, e.now) && full)
    && (r == Failure(CallerBusy) <==> Willing(a, e.dog, e.now) && !full && Occupied(a, e.dog, e.now))
  }

  /** Why it is refused for want of a route, the caller being free to call: the caller is absent; it
      asks for a dog that is not bonded with it, or is, but is absent; it asks for itself, or for
      nobody and there is nobody. */
  ghost predicate RouteRefused(a: App, e: Event, free: bool, r: Result<Invite, Refusal>)
    requires e.Create?
  {
    var here := free && PresentAt(a.presence, e.dog, e.now);
    && (r == Failure(Unroutable(CallerNotPresent)) <==> free && !PresentAt(a.presence, e.dog, e.now))
    && (r == Failure(Unroutable(NotBonded)) <==>
        here && exists to :: AsksFor(e, to) && !MutualEligible(a.bonds, e.dog, to))
    && (r == Failure(Unroutable(PeerNotPresent)) <==>
        here && exists to :: AsksFor(e, to) && MutualEligible(a.bonds, e.dog, to) && !PresentAt(a.presence, to, e.now))
    && (r == Failure(Unroutable(NoEligiblePeer)) <==>
        here && (e.preferred == Some(e.dog) ||
                 (e.preferred.None? && forall to :: !Reachable(a, e.dog, to, e.now))))
  }

  /** Why it is refused for the peer's sake: the peer it is routed to is denied by a rule, or allowed
      but occupied. If the call asks for a dog there is only one such peer. */
  ghost predicate PeerRefused(a: App, e: Event, free: bool, r: Result<Invite, Refusal>)
    requires e.Create?
  {
    && (forall rule :: r == Failure(PeerDenied(rule)) ==> free && SomePeerDenied(a, e, rule))
    && (r == Failure(PeerBusy) ==> free && SomePeerBusy(a, e))
    && (e.preferred.Some? ==>
          && (forall rule :: free && SomePeerDenied(a, e, rule) ==> r == Failure(PeerDenied(rule)))
          && (free && SomePeerBusy(a, e) ==> r == Failure(PeerBusy)))
  }

  lemma CreateTurns(a: App, e: Event)
    requires e.Create?
    ensures var x := InvitesExpired(a.invites, e.now);
            var b, pol := a.(invites := x), PolicyFor(a.policies, e.dog);
            var denied, route := SocialDenied(pol, e.now), RouteOf(a, e);
            var r := InviteCreated(a, e.dog, e.preferred, e.mode, e.id, e.now, e.stamp, e.cands).result;
            if denied.Some? then r == Failure(Denied(denied.value))
            else if |Recent(TimesOf(x, e.dog), e.now)| >= pol.maxInvitesPerHour then r == Failure(RateLimited)
            else if Engaged(b, e.dog) then r == Failure(CallerBusy)
            else if route.Failure? then r == Failure(Unroutable(route.error))
            else
              var peer := SocialDenied(PolicyFor(a.policies, route.value), e.now);
              if peer.Some? then r == Failure(PeerDenied(peer.value))
              else if Engaged(b, route.value) then r == Failure(PeerBusy)
              else r.Success? || r == Failure(Busy)
  {
    hide SocialDenied, RouteInvite, PresentDogs, PresentAt, Recent, InvitesExpired, PolicyFor, Free, InviteInserted;
  }

  lemma RouteTurns(a: App, e: Event)
    requires e.Create? && IsCandidates(a.bonds, e.dog, e.cands)
    ensures var r := RouteOf(a, e);
            && (r == Failure(CallerNotPresent) <==> !PresentAt(a.presence, e.dog, e.now))
            && (r == Failure(NotBonded) <==>
                PresentAt(a.presence, e.dog, e.now) &&
                exists to :: AsksFor(e, to) && !MutualEligible(a.bonds, e.dog, to))
            && (r == Failure(PeerNotPresent) <==>
                PresentAt(a.presence, e.dog, e.now) &&
                exists to :: AsksFor(e, to) && MutualEligible(a.bonds, e.dog, to) && !PresentAt(a.presence, to, e.now))
            && (r == Failure(NoEligiblePeer) <==>
                PresentAt(a.presence, e.dog, e.now) &&
                (e.preferred == Some(e.dog) ||
                 (e.preferred.None? && forall to :: !Reachable(a, e.dog, to, e.now))))
  {
    var present := PresentDogs(a.presence, e.now);
    forall q ensures q in present <==> PresentAt(a.presence, q, e.now) {}
    hide PresentDogs, PresentAt, IsCandidates, MutualEligible;
    if e.preferred.None? {
      RouteOptimal(e.dog, a.bonds, e.cands, present);
      assert RouteOf(a, e).Success? ==> Reachable(a, e.dog, RouteOf(a, e).value, e.now);
    } else {
      assert e.preferred.value != e.dog ==> AsksFor(e, e.preferred.value);
    }
  }

  /** The refusals a create can meet. */
  predicate CreateRefusal(r: Refusal) {
    r.Denied? || r.Unroutable? || r.PeerDenied? || r in {RateLimited, CallerBusy, PeerBusy}
  }

  /** Why a create is refused, in every reachable state: for the caller's sake, for want of a route, or
      for the peer's sake, in that order; and for no other reason. */
  lemma CreateAnswer(ws: seq<World>, es: seq<Event>, n: nat, e: Event)
    requires Run(ws, es) && n <= |es| && e.Create? && Enabled(ws[n], e)
    ensures var a, r := ws[n].app, CreateReply(ws[n], e).result;
            var free := CallerFree(ws, es, n, e.dog, e.now);
            && CallerRefused(a, e, UsedUp(ws, es, n, e), r) && RouteRefused(a, e, free, r)
            && PeerRefused(a, e, free, r) && (r.Failure? ==> CreateRefusal(r.error))
  {
    assert |ws| == |es| + 1;
    hide *;
    var a, r, full := ws[n].app, CreateReply(ws[n], e).result, UsedUp(ws, es, n, e);
    CreateParts(ws, es, n, e);
    FreeIff(ws, es, n, e);
    CallerAnswer(a, e, full, r);
    RouteAnswer(a, e, full, r);
    PeerAnswer(a, e, full, r);
  }

  /** The turns a create takes. */
  ghost predicate Turns(a: App, e: Event, full: bool, r: Result<Invite, Refusal>)
    requires e.Create?
  {
    var denied, route := SocialDenied(PolicyFor(a.policies, e.dog), e.now), RouteOf(a, e);
    if denied.Some? then r == Failure(Denied(denied.value))
    else if full then r == Failure(RateLimited)
    else if Occupied(a, e.dog, e.now) then r == Failure(CallerBusy)
    else if route.Failure? then r == Failure(Unroutable(route.error))
    else
      var peer := SocialDenied(PolicyFor(a.policies, route.value), e.now);
      if peer.Some? then r == Failure(PeerDenied(peer.value))
      else if Occupied(a, route.value, e.now) then r == Failure(PeerBusy)
      else r.Success?
  }

  ghost predicate FreeToCall(a: App, e: Event, full: bool)
    requires e.Create?
  {
    Willing(a, e.dog, e.now) && !full && !Occupied(a, e.dog, e.now)
  }

  lemma FreeIff(ws: seq<World>, es: seq<Event>, n: nat, e: Event)
    requires Run(ws, es) && n <= |es| && e.Create?
    ensures CallerFree(ws, es, n, e.dog, e.now) <==> FreeToCall(ws[n].app, e, UsedUp(ws, es, n, e))
  {
    hide Run, Willing, Occupied, InLastHour, InvitesBy, PolicyFor;
  }

  lemma CreateParts(ws: seq<World>, es: seq<Event>, n: nat, e: Event)
    requires Run(ws, es) && n <= |es| && e.Create? && Enabled(ws[n], e)
    ensures Turns(ws[n].app, e, UsedUp(ws, es, n, e), CreateReply(ws[n], e).result)
    ensures IsCandidates(ws[n].app.bonds, e.dog, e.cands)
    ensures var r := CreateReply(ws[n], e).result; r.Failure? ==> CreateRefusal(r.error)
  {
    var a := ws[n].app;
    RunKeeps(ws, es, n);
    PrunedAgrees(ws, es, e.dog, n, e.now);
    HourCount(ws, es, e.dog, n, e.now);
    CreateNeverBusy(ws[n], e);
    CreateTurns(a, e);
    ExpiredTimes(a, e.now);
    EngagedIff(a, e.dog, e.now);
    if RouteOf(a, e).Success? {
      EngagedIff(a, RouteOf(a, e).value, e.now);
    }
    hide WorldOk, InviteCreated, InvitesExpired, RouteOf, SocialDenied, PolicyFor, Recent, InvitesBy, InLastHour,
         Engaged, Occupied, TimesOf, IsCandidates, Run;
  }

  lemma CallerAnswer(a: App, e: Event, full: bool, r: Result<Invite, Refusal>)
    requires e.Create? && Turns(a, e, full, r)
    ensures CallerRefused(a, e, full, r)
  {
    DeniedIff(PolicyFor(a.policies, e.dog), e.now);
    hide SocialDenied, Sociable, Denies, PolicyFor, Occupied, RouteOf;
  }

  lemma RouteAnswer(a: App, e: Event, full: bool, r: Result<Invite, Refusal>)
    requires e.Create? && Turns(a, e, full, r) && IsCandidates(a.bonds, e.dog, e.cands)
    ensures RouteRefused(a, e, FreeToCall(a, e, full), r)
  {
    DeniedIff(PolicyFor(a.policies, e.dog), e.now);
    RouteTurns(a, e);
    hide SocialDenied, Sociable, PolicyFor, Occupied, RouteOf, IsCandidates, PresentAt, MutualEligible,
         Reachable, AsksFor;
  }

  lemma PeerAnswer(a: App, e: Event, full: bool, r: Result<Invite, Refusal>)
    requires e.Create? && Turns(a, e, full, r) && IsCandidates(a.bonds, e.dog, e.cands)
    ensures PeerRefused(a, e, FreeToCall(a, e, full), r)
  {
    DeniedIff(PolicyFor(a.policies, e.dog), e.now);
    RouteCallable(a, e);
    var route := RouteOf(a, e);
    if route.Success? {
      DeniedIff(PolicyFor(a.policies, route.value), e.now);
    }
    OnlyCallable(a, e);
    hide SocialDenied, Sociable, Denies, PolicyFor, Occupied, RouteOf, IsCandidates, Callable;
  }

  lemma OnlyCallable(a: App, e: Event)
    requires e.Create?
    ensures e.preferred.Some? ==> forall to :: Callable(a, e.dog, e.preferred, to, e.now) ==> to == e.preferred.value
  {
    hide Reachable, PresentAt;
  }
}

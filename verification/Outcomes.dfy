/** When requests succeed: exact conditions for create and accept in every reachable state
    (services/device-api/src/main.rs:416-608). */
module Outcomes {
  import opened Base
  import opened Protocol
  import opened Policy
  import opened Bond
  import opened Session
  import opened Memory
  import opened Sqlite
  import opened DeviceApi
  import opened Runs
  import opened Steps
  import opened Consent
  import opened Welfare

  /// ---- When a call is taken up ----

  /** The invite an accept would take up: open, addressed to the dog and not yet due. */
  predicate Acceptable(a: App, d: DogId, id: InviteId, now: Time) {
    id in a.invites.byId && a.invites.byId[id].toDog == d && now < a.invites.byId[id].expiresAt
  }

  /** An accept succeeds if and only if the invite is open, addressed to the dog and not yet due, the
      dog is present, and the dog's own policy allows. The caller's policy has no say. */
  lemma AcceptSucceedsIff(ws: seq<World>, es: seq<Event>, n: nat)
    requires Run(ws, es) && n < |es| && es[n].Accept?
    ensures var a, e := ws[n].app, es[n];
            AcceptReply(ws[n], e).result.Success? <==>
            && Acceptable(a, e.dog, e.id, e.now) && PresentAt(a.presence, e.dog, e.now)
            && Willing(a, e.dog, e.now)
  {
    RunKeeps(ws, es, n);
    assert Linked(ws, es, n);
    AcceptedIff(ws[n], es[n]);
    hide *;
  }

  lemma AcceptedIff(w: World, e: Event)
    requires WorldOk(w) && e.Accept? && Enabled(w, e)
    ensures AcceptReply(w, e).result.Success? <==>
            && Acceptable(w.app, e.dog, e.id, e.now) && PresentAt(w.app.presence, e.dog, e.now)
            && Willing(w.app, e.dog, e.now)
  {
    DeniedIff(PolicyFor(w.app.policies, e.dog), e.now);
    AcceptKeeps(w, e);
    AcceptUnbusyIff(w.app, e);
    ExpiredKeeps(w.app, e.now);
    ExpiryExact(w.app.invites, e.now, e.id);
    InviteRings(w, e.id);
    hide WorldOk, InviteAccepted, InvitesExpired, PresentAt, SocialDenied, Sociable, PolicyFor;
  }

  lemma InviteRings(w: World, id: InviteId)
    requires WorldOk(w)
    ensures id in w.app.invites.byId ==> w.app.invites.byId[id].state == Ringing
  {}

  lemma AcceptUnbusyIff(a: App, e: Event)
    requires e.Accept?
    ensures var r, x := InviteAccepted(a, e.dog, e.id, e.sid, e.now).result, InvitesExpired(a.invites, e.now);
            r.Success? || r.error == SessionBusy <==>
            && SocialDenied(PolicyFor(a.policies, e.dog), e.now).None?
            && e.id in x.byId && x.byId[e.id].toDog == e.dog && x.byId[e.id].state == Ringing
            && e.now < x.byId[e.id].expiresAt && PresentAt(a.presence, e.dog, e.now)
  {
    hide SocialDenied, PresentAt, RowOf, InvitesExpired, PolicyFor, InviteClosed, SessionInserted;
  }

  /** An accept puts a stopped dog into a session if and only if it succeeds and the caller is under
      emergency stop. */
  lemma AcceptJoinsStoppedIff(ws: seq<World>, es: seq<Event>, n: nat, d: DogId)
    requires Run(ws, es) && n < |es| && es[n].Accept?
    ensures var a, b, e := ws[n].app, ws[n + 1].app, es[n];
            (e.sid in b.sessions.byId && Party(b.sessions.byId[e.sid], d) && PolicyFor(b.policies, d).emergencyStop)
            <==>
            && Acceptable(a, e.dog, e.id, e.now) && PresentAt(a.presence, e.dog, e.now)
            && Willing(a, e.dog, e.now)
            && d == a.invites.byId[e.id].fromDog && PolicyFor(a.policies, d).emergencyStop
  {
    hide WorldOk, After, PolicyFor, PresentAt, Asleep, AcceptReply;
    RunKeeps(ws, es, n);
    assert Linked(ws, es, n);
    AcceptSucceedsIff(ws, es, n);
    AcceptIsNext(ws[n], es[n]);
    AcceptSessions(ws[n], es[n]);
    FreshSession(ws[n], es[n]);
    if AcceptReply(ws[n], es[n]).result.Success? {
      BornFacts(ws, es, n);
    }
  }

  /// ---- When a call goes out ----

  /** The dog is party to an open invite that is not yet due, or to a session. */
  ghost predicate Occupied(a: App, d: DogId, now: Time) {
    (exists id | id in a.invites.byId :: Rings(a.invites.byId[id], d) && now < a.invites.byId[id].expiresAt) ||
    (exists sid | sid in a.sessions.byId :: Party(a.sessions.byId[sid], d))
  }

  /** The caller may call: its own policy allows, its full history of the last hour is under its
      limit, and it is not occupied. */
  ghost predicate CallerFree(ws: seq<World>, es: seq<Event>, n: nat, d: DogId, now: Time)
    requires Run(ws, es) && n <= |es|
  {
    var a := ws[n].app;
    && Willing(a, d, now)
    && InLastHour(InvitesBy(ws, es, d, n), now) < PolicyFor(a.policies, d).maxInvitesPerHour
    && !Occupied(a, d, now)
  }

  ghost predicate PeerFree(a: App, to: DogId, now: Time) {
    Willing(a, to, now) && !Occupied(a, to, now)
  }

  predicate Reachable(a: App, d: DogId, to: DogId, now: Time) {
    PresentAt(a.presence, to, now) && MutualEligible(a.bonds, d, to)
  }

  /** A peer the call may be routed to: both dogs are present and mutually bonded, and it is the
      other dog asked for or, if none was, one of greatest weight. */
  ghost predicate Callable(a: App, d: DogId, preferred: Option<DogId>, to: DogId, now: Time) {
    && PresentAt(a.presence, d, now) && Reachable(a, d, to, now)
    && match preferred
       case Some(p) => to == p && to != d
       case None => forall q :: Reachable(a, d, q, now) ==> Weight(a.bonds, d, q) <= Weight(a.bonds, d, to)
  }

  function RouteOf(a: App, e: Event): Result<DogId, InviteError>
    requires e.Create?
  {
    RouteInvite(e.dog, e.preferred, a.bonds, e.cands, PresentDogs(a.presence, e.now),
                PresentAt(a.presence, e.dog, e.now))
  }

  /** Routing finds a callable peer, and fails only if there is none. */
  lemma RouteCallable(a: App, e: Event)
    requires e.Create? && IsCandidates(a.bonds, e.dog, e.cands)
    ensures RouteOf(a, e).Success? ==> Callable(a, e.dog, e.preferred, RouteOf(a, e).value, e.now)
    ensures RouteOf(a, e).Failure? ==> forall to :: !Callable(a, e.dog, e.preferred, to, e.now)
  {
    var present := PresentDogs(a.presence, e.now);
    forall q ensures q in present <==> PresentAt(a.presence, q, e.now) {}
    hide PresentDogs, PresentAt, IsCandidates;
    if e.preferred.None? {
      RouteOptimal(e.dog, a.bonds, e.cands, present);
    }
  }

  lemma CreateSucceedsIff(ws: seq<World>, es: seq<Event>, n: nat, e: Event)
    requires Run(ws, es) && n <= |es| && e.Create? && Enabled(ws[n], e)
    ensures var a := ws[n].app;
            CreateReply(ws[n], e).result.Success? <==>
            CallerFree(ws, es, n, e.dog, e.now) && RouteOf(a, e).Success? && PeerFree(a, RouteOf(a, e).value, e.now)
  {
    var a := ws[n].app;
    RunKeeps(ws, es, n);
    PrunedAgrees(ws, es, e.dog, n, e.now);
    HourCount(ws, es, e.dog, n, e.now);
    CreatedIff(a, e);
    CreateNeverBusy(ws[n], e);
    EngagedIff(a, e.dog, e.now);
    ExpiredTimes(a, e.now);
    DeniedIff(PolicyFor(a.policies, e.dog), e.now);
    if RouteOf(a, e).Success? {
      DeniedIff(PolicyFor(a.policies, RouteOf(a, e).value), e.now);
      EngagedIff(a, RouteOf(a, e).value, e.now);
    }
    hide WorldOk, InviteCreated, InvitesExpired, RouteInvite, SocialDenied, Sociable, PolicyFor, Recent, InvitesBy,
         InLastHour, Engaged, Occupied, TimesOf, IsCandidates, PresentAt, PresentDogs, Run;
  }

  /** A call to a given dog goes out if and only if the caller may call, the two are different,
      present and mutually bonded, and the other is allowed and not occupied. */
  lemma DirectedCreateIff(ws: seq<World>, es: seq<Event>, n: nat, e: Event, to: DogId)
    requires Run(ws, es) && n <= |es| && e.Create? && Enabled(ws[n], e) && e.preferred == Some(to)
    ensures CreateReply(ws[n], e).result.Success? <==>
            && CallerFree(ws, es, n, e.dog, e.now) && Callable(ws[n].app, e.dog, e.preferred, to, e.now)
            && PeerFree(ws[n].app, to, e.now)
  {
    CreateSucceedsIff(ws, es, n, e);
    RouteCallable(ws[n].app, e);
    hide CreateReply, CallerFree, PeerFree, Reachable, RouteOf, Run;
  }

  /** The same call with the candidates in another order. */
  ghost predicate GoesOut(w: World, e: Event, cands: seq<(DogId, real)>)
    requires e.Create?
  {
    IsCandidates(w.app.bonds, e.dog, cands) && CreateReply(w, e.(cands := cands)).result.Success?
  }

  /** An automatic call is settled by the strongest reachable peers. It goes out for some iteration
      order of the hash map if and only if the caller may call and one of them is allowed and not
      occupied; it goes out for every order if and only if all of them are. A weaker peer is never
      tried instead. */
  lemma {:induction false} AutomaticCreateIff(ws: seq<World>, es: seq<Event>, n: nat, e: Event)
    requires Run(ws, es) && n <= |es| && e.Create? && Enabled(ws[n], e) && e.preferred.None?
    ensures var a := ws[n].app;
            (exists c :: GoesOut(ws[n], e, c)) <==>
            && CallerFree(ws, es, n, e.dog, e.now)
            && exists to :: Callable(a, e.dog, None, to, e.now) && PeerFree(a, to, e.now)
    ensures var a := ws[n].app;
            (forall c :: IsCandidates(a.bonds, e.dog, c) ==> GoesOut(ws[n], e, c)) <==>
            && CallerFree(ws, es, n, e.dog, e.now)
            && (exists to :: Callable(a, e.dog, None, to, e.now))
            && forall to :: Callable(a, e.dog, None, to, e.now) ==> PeerFree(a, to, e.now)
  {
    var a, w := ws[n].app, ws[n];
    forall c | IsCandidates(a.bonds, e.dog, c)
      ensures var r := RouteOf(a, e.(cands := c));
              && (GoesOut(w, e, c) <==>
                  CallerFree(ws, es, n, e.dog, e.now) && r.Success? && PeerFree(a, r.value, e.now))
              && (r.Success? ==> Callable(a, e.dog, None, r.value, e.now))
              && (r.Failure? ==> forall to :: !Callable(a, e.dog, None, to, e.now))
    {
      OneOrder(ws, es, n, e, c);
    }
    forall to | Callable(a, e.dog, None, to, e.now)
      ensures exists c :: IsCandidates(a.bonds, e.dog, c) && RouteOf(a, e.(cands := c)) == Success(to)
    {
      var c := Leads(a, e, to);
    }
    assert IsCandidates(a.bonds, e.dog, e.cands);
    hide *;
  }

  lemma OneOrder(ws: seq<World>, es: seq<Event>, n: nat, e: Event, c: seq<(DogId, real)>)
    requires Run(ws, es) && n <= |es| && e.Create? && Enabled(ws[n], e) && e.preferred.None?
    requires IsCandidates(ws[n].app.bonds, e.dog, c)
    ensures var a := ws[n].app;
            var r := RouteOf(a, e.(cands := c));
            && (GoesOut(ws[n], e, c) <==>
                CallerFree(ws, es, n, e.dog, e.now) && r.Success? && PeerFree(a, r.value, e.now))
            && (r.Success? ==> Callable(a, e.dog, None, r.value, e.now))
            && (r.Failure? ==> forall to :: !Callable(a, e.dog, None, to, e.now))
  {
    var f := e.(cands := c);
    assert Enabled(ws[n], f) by { hide IsCandidates; }
    CreateSucceedsIff(ws, es, n, f);
    RouteCallable(ws[n].app, f);
    hide CreateReply, CallerFree, PeerFree, Callable, RouteOf, Run, IsCandidates;
  }

  lemma Leads(a: App, e: Event, to: DogId) returns (c: seq<(DogId, real)>)
    requires e.Create? && e.preferred.None? && IsCandidates(a.bonds, e.dog, e.cands)
    requires Callable(a, e.dog, None, to, e.now)
    ensures IsCandidates(a.bonds, e.dog, c) && RouteOf(a, e.(cands := c)) == Success(to)
  {
    var present := PresentDogs(a.presence, e.now);
    forall q ensures q in present <==> PresentAt(a.presence, q, e.now) {}
    hide PresentDogs, PresentAt, IsCandidates;
    forall p | p in present && MutualEligible(a.bonds, e.dog, p)
      ensures Weight(a.bonds, e.dog, p) <= Weight(a.bonds, e.dog, to)
    {
      assert Reachable(a, e.dog, p, e.now);
    }
    c := TieCanLead(e.dog, a.bonds, e.cands, present, to);
  }

  lemma ExpiredTimes(a: App, now: Time)
    ensures InvitesExpired(a.invites, now).times == a.invites.times
    ensures forall d :: TimesOf(InvitesExpired(a.invites, now), d) == TimesOf(a.invites, d)
  {}

  lemma CreatedIff(a: App, e: Event)
    requires e.Create?
    ensures var x := InvitesExpired(a.invites, e.now);
            var r := InviteCreated(a, e.dog, e.preferred, e.mode, e.id, e.now, e.stamp, e.cands).result;
            var route := RouteInvite(e.dog, e.preferred, a.bonds, e.cands, PresentDogs(a.presence, e.now),
                                     PresentAt(a.presence, e.dog, e.now));
            r.Success? || r.error == Busy <==>
            && SocialDenied(PolicyFor(a.policies, e.dog), e.now).None?
            && |Recent(TimesOf(x, e.dog), e.now)| < PolicyFor(a.policies, e.dog).maxInvitesPerHour
            && !Engaged(a.(invites := x), e.dog)
            && route.Success?
            && SocialDenied(PolicyFor(a.policies, route.value), e.now).None?
            && !Engaged(a.(invites := x), route.value)
  {
    hide SocialDenied, RouteInvite, PresentDogs, PresentAt, Recent, InvitesExpired, PolicyFor, Free, InviteInserted;
  }

  lemma EngagedIff(a: App, d: DogId, now: Time)
    requires AppOk(a)
    ensures Engaged(a.(invites := InvitesExpired(a.invites, now)), d) <==> Occupied(a, d, now)
  {
    ExpiredKeeps(a, now);
    var x := InvitesExpired(a.invites, now);
    hide InvitesExpired;
    forall id | id in a.invites.byId ensures id in x.byId <==> now < a.invites.byId[id].expiresAt {
      ExpiryExact(a.invites, now, id);
    }
    RingsIndexed(x, d);
    PartyIndexed(a.sessions, d);
    hide InvitesOk, SessionsOk, InviteForDog, SessionForDog;
  }

  lemma RingsIndexed(s: Invites, d: DogId)
    requires InvitesOk(s)
    ensures InviteForDog(s, d).Some? <==> exists id | id in s.byId :: Rings(s.byId[id], d)
  {
    if InviteForDog(s, d).Some? {
      assert Rings(s.byId[s.open[d]], d);
    }
  }

  lemma PartyIndexed(s: Sessions, d: DogId)
    requires SessionsOk(s)
    ensures SessionForDog(s, d).Some? <==> exists sid | sid in s.byId :: Party(s.byId[sid], d)
  {
    if SessionForDog(s, d).Some? {
      assert Party(s.byId[s.byDog[d]], d);
    }
  }
}

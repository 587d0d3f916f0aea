/** Who may meet whom: exclusivity of invites and sessions, and where every session came from,
    over all runs of the control plane. */
module Consent {
  import opened Base
  import opened Protocol
  import opened Policy
  import opened Bond
  import opened Session
  import opened Memory
  import opened Sqlite
  import opened DeviceApi
  import opened Runs
  import opened Steps

  /// ---- Exclusivity ----

  predicate Rings(inv: Invite, d: DogId) { d == inv.fromDog || d == inv.toDog }

  predicate InvitesExclusive(s: Invites, d: DogId) {
    && (forall i, j | i in s.byId && j in s.byId :: Rings(s.byId[i], d) && Rings(s.byId[j], d) ==> i == j)
    && (forall i | i in s.byId :: Rings(s.byId[i], d) <==> InviteForDog(s, d) == Some(s.byId[i]))
  }

  predicate SessionsExclusive(s: Sessions, d: DogId) {
    && (forall i, j | i in s.byId && j in s.byId :: Party(s.byId[i], d) && Party(s.byId[j], d) ==> i == j)
    && (forall i | i in s.byId :: Party(s.byId[i], d) <==> SessionForDog(s, d) == Some(s.byId[i]))
    && s.media.Keys == s.byId.Keys
  }

  /** Dog `d` is a party to at most one open invite or session, counted over the records
      themselves, and each index answers with exactly that record. */
  predicate Exclusive(a: App, d: DogId) {
    && InvitesExclusive(a.invites, d) && SessionsExclusive(a.sessions, d)
    && (forall i, j | i in a.invites.byId && j in a.sessions.byId ::
          !(Rings(a.invites.byId[i], d) && Party(a.sessions.byId[j], d)))
  }

  lemma IndexedInvites(s: Invites, d: DogId)
    requires InvitesOk(s)
    ensures InvitesExclusive(s, d)
    ensures forall i | i in s.byId :: Rings(s.byId[i], d) ==> d in s.open.Keys
  {}

  lemma IndexedSessions(s: Sessions, d: DogId)
    requires SessionsOk(s)
    ensures SessionsExclusive(s, d)
    ensures forall i | i in s.byId :: Party(s.byId[i], d) ==> d in s.byDog.Keys
  {}

  lemma OkIsExclusive(a: App, d: DogId)
    requires AppOk(a)
    ensures Exclusive(a, d)
  {
    hide KeyedByDog, InvitesOk, SessionsOk, InvitesExclusive, SessionsExclusive, Rings, Party;
    IndexedInvites(a.invites, d);
    IndexedSessions(a.sessions, d);
  }

  /** Exclusivity holds for every dog in every reachable state. */
  lemma Exclusivity(ws: seq<World>, es: seq<Event>, n: nat, d: DogId)
    requires Run(ws, es) && n <= |es|
    ensures Exclusive(ws[n].app, d)
  {
    hide AppOk, Exclusive;
    RunKeeps(ws, es, n);
    OkIsExclusive(ws[n].app, d);
  }

  /** The two internal "busy" refusals, after every earlier check has passed, never happen. */
  lemma NeverBusyInside(ws: seq<World>, es: seq<Event>, n: nat)
    requires Run(ws, es) && n < |es|
    ensures es[n].Accept? ==> AcceptReply(ws[n], es[n]).result != Failure(SessionBusy)
    ensures es[n].Create? ==> CreateReply(ws[n], es[n]).result != Failure(Busy)
  {
    RunKeeps(ws, es, n);
    assert Linked(ws, es, n);
    hide Next, WorldOk, InviteCreated, InviteAccepted;
    if es[n].Accept? {
      AcceptKeeps(ws[n], es[n]);
    }
    if es[n].Create? {
      CreateNeverBusy(ws[n], es[n]);
    }
  }

  lemma CreateNeverBusy(w: World, e: Event)
    requires WorldOk(w) && e.Create?
    ensures CreateReply(w, e).result != Failure(Busy)
  {
    hide InviteCreated, InvitesExpired, InvitesOk, SessionsOk, InviteForDog;
    ExpiredKeeps(w.app, e.now);
    var x := InvitesExpired(w.app.invites, e.now);
    var p := Pruned(x, e.dog, e.now);
    TimesIrrelevant(x, p);
    CreateBusyShape(w.app, e);
    forall d | InviteForDog(p, d).None? ensures d !in p.open {
      UnindexedIsFree(p, d);
    }
  }

  lemma UnindexedIsFree(s: Invites, d: DogId)
    requires InvitesOk(s) && InviteForDog(s, d).None?
    ensures d !in s.open
  {}

  lemma CreateBusyShape(a: App, e: Event)
    requires e.Create?
    ensures var p := Pruned(InvitesExpired(a.invites, e.now), e.dog, e.now);
            InviteCreated(a, e.dog, e.preferred, e.mode, e.id, e.now, e.stamp, e.cands).result == Failure(Busy) ==>
              InviteForDog(p, e.dog).None? &&
              exists to :: InviteForDog(p, to).None? && (e.dog in p.open || to in p.open)
  {
    hide SocialDenied, RouteInvite, PresentDogs, PresentAt, Recent, InvitesExpired, PolicyFor, Pruned, InviteForDog,
         SessionForDog;
  }

  /// ---- Provenance ----

  /** Step `j` is the create that made this invite. */
  ghost predicate MadeAt(ws: seq<World>, es: seq<Event>, j: nat, inv: Invite)
    requires Run(ws, es)
  {
    j < |es| && es[j].Create? && CreateReply(ws[j], es[j]).result == Success(inv)
  }

  /** Step `i` is the accept that made this session. */
  ghost predicate BornAt(ws: seq<World>, es: seq<Event>, i: nat, s: SessionRecord)
    requires Run(ws, es)
  {
    i < |es| && es[i].Accept? && es[i].sid == s.id && es[i].dog == s.dogB &&
    AcceptReply(ws[i], es[i]).result.Success? && SameSession(s, AcceptReply(ws[i], es[i]).result.value)
  }

  lemma {:induction false} InviteOrigin(ws: seq<World>, es: seq<Event>, n: nat, id: InviteId) returns (j: nat)
    requires Run(ws, es) && n <= |es| && id in ws[n].app.invites.byId
    ensures j < n && MadeAt(ws, es, j, ws[n].app.invites.byId[id]) && es[j].id == id
    ensures id in ws[j + 1].app.invites.byId && ws[j + 1].app.invites.byId[id] == ws[n].app.invites.byId[id]
    decreases n
  {
    hide AppOk, CreateReply, Next, Enabled;
    assert n > 0;
    RunKeeps(ws, es, n - 1);
    assert Linked(ws, es, n - 1);
    InviteStep(ws[n - 1], es[n - 1], id);
    if es[n - 1].Create? && es[n - 1].id == id &&
       CreateReply(ws[n - 1], es[n - 1]).result == Success(ws[n].app.invites.byId[id]) {
      j := n - 1;
    } else {
      j := InviteOrigin(ws, es, n - 1, id);
    }
  }

  lemma {:induction false} SessionOrigin(ws: seq<World>, es: seq<Event>, n: nat, sid: SessionId) returns (i: nat)
    requires Run(ws, es) && n <= |es| && sid in ws[n].app.sessions.byId
    ensures i < n && BornAt(ws, es, i, ws[n].app.sessions.byId[sid]) && es[i].sid == sid
    decreases n
  {
    hide AppOk, AcceptReply, Next, Enabled;
    assert n > 0;
    RunKeeps(ws, es, n - 1);
    assert Linked(ws, es, n - 1);
    SessionStep(ws[n - 1], es[n - 1], sid);
    if sid in ws[n - 1].app.sessions.byId &&
       SameSession(ws[n].app.sessions.byId[sid], ws[n - 1].app.sessions.byId[sid]) {
      i := SessionOrigin(ws, es, n - 1, sid);
    } else {
      IdsMatch(ws[n], sid) by { RunKeeps(ws, es, n); }
      i := n - 1;
    }
  }

  lemma IdsMatch(w: World, sid: SessionId)
    requires WorldOk(w) && sid in w.app.sessions.byId
    ensures w.app.sessions.byId[sid].id == sid
  {}

  /** The dog's own policy lets it meet others now. */
  ghost predicate Willing(a: App, d: DogId, now: Time) { Sociable(PolicyFor(a.policies, d), now) }

  /** What a successful create says about its moment: both dogs were present, mutually bonded and
      willing, and the peer is the one asked for, if one was. */
  lemma MadeFacts(w: World, e: Event)
    requires e.Create? && Enabled(w, e) && CreateReply(w, e).result.Success?
    ensures var inv := CreateReply(w, e).result.value;
            && inv == Invite(e.id, e.dog, inv.toDog, e.mode, Ringing, e.stamp, e.stamp + 25_000)
            && (e.preferred.Some? ==> inv.toDog == e.preferred.value && inv.toDog != e.dog)
            && PresentAt(w.app.presence, e.dog, e.now) && PresentAt(w.app.presence, inv.toDog, e.now)
            && MutualEligible(w.app.bonds, e.dog, inv.toDog)
            && Willing(w.app, e.dog, e.now) && Willing(w.app, inv.toDog, e.now)
  {
    CreateShape(w.app, e);
    DeniedIff(PolicyFor(w.app.policies, e.dog), e.now);
    DeniedIff(PolicyFor(w.app.policies, CreateReply(w, e).result.value.toDog), e.now);
    hide InviteCreated, SocialDenied, Sociable, InvitesExpired, Recent, Free, Engaged, IsCandidates;
    var present := PresentDogs(w.app.presence, e.now);
    if e.preferred.None? {
      RouteOptimal(e.dog, w.app.bonds, e.cands, present);
    } else {
      RoutePreferred(e.dog, e.preferred.value, w.app.bonds, e.cands, present);
    }
  }

  /** Where every open invite, in every reachable state, came from: the create of its first dog, in
      the mode it asked for, when both dogs were present, mutually bonded and willing: neither was
      stopped, disabled or asleep. Returns the step. */
  lemma InviteProvenance(ws: seq<World>, es: seq<Event>, n: nat, id: InviteId) returns (j: nat)
    requires Run(ws, es) && n <= |es| && id in ws[n].app.invites.byId
    ensures j < n && es[j].Create? && es[j].id == id
    ensures var inv, e := ws[n].app.invites.byId[id], es[j];
            && inv == Invite(id, e.dog, inv.toDog, e.mode, Ringing, e.stamp, e.stamp + 25_000)
            && (e.preferred.Some? ==> inv.toDog == e.preferred.value && inv.toDog != e.dog)
            && PresentAt(ws[j].app.presence, e.dog, e.now) && PresentAt(ws[j].app.presence, inv.toDog, e.now)
            && MutualEligible(ws[j].app.bonds, e.dog, inv.toDog)
            && Willing(ws[j].app, e.dog, e.now) && Willing(ws[j].app, inv.toDog, e.now)
  {
    j := InviteOrigin(ws, es, n, id);
    LinkedAt(ws, es, j);
    MadeFacts(ws[j], es[j]);
    hide *;
  }

  /** Consent. Every session in every reachable state was made by its second dog's own accept,
      while that dog was present and willing, of the one invite it names; that invite had been made
      less than 25 seconds earlier by the first dog, in the same mode, when both dogs were present,
      mutually bonded and willing. Returns the steps at which the invite and the session were made. */
  lemma ConsentProvenance(ws: seq<World>, es: seq<Event>, n: nat, sid: SessionId)
    returns (j: nat, i: nat)
    requires Run(ws, es) && n <= |es| && sid in ws[n].app.sessions.byId
    ensures var s := ws[n].app.sessions.byId[sid];
            && j < i < n
            && es[j].Create? && es[j].dog == s.dogA && es[j].id == s.inviteId
            && es[i].Accept? && es[i].dog == s.dogB && es[i].id == s.inviteId && es[i].sid == sid
            && PresentAt(ws[j].app.presence, s.dogA, es[j].now) && PresentAt(ws[j].app.presence, s.dogB, es[j].now)
            && MutualEligible(ws[j].app.bonds, s.dogA, s.dogB)
            && Willing(ws[j].app, s.dogA, es[j].now) && Willing(ws[j].app, s.dogB, es[j].now)
            && PresentAt(ws[i].app.presence, s.dogB, es[i].now) && Willing(ws[i].app, s.dogB, es[i].now)
            && s.mode == es[j].mode && s.startedAt == es[i].now && es[j].stamp <= es[i].now < es[j].stamp + 25_000
            && s.inviteId in ws[i].app.invites.byId && s.inviteId !in ws[i + 1].app.invites.byId
  {
    hide CreateReply, AcceptReply, AppOk, IsCandidates, PresentAt, After, MutualEligible, Willing, PolicyFor;
    i := SessionOrigin(ws, es, n, sid);
    BornFacts(ws, es, i);
    j := InviteOrigin(ws, es, i, es[i].id);
    assert Linked(ws, es, j) && Linked(ws, es, i);
    MadeFacts(ws[j], es[j]);
    ClockMonotone(ws, es, j + 1, i);
  }

  /** What a successful accept says about its moment. */
  lemma BornFacts(ws: seq<World>, es: seq<Event>, i: nat)
    requires Run(ws, es) && i < |es| && es[i].Accept? && AcceptReply(ws[i], es[i]).result.Success?
    ensures var w, e, s := ws[i], es[i], AcceptReply(ws[i], es[i]).result.value;
            var pol := PolicyFor(w.app.policies, e.dog);
            && e.id in w.app.invites.byId && e.id !in ws[i + 1].app.invites.byId
            && (var inv := w.app.invites.byId[e.id];
                && inv.id == e.id && e.now < inv.expiresAt && inv.toDog == e.dog
                && s == SessionRecord(e.sid, e.id, inv.fromDog, e.dog, inv.mode, Negotiating, e.now,
                                      e.now + pol.maxSessionSec * 1000, e.now + pol.segmentSec * 1000))
            && PresentAt(w.app.presence, e.dog, e.now) && Willing(w.app, e.dog, e.now)
  {
    hide AppOk, AcceptReply, PolicyFor, SocialDenied, Sociable, PresentAt;
    DeniedIff(PolicyFor(ws[i].app.policies, es[i].dog), es[i].now);
    RunKeeps(ws, es, i);
    assert Linked(ws, es, i);
    AcceptFacts(ws[i], es[i]);
    assert ws[i + 1].app == AcceptReply(ws[i], es[i]).app by { AcceptIsNext(ws[i], es[i]); }
  }

  lemma AcceptIsNext(w: World, e: Event)
    requires e.Accept?
    ensures Next(w, e).app == AcceptReply(w, e).app
  {
    hide InviteAccepted;
  }

  lemma AcceptFacts(w: World, e: Event)
    requires WorldOk(w) && e.Accept? && AcceptReply(w, e).result.Success?
    ensures var s, pol := AcceptReply(w, e).result.value, PolicyFor(w.app.policies, e.dog);
            && e.id in w.app.invites.byId && e.id !in AcceptReply(w, e).app.invites.byId
            && (var inv := w.app.invites.byId[e.id];
                && inv.id == e.id && e.now < inv.expiresAt && inv.toDog == e.dog
                && s == SessionRecord(e.sid, e.id, inv.fromDog, e.dog, inv.mode, Negotiating, e.now,
                                      e.now + pol.maxSessionSec * 1000, e.now + pol.segmentSec * 1000))
            && PresentAt(w.app.presence, e.dog, e.now) && SocialDenied(pol, e.now).None?
  {
    hide InviteAccepted, InvitesExpired, InviteClosed, InvitesOk, SessionsOk, SocialDenied, PresentAt, SessionInserted,
         RowOf, PolicyFor, SessionFree;
    AcceptShape(w.app, e);
    ExpiredKeeps(w.app, e.now);
    CloseKeeps(InvitesExpired(w.app.invites, e.now), e.id);
    InviteIdMatches(w, e.id);
  }

  lemma InviteIdMatches(w: World, id: InviteId)
    requires WorldOk(w)
    ensures id in w.app.invites.byId ==> w.app.invites.byId[id].id == id && id in w.usedInvites
  {}

  lemma GoneStep(w: World, e: Event, id: InviteId)
    requires WorldOk(w) && Enabled(w, e) && id in w.usedInvites && id !in w.app.invites.byId
    ensures id !in Next(w, e).app.invites.byId && id in Next(w, e).usedInvites
  {
    if id in Next(w, e).app.invites.byId {
      InviteStep(w, e, id);
    }
    hide AppOk, CreateReply, After, IsCandidates;
  }

  /** An invite that has left the store never returns. */
  lemma {:induction false} GoneForGood(ws: seq<World>, es: seq<Event>, m: nat, n: nat, id: InviteId)
    requires Run(ws, es) && m <= n <= |es| && id in ws[m].usedInvites && id !in ws[m].app.invites.byId
    ensures id !in ws[n].app.invites.byId && id in ws[n].usedInvites
    decreases n
  {
    hide *;
    if m < n {
      LinkedAt(ws, es, n - 1);
      RunKeeps(ws, es, n - 1);
      GoneForGood(ws, es, m, n - 1, id);
      GoneStep(ws[n - 1], es[n - 1], id);
    }
  }

  /** No two sessions ever made, even at different times of a run, name the same invite. */
  lemma OneSessionPerInvite(ws: seq<World>, es: seq<Event>, m: nat, n: nat, s: SessionId,
                              t: SessionId)
    requires Run(ws, es) && m <= |es| && n <= |es|
    requires s in ws[m].app.sessions.byId && t in ws[n].app.sessions.byId
    requires ws[m].app.sessions.byId[s].inviteId == ws[n].app.sessions.byId[t].inviteId
    ensures s == t
  {
    hide Linked, WorldOk, PresentAt, MutualEligible;
    var j, i := ConsentProvenance(ws, es, m, s);
    var l, k := ConsentProvenance(ws, es, n, t);
    var id := ws[m].app.sessions.byId[s].inviteId;
    RunKeeps(ws, es, i);
    RunKeeps(ws, es, k);
    InviteIdMatches(ws[i], id);
    InviteIdMatches(ws[k], id);
    ClockMonotone(ws, es, i, i + 1);
    ClockMonotone(ws, es, k, k + 1);
    if i < k {
      GoneForGood(ws, es, i + 1, k, id);
    } else if k < i {
      GoneForGood(ws, es, k + 1, i, id);
    }
  }

  /// ---- Two different dogs, one offerer ----

  /** No bond request ever paired a dog with itself. */
  predicate NoSelfPairing(es: seq<Event>) {
    forall i :: 0 <= i < |es| && es[i].BondPair? ==> es[i].a != es[i].b
  }

  lemma {:induction false} NoSelfBond(ws: seq<World>, es: seq<Event>, n: nat, d: DogId)
    requires Run(ws, es) && NoSelfPairing(es) && n <= |es|
    ensures !MutualEligible(ws[n].app.bonds, d, d)
    decreases n
  {
    if n > 0 {
      NoSelfBond(ws, es, n - 1, d);
      assert Linked(ws, es, n - 1);
      BondStep(ws[n - 1], es[n - 1]);
      if es[n - 1].BondPair? {
        assert {d, d} == {d};
        assert es[n - 1].a in {es[n - 1].a, es[n - 1].b} && es[n - 1].b in {es[n - 1].a, es[n - 1].b};
        BootstrapMakesMutual(ws[n - 1].app.bonds, es[n - 1].a, es[n - 1].b, es[n - 1].weight);
      }
    }
  }

  lemma BondStep(w: World, e: Event)
    ensures Next(w, e).app.bonds == if e.BondPair? then Bootstrapped(w.app.bonds, e.a, e.b, e.weight) else w.app.bonds
  {
    hide Bootstrapped, InvitesExpired, InviteCreated, InviteAccepted;
    if e.Create? {
      CreateShape(w.app, e);
    }
    if e.Accept? {
      AcceptShape(w.app, e);
    }
  }

  /** If no dog was ever bonded with itself, every session joins two different dogs, exactly one
      of them the offerer. */
  lemma SessionsJoinTwoDogs(ws: seq<World>, es: seq<Event>, n: nat, sid: SessionId)
    requires Run(ws, es) && NoSelfPairing(es) && n <= |es| && sid in ws[n].app.sessions.byId
    ensures var s := ws[n].app.sessions.byId[sid];
            s.dogA != s.dogB && WebrtcRole(s, s.dogA) == Offerer && WebrtcRole(s, s.dogB) == Answerer
  {
    var j, i := ConsentProvenance(ws, es, n, sid);
    NoSelfBond(ws, es, j, ws[n].app.sessions.byId[sid].dogA);
  }

  /** The same for invites still ringing. */
  lemma InvitesJoinTwoDogs(ws: seq<World>, es: seq<Event>, n: nat, id: InviteId)
    requires Run(ws, es) && NoSelfPairing(es) && n <= |es| && id in ws[n].app.invites.byId
    ensures ws[n].app.invites.byId[id].fromDog != ws[n].app.invites.byId[id].toDog
  {
    var j := InviteOrigin(ws, es, n, id);
    assert Linked(ws, es, j);
    MadeFacts(ws[j], es[j]);
    NoSelfBond(ws, es, j, ws[n].app.invites.byId[id].fromDog);
  }

  /// ---- Both dogs report media before a session is Active ----

  /** Some step before `n` was this dog's report that its media is ready. */
  predicate ReportedReady(es: seq<Event>, n: nat, d: DogId, sid: SessionId)
    requires n <= |es|
  {
    exists j :: 0 <= j < n && es[j] == Media(d, sid, true)
  }

  lemma ReportedMore(es: seq<Event>, n: nat, d: DogId, sid: SessionId)
    requires n < |es|
    ensures ReportedReady(es, n + 1, d, sid) <==> ReportedReady(es, n, d, sid) || es[n] == Media(d, sid, true)
  {
    if ReportedReady(es, n, d, sid) {
      var j :| 0 <= j < n && es[j] == Media(d, sid, true);
      assert 0 <= j < n + 1 && es[j] == Media(d, sid, true);
    }
  }

  /** A session's flags and state after a step, from those before: only a party's own report
      changes a flag, and the state changes only when that report leaves both flags up; a new
      session starts Negotiating with both flags down. */
  predicate FlagsFollow(s: Sessions, t: Sessions, e: Event, sid: SessionId)
    requires sid in t.byId && sid in t.media && (sid in s.byId ==> sid in s.media)
  {
    var r, x := t.byId[sid], t.media[sid];
    if sid !in s.byId then x == Extra(false, false) && r.state == Negotiating
    else if e.Media? && e.sid == sid && Party(s.byId[sid], e.dog) then
      x == ExtraSet(s.byId[sid], s.media[sid], e.dog, e.ready) &&
      r.state == if x.mediaA && x.mediaB then Active else s.byId[sid].state
    else x == s.media[sid] && r.state == s.byId[sid].state
  }

  lemma FlagStep(w: World, e: Event, sid: SessionId)
    requires WorldOk(w) && Enabled(w, e) && sid in Next(w, e).app.sessions.byId
    ensures sid in Next(w, e).app.sessions.media && (sid in w.app.sessions.byId ==> sid in w.app.sessions.media)
    ensures FlagsFollow(w.app.sessions, Next(w, e).app.sessions, e, sid)
  {
    HaveFlags(w.app.sessions, sid) by { hide InvitesOk, After; }
    hide FlagsFollow;
    if e.Create? || e.Accept? {
      NewFlags(w, e, sid);
    } else {
      SessionStep(w, e, sid);
      if e.Media? {
        MediaFlags(w, e, sid);
      } else if e.Again? {
        AgainFlags(w, e, sid);
      } else {
        RestFlags(w, e, sid);
      }
    }
    hide *;
  }

  lemma NewFlags(w: World, e: Event, sid: SessionId)
    requires WorldOk(w) && Enabled(w, e) && sid in Next(w, e).app.sessions.byId && (e.Create? || e.Accept?)
    requires sid in w.app.sessions.byId ==> sid in w.app.sessions.media
    ensures sid in Next(w, e).app.sessions.media && FlagsFollow(w.app.sessions, Next(w, e).app.sessions, e, sid)
  {
    hide InvitesOk, SessionsOk, InviteCreated, InviteAccepted, IsCandidates;
    if e.Create? {
      CreateLeavesSessions(w, e);
    } else {
      AcceptSessions(w, e);
      AcceptShape(w.app, e);
    }
  }

  lemma RestFlags(w: World, e: Event, sid: SessionId)
    requires !(e.Create? || e.Accept? || e.Media? || e.Again?)
    requires sid in w.app.sessions.byId && sid in w.app.sessions.media && sid in Next(w, e).app.sessions.byId
    ensures sid in Next(w, e).app.sessions.media && FlagsFollow(w.app.sessions, Next(w, e).app.sessions, e, sid)
  {
    hide TickEnds, InvitesExpired, InviteClosed, PolicyFor, PolicySet, Upserted, Bootstrapped;
  }

  lemma HaveFlags(s: Sessions, sid: SessionId)
    requires SessionsOk(s)
    ensures sid in s.byId <==> sid in s.media
  {
    assert sid in s.byId.Keys <==> sid in s.media.Keys;
  }

  lemma MediaFlags(w: World, e: Event, sid: SessionId)
    requires e.Media? && sid in w.app.sessions.byId && sid in w.app.sessions.media
    ensures var t := Next(w, e).app.sessions;
            sid in t.byId && sid in t.media && FlagsFollow(w.app.sessions, t, e, sid)
  {
    hide RowOf, ExtraSet;
  }

  lemma AgainFlags(w: World, e: Event, sid: SessionId)
    requires e.Again? && sid in w.app.sessions.byId && sid in w.app.sessions.media
    ensures var t := Next(w, e).app.sessions;
            sid in t.byId && sid in t.media && FlagsFollow(w.app.sessions, t, e, sid)
  {
    hide RowOf, ExtendSegment, PolicyFor;
  }

  lemma {:induction false} FlagsReported(ws: seq<World>, es: seq<Event>, n: nat, sid: SessionId)
    requires Run(ws, es) && n <= |es| && sid in ws[n].app.sessions.byId
    ensures sid in ws[n].app.sessions.media
    ensures var s, x := ws[n].app.sessions.byId[sid], ws[n].app.sessions.media[sid];
            (x.mediaA || s.state == Active ==> ReportedReady(es, n, s.dogA, sid)) &&
            (x.mediaB || s.state == Active ==> ReportedReady(es, n, s.dogB, sid))
    decreases n
  {
    hide WorldOk, Next, Enabled, AcceptReply, ReportedReady;
    assert n > 0;
    var w, e, s := ws[n - 1], es[n - 1], ws[n].app.sessions.byId[sid];
    assert Linked(ws, es, n - 1);
    RunKeeps(ws, es, n - 1);
    RunKeeps(ws, es, n);
    SessionStep(w, e, sid);
    FlagStep(w, e, sid);
    ReportedMore(es, n - 1, s.dogA, sid);
    ReportedMore(es, n - 1, s.dogB, sid);
    if sid in w.app.sessions.byId {
      FlagsReported(ws, es, n - 1, sid);
      SessionKept(w, e, sid);
    }
  }

  /** The dog's last report on the live session was ready. */
  ghost predicate ReadyLast(ws: seq<World>, es: seq<Event>, n: nat, d: DogId, sid: SessionId)
    requires |ws| == |es| + 1 && n <= |es|
  {
    exists j: nat :: j < n && ReadySince(ws, es, j, n, d, sid)
  }

  ghost predicate ReadySince(ws: seq<World>, es: seq<Event>, j: nat, n: nat, d: DogId, sid: SessionId)
    requires |ws| == |es| + 1 && j < n <= |es|
  {
    sid in ws[j].app.sessions.byId && es[j] == Media(d, sid, true) &&
    forall k :: j < k < n ==> es[k] != Media(d, sid, false)
  }

  lemma ReadyLastStep(ws: seq<World>, es: seq<Event>, n: nat, d: DogId, sid: SessionId)
    requires |ws| == |es| + 1 && n < |es|
    ensures ReadyLast(ws, es, n + 1, d, sid) <==>
            (sid in ws[n].app.sessions.byId && es[n] == Media(d, sid, true)) ||
            (ReadyLast(ws, es, n, d, sid) && es[n] != Media(d, sid, false))
  {
    if sid in ws[n].app.sessions.byId && es[n] == Media(d, sid, true) {
      assert ReadySince(ws, es, n, n + 1, d, sid);
    }
    if ReadyLast(ws, es, n, d, sid) && es[n] != Media(d, sid, false) {
      var j: nat :| j < n && ReadySince(ws, es, j, n, d, sid);
      assert ReadySince(ws, es, j, n + 1, d, sid);
    }
    if ReadyLast(ws, es, n + 1, d, sid) {
      var j: nat :| j < n + 1 && ReadySince(ws, es, j, n + 1, d, sid);
      assert j < n ==> ReadySince(ws, es, j, n, d, sid);
    }
  }

  /** Each flag of a live session is up exactly when the last report of its dog was ready. */
  lemma {:induction false} FlagIsLastReport(ws: seq<World>, es: seq<Event>, n: nat, sid: SessionId)
    requires Run(ws, es) && n <= |es| && sid in ws[n].app.sessions.byId
    ensures sid in ws[n].app.sessions.media
    ensures var s, x := ws[n].app.sessions.byId[sid], ws[n].app.sessions.media[sid];
            (x.mediaA <==> ReadyLast(ws, es, n, s.dogA, sid)) &&
            (x.mediaB <==> ReadyLast(ws, es, n, s.dogB, sid) && s.dogA != s.dogB)
    decreases n
  {
    hide WorldOk, Next, Enabled, AcceptReply, ReadyLast;
    assert n > 0;
    var w, e, s := ws[n - 1], es[n - 1], ws[n].app.sessions.byId[sid];
    assert Linked(ws, es, n - 1);
    RunKeeps(ws, es, n - 1);
    FlagStep(w, e, sid);
    ReadyLastStep(ws, es, n - 1, s.dogA, sid);
    ReadyLastStep(ws, es, n - 1, s.dogB, sid);
    if sid in w.app.sessions.byId {
      FlagIsLastReport(ws, es, n - 1, sid);
      SessionKept(w, e, sid);
    } else {
      SessionStep(w, e, sid);
      NotReadyBefore(ws, es, n - 1, s.dogA, sid);
      NotReadyBefore(ws, es, n - 1, s.dogB, sid);
    }
  }

  lemma NotReadyBefore(ws: seq<World>, es: seq<Event>, n: nat, d: DogId, sid: SessionId)
    requires Run(ws, es) && n < |es| && es[n].Accept? && es[n].sid == sid
    ensures !ReadyLast(ws, es, n, d, sid)
  {
    hide WorldOk, After;
    assert Linked(ws, es, n);
    forall j: nat | j < n ensures sid !in ws[j].app.sessions.byId {
      ClockMonotone(ws, es, j, n);
      if sid in ws[j].app.sessions.byId {
        LiveIsUsed(ws, es, j, sid);
      }
    }
  }

  lemma LiveIsUsed(ws: seq<World>, es: seq<Event>, n: nat, sid: SessionId)
    requires Run(ws, es) && n <= |es| && sid in ws[n].app.sessions.byId
    ensures sid in ws[n].usedSessions
  {
    RunKeeps(ws, es, n);
    hide AppOk, Run;
  }

  lemma SessionKept(w: World, e: Event, sid: SessionId)
    requires WorldOk(w) && Enabled(w, e) && sid in w.app.sessions.byId && sid in Next(w, e).app.sessions.byId
    ensures SameSession(Next(w, e).app.sessions.byId[sid], w.app.sessions.byId[sid])
  {
    SessionStep(w, e, sid);
    hide AppOk, AcceptReply, After, IsCandidates;
  }

  /** No session is Active, in any reachable state, unless both of its dogs have each reported
      their own media ready. */
  lemma ActiveNeedsBothReports(ws: seq<World>, es: seq<Event>, n: nat, sid: SessionId)
    requires Run(ws, es) && n <= |es| && sid in ws[n].app.sessions.byId && ws[n].app.sessions.byId[sid].state == Active
    ensures ReportedReady(es, n, ws[n].app.sessions.byId[sid].dogA, sid)
    ensures ReportedReady(es, n, ws[n].app.sessions.byId[sid].dogB, sid)
  {
    FlagsReported(ws, es, n, sid);
  }

  /// ---- What a dog is offered, and what a call undoes ----

  /** A poll offers an invite exactly when it is open, addressed to the polling dog and not yet due,
      and the dog is neither stopped nor disabled. */
  lemma OfferedIff(ws: seq<World>, es: seq<Event>, n: nat, d: DogId, now: Time, inv: Invite)
    requires Run(ws, es) && n <= |es|
    ensures var a, p := ws[n].app, PolicyFor(ws[n].app.policies, d);
            IncomingRead(a, d, now).result == Success(Some(inv)) <==>
            && !p.emergencyStop && !p.socialDisabled
            && inv.id in a.invites.byId && a.invites.byId[inv.id] == inv && inv.toDog == d && now < inv.expiresAt
  {
    RunKeeps(ws, es, n);
    hide PolicyFor;
    var a := ws[n].app;
    ExpiredKeeps(a, now);
    ExpiryExact(a.invites, now, inv.id);
    hide InvitesExpired;
  }

  /** Expiry leaves exactly the invites that are not yet due. */
  lemma ExpiryExact(s: Invites, now: Time, id: InviteId)
    ensures id in InvitesExpired(s, now).byId <==> id in s.byId && now < s.byId[id].expiresAt
  {}

  /** Cancelling an invite, by either dog, undoes its creation but for the expiries the create
      performed and the caller's hourly record, which keeps counting it. */
  lemma CancelUndoesCreate(w: World, e: Event, d: DogId)
    requires WorldOk(w) && e.Create? && Enabled(w, e) && CreateReply(w, e).result.Success?
    requires Rings(CreateReply(w, e).result.value, d)
    ensures var made, x := CreateReply(w, e).app, InvitesExpired(w.app.invites, e.now);
            && InviteCancelled(made, d, e.id)
               == Reply(w.app.(invites := Invites(x.byId, x.open, made.invites.times)), Success(()))
            && TimesOf(made.invites, e.dog) == Recent(TimesOf(w.app.invites, e.dog), e.now) + [e.now]
  {
    CreateTimes(w, e);
    CreateShape(w.app, e);
    var x := InvitesExpired(w.app.invites, e.now);
    ExpiredKeeps(w.app, e.now);
    assert e.id !in x.byId;
    hide InviteCreated, InvitesExpired, WorldOk, SocialDenied, RouteInvite, PresentDogs, Recent, Engaged, PolicyFor,
         IsCandidates;
    var inv := CreateReply(w, e).result.value;
    CloseUndoesInsert(Pruned(x, e.dog, e.now), inv);
  }

  lemma CreateTimes(w: World, e: Event)
    requires e.Create? && CreateReply(w, e).result.Success?
    ensures TimesOf(CreateReply(w, e).app.invites, e.dog) == Recent(TimesOf(w.app.invites, e.dog), e.now) + [e.now]
  {
    CreateShape(w.app, e);
    hide InviteCreated, SocialDenied, RouteInvite, PresentDogs, Engaged, PolicyFor, Free;
  }

  lemma CloseUndoesInsert(s: Invites, inv: Invite)
    requires Free(s, inv) && inv.id !in s.byId
    ensures InviteClosed(InviteInserted(s, inv), inv.id) == s
  {
    assert s.byId[inv.id := inv] - {inv.id} == s.byId;
    assert s.open[inv.fromDog := inv.id][inv.toDog := inv.id] - {inv.fromDog, inv.toDog} == s.open;
  }

  /** Ending a session, by either dog, undoes its accept, in memory and in the table, but for the
      invite, which is gone. */
  lemma EndUndoesAccept(w: World, e: Event, d: DogId)
    requires WorldOk(w) && e.Accept? && Enabled(w, e) && AcceptReply(w, e).result.Success?
    requires Party(AcceptReply(w, e).result.value, d)
    ensures SessionClosed(AcceptReply(w, e).app, d, e.sid)
            == Reply(w.app.(invites := AcceptReply(w, e).app.invites), Success(()))
  {
    AcceptSessions(w, e);
    AcceptShape(w.app, e);
    assert e.sid !in w.app.sessions.byId && e.sid !in w.app.rows.Keys && e.sid !in w.app.sessions.media.Keys;
    hide InviteAccepted, InvitesExpired, WorldOk, SocialDenied, PolicyFor, RowOf, InviteClosed;
    var r := AcceptReply(w, e);
    EndUndoesInsert(w.app.sessions, r.result.value);
    assert w.app.rows[e.sid := RowOf(r.result.value, false, false)] - {e.sid} == w.app.rows;
  }

  lemma EndUndoesInsert(s: Sessions, r: SessionRecord)
    requires SessionFree(s, r) && r.id !in s.byId && r.id !in s.media
    ensures SessionEnded(SessionInserted(s, r), r.id) == s
  {
    assert s.byId[r.id := r] - {r.id} == s.byId;
    assert s.media[r.id := Extra(false, false)] - {r.id} == s.media;
    assert s.byDog[r.dogA := r.id][r.dogB := r.id] - {r.dogA, r.dogB} == s.byDog;
  }
}

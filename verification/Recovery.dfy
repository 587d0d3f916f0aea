/** The service after a restart: its stores may disagree, because stale invites were read back beside
    live sessions, and any clients may act on them. What holds meanwhile, and which steps put the
    stores right for good (services/device-api/src/main.rs:166-196 and 416-608). */
module Recovery {
  import opened Base
  import opened Protocol
  import opened Policy
  import opened Bond
  import opened Session
  import opened Memory
  import opened Sqlite
  import opened DeviceApi
  import opened Runs
  import opened Restart
  import opened StaleInvites
  import opened Removals

  /** The stores with every invite expired that is due by `now`. */
  function Settled(a: App, now: Time): App { a.(invites := InvitesExpired(a.invites, now)) }

  /** The world with every invite expired that is due by `now`. */
  function SettledAt(w: World, now: Time): World { w.(app := Settled(w.app, now)) }

  /** The stores would be consistent if what is due now had been expired. */
  predicate Recovering(w: World) {
    InvitesOk(w.app.invites) && w.app.invites.byId.Keys <= w.usedInvites && WorldOk(SettledAt(w, w.clock))
  }

  /// ---- Closing twice ----

  /** The index entries a close of several invites leaves. */
  function Left(s: Invites, ids: set<InviteId>): map<DogId, InviteId> {
    map d | d in s.open && s.open[d] !in ids :: s.open[d]
  }

  lemma CloseLeaves(s: Invites, ids: set<InviteId>)
    requires InvitesOk(s)
    ensures ClosedAll(s, ids) == s.(byId := s.byId - ids, open := Left(s, ids))
  {
    forall d ensures d in Parties(s, ids) <==> d in s.open && s.open[d] in ids {
      StaysOpen(s, ids, d);
    }
    hide InvitesOk, Parties;
  }

  lemma CloseBoth(s: Invites, ids: set<InviteId>, more: set<InviteId>)
    requires InvitesOk(s)
    ensures ClosedAll(ClosedAll(s, ids), more) == ClosedAll(s, ids + more)
  {
    CloseAllKeeps(s, ids);
    CloseLeaves(s, ids);
    CloseLeaves(s, ids + more);
    CloseLeaves(ClosedAll(s, ids), more);
    hide InvitesOk, ClosedAll;
    assert s.byId - ids - more == s.byId - (ids + more);
  }

  lemma ExpireTwice(s: Invites, c: Time, now: Time)
    requires InvitesOk(s) && c <= now
    ensures InvitesExpired(InvitesExpired(s, c), now) == InvitesExpired(s, now)
  {
    var t := InvitesExpired(s, c);
    CloseBoth(s, Due(s, c), Due(t, now));
    assert Due(s, c) + Due(t, now) == Due(s, now);
  }

  lemma CloseThenExpire(s: Invites, id: InviteId, c: Time)
    requires InvitesOk(s) && id in s.byId
    ensures InvitesExpired(InviteClosed(s, id), c) ==
            if id in InvitesExpired(s, c).byId then InviteClosed(InvitesExpired(s, c), id) else InvitesExpired(s, c)
  {
    var x, t := InvitesExpired(s, c), InviteClosed(s, id);
    CloseIsCloseAll(s, id);
    CloseBoth(s, {id}, Due(t, c));
    CloseBoth(s, Due(s, c), {id});
    assert {id} + Due(t, c) == Due(s, c) + {id};
    if id in x.byId {
      CloseIsCloseAll(x, id);
    } else {
      assert Due(s, c) + {id} == Due(s, c);
    }
  }

  /// ---- Steps ----

  lemma SettleKeeps(w: World, now: Time)
    requires WorldOk(w)
    ensures WorldOk(SettledAt(w, now))
  {
    ExpiredKeeps(w.app, now);
    hide AppOk, InvitesExpired;
  }

  /** Consistent stores are a special case. */
  lemma OkIsRecovering(w: World)
    requires WorldOk(w)
    ensures Recovering(w)
  {
    SettleKeeps(w, w.clock);
    hide SettledAt;
  }

  /** A request that expires first does not see whether that had been done already. */
  lemma CreateAnyway(a: App, c: Time, dog: DogId, preferred: Option<DogId>, mode: InviteMode, id: InviteId,
                     now: Time, stamp: Time, cands: seq<(DogId, real)>)
    requires InvitesOk(a.invites) && c <= now
    ensures InviteCreated(Settled(a, c), dog, preferred, mode, id, now, stamp, cands)
            == InviteCreated(a, dog, preferred, mode, id, now, stamp, cands)
  {
    ExpireTwice(a.invites, c, now);
    hide InvitesOk, InvitesExpired, SocialDenied, RouteInvite, PresentDogs, PresentAt, PolicyFor, Engaged, Free, Pruned,
         InviteInserted, Recorded, TimesOf, Recent, InviteRateOk, NewInvite;
  }

  lemma PollAnyway(a: App, c: Time, dog: DogId, now: Time)
    requires InvitesOk(a.invites) && c <= now
    requires !PolicyFor(a.policies, dog).emergencyStop && !PolicyFor(a.policies, dog).socialDisabled
    ensures IncomingRead(Settled(a, c), dog, now) == IncomingRead(a, dog, now)
  {
    ExpireTwice(a.invites, c, now);
    hide InvitesOk, InvitesExpired, PolicyFor, InviteForDog;
  }

  lemma AcceptAnyway(a: App, c: Time, dog: DogId, id: InviteId, sid: SessionId, now: Time)
    requires InvitesOk(a.invites) && c <= now && SocialDenied(PolicyFor(a.policies, dog), now).None?
    ensures InviteAccepted(Settled(a, c), dog, id, sid, now) == InviteAccepted(a, dog, id, sid, now)
  {
    ExpireTwice(a.invites, c, now);
    hide InvitesOk, InvitesExpired, SocialDenied, PresentAt, PolicyFor, AcceptInvite, Negotiated, InviteClosed,
         SessionFree, SessionInserted, RowOf;
  }

  lemma TickAnyway(a: App, c: Time, now: Time)
    requires InvitesOk(a.invites) && c <= now
    ensures Ticked(Settled(a, c), now) == Ticked(a, now)
  {
    ExpireTwice(a.invites, c, now);
    hide InvitesOk, InvitesExpired, SessionsEnded, TickEnds;
    assert TickSet(Settled(a, c), now) == TickSet(a, now);
  }

  lemma ExpiresAnyway(w: World, e: Event)
    requires Recovering(w) && Enabled(w, e) && Expires(w.app, e)
    ensures Next(w, e) == Next(SettledAt(w, w.clock), e) && Enabled(SettledAt(w, w.clock), e)
  {
    var a, c := w.app, w.clock;
    match e {
      case Create(dog, preferred, mode, id, now, stamp, cands) =>
        CreateAnyway(a, c, dog, preferred, mode, id, now, stamp, cands);
      case Poll(dog, now) => PollAnyway(a, c, dog, now);
      case Accept(dog, id, sid, now) =>
        DeniedIff(PolicyFor(a.policies, dog), now);
        AcceptAnyway(a, c, dog, id, sid, now);
      case Tick(now) => TickAnyway(a, c, now);
    }
    hide WorldOk, InvitesOk, IsCandidates, PolicyFor, SocialDenied, Sociable, InviteCreated, IncomingRead,
         InviteAccepted, Ticked;
  }

  /** The other steps leave invites alone, but for a cancel. */
  lemma OthersLeave(w: World, e: Event)
    requires !Expires(w.app, e) && !e.Cancel?
    ensures Next(w, e).app.invites == w.app.invites
  {
    if e.Accept? || e.Poll? {
      RefusedLeaves(w.app, e);
    }
    hide SocialDenied, Sociable, PolicyFor, PolicySet, SessionEnded, MediaSet, CanSetMedia, DeadlineSet, ExtendSegment,
         RowOf, Upserted, Bootstrapped, BothReady, SessionForDog, InviteAccepted, IncomingRead;
  }

  /** An accept or a poll that policy refuses at once does nothing. */
  lemma RefusedLeaves(a: App, e: Event)
    requires (e.Accept? || e.Poll?) && !Expires(a, e)
    ensures After(a, e) == a
  {
    if e.Accept? {
      DeniedIff(PolicyFor(a.policies, e.dog), e.now);
    }
    hide SocialDenied, Sociable, PolicyFor, InvitesExpired, InviteForDog, PresentAt;
  }

  lemma OthersCommute(w: World, e: Event)
    requires !Expires(w.app, e) && !e.Cancel? && Enabled(w, e)
    ensures Enabled(SettledAt(w, w.clock), e)
    ensures Next(SettledAt(w, w.clock), e)
            == Next(w, e).(app := Next(w, e).app.(invites := InvitesExpired(w.app.invites, w.clock)))
  {
    OthersApart(w.app, w.clock, e);
    hide After, InvitesExpired, Expires, IsCandidates;
  }

  lemma OthersApart(a: App, c: Time, e: Event)
    requires !Expires(a, e) && !e.Cancel?
    ensures After(Settled(a, c), e) == After(a, e).(invites := InvitesExpired(a.invites, c))
  {
    hide *;
    if e.Accept? || e.Poll? {
      RefusedApart(a, c, e);
    } else if e.Media? || e.Again? {
      EditsApart(a, c, e);
    } else {
      RestApart(a, c, e);
    }
  }

  lemma RefusedApart(a: App, c: Time, e: Event)
    requires !Expires(a, e) && (e.Accept? || e.Poll?)
    ensures After(Settled(a, c), e) == After(a, e).(invites := InvitesExpired(a.invites, c))
  {
    RefusedLeaves(a, e);
    RefusedLeaves(Settled(a, c), e);
    hide After, InvitesExpired, PolicyFor, Sociable;
  }

  lemma EditsApart(a: App, c: Time, e: Event)
    requires e.Media? || e.Again?
    ensures After(Settled(a, c), e) == After(a, e).(invites := InvitesExpired(a.invites, c))
  {
    hide InvitesExpired, PolicyFor, MediaSet, CanSetMedia, DeadlineSet, ExtendSegment, RowOf, BothReady, Party;
  }

  lemma RestApart(a: App, c: Time, e: Event)
    requires !Expires(a, e) && !e.Cancel? && !e.Accept? && !e.Poll? && !e.Media? && !e.Again?
    ensures After(Settled(a, c), e) == After(a, e).(invites := InvitesExpired(a.invites, c))
  {
    hide InvitesExpired, PolicyFor, PolicySet, SessionEnded, Upserted, Bootstrapped, SessionForDog, Changed, Party,
         MediaReported, AgainPressed, InviteAccepted, InviteCreated, IncomingRead, InviteCancelled, Ticked;
  }

  lemma CancelCommutes(w: World, e: Event)
    requires Recovering(w) && e.Cancel?
    ensures var v, x := Next(w, e), SettledAt(w, w.clock);
            && v.clock == w.clock && v.usedInvites == w.usedInvites
            && InvitesOk(v.app.invites) && v.app.invites.byId.Keys <= w.app.invites.byId.Keys
            && (SettledAt(v, v.clock) == x || SettledAt(v, v.clock) == Next(x, Cancel(e.dog, e.id)))
  {
    var s := w.app.invites;
    if e.id in s.byId {
      CloseThenExpire(s, e.id, w.clock);
      CloseKeeps(s, e.id);
      KeptRecord(s, e.id, w.clock);
    }
    hide InvitesOk, WorldOk, InvitesExpired, InviteClosed;
  }

  lemma KeptRecord(s: Invites, id: InviteId, c: Time)
    ensures id in InvitesExpired(s, c).byId ==> id in s.byId && InvitesExpired(s, c).byId[id] == s.byId[id]
  {}

  /** Every step keeps the stores recovering, and a step that expires first makes them consistent. */
  lemma RecoverStep(w: World, e: Event)
    requires Recovering(w) && Enabled(w, e)
    ensures Recovering(Next(w, e))
    ensures Expires(w.app, e) ==> WorldOk(Next(w, e))
  {
    hide *;
    var x := SettledAt(w, w.clock);
    RecoveringFacts(w);
    if Expires(w.app, e) {
      ExpiresAnyway(w, e);
      StepKeeps(x, e);
      OkIsRecovering(Next(w, e));
    } else if e.Cancel? {
      CancelRecovers(w, e);
    } else {
      OthersLeave(w, e);
      OthersCommute(w, e);
      StepKeeps(x, e);
      OthersRecover(w, e);
    }
  }

  lemma RecoveringFacts(w: World)
    requires Recovering(w)
    ensures WorldOk(SettledAt(w, w.clock)) && InvitesOk(w.app.invites)
  {
    hide WorldOk, InvitesOk;
  }

  lemma CancelRecovers(w: World, e: Event)
    requires Recovering(w) && e.Cancel?
    ensures Recovering(Next(w, e))
  {
    CancelCommutes(w, e);
    var x := SettledAt(w, w.clock);
    InviteReadsKeep(x, Cancel(e.dog, e.id));
    hide WorldOk, InvitesOk, SettledAt, Next;
  }

  lemma OthersRecover(w: World, e: Event)
    requires Recovering(w) && Enabled(w, e) && Next(w, e).app.invites == w.app.invites
    requires WorldOk(Next(w, e).(app := Next(w, e).app.(invites := InvitesExpired(w.app.invites, w.clock))))
    ensures Recovering(Next(w, e))
  {
    var v := Next(w, e);
    var y := v.(app := v.app.(invites := InvitesExpired(w.app.invites, w.clock)));
    ClockNext(w, e);
    SettleKeeps(y, v.clock);
    ExpireTwice(w.app.invites, w.clock, v.clock);
    hide WorldOk, InvitesOk, InvitesExpired, Next, Enabled;
  }

  /// ---- From a restart on ----

  /** A run from any world, such as one just restarted. */
  ghost predicate GoesOn(ws: seq<World>, es: seq<Event>) {
    |ws| == |es| + 1 && forall i :: 0 <= i < |es| ==> Linked(ws, es, i)
  }

  lemma GoesOnAt(ws: seq<World>, es: seq<Event>, i: nat)
    requires GoesOn(ws, es) && i < |es|
    ensures |ws| == |es| + 1 && Enabled(ws[i], es[i]) && ws[i + 1] == Next(ws[i], es[i])
  {
    assert Linked(ws, es, i);
    hide Enabled, Next;
  }

  lemma {:induction false} StaysRecovering(ws: seq<World>, es: seq<Event>, n: nat)
    requires GoesOn(ws, es) && n <= |es| && Recovering(ws[0])
    ensures |ws| == |es| + 1 && Recovering(ws[n])
    decreases n
  {
    hide Recovering, Linked, Next, Enabled;
    if n > 0 {
      GoesOnAt(ws, es, n - 1);
      StaysRecovering(ws, es, n - 1);
      RecoverStep(ws[n - 1], es[n - 1]);
    }
  }

  /** From a restart on, through any requests, from the first step that expires invites (a tick, a
      create, a poll that is answered, an accept that policy allows) the stores are consistent with
      each other in every state. */
  lemma {:induction false} RecoversForGood(ws: seq<World>, es: seq<Event>, k: nat, n: nat)
    requires GoesOn(ws, es) && k < n <= |es| && Recovering(ws[0]) && Expires(ws[k].app, es[k])
    ensures |ws| == |es| + 1 && WorldOk(ws[n])
    decreases n
  {
    hide Recovering, Linked, Next, Enabled, WorldOk, Expires;
    GoesOnAt(ws, es, n - 1);
    if n == k + 1 {
      StaysRecovering(ws, es, k);
      RecoverStep(ws[k], es[k]);
    } else {
      RecoversForGood(ws, es, k, n - 1);
      StepKeeps(ws[n - 1], es[n - 1]);
    }
  }

  /** Until then, a dog in both an open invite and a session is so only through an invite that is
      already due. */
  lemma OverlapIsDue(w: World, d: DogId)
    requires Recovering(w) && d in w.app.invites.open && d in w.app.sessions.byDog
    ensures w.app.invites.open[d] in w.app.invites.byId
    ensures w.app.invites.byId[w.app.invites.open[d]].expiresAt <= w.clock
  {
    var s := w.app.invites;
    var x, id := InvitesExpired(s, w.clock), s.open[d];
    if w.clock < s.byId[id].expiresAt {
      assert id !in Due(s, w.clock);
      StaysOpen(s, Due(s, w.clock), d);
    }
    hide SessionsOk;
  }

  lemma LoadedSessionsOk(s: Sessions, l: Sessions)
    requires SessionsOk(s) && l.byDog == s.byDog && l.byId.Keys == l.media.Keys == s.byId.Keys
    requires forall sid :: sid in l.byId ==>
                             l.byId[sid] ==
                             if l.media[sid].mediaA && l.media[sid].mediaB then s.byId[sid].(state := Active)
                             else s.byId[sid]
    ensures SessionsOk(l)
  {
    assert forall sid :: sid in l.byId ==>
                           sid in s.byId && l.byId[sid].id == s.byId[sid].id && l.byId[sid].dogA == s.byId[sid].dogA &&
                           l.byId[sid].dogB == s.byId[sid].dogB;
  }

  /** `w` can follow a restart of `was`: invites and sessions are read back from their rows, in any
      order; the clock has not gone back, and identifiers drawn before are not drawn again. */
  ghost predicate Restarted(was: World, rows: InviteRows, order: seq<Invite>, srows: seq<SessionRow>, w: World) {
    Lists(order, rows) && Enumerates(srows, was.app.rows) &&
    w.app.invites == InvitesLoaded(order) && w.app.sessions == Loaded(NO_SESSIONS, srows) &&
    w.app.rows == was.app.rows && KeyedByDog(w.app.policies) &&
    was.clock <= w.clock && was.usedInvites <= w.usedInvites && was.usedSessions <= w.usedSessions
  }

  /** A restart, in any reachable state and for any order of the rows, leaves the stores recovering. */
  lemma RestartRecovers(ws: seq<World>, es: seq<Event>, n: nat, order: seq<Invite>,
                        srows: seq<SessionRow>, w: World)
    requires Run(ws, es) && n <= |es| && Restarted(ws[n], RowsAt(ws, es, n), order, srows, w)
    ensures Recovering(w)
  {
    RestartedParts(ws, es, n, order, srows, w);
    var x := InvitesExpired(w.app.invites, w.clock);
    assert x.byId.Keys <= w.app.invites.byId.Keys;
    assert KeyedByDog(w.app.policies);
    hide Run, InvitesOk, SessionsOk, KeyedByDog, InvitesExpired, Restarted;
  }

  lemma RestartedParts(ws: seq<World>, es: seq<Event>, n: nat, order: seq<Invite>, srows: seq<SessionRow>, w: World)
    requires Run(ws, es) && n <= |es| && Restarted(ws[n], RowsAt(ws, es, n), order, srows, w)
    ensures var x := InvitesExpired(w.app.invites, w.clock);
            && InvitesOk(w.app.invites) && w.app.invites.byId.Keys <= w.usedInvites && InvitesOk(x)
            && SessionsOk(w.app.sessions) && w.app.sessions.byId.Keys <= w.usedSessions
            && w.app.rows.Keys == w.app.sessions.byId.Keys && x.open.Keys !! w.app.sessions.byDog.Keys
  {
    var rows := RowsAt(ws, es, n);
    RestartedIs(ws[n], rows, order, srows, w);
    hide *;
    RunCovers(ws, es, n);
    RunKeeps(ws, es, n);
    CoveredKeyed(ws[n], rows);
    LoadedKeeps(order, rows);
    LoadedUsed(ws[n], rows, w.app.invites);
    RestartAlways(ws, es, n, srows);
    WorldParts(ws[n]);
    LoadedSessionsOk(ws[n].app.sessions, w.app.sessions);
    StillOpen(ws[n], rows, w.app.invites, w.clock);
    DogsApart(ws[n], InvitesExpired(w.app.invites, w.clock));
  }

  lemma RestartedIs(was: World, rows: InviteRows, order: seq<Invite>, srows: seq<SessionRow>, w: World)
    requires Restarted(was, rows, order, srows, w)
    ensures Lists(order, rows) && Enumerates(srows, was.app.rows)
    ensures w.app.invites == InvitesLoaded(order) && w.app.sessions == Loaded(NO_SESSIONS, srows)
    ensures w.app.rows == was.app.rows && was.clock <= w.clock
    ensures was.usedInvites <= w.usedInvites && was.usedSessions <= w.usedSessions
  {
    hide Lists, Enumerates, InvitesLoaded, Loaded, KeyedByDog;
  }

  lemma LoadedUsed(w: World, rows: InviteRows, s: Invites)
    requires RowsCover(w, rows) && forall id :: id in s.byId ==> id in rows && s.byId[id] == rows[id]
    ensures s.byId.Keys <= w.usedInvites
  {}

  lemma WorldParts(w: World)
    requires WorldOk(w)
    ensures SessionsOk(w.app.sessions) && w.app.rows.Keys == w.app.sessions.byId.Keys
    ensures w.app.sessions.byId.Keys <= w.usedSessions
  {
    hide InvitesOk, SessionsOk;
  }

  lemma TickParts(w: World, now: Time)
    requires w.clock <= now
    ensures Enabled(w, Tick(now)) && Expires(w.app, Tick(now)) && Next(w, Tick(now)).app == Ticked(w.app, now)
    ensures WorldOk(Next(w, Tick(now))) ==> AppOk(Next(w, Tick(now)).app)
  {
    hide AppOk, Ticked;
  }

  /** In particular the first tick makes freshly restarted stores consistent. */
  lemma TickRestores(w: World, now: Time)
    requires Recovering(w) && w.clock <= now
    ensures AppOk(Ticked(w.app, now))
  {
    hide *;
    TickParts(w, now);
    RecoverStep(w, Tick(now));
  }
}

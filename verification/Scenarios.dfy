/** Concrete runs of the control plane that reach the corners the exact conditions of the other
    modules describe: a session that outlives its hard end, a stopped dog in a session, a dog
    invited by itself, and a restart that does not restore the live flags. */
module Scenarios {
  import opened Base
  import opened Protocol
  import opened Policy
  import opened Bond
  import opened Session
  import opened Memory
  import opened Sqlite
  import opened DeviceApi
  import opened Runs
  import opened Steps
  import opened Restart
  import Consent
  import opened Outcomes
  import opened StaleInvites

  const ADA := DogId(1)
  const BOB := DogId(2)
  const RING := InviteId(1)
  const MEET := SessionId(1)

  /** Noon of the first day: nobody sleeps under the default policy. */
  const NOON := 12 * 3600 * 1000

  const PAIR: Edges := map[(ADA, BOB) := 1.0, (BOB, ADA) := 1.0]

  function Here(d: DogId): PresenceReport {
    PresenceReport(d, TerminalId(d.uuid), true, 1.0, Large, 250.0, None, NOON, 1)
  }

  const BOTH_HERE: Presences := map[ADA := EntryOf(Here(ADA)), BOB := EntryOf(Here(BOB))]

  /** Bob's segment is longer than his maximum. */
  const LONG_SEGMENT := PolicyChange(None, None, None, Some(60), Some(600), None)

  const BOBS := DefaultFor(BOB).(maxSessionSec := 60, segmentSec := 600)

  const CALL := NewInvite(RING, ADA, BOB, Portal, NOON)

  const RINGING_APP := App(BOTH_HERE, PAIR,
                           Invites(map[RING := CALL], map[ADA := RING, BOB := RING], map[ADA := [NOON]]),
                           NO_SESSIONS, map[BOB := BOBS], map[])

  const CREATE := Create(ADA, Some(BOB), Portal, RING, NOON, NOON, [(BOB, 1.0)])

  const ACCEPT := Accept(BOB, RING, MEET, NOON)

  const TALK := SessionRecord(MEET, RING, ADA, BOB, Portal, Negotiating, NOON, NOON + 60_000, NOON + 600_000)

  function Talking(s: SessionRecord, x: Extra): Sessions {
    Sessions(map[MEET := s], map[ADA := MEET, BOB := MEET], map[MEET := x])
  }

  function Met(p: Policies, s: SessionRecord, x: Extra, row: SessionRow): App {
    App(BOTH_HERE, PAIR, Invites(map[], map[], map[ADA := [NOON]]), Talking(s, x), p, map[MEET := row])
  }

  lemma Then(ws: seq<World>, es: seq<Event>, e: Event) returns (vs: seq<World>)
    requires Run(ws, es) && Enabled(ws[|es|], e)
    ensures Run(vs, es + [e]) && vs == ws + [Next(ws[|es|], e)]
  {
    hide Enabled, Next;
    var fs := es + [e];
    vs := ws + [Next(ws[|es|], e)];
    forall i | 0 <= i < |fs| ensures Linked(vs, fs, i) {
      if i < |es| {
        assert Linked(ws, es, i);
      }
    }
  }

  lemma NothingDue(s: Invites, now: Time)
    requires forall id :: id in s.byId ==> now < s.byId[id].expiresAt
    ensures InvitesExpired(s, now) == s
  {
    assert Due(s, now) == {};
    ClosedNone(s);
  }

  lemma PairCandidates()
    ensures IsCandidates(PAIR, ADA, [(BOB, 1.0)])
  {}

  const SETUP := [BondPair(ADA, BOB, 1.0), Report(Here(ADA)), Report(Here(BOB)), Amend(BOB, LONG_SEGMENT)]

  const SETUP_APP := App(BOTH_HERE, PAIR, Invites(map[], map[], map[]), NO_SESSIONS, map[BOB := BOBS], map[])

  lemma SetupApps()
    ensures var a1 := After(EMPTY_APP, SETUP[0]);
            var a2 := After(a1, SETUP[1]);
            var a3 := After(a2, SETUP[2]);
            After(a3, SETUP[3]) == SETUP_APP
  {
    hide EntryOf;
    assert Bootstrapped(map[], ADA, BOB, 1.0) == PAIR;
  }

  lemma SetUp() returns (ws: seq<World>)
    ensures Run(ws, SETUP) && ws[4] == World(SETUP_APP, NOON, {}, {}, NOON)
  {
    var w0 := Start(NOON);
    var w1 := Next(w0, SETUP[0]);
    var w2 := Next(w1, SETUP[1]);
    var w3 := Next(w2, SETUP[2]);
    ws := [w0, w1, w2, w3, Next(w3, SETUP[3])];
    SetupApps();
    hide After;
    forall i | 0 <= i < |SETUP| ensures Linked(ws, SETUP, i) {}
  }

  lemma Awake(d: DogId, p: DogPolicy, now: Time)
    requires NOON <= now <= NOON + 3600 * 1000
    requires p == DefaultFor(d).(maxSessionSec := p.maxSessionSec, segmentSec := p.segmentSec)
    ensures SocialDenied(p, now).None?
  {}

  lemma Created()
    ensures After(SETUP_APP, CREATE) == RINGING_APP
  {
    var a := SETUP_APP;
    NothingDue(a.invites, NOON);
    Awake(ADA, PolicyFor(a.policies, ADA), NOON);
    Awake(BOB, PolicyFor(a.policies, BOB), NOON);
    assert PresentDogs(BOTH_HERE, NOON) == {ADA, BOB};
    RoutePreferred(ADA, BOB, PAIR, CREATE.cands, {ADA, BOB});
    assert Recent(TimesOf(a.invites, ADA), NOON) == [];
    assert Pruned(a.invites, ADA, NOON) == a.invites;
    assert PolicyFor(a.policies, ADA).maxInvitesPerHour == 12;
    var placed := Recorded(InviteInserted(a.invites, CALL), ADA, NOON);
    assert TimesOf(a.invites, ADA) + [NOON] == [NOON];
    assert placed.byId == RINGING_APP.invites.byId && placed.open == RINGING_APP.invites.open;
    assert placed.times == RINGING_APP.invites.times;
    hide SocialDenied, InvitesExpired, PresentDogs, RouteInvite, Pruned, Recent, PolicyFor, TimesOf;
    var reply := InviteCreated(a, ADA, Some(BOB), Portal, RING, NOON, NOON, CREATE.cands);
    assert reply.result == Success(CALL);
    assert reply.app == a.(invites := placed);
  }

  lemma Accepted(p: Policies)
    requires BOB in p && p[BOB] == BOBS
    ensures After(RINGING_APP.(policies := p), ACCEPT) == Met(p, TALK, Extra(false, false), RowOf(TALK, false, false))
  {
    var a := RINGING_APP.(policies := p);
    NothingDue(a.invites, NOON);
    Awake(BOB, BOBS, NOON);
    assert PresentAt(BOTH_HERE, BOB, NOON);
    hide SocialDenied, PresentAt, InvitesExpired, RowOf;
    assert InviteClosed(a.invites, RING) == Invites(map[], map[], map[ADA := [NOON]]);
    assert SessionInserted(NO_SESSIONS, TALK)
        == Sessions(map[MEET := TALK], map[ADA := MEET, BOB := MEET], map[MEET := Extra(false, false)]);
    assert map[][MEET := RowOf(TALK, false, false)] == map[MEET := RowOf(TALK, false, false)];
  }

  lemma Flagged(s: SessionRecord, x: Extra, dog: DogId, ready: bool)
    requires s.id == MEET && Party(s, dog)
    ensures var y := ExtraSet(s, x, dog, ready);
            var both := y.mediaA && y.mediaB;
            && CanSetMedia(Talking(s, x), MEET, dog)
            && MediaSet(Talking(s, x), MEET, dog, ready) == Talking(if both then s.(state := Active) else s, y)
            && (BothReady(Talking(s, y), MEET) <==> both)
  {
    hide Party;
    var y := ExtraSet(s, x, dog, ready);
    hide ExtraSet;
    assert map[MEET := x][MEET := y] == map[MEET := y];
    assert forall r: SessionRecord :: map[MEET := s][MEET := r] == map[MEET := r];
  }

  lemma Reported(p: Policies, s: SessionRecord, x: Extra, row: SessionRow, dog: DogId, ready: bool)
    requires s.id == MEET && Party(s, dog)
    ensures var y := ExtraSet(s, x, dog, ready);
            var both := y.mediaA && y.mediaB;
            var r := if both then s.(state := Active) else s;
            After(Met(p, s, x, row), Media(dog, MEET, ready))
            == Met(p, r, y, RowOf(r, both || dog == r.dogA, both || dog == r.dogB))
  {
    hide RowOf, MediaSet, CanSetMedia, ExtraSet, Party;
    Flagged(s, x, dog, ready);
    assert forall w: SessionRow :: map[MEET := row][MEET := w] == map[MEET := w];
  }

  /** The call connected: two media reports after the accept. */
  const CONNECTED := Met(map[BOB := BOBS], TALK.(state := Active), Extra(true, true),
                         RowOf(TALK.(state := Active), true, true))

  lemma Rung() returns (ws: seq<World>)
    ensures Run(ws, SETUP + [CREATE]) && ws[5] == World(RINGING_APP, NOON, {RING}, {}, NOON)
  {
    var vs := SetUp();
    PairCandidates();
    Created();
    hide After, IsCandidates;
    ws := Then(vs, SETUP, CREATE);
  }

  lemma Joined() returns (ws: seq<World>)
    ensures Run(ws, SETUP + [CREATE, ACCEPT])
    ensures ws[6] == World(Met(map[BOB := BOBS], TALK, Extra(false, false), RowOf(TALK, false, false)),
                           NOON, {RING}, {MEET}, NOON)
  {
    var vs := Rung();
    Accepted(map[BOB := BOBS]);
    hide After, RowOf, Run;
    ws := Then(vs, SETUP + [CREATE], ACCEPT);
    assert SETUP + [CREATE] + [ACCEPT] == SETUP + [CREATE, ACCEPT];
  }

  lemma MediaNext(w: World, e: Event)
    requires e.Media?
    ensures Enabled(w, e) && Next(w, e) == w.(app := After(w.app, e))
  {
    hide After;
  }

  const BOTH_READY := [Media(ADA, MEET, true), Media(BOB, MEET, true)]

  lemma Connected() returns (ws: seq<World>)
    ensures Run(ws, SETUP + [CREATE, ACCEPT] + BOTH_READY)
    ensures ws[8] == World(CONNECTED, NOON, {RING}, {MEET}, NOON)
  {
    var vs := Joined();
    Reported(map[BOB := BOBS], TALK, Extra(false, false), RowOf(TALK, false, false), ADA, true);
    Reported(map[BOB := BOBS], TALK, Extra(true, false), RowOf(TALK, true, false), BOB, true);
    hide After, RowOf, Run, Next, Enabled, Met;
    var es := SETUP + [CREATE, ACCEPT];
    MediaNext(vs[6], BOTH_READY[0]);
    vs := Then(vs, es, BOTH_READY[0]);
    MediaNext(vs[7], BOTH_READY[1]);
    ws := Then(vs, es + [BOTH_READY[0]], BOTH_READY[1]);
    assert es + [BOTH_READY[0]] + [BOTH_READY[1]] == es + BOTH_READY;
  }

  /** The hard end can be missed: at a tick exactly on it, this Active session lives on. */
  lemma HardEndMissed() returns (ws: seq<World>, es: seq<Event>)
    ensures Run(ws, es) && es != [] && es[|es| - 1].Tick? && MEET in ws[|es|].app.sessions.byId
    ensures var s := ws[|es|].app.sessions.byId[MEET];
            s.state == Active && es[|es| - 1].now == s.maxEndAt
  {
    var vs := Connected();
    var tick := Tick(NOON + 60_000);
    es := SETUP + [CREATE, ACCEPT] + BOTH_READY;
    NothingDue(CONNECTED.invites, tick.now);
    assert PolicyFor(CONNECTED.policies, ADA).maxSessionSec == 900;
    assert TickSet(CONNECTED, tick.now) == {};
    EndedNone(CONNECTED.sessions);
    assert After(CONNECTED, tick).sessions == CONNECTED.sessions;
    hide After, RowOf, Run;
    ws := Then(vs, es, tick);
    es := es + [tick];
  }

  /** A stopped dog can be in a session: Ada is stopped while her call rings, Bob still accepts. */
  lemma StoppedCallerMeets() returns (ws: seq<World>, es: seq<Event>)
    ensures Run(ws, es) && MEET in ws[|es|].app.sessions.byId
    ensures PolicyFor(ws[|es|].app.policies, ws[|es|].app.sessions.byId[MEET].dogA).emergencyStop
  {
    var vs := Rung();
    var stop := Estop(ADA, true);
    var p := PolicySet(map[BOB := BOBS], DefaultFor(ADA).(emergencyStop := true));
    assert p[ADA].emergencyStop && p[BOB] == BOBS;
    assert After(RINGING_APP, stop) == RINGING_APP.(policies := p);
    Accepted(p);
    hide After, RowOf, Run, PolicySet;
    es := SETUP + [CREATE];
    vs := Then(vs, es, stop);
    es := es + [stop];
    ws := Then(vs, es, ACCEPT);
    es := es + [ACCEPT];
  }

  /** A dog bonded with itself can be routed to itself: the invite rings on both ends alike. */
  lemma SelfInvited() returns (ws: seq<World>, es: seq<Event>)
    ensures Run(ws, es) && RING in ws[|es|].app.invites.byId
    ensures ws[|es|].app.invites.byId[RING].fromDog == ws[|es|].app.invites.byId[RING].toDog
  {
    es := [BondPair(ADA, ADA, 1.0), Report(Here(ADA))];
    var create := Create(ADA, None, Portal, RING, NOON, NOON, [(ADA, 1.0)]);
    var w0 := Start(NOON);
    var w1 := Next(w0, es[0]);
    var w2 := Next(w1, es[1]);
    var vs := [w0, w1, w2];
    assert Run(vs, es) by {
      hide After;
      forall i | 0 <= i < 2 ensures Linked(vs, es, i) {}
    }
    SelfCreated(w2.app);
    hide InviteCreated;
    ws := Then(vs, es, create);
    es := es + [create];
  }

  lemma SelfCreated(a: App)
    requires a == App(map[ADA := EntryOf(Here(ADA))], map[(ADA, ADA) := 1.0], Invites(map[], map[], map[]), NO_SESSIONS,
                      map[], map[])
    ensures IsCandidates(a.bonds, ADA, [(ADA, 1.0)])
    ensures InviteCreated(a, ADA, None, Portal, RING, NOON, NOON, [(ADA, 1.0)]).result
            == Success(NewInvite(RING, ADA, ADA, Portal, NOON))
    ensures RING in InviteCreated(a, ADA, None, Portal, RING, NOON, NOON, [(ADA, 1.0)]).app.invites.byId
  {
    NothingDue(a.invites, NOON);
    Awake(ADA, PolicyFor(a.policies, ADA), NOON);
    assert PresentDogs(a.presence, NOON) == {ADA};
    assert Recent(TimesOf(a.invites, ADA), NOON) == [];
    assert Pruned(a.invites, ADA, NOON) == a.invites;
    assert PolicyFor(a.policies, ADA).maxInvitesPerHour == 12;
    hide SocialDenied, InvitesExpired, PresentDogs, Pruned, Recent, PolicyFor, TimesOf;
  }

  /** A lost-media report is not durable: right after it, a restart brings back other flags. */
  lemma UnreadyIsLost() returns (ws: seq<World>, es: seq<Event>)
    ensures Run(ws, es) && ws[|es|].app.rows.Keys == {MEET}
    ensures Loaded(NO_SESSIONS, [ws[|es|].app.rows[MEET]]) != ws[|es|].app.sessions
  {
    var vs := Joined();
    var lost := Media(ADA, MEET, false);
    Reported(map[BOB := BOBS], TALK, Extra(false, false), RowOf(TALK, false, false), ADA, false);
    MediaNext(vs[6], lost);
    es := SETUP + [CREATE, ACCEPT];
    ws := Then(vs, es, lost);
    es := es + [lost];
    var row := RowOf(TALK, true, false);
    assert ws[7].app == Met(map[BOB := BOBS], TALK, Extra(false, false), row);
    assert Enumerates([row], ws[7].app.rows) by { hide RowOf; assert row.sessionId == MEET; }
    assert ws[6].app.sessions == Talking(TALK, Extra(false, false));
    MediaKeepsMirror(ws, es, 6);
    NotRestored(ws, es, 7, [row]);
  }

  lemma NotRestored(ws: seq<World>, es: seq<Event>, n: nat, order: seq<SessionRow>)
    requires Run(ws, es) && n <= |es| && Enumerates(order, ws[n].app.rows)
    requires MEET in ws[n].app.sessions.byId && !RowExact(ws[n].app, MEET)
    ensures Loaded(NO_SESSIONS, order) != ws[n].app.sessions
  {
    RestartAlways(ws, es, n, order);
    ExactIffLastTruthful(ws, es, n, MEET);
    hide *;
  }

  const LIVE := TALK.(state := Active)

  const HALF_READY := SETUP + [CREATE, ACCEPT] + BOTH_READY + [Media(ADA, MEET, false)]

  lemma HalfReady() returns (ws: seq<World>)
    ensures Run(ws, HALF_READY) && |ws| == 10 && ws[9].clock == NOON && ws[9].app.rows.Keys == {MEET}
    ensures ws[9].app.sessions == Talking(LIVE, Extra(false, true))
  {
    var vs := Connected();
    Reported(map[BOB := BOBS], LIVE, Extra(true, true), RowOf(LIVE, true, true), ADA, false);
    MediaNext(vs[8], Media(ADA, MEET, false));
    hide RowOf, Run, After;
    ws := Then(vs, SETUP + [CREATE, ACCEPT] + BOTH_READY, Media(ADA, MEET, false));
  }

  lemma AgainRow(w: World, e: Event)
    requires e == Again(BOB, MEET, NOON) && w.clock == NOON && w.app.rows.Keys == {MEET}
    requires w.app.sessions == Talking(LIVE, Extra(false, true))
    ensures Enabled(w, e) && Next(w, e).app.rows.Keys == {MEET} && Next(w, e).app.rows[MEET].sessionId == MEET
    ensures MEET in Next(w, e).app.sessions.byId && Next(w, e).app.sessions.byId[MEET].state == Active
  {
    hide ExtendSegment, PolicyFor, ModeStr, StateStr;
  }

  /** Nor is an Again on an Active session one of whose dogs has lost its media: the row then says
      both are ready. */
  lemma AgainOverstates() returns (ws: seq<World>, es: seq<Event>)
    ensures Run(ws, es) && ws[|es|].app.rows.Keys == {MEET} && MEET in ws[|es|].app.sessions.byId
    ensures ws[|es|].app.sessions.byId[MEET].state == Active
    ensures Loaded(NO_SESSIONS, [ws[|es|].app.rows[MEET]]) != ws[|es|].app.sessions
  {
    var vs := HalfReady();
    var more := Again(BOB, MEET, NOON);
    hide Run, After, Loaded, RowExact;
    AgainRow(vs[9], more);
    ws := Then(vs, HALF_READY, more);
    es := HALF_READY + [more];
    var row := ws[10].app.rows[MEET];
    AgainKeepsMirror(ws, es, 9);
    assert Enumerates([row], ws[10].app.rows);
    NotRestored(ws, es, 10, [row]);
  }

  /// ---- A stale invite row ----

  /** The moment the first call has rung out. Both dogs are still there and report again. */
  const LATER := NOON + RING_TIMEOUT_MS

  const RING_AGAIN := InviteId(2)

  function StillHere(d: DogId): PresenceReport { Here(d).(ts := LATER, seqNo := 2) }

  const CALL_AGAIN := NewInvite(RING_AGAIN, ADA, BOB, Portal, LATER)

  const LATER_APP := RINGING_APP.(presence := map[ADA := EntryOf(StillHere(ADA)), BOB := EntryOf(StillHere(BOB))])

  const SECOND_APP := LATER_APP.(invites := Invites(map[RING_AGAIN := CALL_AGAIN],
                                                    map[ADA := RING_AGAIN, BOB := RING_AGAIN],
                                                    map[ADA := [NOON, LATER]]))

  const CREATE_AGAIN := Create(ADA, Some(BOB), Portal, RING_AGAIN, LATER, LATER, [(BOB, 1.0)])

  const ACCEPT_AGAIN := Accept(BOB, RING_AGAIN, MEET, LATER)

  lemma RungOut()
    ensures InvitesExpired(RINGING_APP.invites, LATER) == Invites(map[], map[], map[ADA := [NOON]])
  {
    assert Due(RINGING_APP.invites, LATER) == {RING};
    assert Parties(RINGING_APP.invites, {RING}) == {ADA, BOB};
  }

  const RUNG_OUT := Invites(map[], map[], map[ADA := [NOON]])

  lemma PlacedAgain()
    ensures |Recent(TimesOf(RUNG_OUT, ADA), LATER)| == 1 && Pruned(RUNG_OUT, ADA, LATER) == RUNG_OUT
    ensures Recorded(InviteInserted(RUNG_OUT, CALL_AGAIN), ADA, LATER) == SECOND_APP.invites
  {
    assert TimesOf(RUNG_OUT, ADA) == [NOON] && Recent([NOON], LATER) == [NOON];
    assert [NOON] + [LATER] == [NOON, LATER];
    var placed := Recorded(InviteInserted(RUNG_OUT, CALL_AGAIN), ADA, LATER);
    assert placed.byId == SECOND_APP.invites.byId && placed.open == SECOND_APP.invites.open;
    assert placed.times == SECOND_APP.invites.times;
  }

  lemma CreatedAgain()
    ensures After(LATER_APP, CREATE_AGAIN) == SECOND_APP
    ensures InviteCreated(LATER_APP, ADA, Some(BOB), Portal, RING_AGAIN, LATER, LATER, [(BOB, 1.0)]).result
            == Success(CALL_AGAIN)
  {
    var a := LATER_APP;
    RungOut();
    PlacedAgain();
    Awake(ADA, PolicyFor(a.policies, ADA), LATER);
    Awake(BOB, PolicyFor(a.policies, BOB), LATER);
    assert PresentDogs(a.presence, LATER) == {ADA, BOB};
    RoutePreferred(ADA, BOB, PAIR, [(BOB, 1.0)], {ADA, BOB});
    assert PolicyFor(a.policies, ADA).maxInvitesPerHour == 12;
    hide SocialDenied, InvitesExpired, PresentDogs, RouteInvite, Pruned, Recent, PolicyFor, TimesOf, Recorded,
         InviteInserted;
  }

  lemma BackAgain() returns (ws: seq<World>, es: seq<Event>)
    ensures Run(ws, es) && |es| == 7 && es[4] == CREATE && es[5].Report? && es[6].Report?
    ensures ws[5].app == RINGING_APP && ws[7] == World(LATER_APP, NOON, {RING}, {}, NOON)
  {
    var vs := Rung();
    var a, b := Report(StillHere(ADA)), Report(StillHere(BOB));
    assert After(After(RINGING_APP, a), b) == LATER_APP;
    hide After, Run;
    vs := Then(vs, SETUP + [CREATE], a);
    es := SETUP + [CREATE] + [a];
    ws := Then(vs, es, b);
    es := es + [b];
  }

  lemma RungAgain() returns (ws: seq<World>, es: seq<Event>)
    ensures Run(ws, es) && |es| == 8 && ws[8] == World(SECOND_APP, LATER, {RING, RING_AGAIN}, {}, NOON)
    ensures RING in RowsAt(ws, es, 8) && RowsAt(ws, es, 8)[RING] == CALL
  {
    var vs, fs := BackAgain();
    CreatedAgain();
    PairCandidates();
    SecondNext(vs[7]);
    hide After, InviteCreated, IsCandidates, Enabled, Next, RowsAt, Run;
    ws := Then(vs, fs, CREATE_AGAIN);
    es := fs + [CREATE_AGAIN];
    FirstRow(ws, es);
  }

  lemma SecondNext(w: World)
    requires w == World(LATER_APP, NOON, {RING}, {}, NOON)
    requires After(LATER_APP, CREATE_AGAIN) == SECOND_APP && IsCandidates(PAIR, ADA, [(BOB, 1.0)])
    ensures Enabled(w, CREATE_AGAIN)
    ensures Next(w, CREATE_AGAIN) == World(SECOND_APP, LATER, {RING, RING_AGAIN}, {}, NOON)
  {
    hide After, IsCandidates;
  }

  lemma FirstRow(ws: seq<World>, es: seq<Event>)
    requires Run(ws, es) && |es| >= 8 && es[4] == CREATE && es[5].Report? && es[6].Report? && es[7] == CREATE_AGAIN
    requires RING in ws[5].app.invites.byId && ws[5].app.invites.byId[RING] == CALL
    ensures RING in RowsAt(ws, es, 8) && RowsAt(ws, es, 8)[RING] == CALL
  {
    RunCovers(ws, es, 5);
    assert RING in RowsAt(ws, es, 5) && RowsAt(ws, es, 5)[RING] == CALL by { hide RowsAt; }
    assert RowsAt(ws, es, 6) == RowsAt(ws, es, 5);
    assert RowsAt(ws, es, 7) == RowsAt(ws, es, 6);
    assert RowsAt(ws, es, 8) == RowsAfter(RowsAt(ws, es, 7), ws[7], es[7]);
    hide RowsAt, Run, CreateReply;
  }

  /** An invite that rang out is still in the table when its dogs meet on a second call: after a
      restart, for some order of the rows, a dog is both in an open invite and in a session. */
  lemma StaleRowMeetsSession() returns (ws: seq<World>, es: seq<Event>)
    ensures Run(ws, es) && !ExclusiveInAnyOrder(RowsAt(ws, es, |es|), ws[|es|].app.sessions)
  {
    var vs, fs := RungAgain();
    assert PresentAt(SECOND_APP.presence, BOB, LATER);
    Awake(BOB, PolicyFor(SECOND_APP.policies, BOB), LATER);
    assert Enabled(vs[8], ACCEPT_AGAIN);
    hide *;
    ws := Then(vs, fs, ACCEPT_AGAIN);
    es := fs + [ACCEPT_AGAIN];
    RowsPrefix(vs, fs, ws, es, 8);
    SecondMeeting(ws, es);
    RestartExclusiveIff(ws, es, 9);
  }

  lemma {:induction false} RowsPrefix(vs: seq<World>, fs: seq<Event>, ws: seq<World>, es: seq<Event>, n: nat)
    requires |vs| == |fs| + 1 && |ws| == |es| + 1 && n <= |fs| && vs <= ws && fs <= es
    ensures RowsAt(vs, fs, n) == RowsAt(ws, es, n)
    decreases n
  {
    if n > 0 {
      hide RowsAfter;
      RowsPrefix(vs, fs, ws, es, n - 1);
    }
  }

  lemma SecondMeeting(ws: seq<World>, es: seq<Event>)
    requires Run(ws, es) && |es| == 9 && es[8] == ACCEPT_AGAIN && ws[8].app == SECOND_APP
    requires PresentAt(SECOND_APP.presence, BOB, LATER)
    requires SocialDenied(PolicyFor(SECOND_APP.policies, BOB), LATER).None?
    requires RING in RowsAt(ws, es, 8) && RowsAt(ws, es, 8)[RING] == CALL
    ensures RowMeetsSession(RowsAt(ws, es, 9), ws[9].app.sessions)
  {
    DeniedIff(PolicyFor(SECOND_APP.policies, BOB), LATER);
    hide WorldOk, After, PresentAt, SocialDenied, Sociable, PolicyFor, AcceptReply;
    RunKeeps(ws, es, 8);
    assert Linked(ws, es, 8);
    AcceptSucceedsIff(ws, es, 8);
    AcceptSessions(ws[8], es[8]);
    Consent.AcceptIsNext(ws[8], es[8]);
    Consent.BornFacts(ws, es, 8);
    assert RowsAt(ws, es, 9) == RowsAt(ws, es, 8) - {RING_AGAIN};
    hide RowsAt;
    assert RowsAt(ws, es, 9)[RING].fromDog == ADA;
    assert ADA in ws[9].app.sessions.byDog.Keys;
  }
}

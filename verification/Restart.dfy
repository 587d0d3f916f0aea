/** Restarting the service from its database: when the sessions read back are exactly the live
    ones (crates/db/src/sqlite.rs:114-145 against the handlers that write the rows). */
module Restart {
  import opened Protocol
  import opened Policy
  import opened Bond
  import opened Memory
  import opened Sqlite
  import opened DeviceApi
  import opened Runs
  import opened Steps
  import opened Consent

  /// ---- What the loader makes of a row ----

  function LoadedExtra(row: SessionRow): Extra {
    if row.dogA == row.dogB then Extra(row.mediaA != 0 || row.mediaB != 0, false)
    else Extra(row.mediaA != 0, row.mediaB != 0)
  }

  /** Both flags set promote the session to Active. */
  function LoadedRecord(row: SessionRow): SessionRecord {
    var e := LoadedExtra(row);
    if e.mediaA && e.mediaB then RecordOf(row).(state := Active) else RecordOf(row)
  }

  /** Rows carry the identity and the dogs of the live sessions. */
  predicate RowsIndexed(a: App) {
    a.rows.Keys == a.sessions.byId.Keys &&
    forall sid :: sid in a.rows ==>
                    a.rows[sid].sessionId == sid &&
                    a.rows[sid].dogA == a.sessions.byId[sid].dogA && a.rows[sid].dogB == a.sessions.byId[sid].dogB
  }

  /** The part of the rebuilt store that comes from the rows of `ids`. */
  function Portion(a: App, ids: set<SessionId>): Sessions {
    Sessions(map sid | sid in ids && sid in a.rows :: LoadedRecord(a.rows[sid]),
             map d | d in a.sessions.byDog && a.sessions.byDog[d] in ids :: a.sessions.byDog[d],
             map sid | sid in ids && sid in a.rows :: LoadedExtra(a.rows[sid]))
  }

  ghost predicate Enumerates(order: seq<SessionRow>, rows: Rows) {
    (forall r :: r in order <==> r.sessionId in rows && rows[r.sessionId] == r) &&
    (forall i, j :: 0 <= i < j < |order| ==> order[i].sessionId != order[j].sessionId)
  }

  lemma FlagsReplayed(s: Sessions, row: SessionRow)
    requires row.sessionId in s.byId && s.byId[row.sessionId] == RecordOf(row)
    requires row.sessionId in s.media && s.media[row.sessionId] == Extra(false, false)
    ensures var id := row.sessionId;
            Replayed(s, row) == s.(byId := s.byId[id := LoadedRecord(row)], media := s.media[id := LoadedExtra(row)])
  {
    hide ParseMode, ParseState;
    var id := row.sessionId;
    assert s.byId[id := s.byId[id]] == s.byId && s.media[id := s.media[id]] == s.media;
  }

  lemma RowDogs(a: App, ids: set<SessionId>, sid: SessionId)
    requires SessionsOk(a.sessions) && RowsIndexed(a) && sid in a.rows && sid !in ids
    ensures var p, row := Portion(a, ids), a.rows[sid];
            row.dogA !in p.byDog && row.dogB !in p.byDog &&
            p.byDog[row.dogA := sid][row.dogB := sid] == Portion(a, ids + {sid}).byDog
  {
    hide LoadedRecord, LoadedExtra;
  }

  lemma RowRecords(a: App, ids: set<SessionId>, sid: SessionId)
    requires sid in a.rows && sid !in ids
    ensures Portion(a, ids + {sid}).byId == Portion(a, ids).byId[sid := LoadedRecord(a.rows[sid])]
    ensures Portion(a, ids + {sid}).media == Portion(a, ids).media[sid := LoadedExtra(a.rows[sid])]
  {
    hide LoadedRecord, LoadedExtra;
  }

  lemma FreeRowLoads(p: Sessions, row: SessionRow)
    requires row.dogA !in p.byDog && row.dogB !in p.byDog
    ensures var id := row.sessionId;
            RowLoaded(p, row) == Sessions(p.byId[id := LoadedRecord(row)], p.byDog[row.dogA := id][row.dogB := id],
                                          p.media[id := LoadedExtra(row)])
  {
    var r, id := RecordOf(row), row.sessionId;
    var s1 := SessionInserted(p, r);
    FlagsReplayed(s1, row);
    hide LoadedRecord, LoadedExtra, Replayed, ParseMode, ParseState;
    assert p.byId[id := r][id := LoadedRecord(row)] == p.byId[id := LoadedRecord(row)];
    assert p.media[id := Extra(false, false)][id := LoadedExtra(row)] == p.media[id := LoadedExtra(row)];
  }

  lemma RowStep(a: App, ids: set<SessionId>, sid: SessionId)
    requires SessionsOk(a.sessions) && RowsIndexed(a) && sid in a.rows && sid !in ids
    ensures RowLoaded(Portion(a, ids), a.rows[sid]) == Portion(a, ids + {sid})
  {
    assert a.rows[sid].sessionId == sid;
    RowDogs(a, ids, sid);
    RowRecords(a, ids, sid);
    FreeRowLoads(Portion(a, ids), a.rows[sid]);
    hide *;
  }

  function Ids(order: seq<SessionRow>): set<SessionId> { set i | 0 <= i < |order| :: order[i].sessionId }

  lemma IdsGrow(order: seq<SessionRow>, k: nat)
    requires 0 < k <= |order| && forall i, j :: 0 <= i < j < |order| ==> order[i].sessionId != order[j].sessionId
    ensures Ids(order[..k]) == Ids(order[..k - 1]) + {order[k - 1].sessionId}
    ensures order[k - 1].sessionId !in Ids(order[..k - 1])
  {
    assert order[..k] == order[..k - 1] + [order[k - 1]];
  }

  lemma {:induction false} LoadedPortion(a: App, order: seq<SessionRow>, k: nat)
    requires SessionsOk(a.sessions) && RowsIndexed(a) && Enumerates(order, a.rows) && k <= |order|
    ensures Loaded(NO_SESSIONS, order[..k]) == Portion(a, Ids(order[..k]))
    decreases k
  {
    if k == 0 {
      assert Portion(a, {}) == NO_SESSIONS;
    } else {
      IdsGrow(order, k);
      assert order[k - 1] in order;
      assert order[k - 1].sessionId in a.rows && a.rows[order[k - 1].sessionId] == order[k - 1];
      assert order[..k][..k - 1] == order[..k - 1];
      hide Portion, RowLoaded, SessionsOk, RowsIndexed, Enumerates, Ids;
      LoadedPortion(a, order, k - 1);
      RowStep(a, Ids(order[..k - 1]), order[k - 1].sessionId);
    }
  }

  /** What a restart yields, in whatever order the database returns the rows. */
  lemma RestartYields(a: App, order: seq<SessionRow>)
    requires SessionsOk(a.sessions) && RowsIndexed(a) && Enumerates(order, a.rows)
    ensures Loaded(NO_SESSIONS, order) == Portion(a, a.rows.Keys)
  {
    LoadedPortion(a, order, |order|);
    assert order[..|order|] == order;
    forall sid | sid in a.rows ensures sid in Ids(order) {
      assert a.rows[sid] in order;
      var i :| 0 <= i < |order| && order[i] == a.rows[sid];
    }
    assert Ids(order) == a.rows.Keys;
  }

  /// ---- When the mirror is exact ----

  predicate RowMirrors(r: SessionRecord, x: Extra, row: SessionRow) {
    LoadedRecord(row) == r && LoadedExtra(row) == x
  }

  /** The table mirrors the store: every row would be read back as its live session. */
  predicate Mirrors(s: Sessions, rows: Rows) {
    rows.Keys == s.byId.Keys == s.media.Keys &&
    forall sid :: sid in rows ==> RowMirrors(s.byId[sid], s.media[sid], rows[sid])
  }

  /** A restart restores the live session store exactly when every row mirrors its session. */
  lemma RestartExactIffMirrors(a: App, order: seq<SessionRow>)
    requires SessionsOk(a.sessions) && RowsIndexed(a) && Enumerates(order, a.rows)
    ensures Loaded(NO_SESSIONS, order) == a.sessions <==> Mirrors(a.sessions, a.rows)
  {
    RestartYields(a, order);
    PortionIsMirror(a);
    hide *;
  }

  lemma PortionIsMirror(a: App)
    requires SessionsOk(a.sessions) && RowsIndexed(a)
    ensures Portion(a, a.rows.Keys) == a.sessions <==> Mirrors(a.sessions, a.rows)
  {
    hide LoadedRecord, LoadedExtra;
    var p := Portion(a, a.rows.Keys);
    assert p.byDog == a.sessions.byDog;
    if Mirrors(a.sessions, a.rows) {
      assert p.byId == a.sessions.byId && p.media == a.sessions.media;
    }
    if p == a.sessions {
      forall sid | sid in a.rows ensures RowMirrors(a.sessions.byId[sid], a.sessions.media[sid], a.rows[sid]) {
        assert p.byId[sid] == LoadedRecord(a.rows[sid]) && p.media[sid] == LoadedExtra(a.rows[sid]);
      }
    }
  }

  /// ---- Steps that edit a session ----

  lemma MediaShape(w: World, e: Event)
    requires WorldOk(w) && e.Media? && CanSetMedia(w.app.sessions, e.sid, e.dog)
    ensures var a, b := w.app, Next(w, e).app;
            var x := ExtraSet(a.sessions.byId[e.sid], a.sessions.media[e.sid], e.dog, e.ready);
            var both := x.mediaA && x.mediaB;
            var r := if both then a.sessions.byId[e.sid].(state := Active) else a.sessions.byId[e.sid];
            && b.sessions == a.sessions.(byId := a.sessions.byId[e.sid := r], media := a.sessions.media[e.sid := x])
            && b.rows == a.rows[e.sid := RowOf(r, both || e.dog == r.dogA, both || e.dog == r.dogB)]
  {
    IdsMatch(w, e.sid);
    hide WorldOk, RowOf, ExtraSet;
  }

  lemma AgainShape(w: World, e: Event)
    requires WorldOk(w) && e.Again? && e.sid in w.app.sessions.byId && Party(w.app.sessions.byId[e.sid], e.dog)
    ensures var a, b := w.app, Next(w, e).app;
            e.sid in b.sessions.byId &&
            var r := b.sessions.byId[e.sid];
            && r == a.sessions.byId[e.sid].(segmentDeadlineAt := r.segmentDeadlineAt)
            && b.sessions == a.sessions.(byId := a.sessions.byId[e.sid := r])
            && b.rows == a.rows[e.sid := RowOf(r, true, true)]
  {
    IdsMatch(w, e.sid);
    hide WorldOk, RowOf, ExtendSegment, PolicyFor;
  }

  lemma SessionsAreOk(w: World)
    requires WorldOk(w)
    ensures SessionsOk(w.app.sessions)
  {}

  /// ---- Rows and records ----

  /** Every row reads back as its session's record; only the flags may differ. */
  predicate Current(byId: map<SessionId, SessionRecord>, rows: Rows) {
    rows.Keys == byId.Keys && forall sid :: sid in rows ==> RecordOf(rows[sid]) == byId[sid]
  }

  lemma CurrentWritten(byId: map<SessionId, SessionRecord>, rows: Rows, sid: SessionId, r: SessionRecord, ma: bool,
                       mb: bool)
    requires Current(byId, rows)
    ensures Current(byId[sid := r], rows[sid := RowOf(r, ma, mb)])
  {
    RowRoundTrip(r, ma, mb);
    hide RowOf, RecordOf;
  }

  lemma CurrentDropped(byId: map<SessionId, SessionRecord>, rows: Rows, ids: set<SessionId>)
    requires Current(byId, rows)
    ensures Current(byId - ids, rows - ids)
  {
    hide RecordOf;
  }

  lemma CurrentEnds(w: World, e: Event)
    requires WorldOk(w) && Current(w.app.sessions.byId, w.app.rows) && (e.End? || e.Estop? || e.Tick?)
    ensures Current(Next(w, e).app.sessions.byId, Next(w, e).app.rows)
  {
    hide AppOk, Current, PolicySet, PolicyFor, TickSet, InvitesExpired;
    var s := w.app.sessions;
    match e
    case End(_, sid) =>
      if sid in s.byId {
        CurrentDropped(s.byId, w.app.rows, {sid});
      }
    case Estop(dog, on) =>
      var r := SessionForDog(s, dog);
      if r.Some? {
        ForDogIsThere(s, dog) by { SessionsAreOk(w); }
        CurrentDropped(s.byId, w.app.rows, {r.value.id});
      }
    case Tick(now) => CurrentDropped(s.byId, w.app.rows, TickSet(w.app, now));
  }

  lemma CurrentEdits(w: World, e: Event)
    requires WorldOk(w) && Current(w.app.sessions.byId, w.app.rows) && (e.Media? || e.Again?)
    ensures Current(Next(w, e).app.sessions.byId, Next(w, e).app.rows)
  {
    var byId, rows := w.app.sessions.byId, w.app.rows;
    if e.Media? && CanSetMedia(w.app.sessions, e.sid, e.dog) {
      MediaShape(w, e);
      hide Current, RowOf, After, WorldOk;
      var x := ExtraSet(byId[e.sid], w.app.sessions.media[e.sid], e.dog, e.ready);
      var both := x.mediaA && x.mediaB;
      var r := if both then byId[e.sid].(state := Active) else byId[e.sid];
      CurrentWritten(byId, rows, e.sid, r, both || e.dog == r.dogA, both || e.dog == r.dogB);
    } else if e.Again? && e.sid in byId && Party(byId[e.sid], e.dog) {
      AgainShape(w, e);
      hide Current, RowOf, After, WorldOk;
      CurrentWritten(byId, rows, e.sid, Next(w, e).app.sessions.byId[e.sid], true, true);
    } else {
      hide Current, WorldOk;
    }
  }

  lemma CurrentStep(w: World, e: Event)
    requires WorldOk(w) && Enabled(w, e) && Current(w.app.sessions.byId, w.app.rows)
    ensures Current(Next(w, e).app.sessions.byId, Next(w, e).app.rows)
  {
    hide Current, AppOk, InviteCreated, InviteAccepted, SessionInserted, RowOf, IsCandidates, MediaReported,
         AgainPressed, InvitesExpired, PolicySet, PolicyFor, Upserted, Bootstrapped;
    match e
    case End(_, _) => CurrentEnds(w, e);
    case Estop(_, _) => CurrentEnds(w, e);
    case Tick(_) => CurrentEnds(w, e);
    case Media(_, _, _) => CurrentEdits(w, e);
    case Again(_, _, _) => CurrentEdits(w, e);
    case Create(_, _, _, _, _, _, _) => CreateLeavesSessions(w, e);
    case Accept(_, _, _, _) =>
      AcceptSessions(w, e);
      var r := AcceptReply(w, e);
      if r.result.Success? {
        SessionInsertKeys(w.app.sessions, r.result.value);
        CurrentWritten(w.app.sessions.byId, w.app.rows, e.sid, r.result.value, false, false);
      }
    case _ =>
  }

  lemma {:induction false} RunCurrent(ws: seq<World>, es: seq<Event>, n: nat)
    requires Run(ws, es) && n <= |es|
    ensures Current(ws[n].app.sessions.byId, ws[n].app.rows)
    decreases n
  {
    hide *;
    if n == 0 {
      EmptyIsCurrent(ws, es);
    } else {
      LinkedAt(ws, es, n - 1);
      RunKeeps(ws, es, n - 1);
      RunCurrent(ws, es, n - 1);
      CurrentStep(ws[n - 1], es[n - 1]);
    }
  }

  lemma EmptyIsCurrent(ws: seq<World>, es: seq<Event>)
    requires Run(ws, es)
    ensures Current(ws[0].app.sessions.byId, ws[0].app.rows)
  {
    hide Linked;
  }

  lemma CurrentIsIndexed(a: App)
    requires SessionsOk(a.sessions) && Current(a.sessions.byId, a.rows)
    ensures RowsIndexed(a)
    ensures forall sid :: sid in a.rows ==>
                            LoadedRecord(a.rows[sid]) ==
                            var x := LoadedExtra(a.rows[sid]);
                            if x.mediaA && x.mediaB then a.sessions.byId[sid].(state := Active)
                            else a.sessions.byId[sid]
  {
    hide LoadedExtra, ParseState, ParseMode;
  }

  lemma PortionAll(a: App)
    requires SessionsOk(a.sessions) && RowsIndexed(a)
    ensures var p := Portion(a, a.rows.Keys);
            p.byDog == a.sessions.byDog && p.byId.Keys == p.media.Keys == a.sessions.byId.Keys &&
            forall sid :: sid in p.byId ==>
                            p.byId[sid] == LoadedRecord(a.rows[sid]) && p.media[sid] == LoadedExtra(a.rows[sid])
  {
    hide LoadedRecord, LoadedExtra;
  }

  /// ---- Flags, in every reachable state ----

  /** Both flags up means Active; a session of a dog with itself has only one flag. */
  predicate Sane(r: SessionRecord, x: Extra) {
    (x.mediaA && x.mediaB ==> r.state == Active) && (r.dogA == r.dogB ==> !x.mediaB)
  }

  /** The flags of the live session: both are up, or the only one a dog has with itself. */
  predicate FlagsUp(r: SessionRecord, x: Extra) { x.mediaA && (x.mediaB || r.dogA == r.dogB) }

  lemma SaneStep(s: Sessions, t: Sessions, e: Event, sid: SessionId)
    requires sid in s.byId && sid in s.media && sid in t.byId && sid in t.media && FlagsFollow(s, t, e, sid)
    requires SameSession(t.byId[sid], s.byId[sid]) && Sane(s.byId[sid], s.media[sid])
    ensures Sane(t.byId[sid], t.media[sid])
  {}

  lemma {:induction false} RunSane(ws: seq<World>, es: seq<Event>, n: nat, sid: SessionId)
    requires Run(ws, es) && n <= |es| && sid in ws[n].app.sessions.byId
    ensures sid in ws[n].app.sessions.media && Sane(ws[n].app.sessions.byId[sid], ws[n].app.sessions.media[sid])
    decreases n
  {
    hide WorldOk, Next, Enabled, FlagsFollow, Sane, SameSession;
    assert n > 0;
    var w, e := ws[n - 1], es[n - 1];
    assert Linked(ws, es, n - 1);
    RunKeeps(ws, es, n - 1);
    FlagStep(w, e, sid);
    if sid in w.app.sessions.byId {
      RunSane(ws, es, n - 1, sid);
      SessionKept(w, e, sid);
      SaneStep(w.app.sessions, ws[n].app.sessions, e, sid);
    } else {
      BornSane(ws, es, n, sid);
    }
  }

  lemma BornSane(ws: seq<World>, es: seq<Event>, n: nat, sid: SessionId)
    requires Run(ws, es) && 0 < n <= |es|
    requires sid in ws[n].app.sessions.byId && sid in ws[n].app.sessions.media && sid !in ws[n - 1].app.sessions.byId
    requires FlagsFollow(ws[n - 1].app.sessions, ws[n].app.sessions, es[n - 1], sid)
    ensures Sane(ws[n].app.sessions.byId[sid], ws[n].app.sessions.media[sid])
  {
    hide Run;
  }

  /// ---- The row each write leaves ----

  /** The session's row would be read back as the live session, flags and all. */
  predicate RowExact(a: App, sid: SessionId) {
    sid in a.rows && sid in a.sessions.byId && sid in a.sessions.media &&
    RowMirrors(a.sessions.byId[sid], a.sessions.media[sid], a.rows[sid])
  }

  lemma RowOfMirrors(r: SessionRecord, x: Extra, ma: bool, mb: bool)
    requires Sane(r, x)
    ensures RowMirrors(r, x, RowOf(r, ma, mb)) <==>
            if r.dogA == r.dogB then (ma || mb) == x.mediaA else ma == x.mediaA && mb == x.mediaB
  {
    hide RecordOf, ModeStr, StateStr;
    RowRoundTrip(r, ma, mb);
  }

  /** The row one media report writes, against the flags it leaves in memory. */
  lemma MediaRow(r0: SessionRecord, x0: Extra, dog: DogId, ready: bool)
    requires Party(r0, dog) && Sane(r0, x0)
    ensures var x := ExtraSet(r0, x0, dog, ready);
            var both := x.mediaA && x.mediaB;
            var r := if both then r0.(state := Active) else r0;
            RowMirrors(r, x, RowOf(r, both || dog == r.dogA, both || dog == r.dogB)) <==> ready
  {
    var x := ExtraSet(r0, x0, dog, ready);
    var both := x.mediaA && x.mediaB;
    var r := if both then r0.(state := Active) else r0;
    hide RowOf, RowMirrors;
    RowOfMirrors(r, x, both || dog == r.dogA, both || dog == r.dogB);
  }

  /** After a party's media report, in every reachable state, the session's row is exact if and only
      if the report was ready. */
  lemma MediaKeepsMirror(ws: seq<World>, es: seq<Event>, n: nat)
    requires Run(ws, es) && n < |es| && es[n].Media? && CanSetMedia(ws[n].app.sessions, es[n].sid, es[n].dog)
    ensures RowExact(ws[n + 1].app, es[n].sid) <==> es[n].ready
  {
    var s, e := ws[n].app.sessions, es[n];
    RunKeeps(ws, es, n);
    RunSane(ws, es, n, e.sid);
    assert Linked(ws, es, n);
    MediaShape(ws[n], e);
    MediaRow(s.byId[e.sid], s.media[e.sid], e.dog, e.ready);
    hide Run, WorldOk, Next, Enabled, RowMirrors, Sane, RowOf, ExtraSet;
  }

  /** After a party's Again, in every reachable state, the session's row is exact if and only if the
      live flags are all up: `FlagIsLastReport` says when each is. */
  lemma AgainKeepsMirror(ws: seq<World>, es: seq<Event>, n: nat)
    requires Run(ws, es) && n < |es| && es[n].Again? && es[n].sid in ws[n].app.sessions.byId
    requires Party(ws[n].app.sessions.byId[es[n].sid], es[n].dog)
    ensures es[n].sid in ws[n].app.sessions.media
    ensures RowExact(ws[n + 1].app, es[n].sid) <==>
            FlagsUp(ws[n].app.sessions.byId[es[n].sid], ws[n].app.sessions.media[es[n].sid])
  {
    var s, e := ws[n].app.sessions, es[n];
    RunKeeps(ws, es, n);
    RunSane(ws, es, n, e.sid);
    assert Linked(ws, es, n);
    AgainShape(ws[n], e);
    RowOfMirrors(ws[n + 1].app.sessions.byId[e.sid], s.media[e.sid], true, true);
    hide Run, WorldOk, Next, Enabled, RowMirrors, RowOf;
  }

  /// ---- The last write decides ----

  /** The step writes this session's row. */
  predicate Writes(w: World, e: Event, sid: SessionId) {
    || (e.Accept? && e.sid == sid && AcceptReply(w, e).result.Success?)
    || (e.Media? && e.sid == sid && CanSetMedia(w.app.sessions, sid, e.dog))
    || (e.Again? && e.sid == sid && sid in w.app.sessions.byId && Party(w.app.sessions.byId[sid], e.dog))
  }

  /** A write that tells the truth: an accept, a report that media is ready, or an Again while the
      session's flags are up. */
  predicate Truthful(w: World, e: Event) {
    (e.Media? ==> e.ready) &&
    (e.Again? ==> e.sid in w.app.sessions.byId && e.sid in w.app.sessions.media &&
                  FlagsUp(w.app.sessions.byId[e.sid], w.app.sessions.media[e.sid]))
  }

  ghost predicate LastWrite(ws: seq<World>, es: seq<Event>, j: nat, n: nat, sid: SessionId)
    requires |ws| == |es| + 1 && n <= |es|
  {
    j < n && Writes(ws[j], es[j], sid) && forall k :: j < k < n ==> !Writes(ws[k], es[k], sid)
  }

  /** The last step before `n` that wrote the session's row told the truth. */
  ghost predicate LastTruthful(ws: seq<World>, es: seq<Event>, n: nat, sid: SessionId)
    requires |ws| == |es| + 1 && n <= |es|
  {
    exists j: nat :: LastWrite(ws, es, j, n, sid) && Truthful(ws[j], es[j])
  }

  lemma WriteExact(ws: seq<World>, es: seq<Event>, n: nat, sid: SessionId)
    requires Run(ws, es) && n < |es| && Writes(ws[n], es[n], sid)
    ensures RowExact(ws[n + 1].app, sid) <==> Truthful(ws[n], es[n])
  {
    hide RowExact, Run, FlagsUp;
    if es[n].Media? {
      MediaKeepsMirror(ws, es, n);
    } else if es[n].Again? {
      AgainKeepsMirror(ws, es, n);
    } else {
      AcceptExact(ws, es, n);
    }
  }

  lemma AcceptExact(ws: seq<World>, es: seq<Event>, n: nat)
    requires Run(ws, es) && n < |es| && es[n].Accept? && AcceptReply(ws[n], es[n]).result.Success?
    ensures RowExact(ws[n + 1].app, es[n].sid)
  {
    hide AcceptReply, RowOf, RowMirrors, Enabled, WorldOk;
    RunKeeps(ws, es, n);
    assert Linked(ws, es, n);
    AcceptSessions(ws[n], es[n]);
    BornFacts(ws, es, n);
    var s := AcceptReply(ws[n], es[n]).result.value;
    RowOfMirrors(s, Extra(false, false), false, false);
    AcceptIsNext(ws[n], es[n]);
    hide Next, Run;
  }

  /** A step that does not write the row leaves row, record and flags alone, if the session lives. */
  lemma UnwrittenStays(w: World, e: Event, sid: SessionId)
    requires WorldOk(w) && Enabled(w, e) && !Writes(w, e, sid) && sid in Next(w, e).app.sessions.byId
    ensures sid in w.app.sessions.byId
    ensures RowExact(Next(w, e).app, sid) <==> RowExact(w.app, sid)
  {
    hide AppOk, RowMirrors, InviteCreated, InviteAccepted, TickEnds, InvitesExpired, InviteClosed, IsCandidates,
         PolicyFor, PolicySet, MediaSet, DeadlineSet, ExtendSegment, RowOf, Upserted, Bootstrapped;
    match e
    case Create(_, _, _, _, _, _, _) => CreateLeavesSessions(w, e);
    case Accept(_, _, _, _) => AcceptSessions(w, e);
    case Media(_, _, _) => MediaElsewhere(w, e, sid);
    case Again(_, _, _) => AgainElsewhere(w, e, sid);
    case _ =>
  }

  lemma MediaElsewhere(w: World, e: Event, sid: SessionId)
    requires WorldOk(w) && e.Media? && !Writes(w, e, sid) && sid in Next(w, e).app.sessions.byId
    ensures sid in w.app.sessions.byId
    ensures RowExact(Next(w, e).app, sid) <==> RowExact(w.app, sid)
  {
    if CanSetMedia(w.app.sessions, e.sid, e.dog) {
      MediaShape(w, e);
      hide WorldOk, RowMirrors, RowOf, After, ExtraSet, CanSetMedia;
    } else {
      hide WorldOk, RowMirrors;
    }
  }

  lemma AgainElsewhere(w: World, e: Event, sid: SessionId)
    requires WorldOk(w) && e.Again? && !Writes(w, e, sid) && sid in Next(w, e).app.sessions.byId
    ensures sid in w.app.sessions.byId
    ensures RowExact(Next(w, e).app, sid) <==> RowExact(w.app, sid)
  {
    if e.sid in w.app.sessions.byId && Party(w.app.sessions.byId[e.sid], e.dog) {
      AgainShape(w, e);
      hide WorldOk, RowMirrors, RowOf, After;
    } else {
      hide WorldOk, RowMirrors;
    }
  }

  lemma {:induction false} ExactByWrite(ws: seq<World>, es: seq<Event>, n: nat, sid: SessionId) returns (j: nat)
    requires Run(ws, es) && n <= |es| && sid in ws[n].app.sessions.byId
    ensures LastWrite(ws, es, j, n, sid) && (RowExact(ws[n].app, sid) <==> Truthful(ws[j], es[j]))
    decreases n
  {
    hide WorldOk, Next, Enabled, Writes, RowExact, Truthful;
    assert n > 0;
    var w, e := ws[n - 1], es[n - 1];
    assert Linked(ws, es, n - 1);
    RunKeeps(ws, es, n - 1);
    if Writes(w, e, sid) {
      j := n - 1;
      WriteExact(ws, es, n - 1, sid);
    } else {
      UnwrittenStays(w, e, sid);
      j := ExactByWrite(ws, es, n - 1, sid);
    }
  }

  lemma ExactIffLastTruthful(ws: seq<World>, es: seq<Event>, n: nat, sid: SessionId)
    requires Run(ws, es) && n <= |es| && sid in ws[n].app.sessions.byId
    ensures RowExact(ws[n].app, sid) <==> LastTruthful(ws, es, n, sid)
  {
    assert |ws| == |es| + 1;
    hide Run, Writes, RowExact, Truthful;
    var j := ExactByWrite(ws, es, n, sid);
    forall k: nat | LastWrite(ws, es, k, n, sid) ensures k == j {}
  }

  /// ---- Restart ----

  lemma MirrorsByRow(a: App)
    requires a.rows.Keys == a.sessions.byId.Keys == a.sessions.media.Keys
    ensures Mirrors(a.sessions, a.rows) <==> forall sid :: sid in a.sessions.byId ==> RowExact(a, sid)
  {
    hide RowMirrors;
  }

  /** What a restart keeps in every run, even if clients report lost media or press Again on a
      session that is not Active: the same sessions, the same dog index, and every record
      unchanged, but for a session promoted to Active by the flags in its row. It restores the
      flags too, and so the whole live store, if and only if for each live session the last step
      that wrote its row was the accept, a ready report, or an Again while its flags were up. */
  lemma RestartAlways(ws: seq<World>, es: seq<Event>, n: nat, order: seq<SessionRow>)
    requires Run(ws, es) && n <= |es| && Enumerates(order, ws[n].app.rows)
    ensures var l, s := Loaded(NO_SESSIONS, order), ws[n].app.sessions;
            && l.byDog == s.byDog && l.byId.Keys == l.media.Keys == s.byId.Keys
            && (forall sid :: sid in l.byId ==>
                                l.byId[sid] ==
                                if l.media[sid].mediaA && l.media[sid].mediaB then s.byId[sid].(state := Active)
                                else s.byId[sid])
            && (l == s <==> forall sid :: sid in s.byId ==> LastTruthful(ws, es, n, sid))
  {
    RunKeeps(ws, es, n);
    RunCurrent(ws, es, n);
    var a := ws[n].app;
    CurrentIsIndexed(a);
    RestartYields(a, order);
    RestartExactIffMirrors(a, order);
    PortionAll(a);
    MirrorsByRow(a);
    hide *;
    forall sid | sid in a.sessions.byId ensures RowExact(a, sid) <==> LastTruthful(ws, es, n, sid) {
      ExactIffLastTruthful(ws, es, n, sid);
    }
  }

  /// ---- The flags a restart brings back ----

  /** The flags that step `e`, as it leaves the session `r` with the live flags `x`, makes a restart
      bring back: none after an accept, all after an Again, and after a media report, ready or not, the
      reporter's, and the other's if both are up. A dog alone has only the first. */
  function BroughtBack(r: SessionRecord, x: Extra, e: Event): Extra {
    if e.Media? || e.Again? then
      var all := e.Again? || (x.mediaA && x.mediaB);
      if r.dogA == r.dogB then Extra(true, false) else Extra(all || e.dog == r.dogA, all || e.dog == r.dogB)
    else Extra(false, false)
  }

  /** The session is live and its row would bring back these flags. */
  predicate Brings(a: App, sid: SessionId, x: Extra) { sid in a.rows && LoadedExtra(a.rows[sid]) == x }

  lemma RowFlags(r: SessionRecord, ma: bool, mb: bool)
    ensures LoadedExtra(RowOf(r, ma, mb)) == if r.dogA == r.dogB then Extra(ma || mb, false) else Extra(ma, mb)
  {}

  lemma WriteBrings(w: World, e: Event, sid: SessionId)
    requires WorldOk(w) && Enabled(w, e) && Writes(w, e, sid)
    ensures var b := Next(w, e).app;
            sid in b.sessions.byId && sid in b.sessions.media &&
            Brings(b, sid, BroughtBack(b.sessions.byId[sid], b.sessions.media[sid], e))
  {
    hide RowOf, LoadedExtra, BroughtBack;
    if e.Media? {
      MediaShape(w, e);
      MediaBrings(w, e);
    } else if e.Again? {
      AgainShape(w, e);
      AgainBrings(w, e);
    } else {
      AcceptBrings(w, e);
    }
    hide *;
  }

  lemma MediaBrings(w: World, e: Event)
    requires e.Media? && CanSetMedia(w.app.sessions, e.sid, e.dog)
    requires var a, b := w.app, Next(w, e).app;
             var x := ExtraSet(a.sessions.byId[e.sid], a.sessions.media[e.sid], e.dog, e.ready);
             var both := x.mediaA && x.mediaB;
             var r := if both then a.sessions.byId[e.sid].(state := Active) else a.sessions.byId[e.sid];
             && b.sessions == a.sessions.(byId := a.sessions.byId[e.sid := r], media := a.sessions.media[e.sid := x])
             && b.rows == a.rows[e.sid := RowOf(r, both || e.dog == r.dogA, both || e.dog == r.dogB)]
    ensures var b := Next(w, e).app;
            e.sid in b.sessions.byId && e.sid in b.sessions.media &&
            Brings(b, e.sid, BroughtBack(b.sessions.byId[e.sid], b.sessions.media[e.sid], e))
  {
    var r, x := Next(w, e).app.sessions.byId[e.sid], Next(w, e).app.sessions.media[e.sid];
    var both := x.mediaA && x.mediaB;
    RowFlags(r, both || e.dog == r.dogA, both || e.dog == r.dogB);
    hide Next, RowOf, LoadedExtra, ExtraSet;
  }

  lemma AgainBrings(w: World, e: Event)
    requires WorldOk(w) && e.Again? && e.sid in w.app.sessions.byId && e.sid in Next(w, e).app.sessions.byId
    requires var a, b := w.app, Next(w, e).app;
             var r := b.sessions.byId[e.sid];
             && b.sessions == a.sessions.(byId := a.sessions.byId[e.sid := r])
             && b.rows == a.rows[e.sid := RowOf(r, true, true)]
    ensures var b := Next(w, e).app;
            e.sid in b.sessions.media &&
            Brings(b, e.sid, BroughtBack(b.sessions.byId[e.sid], b.sessions.media[e.sid], e))
  {
    SessionsAreOk(w);
    assert e.sid in w.app.sessions.media.Keys;
    RowFlags(Next(w, e).app.sessions.byId[e.sid], true, true);
    hide WorldOk, Next, RowOf, LoadedExtra, SessionsOk;
  }

  lemma AcceptBrings(w: World, e: Event)
    requires WorldOk(w) && Enabled(w, e) && e.Accept? && AcceptReply(w, e).result.Success?
    ensures var b := Next(w, e).app;
            e.sid in b.sessions.byId && e.sid in b.sessions.media &&
            Brings(b, e.sid, BroughtBack(b.sessions.byId[e.sid], b.sessions.media[e.sid], e))
  {
    AcceptSessions(w, e);
    AcceptIsNext(w, e);
    RowFlags(AcceptReply(w, e).result.value, false, false);
    hide WorldOk, Enabled, Next, AcceptReply, RowOf, LoadedExtra;
  }

  lemma RowStays(w: World, e: Event, sid: SessionId)
    requires WorldOk(w) && Enabled(w, e) && !Writes(w, e, sid) && sid in Next(w, e).app.sessions.byId
    ensures sid in w.app.sessions.byId
    ensures sid in w.app.rows && sid in Next(w, e).app.rows && Next(w, e).app.rows[sid] == w.app.rows[sid]
  {
    hide *;
    UnwrittenStays(w, e, sid);
    StepKeeps(w, e);
    RowsAreThere(w, sid);
    RowsAreThere(Next(w, e), sid);
    RowUntouched(w, e, sid);
  }

  lemma RowUntouched(w: World, e: Event, sid: SessionId)
    requires WorldOk(w) && Enabled(w, e) && !Writes(w, e, sid) && sid in w.app.rows && sid in Next(w, e).app.rows
    ensures Next(w, e).app.rows[sid] == w.app.rows[sid]
  {
    hide *;
    if e.Accept? {
      AcceptRows(w, e, sid);
    } else if e.Create? {
      CreateRows(w, e, sid);
    } else if e.Media? {
      MediaRows(w, e, sid);
    } else if e.Again? {
      AgainRows(w, e, sid);
    } else {
      RestRows(w, e, sid);
    }
  }

  lemma AcceptRows(w: World, e: Event, sid: SessionId)
    requires WorldOk(w) && Enabled(w, e) && e.Accept? && !Writes(w, e, sid)
    requires sid in w.app.rows && sid in Next(w, e).app.rows
    ensures Next(w, e).app.rows[sid] == w.app.rows[sid]
  {
    AcceptSessions(w, e);
    AcceptIsNext(w, e);
    hide WorldOk, Enabled, Next, AcceptReply, RowOf;
  }

  lemma CreateRows(w: World, e: Event, sid: SessionId)
    requires e.Create? && sid in w.app.rows && sid in Next(w, e).app.rows
    ensures Next(w, e).app.rows[sid] == w.app.rows[sid]
  {
    CreateLeavesSessions(w, e);
    hide InviteCreated;
  }

  lemma RestRows(w: World, e: Event, sid: SessionId)
    requires !e.Accept? && !e.Create? && !e.Media? && !e.Again?
    requires sid in w.app.rows && sid in Next(w, e).app.rows
    ensures Next(w, e).app.rows[sid] == w.app.rows[sid]
  {
    hide TickSet, InvitesExpired, InviteClosed, InviteForDog, PolicyFor, PolicySet, Upserted, Bootstrapped,
         SessionEnded, SessionsEnded, SessionForDog, Party;
  }

  lemma MediaRows(w: World, e: Event, sid: SessionId)
    requires WorldOk(w) && e.Media? && !Writes(w, e, sid) && sid in w.app.rows && sid in Next(w, e).app.rows
    ensures Next(w, e).app.rows[sid] == w.app.rows[sid]
  {
    if CanSetMedia(w.app.sessions, e.sid, e.dog) {
      MediaShape(w, e);
      hide WorldOk, Next, RowOf, ExtraSet, CanSetMedia;
    } else {
      hide WorldOk, CanSetMedia;
    }
  }

  lemma AgainRows(w: World, e: Event, sid: SessionId)
    requires WorldOk(w) && e.Again? && !Writes(w, e, sid) && sid in w.app.rows && sid in Next(w, e).app.rows
    ensures Next(w, e).app.rows[sid] == w.app.rows[sid]
  {
    if e.sid in w.app.sessions.byId && Party(w.app.sessions.byId[e.sid], e.dog) {
      AgainShape(w, e);
      hide WorldOk, Next, RowOf, Party;
    } else {
      hide WorldOk;
    }
  }

  lemma RowsAreThere(w: World, sid: SessionId)
    requires WorldOk(w)
    ensures sid in w.app.rows <==> sid in w.app.sessions.byId
  {
    assert sid in w.app.rows.Keys <==> sid in w.app.sessions.byId.Keys;
    hide InvitesOk, SessionsOk;
  }

  /** The last write of the session's row, and the flags it makes a restart bring back. */
  ghost predicate BroughtBy(ws: seq<World>, es: seq<Event>, j: nat, n: nat, sid: SessionId)
    requires |ws| == |es| + 1 && n <= |es|
  {
    LastWrite(ws, es, j, n, sid) &&
    var s := ws[j + 1].app.sessions;
    sid in s.byId && sid in s.media && Brings(ws[n].app, sid, BroughtBack(s.byId[sid], s.media[sid], es[j]))
  }

  lemma {:induction false} RowBrings(ws: seq<World>, es: seq<Event>, n: nat, sid: SessionId) returns (j: nat)
    requires Run(ws, es) && n <= |es| && sid in ws[n].app.sessions.byId
    ensures |ws| == |es| + 1 && BroughtBy(ws, es, j, n, sid)
    decreases n
  {
    hide WorldOk, Next, Enabled, Writes, Brings, BroughtBack, Run;
    NotAtStart(ws, es, n, sid);
    LinkedAt(ws, es, n - 1);
    RunKeeps(ws, es, n - 1);
    if Writes(ws[n - 1], es[n - 1], sid) {
      j := n - 1;
      WriteBrings(ws[n - 1], es[n - 1], sid);
    } else {
      RowStays(ws[n - 1], es[n - 1], sid);
      j := RowBrings(ws, es, n - 1, sid);
      BringsOn(ws[n - 1].app, ws[n].app, sid);
    }
  }

  lemma NotAtStart(ws: seq<World>, es: seq<Event>, n: nat, sid: SessionId)
    requires Run(ws, es) && n <= |es| && sid in ws[n].app.sessions.byId
    ensures n > 0
  {
    hide Linked;
  }

  lemma BringsOn(a: App, b: App, sid: SessionId)
    requires sid in a.rows && sid in b.rows && a.rows[sid] == b.rows[sid]
    ensures forall x :: Brings(a, sid, x) <==> Brings(b, sid, x)
  {
    hide LoadedExtra;
  }

  /** In every run at all, the flags a restart gives a session are those its last write brings back.
      Returns the step that wrote. */
  lemma RestartFlags(ws: seq<World>, es: seq<Event>, n: nat, order: seq<SessionRow>, sid: SessionId)
    returns (j: nat)
    requires Run(ws, es) && n <= |es| && Enumerates(order, ws[n].app.rows) && sid in ws[n].app.sessions.byId
    ensures |ws| == |es| + 1 && LastWrite(ws, es, j, n, sid)
    ensures var l, s := Loaded(NO_SESSIONS, order), ws[j + 1].app.sessions;
            sid in s.byId && sid in s.media && sid in l.media &&
            l.media[sid] == BroughtBack(s.byId[sid], s.media[sid], es[j])
  {
    var a := ws[n].app;
    RunKeeps(ws, es, n);
    RunCurrent(ws, es, n);
    RowsAreThere(ws[n], sid);
    SessionsAreOk(ws[n]);
    CurrentIsIndexed(a);
    RestartYields(a, order);
    PortionAll(a);
    j := RowBrings(ws, es, n, sid);
    hide Run, Portion, Loaded, BroughtBack, Enumerates, LoadedRecord, LoadedExtra, WorldOk, Current, Writes, SessionsOk;
    assert sid in Portion(a, a.rows.Keys).byId.Keys;
  }

  /// ---- Well-behaved clients ----

  /** The clients behave: they only report ready, and press Again only on Active sessions. */
  ghost predicate WellBehaved(ws: seq<World>, es: seq<Event>)
    requires |ws| == |es| + 1
  {
    forall i :: 0 <= i < |es| ==> Behaves(ws[i], es[i])
  }

  predicate Behaves(w: World, e: Event) {
    (e.Media? ==> e.ready) &&
    (e.Again? && e.sid in w.app.sessions.byId ==> w.app.sessions.byId[e.sid].state == Active)
  }

  lemma {:induction false} ActiveHasFlags(ws: seq<World>, es: seq<Event>, n: nat, sid: SessionId)
    requires Run(ws, es) && WellBehaved(ws, es) && n <= |es| && sid in ws[n].app.sessions.byId
    ensures sid in ws[n].app.sessions.media
    ensures ws[n].app.sessions.byId[sid].state == Active ==>
              ws[n].app.sessions.media[sid].mediaA && ws[n].app.sessions.media[sid].mediaB
    decreases n
  {
    hide WorldOk, Next, Enabled;
    assert n > 0;
    assert Linked(ws, es, n - 1) && Behaves(ws[n - 1], es[n - 1]);
    RunKeeps(ws, es, n - 1);
    FlagStep(ws[n - 1], es[n - 1], sid);
    if sid in ws[n - 1].app.sessions.byId {
      ActiveHasFlags(ws, es, n - 1, sid);
    }
  }

  /** Restart refinement. In every run whose clients behave, restarting from the rows, in any
      order the database may return them, restores exactly the live session records, the dog
      index and the media flags. */
  lemma RestartRefines(ws: seq<World>, es: seq<Event>, n: nat, order: seq<SessionRow>)
    requires Run(ws, es) && WellBehaved(ws, es) && n <= |es| && Enumerates(order, ws[n].app.rows)
    ensures Loaded(NO_SESSIONS, order) == ws[n].app.sessions
  {
    assert |ws| == |es| + 1;
    hide Run, AppOk, Mirrors, Loaded, Enumerates, LastWrite;
    RestartAlways(ws, es, n, order);
    forall sid | sid in ws[n].app.sessions.byId ensures LastTruthful(ws, es, n, sid) {
      var j := ExactByWrite(ws, es, n, sid);
      BehavedWrite(ws, es, j, n, sid);
    }
  }

  lemma BehavedWrite(ws: seq<World>, es: seq<Event>, j: nat, n: nat, sid: SessionId)
    requires Run(ws, es) && WellBehaved(ws, es) && n <= |es| && LastWrite(ws, es, j, n, sid)
    ensures Truthful(ws[j], es[j])
  {
    assert Behaves(ws[j], es[j]);
    hide Run, WellBehaved;
    if es[j].Again? {
      ActiveHasFlags(ws, es, j, sid);
    }
  }
}

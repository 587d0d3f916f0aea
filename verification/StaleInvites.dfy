/** The invite table across a restart. Handlers expire invites in memory without deleting their rows
    (services/device-api/src/main.rs:424, 509, 566), and only the tick deletes the rows of what it
    expires itself, so stale rows build up; start-up loads invite and session rows independently
    (crates/db/src/sqlite.rs:95-145). */
module StaleInvites {
  import opened Base
  import opened Protocol
  import opened Policy
  import opened Bond
  import opened Session
  import opened Memory
  import opened Sqlite
  import opened DeviceApi
  import opened Runs
  import opened Steps
  import opened Consent
  import opened Restart

  /// ---- The table over a run ----

  /** What a step writes to the invite table: as the service's methods do. */
  function RowsAfter(rows: InviteRows, w: World, e: Event): InviteRows {
    match e
    case Create(_, _, _, id, _, _, _) =>
      var r := CreateReply(w, e).result;
      if r.Success? then rows[id := r.value] else rows
    case Cancel(dog, id) => if InviteCancelled(w.app, dog, id).result.Success? then rows - {id} else rows
    case Accept(_, id, _, _) => if AcceptReply(w, e).result.Success? then rows - {id} else rows
    case Tick(now) => rows - IdsOf(DueInvites(w.app.invites, now))
    case _ => rows
  }

  ghost function RowsAt(ws: seq<World>, es: seq<Event>, n: nat): InviteRows
    requires |ws| == |es| + 1 && n <= |es|
  {
    if n == 0 then map[] else RowsAfter(RowsAt(ws, es, n - 1), ws[n - 1], es[n - 1])
  }

  /** Every open invite has its row; every other row is of an invite that is already due. */
  predicate RowsCover(w: World, rows: InviteRows) {
    (forall id :: id in w.app.invites.byId ==> id in rows && rows[id] == w.app.invites.byId[id]) &&
    (forall id :: id in rows ==>
                    rows[id].id == id && rows[id].state == Ringing && id in w.usedInvites &&
                    (id in w.app.invites.byId || rows[id].expiresAt <= w.clock))
  }

  /** How an invite can leave the store: overdue, cancelled, or accepted. */
  lemma InviteLeaves(w: World, e: Event, id: InviteId)
    requires WorldOk(w) && Enabled(w, e) && id in w.app.invites.byId && id !in Next(w, e).app.invites.byId
    ensures || w.app.invites.byId[id].expiresAt <= Next(w, e).clock
            || (e.Cancel? && e.id == id && InviteCancelled(w.app, e.dog, id).result.Success?)
            || (e.Accept? && e.id == id && AcceptReply(w, e).result.Success?)
    ensures e.Tick? ==> id in Due(w.app.invites, e.now)
  {
    ClockNext(w, e);
    if e.Create? {
      CreateLeaves(w.app, e, id);
      hide AppOk, InviteCreated, IsCandidates;
    } else if e.Accept? {
      AcceptKeeps(w, e);
      AcceptLeaves(w.app, e, id);
      hide AppOk, InviteAccepted;
    } else {
      OtherLeaves(w, e, id);
      hide AppOk, After;
    }
  }

  lemma OtherLeaves(w: World, e: Event, id: InviteId)
    requires id in w.app.invites.byId && id !in Next(w, e).app.invites.byId && !e.Create? && !e.Accept?
    ensures || ((e.Poll? || e.Tick?) && id in Due(w.app.invites, e.now))
            || (e.Cancel? && e.id == id && InviteCancelled(w.app, e.dog, id).result.Success?)
  {
    hide InvitesExpired, SessionEnded, SessionsEnded, TickSet;
    if e.Poll? || e.Tick? {
      ExpiryExact(w.app.invites, e.now, id);
    }
  }

  lemma CreateLeaves(a: App, e: Event, id: InviteId)
    requires e.Create? && id in a.invites.byId
    requires id !in InviteCreated(a, e.dog, e.preferred, e.mode, e.id, e.now, e.stamp, e.cands).app.invites.byId
    ensures a.invites.byId[id].expiresAt <= e.now
  {
    CreateShape(a, e);
    ExpiryExact(a.invites, e.now, id);
    hide InviteCreated, SocialDenied, RouteInvite, PresentDogs, Recent, Engaged, PolicyFor, Free, InvitesExpired;
  }

  lemma AcceptLeaves(a: App, e: Event, id: InviteId)
    requires e.Accept? && InviteAccepted(a, e.dog, e.id, e.sid, e.now).result != Failure(SessionBusy)
    requires id in a.invites.byId && id !in InviteAccepted(a, e.dog, e.id, e.sid, e.now).app.invites.byId
    ensures a.invites.byId[id].expiresAt <= e.now ||
            (e.id == id && InviteAccepted(a, e.dog, e.id, e.sid, e.now).result.Success?)
  {
    hide InviteAccepted, InvitesExpired, SocialDenied, PolicyFor, SessionInserted, RowOf;
    AcceptShape(a, e);
    ExpiryExact(a.invites, e.now, id);
  }

  lemma ClockNext(w: World, e: Event)
    requires Enabled(w, e)
    ensures w.clock <= Next(w, e).clock
    ensures e.Create? || e.Accept? || e.Poll? || e.Tick? ==> e.now <= Next(w, e).clock
    ensures w.usedInvites <= Next(w, e).usedInvites && (e.Create? ==> e.id in Next(w, e).usedInvites)
  {
    hide After;
  }

  lemma CoverStep(w: World, e: Event, rows: InviteRows)
    requires WorldOk(w) && Enabled(w, e) && RowsCover(w, rows)
    ensures RowsCover(Next(w, e), RowsAfter(rows, w, e))
  {
    hide *;
    var v, t := Next(w, e), RowsAfter(rows, w, e);
    forall id | id in v.app.invites.byId ensures id in t && t[id] == v.app.invites.byId[id] {
      RowKept(w, e, rows, id);
    }
    forall id | id in t
      ensures t[id].id == id && t[id].state == Ringing && id in v.usedInvites
      ensures id in v.app.invites.byId || t[id].expiresAt <= v.clock
    {
      RowJustified(w, e, rows, id);
    }
    Covered(v, t);
  }

  lemma Covered(w: World, rows: InviteRows)
    requires forall id :: id in w.app.invites.byId ==> id in rows && rows[id] == w.app.invites.byId[id]
    requires forall id :: id in rows ==>
                            rows[id].id == id && rows[id].state == Ringing && id in w.usedInvites &&
                            (id in w.app.invites.byId || rows[id].expiresAt <= w.clock)
    ensures RowsCover(w, rows)
  {}

  /** Which rows a step may drop, and the one it may add. */
  lemma RowStep(w: World, e: Event, rows: InviteRows, id: InviteId)
    requires WorldOk(w) && Enabled(w, e)
    ensures id in Next(w, e).app.invites.byId && id in rows ==> id in RowsAfter(rows, w, e)
    ensures e.Create? && id == e.id && CreateReply(w, e).result.Success? ==>
              id in RowsAfter(rows, w, e) && RowsAfter(rows, w, e)[id] == CreateReply(w, e).result.value &&
              id in Next(w, e).app.invites.byId
    ensures !(e.Create? && id == e.id && CreateReply(w, e).result.Success?) && id in RowsAfter(rows, w, e) ==>
              id in rows && RowsAfter(rows, w, e)[id] == rows[id]
  {
    hide WorldOk, IsCandidates, InviteCreated, InviteAccepted, InvitesExpired, SessionInserted;
    match e
    case Create(_, _, _, _, _, _, _) => CreatedIsThere(w, e);
    case Accept(_, _, _, _) =>
      if AcceptReply(w, e).result.Success? {
        AcceptFacts(w, e);
      }
    case Tick(now) =>
      ExpiryExact(w.app.invites, now, id);
      DueKeyed(w, now);
    case _ =>
  }

  lemma DueKeyed(w: World, now: Time)
    requires WorldOk(w)
    ensures IdsOf(DueInvites(w.app.invites, now)) == Due(w.app.invites, now)
  {
    var s := w.app.invites;
    forall id | id in Due(s, now) ensures id in IdsOf(DueInvites(s, now)) {
      assert s.byId[id] in DueInvites(s, now) && s.byId[id].id == id;
    }
    hide SessionsOk;
  }

  lemma CreatedIsThere(w: World, e: Event)
    requires e.Create?
    ensures CreateReply(w, e).result.Success? ==>
              CreateReply(w, e).result.value.id == e.id && e.id in CreateReply(w, e).app.invites.byId
  {
    CreateShape(w.app, e);
    hide InviteCreated, SocialDenied, RouteInvite, PresentDogs, Recent, Engaged, PolicyFor, Free, InvitesExpired;
  }

  lemma RowKept(w: World, e: Event, rows: InviteRows, id: InviteId)
    requires WorldOk(w) && Enabled(w, e) && RowsCover(w, rows) && id in Next(w, e).app.invites.byId
    ensures id in RowsAfter(rows, w, e) && RowsAfter(rows, w, e)[id] == Next(w, e).app.invites.byId[id]
  {
    hide WorldOk, Next, Enabled, RowsAfter, CreateReply;
    RowStep(w, e, rows, id);
    InviteStep(w, e, id);
    if e.Create? && id in w.app.invites.byId {
      FreshInvite(w, e);
    }
  }

  lemma FreshInvite(w: World, e: Event)
    requires WorldOk(w) && Enabled(w, e) && e.Create?
    ensures e.id !in w.app.invites.byId
  {
    hide AppOk, IsCandidates;
  }

  lemma RowJustified(w: World, e: Event, rows: InviteRows, id: InviteId)
    requires WorldOk(w) && Enabled(w, e) && RowsCover(w, rows) && id in RowsAfter(rows, w, e)
    ensures var v, r := Next(w, e), RowsAfter(rows, w, e)[id];
            r.id == id && r.state == Ringing && id in v.usedInvites &&
            (id in v.app.invites.byId || r.expiresAt <= v.clock)
  {
    RowStep(w, e, rows, id);
    ClockNext(w, e);
    if e.Create? && id == e.id && CreateReply(w, e).result.Success? {
      CreatedRings(w, e);
    } else if id in w.app.invites.byId && id !in Next(w, e).app.invites.byId {
      InviteLeaves(w, e, id);
      hide WorldOk, Next, Enabled, CreateReply, AcceptReply, InviteCancelled;
    } else {
      hide WorldOk, Next, Enabled, CreateReply, RowsAfter;
    }
  }

  lemma CreatedRings(w: World, e: Event)
    requires e.Create? && CreateReply(w, e).result.Success?
    ensures CreateReply(w, e).result.value.id == e.id && CreateReply(w, e).result.value.state == Ringing
  {
    CreateShape(w.app, e);
    hide InviteCreated, SocialDenied, RouteInvite, PresentDogs, Recent, Engaged, PolicyFor, Free, InvitesExpired;
  }

  lemma {:induction false} RunCovers(ws: seq<World>, es: seq<Event>, n: nat)
    requires Run(ws, es) && n <= |es|
    ensures RowsCover(ws[n], RowsAt(ws, es, n))
    decreases n
  {
    if n > 0 {
      hide WorldOk, Next, Enabled, RowsCover, RowsAfter;
      RunCovers(ws, es, n - 1);
      RunKeeps(ws, es, n - 1);
      assert Linked(ws, es, n - 1);
      CoverStep(ws[n - 1], es[n - 1], RowsAt(ws, es, n - 1));
    } else {
      hide Enabled, Next;
    }
  }

  /// ---- Loading the table ----

  /** All rows, in the order the database returned them; a refused insert is ignored. */
  function InvitesLoaded(order: seq<Invite>): Invites {
    if order == [] then Invites(map[], map[], map[])
    else
      var s, inv := InvitesLoaded(order[..|order| - 1]), order[|order| - 1];
      if Free(s, inv) then InviteInserted(s, inv) else s
  }

  method LoadInvites(order: seq<Invite>, store: InviteStore)
    requires store.View() == Invites(map[], map[], map[])
    modifies store
    ensures store.View() == InvitesLoaded(order)
  {
    for i := 0 to |order|
      invariant store.View() == InvitesLoaded(order[..i])
    {
      assert order[..i + 1][..i] == order[..i];
      var _ := store.Insert(order[i]);
    }
    assert order[..|order|] == order;
  }

  ghost predicate Lists(order: seq<Invite>, rows: InviteRows) {
    (forall inv :: inv in order <==> inv.id in rows && rows[inv.id] == inv) &&
    (forall i, j :: 0 <= i < j < |order| ==> order[i].id != order[j].id)
  }

  predicate Keyed(rows: InviteRows) { forall id :: id in rows ==> rows[id].id == id && rows[id].state == Ringing }

  /** A consistent store of invites taken from the first `k` rows. */
  ghost predicate TakenFrom(s: Invites, order: seq<Invite>, k: nat)
    requires k <= |order|
  {
    InvitesOk(s) && forall id :: id in s.byId ==> exists i :: 0 <= i < k && order[i] == s.byId[id]
  }

  lemma TakenStep(s: Invites, order: seq<Invite>, k: nat)
    requires k < |order| && TakenFrom(s, order, k) && order[k].state == Ringing
    requires forall i :: 0 <= i < k ==> order[i].id != order[k].id
    ensures TakenFrom(if Free(s, order[k]) then InviteInserted(s, order[k]) else s, order, k + 1)
  {
    var inv := order[k];
    if Free(s, inv) {
      assert inv.id in s.byId ==> s.byId[inv.id].id == inv.id;
      assert inv.id !in s.byId;
      InsertKeeps(s, inv);
      assert order[k] == inv;
    }
    hide InvitesOk;
  }

  lemma LoadedUncons(order: seq<Invite>, k: nat)
    requires k <= |order|
    ensures k == 0 ==> TakenFrom(InvitesLoaded(order[..k]), order, k)
    ensures k > 0 ==>
              var s := InvitesLoaded(order[..k - 1]);
              InvitesLoaded(order[..k]) == if Free(s, order[k - 1]) then InviteInserted(s, order[k - 1]) else s
  {
    assert k > 0 ==> order[..k][..k - 1] == order[..k - 1];
    hide Free, InviteInserted;
  }

  lemma {:induction false} LoadedTaken(order: seq<Invite>, k: nat)
    requires k <= |order| && forall i :: 0 <= i < |order| ==> order[i].state == Ringing
    requires forall i, j :: 0 <= i < j < |order| ==> order[i].id != order[j].id
    ensures TakenFrom(InvitesLoaded(order[..k]), order, k)
    decreases k
  {
    hide *;
    LoadedUncons(order, k);
    if k > 0 {
      LoadedTaken(order, k - 1);
      TakenStep(InvitesLoaded(order[..k - 1]), order, k - 1);
    }
  }

  lemma ListsAll(order: seq<Invite>, rows: InviteRows)
    requires Keyed(rows) && Lists(order, rows)
    ensures forall i :: 0 <= i < |order| ==> order[i].state == Ringing && order[i].id in rows
    ensures forall i, j :: 0 <= i < j < |order| ==> order[i].id != order[j].id
  {
    forall i | 0 <= i < |order| ensures order[i].state == Ringing && order[i].id in rows {
      assert order[i] in order;
    }
  }

  lemma LoadedKeeps(order: seq<Invite>, rows: InviteRows)
    requires Keyed(rows) && Lists(order, rows)
    ensures var s := InvitesLoaded(order);
            InvitesOk(s) && forall id :: id in s.byId ==> id in rows && s.byId[id] == rows[id]
  {
    ListsAll(order, rows);
    LoadedTaken(order, |order|);
    assert order[..|order|] == order;
    var s := InvitesLoaded(order);
    forall id | id in s.byId ensures id in rows && s.byId[id] == rows[id] {
      var i :| 0 <= i < |order| && order[i] == s.byId[id];
      assert order[i] in order;
    }
    hide InvitesLoaded;
  }

  /** Once an invite is loaded or a dog indexed, loading more rows keeps it so. */
  lemma {:induction false} LoadedGrows(order: seq<Invite>, j: nat, k: nat)
    requires j <= k <= |order|
    ensures var s, t := InvitesLoaded(order[..j]), InvitesLoaded(order[..k]);
            s.byId.Keys <= t.byId.Keys && s.open.Keys <= t.open.Keys &&
            forall d :: d in s.open ==> t.open[d] == s.open[d]
    decreases k
  {
    if j < k {
      assert order[..k][..k - 1] == order[..k - 1];
      LoadedGrows(order, j, k - 1);
    }
  }

  lemma {:induction false} Enumerate(rows: InviteRows) returns (order: seq<Invite>)
    requires Keyed(rows)
    ensures Lists(order, rows)
    decreases |rows|
  {
    if rows == map[] {
      order := [];
    } else {
      var id :| id in rows;
      var rest := Enumerate(rows - {id});
      order := [rows[id]] + rest;
    }
  }

  /** The rows can come back with any one of them first. */
  lemma FirstInOrder(rows: InviteRows, id: InviteId) returns (order: seq<Invite>)
    requires Keyed(rows) && id in rows
    ensures Lists(order, rows) && order != [] && order[0] == rows[id]
  {
    var rest := Enumerate(rows - {id});
    order := [rows[id]] + rest;
  }

  /// ---- After a restart ----

  ghost predicate ExclusiveInAnyOrder(rows: InviteRows, sessions: Sessions) {
    forall order :: Lists(order, rows) ==> InvitesLoaded(order).open.Keys !! sessions.byDog.Keys
  }

  /** Some row names a dog that is in a session. */
  ghost predicate RowMeetsSession(rows: InviteRows, sessions: Sessions) {
    exists id | id in rows :: rows[id].fromDog in sessions.byDog || rows[id].toDog in sessions.byDog
  }

  lemma FirstRowLoads(order: seq<Invite>)
    requires order != []
    ensures order[0].fromDog in InvitesLoaded(order).open && order[0].toDog in InvitesLoaded(order).open
  {
    var first := order[..1];
    assert first[..0] == [] && first[0] == order[0];
    assert InvitesLoaded(first) == InviteInserted(InvitesLoaded([]), order[0]);
    LoadedGrows(order, 1, |order|);
    assert order[..|order|] == order;
    assert order[0].fromDog in InvitesLoaded(first).open.Keys && order[0].toDog in InvitesLoaded(first).open.Keys;
    assert order[0].fromDog in InvitesLoaded(order).open.Keys && order[0].toDog in InvitesLoaded(order).open.Keys;
  }

  /** In every reachable state, a restart keeps open invites and sessions apart, whatever order the
      rows come back in, if and only if no invite row names a dog that is in a session: no row left
      stale by an expiry in memory names a dog that has since met another. */
  lemma {:induction false} RestartExclusiveIff(ws: seq<World>, es: seq<Event>, n: nat)
    requires Run(ws, es) && n <= |es|
    ensures ExclusiveInAnyOrder(RowsAt(ws, es, n), ws[n].app.sessions)
            <==> !RowMeetsSession(RowsAt(ws, es, n), ws[n].app.sessions)
  {
    var rows, sessions := RowsAt(ws, es, n), ws[n].app.sessions;
    RunCovers(ws, es, n);
    assert Keyed(rows);
    hide Run, RowsAt, RowsCover, Keyed;
    if RowMeetsSession(rows, sessions) {
      var id :| id in rows && (rows[id].fromDog in sessions.byDog || rows[id].toDog in sessions.byDog);
      var order := FirstInOrder(rows, id);
      FirstRowLoads(order);
      var d := if rows[id].fromDog in sessions.byDog then rows[id].fromDog else rows[id].toDog;
      assert d in InvitesLoaded(order).open.Keys && d in sessions.byDog.Keys;
    } else {
      forall order | Lists(order, rows) ensures InvitesLoaded(order).open.Keys !! sessions.byDog.Keys {
        ApartIfUnmet(order, rows, sessions);
      }
    }
  }

  lemma ApartIfUnmet(order: seq<Invite>, rows: InviteRows, sessions: Sessions)
    requires Keyed(rows) && Lists(order, rows) && !RowMeetsSession(rows, sessions)
    ensures InvitesLoaded(order).open.Keys !! sessions.byDog.Keys
  {
    LoadedKeeps(order, rows);
    var s := InvitesLoaded(order);
    hide InvitesLoaded, Lists;
    forall d | d in s.open ensures d !in sessions.byDog {
      assert s.open[d] in rows;
    }
  }

  /** The first tick after a restart, or any handler that expires invites first, puts this right:
      what it leaves open are invites that were open before, so no dog is in both. Policies,
      presence and bonds may be anything by then. */
  lemma {:induction false} TickRestoresExclusivity(ws: seq<World>, es: seq<Event>, n: nat, order: seq<Invite>,
                                                  srows: seq<SessionRow>, b: App, now: Time)
    requires Run(ws, es) && n <= |es| && ws[n].clock <= now
    requires Lists(order, RowsAt(ws, es, n)) && Enumerates(srows, ws[n].app.rows)
    requires b.invites == InvitesLoaded(order) && b.sessions == Loaded(NO_SESSIONS, srows)
    ensures var t := Ticked(b, now);
            && t.invites.open.Keys !! t.sessions.byDog.Keys
            && InvitesExpired(b.invites, now).open.Keys !! b.sessions.byDog.Keys
            && (forall id :: id in t.invites.byId ==>
                               id in ws[n].app.invites.byId && t.invites.byId[id] == ws[n].app.invites.byId[id])
  {
    var rows := RowsAt(ws, es, n);
    hide *;
    RunCovers(ws, es, n);
    RunKeeps(ws, es, n);
    RestartAlways(ws, es, n, srows);
    CoveredKeyed(ws[n], rows);
    LoadedKeeps(order, rows);
    StillOpen(ws[n], rows, b.invites, now);
    DogsApart(ws[n], InvitesExpired(b.invites, now));
    TickShrinks(b, now);
  }

  lemma CoveredKeyed(w: World, rows: InviteRows)
    requires RowsCover(w, rows)
    ensures Keyed(rows)
  {}

  lemma TickShrinks(b: App, now: Time)
    ensures Ticked(b, now).invites == InvitesExpired(b.invites, now)
    ensures Ticked(b, now).sessions.byDog.Keys <= b.sessions.byDog.Keys
  {
    hide TickSet, InvitesExpired, SessionParties;
  }

  lemma StillOpen(w: World, rows: InviteRows, s: Invites, now: Time)
    requires RowsCover(w, rows) && InvitesOk(s) && w.clock <= now
    requires forall id :: id in s.byId ==> id in rows && s.byId[id] == rows[id]
    ensures var x := InvitesExpired(s, now);
            InvitesOk(x) &&
            forall id :: id in x.byId ==> id in w.app.invites.byId && x.byId[id] == w.app.invites.byId[id]
  {
    CloseAllKeeps(s, Due(s, now));
  }

  /** Open invites that were open before concern no dog in a session. */
  lemma DogsApart(w: World, x: Invites)
    requires WorldOk(w) && InvitesOk(x)
    requires forall id :: id in x.byId ==> id in w.app.invites.byId && x.byId[id] == w.app.invites.byId[id]
    ensures x.open.Keys !! w.app.sessions.byDog.Keys
  {
    var a := w.app;
    hide SessionsOk;
    forall d | d in x.open ensures d !in a.sessions.byDog {
      var id := x.open[d];
      assert id in a.invites.byId && (a.invites.byId[id].fromDog == d || a.invites.byId[id].toDog == d);
      assert d in a.invites.open.Keys;
    }
  }

  /// ---- Whether an open invite survives ----

  /** Another row names one of the invite's dogs. */
  ghost predicate Contested(rows: InviteRows, id: InviteId)
    requires id in rows
  {
    exists o | o in rows :: o != id && (Rings(rows[o], rows[id].fromDog) || Rings(rows[o], rows[id].toDog))
  }

  ghost predicate KeptInAnyOrder(rows: InviteRows, id: InviteId) {
    forall order :: Lists(order, rows) ==> id in InvitesLoaded(order).byId
  }

  lemma NoneBefore(order: seq<Invite>, rows: InviteRows, i: nat, k: nat)
    requires Keyed(rows) && Lists(order, rows) && k < i < |order| && !Contested(rows, order[i].id)
    requires order[i].id in rows
    ensures !Rings(order[k], order[i].fromDog) && !Rings(order[k], order[i].toDog)
  {
    assert order[k] in order && order[i] in order;
    assert order[k].id in rows && rows[order[k].id] == order[k] && rows[order[i].id] == order[i];
    assert order[k].id != order[i].id;
    hide Rings, Keyed;
  }

  lemma StaysFree(s: Invites, order: seq<Invite>, i: nat)
    requires i < |order| && TakenFrom(s, order, i)
    requires forall k :: 0 <= k < i ==> !Rings(order[k], order[i].fromDog) && !Rings(order[k], order[i].toDog)
    ensures Free(s, order[i])
  {
    forall d | d in s.open ensures exists k :: 0 <= k < i && Rings(order[k], d) {
      var k :| 0 <= k < i && order[k] == s.byId[s.open[d]];
      assert Rings(order[k], d);
    }
  }

  lemma ListedAt(order: seq<Invite>, rows: InviteRows, id: InviteId) returns (i: nat)
    requires Keyed(rows) && Lists(order, rows) && id in rows
    ensures i < |order| && order[i] == rows[id] && order[i].id == id
  {
    assert rows[id].id == id;
    assert rows[id] in order;
    i :| i < |order| && order[i] == rows[id];
    hide *;
  }

  lemma InsertIsThere(s: Invites, inv: Invite)
    ensures inv.id in InviteInserted(s, inv).byId.Keys
  {}

  lemma Uncontested(order: seq<Invite>, rows: InviteRows, id: InviteId)
    requires Keyed(rows) && Lists(order, rows) && id in rows && !Contested(rows, id)
    ensures id in InvitesLoaded(order).byId
  {
    hide *;
    var i := ListedAt(order, rows, id);
    ListsAll(order, rows);
    forall k | 0 <= k < i ensures !Rings(order[k], order[i].fromDog) && !Rings(order[k], order[i].toDog) {
      NoneBefore(order, rows, i, k);
    }
    LoadedTaken(order, i);
    var s := InvitesLoaded(order[..i]);
    StaysFree(s, order, i);
    InsertIsThere(s, order[i]);
    LoadedUncons(order, i + 1);
    LoadedGrows(order, i + 1, |order|);
    assert order[..|order|] == order;
    assert id in InvitesLoaded(order).byId.Keys;
  }

  lemma DisplacedBy(order: seq<Invite>, rows: InviteRows, id: InviteId)
    requires Keyed(rows) && Lists(order, rows) && id in rows && order != [] && order[0].id != id
    requires Rings(order[0], rows[id].fromDog) || Rings(order[0], rows[id].toDog)
    ensures id !in InvitesLoaded(order).byId
  {
    var d := if Rings(order[0], rows[id].fromDog) then rows[id].fromDog else rows[id].toDog;
    LoadedUncons(order, 1);
    LoadedUncons(order, 0);
    assert order[..0] == [];
    LoadedGrows(order, 1, |order|);
    LoadedKeeps(order, rows);
    assert order[..|order|] == order;
    assert d in InvitesLoaded(order[..1]).open && InvitesLoaded(order[..1]).open[d] == order[0].id;
    hide Lists, Keyed;
  }

  /** In every reachable state, an open invite survives a restart, whatever order the rows come back
      in, if and only if no other row names one of its dogs: every such row is stale. */
  lemma OpenInviteSurvivesIff(ws: seq<World>, es: seq<Event>, n: nat, id: InviteId)
    requires Run(ws, es) && n <= |es| && id in ws[n].app.invites.byId
    ensures id in RowsAt(ws, es, n)
    ensures KeptInAnyOrder(RowsAt(ws, es, n), id) <==> !Contested(RowsAt(ws, es, n), id)
    ensures forall o :: o in RowsAt(ws, es, n) && o !in ws[n].app.invites.byId ==>
                          RowsAt(ws, es, n)[o].expiresAt <= ws[n].clock
  {
    var rows := RowsAt(ws, es, n);
    RunCovers(ws, es, n);
    assert Keyed(rows) && id in rows;
    hide Run, RowsAt, Keyed;
    if Contested(rows, id) {
      var o :| o in rows && o != id && (Rings(rows[o], rows[id].fromDog) || Rings(rows[o], rows[id].toDog));
      var order := FirstInOrder(rows, o);
      KeyOf(rows, o);
      DisplacedBy(order, rows, id);
    } else {
      forall order | Lists(order, rows) ensures id in InvitesLoaded(order).byId {
        Uncontested(order, rows, id);
      }
    }
  }

  lemma KeyOf(rows: InviteRows, o: InviteId)
    requires Keyed(rows) && o in rows
    ensures rows[o].id == o
  {}
}

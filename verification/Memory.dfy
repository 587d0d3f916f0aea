/** The in-memory stores of the control plane (crates/db/src/memory.rs). Each store is a class
    over maps, as in the source; its methods are specified by functions on the store's value,
    and the lemmas elsewhere are about those functions. */
module Memory {
  import opened Base
  import opened Protocol
  import opened Policy

  /// ---- Presence ----

  datatype PresenceEntry = PresenceEntry(terminalId: TerminalId, present: bool, confidence: real,
                                         forceBand: ForceBand, lastSeen: Time, seqNo: nat)

  datatype PresenceView = PresenceView(dogId: DogId, terminalId: TerminalId, present: bool, confidence: real,
                                       forceBand: ForceBand, lastSeen: Time, seqNo: nat)

  type Presences = map<DogId, PresenceEntry>

  function EntryOf(r: PresenceReport): PresenceEntry {
    PresenceEntry(r.terminalId, r.present, r.confidence, r.forceBand, r.ts, r.seqNo)
  }

  function Upserted(m: Presences, r: PresenceReport): Presences {
    if r.dogId in m && r.seqNo < m[r.dogId].seqNo then m else m[r.dogId := EntryOf(r)]
  }

  function AgeMs(lastSeen: Time, now: Time): nat { if now < lastSeen then 0 else now - lastSeen }

  predicate PresentAt(m: Presences, d: DogId, now: Time) {
    d in m && m[d].present && AgeMs(m[d].lastSeen, now) <= PRESENCE_TTL_MS
  }

  function ViewAt(m: Presences, d: DogId, now: Time): Option<PresenceView> {
    if d !in m then None
    else
      var e := m[d];
      var p := PresentAt(m, d, now);
      Some(PresenceView(d, e.terminalId, p, if p then e.confidence else 0.0, if p then e.forceBand else Empty,
                        e.lastSeen, e.seqNo))
  }

  /** The dogs listed as present; the source keeps them in a vector used only for membership. */
  function PresentDogs(m: Presences, now: Time): set<DogId> {
    set d | d in m && ViewAt(m, d, now).value.present
  }

  class PresenceStore {
    var inner: Presences

    constructor ()
      ensures inner == map[]
    {
      inner := map[];
    }

    method Upsert(r: PresenceReport)
      modifies this
      ensures inner == Upserted(old(inner), r)
    {
      if r.dogId in inner {
        if r.seqNo < inner[r.dogId].seqNo {
          return;
        }
        inner := inner[r.dogId := EntryOf(r)];
      } else {
        inner := inner[r.dogId := EntryOf(r)];
      }
    }

    method Get(d: DogId, now: Time) returns (v: Option<PresenceView>)
      ensures v == ViewAt(inner, d, now)
    {
      if d !in inner {
        return None;
      }
      var e := inner[d];
      var age := if now - e.lastSeen > 0 then now - e.lastSeen else 0;
      var present := e.present && age <= PRESENCE_TTL_MS;
      v := Some(PresenceView(d, e.terminalId, present, if present then e.confidence else 0.0,
                             if present then e.forceBand else Empty, e.lastSeen, e.seqNo));
    }

    method IsPresent(d: DogId, now: Time) returns (b: bool)
      ensures b == PresentAt(inner, d, now)
    {
      var v := Get(d, now);
      b := v.Some? && v.value.present;
    }

    method PresentDogIds(now: Time) returns (ids: set<DogId>)
      ensures ids == PresentDogs(inner, now)
    {
      ids := {};
      var todo := inner.Keys;
      while todo != {}
        invariant todo <= inner.Keys
        invariant ids == set d | d in inner.Keys - todo && PresentAt(inner, d, now)
        decreases |todo|
      {
        var d :| d in todo;
        todo := todo - {d};
        var v := Get(d, now);
        if v.Some? && v.value.present {
          ids := ids + {d};
        }
      }
    }
  }

  /// ---- Invites ----

  type InviteTimes = map<DogId, seq<Time>>

  datatype Invites = Invites(byId: map<InviteId, Invite>, open: map<DogId, InviteId>, times: InviteTimes)

  predicate Free(s: Invites, inv: Invite) { inv.fromDog !in s.open && inv.toDog !in s.open }

  function InviteInserted(s: Invites, inv: Invite): Invites {
    s.(byId := s.byId[inv.id := inv], open := s.open[inv.fromDog := inv.id][inv.toDog := inv.id])
  }

  function InviteForDog(s: Invites, d: DogId): Option<Invite> {
    if d in s.open && s.open[d] in s.byId then Some(s.byId[s.open[d]]) else None
  }

  function InviteClosed(s: Invites, id: InviteId): Invites {
    if id !in s.byId then s
    else s.(byId := s.byId - {id}, open := s.open - {s.byId[id].fromDog, s.byId[id].toDog})
  }

  function Due(s: Invites, now: Time): set<InviteId> {
    set id | id in s.byId && now >= s.byId[id].expiresAt
  }

  function Parties(s: Invites, ids: set<InviteId>): set<DogId> {
    (set id | id in ids && id in s.byId :: s.byId[id].fromDog) +
    (set id | id in ids && id in s.byId :: s.byId[id].toDog)
  }

  function ClosedAll(s: Invites, ids: set<InviteId>): Invites {
    s.(byId := s.byId - ids, open := s.open - Parties(s, ids))
  }

  /** Every due invite closed; the order in which they are closed does not matter. */
  function InvitesExpired(s: Invites, now: Time): Invites { ClosedAll(s, Due(s, now)) }

  function Recent(times: seq<Time>, now: Time): seq<Time> {
    if times == [] then []
    else
      (if NumSeconds(now - times[0]) < 3600 then [times[0]] else []) + Recent(times[1..], now)
  }

  function TimesOf(s: Invites, d: DogId): seq<Time> { if d in s.times then s.times[d] else [] }

  function Recorded(s: Invites, d: DogId, at: Time): Invites {
    s.(times := s.times[d := TimesOf(s, d) + [at]])
  }

  /** Counting the last hour also forgets older entries. */
  function Pruned(s: Invites, d: DogId, now: Time): Invites {
    if d in s.times then s.(times := s.times[d := Recent(s.times[d], now)]) else s
  }

  class InviteStore {
    var byId: map<InviteId, Invite>
    var open: map<DogId, InviteId>
    var times: InviteTimes

    ghost function View(): Invites
      reads this
    {
      Invites(byId, open, times)
    }

    constructor ()
      ensures View() == Invites(map[], map[], map[])
    {
      byId, open, times := map[], map[], map[];
    }

    method Insert(inv: Invite) returns (ok: bool)
      modifies this
      ensures ok == Free(old(View()), inv)
      ensures View() == if ok then InviteInserted(old(View()), inv) else old(View())
    {
      if inv.fromDog in open || inv.toDog in open {
        return false;
      }
      open := open[inv.fromDog := inv.id];
      open := open[inv.toDog := inv.id];
      byId := byId[inv.id := inv];
      ok := true;
    }

    method Get(id: InviteId) returns (r: Option<Invite>)
      ensures r == if id in byId then Some(byId[id]) else None
    {
      r := if id in byId then Some(byId[id]) else None;
    }

    method ForDog(d: DogId) returns (r: Option<Invite>)
      ensures r == InviteForDog(View(), d)
    {
      if d !in open {
        return None;
      }
      r := Get(open[d]);
    }

    method Close(id: InviteId) returns (r: Option<Invite>)
      modifies this
      ensures View() == InviteClosed(old(View()), id)
      ensures r == if id in old(byId) then Some(old(byId)[id]) else None
    {
      if id !in byId {
        return None;
      }
      var inv := byId[id];
      byId := byId - {id};
      open := open - {inv.fromDog};
      open := open - {inv.toDog};
      r := Some(inv);
    }

    method ExpireDue(now: Time) returns (gone: set<Invite>)
      modifies this
      ensures View() == InvitesExpired(old(View()), now)
      ensures gone == set id | id in Due(old(View()), now) :: old(byId)[id]
    {
      hide ClosedAll, InviteClosed;
      var due := set id | id in byId && now >= byId[id].expiresAt;
      gone := {};
      ghost var start := View();
      ghost var done: set<InviteId> := {};
      ClosedNone(start);
      while due != {}
        invariant done + due == Due(start, now) && done !! due
        invariant View() == ClosedAll(start, done)
        invariant gone == set id | id in done :: start.byId[id]
        decreases |due|
      {
        var id :| id in due;
        due := due - {id};
        ClosedOneMore(start, done, id);
        ClosedAllKeeps(start, done, id);
        var inv := Close(id);
        gone := gone + {inv.value};
        done := done + {id};
      }
      assert done == Due(start, now);
    }

    method RecordInvite(d: DogId, at: Time)
      modifies this
      ensures View() == Recorded(old(View()), d, at)
    {
      var list := if d in times then times[d] else [];
      times := times[d := list + [at]];
    }

    method InvitesLastHour(d: DogId, now: Time) returns (n: nat)
      modifies this
      ensures View() == Pruned(old(View()), d, now)
      ensures n == |Recent(TimesOf(old(View()), d), now)|
    {
      if d !in times {
        return 0;
      }
      var kept, i := [], 0;
      while i < |times[d]|
        invariant d in times && times == old(times) && byId == old(byId) && open == old(open)
        invariant i <= |times[d]|
        invariant Recent(times[d], now) == kept + Recent(times[d][i..], now)
      {
        if NumSeconds(now - times[d][i]) < 3600 {
          kept := kept + [times[d][i]];
        }
        assert times[d][i..][1..] == times[d][i + 1..];
        i := i + 1;
      }
      assert kept == Recent(old(times)[d], now);
      times := times[d := kept];
      n := |kept|;
    }
  }

  lemma ClosedNone(s: Invites)
    ensures ClosedAll(s, {}) == s
  {
    assert Parties(s, {}) == {};
  }

  lemma ClosedAllKeeps(s: Invites, ids: set<InviteId>, id: InviteId)
    requires id in s.byId && id !in ids
    ensures id in ClosedAll(s, ids).byId && ClosedAll(s, ids).byId[id] == s.byId[id]
  {}

  lemma ClosedOneMore(s: Invites, done: set<InviteId>, id: InviteId)
    requires id in s.byId && id !in done
    ensures InviteClosed(ClosedAll(s, done), id) == ClosedAll(s, done + {id})
  {
    assert s.byId - done - {id} == s.byId - (done + {id});
    assert Parties(s, done + {id}) == Parties(s, done) + {s.byId[id].fromDog, s.byId[id].toDog};
  }

  /// ---- Sessions ----

  datatype Extra = Extra(mediaA: bool, mediaB: bool)

  datatype Sessions = Sessions(byId: map<SessionId, SessionRecord>, byDog: map<DogId, SessionId>,
                               media: map<SessionId, Extra>)

  const NO_SESSIONS := Sessions(map[], map[], map[])

  predicate SessionFree(s: Sessions, r: SessionRecord) { r.dogA !in s.byDog && r.dogB !in s.byDog }

  function SessionInserted(s: Sessions, r: SessionRecord): Sessions {
    Sessions(s.byId[r.id := r], s.byDog[r.dogA := r.id][r.dogB := r.id], s.media[r.id := Extra(false, false)])
  }

  function SessionForDog(s: Sessions, d: DogId): Option<SessionRecord> {
    if d in s.byDog && s.byDog[d] in s.byId then Some(s.byId[s.byDog[d]]) else None
  }

  function SessionEnded(s: Sessions, id: SessionId): Sessions {
    if id !in s.byId then s
    else Sessions(s.byId - {id}, s.byDog - {s.byId[id].dogA, s.byId[id].dogB}, s.media - {id})
  }

  function SessionParties(s: Sessions, ids: set<SessionId>): set<DogId> {
    (set id | id in ids && id in s.byId :: s.byId[id].dogA) +
    (set id | id in ids && id in s.byId :: s.byId[id].dogB)
  }

  function SessionsEnded(s: Sessions, ids: set<SessionId>): Sessions {
    Sessions(s.byId - ids, s.byDog - SessionParties(s, ids), s.media - ids)
  }

  lemma EndedNone(s: Sessions)
    ensures SessionsEnded(s, {}) == s
  {
    assert SessionParties(s, {}) == {};
  }

  lemma EndedOneMore(s: Sessions, done: set<SessionId>, id: SessionId)
    requires id in s.byId && id !in done
    ensures SessionEnded(SessionsEnded(s, done), id) == SessionsEnded(s, done + {id})
  {
    assert s.byId - done - {id} == s.byId - (done + {id});
    assert SessionParties(s, done + {id}) == SessionParties(s, done) + {s.byId[id].dogA, s.byId[id].dogB};
  }

  function DeadlineSet(s: Sessions, id: SessionId, deadline: Time): Sessions
    requires id in s.byId
  {
    s.(byId := s.byId[id := s.byId[id].(segmentDeadlineAt := deadline)])
  }

  predicate Party(r: SessionRecord, d: DogId) { d == r.dogA || d == r.dogB }

  function ExtraSet(r: SessionRecord, e: Extra, d: DogId, ready: bool): Extra {
    if d == r.dogA then e.(mediaA := ready) else if d == r.dogB then e.(mediaB := ready) else e
  }

  predicate CanSetMedia(s: Sessions, id: SessionId, d: DogId) {
    id in s.byId && id in s.media && Party(s.byId[id], d)
  }

  /** One party's media flag set; when both are set the session becomes Active. */
  function MediaSet(s: Sessions, id: SessionId, d: DogId, ready: bool): Sessions
    requires CanSetMedia(s, id, d)
  {
    var e := ExtraSet(s.byId[id], s.media[id], d, ready);
    var r := if e.mediaA && e.mediaB then s.byId[id].(state := Active) else s.byId[id];
    s.(byId := s.byId[id := r], media := s.media[id := e])
  }

  function BothReady(s: Sessions, id: SessionId): bool { id in s.media && s.media[id].mediaA && s.media[id].mediaB }

  class SessionStore {
    var byId: map<SessionId, SessionRecord>
    var byDog: map<DogId, SessionId>
    var media: map<SessionId, Extra>

    ghost function View(): Sessions
      reads this
    {
      Sessions(byId, byDog, media)
    }

    constructor ()
      ensures View() == NO_SESSIONS
    {
      byId, byDog, media := map[], map[], map[];
    }

    method Insert(r: SessionRecord) returns (ok: bool)
      modifies this
      ensures ok == SessionFree(old(View()), r)
      ensures View() == if ok then SessionInserted(old(View()), r) else old(View())
    {
      if r.dogA in byDog || r.dogB in byDog {
        return false;
      }
      byDog := byDog[r.dogA := r.id];
      byDog := byDog[r.dogB := r.id];
      media := media[r.id := Extra(false, false)];
      byId := byId[r.id := r];
      ok := true;
    }

    method Get(id: SessionId) returns (r: Option<SessionRecord>)
      ensures r == if id in byId then Some(byId[id]) else None
    {
      r := if id in byId then Some(byId[id]) else None;
    }

    method ForDog(d: DogId) returns (r: Option<SessionRecord>)
      ensures r == SessionForDog(View(), d)
    {
      if d !in byDog {
        return None;
      }
      r := Get(byDog[d]);
    }

    method UpdateDeadline(id: SessionId, deadline: Time) returns (r: Option<SessionRecord>)
      modifies this
      ensures r.Some? == (id in old(byId))
      ensures r.None? ==> View() == old(View())
      ensures r.Some? ==> View() == DeadlineSet(old(View()), id, deadline) && id in byId && r.value == byId[id]
    {
      if id !in byId {
        return None;
      }
      byId := byId[id := byId[id].(segmentDeadlineAt := deadline)];
      r := Some(byId[id]);
    }

    method End(id: SessionId) returns (r: Option<SessionRecord>)
      modifies this
      ensures View() == SessionEnded(old(View()), id)
      ensures r == if id in old(byId) then Some(old(byId)[id]) else None
    {
      if id !in byId {
        return None;
      }
      var s := byId[id];
      byId := byId - {id};
      byDog := byDog - {s.dogA};
      byDog := byDog - {s.dogB};
      media := media - {id};
      r := Some(s);
    }

    method SetMediaReady(id: SessionId, d: DogId, ready: bool) returns (r: Option<(bool, SessionRecord)>)
      modifies this
      ensures r.Some? == CanSetMedia(old(View()), id, d)
      ensures r.None? ==> View() == old(View())
      ensures r.Some? ==> View() == MediaSet(old(View()), id, d, ready) && id in byId
      ensures r.Some? ==> r.value == (BothReady(View(), id), byId[id])
    {
      if id !in byId || id !in media {
        return None;
      }
      var sess, extra := byId[id], media[id];
      if d == sess.dogA {
        extra := extra.(mediaA := ready);
      } else if d == sess.dogB {
        extra := extra.(mediaB := ready);
      } else {
        return None;
      }
      media := media[id := extra];
      var both := extra.mediaA && extra.mediaB;
      if both {
        byId := byId[id := byId[id].(state := Active)];
      }
      r := Some((both, byId[id]));
    }
  }

  /// ---- Policies ----

  /** A dog without a stored policy has the default one, so the value of the store keeps only
      departures from the default: reading a policy, which stores the default, changes nothing. */
  type Policies = map<DogId, DogPolicy>

  predicate KeyedByDog(p: Policies) { forall d :: d in p ==> p[d].dogId == d }

  function PolicyFor(p: Policies, d: DogId): DogPolicy { if d in p then p[d] else DefaultFor(d) }

  function PolicySet(p: Policies, pol: DogPolicy): Policies {
    if pol == DefaultFor(pol.dogId) then p - {pol.dogId} else p[pol.dogId := pol]
  }

  /** Writing one dog's policy is seen by that dog and by no other. */
  lemma PolicySetReads(p: Policies, pol: DogPolicy, d: DogId)
    ensures PolicyFor(PolicySet(p, pol), d) == if d == pol.dogId then pol else PolicyFor(p, d)
    ensures KeyedByDog(p) ==> KeyedByDog(PolicySet(p, pol))
  {}

  class PolicyStore {
    var byDog: map<DogId, DogPolicy>
    var terminalDog: map<TerminalId, DogId>

    ghost function View(): Policies
      reads this
    {
      map d | d in byDog && byDog[d] != DefaultFor(d) :: byDog[d]
    }

    constructor ()
      ensures View() == map[]
    {
      byDog, terminalDog := map[], map[];
    }

    method Ensure(d: DogId) returns (p: DogPolicy)
      modifies this
      ensures View() == old(View()) && p == PolicyFor(View(), d)
    {
      if d !in byDog {
        byDog := byDog[d := DefaultFor(d)];
      }
      p := byDog[d];
    }

    method Set(p: DogPolicy)
      modifies this
      ensures View() == PolicySet(old(View()), p)
    {
      byDog := byDog[p.dogId := p];
    }

    method BindTerminal(t: TerminalId, d: DogId)
      modifies this
      ensures View() == old(View()) && terminalDog == old(terminalDog)[t := d]
    {
      terminalDog := terminalDog[t := d];
      if d !in byDog {
        byDog := byDog[d := DefaultFor(d)];
      }
    }

    method SetEstop(d: DogId, on: bool)
      modifies this
      ensures View() == PolicySet(old(View()), PolicyFor(old(View()), d).(emergencyStop := on))
    {
      var p := Ensure(d);
      Set(p.(emergencyStop := on));
    }

    method SetSocialDisabled(d: DogId, on: bool)
      modifies this
      ensures View() == PolicySet(old(View()), PolicyFor(old(View()), d).(socialDisabled := on))
    {
      var p := Ensure(d);
      Set(p.(socialDisabled := on));
    }
  }
}

/** The durable mirror of the session store (crates/db/src/sqlite.rs): a table keyed by session
    id, written by the handlers and read back at start-up. States and modes are text columns,
    media flags integers. */
module Sqlite {
  import opened Protocol
  import opened Memory

  datatype SessionRow = SessionRow(sessionId: SessionId, inviteId: InviteId, dogA: DogId, dogB: DogId,
                                   mode: string, state: string, startedAt: Time, maxEndAt: Time,
                                   segmentDeadlineAt: Time, mediaA: int, mediaB: int)

  type Rows = map<SessionId, SessionRow>

  function ParseMode(s: string): InviteMode { if s == "play_active" then PlayActive else Portal }

  function ModeStr(m: InviteMode): string {
    match m
    case Portal => "portal"
    case PlayActive => "play_active"
  }

  function ParseState(s: string): SessionState {
    if s == "invite_pending" then InvitePending
    else if s == "ringing" then Ringing
    else if s == "negotiating" then Negotiating
    else if s == "active" then Active
    else if s == "ending" then Ending
    else if s == "closed" then SessionState.Closed
    else if s == "failed" then Failed
    else NoState
  }

  function StateStr(s: SessionState): string {
    match s
    case NoState => "none"
    case InvitePending => "invite_pending"
    case Ringing => "ringing"
    case Negotiating => "negotiating"
    case Active => "active"
    case Ending => "ending"
    case Closed => "closed"
    case Failed => "failed"
  }

  /** The text columns lose nothing. */
  lemma TextRoundTrip(s: SessionState, m: InviteMode)
    ensures ParseState(StateStr(s)) == s && ParseMode(ModeStr(m)) == m
  {}

  function Flag(b: bool): int { if b then 1 else 0 }

  function RowOf(s: SessionRecord, ma: bool, mb: bool): SessionRow {
    SessionRow(s.id, s.inviteId, s.dogA, s.dogB, ModeStr(s.mode), StateStr(s.state), s.startedAt, s.maxEndAt,
               s.segmentDeadlineAt, Flag(ma), Flag(mb))
  }

  function RecordOf(r: SessionRow): SessionRecord {
    SessionRecord(r.sessionId, r.inviteId, r.dogA, r.dogB, ParseMode(r.mode), ParseState(r.state), r.startedAt,
                  r.maxEndAt, r.segmentDeadlineAt)
  }

  lemma RowRoundTrip(s: SessionRecord, ma: bool, mb: bool)
    ensures RecordOf(RowOf(s, ma, mb)) == s
  {
    hide ParseState, StateStr, ParseMode, ModeStr;
    TextRoundTrip(s.state, s.mode);
  }

  /** The invite table. A row is written here as it reads back: `TextRoundTrip` says that its text
      columns lose nothing. */
  type InviteRows = map<InviteId, Invite>

  class Pool {
    var sessions: Rows
    var invites: InviteRows

    constructor ()
      ensures sessions == map[] && invites == map[]
    {
      sessions, invites := map[], map[];
    }

    method SaveInvite(inv: Invite)
      modifies this
      ensures invites == old(invites)[inv.id := inv] && sessions == old(sessions)
    {
      invites := invites[inv.id := inv];
    }

    method DeleteInvite(id: InviteId)
      modifies this
      ensures invites == old(invites) - {id} && sessions == old(sessions)
    {
      invites := invites - {id};
    }

    method SaveSession(s: SessionRecord, ma: bool, mb: bool)
      modifies this
      ensures sessions == old(sessions)[s.id := RowOf(s, ma, mb)] && invites == old(invites)
    {
      sessions := sessions[s.id := RowOf(s, ma, mb)];
    }

    method DeleteSession(id: SessionId)
      modifies this
      ensures sessions == old(sessions) - {id} && invites == old(invites)
    {
      sessions := sessions - {id};
    }
  }

  /// ---- Start-up ----

  /** `set_media_ready` with a result that is ignored. */
  function TryMedia(s: Sessions, id: SessionId, d: DogId): Sessions {
    if CanSetMedia(s, id, d) then MediaSet(s, id, d, true) else s
  }

  /** The media flags of a row, replayed on the store. */
  function Replayed(s: Sessions, row: SessionRow): Sessions {
    var s1 := if row.mediaA != 0 then TryMedia(s, row.sessionId, row.dogA) else s;
    if row.mediaB != 0 then TryMedia(s1, row.sessionId, row.dogB) else s1
  }

  /** One row read back: insert (a refusal is ignored), then replay the media flags. */
  function RowLoaded(s: Sessions, row: SessionRow): Sessions {
    var r := RecordOf(row);
    Replayed(if SessionFree(s, r) then SessionInserted(s, r) else s, row)
  }

  /** All rows, in the order the database returned them. */
  function Loaded(s: Sessions, order: seq<SessionRow>): Sessions {
    if order == [] then s else RowLoaded(Loaded(s, order[..|order| - 1]), order[|order| - 1])
  }

  method LoadInto(order: seq<SessionRow>, store: SessionStore)
    modifies store
    ensures store.View() == Loaded(old(store.View()), order)
  {
    for i := 0 to |order|
      invariant store.View() == Loaded(old(store.View()), order[..i])
    {
      var row := order[i];
      assert order[..i + 1][..i] == order[..i];
      var r := RecordOf(row);
      var _ := store.Insert(r);
      if row.mediaA != 0 {
        var _ := store.SetMediaReady(r.id, r.dogA, true);
      }
      if row.mediaB != 0 {
        var _ := store.SetMediaReady(r.id, r.dogB, true);
      }
    }
    assert order[..|order|] == order;
  }
}

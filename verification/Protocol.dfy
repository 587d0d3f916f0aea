/** Shared control-plane types and constants (crates/protocol/src/lib.rs). Instants and
    durations are whole milliseconds. */
module Protocol {
  import opened Base

  datatype DogId = DogId(uuid: nat)

  datatype TerminalId = TerminalId(uuid: nat)

  datatype InviteId = InviteId(uuid: nat)

  datatype SessionId = SessionId(uuid: nat)

  type Time = int

  const PRESENCE_TTL_MS := 10_000
  const PRESENCE_ENTER_MS := 800
  const PRESENCE_EXIT_MS := 2_500
  const RING_TIMEOUT_MS := 25_000
  const SESSION_SEGMENT_MS := 300_000
  const SESSION_MAX_MS := 900_000
  const W_MIN := 0.30

  datatype ForceBand = Empty | Small | Medium | Large | Overload

  function BandOf(newtons: real): ForceBand {
    if newtons < 15.0 then Empty
    else if newtons < 80.0 then Small
    else if newtons < 200.0 then Medium
    else if newtons < 450.0 then Large
    else Overload
  }

  /** The source's `SessionState`; its `None` is `NoState` here. */
  datatype SessionState = NoState | InvitePending | Ringing | Negotiating | Active | Ending | Closed | Failed

  datatype InviteMode = Portal | PlayActive

  datatype Invite = Invite(id: InviteId, fromDog: DogId, toDog: DogId, mode: InviteMode,
                           state: SessionState, createdAt: Time, expiresAt: Time)

  datatype SessionRecord = SessionRecord(id: SessionId, inviteId: InviteId, dogA: DogId, dogB: DogId,
                                         mode: InviteMode, state: SessionState, startedAt: Time,
                                         maxEndAt: Time, segmentDeadlineAt: Time)

  datatype PresenceReport = PresenceReport(dogId: DogId, terminalId: TerminalId, present: bool,
                                           confidence: real, forceBand: ForceBand, forceN: real,
                                           tofMm: Option<U16>, ts: Time, seqNo: nat)

  /** Whole seconds of a duration, truncated toward zero. */
  function NumSeconds(ms: int): int { if ms >= 0 then ms / 1000 else -((-ms) / 1000) }

  /** A signed 64-bit value read as unsigned. */
  function AsU64(n: int): int { if n < 0 then n + U64_MAX + 1 else n }
}

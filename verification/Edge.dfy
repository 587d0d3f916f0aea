/** The edge agent (edge/canis-edge/src/lib.rs): a user-experience state machine on top of the
    sensing pipeline, with a second decoder on the same UART bytes for button presses. The
    replies of the cloud are arbitrary inputs. */
module Edge {
  import opened Base
  import opened Protocol
  import opened Mcu
  import opened Sense
  import Decoding
  import McuEmu

  datatype EdgeUx = IdleEmpty | IdlePresent | Inviting | RingingOut | RingingIn | Negotiating | InSession | Halted

  datatype Intent = Call | Play | Again | Done

  /** How a request ended: no answer, an error status, an unreadable body, or a body. */
  datatype Http<T> = NetError | BadStatus | BadBody | Ok(body: T)

  datatype AgentError = NotArmed | NoOffer | NoSession | HttpFailed

  /** The flags of the remote configuration the agent acts on. */
  datatype Remote = Remote(emergencyStop: bool, socialDisabled: bool)

  /** The body of a media-ready reply: the session field, if there is one, and the both-ready flag. */
  datatype MediaBody = MediaBody(session: Option<SessionRecord>, bothReady: bool)

  datatype Agent = Agent(sense: Pipe, decoder: seq<Byte>, ux: EdgeUx, lastOffer: Option<Invite>,
                         session: Option<SessionRecord>, remote: Option<Remote>, armed: bool)

  const NEW_AGENT := Agent(EMPTY_PIPE, [], IdleEmpty, None, None, None, true)

  datatype Step<T> = Step(agent: Agent, result: Result<T, AgentError>)

  predicate Stopped(a: Agent) { a.remote.Some? && a.remote.value.emergencyStop }

  predicate Disabled(a: Agent) { a.remote.Some? && a.remote.value.socialDisabled }

  function Rearmed(a: Agent): Agent {
    a.(armed := a.sense.filter.present && !Stopped(a) && !Disabled(a) && a.ux != Halted)
  }

  function Refreshed(a: Agent): Agent {
    var present := a.sense.filter.present;
    Rearmed(
      if present && a.ux == IdleEmpty then a.(ux := IdlePresent)
      else if !present && a.ux == IdlePresent then a.(ux := IdleEmpty)
      else if !present && a.ux == RingingIn then a.(ux := IdleEmpty, lastOffer := None)
      else a)
  }

  function PadToIntent(pad: Byte): Option<Intent> {
    match pad
    case 0 => Some(Call)
    case 1 => Some(Play)
    case 2 => Some(Again)
    case 3 => Some(Done)
    case _ => None
  }

  /** The intent a frame expresses: a press of a known pad. */
  function PressIn(fr: Frame): Option<Intent> {
    if fr.msg != Button then None
    else
      var b := ButtonFromBytes(fr.payload);
      if b.Some? && b.value.event == 1 then PadToIntent(b.value.pad) else None
  }

  function Presses(frames: seq<Frame>): seq<Intent> {
    if frames == [] then []
    else (if PressIn(frames[0]).Some? then [PressIn(frames[0]).value] else []) + Presses(frames[1..])
  }

  function Ingested(a: Agent, bytes: seq<Byte>, dtMs: nat): Agent {
    var o := Pushed(a.decoder + bytes);
    Refreshed(a.(sense := BytesPushed(a.sense, bytes, dtMs).pipe)).(decoder := o.rest)
  }

  function Ended(a: Agent): Agent {
    if a.session.None? then a
    else a.(session := None, ux := if a.sense.filter.present then IdlePresent else IdleEmpty)
  }

  function Configured(a: Agent, reply: Http<Remote>): Agent {
    if !reply.Ok? then a
    else
      var b := if reply.body.emergencyStop then Ended(a.(ux := Halted)) else a;
      Rearmed(b.(remote := Some(reply.body)))
  }

  function Called(a: Agent, reply: Http<()>): Step<()> {
    if !a.armed then Step(a, Failure(NotArmed))
    else
      match reply
      case NetError => Step(a.(ux := Inviting), Failure(HttpFailed))
      case BadStatus => Step(a.(ux := IdlePresent), Failure(HttpFailed))
      case BadBody => Step(a.(ux := Inviting), Failure(HttpFailed))
      case Ok(_) => Step(a.(ux := RingingOut), Success(()))
  }

  function Polled(a: Agent, reply: Http<Option<Invite>>): Step<Option<Invite>> {
    if !a.armed && a.ux != RingingIn then Step(a, Success(None))
    else
      match reply
      case NetError => Step(a, Failure(HttpFailed))
      case BadStatus => Step(a, Success(None))
      case BadBody => Step(a, Failure(HttpFailed))
      case Ok(offer) =>
        if offer.Some? && a.ux != RingingOut && a.ux != InSession && a.ux != EdgeUx.Negotiating then
          Step(a.(ux := RingingIn, lastOffer := offer), Success(offer))
        else Step(a, Success(offer))
  }

  function MediaDeclared(a: Agent, reply: Http<MediaBody>): Step<()> {
    if a.session.None? then Step(a, Failure(NoSession))
    else if !reply.Ok? then Step(a, Failure(HttpFailed))
    else if reply.body.session.None? then Step(a, Success(()))
    else
      var s := reply.body.session.value;
      var b := a.(session := Some(s));
      Step(if s.state == Active || reply.body.bothReady then b.(ux := InSession) else b, Success(()))
  }

  function Accepted(a: Agent, reply: Http<SessionRecord>, media: Http<MediaBody>): Step<()> {
    if a.lastOffer.None? then Step(a, Failure(NoOffer))
    else if !reply.Ok? then Step(a, Failure(HttpFailed))
    else MediaDeclared(a.(session := Some(reply.body), lastOffer := None, ux := EdgeUx.Negotiating), media)
  }

  function Extended(a: Agent, reply: Http<Option<SessionRecord>>): Step<()> {
    if a.session.None? then Step(a, Failure(NoSession))
    else if !reply.Ok? then Step(a, Failure(HttpFailed))
    else Step(if reply.body.Some? then a.(session := reply.body) else a, Success(()))
  }

  function Synced(a: Agent, reply: Http<Option<SessionRecord>>, media: Http<MediaBody>): Step<()> {
    if !reply.Ok? then Step(a, Failure(HttpFailed))
    else if reply.body.None? then Step(a, Success(()))
    else
      var b := a.(session := reply.body,
                  ux := if reply.body.value.state == Active then InSession else EdgeUx.Negotiating);
      Step(if b.ux == EdgeUx.Negotiating then MediaDeclared(b, media).agent else b, Success(()))
  }

  /** The replies an intent may need. */
  datatype Replies = Replies(call: Http<()>, accept: Http<SessionRecord>, media: Http<MediaBody>,
                             again: Http<Option<SessionRecord>>)

  function Handled(a: Agent, intent: Intent, r: Replies): Step<()> {
    if (intent == Call || intent == Play) && a.ux == IdlePresent && a.armed then Called(a, r.call)
    else if a.ux == RingingIn then Accepted(a, r.accept, r.media)
    else if intent == Again && a.ux == InSession then Extended(a, r.again)
    else if intent == Done && (a.ux == InSession || a.ux == EdgeUx.Negotiating) then Step(Ended(a), Success(()))
    else Step(a, Success(()))
  }

  class EdgeAgent {
    const dogId: DogId
    const terminalId: TerminalId
    const sense: SensePipeline
    const decoder: FrameDecoder
    var seqNo: nat
    var ux: EdgeUx
    var lastOffer: Option<Invite>
    var session: Option<SessionRecord>
    var remote: Option<Remote>
    var armed: bool

    ghost predicate Valid()
      reads this, sense, sense.filter
    {
      sense.Valid() && decoder != sense.decoder
    }

    ghost function View(): Agent
      reads this, sense, sense.decoder, sense.filter, decoder
    {
      Agent(sense.View(), decoder.buf, ux, lastOffer, session, remote, armed)
    }

    constructor (dogId: DogId, terminalId: TerminalId)
      ensures Valid() && View() == NEW_AGENT && seqNo == 0
      ensures this.dogId == dogId && this.terminalId == terminalId
      ensures fresh(sense) && fresh(sense.decoder) && fresh(sense.filter) && fresh(decoder)
    {
      this.dogId, this.terminalId := dogId, terminalId;
      sense := new SensePipeline();
      decoder := new FrameDecoder();
      seqNo, ux, lastOffer, session, remote, armed := 0, IdleEmpty, None, None, None, true;
    }

    method RecomputeArmed()
      requires Valid()
      modifies this`armed
      ensures Valid() && View() == Rearmed(old(View()))
    {
      var present := sense.filter.present;
      var estop := remote.Some? && remote.value.emergencyStop;
      var disabled := remote.Some? && remote.value.socialDisabled;
      armed := present && !estop && !disabled && ux != Halted;
    }

    method RefreshUxFromPresence()
      requires Valid()
      modifies this`armed, this`ux, this`lastOffer
      ensures Valid() && View() == Refreshed(old(View()))
    {
      var present := sense.filter.present;
      match (present, ux) {
        case (true, IdleEmpty) => ux := IdlePresent;
        case (false, IdlePresent) => ux := IdleEmpty;
        case (false, RingingIn) =>
          ux := IdleEmpty;
          lastOffer := None;
        case _ =>
      }
      RecomputeArmed();
    }

    method IngestUart(bytes: seq<Byte>, dtMs: nat) returns (snaps: seq<Snapshot>, intents: seq<Intent>)
      requires Valid()
      modifies this`armed, this`ux, this`lastOffer, sense, sense.decoder, sense.filter, decoder
      ensures Valid() && View() == Ingested(old(View()), bytes, dtMs)
      ensures snaps == BytesPushed(old(sense.View()), bytes, dtMs).snaps
      ensures intents == Presses(Pushed(old(decoder.buf) + bytes).frames)
    {
      hide Pushed, BytesPushed, Rearmed, ButtonFromBytes, PadToIntent;
      snaps := sense.PushBytes(bytes, dtMs);
      RefreshUxFromPresence();
      var frames := decoder.Push(bytes);
      intents := [];
      for i := 0 to |frames|
        invariant Presses(frames) == intents + Presses(frames[i..])
      {
        assert frames[i..][1..] == frames[i + 1..];
        var fr := frames[i];
        if fr.msg == Button {
          var b := ButtonFromBytes(fr.payload);
          if b.Some? && b.value.event == 1 {
            var intent := PadToIntent(b.value.pad);
            if intent.Some? {
              intents := intents + [intent.value];
            }
          }
        }
      }
    }

    method NextReport(now: Time) returns (r: PresenceReport)
      modifies this`seqNo
      ensures seqNo == old(seqNo) + 1 && r.seqNo == seqNo && r.dogId == dogId && r.terminalId == terminalId
      ensures r.present == sense.filter.present && r.confidence == sense.filter.confidence && r.ts == now
      ensures r.forceN == sense.filter.lastForceN && r.forceBand == BandOf(r.forceN) && r.tofMm == sense.filter.lastTof
    {
      seqNo := seqNo + 1;
      var f := sense.filter;
      r := PresenceReport(dogId, terminalId, f.present, f.confidence, BandOf(f.lastForceN), f.lastForceN, f.lastTof,
                          now, seqNo);
    }

    method EndSession()
      requires Valid()
      modifies this`session, this`ux
      ensures Valid() && View() == Ended(old(View()))
    {
      if session.None? {
        return;
      }
      session := None;
      ux := if sense.filter.present then IdlePresent else IdleEmpty;
    }

    method FetchConfig(reply: Http<Remote>) returns (r: Result<(), AgentError>)
      requires Valid()
      modifies this`session, this`ux, this`remote, this`armed
      ensures Valid() && View() == Configured(old(View()), reply)
      ensures r == if reply.Ok? then Success(()) else Failure(HttpFailed)
    {
      if !reply.Ok? {
        return Failure(HttpFailed);
      }
      if reply.body.emergencyStop {
        ux := Halted;
        if session.Some? {
          EndSession();
        }
      }
      remote := Some(reply.body);
      RecomputeArmed();
      r := Success(());
    }

    method Call(reply: Http<()>) returns (r: Result<(), AgentError>)
      requires Valid()
      modifies this`ux
      ensures Valid() && Step(View(), r) == Called(old(View()), reply)
    {
      if !armed {
        return Failure(NotArmed);
      }
      ux := Inviting;
      match reply
      case NetError => r := Failure(HttpFailed);
      case BadStatus =>
        ux := IdlePresent;
        r := Failure(HttpFailed);
      case BadBody => r := Failure(HttpFailed);
      case Ok(_) =>
        ux := RingingOut;
        r := Success(());
    }

    method PollIncoming(reply: Http<Option<Invite>>) returns (r: Result<Option<Invite>, AgentError>)
      requires Valid()
      modifies this`ux, this`lastOffer
      ensures Valid() && Step(View(), r) == Polled(old(View()), reply)
    {
      if !armed && ux != RingingIn {
        return Success(None);
      }
      match reply
      case NetError => r := Failure(HttpFailed);
      case BadStatus => r := Success(None);
      case BadBody => r := Failure(HttpFailed);
      case Ok(offer) =>
        if offer.Some? {
          if ux != RingingOut && ux != InSession && ux != EdgeUx.Negotiating {
            ux := RingingIn;
            lastOffer := offer;
          }
        }
        r := Success(offer);
    }

    method ReportMediaReady(reply: Http<MediaBody>) returns (r: Result<(), AgentError>)
      requires Valid()
      modifies this`ux, this`session
      ensures Valid() && Step(View(), r) == MediaDeclared(old(View()), reply)
    {
      if session.None? {
        return Failure(NoSession);
      }
      if !reply.Ok? {
        return Failure(HttpFailed);
      }
      if reply.body.session.Some? {
        var s := reply.body.session.value;
        session := Some(s);
        if s.state == Active || reply.body.bothReady {
          ux := InSession;
        }
      }
      r := Success(());
    }

    method AcceptIncoming(reply: Http<SessionRecord>, media: Http<MediaBody>) returns (r: Result<(), AgentError>)
      requires Valid()
      modifies this`ux, this`session, this`lastOffer
      ensures Valid() && Step(View(), r) == Accepted(old(View()), reply, media)
    {
      if lastOffer.None? {
        return Failure(NoOffer);
      }
      if !reply.Ok? {
        return Failure(HttpFailed);
      }
      session := Some(reply.body);
      lastOffer := None;
      ux := EdgeUx.Negotiating;
      r := ReportMediaReady(media);
    }

    method Again(reply: Http<Option<SessionRecord>>) returns (r: Result<(), AgentError>)
      requires Valid()
      modifies this`session
      ensures Valid() && Step(View(), r) == Extended(old(View()), reply)
    {
      if session.None? {
        return Failure(NoSession);
      }
      if !reply.Ok? {
        return Failure(HttpFailed);
      }
      if reply.body.Some? {
        session := reply.body;
      }
      r := Success(());
    }

    method SyncActive(reply: Http<Option<SessionRecord>>, media: Http<MediaBody>) returns (r: Result<(), AgentError>)
      requires Valid()
      modifies this`ux, this`session
      ensures Valid() && Step(View(), r) == Synced(old(View()), reply, media)
    {
      if !reply.Ok? {
        return Failure(HttpFailed);
      }
      if reply.body.Some? {
        session := reply.body;
        ux := if reply.body.value.state == Active then InSession else EdgeUx.Negotiating;
        if ux == EdgeUx.Negotiating {
          var _ := ReportMediaReady(media);
        }
      }
      r := Success(());
    }

    method HandleIntent(intent: Intent, replies: Replies) returns (r: Result<(), AgentError>)
      requires Valid()
      modifies this`ux, this`session, this`lastOffer
      ensures Valid() && Step(View(), r) == Handled(old(View()), intent, replies)
    {
      if (intent == Intent.Call || intent == Play) && ux == IdlePresent && armed {
        r := Call(replies.call);
      } else if ux == RingingIn {
        r := AcceptIncoming(replies.accept, replies.media);
      } else if intent == Intent.Again && ux == InSession {
        r := Again(replies.again);
      } else if intent == Done && (ux == InSession || ux == EdgeUx.Negotiating) {
        EndSession();
        r := Success(());
      } else {
        r := Success(());
      }
    }
  }

  /// ---- Runs of the agent ----

  /** Any call on the agent, with whatever the cloud answers. */
  datatype Action =
    | Ingest(bytes: seq<Byte>, dtMs: nat)
    | Fetch(config: Http<Remote>)
    | Ring(call: Http<()>)
    | Poll(offer: Http<Option<Invite>>)
    | Accept(accept: Http<SessionRecord>, media: Http<MediaBody>)
    | Ready(media: Http<MediaBody>)
    | More(again: Http<Option<SessionRecord>>)
    | Stop
    | Sync(active: Http<Option<SessionRecord>>, media: Http<MediaBody>)
    | Press(intent: Intent, replies: Replies)

  function Acted(a: Agent, x: Action): Agent {
    match x
    case Ingest(bytes, dt) => Ingested(a, bytes, dt)
    case Fetch(reply) => Configured(a, reply)
    case Ring(reply) => Called(a, reply).agent
    case Poll(reply) => Polled(a, reply).agent
    case Accept(reply, media) => Accepted(a, reply, media).agent
    case Ready(media) => MediaDeclared(a, media).agent
    case More(reply) => Extended(a, reply).agent
    case Stop => Ended(a)
    case Sync(reply, media) => Synced(a, reply, media).agent
    case Press(intent, r) => Handled(a, intent, r).agent
  }

  function AfterAll(xs: seq<Action>): Agent {
    if xs == [] then NEW_AGENT else Acted(AfterAll(xs[..|xs| - 1]), xs[|xs| - 1])
  }

  /** Both decoders hold the same bytes; ringing in there is an offer, and negotiating or in
      session there is a session. */
  predicate AgentOk(a: Agent) {
    a.decoder == a.sense.buf &&
    (a.ux == RingingIn ==> a.lastOffer.Some?) &&
    (a.ux == EdgeUx.Negotiating || a.ux == InSession ==> a.session.Some?)
  }

  lemma {:induction false} BufferFollows(p: Pipe, frames: seq<Frame>)
    ensures AbsorbedFrames(p, frames).pipe.buf == p.buf && AbsorbedFrames(p, frames).pipe.tMs == p.tMs
    decreases |frames|
  {
    if frames != [] {
      match SampleIn(frames[0], p.tMs)
      case None => BufferFollows(p, frames[1..]);
      case Some(s) => BufferFollows(Absorbed(p, s).pipe, frames[1..]);
    }
  }

  lemma ActedKeeps(a: Agent, x: Action)
    requires AgentOk(a)
    ensures AgentOk(Acted(a, x))
  {
    if x.Ingest? {
      var o := Pushed(a.sense.buf + x.bytes);
      BufferFollows(a.sense.(tMs := SaturatingAdd(a.sense.tMs, x.dtMs), buf := o.rest), o.frames);
    }
    hide Pushed, AbsorbedFrames;
  }

  lemma {:induction false} AgentAlwaysOk(xs: seq<Action>)
    ensures AgentOk(AfterAll(xs))
    decreases |xs|
  {
    if xs != [] {
      AgentAlwaysOk(xs[..|xs| - 1]);
      ActedKeeps(AfterAll(xs[..|xs| - 1]), xs[|xs| - 1]);
    }
  }

  /** Twin decoders: after any run of calls, the snapshots and the press intents of the next UART
      chunk are read off one and the same frame list. */
  lemma {:induction false} TwinDecoders(xs: seq<Action>, bytes: seq<Byte>, dtMs: nat)
    ensures var a := AfterAll(xs);
            var o := Pushed(a.decoder + bytes);
            && BytesPushed(a.sense, bytes, dtMs)
               == AbsorbedFrames(a.sense.(tMs := SaturatingAdd(a.sense.tMs, dtMs), buf := o.rest), o.frames)
            && Ingested(a, bytes, dtMs).decoder == Ingested(a, bytes, dtMs).sense.buf == o.rest
  {
    AgentAlwaysOk(xs);
    var a := AfterAll(xs);
    ActedKeeps(a, Ingest(bytes, dtMs));
    hide Pushed, AbsorbedFrames;
  }

  /** The four pads, in order. */
  const PADS := [Intent.Call, Play, Intent.Again, Done]

  /** What the pads pressed mean, in order: releases, holds and unknown pads mean nothing. */
  function IntentsOf(buttons: seq<ButtonPayload>): seq<Intent> {
    if buttons == [] then []
    else
      var b := buttons[0];
      (if b.event == 1 && b.pad < 4 then [PADS[b.pad]] else []) + IntentsOf(buttons[1..])
  }

  lemma PadMeans(pad: Byte)
    ensures PadToIntent(pad) == if pad < 4 then Some(PADS[pad]) else None
  {}

  lemma {:induction false} ButtonsPress(buttons: seq<ButtonPayload>)
    ensures Presses(Decoding.Sent(McuEmu.ButtonItems(buttons))) == IntentsOf(buttons)
    decreases |buttons|
  {
    if buttons != [] {
      hide ButtonFromBytes, PadToIntent, ButtonPayload.ToBytes;
      ButtonRoundTrip(buttons[0], buttons[0].ToBytes());
      PadMeans(buttons[0].pad);
      assert McuEmu.ButtonItems(buttons)[1..] == McuEmu.ButtonItems(buttons[1..]);
      ButtonsPress(buttons[1..]);
    }
  }

  /** From pad to intent: one emulator tick fed to a decoder with nothing buffered gives exactly the
      intents of the buttons queued, in order, and leaves nothing behind. */
  lemma PressesArrive(w: McuEmu.World, buttons: seq<ButtonPayload>)
    ensures var o := Pushed(McuEmu.TickBytes(w, buttons));
            o.rest == [] && Presses(o.frames) == IntentsOf(buttons)
  {
    hide Pushed, Decoding.Line, Decoding.Parse, Decoding.Clean, ButtonFromBytes, IntentsOf;
    var items := McuEmu.TickItems(w, buttons);
    Decoding.LineParses(items, []);
    Decoding.CleanPush(McuEmu.TickBytes(w, buttons));
    assert items[1..] == McuEmu.ButtonItems(buttons);
    assert Decoding.Sent(items)[1..] == Decoding.Sent(McuEmu.ButtonItems(buttons));
    ButtonsPress(buttons);
  }

  /** In no run can a press fail for want of an offer or a session. */
  lemma {:induction false} PressNeverLacks(xs: seq<Action>, intent: Intent, replies: Replies)
    ensures var r := Handled(AfterAll(xs), intent, replies).result;
            r != Failure(NoOffer) && r != Failure(NoSession)
  {
    AgentAlwaysOk(xs);
  }

  /** An emergency stop in the configuration always disarms the agent and ends its session, but it
      leaves the agent Halted if and only if there was no session to end. */
  lemma StopHaltsIffNoSession(a: Agent, reply: Http<Remote>)
    requires reply.Ok? && reply.body.emergencyStop
    ensures !Configured(a, reply).armed && Configured(a, reply).session.None?
    ensures Configured(a, reply).ux == Halted <==> a.session.None?
  {}

  /** Armed means present and neither stopped nor disabled. */
  predicate ArmedOk(a: Agent) { a.armed ==> a.sense.filter.present && !Stopped(a) && !Disabled(a) }

  /** Every call keeps armed meaningful, and every UART chunk or configuration read makes it so;
      only a new agent, armed before its first sample, is exempt. */
  lemma ArmedMeaningful(a: Agent, x: Action)
    ensures ArmedOk(a) || x.Ingest? || (x.Fetch? && x.config.Ok?) ==> ArmedOk(Acted(a, x))
    ensures !ArmedOk(NEW_AGENT)
  {
    hide Pushed, AbsorbedFrames;
  }
}

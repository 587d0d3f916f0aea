/** What moves the terminal from one state to another, over all its calls and all replies of the
    cloud: what each press does, how every state is entered, and where the session and the offer it
    holds come from (edge/canis-edge/src/lib.rs:72-423). */
module EdgeLaws {
  import opened Base
  import opened Protocol
  import opened Mcu
  import opened Sense
  import opened Edge

  /// ---- Presses ----

  /** A call goes through, is turned down, or leaves the terminal waiting. */
  function Dialled(reply: Http<()>): EdgeUx {
    match reply
    case Ok(_) => RingingOut
    case BadStatus => IdlePresent
    case NetError => Inviting
    case BadBody => Inviting
  }

  /** The session a media reply carries, or else the one held. */
  function Carried(reply: Http<MediaBody>, held: SessionRecord): SessionRecord {
    if reply.Ok? && reply.body.session.Some? then reply.body.session.value else held
  }

  /** The media reply says that both dogs are up. */
  predicate BothUp(reply: Http<MediaBody>) {
    reply.Ok? && reply.body.session.Some? && (reply.body.bothReady || reply.body.session.value.state == Active)
  }

  /** Pressing Done while negotiating or in session leaves no session, and an idle state that matches
      presence. */
  lemma {:induction false} DoneHangsUp(xs: seq<Action>, r: Replies)
    ensures var a, b := AfterAll(xs), Acted(AfterAll(xs), Press(Done, r));
            a.ux in {EdgeUx.Negotiating, InSession} ==>
              && b == a.(session := None, ux := b.ux)
              && b.ux == if a.sense.filter.present then IdlePresent else IdleEmpty
  {
    AgentAlwaysOk(xs);
    hide AfterAll;
  }

  /** Pressing Again in session keeps the terminal there, with the session of the reply if it carries
      one, and otherwise as it was. */
  lemma {:induction false} AgainKeepsSession(xs: seq<Action>, r: Replies)
    ensures var a, b := AfterAll(xs), Acted(AfterAll(xs), Press(Intent.Again, r));
            a.ux == InSession ==>
              && b == a.(session := b.session) && b.session.Some?
              && b.session == if r.again.Ok? && r.again.body.Some? then r.again.body else a.session
  {
    AgentAlwaysOk(xs);
    hide AfterAll;
  }

  /** Any press while ringing in answers. If the accept goes through, the offer is used up and the
      terminal negotiates, or is in session if both dogs are up, holding the latest session the
      replies carried; otherwise it rings on. */
  lemma {:induction false} AnyPressAnswers(xs: seq<Action>, intent: Intent, r: Replies)
    ensures var a, b := AfterAll(xs), Acted(AfterAll(xs), Press(intent, r));
            a.ux == RingingIn ==>
              if r.accept.Ok? then
                && b == a.(session := b.session, ux := b.ux, lastOffer := None)
                && b.session == Some(Carried(r.media, r.accept.body))
                && b.ux == if BothUp(r.media) then InSession else EdgeUx.Negotiating
              else b == a
  {
    AgentAlwaysOk(xs);
    hide AfterAll;
  }

  /** Pressing Call or Play while idle, with a dog present and the terminal armed, calls. */
  lemma {:induction false} CallAndPlayDial(xs: seq<Action>, intent: Intent, r: Replies)
    requires intent in {Intent.Call, Play}
    ensures var a, b := AfterAll(xs), Acted(AfterAll(xs), Press(intent, r));
            a.ux == IdlePresent && a.armed ==> b == a.(ux := Dialled(r.call))
  {
    hide AfterAll;
  }

  /** Every other press changes nothing and reports no error. */
  lemma {:induction false} OtherPressesIgnored(xs: seq<Action>, intent: Intent, r: Replies)
    ensures var a := AfterAll(xs);
            && a.ux != RingingIn
            && !(intent in {Intent.Call, Play} && a.ux == IdlePresent && a.armed)
            && !(intent == Intent.Again && a.ux == InSession)
            && !(intent == Done && a.ux in {EdgeUx.Negotiating, InSession})
            ==> Handled(a, intent, r) == Step(a, Success(()))
  {
    hide AfterAll;
  }

  /** A press fails only for want of a good reply: to its call, its accept and then its media report,
      or its Again. */
  lemma {:induction false} PressFailsIff(xs: seq<Action>, intent: Intent, r: Replies)
    ensures var a := AfterAll(xs);
            var failed :=
              || (a.ux == RingingIn && !(r.accept.Ok? && r.media.Ok?))
              || (intent in {Intent.Call, Play} && a.ux == IdlePresent && a.armed && !r.call.Ok?)
              || (intent == Intent.Again && a.ux == InSession && !r.again.Ok?);
            Handled(a, intent, r).result == if failed then Failure(HttpFailed) else Success(())
  {
    AgentAlwaysOk(xs);
    hide AfterAll;
  }

  /// ---- How each state is entered ----

  /** The reply to the call this action makes, if it makes one: only an armed terminal calls. */
  function Dials(a: Agent, x: Action): Option<Http<()>> {
    match x
    case Ring(reply) => if a.armed then Some(reply) else None
    case Press(intent, r) =>
      if intent in {Intent.Call, Play} && a.ux == IdlePresent && a.armed then Some(r.call) else None
    case _ => None
  }

  /** The replies to the accept this action makes, if it makes one. */
  function Answers(a: Agent, x: Action): Option<(Http<SessionRecord>, Http<MediaBody>)> {
    match x
    case Accept(reply, media) => if a.lastOffer.Some? then Some((reply, media)) else None
    case Press(_, r) => if a.ux == RingingIn then Some((r.accept, r.media)) else None
    case _ => None
  }

  /** The accept this action makes goes through. */
  predicate Takes(a: Agent, x: Action) { Answers(a, x).Some? && Answers(a, x).value.0.Ok? }

  /** The action ends whatever session there is: a stop of the agent, a press of Done, or a
      configuration with the emergency stop. */
  predicate HangsUp(a: Agent, x: Action) {
    || x.Stop?
    || (x.Press? && x.intent == Done && a.ux in {EdgeUx.Negotiating, InSession})
    || (x.Fetch? && x.config.Ok? && x.config.body.emergencyStop)
  }

  /** A synchronisation that finds a session. */
  predicate Finds(x: Action) { x.Sync? && x.active.Ok? && x.active.body.Some? }

  /** A poll that brings an offer to a terminal that listens: it is armed, or already ringing in, and
      not engaged. */
  predicate Offers(a: Agent, x: Action) {
    x.Poll? && x.offer.Ok? && x.offer.body.Some? && (a.armed || a.ux == RingingIn) &&
    a.ux !in {RingingOut, EdgeUx.Negotiating, InSession}
  }

  predicate Enters(a: Agent, x: Action, ux: EdgeUx) { a.ux != ux && Acted(a, x).ux == ux }

  predicate Here(a: Agent) { a.sense.filter.present }

  lemma {:induction false} RingingOutIff(xs: seq<Action>, x: Action)
    ensures var a := AfterAll(xs);
            Enters(a, x, RingingOut) <==>
            a.ux != RingingOut && Dials(a, x).Some? && Dialled(Dials(a, x).value) == RingingOut
  {
    AgentAlwaysOk(xs);
    hide AfterAll, Ingested;
    IngestKeeps(AfterAll(xs), x);
  }

  lemma {:induction false} InvitingIff(xs: seq<Action>, x: Action)
    ensures var a := AfterAll(xs);
            Enters(a, x, Inviting) <==>
            a.ux != Inviting && Dials(a, x).Some? && Dialled(Dials(a, x).value) == Inviting
  {
    AgentAlwaysOk(xs);
    hide AfterAll, Ingested;
    IngestKeeps(AfterAll(xs), x);
  }

  lemma {:induction false} RingingInIff(xs: seq<Action>, x: Action)
    ensures var a := AfterAll(xs); Enters(a, x, RingingIn) <==> a.ux != RingingIn && Offers(a, x)
  {
    AgentAlwaysOk(xs);
    hide AfterAll, Ingested;
    IngestKeeps(AfterAll(xs), x);
  }

  lemma {:induction false} NegotiatingIff(xs: seq<Action>, x: Action)
    ensures var a := AfterAll(xs);
            Enters(a, x, EdgeUx.Negotiating) <==>
            && a.ux != EdgeUx.Negotiating
            && ((Takes(a, x) && !BothUp(Answers(a, x).value.1)) ||
                (Finds(x) && x.active.body.value.state != Active && !BothUp(x.media)))
  {
    AgentAlwaysOk(xs);
    hide AfterAll, Ingested;
    IngestKeeps(AfterAll(xs), x);
  }

  lemma {:induction false} InSessionIff(xs: seq<Action>, x: Action)
    ensures var a := AfterAll(xs);
            Enters(a, x, InSession) <==>
            && a.ux != InSession
            && ((Takes(a, x) && BothUp(Answers(a, x).value.1)) ||
                (Finds(x) && (x.active.body.value.state == Active || BothUp(x.media))) ||
                (x.Ready? && a.session.Some? && BothUp(x.media)))
  {
    AgentAlwaysOk(xs);
    hide AfterAll, Ingested;
    IngestKeeps(AfterAll(xs), x);
  }

  lemma {:induction false} HaltedIff(xs: seq<Action>, x: Action)
    ensures var a := AfterAll(xs);
            Enters(a, x, Halted) <==>
            a.ux != Halted && x.Fetch? && x.config.Ok? && x.config.body.emergencyStop && a.session.None?
  {
    AgentAlwaysOk(xs);
    hide AfterAll, Ingested;
    IngestKeeps(AfterAll(xs), x);
  }

  lemma {:induction false} IdlePresentIff(xs: seq<Action>, x: Action)
    ensures var a := AfterAll(xs);
            Enters(a, x, IdlePresent) <==>
            && a.ux != IdlePresent
            && ((x.Ingest? && a.ux == IdleEmpty && Here(Acted(a, x))) ||
                (Dials(a, x).Some? && Dialled(Dials(a, x).value) == IdlePresent) ||
                (HangsUp(a, x) && a.session.Some? && Here(a)))
  {
    AgentAlwaysOk(xs);
    hide AfterAll, Ingested;
    IngestKeeps(AfterAll(xs), x);
  }

  lemma {:induction false} IdleEmptyIff(xs: seq<Action>, x: Action)
    ensures var a := AfterAll(xs);
            Enters(a, x, IdleEmpty) <==>
            && a.ux != IdleEmpty
            && ((x.Ingest? && a.ux in {IdlePresent, RingingIn} && !Here(Acted(a, x))) ||
                (HangsUp(a, x) && a.session.Some? && !Here(a)))
  {
    AgentAlwaysOk(xs);
    hide AfterAll, Ingested;
    IngestKeeps(AfterAll(xs), x);
  }

  /// ---- What the terminal holds ----

  /** The action presses for more time, and the cloud answers with a session. */
  predicate Prolongs(a: Agent, x: Action) {
    var reply := match x
                 case More(again) => again
                 case Press(intent, r) => if intent == Intent.Again && a.ux == InSession then r.again else NetError
                 case _ => NetError;
    a.session.Some? && reply.Ok? && reply.body.Some?
  }

  function Prolonged(a: Agent, x: Action): SessionRecord
    requires Prolongs(a, x)
  {
    if x.More? then x.again.body.value else x.replies.again.body.value
  }

  /** The session held is dropped exactly when the action hangs up, and otherwise is the one the latest
      reply of this action carried, if one did. */
  lemma {:induction false} SessionHeld(xs: seq<Action>, x: Action)
    ensures var a := AfterAll(xs);
            Acted(a, x).session ==
            if HangsUp(a, x) then None
            else if Takes(a, x) then Some(Carried(Answers(a, x).value.1, Answers(a, x).value.0.body))
            else if Finds(x) then
              Some(if x.active.body.value.state == Active then x.active.body.value
                   else Carried(x.media, x.active.body.value))
            else if x.Ready? && a.session.Some? then Some(Carried(x.media, a.session.value))
            else if Prolongs(a, x) then Some(Prolonged(a, x))
            else a.session
  {
    AgentAlwaysOk(xs);
    hide AfterAll, Ingested;
    IngestKeeps(AfterAll(xs), x);
  }

  /** The offer held is the last one that rang; an accept uses it up, and it goes with the dog. */
  lemma {:induction false} OfferHeld(xs: seq<Action>, x: Action)
    ensures var a := AfterAll(xs);
            Acted(a, x).lastOffer ==
            if Offers(a, x) then x.offer.body
            else if Takes(a, x) || (x.Ingest? && a.ux == RingingIn && !Here(Acted(a, x))) then None
            else a.lastOffer
  {
    AgentAlwaysOk(xs);
    hide AfterAll, Ingested;
    IngestKeeps(AfterAll(xs), x);
  }

  /** The terminal is rearmed or disarmed by every chunk of bytes and every configuration read, and by
      nothing else: armed means a dog is present, the last configuration neither stops nor disables
      it, and it is not halted. */
  lemma {:induction false} ArmedExact(xs: seq<Action>, x: Action)
    ensures var a, b := AfterAll(xs), Acted(AfterAll(xs), x);
            var read := x.Fetch? && x.config.Ok?;
            && b.remote == (if read then Some(x.config.body) else a.remote)
            && b.armed == if x.Ingest? || read then
                            && Here(b) && b.ux != Halted
                            && (b.remote.Some? ==> !b.remote.value.emergencyStop && !b.remote.value.socialDisabled)
                          else a.armed
  {
    hide AfterAll, Pushed, AbsorbedFrames;
  }

  /** What a chunk of bytes can do to the state: an idle terminal follows presence, and one that rings
      in stops when the dog has gone. */
  lemma IngestKeeps(a: Agent, x: Action)
    ensures var b := Acted(a, x);
            x.Ingest? ==>
            && b.session == a.session && b.remote == a.remote
            && b.ux == (if a.ux == IdleEmpty && Here(b) then IdlePresent
                        else if a.ux in {IdlePresent, RingingIn} && !Here(b) then IdleEmpty
                        else a.ux)
            && b.lastOffer == (if a.ux == RingingIn && !Here(b) then None else a.lastOffer)
  {
    hide Pushed, AbsorbedFrames;
  }
}

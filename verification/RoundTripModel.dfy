/** The round-trip self-test: a session that walks through its checkpoints in order, and the
    observer that walks it there from runtime events arriving in any order. */
module RoundTripModel {
  import opened Wire
  import W = WatchdogModel
  import P = ExactPcm

  const MAX_SESSION_MS: nat := 5 * 60 * 1_000
  const PLAYBACK_FRAME_NS: nat := 20 * NS_PER_MS
  const U32_MAX: nat := 0xFFFF_FFFF

  datatype Checkpoint =
    | WaitingForSpeech | OutgoingVad | OutgoingAsrFinal | OutgoingTranslationFinal | EnglishFirstAudio
    | VirtualPeerReinjecting | IncomingAsrFinal | IncomingTranslationFinal | RussianFirstAudio
    | Completed | Failed | Stopped
  {
    predicate IsTerminal() {
      Completed? || Failed? || Stopped?
    }

    function Following(): Option<Checkpoint> {
      match this
      case WaitingForSpeech => Some(OutgoingVad)
      case OutgoingVad => Some(OutgoingAsrFinal)
      case OutgoingAsrFinal => Some(OutgoingTranslationFinal)
      case OutgoingTranslationFinal => Some(EnglishFirstAudio)
      case EnglishFirstAudio => Some(VirtualPeerReinjecting)
      case VirtualPeerReinjecting => Some(IncomingAsrFinal)
      case IncomingAsrFinal => Some(IncomingTranslationFinal)
      case IncomingTranslationFinal => Some(RussianFirstAudio)
      case RussianFirstAudio => Some(Checkpoint.Completed)
      case _ => None
    }
  }

  datatype Latencies = Latencies(outgoingFirst: Option<nat>, englishComplete: Option<nat>, incomingFirst: Option<nat>,
                                 micToReturned: Option<nat>)

  const NO_LATENCY := Latencies(None, None, None, None)

  datatype RoundTripError =
    | HeadphonesRequired | ProviderUnavailable | VirtualGraphUnavailable | IncomingRouteConflict
    | AlreadyRunning | NotRunning | SessionMismatch | InvalidCheckpoint | ExactPcmMismatch | RuntimeFailed | Timeout

  datatype Preconditions = Preconditions(headphones: bool, outgoingReady: bool, incomingReady: bool, graphReady: bool,
                                         routeIdle: bool)

  datatype Session = Session(id: Uuid, startedAt: nat, checkpoint: Checkpoint, recursions: nat, latency: Latencies,
                             error: Option<RoundTripError>, exactPcm: Option<P.Proof>)

  datatype SelfTest = SelfTest(session: Option<Session>)

  datatype Done = Done(test: SelfTest, error: Option<RoundTripError>)

  // ---- The session ----

  function PreconditionError(p: Preconditions): Option<RoundTripError> {
    if !p.headphones then Some(HeadphonesRequired)
    else if !p.outgoingReady || !p.incomingReady then Some(RoundTripError.ProviderUnavailable)
    else if !p.graphReady then Some(VirtualGraphUnavailable)
    else if !p.routeIdle then Some(IncomingRouteConflict)
    else None
  }

  function Start(t: SelfTest, p: Preconditions, at: nat, id: Uuid): Done {
    if t.session.Some? && !t.session.value.checkpoint.IsTerminal() then Done(t, Some(AlreadyRunning))
    else if PreconditionError(p).Some? then Done(t, PreconditionError(p))
    else Done(SelfTest(Some(Session(id, at, WaitingForSpeech, 0, NO_LATENCY, None, None))), None)
  }

  /** Why there is no such running session. */
  function ActiveError(t: SelfTest, id: Uuid): Option<RoundTripError> {
    if t.session.None? then Some(NotRunning)
    else if t.session.value.id != id then Some(SessionMismatch)
    else if t.session.value.checkpoint.IsTerminal() then Some(NotRunning)
    else None
  }

  function First<T>(update: Option<T>, current: Option<T>): Option<T> {
    if update.Some? then update else current
  }

  function Merge(current: Latencies, update: Latencies): Latencies {
    Latencies(First(update.outgoingFirst, current.outgoingFirst),
              First(update.englishComplete, current.englishComplete),
              First(update.incomingFirst, current.incomingFirst),
              First(update.micToReturned, current.micToReturned))
  }

  predicate Proven(s: Session) {
    s.exactPcm.Some? && s.exactPcm.value.exact
  }

  function Advance(t: SelfTest, id: Uuid, c: Checkpoint, latency: Latencies): Done {
    if ActiveError(t, id).Some? then Done(t, ActiveError(t, id))
    else
      var s := t.session.value;
      if s.checkpoint.Following() != Some(c) || (c.VirtualPeerReinjecting?
          && (latency.englishComplete.None? || !Proven(s)))
      then Done(t, Some(InvalidCheckpoint))
      else Done(SelfTest(Some(s.(checkpoint := c, latency := Merge(s.latency, latency)))), None)
  }

  function RecordRecursion(t: SelfTest, id: Uuid): Done {
    if t.session.None? then Done(t, Some(NotRunning))
    else if t.session.value.id != id then Done(t, Some(SessionMismatch))
    else
      var s := t.session.value;
      Done(SelfTest(Some(s.(recursions := if s.recursions < U32_MAX then s.recursions + 1 else s.recursions))), None)
  }

  function SetProof(t: SelfTest, id: Uuid, proof: P.Proof): Done {
    if ActiveError(t, id).Some? then Done(t, ActiveError(t, id))
    else if !t.session.value.checkpoint.EnglishFirstAudio? || !proof.exact then Done(t, Some(ExactPcmMismatch))
    else Done(SelfTest(Some(t.session.value.(exactPcm := Some(proof)))), None)
  }

  datatype Tried = Tried(test: SelfTest, done: bool)

  function Stop(t: SelfTest, id: Uuid): Tried {
    if ActiveError(t, id).Some? then Tried(t, false)
    else Tried(SelfTest(Some(t.session.value.(checkpoint := Stopped))), true)
  }

  function Fail(t: SelfTest, id: Uuid, error: RoundTripError): Tried {
    if ActiveError(t, id).Some? then Tried(t, false)
    else Tried(SelfTest(Some(t.session.value.(checkpoint := Failed, error := Some(error)))), true)
  }

  function Expire(t: SelfTest, at: nat): Tried {
    if t.session.None? || t.session.value.checkpoint.IsTerminal() || at < t.session.value.startedAt + MAX_SESSION_MS
    then Tried(t, false)
    else Tried(SelfTest(Some(t.session.value.(checkpoint := Stopped, error := Some(Timeout)))), true)
  }

  // ---- The observer ----

  datatype Leg = Leg(utterance: Option<Uuid>, onsetNs: Option<nat>, transcriptFinal: bool, translationFinal: bool,
                     firstAudio: bool, completed: bool)

  const NO_LEG := Leg(None, None, false, false, false, false)

  datatype Observer = Observer(
    id: Uuid,
    checkpoint: Checkpoint,
    outgoing: Leg,
    incoming: Leg,
    incomingEnabled: bool,
    outgoingTerminal: bool,
    incomingTerminal: bool,
    audibleUntilNs: nat)

  /** The observer and the session it drives. */
  datatype World = World(observer: Observer, test: SelfTest)

  datatype Notice =
    | SpeechStarted(direction: Direction, utterance: Uuid, captureNs: nat)
    | TranscriptFinal(direction: Direction, utterance: Uuid)
    | TranslationFinal(direction: Direction, utterance: Uuid)
    | AudioFrame(direction: Direction, utterance: Uuid, observedNs: nat)
    | TerminalOutcome(direction: Direction, utterance: Uuid, outcome: Outcome)
    | UtteranceTerminal(direction: Direction, utterance: Uuid)

  function Watch(id: Uuid): Observer {
    Observer(id, WaitingForSpeech, NO_LEG, NO_LEG, false, false, false, 0)
  }

  function ElapsedMs(start: Option<nat>, now: nat): nat {
    if start.None? then U32_MAX
    else
      var ms := (if now > start.value then now - start.value else 0) / NS_PER_MS;
      if ms <= U32_MAX then ms else U32_MAX
  }

  /** One step along, if the session agrees. */
  function StepTo(w: World, c: Checkpoint, latency: Latencies): World {
    var d := Advance(w.test, w.observer.id, c, latency);
    if d.error.Some? then w else World(w.observer.(checkpoint := c), d.test)
  }

  /** The checkpoint that what was seen so far already allows. */
  function Allowed(o: Observer): Option<Checkpoint> {
    match o.checkpoint
    case OutgoingVad => if o.outgoing.transcriptFinal then Some(OutgoingAsrFinal) else None
    case OutgoingAsrFinal => if o.outgoing.translationFinal then Some(OutgoingTranslationFinal) else None
    case OutgoingTranslationFinal => if o.outgoing.firstAudio then Some(EnglishFirstAudio) else None
    case VirtualPeerReinjecting => if o.incoming.transcriptFinal then Some(IncomingAsrFinal) else None
    case IncomingAsrFinal => if o.incoming.translationFinal then Some(IncomingTranslationFinal) else None
    case IncomingTranslationFinal => if o.incoming.firstAudio then Some(RussianFirstAudio) else None
    case _ => None
  }

  function LatencyAt(o: Observer, c: Checkpoint, now: nat): Latencies {
    match c
    case EnglishFirstAudio => NO_LATENCY.(outgoingFirst := Some(ElapsedMs(o.outgoing.onsetNs, now)))
    case RussianFirstAudio =>
      NO_LATENCY.(incomingFirst := Some(ElapsedMs(o.incoming.onsetNs, now)),
                  micToReturned := Some(ElapsedMs(o.outgoing.onsetNs, now)))
    case _ => NO_LATENCY
  }

  /** How far a checkpoint is along the way. */
  function Place(c: Checkpoint): (n: nat)
    ensures n <= 10
  {
    match c
    case WaitingForSpeech => 0
    case OutgoingVad => 1
    case OutgoingAsrFinal => 2
    case OutgoingTranslationFinal => 3
    case EnglishFirstAudio => 4
    case VirtualPeerReinjecting => 5
    case IncomingAsrFinal => 6
    case IncomingTranslationFinal => 7
    case RussianFirstAudio => 8
    case Completed => 9
    case _ => 10
  }

  function Drain(w: World, now: nat): World
    decreases 10 - Place(w.observer.checkpoint)
  {
    var c := Allowed(w.observer);
    if c.None? then w
    else
      var w1 := StepTo(w, c.value, LatencyAt(w.observer, c.value, now));
      if w1.observer.checkpoint != c.value then w else Drain(w1, now)
  }

  function FailSession(w: World): World {
    var tried := Fail(w.test, w.observer.id, RuntimeFailed);
    if tried.done then World(w.observer.(checkpoint := Failed, outgoingTerminal := true), tried.test) else w
  }

  /** A fact about the leg's own utterance. Audio together with a completed end stands for the finals. */
  function Learn(l: Leg, n: Notice): Leg {
    match n
    case TranscriptFinal(_, _) => l.(transcriptFinal := true)
    case TranslationFinal(_, _) => l.(translationFinal := true)
    case AudioFrame(_, _, _) =>
      if l.completed then l.(firstAudio := true, transcriptFinal := true, translationFinal := true)
          else l.(firstAudio := true)
    case TerminalOutcome(_, _, _) =>
      if l.firstAudio then l.(completed := true, transcriptFinal := true, translationFinal := true)
          else l.(completed := true)
    case _ => l
  }

  function NoticeOutgoing(w: World, n: Notice): World {
    var o := w.observer;
    if n.SpeechStarted? then
      if o.outgoing.utterance.Some? then w.(test := RecordRecursion(w.test, o.id).test)
      else
        var w1 := w.(observer := o.(outgoing := o.outgoing.(utterance := Some(n.utterance),
            onsetNs := Some(n.captureNs))));
        if o.checkpoint.WaitingForSpeech? then StepTo(w1, OutgoingVad, NO_LATENCY) else w1
    else if o.outgoing.utterance != Some(n.utterance) then w
    else if n.TerminalOutcome? && !n.outcome.Completed? then FailSession(w)
    else if n.UtteranceTerminal? then w.(observer := o.(outgoingTerminal := true))
    else w.(observer := o.(outgoing := Learn(o.outgoing, n)))
  }

  function Audible(until: nat, observed: nat): nat {
    var latest := if until > observed then until else observed;
    if latest + PLAYBACK_FRAME_NS <= W.U64_MAX then latest + PLAYBACK_FRAME_NS else W.U64_MAX
  }

  function NoticeIncoming(w: World, n: Notice): World {
    var o := w.observer;
    if !o.incomingEnabled then w
    else if n.SpeechStarted? then
      if o.incoming.utterance.Some? then w.(test := RecordRecursion(w.test, o.id).test)
      else w.(observer := o.(incoming := o.incoming.(utterance := Some(n.utterance), onsetNs := Some(n.captureNs))))
    else if o.incoming.utterance != Some(n.utterance) then w
    else if n.TerminalOutcome? && !n.outcome.Completed? then FailSession(w)
    else if n.UtteranceTerminal? then w.(observer := o.(incomingTerminal := true))
    else
      w.(observer := o.(incoming := Learn(o.incoming, n),
                        audibleUntilNs := if n.AudioFrame? then Audible(o.audibleUntilNs, n.observedNs)
                            else o.audibleUntilNs))
  }

  function Observe(w: World, n: Notice, now: nat): World {
    Drain(if n.direction.Microphone? then NoticeOutgoing(w, n) else NoticeIncoming(w, n), now)
  }

  function BeginIncoming(w: World): World {
    w.(observer := w.observer.(incomingEnabled := true))
  }

  datatype Marked = Marked(world: World, ok: bool)

  function MarkReinjecting(w: World, englishCompleteMs: nat, now: nat): Marked {
    if !w.observer.checkpoint.EnglishFirstAudio? then Marked(w, false)
    else
      var w1 := StepTo(w, VirtualPeerReinjecting, NO_LATENCY.(englishComplete := Some(englishCompleteMs)));
      if !w1.observer.checkpoint.VirtualPeerReinjecting? then Marked(w, false) else Marked(Drain(w1, now), true)
  }

  function MarkCompleted(w: World): Marked {
    if !w.observer.checkpoint.RussianFirstAudio? || !w.observer.incomingTerminal then Marked(w, false)
    else
      var w1 := StepTo(w, Checkpoint.Completed, NO_LATENCY);
      if !w1.observer.checkpoint.Completed? then Marked(w, false) else Marked(w1, true)
  }
}

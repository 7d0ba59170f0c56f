/** One direction of the call: captured speech becomes provider requests, checked provider
    events become playback and other effects. */
module DirectionSessionModel {
  import opened Wire
  import W = WatchdogModel
  import V = ValidatorModel
  import C = CoordinatorModel

  /** The one format the daemon captures and plays: 16 kHz, mono, 20 ms. */
  const PROVIDER_FORMAT := PcmFormat(16_000, 1, true, 20)

  datatype PcmFrame = PcmFrame(sequence: nat, captureNs: W.Ns, format: PcmFormat, pcm: Pcm)

  datatype CaptureEvent =
    | SpeechStarted(stream: Uuid, utterance: Uuid, captureNs: W.Ns)
    | CaptureFrame(stream: Uuid, utterance: Uuid, frame: PcmFrame, endOfUtterance: bool)

  datatype Request =
    | InputFrame(stream: Uuid, utterance: Uuid, sequence: nat, captureNs: W.Ns, format: PcmFormat, pcm: Pcm,
                 endOfUtterance: bool)
    | CancelRequest(utterance: Uuid)
    | CloseRequest

  datatype Effect =
    | Playback(stream: Uuid, utterance: Uuid, sequence: nat, playedNs: nat, pcm: Pcm)
    | TranscriptFinal(utterance: Uuid)
    | TranslationFinal(utterance: Uuid)
    | LatencyNoted(about: Option<Uuid>, ttsFirstMs: Option<nat>, totalMs: Option<nat>)
    | ProviderFailed(about: Option<Uuid>, code: ErrorCode)
    | TerminalOutcome(utterance: Uuid, outcome: Outcome)
    | TerminalReached(utterance: Uuid)
    | ExpiredAudio(utterance: Uuid, request: Request)
    | Closed
    | PurgeAndSend(request: Request)
    | RestartSidecar

  datatype SessionError =
    | StreamMismatch
    | InvalidCaptureState
    | InvalidProviderAudio
    | CoordinatorFailed(error: C.CoordinatorError)

  datatype DirectionSession = DirectionSession(
    contract: Contract,
    coordinator: C.Coordinator,
    nextInput: nat,
    collecting: Option<Uuid>,
    active: set<Uuid>)

  datatype Result<+T> = Success(value: T) | Failure(error: SessionError)
  datatype Reply<+T> = Reply(session: DirectionSession, result: Result<T>)

  function Fresh(contract: Contract): DirectionSession {
    DirectionSession(contract, C.Fresh(contract), 0, None, {})
  }

  function Fail<T>(s: DirectionSession, error: SessionError): Reply<T> {
    Reply(s, Failure(error))
  }

  // ---- Capture ----

  function HandleStarted(s: DirectionSession, stream: Uuid, u: Uuid, captureNs: W.Ns): Reply<Option<Request>> {
    if stream != s.contract.stream then Fail(s, StreamMismatch)
    else if s.collecting.Some? || u in s.active then Fail(s, InvalidCaptureState)
    else
      var d := C.StartUtterance(s.coordinator, stream, u, captureNs);
      var s1 := s.(active := s.active + {u}, coordinator := d.coordinator);
      if d.error.Some? then Fail(s1, CoordinatorFailed(d.error.value))
      else Reply(s1.(collecting := Some(u)), Success(None))
  }

  /** Sequence numbers of sent frames stop at the largest 64-bit number. */
  function NextInput(n: nat): nat {
    if n < W.U64_MAX then n + 1 else n
  }

  function HandleFrame(s: DirectionSession, stream: Uuid, u: Uuid, frame: PcmFrame, end: bool): Reply<Option<Request>> {
    if stream != s.contract.stream then Fail(s, StreamMismatch)
    else if s.collecting != Some(u) then Fail(s, InvalidCaptureState)
    else
      var request := InputFrame(stream, u, s.nextInput, frame.captureNs, frame.format, frame.pcm, end);
      if !end then Reply(s.(nextInput := NextInput(s.nextInput)), Success(Some(request)))
      else
        var d := C.RecordEndOfUtterance(s.coordinator, stream, u, frame.captureNs);
        var s1 := s.(coordinator := d.coordinator);
        if d.error.Some? then Fail(s1, CoordinatorFailed(d.error.value))
        else Reply(s1.(collecting := None, nextInput := NextInput(s.nextInput)), Success(Some(request)))
  }

  function HandleCapture(s: DirectionSession, e: CaptureEvent): Reply<Option<Request>> {
    match e
    case SpeechStarted(stream, u, captureNs) => HandleStarted(s, stream, u, captureNs)
    case CaptureFrame(stream, u, frame, end) => HandleFrame(s, stream, u, frame, end)
  }

  // ---- Provider events ----

  function HandleRefused(s: DirectionSession, e: Event, now: W.Ns, error: C.CoordinatorError): Reply<seq<Effect>> {
    if error == C.Validation(V.CancelledAudio) then Reply(s, Success([]))
    else if error == C.Validation(V.ExpiredAudio) && e.AudioDelta? then
      var d := C.CancelExpiredUtterance(s.coordinator, e.stream, e.utterance, now);
      var s1 := s.(coordinator := d.coordinator);
      if d.error.Some? then Fail(s1, CoordinatorFailed(d.error.value))
      else Reply(s1, Success([ExpiredAudio(e.utterance, CancelRequest(e.utterance))]))
    else Fail(s, CoordinatorFailed(error))
  }

  function HandleAudio(s: DirectionSession, e: Event): Reply<seq<Effect>>
    requires e.AudioDelta?
  {
    var taken := C.ConsumeReceiveAudio(s.coordinator, e.stream, e.utterance);
    var s1 := s.(coordinator := taken.coordinator);
    if taken.pcm.None? then Fail(s1, CoordinatorFailed(C.ReceiveBufferEmpty))
    else if |taken.pcm.value| != PROVIDER_FORMAT.FrameBytes() then Fail(s1, InvalidProviderAudio)
    else Reply(s1, Success([Playback(e.stream, e.utterance, e.audioSequence, e.providerNs, taken.pcm.value)]))
  }

  function HandleAccepted(s: DirectionSession, e: Event): Reply<seq<Effect>> {
    match e
    case AudioDelta(_, _, _, _, _, _, _) => HandleAudio(s, e)
    case TranscriptDelta(_, _, u, isFinal) => Reply(s, Success(if isFinal then [TranscriptFinal(u)] else []))
    case TranslationDelta(_, _, u, isFinal) => Reply(s, Success(if isFinal then [TranslationFinal(u)] else []))
    case Latency(_, _, about, _, _, _, tts, total) => Reply(s, Success([LatencyNoted(about, tts, total)]))
    case Error(_, _, about, code) => Reply(s, Success([ProviderFailed(about, code)]))
    case UtteranceFinal(_, _, u, _, outcome) =>
      Reply(s.(active := s.active - {u}), Success([TerminalOutcome(u, outcome), TerminalReached(u)]))
    case SessionClosed(_) => Reply(s.(active := {}, collecting := None), Success([Closed]))
    case _ => Reply(s, Success([]))
  }

  function HandleProviderEvent(s: DirectionSession, e: Event, now: W.Ns): Reply<seq<Effect>> {
    var d := C.ValidateEvent(s.coordinator, e, now);
    var s1 := s.(coordinator := d.coordinator);
    if d.error.Some? then HandleRefused(s1, e, now, d.error.value) else HandleAccepted(s1, e)
  }

  // ---- Deadlines ----

  /** A poll of the session: refused, or an alarm to act on. */
  datatype PollReply = PollReply(session: DirectionSession, outcome: C.PollOutcome)

  function Poll(s: DirectionSession, now: W.Ns): PollReply {
    var p := C.Poll(s.coordinator, now);
    var s1 := s.(coordinator := p.coordinator);
    if p.outcome.Rang? && p.outcome.alarm.Cancel? && s.collecting.Some?
        && s.collecting.value in p.outcome.alarm.utterances
    then PollReply(s1.(collecting := None), p.outcome)
    else PollReply(s1, p.outcome)
  }
}

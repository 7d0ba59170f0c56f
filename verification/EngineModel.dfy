/** What each call on a provider session does, as functions from the session's state to
    its new state and reply.  A call that raises keeps the changes it made before it
    raised; the transport ends the stream on the first raise. */
module EngineModel {
  import opened Wire

  const INPUT_LIMIT_MS: nat := 800
  const OUTPUT_LIMIT_MS: nat := 1200

  datatype ProtocolError =
    | UnknownSession
    | SessionTerminal
    | UtteranceTerminal
    | DirectionMismatch
    | StreamMismatch
    | DuplicateFrameSequence
    | StaleFrameSequence
    | FormatMismatch
    | ContractMismatch
    | PcmLengthMismatch
    | ActiveUtteranceCapacity
    | TombstoneCapacity
    | UnknownUtterance

  datatype Injection = Injection(processDelayMs: nat, failAfterFrames: Option<nat>)

  datatype OpenRequest = OpenRequest(
    session: Uuid, direction: Direction, source: Language, target: Language, mode: Mode,
    inputFormat: PcmFormat, outputFormat: PcmFormat, debugText: bool)

  datatype Frame = Frame(
    session: Uuid, direction: Direction, stream: Uuid, utterance: Uuid, sequence: nat, captureNs: nat,
    format: PcmFormat, source: Language, target: Language, mode: Mode, pcm: Pcm, endOfUtterance: bool)

  datatype Queued =
    | QueuedInput(frame: Frame, enqueuedNs: nat)
    | QueuedOutput(frame: Frame, pcm: Pcm)

  datatype Session = Session(
    request: OpenRequest,
    debugText: bool,
    eventSequence: nat,
    lastFrameSequence: Option<nat>,
    streamId: Option<Uuid>,
    input: seq<Queued>,
    output: seq<Queued>,
    inputMs: int,
    outputMs: int,
    processed: nat,
    terminal: set<Uuid>,
    ended: set<Uuid>,
    streams: map<Uuid, Uuid>,
    nextAudio: map<Uuid, nat>,
    lastAudio: map<Uuid, nat>,
    closed: bool)

  datatype Answer = Events(events: seq<Event>) | Raised(error: ProtocolError)
  datatype Reply = Reply(session: Session, answer: Answer)

  // ---- Queues ----

  /** The queue without the entries of one utterance, in the same order. */
  function Without(q: seq<Queued>, u: Uuid): (r: seq<Queued>)
    ensures |r| <= |q|
    ensures forall x <- r :: x in q && x.frame.utterance != u
  {
    if q == [] then []
    else if q[0].frame.utterance == u then Without(q[1..], u)
    else [q[0]] + Without(q[1..], u)
  }

  /** The frames of one utterance in a queue, in order. */
  function FramesIn(q: seq<Queued>, u: Uuid): seq<Frame> {
    if q == [] then []
    else if q[0].frame.utterance == u then [q[0].frame] + FramesIn(q[1..], u)
    else FramesIn(q[1..], u)
  }

  function Ms(q: seq<Queued>): nat {
    if q == [] then 0 else q[0].frame.format.frameDurationMs + Ms(q[1..])
  }

  /** The milliseconds one utterance holds in a queue. */
  function MsOf(q: seq<Queued>, u: Uuid): nat {
    if q == [] then 0
    else (if q[0].frame.utterance == u then q[0].frame.format.frameDurationMs else 0) + MsOf(q[1..], u)
  }

  // ---- Pure helpers ----

  /** Reverse the samples of s16le audio, keeping the two bytes of each sample in order. */
  function ReverseSamples(pcm: Pcm): (r: Pcm)
    requires |pcm| % 2 == 0
    ensures |r| == |pcm|
  {
    if pcm == [] then [] else ReverseSamples(pcm[2..]) + pcm[..2]
  }

  predicate Expired(mode: Mode, captureNs: nat, now: nat) {
    now - captureNs > MaxAgeNs(mode)
  }

  function ReadyNs(inj: Injection, q: Queued): nat
    requires q.QueuedInput?
  {
    q.enqueuedNs + inj.processDelayMs * NS_PER_MS
  }

  function NextHeader(s: Session): Header {
    Header(s.request.session, s.request.direction, s.eventSequence + 1)
  }

  // ---- Opening ----

  /** A request the engine opens: the two formats agree. */
  predicate Openable(request: OpenRequest) {
    request.inputFormat == request.outputFormat && request.inputFormat.Supported()
  }

  function Opened(request: OpenRequest): Session {
    Session(request, request.debugText, 1, None, None, [], [], 0, 0, 0, {}, {}, map[], map[], map[], false)
  }

  function OpenedEvent(request: OpenRequest): Event {
    SessionOpened(Header(request.session, request.direction, 1), request.inputFormat, request.outputFormat,
                  Capabilities(true, true, false))
  }

  // ---- Ending an utterance ----

  function PurgeQueues(s: Session, u: Uuid): Session {
    s.(input := Without(s.input, u), inputMs := s.inputMs - MsOf(s.input, u),
       output := Without(s.output, u), outputMs := s.outputMs - MsOf(s.output, u))
  }

  function Forget(s: Session, u: Uuid): Session {
    PurgeQueues(s, u).(ended := s.ended - {u}, streams := s.streams - {u},
                       nextAudio := s.nextAudio - {u}, lastAudio := s.lastAudio - {u})
  }

  function FinalOf(s: Session, stream: Uuid, u: Uuid, outcome: Outcome): Event {
    UtteranceFinal(NextHeader(s), stream, u, Lookup(s.lastAudio, u), outcome)
  }

  function Terminate(s: Session, stream: Uuid, u: Uuid, outcome: Outcome): Reply {
    if u in s.terminal then Reply(s, Raised(UtteranceTerminal))
    else if |s.terminal| >= MAX_TERMINAL_UTTERANCES then Reply(s, Raised(TombstoneCapacity))
    else Reply(Forget(s, u).(terminal := s.terminal + {u}, eventSequence := s.eventSequence + 1),
               Events([FinalOf(s, stream, u, outcome)]))
  }

  /** An error event about a frame's utterance, then its dropped final. */
  function FailUtterance(s: Session, f: Frame, code: ErrorCode): Reply {
    var error := Error(NextHeader(s), Some(f.stream), Some(f.utterance), code);
    var r := Terminate(s.(eventSequence := s.eventSequence + 1), f.stream, f.utterance, Dropped);
    match r.answer
    case Raised(_) => r
    case Events(es) => r.(answer := Events([error] + es))
  }

  // ---- Input ----

  function FrameError(s: Session, f: Frame): Option<ProtocolError> {
    if f.utterance in s.terminal then Some(UtteranceTerminal)
    else if f.direction != s.request.direction then Some(DirectionMismatch)
    else if s.streamId.Some? && f.stream != s.streamId.value then Some(StreamMismatch)
    else if s.lastFrameSequence == Some(f.sequence) then Some(DuplicateFrameSequence)
    else if s.lastFrameSequence.Some? && f.sequence < s.lastFrameSequence.value then Some(StaleFrameSequence)
    else if f.utterance in s.ended then Some(UtteranceTerminal)
    else if f.format != s.request.inputFormat then Some(FormatMismatch)
    else if f.source != s.request.source || f.target != s.request.target || f.mode != s.request.mode
    then Some(ContractMismatch)
    else if |f.pcm| != f.format.FrameBytes() then Some(PcmLengthMismatch)
    else None
  }

  function Admitted(s: Session, f: Frame): Session {
    s.(lastFrameSequence := Some(f.sequence), streamId := Some(f.stream), streams := s.streams[f.utterance := f.stream])
  }

  /** What becomes of a frame that passed every check. */
  function TakeFrame(s: Session, f: Frame, now: nat): Reply {
    var s1 := Admitted(s, f);
    if Expired(s.request.mode, f.captureNs, now) then Terminate(s1, f.stream, f.utterance, Dropped)
    else if s.inputMs + f.format.frameDurationMs > INPUT_LIMIT_MS then FailUtterance(s1, f, QueueOverflow)
    else
      Reply(s1.(input := s.input + [QueuedInput(f, now)],
                inputMs := s.inputMs + f.format.frameDurationMs,
                ended := if f.endOfUtterance then s.ended + {f.utterance} else s.ended),
            Events([]))
  }

  function EnqueueFrame(s: Session, f: Frame, now: nat): Reply {
    if f.session != s.request.session then Reply(s, Raised(UnknownSession))
    else if s.closed then Reply(s, Raised(SessionTerminal))
    else if FrameError(s, f).Some? then Reply(s, Raised(FrameError(s, f).value))
    else if f.utterance !in s.streams && |s.streams| >= MAX_ACTIVE_UTTERANCES
    then Reply(s, Raised(ActiveUtteranceCapacity))
    else TakeFrame(s, f, now)
  }

  // ---- Processing ----

  function PopInput(s: Session): Session
    requires s.input != []
  {
    s.(input := s.input[1..], inputMs := s.inputMs - s.input[0].frame.format.frameDurationMs)
  }

  /** Two pieces of text about a processed frame, when debug text is enabled. */
  function TextEvents(s: Session, f: Frame): seq<Event> {
    [TranscriptDelta(NextHeader(s), f.stream, f.utterance, f.endOfUtterance),
     TranslationDelta(NextHeader(s).(sequence := s.eventSequence + 2), f.stream, f.utterance, f.endOfUtterance)]
  }

  /** What becomes of a frame that is ready and was just taken off the queue. */
  function Processed(inj: Injection, s: Session, f: Frame): Reply
    requires |f.pcm| % 2 == 0
  {
    var s2 := s.(processed := s.processed + 1);
    if inj.failAfterFrames.Some? && s.processed >= inj.failAfterFrames.value
    then FailUtterance(s2, f, ProviderUnavailable)
    else if s.outputMs + f.format.frameDurationMs > OUTPUT_LIMIT_MS then FailUtterance(s2, f, QueueOverflow)
    else
      var s3 := s2.(output := s.output + [QueuedOutput(f, ReverseSamples(f.pcm))],
                    outputMs := s.outputMs + f.format.frameDurationMs);
      if !s.debugText then Reply(s3, Events([]))
      else Reply(s3.(eventSequence := s.eventSequence + 2), Events(TextEvents(s, f)))
  }

  function ProcessNext(inj: Injection, s: Session, now: nat): Reply
    requires forall q <- s.input :: q.QueuedInput? && |q.frame.pcm| % 2 == 0
  {
    if s.closed then Reply(s, Raised(SessionTerminal))
    else if s.input == [] then Reply(s, Events([]))
    else
      var f := s.input[0].frame;
      var s1 := PopInput(s);
      if Expired(s.request.mode, f.captureNs, now) then Terminate(s1, f.stream, f.utterance, Dropped)
      else if now < ReadyNs(inj, s.input[0]) then Reply(s, Events([]))
      else Processed(inj, s1, f)
  }

  // ---- Output ----

  function PopOutput(s: Session): Session
    requires s.output != []
  {
    s.(output := s.output[1..], outputMs := s.outputMs - s.output[0].frame.format.frameDurationMs)
  }

  /** The audio of one drained frame and the latency measured for it. */
  function AudioEvents(s: Session, q: Queued, now: nat): seq<Event>
    requires q.QueuedOutput?
  {
    var f := q.frame;
    var number := if f.utterance in s.nextAudio then s.nextAudio[f.utterance] else 0;
    var totalMs := if now < f.captureNs then 0 else (now - f.captureNs) / NS_PER_MS;
    [AudioDelta(NextHeader(s), f.stream, f.utterance, number, now, f.format, q.pcm),
     Latency(NextHeader(s).(sequence := s.eventSequence + 2), f.stream, Some(f.utterance), None, None, None,
             Some(totalMs), Some(totalMs))]
  }

  function AudioEmitted(s: Session, u: Uuid): Session {
    var number := if u in s.nextAudio then s.nextAudio[u] else 0;
    s.(eventSequence := s.eventSequence + 2, nextAudio := s.nextAudio[u := number + 1],
        lastAudio := s.lastAudio[u := number])
  }

  /** One turn of the drain loop, on the queued frame that was just popped. */
  function DrainOne(s: Session, q: Queued, now: nat): (r: Reply)
    requires q.QueuedOutput?
    ensures |r.session.output| <= |s.output|
    ensures forall x <- r.session.output :: x in s.output
  {
    var f := q.frame;
    if Expired(s.request.mode, f.captureNs, now) then Terminate(s, f.stream, f.utterance, Dropped)
    else
      var s1 := AudioEmitted(s, f.utterance);
      if !f.endOfUtterance then Reply(s1, Events(AudioEvents(s, q, now)))
      else
        var r := Terminate(s1, f.stream, f.utterance, Completed);
        match r.answer
        case Raised(_) => r
        case Events(es) => r.(answer := Events(AudioEvents(s, q, now) + es))
  }

  function DrainFrom(s: Session, now: nat): Reply
    requires forall q <- s.output :: q.QueuedOutput?
    decreases |s.output|
  {
    if s.output == [] then Reply(s, Events([]))
    else
      var r := DrainOne(PopOutput(s), s.output[0], now);
      match r.answer
      case Raised(_) => r
      case Events(es) =>
        var rest := DrainFrom(r.session, now);
        match rest.answer
        case Raised(_) => rest
        case Events(more) => rest.(answer := Events(es + more))
  }

  function DrainOutput(s: Session, now: nat): Reply
    requires forall q <- s.output :: q.QueuedOutput?
  {
    if s.closed then Reply(s, Raised(SessionTerminal)) else DrainFrom(s, now)
  }

  // ---- Control ----

  function CancelUtterance(s: Session, direction: Direction, u: Uuid): Reply {
    if s.closed then Reply(s, Raised(SessionTerminal))
    else if direction != s.request.direction then Reply(s, Raised(DirectionMismatch))
    else if u in s.terminal then Reply(s, Raised(UtteranceTerminal))
    else if u !in s.streams then Reply(s, Raised(UnknownUtterance))
    else Terminate(PurgeQueues(s, u), s.streams[u], u, Cancelled)
  }

  function CloseSession(s: Session): Reply {
    if s.closed then Reply(s, Raised(SessionTerminal))
    else
      Reply(s.(input := [], output := [], inputMs := 0, outputMs := 0, ended := {}, streams := map[],
               nextAudio := map[], lastAudio := map[], closed := true, eventSequence := s.eventSequence + 1),
            Events([SessionClosed(NextHeader(s))]))
  }

  function UpdateDebugText(s: Session, enabled: bool): Reply {
    if s.closed then Reply(s, Raised(SessionTerminal))
    else Reply(s.(debugText := enabled), Events([]))
  }

  function ReportHealth(s: Session): Reply {
    if s.closed then Reply(s, Raised(SessionTerminal))
    else Reply(s.(eventSequence := s.eventSequence + 1), Events([Health(NextHeader(s), Local, true)]))
  }
}

/** The daemon's check on everything a provider says, as functions from the validator's
    state to its new state and verdict.  A rejected event may still leave a mark: late or
    cancelled audio counts as received. */
module ValidatorModel {
  import opened Wire

  datatype ValidationError =
    | OpenRequired
    | DuplicateOpen
    | SessionMismatch
    | DirectionMismatch
    | ProviderMismatch
    | StreamMismatch
    | DuplicateSequence
    | StaleSequence
    | SequenceGap
    | DuplicateAudioSequence
    | StaleAudioSequence
    | AudioSequenceGap
    | MissingSessionContract
    | NegotiatedFormatMismatch
    | OutputFormatMismatch
    | PcmLengthMismatch
    | UnknownUtterance
    | UtteranceTerminal
    | UtteranceCapacityExceeded
    | TerminalCapacityExceeded
    | SessionTerminal
    | DebugTextDisabled
    | UnsafeErrorMessage
    | ExpiredAudio
    | CancelledAudio
    | FinalAudioSequenceMismatch
    | ExpectedOverflowTerminal
    | ExpectedNoSpeechTerminal
    | ExpectedNoSpeechLatency
    | ExpectedCancelledTerminal
    | InvalidOutcome

  datatype Validator = Validator(
    contract: Contract,
    isOpen: bool,
    closed: bool,
    lastSequence: Option<nat>,
    capture: map<Uuid, nat>,
    complete: map<Uuid, nat>,
    wire: map<Uuid, nat>,
    playable: map<Uuid, nat>,
    terminal: set<Uuid>,
    pendingOverflow: Option<Uuid>,
    pendingNoSpeech: Option<Uuid>,
    pendingNoSpeechLatency: Option<Uuid>,
    cancelPending: set<Uuid>,
    debugText: bool)

  datatype Verdict = Accepted | Rejected(error: ValidationError)
  datatype Checked = Checked(validator: Validator, verdict: Verdict)

  function Fresh(contract: Contract): Validator {
    Validator(contract, false, false, None, map[], map[], map[], map[], {}, None, None, None, {}, contract.debugText)
  }

  function Reject(v: Validator, error: ValidationError): Checked {
    Checked(v, Rejected(error))
  }

  function Accept(v: Validator): Checked {
    Checked(v, Accepted)
  }

  // ---- What the daemon tells it ----

  function RecordInput(v: Validator, u: Uuid, captureNs: nat): Checked {
    if !v.isOpen then Reject(v, OpenRequired)
    else if v.closed then Reject(v, SessionTerminal)
    else if u in v.terminal then Reject(v, UtteranceTerminal)
    else if u !in v.capture && |v.capture| >= MAX_ACTIVE_UTTERANCES then Reject(v, UtteranceCapacityExceeded)
    else Accept(v.(capture := if u in v.capture then v.capture else v.capture[u := captureNs],
                   complete := if u in v.complete then v.complete else v.complete[u := captureNs]))
  }

  function RecordEndOfUtterance(v: Validator, u: Uuid, captureNs: nat): Checked {
    if !v.isOpen then Reject(v, OpenRequired)
    else if v.closed then Reject(v, SessionTerminal)
    else if u !in v.complete then Reject(v, UnknownUtterance)
    else Accept(v.(complete := v.complete[u := captureNs]))
  }

  function CanRecordCancel(v: Validator, u: Uuid): Verdict {
    if !v.isOpen then Rejected(OpenRequired)
    else if v.closed then Rejected(SessionTerminal)
    else if u in v.terminal then Rejected(UtteranceTerminal)
    else if u !in v.capture then Rejected(UnknownUtterance)
    else Accepted
  }

  function RecordCancelRequested(v: Validator, u: Uuid): Checked {
    Checked(if CanRecordCancel(v, u).Accepted? then v.(cancelPending := v.cancelPending + {u}) else v,
            CanRecordCancel(v, u))
  }

  function SetDebugText(v: Validator, enabled: bool): Validator {
    v.(debugText := enabled)
  }

  // ---- Reading events ----

  function ActiveError(v: Validator, u: Uuid): Option<ValidationError> {
    if u in v.terminal then Some(UtteranceTerminal)
    else if u !in v.capture then Some(UnknownUtterance)
    else None
  }

  function StreamError(v: Validator, e: Event): Option<ValidationError> {
    var stream := match e
      case AudioDelta(_, s, _, _, _, _, _) => Some(s)
      case TranscriptDelta(_, s, _, _) => Some(s)
      case TranslationDelta(_, s, _, _) => Some(s)
      case UtteranceFinal(_, s, _, _, _) => Some(s)
      case Latency(_, s, _, _, _, _, _, _) => Some(s)
      case Error(_, s, _, _) => s
      case _ => None;
    if stream.Some? && stream.value != v.contract.stream then Some(StreamMismatch)
    else if e.Error? && e.about.Some? && stream.None? then Some(StreamMismatch)
    else None
  }

  function SequenceError(v: Validator, sequence: nat): Option<ValidationError> {
    match v.lastSequence
    case None => if sequence == 1 then None else Some(SequenceGap)
    case Some(previous) =>
      if sequence == previous then Some(DuplicateSequence)
      else if sequence < previous then Some(StaleSequence)
      else None
  }

  function AudioSequenceError(v: Validator, u: Uuid, sequence: nat): Option<ValidationError> {
    match Lookup(v.wire, u)
    case None => if sequence == 0 then None else Some(AudioSequenceGap)
    case Some(previous) =>
      if sequence == previous then Some(DuplicateAudioSequence)
      else if sequence < previous then Some(StaleAudioSequence)
      else if sequence > previous + 1 then Some(AudioSequenceGap)
      else None
  }

  function WireAudioError(v: Validator, e: Event): Option<ValidationError>
    requires e.AudioDelta?
  {
    if AudioSequenceError(v, e.utterance, e.audioSequence).Some?
    then AudioSequenceError(v, e.utterance, e.audioSequence)
    else if e.format != v.contract.outputFormat then Some(OutputFormatMismatch)
    else if |e.pcm| != e.format.FrameBytes() then Some(PcmLengthMismatch)
    else None
  }

  /** Audio that arrived in order is on the wire, whether or not it will be played. */
  function Received(v: Validator, e: Event): Validator
    requires e.AudioDelta?
  {
    v.(wire := v.wire[e.utterance := e.audioSequence])
  }

  function TooLate(v: Validator, captureNs: nat, now: nat): bool {
    now - captureNs > MaxAgeNs(v.contract.mode)
  }

  // ---- Ending an utterance ----

  function Terminalize(v: Validator, u: Uuid): Checked {
    if |v.terminal| >= MAX_TERMINAL_UTTERANCES then Reject(v.(closed := true), TerminalCapacityExceeded)
    else Accept(v.(terminal := v.terminal + {u}, capture := v.capture - {u}, complete := v.complete - {u},
                   wire := v.wire - {u}, playable := v.playable - {u}, cancelPending := v.cancelPending - {u}))
  }

  function CancelledTerminal(v: Validator, e: Event, u: Uuid): Checked {
    if !e.UtteranceFinal? || e.outcome != Cancelled || e.finalAudio != Lookup(v.wire, u)
    then Reject(v, ExpectedCancelledTerminal)
    else Terminalize(v.(cancelPending := v.cancelPending - {u}), u)
  }

  function OverflowTerminal(v: Validator, e: Event, expected: Uuid): Checked {
    if !e.UtteranceFinal? || e.utterance != expected || e.outcome != Dropped
        || e.finalAudio != Lookup(v.playable, e.utterance)
    then Reject(v, ExpectedOverflowTerminal)
    else Terminalize(v.(pendingOverflow := None), e.utterance)
  }

  function NoSpeechTerminal(v: Validator, e: Event, expected: Uuid): Checked {
    if !e.UtteranceFinal? || e.utterance != expected || e.outcome != Dropped || e.finalAudio.Some?
    then Reject(v, ExpectedNoSpeechTerminal)
    else Terminalize(v.(pendingNoSpeech := None), e.utterance)
  }

  // ---- One event ----

  /** The verdicts on audio that arrived in order but will not be played. */
  predicate Late(r: Checked) {
    r.verdict == Rejected(ExpiredAudio) || r.verdict == Rejected(CancelledAudio)
  }

  /** Which utterances are open, cancelled and ended is as it was. */
  predicate SameBooks(v: Validator, v': Validator) {
    && v'.contract == v.contract
    && v'.capture == v.capture
    && v'.complete == v.complete
    && v'.terminal == v.terminal
    && v'.cancelPending == v.cancelPending
    && v'.closed == v.closed
    && (v.isOpen ==> v'.isOpen)
  }

  predicate SameNumbers(v: Validator, v': Validator) {
    v'.wire == v.wire && v'.playable == v.playable
  }

  /** A check that leaves the books alone, and never for want of room. */
  predicate Harmless(v: Validator, r: Checked) {
    SameBooks(v, r.validator) && r.verdict != Rejected(TerminalCapacityExceeded)
  }

  function CheckOpened(v: Validator, e: Event): (r: Checked)
    requires e.SessionOpened?
    ensures Harmless(v, r) && SameNumbers(v, r.validator) && !Late(r)
  {
    if e.inputFormat != v.contract.inputFormat || e.outputFormat != v.contract.outputFormat
    then Reject(v, NegotiatedFormatMismatch)
    else if !e.capabilities.audioOutput || !e.capabilities.cancellation then Reject(v, NegotiatedFormatMismatch)
    else if e.capabilities.cloudEgress != v.contract.provider.OpenAi? then Reject(v, NegotiatedFormatMismatch)
    else Accept(v.(isOpen := true))
  }

  function CheckAudio(v: Validator, e: Event, now: nat): (r: Checked)
    requires e.AudioDelta?
    ensures Harmless(v, r)
  {
    var u := e.utterance;
    if ActiveError(v, u).Some? then Reject(v, ActiveError(v, u).value)
    else if WireAudioError(v, e).Some? then Reject(v, WireAudioError(v, e).value)
    else if u !in v.playable && u in v.complete && TooLate(v, v.complete[u], now)
    then Reject(Received(v, e), ExpiredAudio)
    else Accept(Received(v, e).(playable := v.playable[u := e.audioSequence]))
  }

  function CheckText(v: Validator, u: Uuid): (r: Checked)
    ensures Harmless(v, r) && SameNumbers(v, r.validator) && !Late(r)
  {
    if ActiveError(v, u).Some? then Reject(v, ActiveError(v, u).value)
    else if !v.debugText then Reject(v, DebugTextDisabled)
    else Accept(v)
  }

  function CheckLatency(v: Validator, e: Event): (r: Checked)
    requires e.Latency?
    ensures Harmless(v, r) && SameNumbers(v, r.validator) && !Late(r)
  {
    if e.about.Some? && ActiveError(v, e.about.value).Some? then Reject(v, ActiveError(v, e.about.value).value)
    else
      var heardNothing := e.asrFirstMs.Some? && e.asrFinalMs.Some? && e.mtFirstMs.None? && e.ttsFirstMs.None?;
      Accept(v.(pendingNoSpeechLatency := if heardNothing then e.about else None))
  }

  function CheckHealth(v: Validator, e: Event): (r: Checked)
    requires e.Health?
    ensures Harmless(v, r) && SameNumbers(v, r.validator) && !Late(r)
  {
    if e.provider != v.contract.provider then Reject(v, ProviderMismatch)
    else if !e.hasQueues then Reject(v, MissingSessionContract)
    else Accept(v)
  }

  function CheckError(v: Validator, e: Event): (r: Checked)
    requires e.Error?
    ensures Harmless(v, r) && SameNumbers(v, r.validator) && !Late(r)
  {
    if e.code.UnspecifiedError? then Reject(v, UnsafeErrorMessage)
    else if e.about.Some? && ActiveError(v, e.about.value).Some? then Reject(v, ActiveError(v, e.about.value).value)
    else if e.code.QueueOverflow? && e.about.None? then Reject(v, ExpectedOverflowTerminal)
    else if e.code.QueueOverflow? then Accept(v.(pendingOverflow := e.about))
    else if e.code.NoSpeech? && e.about.None? then Reject(v, ExpectedNoSpeechTerminal)
    else if e.code.NoSpeech? && v.pendingNoSpeechLatency != e.about then Reject(v, ExpectedNoSpeechLatency)
    else if e.code.NoSpeech? then Accept(v.(pendingNoSpeechLatency := None, pendingNoSpeech := e.about))
    else Accept(v)
  }

  function CheckFinal(v: Validator, e: Event): Checked
    requires e.UtteranceFinal?
  {
    if ActiveError(v, e.utterance).Some? then Reject(v, ActiveError(v, e.utterance).value)
    else if e.outcome.Unspecified? then Reject(v, InvalidOutcome)
    else if e.outcome.Cancelled? then Reject(v, ExpectedCancelledTerminal)
    else if e.finalAudio != Lookup(v.playable, e.utterance) then Reject(v, FinalAudioSequenceMismatch)
    else Terminalize(v, e.utterance)
  }

  /** An event about an utterance whose cancellation is awaited. */
  function CheckAfterCancel(v: Validator, e: Event, u: Uuid): Checked {
    if e.AudioDelta? then
      if WireAudioError(v, e).Some? then Reject(v, WireAudioError(v, e).value)
      else Reject(Received(v, e), CancelledAudio)
    else CancelledTerminal(v, e, u)
  }

  /** An event read for what it says. */
  function CheckSaid(v: Validator, e: Event, now: nat): Checked {
    match e
    case SessionOpened(_, _, _, _) => CheckOpened(v, e)
    case AudioDelta(_, _, _, _, _, _, _) => CheckAudio(v, e, now)
    case TranscriptDelta(_, _, u, _) => CheckText(v, u)
    case TranslationDelta(_, _, u, _) => CheckText(v, u)
    case Latency(_, _, _, _, _, _, _, _) => CheckLatency(v, e)
    case Health(_, _, _) => CheckHealth(v, e)
    case Error(_, _, _, _) => CheckError(v, e)
    case UtteranceFinal(_, _, _, _, _) => CheckFinal(v, e)
    case SessionClosed(_) => Accept(v.(closed := true))
  }

  function CheckKind(v: Validator, e: Event, now: nat): Checked {
    if e.Subject().Some? && e.Subject().value in v.cancelPending then CheckAfterCancel(v, e, e.Subject().value)
    else if v.pendingOverflow.Some? then OverflowTerminal(v, e, v.pendingOverflow.value)
    else if v.pendingNoSpeech.Some? then NoSpeechTerminal(v, e, v.pendingNoSpeech.value)
    else CheckSaid(if e.Latency? || (e.Error? && e.code.NoSpeech?) then v
        else v.(pendingNoSpeechLatency := None), e, now)
  }

  /** The checks made before an event is read for what it says. */
  function EnvelopeError(v: Validator, e: Event): (r: Option<ValidationError>)
    ensures r.Some? ==> r.value in {SessionTerminal, OpenRequired, DuplicateOpen, SessionMismatch, DirectionMismatch,
                                    StreamMismatch, SequenceGap, DuplicateSequence, StaleSequence}
  {
    if v.closed then Some(SessionTerminal)
    else if !v.isOpen && !e.SessionOpened? then Some(OpenRequired)
    else if v.isOpen && e.SessionOpened? then Some(DuplicateOpen)
    else if e.header.session != v.contract.session then Some(SessionMismatch)
    else if e.header.direction != v.contract.direction then Some(DirectionMismatch)
    else if StreamError(v, e).Some? then StreamError(v, e)
    else SequenceError(v, e.header.sequence)
  }

  function Validate(v: Validator, e: Event, now: nat): Checked {
    if EnvelopeError(v, e).Some? then Reject(v, EnvelopeError(v, e).value)
    else
      var c := CheckKind(v, e, now);
      if c.verdict in {Accepted, Rejected(ExpiredAudio), Rejected(CancelledAudio)}
      then c.(validator := c.validator.(lastSequence := Some(e.header.sequence)))
      else c
  }
}

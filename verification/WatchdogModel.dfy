/** The daemon's deadlines: when an utterance is overdue it is cancelled, when a
    cancellation goes unanswered the session is closed, when the close goes unanswered the
    sidecar is restarted. */
module WatchdogModel {
  import opened Wire

  const U64_MAX: nat := 0xFFFF_FFFF_FFFF_FFFF

  /** Nanoseconds on the daemon's monotonic clock. */
  type Ns = n: nat | n <= U64_MAX

  function SaturatingAdd(a: Ns, b: Ns): Ns {
    if a + b <= U64_MAX then a + b else U64_MAX
  }

  const COLLECTING_INPUT_NS: Ns := 12_000 * NS_PER_MS
  const FIRST_AUDIO_NS: Ns := 6_000 * NS_PER_MS
  const INTER_AUDIO_NS: Ns := 250 * NS_PER_MS
  const CANCEL_FINAL_NS: Ns := 250 * NS_PER_MS
  const CLOSE_ACK_NS: Ns := 2_000 * NS_PER_MS

  datatype WatchdogError =
    | UnknownUtterance
    | DuplicateUtterance
    | StreamMismatch
    | CancelIsPending
    | InputNotComplete
    | InputAlreadyComplete
    | ExpectedCancelledFinal
    | SessionTerminal
    | DeadlineExpired

  datatype Phase =
    | CollectingInput(deadline: Ns)
    | AwaitingFirstAudio(deadline: Ns)
    | StreamingAudio(deadline: Ns)
    | CancelPending(deadline: Ns)

  datatype Watched = Watched(stream: Uuid, phase: Phase)

  datatype SessionPhase = Active | ClosePending(deadline: Ns) | RestartIssued | Terminal

  datatype Watchdog = Watchdog(session: Uuid, utterances: map<Uuid, Watched>, phase: SessionPhase)

  datatype Done = Done(watchdog: Watchdog, error: Option<WatchdogError>)

  /** What a poll asks for: some utterances cancelled (often none), or the next rung. */
  datatype Alarm = Cancel(utterances: set<Uuid>) | CloseSession | RestartSidecar

  datatype Polled = Polled(watchdog: Watchdog, alarm: Alarm)

  function Fresh(session: Uuid): Watchdog {
    Watchdog(session, map[], Active)
  }

  function Fail(w: Watchdog, error: WatchdogError): Done {
    Done(w, Some(error))
  }

  function Enter(w: Watchdog, u: Uuid, phase: Phase): Watchdog
    requires u in w.utterances
  {
    w.(utterances := w.utterances[u := w.utterances[u].(phase := phase)])
  }

  /** Why the utterance cannot be looked up. */
  function AccessError(w: Watchdog, stream: Uuid, u: Uuid): Option<WatchdogError> {
    if !w.phase.Active? then Some(SessionTerminal)
    else if u !in w.utterances then Some(UnknownUtterance)
    else if w.utterances[u].stream != stream then Some(StreamMismatch)
    else None
  }

  function StartUtterance(w: Watchdog, stream: Uuid, u: Uuid, captureNs: Ns): Done {
    if !w.phase.Active? then Fail(w, SessionTerminal)
    else if u in w.utterances then Fail(w, DuplicateUtterance)
    else
      var phase := CollectingInput(SaturatingAdd(captureNs, COLLECTING_INPUT_NS));
      Done(w.(utterances := w.utterances[u := Watched(stream, phase)]), None)
  }

  function RecordEndOfUtterance(w: Watchdog, stream: Uuid, u: Uuid, now: Ns): Done {
    if AccessError(w, stream, u).Some? then Fail(w, AccessError(w, stream, u).value)
    else
      match w.utterances[u].phase
      case CollectingInput(deadline) =>
        if now <= deadline then Done(Enter(w, u, AwaitingFirstAudio(SaturatingAdd(now, FIRST_AUDIO_NS))), None)
        else Fail(w, DeadlineExpired)
      case AwaitingFirstAudio(_) => Fail(w, InputAlreadyComplete)
      case StreamingAudio(_) => Fail(w, InputAlreadyComplete)
      case CancelPending(_) => Fail(w, CancelIsPending)
  }

  function AudioError(w: Watchdog, stream: Uuid, u: Uuid, now: Ns): Option<WatchdogError> {
    if AccessError(w, stream, u).Some? then AccessError(w, stream, u)
    else
      match w.utterances[u].phase
      case CollectingInput(_) => Some(InputNotComplete)
      case CancelPending(_) => Some(CancelIsPending)
      case AwaitingFirstAudio(deadline) => if now > deadline then Some(DeadlineExpired) else None
      case StreamingAudio(deadline) => if now > deadline then Some(DeadlineExpired) else None
  }

  function RecordAudio(w: Watchdog, stream: Uuid, u: Uuid, now: Ns): Done {
    if AudioError(w, stream, u, now).Some? then Fail(w, AudioError(w, stream, u, now).value)
    else Done(Enter(w, u, StreamingAudio(SaturatingAdd(now, INTER_AUDIO_NS))), None)
  }

  function FinalError(w: Watchdog, stream: Uuid, u: Uuid, outcome: Outcome, now: Ns): Option<WatchdogError> {
    if AccessError(w, stream, u).Some? then AccessError(w, stream, u)
    else
      match w.utterances[u].phase
      case CollectingInput(_) => Some(InputNotComplete)
      case CancelPending(deadline) =>
        if outcome.Cancelled? && now <= deadline then None else Some(ExpectedCancelledFinal)
      case _ =>
        if (outcome.Completed? || outcome.Dropped?) && now <= w.utterances[u].phase.deadline then None
        else if outcome.Cancelled? then Some(ExpectedCancelledFinal)
        else Some(DeadlineExpired)
  }

  function FinishUtterance(w: Watchdog, stream: Uuid, u: Uuid, cancelled: bool): Done {
    if AccessError(w, stream, u).Some? then Fail(w, AccessError(w, stream, u).value)
    else if w.utterances[u].phase.CollectingInput? then Fail(w, InputNotComplete)
    else if w.utterances[u].phase.CancelPending? != cancelled then Fail(w, ExpectedCancelledFinal)
    else Done(w.(utterances := w.utterances - {u}), None)
  }

  function DisarmUtterance(w: Watchdog, stream: Uuid, u: Uuid): Done {
    if u !in w.utterances then Fail(w, UnknownUtterance)
    else if w.utterances[u].stream != stream then Fail(w, StreamMismatch)
    else Done(w.(utterances := w.utterances - {u}), None)
  }

  function RecordSessionClosed(w: Watchdog, session: Uuid): Done {
    if session != w.session then Fail(w, StreamMismatch)
    else Done(w.(utterances := map[], phase := Terminal), None)
  }

  predicate IsCancelPending(w: Watchdog, stream: Uuid, u: Uuid) {
    u in w.utterances && w.utterances[u].stream == stream && w.utterances[u].phase.CancelPending?
  }

  function CancelUtterance(w: Watchdog, stream: Uuid, u: Uuid, now: Ns): Done {
    if AccessError(w, stream, u).Some? then Fail(w, AccessError(w, stream, u).value)
    else
      match w.utterances[u].phase
      case CollectingInput(_) => Fail(w, InputNotComplete)
      case CancelPending(_) => Fail(w, CancelIsPending)
      case _ => Done(Enter(w, u, CancelPending(SaturatingAdd(now, CANCEL_FINAL_NS))), None)
  }

  // ---- Polling ----

  predicate IsOverdue(x: Watched, now: Ns) {
    !x.phase.CancelPending? && now > x.phase.deadline
  }

  predicate IsUnanswered(x: Watched, now: Ns) {
    x.phase.CancelPending? && now > x.phase.deadline
  }

  function Overdue(w: Watchdog, now: Ns): set<Uuid> {
    set u <- w.utterances | IsOverdue(w.utterances[u], now)
  }

  predicate CloseDue(w: Watchdog, now: Ns) {
    exists u <- w.utterances :: IsUnanswered(w.utterances[u], now)
  }

  function Expired(x: Watched, now: Ns): Watched {
    x.(phase := CancelPending(SaturatingAdd(now, CANCEL_FINAL_NS)))
  }

  function Swept(utterances: map<Uuid, Watched>, now: Ns): map<Uuid, Watched> {
    map u <- utterances :: if IsOverdue(utterances[u], now) then Expired(utterances[u], now) else utterances[u]
  }

  function Poll(w: Watchdog, now: Ns): Polled {
    match w.phase
    case ClosePending(deadline) =>
      if now >= deadline then Polled(w.(phase := RestartIssued), RestartSidecar) else Polled(w, Cancel({}))
    case Active =>
      var w1 := w.(utterances := Swept(w.utterances, now));
      if CloseDue(w, now) then Polled(w1.(phase := ClosePending(SaturatingAdd(now, CLOSE_ACK_NS))), CloseSession)
      else Polled(w1, Cancel(Overdue(w, now)))
    case _ => Polled(w, Cancel({}))
  }
}

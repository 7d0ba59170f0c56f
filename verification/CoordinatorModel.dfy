/** One provider stream as the daemon sees it: the validator, the watchdog and the receive
    buffers, updated one after the other on every call. */
module CoordinatorModel {
  import opened Wire
  import W = WatchdogModel
  import V = ValidatorModel

  const MAX_RECEIVE_BUFFERED_MS: nat := 400

  datatype CoordinatorError =
    | Watchdog(watchdog: W.WatchdogError)
    | Validation(validation: V.ValidationError)
    | ReceiveBufferFull
    | ReceiveBufferEmpty

  datatype BufferedFrame = BufferedFrame(pcm: Pcm, ms: nat)
  datatype ReceiveBuffer = ReceiveBuffer(frames: seq<BufferedFrame>, ms: nat)

  datatype Coordinator = Coordinator(
    watchdog: W.Watchdog,
    validator: V.Validator,
    buffers: map<(Uuid, Uuid), ReceiveBuffer>)

  datatype Done = Done(coordinator: Coordinator, error: Option<CoordinatorError>)

  function Fresh(contract: Contract): Coordinator {
    Coordinator(W.Fresh(contract.session), V.Fresh(contract), map[])
  }

  function Ok(c: Coordinator): Done {
    Done(c, None)
  }

  function Fail(c: Coordinator, error: CoordinatorError): Done {
    Done(c, Some(error))
  }

  // ---- Capture ----

  function StartUtterance(c: Coordinator, stream: Uuid, u: Uuid, captureNs: W.Ns): Done {
    var d := W.StartUtterance(c.watchdog, stream, u, captureNs);
    if d.error.Some? then Fail(c, Watchdog(d.error.value))
    else
      var r := V.RecordInput(c.validator, u, captureNs);
      if r.verdict.Rejected?
      then Fail(c.(watchdog := W.DisarmUtterance(d.watchdog, stream, u).watchdog), Validation(r.verdict.error))
      else Ok(c.(watchdog := d.watchdog, validator := r.validator))
  }

  function RecordEndOfUtterance(c: Coordinator, stream: Uuid, u: Uuid, now: W.Ns): Done {
    var d := W.RecordEndOfUtterance(c.watchdog, stream, u, now);
    if d.error.Some? then Fail(c, Watchdog(d.error.value))
    else
      var r := V.RecordEndOfUtterance(c.validator, u, now);
      if r.verdict.Rejected? then Fail(c.(watchdog := d.watchdog), Validation(r.verdict.error))
      else Ok(c.(watchdog := d.watchdog, validator := r.validator))
  }

  // ---- Receive buffers ----

  function BufferAt(c: Coordinator, stream: Uuid, u: Uuid): ReceiveBuffer {
    if (stream, u) in c.buffers then c.buffers[(stream, u)] else ReceiveBuffer([], 0)
  }

  predicate CanBuffer(c: Coordinator, stream: Uuid, u: Uuid, ms: nat) {
    BufferAt(c, stream, u).ms + ms <= MAX_RECEIVE_BUFFERED_MS
  }

  function Buffered(c: Coordinator, stream: Uuid, u: Uuid, pcm: Pcm, ms: nat): Coordinator {
    var b := BufferAt(c, stream, u);
    c.(buffers := c.buffers[(stream, u) := ReceiveBuffer(b.frames + [BufferedFrame(pcm, ms)], b.ms + ms)])
  }

  datatype Consumed = Consumed(coordinator: Coordinator, pcm: Option<Pcm>)

  function ConsumeReceiveAudio(c: Coordinator, stream: Uuid, u: Uuid): Consumed {
    if (stream, u) !in c.buffers || c.buffers[(stream, u)].frames == [] then Consumed(c, None)
    else
      var b := c.buffers[(stream, u)];
      var rest := ReceiveBuffer(b.frames[1..], if b.ms < b.frames[0].ms then 0 else b.ms - b.frames[0].ms);
      Consumed(c.(buffers := if rest.frames == [] then c.buffers - {(stream, u)} else c.buffers[(stream, u) := rest]),
               Some(b.frames[0].pcm))
  }

  // ---- Provider events ----

  function Verdict(c: Coordinator, e: Event, now: W.Ns): Done {
    var r := V.Validate(c.validator, e, now);
    Done(c.(validator := r.validator), if r.verdict.Rejected? then Some(Validation(r.verdict.error)) else None)
  }

  function ReceiveAudio(c: Coordinator, e: Event, now: W.Ns): Done
    requires e.AudioDelta?
  {
    if W.IsCancelPending(c.watchdog, e.stream, e.utterance) then Verdict(c, e, now)
    else if W.AudioError(c.watchdog, e.stream, e.utterance, now).Some?
    then Fail(c, Watchdog(W.AudioError(c.watchdog, e.stream, e.utterance, now).value))
    else if !CanBuffer(c, e.stream, e.utterance, e.format.frameDurationMs) then Fail(c, ReceiveBufferFull)
    else
      var d := Verdict(c, e, now);
      if d.error.Some? then d
      else
        var a := W.RecordAudio(c.watchdog, e.stream, e.utterance, now);
        if a.error.Some? then Fail(d.coordinator, Watchdog(a.error.value))
        else
          var c1 := d.coordinator.(watchdog := a.watchdog);
          Ok(Buffered(c1, e.stream, e.utterance, e.pcm, e.format.frameDurationMs))
  }

  function ReceiveFinal(c: Coordinator, e: Event, now: W.Ns): Done
    requires e.UtteranceFinal?
  {
    if W.FinalError(c.watchdog, e.stream, e.utterance, e.outcome, now).Some?
    then Fail(c, Watchdog(W.FinalError(c.watchdog, e.stream, e.utterance, e.outcome, now).value))
    else
      var d := Verdict(c, e, now);
      if d.error.Some? then d
      else
        var f := if e.outcome.Unspecified? then W.Done(c.watchdog, None)
                 else W.FinishUtterance(c.watchdog, e.stream, e.utterance, e.outcome.Cancelled?);
        if f.error.Some? then Fail(d.coordinator, Watchdog(f.error.value))
        else
          var c1 := d.coordinator.(watchdog := f.watchdog);
          Ok(if e.outcome.Completed? then c1 else c1.(buffers := c.buffers - {(e.stream, e.utterance)}))
  }

  function ReceiveClosed(c: Coordinator, e: Event, now: W.Ns): Done {
    var d := Verdict(c, e, now);
    if d.error.Some? then d
    else
      var w := W.RecordSessionClosed(c.watchdog, e.header.session);
      if w.error.Some? then Fail(d.coordinator, Watchdog(w.error.value))
      else Ok(d.coordinator.(watchdog := w.watchdog, buffers := map[]))
  }

  function ValidateEvent(c: Coordinator, e: Event, now: W.Ns): Done {
    if !c.watchdog.phase.Active? && !e.SessionClosed? then Fail(c, Watchdog(W.SessionTerminal))
    else
      match e
      case AudioDelta(_, _, _, _, _, _, _) => ReceiveAudio(c, e, now)
      case UtteranceFinal(_, _, _, _, _) => ReceiveFinal(c, e, now)
      case SessionClosed(_) => ReceiveClosed(c, e, now)
      case _ => Verdict(c, e, now)
  }

  // ---- Deadlines ----

  /** A poll rings an alarm, or is refused because the validator knows better. */
  datatype PollOutcome = Rang(alarm: W.Alarm) | Refused
  datatype Polled = Polled(coordinator: Coordinator, outcome: PollOutcome)

  function BuffersOf(w: W.Watchdog, us: set<Uuid>): set<(Uuid, Uuid)> {
    set u <- us | u in w.utterances :: (w.utterances[u].stream, u)
  }

  function Poll(c: Coordinator, now: W.Ns): Polled {
    var p := W.Poll(c.watchdog, now);
    match p.alarm
    case Cancel(us) =>
      if exists u <- us :: V.CanRecordCancel(c.validator, u).Rejected? then Polled(c, Refused)
      else
        Polled(Coordinator(p.watchdog,
                           c.validator.(cancelPending := c.validator.cancelPending + us),
                           c.buffers - BuffersOf(c.watchdog, us)),
               Rang(p.alarm))
    case _ => Polled(c.(watchdog := p.watchdog, buffers := map[]), Rang(p.alarm))
  }

  function CancelExpiredUtterance(c: Coordinator, stream: Uuid, u: Uuid, now: W.Ns): Done {
    var d := W.CancelUtterance(c.watchdog, stream, u, now);
    if d.error.Some? then Fail(c, Watchdog(d.error.value))
    else
      var r := V.RecordCancelRequested(c.validator, u);
      if r.verdict.Rejected? then Fail(c, Validation(r.verdict.error))
      else Ok(Coordinator(d.watchdog, r.validator, c.buffers - {(stream, u)}))
  }
}

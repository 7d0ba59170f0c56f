/** What a direction plays over whole runs: for each utterance the audio numbered 0, 1, 2,
    ... with the bytes the provider sent, and nothing after it is cancelled or ended. */
module PlaybackRuns {
  import opened Wire
  import W = WatchdogModel
  import V = ValidatorModel
  import C = CoordinatorModel
  import K = Coupling
  import opened DirectionSessionModel

  datatype Op =
    | Capture(capture: CaptureEvent)
    | Provide(event: Event, at: W.Ns)
    | PollAt(at: W.Ns)

  function After(s: DirectionSession, op: Op): DirectionSession {
    match op
    case Capture(e) => HandleCapture(s, e).session
    case Provide(e, at) => HandleProviderEvent(s, e, at).session
    case PollAt(at) => Poll(s, at).session
  }

  function Run(contract: Contract, ops: seq<Op>): DirectionSession {
    if ops == [] then Fresh(contract) else After(Run(contract, ops[..|ops| - 1]), ops[|ops| - 1])
  }

  /** The effects of one step, when it is a provider event that was handled. */
  function Effects(s: DirectionSession, op: Op): seq<Effect> {
    if op.Provide? && HandleProviderEvent(s, op.event, op.at).result.Success?
    then HandleProviderEvent(s, op.event, op.at).result.value
    else []
  }

  function PlaybackIn(es: seq<Effect>, u: Uuid): (r: seq<Effect>)
    ensures forall p <- r :: p.Playback? && p.utterance == u
  {
    if es == [] then []
    else (if es[0].Playback? && es[0].utterance == u then [es[0]] else []) + PlaybackIn(es[1..], u)
  }

  /** Everything played for one utterance, in order. */
  function Played(contract: Contract, ops: seq<Op>, u: Uuid): (r: seq<Effect>)
    ensures forall p <- r :: p.Playback? && p.utterance == u
  {
    if ops == [] then []
    else
      var before := ops[..|ops| - 1];
      Played(contract, before, u) + PlaybackIn(Effects(Run(contract, before), ops[|ops| - 1]), u)
  }

  // ---- What one event does to the validator's audio numbers ----

  /** Audio numbers of every utterance but one are as they were. */
  ghost predicate NumbersBut(v: V.Validator, v': V.Validator, u: Uuid) {
    forall x :: x != u ==> Lookup(v'.wire, x) == Lookup(v.wire, x) && Lookup(v'.playable, x) == Lookup(v.playable, x)
  }

  /** What the verdict on audio says about its utterance. */
  ghost predicate AudioJudged(v: V.Validator, e: Event, r: V.Checked)
    requires e.AudioDelta?
  {
    && NumbersBut(v, r.validator, e.utterance)
    && (r.verdict.Accepted? ==>
          && e.utterance in v.capture && e.utterance !in v.cancelPending
          && LastOf(e.audioSequence) == Lookup(v.wire, e.utterance)
          && Lookup(r.validator.wire, e.utterance) == Lookup(r.validator.playable, e.utterance) == Some(e.audioSequence)
          && e.format == v.contract.outputFormat && |e.pcm| == e.format.FrameBytes())
    && (r.verdict.Rejected? ==> r.validator.playable == v.playable)
    && (r.verdict == V.Rejected(V.ExpiredAudio) ==> e.utterance in v.capture && e.utterance !in v.cancelPending)
    && (r.verdict.Rejected? && r.verdict.error !in {V.ExpiredAudio, V.CancelledAudio} ==> r.validator.wire == v.wire)
    && (r.verdict == V.Rejected(V.CancelledAudio) ==> e.utterance in v.cancelPending)
  }

  lemma AudioNumbers(v: V.Validator, e: Event, now: nat)
    requires e.AudioDelta?
    ensures AudioJudged(v, e, V.Validate(v, e, now))
  {
    FreshAudioJudged(v, e, now);
    LateAudioJudged(v, e);
    hide PcmFormat.FrameBytes, V.EnvelopeError, V.CheckAudio, V.CheckAfterCancel, NumbersBut;
    SequenceApart(v, e, V.CheckKind(v, e, now));
  }

  lemma FreshAudioJudged(v: V.Validator, e: Event, now: nat)
    requires e.AudioDelta?
    ensures e.utterance !in v.cancelPending ==>
            AudioJudged(v, e, V.CheckAudio(v.(pendingNoSpeechLatency := None), e, now))
  {
    hide PcmFormat.FrameBytes, V.TooLate, NumbersBut;
    var v1 := v.(pendingNoSpeechLatency := None);
    NumbersAt(v, v1, e.utterance, v.wire, v.playable);
    var wire := v.wire[e.utterance := e.audioSequence];
    var playable := v.playable[e.utterance := e.audioSequence];
    NumbersAt(v, V.Received(v1, e), e.utterance, wire, v.playable);
    NumbersAt(v, V.Received(v1, e).(playable := playable), e.utterance, wire, playable);
  }

  lemma NumbersAt(v: V.Validator, v': V.Validator, u: Uuid, wire: map<Uuid, nat>, playable: map<Uuid, nat>)
    requires v'.wire == wire && v'.playable == playable
    requires wire == v.wire || (u in wire && wire == v.wire[u := wire[u]])
    requires playable == v.playable || (u in playable && playable == v.playable[u := playable[u]])
    ensures NumbersBut(v, v', u)
  {}

  lemma LateAudioJudged(v: V.Validator, e: Event)
    requires e.AudioDelta?
    ensures e.utterance in v.cancelPending ==> AudioJudged(v, e, V.CheckAfterCancel(v, e, e.utterance))
    ensures NumbersBut(v, v, e.utterance)
  {
    hide PcmFormat.FrameBytes, NumbersBut;
    NumbersAt(v, v, e.utterance, v.wire, v.playable);
    NumbersAt(v, V.Received(v, e), e.utterance, v.wire[e.utterance := e.audioSequence], v.playable);
  }

  lemma SequenceApart(v: V.Validator, e: Event, r: V.Checked)
    requires e.AudioDelta?
    ensures AudioJudged(v, e, r) ==>
            AudioJudged(v, e, r.(validator := r.validator.(lastSequence := Some(e.header.sequence))))
  {
    hide PcmFormat.FrameBytes;
  }

  ghost predicate FinalJudged(v: V.Validator, e: Event, r: V.Checked)
    requires e.UtteranceFinal?
  {
    && (r.verdict.Rejected? ==> V.SameNumbers(v, r.validator))
    && (r.verdict.Accepted? ==>
          r.validator.wire == v.wire - {e.utterance} && r.validator.playable == v.playable - {e.utterance})
    && (r.verdict.Accepted? && e.outcome.Completed? ==> e.finalAudio == Lookup(v.playable, e.utterance))
  }

  lemma PlainEndNumbers(v: V.Validator, e: Event)
    requires e.UtteranceFinal?
    ensures FinalJudged(v, e, V.CancelledTerminal(v, e, e.utterance))
    ensures FinalJudged(v, e, V.CheckFinal(v.(pendingNoSpeechLatency := None), e))
  {
    hide V.Terminalize;
    TerminalizeNumbers(v, v.(cancelPending := v.cancelPending - {e.utterance}), e.utterance);
    TerminalizeNumbers(v, v.(pendingNoSpeechLatency := None), e.utterance);
  }

  lemma PendingEndNumbers(v: V.Validator, e: Event, x: Uuid)
    requires e.UtteranceFinal?
    ensures FinalJudged(v, e, V.OverflowTerminal(v, e, x)) && FinalJudged(v, e, V.NoSpeechTerminal(v, e, x))
  {
    hide V.Terminalize;
    TerminalizeNumbers(v, v.(pendingOverflow := None), e.utterance);
    TerminalizeNumbers(v, v.(pendingNoSpeech := None), e.utterance);
  }

  lemma TerminalizeNumbers(v: V.Validator, v': V.Validator, u: Uuid)
    requires V.SameNumbers(v, v')
    ensures var r := V.Terminalize(v', u);
            && (r.verdict.Rejected? ==> V.SameNumbers(v, r.validator))
            && (r.verdict.Accepted? ==> r.validator.wire == v.wire - {u} && r.validator.playable == v.playable - {u})
  {}

  lemma FinalNumbers(v: V.Validator, e: Event, now: nat)
    requires e.UtteranceFinal?
    ensures FinalJudged(v, e, V.Validate(v, e, now))
  {
    hide V.EnvelopeError, V.CancelledTerminal, V.OverflowTerminal, V.NoSpeechTerminal, V.CheckFinal;
    PlainEndNumbers(v, e);
    if v.pendingOverflow.Some? {
      PendingEndNumbers(v, e, v.pendingOverflow.value);
    } else if v.pendingNoSpeech.Some? {
      PendingEndNumbers(v, e, v.pendingNoSpeech.value);
    }
  }

  lemma RemarkKind(v: V.Validator, e: Event, now: nat)
    requires !e.UtteranceFinal? && !e.AudioDelta?
    ensures V.SameNumbers(v, V.CheckKind(v, e, now).validator)
  {
    hide V.Harmless, V.Late, V.CheckOpened, V.CheckText, V.CheckLatency, V.CheckHealth, V.CheckError;
    if e.Subject().Some? && e.Subject().value in v.cancelPending {
      hide V.OverflowTerminal, V.NoSpeechTerminal, V.Terminalize;
    } else {
      hide V.CheckAfterCancel, V.Terminalize;
    }
  }

  lemma RemarkNumbers(v: V.Validator, e: Event, now: nat)
    requires !e.UtteranceFinal? && !e.AudioDelta?
    ensures V.SameNumbers(v, V.Validate(v, e, now).validator)
  {
    hide V.EnvelopeError, V.CheckKind;
    RemarkKind(v, e, now);
  }

  // ---- Between calls, nothing is left in the buffers and both numberings agree ----

  /** Only open utterances have audio numbers or awaited cancellations. */
  ghost predicate Tidy(v: V.Validator) {
    v.wire.Keys <= v.capture.Keys && v.playable.Keys <= v.capture.Keys && v.cancelPending <= v.capture.Keys
  }

  /** What arrived is what was playable, for every utterance not being cancelled. */
  ghost predicate InStep(c: C.Coordinator) {
    c.watchdog.phase.Active? && !c.validator.closed ==>
      forall u :: u !in c.validator.cancelPending ==> Lookup(c.validator.wire, u) == Lookup(c.validator.playable, u)
  }

  ghost predicate Steady(c: C.Coordinator) {
    K.Inv(c) && c.buffers == map[] && Tidy(c.validator) && InStep(c)
  }

  ghost predicate SessionOk(s: DirectionSession) {
    && Steady(s.coordinator)
    && s.contract == s.coordinator.validator.contract
    && s.contract.outputFormat == PROVIDER_FORMAT
  }

  lemma StartSteady(c: C.Coordinator, stream: Uuid, u: Uuid, captureNs: W.Ns)
    requires Steady(c)
    ensures Steady(C.StartUtterance(c, stream, u, captureNs).coordinator)
  {
    K.StartKeepsInv(c, stream, u, captureNs);
    hide K.Inv;
  }

  lemma EndSteady(c: C.Coordinator, stream: Uuid, u: Uuid, now: W.Ns)
    requires Steady(c)
    ensures Steady(C.RecordEndOfUtterance(c, stream, u, now).coordinator)
  {
    K.EndKeepsInv(c, stream, u, now);
    hide K.Inv;
  }

  lemma PollSteady(c: C.Coordinator, now: W.Ns)
    requires Steady(c)
    ensures Steady(C.Poll(c, now).coordinator)
  {
    K.PollKeepsInv(c, now);
    if c.watchdog.phase.Active? && !c.validator.closed {
      assert W.Overdue(c.watchdog, now) <= c.watchdog.utterances.Keys;
    }
    assert forall us: set<(Uuid, Uuid)> :: c.buffers - us == map[];
    hide K.Inv, K.Coupled;
  }

  lemma VerdictSteady(c: C.Coordinator, e: Event, now: W.Ns)
    requires Steady(c) && !e.AudioDelta? && !(e.UtteranceFinal? && V.Validate(c.validator, e, now).verdict.Accepted?)
    ensures Steady(C.Verdict(c, e, now).coordinator)
  {
    hide V.Validate, K.Inv;
    K.VerdictKeepsInv(c, e, now);
    K.ValidateBooked(c.validator, e, now);
    if e.UtteranceFinal? {
      FinalNumbers(c.validator, e, now);
    } else {
      RemarkNumbers(c.validator, e, now);
    }
    BookedTidy(c.validator, e, V.Validate(c.validator, e, now));
  }

  lemma BookedTidy(v: V.Validator, e: Event, r: V.Checked)
    requires Tidy(v) && K.Booked(v, e, r) && V.SameNumbers(v, r.validator)
             && (r.verdict.Accepted? ==> !e.UtteranceFinal?)
    requires r.validator.cancelPending <= v.cancelPending
    ensures Tidy(r.validator)
  {}

  lemma FinalSteady(c: C.Coordinator, e: Event, now: W.Ns)
    requires Steady(c) && e.UtteranceFinal?
    ensures Steady(C.ReceiveFinal(c, e, now).coordinator)
  {
    hide V.Validate, K.Inv;
    if V.Validate(c.validator, e, now).verdict.Rejected? {
      VerdictSteady(c, e, now);
    } else if C.ReceiveFinal(c, e, now).error.None? {
      K.FinalKeepsInv(c, e, now);
      K.ValidateBooked(c.validator, e, now);
      FinalNumbers(c.validator, e, now);
      hide W.FinalError, W.FinishUtterance;
      assert c.buffers - {(e.stream, e.utterance)} == map[];
    } else {
      K.AcceptedCommits(c, e, now);
    }
  }

  lemma ClosedSteady(c: C.Coordinator, e: Event, now: W.Ns)
    requires Steady(c) && e.SessionClosed?
    ensures Steady(C.ReceiveClosed(c, e, now).coordinator)
  {
    hide V.Validate, K.Inv;
    K.ClosedKeepsInv(c, e, now);
    VerdictSteady(c, e, now);
  }

  /** Accepted audio, once consumed, leaves only the numbers behind. */
  lemma AudioSteady(c: C.Coordinator, e: Event, now: W.Ns)
    requires Steady(c) && e.AudioDelta? && c.watchdog.phase.Active? && C.ReceiveAudio(c, e, now).error.None?
    ensures var taken := C.ConsumeReceiveAudio(C.ReceiveAudio(c, e, now).coordinator, e.stream, e.utterance);
            taken.pcm == Some(e.pcm) && Steady(taken.coordinator)
            && taken.coordinator.validator == V.Validate(c.validator, e, now).validator
            && V.Validate(c.validator, e, now).verdict.Accepted?
  {
    hide V.Validate, K.Inv;
    AudioTaken(c, e, now);
    K.AudioKeepsInv(c, e, now);
    var c1 := C.ReceiveAudio(c, e, now).coordinator;
    var taken := C.ConsumeReceiveAudio(c1, e.stream, e.utterance);
    assert taken.coordinator.buffers == map[];
    K.BuffersApart(c1, taken.coordinator);
    K.ValidateBooked(c.validator, e, now);
    K.ClosedSaysSo(c.validator, e, now);
    AudioNumbers(c.validator, e, now);
    hide C.ReceiveAudio, PcmFormat.FrameBytes;
    var (v, v') := (c.validator, taken.coordinator.validator);
    forall u <- v'.wire ensures u in v'.capture {
      assert u != e.utterance ==> Lookup(v'.wire, u) == Lookup(v.wire, u);
    }
    forall u <- v'.playable ensures u in v'.capture {
      assert u != e.utterance ==> Lookup(v'.playable, u) == Lookup(v.playable, u);
    }
  }

  lemma AudioTaken(c: C.Coordinator, e: Event, now: W.Ns)
    requires K.Inv(c) && c.buffers == map[] && e.AudioDelta? && c.watchdog.phase.Active?
             && C.ReceiveAudio(c, e, now).error.None?
    ensures var c1 := C.ReceiveAudio(c, e, now).coordinator;
            && V.Validate(c.validator, e, now).verdict.Accepted?
            && c1.validator == V.Validate(c.validator, e, now).validator
            && c1.watchdog.phase.Active?
            && var ms := e.format.frameDurationMs;
               c1.buffers == map[(e.stream, e.utterance) := C.ReceiveBuffer([C.BufferedFrame(e.pcm, ms)], ms)]
  {
    hide V.Validate;
    if W.IsCancelPending(c.watchdog, e.stream, e.utterance) {
      K.CancelledAudioRefused(c, e, now);
    } else {
      assert C.BufferAt(c, e.stream, e.utterance) == C.ReceiveBuffer([], 0);
      assert [] + [C.BufferedFrame(e.pcm, e.format.frameDurationMs)] ==
             [C.BufferedFrame(e.pcm, e.format.frameDurationMs)];
    }
  }

  /** Refused audio leaves the session steady, unless it was too late. */
  lemma RefusedAudioSteady(c: C.Coordinator, e: Event, now: W.Ns)
    requires Steady(c) && e.AudioDelta? && c.watchdog.phase.Active?
    requires C.ReceiveAudio(c, e, now).error.Some?
    requires C.ReceiveAudio(c, e, now).error != Some(C.Validation(V.ExpiredAudio))
    ensures var c' := C.ReceiveAudio(c, e, now).coordinator;
            Steady(c') && c'.validator.playable == c.validator.playable
  {
    hide V.Validate, K.Inv;
    K.AcceptedCommits(c, e, now);
    K.AudioKeepsInv(c, e, now);
    K.ValidateBooked(c.validator, e, now);
    K.ClosedSaysSo(c.validator, e, now);
    AudioNumbers(c.validator, e, now);
    hide W.AudioError, W.RecordAudio, C.CanBuffer, C.Buffered, PcmFormat.FrameBytes;
    var (v, v') := (c.validator, C.ReceiveAudio(c, e, now).coordinator.validator);
    if V.Validate(v, e, now).verdict == V.Rejected(V.CancelledAudio) {
      forall u ensures u !in v'.cancelPending ==> Lookup(v'.wire, u) == Lookup(v'.playable, u) {
        assert u != e.utterance ==> Lookup(v'.wire, u) == Lookup(v.wire, u);
        assert u !in v.cancelPending ==> Lookup(v.wire, u) == Lookup(v.playable, u);
      }
      forall u <- v'.wire ensures u in v'.capture {
        assert u != e.utterance ==> Lookup(v'.wire, u) == Lookup(v.wire, u);
      }
    }
  }

  /** Audio that came too late is followed at once by its cancellation. */
  lemma ExpiredAudioSteady(c: C.Coordinator, e: Event, now: W.Ns)
    requires Steady(c) && e.AudioDelta? && c.watchdog.phase.Active?
    requires C.ReceiveAudio(c, e, now).error == Some(C.Validation(V.ExpiredAudio))
    ensures var d := C.CancelExpiredUtterance(C.ReceiveAudio(c, e, now).coordinator, e.stream, e.utterance, now);
            && d.error.None? && Steady(d.coordinator) && d.coordinator.validator.playable == c.validator.playable
            && d.coordinator.watchdog.phase.Active? && K.Over(d.coordinator, e.utterance)
  {
    hide V.Validate, K.Inv;
    K.AudioKeepsInv(c, e, now);
    K.AcceptedCommits(c, e, now);
    K.ValidateBooked(c.validator, e, now);
    K.ClosedSaysSo(c.validator, e, now);
    AudioNumbers(c.validator, e, now);
    if W.IsCancelPending(c.watchdog, e.stream, e.utterance) {
      K.CancelPendingAgrees(c, e.stream, e.utterance);
    }
    var c1 := C.ReceiveAudio(c, e, now).coordinator;
    K.CancelExpiredKeepsInv(c1, e.stream, e.utterance, now);
    K.DeadlinesNeverRefused(c1, e.stream, e.utterance, now);
    hide PcmFormat.FrameBytes;
    var (v, v') := (c.validator, c1.validator);
    forall u <- v'.wire ensures u in v'.capture {
      assert u != e.utterance ==> Lookup(v'.wire, u) == Lookup(v.wire, u);
    }
    assert c1.buffers - {(e.stream, e.utterance)} == map[];
  }

  // ---- One provider event at the session ----

  /** The event is audio and every check passed. */
  predicate Plays(s: DirectionSession, e: Event, now: W.Ns) {
    e.AudioDelta? && C.ValidateEvent(s.coordinator, e, now).error.None?
  }

  /** Audio that passes every check is played, with its own number and bytes; nothing
      else is ever played. */
  lemma PlaysItsOwnBytes(s: DirectionSession, e: Event, now: W.Ns)
    requires SessionOk(s)
    ensures var r := HandleProviderEvent(s, e, now);
            if Plays(s, e, now)
            then r.result == Success([Playback(e.stream, e.utterance, e.audioSequence, e.providerNs, e.pcm)])
                 && |e.pcm| == 640
            else r.result.Success? ==> forall p <- r.result.value :: !p.Playback?
  {
    if Plays(s, e, now) {
      AudioSteady(s.coordinator, e, now);
      AudioNumbers(s.coordinator.validator, e, now);
      assert PROVIDER_FORMAT.FrameBytes() == 640;
      hide V.Validate, Steady, C.ConsumeReceiveAudio, PcmFormat.FrameBytes;
    }
  }

  lemma ProvideOk(s: DirectionSession, e: Event, now: W.Ns)
    requires SessionOk(s)
    ensures SessionOk(HandleProviderEvent(s, e, now).session)
  {
    var c := s.coordinator;
    hide Steady, V.Validate;
    ContractStays(c, e, now);
    if e.AudioDelta? && c.watchdog.phase.Active? {
      ProvideAudioOk(s, e, now);
    } else if e.UtteranceFinal? {
      FinalSteady(c, e, now);
      hide C.ReceiveFinal;
    } else if e.SessionClosed? {
      ClosedSteady(c, e, now);
      hide C.ReceiveClosed;
    } else if !e.AudioDelta? {
      VerdictSteady(c, e, now);
    }
  }

  lemma ContractStays(c: C.Coordinator, e: Event, now: W.Ns)
    ensures C.ValidateEvent(c, e, now).coordinator.validator.contract == c.validator.contract
    ensures !e.AudioDelta? ==> C.ValidateEvent(c, e, now).error != Some(C.Validation(V.ExpiredAudio))
    ensures !e.AudioDelta? ==> C.ValidateEvent(c, e, now).error != Some(C.Validation(V.CancelledAudio))
  {
    hide V.Validate;
    K.ValidateBooked(c.validator, e, now);
    if !e.AudioDelta? {
      OnlyAudioIsLate(c.validator, e, now);
    }
  }

  lemma EndingNotLate(v: V.Validator, e: Event, x: Uuid)
    requires !e.AudioDelta?
    ensures !V.Late(V.CheckAfterCancel(v, e, x)) && !V.Late(V.OverflowTerminal(v, e, x))
            && !V.Late(V.NoSpeechTerminal(v, e, x))
    ensures e.UtteranceFinal? ==> !V.Late(V.CheckFinal(v, e))
  {}

  lemma OnlyAudioIsLate(v: V.Validator, e: Event, now: nat)
    requires !e.AudioDelta?
    ensures !V.Late(V.Validate(v, e, now))
  {
    hide V.EnvelopeError, V.CheckOpened, V.CheckText, V.CheckLatency, V.CheckHealth, V.CheckError,
         V.CheckAfterCancel, V.OverflowTerminal, V.NoSpeechTerminal, V.CheckFinal, V.Harmless;
    if e.Subject().Some? && e.Subject().value in v.cancelPending {
      EndingNotLate(v, e, e.Subject().value);
    } else if v.pendingOverflow.Some? {
      EndingNotLate(v, e, v.pendingOverflow.value);
    } else if v.pendingNoSpeech.Some? {
      EndingNotLate(v, e, v.pendingNoSpeech.value);
    } else if e.UtteranceFinal? {
      EndingNotLate(v.(pendingNoSpeechLatency := None), e, e.utterance);
    }
  }

  lemma ProvideAudioOk(s: DirectionSession, e: Event, now: W.Ns)
    requires SessionOk(s) && e.AudioDelta? && s.coordinator.watchdog.phase.Active?
    ensures SessionOk(HandleProviderEvent(s, e, now).session)
  {
    var c := s.coordinator;
    hide Steady, V.Validate, PcmFormat.FrameBytes;
    ContractStays(c, e, now);
    var d := C.ReceiveAudio(c, e, now);
    hide C.ReceiveAudio;
    if d.error.None? {
      AudioSteady(c, e, now);
    } else if d.error == Some(C.Validation(V.ExpiredAudio)) {
      ExpiredAudioSteady(c, e, now);
    } else {
      RefusedAudioSteady(c, e, now);
    }
  }

  lemma CaptureOk(s: DirectionSession, e: CaptureEvent)
    requires SessionOk(s)
    ensures SessionOk(HandleCapture(s, e).session)
  {
    hide Steady;
    match e
    case SpeechStarted(stream, u, captureNs) => StartSteady(s.coordinator, stream, u, captureNs);
    case CaptureFrame(stream, u, frame, end) => EndSteady(s.coordinator, stream, u, frame.captureNs);
  }

  lemma PollOk(s: DirectionSession, now: W.Ns)
    requires SessionOk(s)
    ensures SessionOk(Poll(s, now).session)
  {
    hide Steady;
    PollSteady(s.coordinator, now);
  }

  lemma AfterOk(s: DirectionSession, op: Op)
    requires SessionOk(s)
    ensures SessionOk(After(s, op))
  {
    hide SessionOk, HandleCapture, HandleProviderEvent, Poll;
    match op
    case Capture(e) => CaptureOk(s, e);
    case Provide(e, at) => ProvideOk(s, e, at);
    case PollAt(at) => PollOk(s, at);
  }

  lemma {:induction false} RunOk(contract: Contract, ops: seq<Op>)
    requires contract.outputFormat == PROVIDER_FORMAT
    ensures SessionOk(Run(contract, ops))
  {
    hide SessionOk, After;
    if ops == [] {
      FreshOk(contract);
    } else {
      RunOk(contract, ops[..|ops| - 1]);
      AfterOk(Run(contract, ops[..|ops| - 1]), ops[|ops| - 1]);
    }
  }

  lemma FreshOk(contract: Contract)
    requires contract.outputFormat == PROVIDER_FORMAT
    ensures SessionOk(Fresh(contract))
  {}

  // ---- The numbers played so far are the validator's ----

  ghost predicate Linked(v: V.Validator, played: seq<Effect>, u: Uuid) {
    && (forall i :: 0 <= i < |played| ==> played[i].Playback? && played[i].sequence == i)
    && (u in v.capture ==> Lookup(v.playable, u) == LastOf(|played|))
    && (u !in v.capture && u !in v.terminal ==> played == [])
  }

  /** A step that plays nothing for the utterance and does not make it start over. */
  ghost predicate Leaves(v: V.Validator, v': V.Validator, u: Uuid) {
    && (u in v'.capture ==> (u in v.capture || u !in v.terminal) && Lookup(v'.playable, u) == Lookup(v.playable, u))
    && (u in v.capture && u !in v'.capture ==> u in v'.terminal)
    && (u in v.terminal ==> u in v'.terminal)
  }

  lemma LinkedStays(v: V.Validator, v': V.Validator, played: seq<Effect>, u: Uuid)
    requires Linked(v, played, u) && Leaves(v, v', u) && Tidy(v)
    ensures Linked(v', played, u)
  {}

  lemma CaptureLeaves(s: DirectionSession, e: CaptureEvent, u: Uuid)
    requires SessionOk(s)
    ensures Leaves(s.coordinator.validator, HandleCapture(s, e).session.coordinator.validator, u)
  {}

  lemma PollLeaves(s: DirectionSession, now: W.Ns, u: Uuid)
    ensures Leaves(s.coordinator.validator, Poll(s, now).session.coordinator.validator, u)
  {}

  lemma ProvideLeaves(s: DirectionSession, e: Event, now: W.Ns, u: Uuid)
    requires SessionOk(s) && !(Plays(s, e, now) && e.utterance == u)
    ensures Leaves(s.coordinator.validator, HandleProviderEvent(s, e, now).session.coordinator.validator, u)
  {
    var c := s.coordinator;
    hide Steady, V.Validate;
    var r := V.Validate(c.validator, e, now);
    K.ValidateBooked(c.validator, e, now);
    if e.AudioDelta? {
      AudioNumbers(c.validator, e, now);
      AudioLeaves(s, e, now, u);
    } else {
      ContractStays(c, e, now);
      if e.UtteranceFinal? {
        FinalNumbers(c.validator, e, now);
      } else {
        RemarkNumbers(c.validator, e, now);
      }
      ValidatorAfter(s, e, now);
    }
  }

  lemma ValidatorAfter(s: DirectionSession, e: Event, now: W.Ns)
    requires !e.AudioDelta?
    ensures var v' := HandleProviderEvent(s, e, now).session.coordinator.validator;
            v' == s.coordinator.validator || v' == V.Validate(s.coordinator.validator, e, now).validator
  {
    hide V.Validate;
    ContractStays(s.coordinator, e, now);
  }

  /** The validator after audio: untouched, or as it judged, perhaps with a cancellation recorded. */
  lemma AudioAfter(s: DirectionSession, e: Event, now: W.Ns)
    requires SessionOk(s) && e.AudioDelta?
    ensures var v' := HandleProviderEvent(s, e, now).session.coordinator.validator;
            v' == s.coordinator.validator
            || v' == V.Validate(s.coordinator.validator, e, now).validator.(cancelPending := v'.cancelPending)
  {
    hide Steady, V.Validate, PcmFormat.FrameBytes, HandleRefused, HandleAudio, C.ValidateEvent;
    var c := s.coordinator;
    SteadyInv(c);
    VerdictAfter(c, e, now);
    var d := C.ValidateEvent(c, e, now);
    var s1 := s.(coordinator := d.coordinator);
    if d.error.Some? {
      RefusedAfter(s1, e, now, d.error.value);
    } else {
      TakenAfter(s1, e);
    }
  }

  lemma VerdictAfter(c: C.Coordinator, e: Event, now: W.Ns)
    requires K.Inv(c) && e.AudioDelta?
    ensures var v' := C.ValidateEvent(c, e, now).coordinator.validator;
            && (v' == c.validator || v' == V.Validate(c.validator, e, now).validator)
            && (C.ValidateEvent(c, e, now).error == Some(C.Validation(V.ExpiredAudio)) ==>
                  v' == V.Validate(c.validator, e, now).validator)
  {
    hide V.Validate, K.Inv;
  }

  lemma RefusedAfter(s: DirectionSession, e: Event, now: W.Ns, error: C.CoordinatorError)
    ensures var (v, v') := (s.coordinator.validator, HandleRefused(s, e, now, error).session.coordinator.validator);
            v' == v.(cancelPending := v'.cancelPending)
            && (error != C.Validation(V.ExpiredAudio) ==> v' == v)
  {}

  lemma TakenAfter(s: DirectionSession, e: Event)
    requires e.AudioDelta?
    ensures HandleAudio(s, e).session.coordinator.validator == s.coordinator.validator
  {
    hide PcmFormat.FrameBytes;
  }

  lemma AudioLeaves(s: DirectionSession, e: Event, now: W.Ns, u: Uuid)
    requires SessionOk(s) && e.AudioDelta? && !(Plays(s, e, now) && e.utterance == u)
    ensures Leaves(s.coordinator.validator, HandleProviderEvent(s, e, now).session.coordinator.validator, u)
  {
    var c := s.coordinator;
    hide Steady, V.Validate, PcmFormat.FrameBytes;
    AudioAfter(s, e, now);
    K.ValidateBooked(c.validator, e, now);
    AudioNumbers(c.validator, e, now);
    if V.Validate(c.validator, e, now).verdict.Accepted? && e.utterance == u {
      NotPlayedUntouched(s, e, now);
    }
    hide HandleProviderEvent, Plays;
  }

  /** Audio the validator would accept is played, unless something else refused it first. */
  lemma NotPlayedUntouched(s: DirectionSession, e: Event, now: W.Ns)
    requires SessionOk(s) && e.AudioDelta? && !Plays(s, e, now)
    requires V.Validate(s.coordinator.validator, e, now).verdict.Accepted?
    ensures HandleProviderEvent(s, e, now).session.coordinator.validator == s.coordinator.validator
  {
    hide Steady, V.Validate, PcmFormat.FrameBytes;
    SteadyInv(s.coordinator);
    K.AcceptedCommits(s.coordinator, e, now);
    VerdictErrorOnly(s.coordinator, e, now);
    hide C.ValidateEvent;
  }

  lemma VerdictErrorOnly(c: C.Coordinator, e: Event, now: W.Ns)
    requires V.Validate(c.validator, e, now).verdict.Accepted?
    ensures C.ValidateEvent(c, e, now).error.Some? ==> !C.ValidateEvent(c, e, now).error.value.Validation?
  {
    hide V.Validate;
  }

  lemma SteadyInv(c: C.Coordinator)
    requires Steady(c)
    ensures K.Inv(c) && Tidy(c.validator)
  {}

  lemma PlaysNext(s: DirectionSession, e: Event, now: W.Ns, played: seq<Effect>)
    requires SessionOk(s) && Plays(s, e, now) && Linked(s.coordinator.validator, played, e.utterance)
    ensures e.audioSequence == |played|
    ensures var v' := HandleProviderEvent(s, e, now).session.coordinator.validator;
            e.utterance in v'.capture && Lookup(v'.playable, e.utterance) == Some(e.audioSequence)
  {
    var c := s.coordinator;
    hide V.Validate, PcmFormat.FrameBytes, K.Inv;
    K.ValidateBooked(c.validator, e, now);
    K.ClosedSaysSo(c.validator, e, now);
    AudioNumbers(c.validator, e, now);
    AudioSteady(c, e, now);
    PlaysItsOwnBytes(s, e, now);
    hide C.ReceiveAudio, C.ConsumeReceiveAudio;
    assert Lookup(c.validator.wire, e.utterance) == Lookup(c.validator.playable, e.utterance);
  }

  // ---- Whole runs ----

  lemma {:induction false} PlaybackInNone(es: seq<Effect>, u: Uuid)
    requires forall p <- es :: !(p.Playback? && p.utterance == u)
    ensures PlaybackIn(es, u) == []
  {
    if es != [] {
      PlaybackInNone(es[1..], u);
    }
  }

  lemma StepLinked(s: DirectionSession, op: Op, played: seq<Effect>, u: Uuid)
    requires SessionOk(s) && Linked(s.coordinator.validator, played, u)
    ensures Linked(After(s, op).coordinator.validator, played + PlaybackIn(Effects(s, op), u), u)
  {
    hide PlaybackIn, HandleProviderEvent, HandleCapture, Poll, SessionOk, Linked, C.ValidateEvent;
    if op.Provide? && Plays(s, op.event, op.at) && op.event.utterance == u {
      PlayedLinked(s, op.event, op.at, played);
    } else {
      StepLeaves(s, op, u);
      TidyOf(s);
      LinkedStays(s.coordinator.validator, After(s, op).coordinator.validator, played, u);
      assert played + [] == played;
    }
  }

  lemma TidyOf(s: DirectionSession)
    requires SessionOk(s)
    ensures Tidy(s.coordinator.validator)
  {}

  /** A step that plays nothing for the utterance. */
  lemma StepLeaves(s: DirectionSession, op: Op, u: Uuid)
    requires SessionOk(s) && !(op.Provide? && Plays(s, op.event, op.at) && op.event.utterance == u)
    ensures Leaves(s.coordinator.validator, After(s, op).coordinator.validator, u)
    ensures PlaybackIn(Effects(s, op), u) == []
  {
    hide PlaybackIn, HandleProviderEvent, HandleCapture, Poll, SessionOk, Plays, Leaves;
    match op {
      case Capture(e) => CaptureLeaves(s, e, u);
      case Provide(e, at) => ProvideLeaves(s, e, at, u); PlaysItsOwnBytes(s, e, at);
      case PollAt(at) => PollLeaves(s, at, u);
    }
    PlaybackInNone(Effects(s, op), u);
  }

  lemma PlayedLinked(s: DirectionSession, e: Event, at: W.Ns, played: seq<Effect>)
    requires SessionOk(s) && Plays(s, e, at) && Linked(s.coordinator.validator, played, e.utterance)
    ensures Linked(HandleProviderEvent(s, e, at).session.coordinator.validator,
                   played + PlaybackIn(Effects(s, Provide(e, at)), e.utterance), e.utterance)
  {
    hide PlaybackIn, HandleProviderEvent, SessionOk, C.ValidateEvent;
    PlaysItsOwnBytes(s, e, at);
    PlaysNext(s, e, at, played);
    OnePlayback(Playback(e.stream, e.utterance, e.audioSequence, e.providerNs, e.pcm));
  }

  lemma OnePlayback(p: Effect)
    requires p.Playback?
    ensures PlaybackIn([p], p.utterance) == [p]
  {
    assert [p][1..] == [];
  }

  lemma {:induction false} RunLinked(contract: Contract, ops: seq<Op>, u: Uuid)
    requires contract.outputFormat == PROVIDER_FORMAT
    ensures Linked(Run(contract, ops).coordinator.validator, Played(contract, ops, u), u)
  {
    if ops != [] {
      var before := ops[..|ops| - 1];
      hide SessionOk, After, Effects, PlaybackIn, Linked;
      RunLinked(contract, before, u);
      RunOk(contract, before);
      StepLinked(Run(contract, before), ops[|ops| - 1], Played(contract, before, u), u);
    }
  }

  /** Over every run, the playback of an utterance is numbered 0, 1, 2, ... in order. */
  lemma PlaybackInOrder(contract: Contract, ops: seq<Op>, u: Uuid, i: nat)
    requires contract.outputFormat == PROVIDER_FORMAT && i < |Played(contract, ops, u)|
    ensures Played(contract, ops, u)[i].sequence == i
  {
    hide Run;
    RunLinked(contract, ops, u);
  }

  /** Over every run, an utterance that completes names the last audio played for it, or
      none when nothing was played. */
  lemma CompletedNamesLastPlayed(contract: Contract, ops: seq<Op>, e: Event, now: W.Ns)
    requires contract.outputFormat == PROVIDER_FORMAT
    requires e.UtteranceFinal?
    requires TerminalOutcome(e.utterance, Completed) in Effects(Run(contract, ops), Provide(e, now))
    ensures e.finalAudio == LastOf(|Played(contract, ops, e.utterance)|)
  {
    hide Run, V.Validate, Played;
    RunLinked(contract, ops, e.utterance);
    RunOk(contract, ops);
    var c := Run(contract, ops).coordinator;
    SteadyInv(c);
    ContractStays(c, e, now);
    CompletedFinal(c, e, now);
  }

  lemma CompletedFinal(c: C.Coordinator, e: Event, now: W.Ns)
    requires K.Inv(c) && e.UtteranceFinal? && e.outcome.Completed? && C.ValidateEvent(c, e, now).error.None?
    ensures e.utterance in c.validator.capture && e.finalAudio == Lookup(c.validator.playable, e.utterance)
  {
    hide V.Validate;
    K.AcceptedCommits(c, e, now);
    K.FinalKeepsInv(c, e, now);
    FinalNumbers(c.validator, e, now);
    assert e.utterance in c.watchdog.utterances.Keys;
  }

  /** The step cancels the utterance or ends it. */
  predicate Silences(s: DirectionSession, op: Op, u: Uuid) {
    || (op.PollAt? && Poll(s, op.at).outcome.Rang? && Poll(s, op.at).outcome.alarm.Cancel?
        && u in Poll(s, op.at).outcome.alarm.utterances)
    || (exists p <- Effects(s, op) ::
          p == ExpiredAudio(u, CancelRequest(u)) || (p.TerminalOutcome? && p.utterance == u))
  }

  lemma SilencedIsOver(s: DirectionSession, op: Op, u: Uuid)
    requires SessionOk(s) && Silences(s, op, u)
    ensures K.Over(After(s, op).coordinator, u)
  {
    hide V.Validate;
    var c := s.coordinator;
    SteadyInv(c);
    if op.PollAt? {
      K.EndsOnce(c, K.PollAt(op.at), u);
    } else {
      var e := op.event;
      ContractStays(c, e, op.at);
      PlaysItsOwnBytes(s, e, op.at);
      if e.AudioDelta? {
        hide Steady;
        ExpiredAudioSteady(c, e, op.at);
        hide C.ReceiveAudio;
      } else {
        K.EndsOnce(c, K.Receive(e, op.at), u);
      }
    }
  }

  lemma CaptureOver(s: DirectionSession, e: CaptureEvent, u: Uuid)
    requires SessionOk(s) && K.Over(s.coordinator, u)
    ensures K.Over(HandleCapture(s, e).session.coordinator, u)
  {
    hide Steady, K.Over;
    SteadyInv(s.coordinator);
    match e
    case SpeechStarted(stream, x, captureNs) => K.OverStays(s.coordinator, K.Start(stream, x, captureNs), u);
    case CaptureFrame(stream, x, frame, end) =>
      K.OverStays(s.coordinator, K.EndOfUtterance(stream, x, frame.captureNs), u);
  }

  lemma ProvideOver(s: DirectionSession, e: Event, at: W.Ns, u: Uuid)
    requires SessionOk(s) && K.Over(s.coordinator, u)
    ensures K.Over(HandleProviderEvent(s, e, at).session.coordinator, u)
  {
    hide Steady, K.Over, K.Inv, C.ValidateEvent, PcmFormat.FrameBytes;
    var c := s.coordinator;
    SteadyInv(c);
    K.OverStays(c, K.Receive(e, at), u);
    var c1 := C.ValidateEvent(c, e, at).coordinator;
    K.EventKeepsInv(c, e, at);
    if e.AudioDelta? {
      K.OverStays(c1, K.CancelExpired(e.stream, e.utterance, at), u);
      K.OverStays(c1, K.Consume(e.stream, e.utterance), u);
    }
    hide C.CancelExpiredUtterance, C.ConsumeReceiveAudio;
  }

  lemma AfterOver(s: DirectionSession, op: Op, u: Uuid)
    requires SessionOk(s) && K.Over(s.coordinator, u)
    ensures K.Over(After(s, op).coordinator, u)
  {
    hide Steady, K.Over, HandleCapture, HandleProviderEvent;
    match op
    case Capture(e) => CaptureOver(s, e, u);
    case Provide(e, at) => ProvideOver(s, e, at, u);
    case PollAt(at) =>
      SteadyInv(s.coordinator);
      K.OverStays(s.coordinator, K.PollAt(at), u);
      hide C.Poll;
  }

  /** Only an utterance that has neither ended nor been cancelled is played. */
  lemma PlaysOnlyLive(s: DirectionSession, e: Event, now: W.Ns)
    requires SessionOk(s) && Plays(s, e, now)
    ensures !K.Over(s.coordinator, e.utterance)
  {
    hide V.Validate, PcmFormat.FrameBytes;
    var c := s.coordinator;
    AudioNumbers(c.validator, e, now);
    K.ClosedSaysSo(c.validator, e, now);
    AudioTaken(c, e, now);
    assert e.utterance in c.validator.capture.Keys;
  }

  lemma OverPlaysNothing(s: DirectionSession, op: Op, u: Uuid)
    requires SessionOk(s) && K.Over(s.coordinator, u)
    ensures PlaybackIn(Effects(s, op), u) == []
  {
    hide SessionOk, HandleProviderEvent, K.Over;
    if op.Provide? {
      PlaysItsOwnBytes(s, op.event, op.at);
      if Plays(s, op.event, op.at) {
        PlaysOnlyLive(s, op.event, op.at);
      }
    }
    PlaybackInNone(Effects(s, op), u);
  }

  lemma {:induction false} OverFrom(contract: Contract, ops: seq<Op>, i: nat, j: nat, u: Uuid)
    requires contract.outputFormat == PROVIDER_FORMAT && i <= j <= |ops|
             && K.Over(Run(contract, ops[..i]).coordinator, u)
    ensures K.Over(Run(contract, ops[..j]).coordinator, u)
    decreases j
  {
    hide Run, After, SessionOk, K.Over;
    if i < j {
      OverFrom(contract, ops, i, j - 1, u);
      RunMore(contract, ops, j);
      RunOk(contract, ops[..j - 1]);
      AfterOver(Run(contract, ops[..j - 1]), ops[j - 1], u);
    }
  }

  lemma RunMore(contract: Contract, ops: seq<Op>, j: nat)
    requires 0 < j <= |ops|
    ensures Run(contract, ops[..j]) == After(Run(contract, ops[..j - 1]), ops[j - 1])
  {
    hide After;
    assert ops[..j][..j - 1] == ops[..j - 1];
  }

  /** Over every run, nothing is played for an utterance once it was cancelled or ended. */
  lemma SilenceAfterEnd(contract: Contract, ops: seq<Op>, i: nat, j: nat, u: Uuid)
    requires contract.outputFormat == PROVIDER_FORMAT && i < j < |ops| && Silences(Run(contract, ops[..i]), ops[i], u)
    ensures PlaybackIn(Effects(Run(contract, ops[..j]), ops[j]), u) == []
  {
    hide Run, After, SessionOk, K.Over, Silences, PlaybackIn, Effects;
    RunOk(contract, ops[..i]);
    RunOk(contract, ops[..j]);
    RunMore(contract, ops, i + 1);
    SilencedIsOver(Run(contract, ops[..i]), ops[i], u);
    OverFrom(contract, ops, i + 1, j, u);
    OverPlaysNothing(Run(contract, ops[..j]), ops[j], u);
  }
}

/** A direction session as the daemon keeps it, on top of its stream coordinator. */
module DirectionRuntime {
  import opened Wire
  import W = WatchdogModel
  import V = ValidatorModel
  import C = CoordinatorModel
  import D = DirectionSessionModel
  import opened DirectionSessionModel
  import opened StreamCoordinator

  class Direction {
    const contract: Contract
    const coordinator: ProviderStreamCoordinator
    var nextInput: nat
    var collecting: Option<Uuid>
    var active: set<Uuid>

    function View(): DirectionSession
      reads this, coordinator, coordinator.watchdog, coordinator.validator
    {
      DirectionSession(contract, coordinator.View(), nextInput, collecting, active)
    }

    constructor (contract: Contract)
      ensures View() == D.Fresh(contract) && fresh(coordinator) && fresh(coordinator.watchdog)
              && fresh(coordinator.validator)
    {
      this.contract := contract;
      coordinator := new ProviderStreamCoordinator(contract);
      nextInput, collecting, active := 0, None, {};
    }

    method HandleStarted(stream: Uuid, u: Uuid, captureNs: W.Ns) returns (result: Result<Option<Request>>)
      modifies this, coordinator, coordinator.watchdog, coordinator.validator
      ensures Reply(View(), result) == D.HandleStarted(old(View()), stream, u, captureNs)
    {
      hide C.StartUtterance;
      if stream != contract.stream {
        return Failure(StreamMismatch);
      }
      if collecting.Some? || u in active {
        return Failure(InvalidCaptureState);
      }
      active := active + {u};
      var error := coordinator.StartUtterance(stream, u, captureNs);
      if error.Some? {
        return Failure(CoordinatorFailed(error.value));
      }
      collecting := Some(u);
      return Success(None);
    }

    method HandleFrame(stream: Uuid, u: Uuid, frame: PcmFrame, end: bool) returns (result: Result<Option<Request>>)
      modifies this, coordinator, coordinator.watchdog, coordinator.validator
      ensures Reply(View(), result) == D.HandleFrame(old(View()), stream, u, frame, end)
    {
      hide C.RecordEndOfUtterance;
      if stream != contract.stream {
        return Failure(StreamMismatch);
      }
      if collecting != Some(u) {
        return Failure(InvalidCaptureState);
      }
      var request := InputFrame(stream, u, nextInput, frame.captureNs, frame.format, frame.pcm, end);
      if end {
        var error := coordinator.RecordEndOfUtterance(stream, u, frame.captureNs);
        if error.Some? {
          return Failure(CoordinatorFailed(error.value));
        }
        collecting := None;
      }
      nextInput := NextInput(nextInput);
      return Success(Some(request));
    }

    method HandleCapture(e: CaptureEvent) returns (result: Result<Option<Request>>)
      modifies this, coordinator, coordinator.watchdog, coordinator.validator
      ensures Reply(View(), result) == D.HandleCapture(old(View()), e)
    {
      hide D.HandleStarted, D.HandleFrame;
      match e
      case SpeechStarted(stream, u, captureNs) => result := HandleStarted(stream, u, captureNs);
      case CaptureFrame(stream, u, frame, end) => result := HandleFrame(stream, u, frame, end);
    }

    method HandleRefused(e: Event, now: W.Ns, error: C.CoordinatorError) returns (result: Result<seq<Effect>>)
      modifies this, coordinator, coordinator.watchdog, coordinator.validator
      ensures Reply(View(), result) == D.HandleRefused(old(View()), e, now, error)
    {
      hide C.CancelExpiredUtterance;
      if error == C.Validation(V.CancelledAudio) {
        return Success([]);
      }
      if error == C.Validation(V.ExpiredAudio) && e.AudioDelta? {
        var failed := coordinator.CancelExpiredUtterance(e.stream, e.utterance, now);
        if failed.Some? {
          return Failure(CoordinatorFailed(failed.value));
        }
        return Success([ExpiredAudio(e.utterance, CancelRequest(e.utterance))]);
      }
      return Failure(CoordinatorFailed(error));
    }

    method HandleAudio(e: Event) returns (result: Result<seq<Effect>>)
      requires e.AudioDelta?
      modifies this, coordinator, coordinator.watchdog, coordinator.validator
      ensures Reply(View(), result) == D.HandleAudio(old(View()), e)
    {
      hide C.ConsumeReceiveAudio, PcmFormat.FrameBytes;
      var pcm := coordinator.ConsumeReceiveAudio(e.stream, e.utterance);
      if pcm.None? {
        return Failure(CoordinatorFailed(C.ReceiveBufferEmpty));
      }
      if |pcm.value| != PROVIDER_FORMAT.FrameBytes() {
        return Failure(InvalidProviderAudio);
      }
      return Success([Playback(e.stream, e.utterance, e.audioSequence, e.providerNs, pcm.value)]);
    }

    method HandleAccepted(e: Event) returns (result: Result<seq<Effect>>)
      modifies this, coordinator, coordinator.watchdog, coordinator.validator
      ensures Reply(View(), result) == D.HandleAccepted(old(View()), e)
    {
      hide D.HandleAudio;
      match e
      case AudioDelta(_, _, _, _, _, _, _) =>
        result := HandleAudio(e);
      case UtteranceFinal(_, _, u, _, outcome) =>
        active := active - {u};
        result := Success([TerminalOutcome(u, outcome), TerminalReached(u)]);
      case SessionClosed(_) =>
        active, collecting := {}, None;
        result := Success([Closed]);
      case TranscriptDelta(_, _, u, isFinal) => result := Success(if isFinal then [TranscriptFinal(u)] else []);
      case TranslationDelta(_, _, u, isFinal) => result := Success(if isFinal then [TranslationFinal(u)] else []);
      case Latency(_, _, about, _, _, _, tts, total) => result := Success([LatencyNoted(about, tts, total)]);
      case Error(_, _, about, code) => result := Success([ProviderFailed(about, code)]);
      case _ => result := Success([]);
    }

    method HandleProviderEvent(e: Event, now: W.Ns) returns (result: Result<seq<Effect>>)
      modifies this, coordinator, coordinator.watchdog, coordinator.validator
      ensures Reply(View(), result) == D.HandleProviderEvent(old(View()), e, now)
    {
      hide C.ValidateEvent, D.HandleRefused, D.HandleAccepted;
      var error := coordinator.ValidateEvent(e, now);
      if error.Some? {
        result := HandleRefused(e, now, error.value);
      } else {
        result := HandleAccepted(e);
      }
    }

    method Poll(now: W.Ns) returns (outcome: C.PollOutcome)
      modifies this, coordinator, coordinator.watchdog, coordinator.validator
      ensures PollReply(View(), outcome) == D.Poll(old(View()), now)
    {
      hide C.Poll;
      outcome := coordinator.Poll(now);
      if outcome.Rang? && outcome.alarm.Cancel? && collecting.Some? && collecting.value in outcome.alarm.utterances {
        collecting := None;
      }
    }
  }
}

/** One provider stream as the daemon keeps it: the validator and the watchdog are objects
    of their own, updated one after the other, and a poll the validator objects to is rolled
    back. */
module StreamCoordinator {
  import opened Wire
  import W = WatchdogModel
  import V = ValidatorModel
  import C = CoordinatorModel
  import opened CoordinatorModel
  import opened ProviderWatchdog
  import opened ProviderValidator

  class ProviderStreamCoordinator {
    const watchdog: ProviderAudioWatchdog
    const validator: ProviderEventValidator
    var buffers: map<(Uuid, Uuid), ReceiveBuffer>

    function View(): Coordinator
      reads this, watchdog, validator
    {
      Coordinator(watchdog.View(), validator.View(), buffers)
    }

    constructor (contract: Contract)
      ensures View() == C.Fresh(contract) && fresh(watchdog) && fresh(validator)
    {
      watchdog := new ProviderAudioWatchdog(contract.session);
      validator := new ProviderEventValidator(contract);
      buffers := map[];
    }

    method StartUtterance(stream: Uuid, u: Uuid, captureNs: W.Ns) returns (error: Option<CoordinatorError>)
      modifies watchdog, validator
      ensures Done(View(), error) == C.StartUtterance(old(View()), stream, u, captureNs)
    {
      hide W.StartUtterance, V.RecordInput, W.DisarmUtterance;
      var refused := watchdog.StartUtterance(stream, u, captureNs);
      StartRefused(old(watchdog.View()), stream, u, captureNs);
      if refused.Some? {
        return Some(Watchdog(refused.value));
      }
      var verdict := validator.RecordInput(u, captureNs);
      if verdict.Rejected? {
        RecordInputRefused(old(validator.View()), u, captureNs);
        var _ := watchdog.DisarmUtterance(stream, u);
        return Some(Validation(verdict.error));
      }
      return None;
    }

    method RecordEndOfUtterance(stream: Uuid, u: Uuid, now: W.Ns) returns (error: Option<CoordinatorError>)
      modifies watchdog, validator
      ensures Done(View(), error) == C.RecordEndOfUtterance(old(View()), stream, u, now)
    {
      var refused := watchdog.RecordEndOfUtterance(stream, u, now);
      if refused.Some? {
        return Some(Watchdog(refused.value));
      }
      var verdict := validator.RecordEndOfUtterance(u, now);
      return if verdict.Rejected? then Some(Validation(verdict.error)) else None;
    }

    // ---- Receive buffers ----

    method Buffer(stream: Uuid, u: Uuid, pcm: Pcm, ms: nat)
      modifies this`buffers
      ensures View() == Buffered(old(View()), stream, u, pcm, ms)
    {
      var b := if (stream, u) in buffers then buffers[(stream, u)] else ReceiveBuffer([], 0);
      buffers := buffers[(stream, u) := ReceiveBuffer(b.frames + [BufferedFrame(pcm, ms)], b.ms + ms)];
    }

    method ConsumeReceiveAudio(stream: Uuid, u: Uuid) returns (pcm: Option<Pcm>)
      modifies this`buffers
      ensures Consumed(View(), pcm) == C.ConsumeReceiveAudio(old(View()), stream, u)
    {
      var key := (stream, u);
      if key !in buffers || buffers[key].frames == [] {
        return None;
      }
      var b := buffers[key];
      var rest := ReceiveBuffer(b.frames[1..], if b.ms < b.frames[0].ms then 0 else b.ms - b.frames[0].ms);
      buffers := if rest.frames == [] then buffers - {key} else buffers[key := rest];
      return Some(b.frames[0].pcm);
    }

    // ---- Provider events ----

    method Judge(e: Event, now: W.Ns) returns (error: Option<CoordinatorError>)
      modifies validator
      ensures Done(View(), error) == Verdict(old(View()), e, now)
    {
      hide V.Validate;
      var verdict := validator.Validate(e, now);
      return if verdict.Rejected? then Some(Validation(verdict.error)) else None;
    }

    method ReceiveAudio(e: Event, now: W.Ns) returns (error: Option<CoordinatorError>)
      requires e.AudioDelta?
      modifies this, watchdog, validator
      ensures Done(View(), error) == C.ReceiveAudio(old(View()), e, now)
    {
      hide V.Validate, W.AudioError, W.RecordAudio, W.IsCancelPending, CanBuffer, Buffered;
      if W.IsCancelPending(watchdog.View(), e.stream, e.utterance) {
        error := Judge(e, now);
        return;
      }
      var refused := W.AudioError(watchdog.View(), e.stream, e.utterance, now);
      if refused.Some? {
        return Some(Watchdog(refused.value));
      }
      if !CanBuffer(View(), e.stream, e.utterance, e.format.frameDurationMs) {
        return Some(ReceiveBufferFull);
      }
      error := Judge(e, now);
      if error.Some? {
        return;
      }
      refused := watchdog.RecordAudio(e.stream, e.utterance, now);
      if refused.Some? {
        RecordAudioRefused(old(watchdog.View()), e.stream, e.utterance, now);
        return Some(Watchdog(refused.value));
      }
      Buffer(e.stream, e.utterance, e.pcm, e.format.frameDurationMs);
    }

    method ReceiveFinal(e: Event, now: W.Ns) returns (error: Option<CoordinatorError>)
      requires e.UtteranceFinal?
      modifies this, watchdog, validator
      ensures Done(View(), error) == C.ReceiveFinal(old(View()), e, now)
    {
      hide V.Validate, W.FinalError, W.FinishUtterance;
      var refused := W.FinalError(watchdog.View(), e.stream, e.utterance, e.outcome, now);
      if refused.Some? {
        return Some(Watchdog(refused.value));
      }
      error := Judge(e, now);
      if error.Some? {
        return;
      }
      if !e.outcome.Unspecified? {
        refused := watchdog.FinishUtterance(e.stream, e.utterance, e.outcome.Cancelled?);
        if refused.Some? {
          FinishRefused(old(watchdog.View()), e.stream, e.utterance, e.outcome.Cancelled?);
          return Some(Watchdog(refused.value));
        }
      }
      if !e.outcome.Completed? {
        buffers := buffers - {(e.stream, e.utterance)};
      }
    }

    method ReceiveClosed(e: Event, now: W.Ns) returns (error: Option<CoordinatorError>)
      modifies this, watchdog, validator
      ensures Done(View(), error) == C.ReceiveClosed(old(View()), e, now)
    {
      hide V.Validate;
      error := Judge(e, now);
      if error.Some? {
        return;
      }
      var refused := watchdog.RecordSessionClosed(e.header.session);
      if refused.Some? {
        return Some(Watchdog(refused.value));
      }
      buffers := map[];
    }

    method ValidateEvent(e: Event, now: W.Ns) returns (error: Option<CoordinatorError>)
      modifies this, watchdog, validator
      ensures Done(View(), error) == C.ValidateEvent(old(View()), e, now)
    {
      hide C.ReceiveAudio, C.ReceiveFinal, C.ReceiveClosed, Verdict;
      if !watchdog.phase.Active? && !e.SessionClosed? {
        return Some(Watchdog(W.SessionTerminal));
      }
      match e
      case AudioDelta(_, _, _, _, _, _, _) => error := ReceiveAudio(e, now);
      case UtteranceFinal(_, _, _, _, _) => error := ReceiveFinal(e, now);
      case SessionClosed(_) => error := ReceiveClosed(e, now);
      case _ => error := Judge(e, now);
    }

    // ---- Deadlines ----

    method CanCancelAll(us: set<Uuid>) returns (ok: bool)
      ensures ok <==> forall u <- us :: V.CanRecordCancel(validator.View(), u).Accepted?
    {
      var rest := us;
      while rest != {}
        invariant rest <= us
        invariant forall u <- us :: u in rest || V.CanRecordCancel(validator.View(), u).Accepted?
      {
        var u :| u in rest;
        if V.CanRecordCancel(validator.View(), u).Rejected? {
          return false;
        }
        rest := rest - {u};
      }
      return true;
    }

    method CancelAll(us: set<Uuid>, was: W.Watchdog)
      requires forall u <- us :: V.CanRecordCancel(validator.View(), u).Accepted? && u in was.utterances
      modifies this`buffers, validator
      ensures validator.View() == old(validator.View()).(cancelPending := old(validator.cancelPending) + us)
      ensures watchdog.View() == old(watchdog.View()) && buffers == old(buffers) - BuffersOf(was, us)
    {
      var rest := us;
      ghost var v := validator.View();
      while rest != {}
        invariant rest <= us
        invariant validator.View() == v.(cancelPending := v.cancelPending + (us - rest))
        invariant buffers == old(buffers) - BuffersOf(was, us - rest)
      {
        var u :| u in rest;
        assert V.CanRecordCancel(v, u).Accepted?;
        var _ := validator.RecordCancelRequested(u);
        buffers := buffers - {(was.utterances[u].stream, u)};
        BuffersMore(was, us - rest, u);
        assert us - (rest - {u}) == (us - rest) + {u};
        rest := rest - {u};
      }
      assert us - {} == us;
    }

    method Poll(now: W.Ns) returns (outcome: PollOutcome)
      modifies this, watchdog, validator
      ensures C.Polled(View(), outcome) == C.Poll(old(View()), now)
    {
      hide W.Poll;
      var previous := watchdog.View();
      var alarm := watchdog.Poll(now);
      PollAlarms(previous, now);
      if !alarm.Cancel? {
        buffers := map[];
        return Rang(alarm);
      }
      var ok := CanCancelAll(alarm.utterances);
      if !ok {
        watchdog.Restore(previous);
        return Refused;
      }
      CancelAll(alarm.utterances, previous);
      return Rang(alarm);
    }

    method CancelExpiredUtterance(stream: Uuid, u: Uuid, now: W.Ns) returns (error: Option<CoordinatorError>)
      modifies this, watchdog, validator
      ensures Done(View(), error) == C.CancelExpiredUtterance(old(View()), stream, u, now)
    {
      hide W.CancelUtterance;
      var previous := watchdog.View();
      var refused := watchdog.CancelUtterance(stream, u, now);
      if refused.Some? {
        CancelRefused(previous, stream, u, now);
        return Some(Watchdog(refused.value));
      }
      var verdict := validator.RecordCancelRequested(u);
      if verdict.Rejected? {
        watchdog.Restore(previous);
        return Some(Validation(verdict.error));
      }
      buffers := buffers - {(stream, u)};
      return None;
    }
  }

  // ---- A refusal changes nothing ----

  lemma StartRefused(w: W.Watchdog, stream: Uuid, u: Uuid, captureNs: W.Ns)
    ensures W.StartUtterance(w, stream, u, captureNs).error.Some? ==>
              W.StartUtterance(w, stream, u, captureNs).watchdog == w
  {}

  lemma RecordInputRefused(v: V.Validator, u: Uuid, captureNs: nat)
    ensures V.RecordInput(v, u, captureNs).verdict.Rejected? ==> V.RecordInput(v, u, captureNs).validator == v
  {}

  lemma RecordAudioRefused(w: W.Watchdog, stream: Uuid, u: Uuid, now: W.Ns)
    ensures W.RecordAudio(w, stream, u, now).error.Some? ==> W.RecordAudio(w, stream, u, now).watchdog == w
  {}

  lemma FinishRefused(w: W.Watchdog, stream: Uuid, u: Uuid, cancelled: bool)
    ensures W.FinishUtterance(w, stream, u, cancelled).error.Some? ==>
            W.FinishUtterance(w, stream, u, cancelled).watchdog == w
  {}

  lemma CancelRefused(w: W.Watchdog, stream: Uuid, u: Uuid, now: W.Ns)
    ensures W.CancelUtterance(w, stream, u, now).error.Some? ==> W.CancelUtterance(w, stream, u, now).watchdog == w
  {}

  lemma PollAlarms(w: W.Watchdog, now: W.Ns)
    ensures W.Poll(w, now).watchdog.session == w.session
    ensures W.Poll(w, now).alarm.Cancel? ==> forall u <- W.Poll(w, now).alarm.utterances :: u in w.utterances
  {}

  lemma BuffersMore(w: W.Watchdog, us: set<Uuid>, u: Uuid)
    requires u in w.utterances
    ensures BuffersOf(w, us + {u}) == BuffersOf(w, us) + {(w.utterances[u].stream, u)}
  {}
}

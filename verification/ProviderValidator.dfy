/** The validator as the daemon keeps it: maps, sets and pending marks updated in place.
    Each method is tied to the verdict and the state that its model gives. */
module ProviderValidator {
  import opened Wire
  import V = ValidatorModel
  import opened ValidatorModel

  class ProviderEventValidator {
    const contract: Contract
    var isOpen: bool
    var closed: bool
    var lastSequence: Option<nat>
    var capture: map<Uuid, nat>
    var complete: map<Uuid, nat>
    var wire: map<Uuid, nat>
    var playable: map<Uuid, nat>
    var terminal: set<Uuid>
    var pendingOverflow: Option<Uuid>
    var pendingNoSpeech: Option<Uuid>
    var pendingNoSpeechLatency: Option<Uuid>
    var cancelPending: set<Uuid>
    var debugText: bool

    function View(): Validator
      reads this
    {
      Validator(contract, isOpen, closed, lastSequence, capture, complete, wire, playable, terminal, pendingOverflow,
                pendingNoSpeech, pendingNoSpeechLatency, cancelPending, debugText)
    }

    constructor (contract: Contract)
      ensures View() == V.Fresh(contract)
    {
      this.contract := contract;
      isOpen, closed, lastSequence := false, false, None;
      capture, complete, wire, playable := map[], map[], map[], map[];
      terminal, cancelPending := {}, {};
      pendingOverflow, pendingNoSpeech, pendingNoSpeechLatency := None, None, None;
      debugText := contract.debugText;
    }

    method RecordInput(u: Uuid, captureNs: nat) returns (verdict: Verdict)
      modifies this`capture, this`complete
      ensures Checked(View(), verdict) == V.RecordInput(old(View()), u, captureNs)
    {
      if !isOpen { return Rejected(OpenRequired); }
      if closed { return Rejected(SessionTerminal); }
      if u in terminal { return Rejected(UtteranceTerminal); }
      if u !in capture && |capture| >= MAX_ACTIVE_UTTERANCES { return Rejected(UtteranceCapacityExceeded); }
      if u !in capture { capture := capture[u := captureNs]; }
      if u !in complete { complete := complete[u := captureNs]; }
      return Accepted;
    }

    method RecordEndOfUtterance(u: Uuid, captureNs: nat) returns (verdict: Verdict)
      modifies this`complete
      ensures Checked(View(), verdict) == V.RecordEndOfUtterance(old(View()), u, captureNs)
    {
      if !isOpen { return Rejected(OpenRequired); }
      if closed { return Rejected(SessionTerminal); }
      if u !in complete { return Rejected(UnknownUtterance); }
      complete := complete[u := captureNs];
      return Accepted;
    }

    method RecordCancelRequested(u: Uuid) returns (verdict: Verdict)
      modifies this`cancelPending
      ensures Checked(View(), verdict) == V.RecordCancelRequested(old(View()), u)
    {
      verdict := CanRecordCancel(View(), u);
      if verdict.Accepted? {
        cancelPending := cancelPending + {u};
      }
    }

    method SetDebugText(enabled: bool)
      modifies this`debugText
      ensures View() == V.SetDebugText(old(View()), enabled)
    {
      debugText := enabled;
    }

    // ---- Ending an utterance ----

    method Terminalize(u: Uuid) returns (verdict: Verdict)
      modifies this
      ensures Checked(View(), verdict) == V.Terminalize(old(View()), u)
    {
      if |terminal| >= MAX_TERMINAL_UTTERANCES {
        closed := true;
        return Rejected(TerminalCapacityExceeded);
      }
      terminal := terminal + {u};
      cancelPending := cancelPending - {u};
      Forget(u);
      return Accepted;
    }

    method Forget(u: Uuid)
      modifies this`capture, this`complete, this`wire, this`playable
      ensures View() == old(View()).(capture := old(capture) - {u}, complete := old(complete) - {u},
                                     wire := old(wire) - {u}, playable := old(playable) - {u})
    {
      capture := capture - {u};
      complete := complete - {u};
      wire := wire - {u};
      playable := playable - {u};
    }

    method CancelledTerminal(e: Event, u: Uuid) returns (verdict: Verdict)
      modifies this
      ensures Checked(View(), verdict) == V.CancelledTerminal(old(View()), e, u)
    {
      hide V.Terminalize;
      if !e.UtteranceFinal? || e.outcome != Cancelled || e.finalAudio != Lookup(wire, u) {
        return Rejected(ExpectedCancelledTerminal);
      }
      cancelPending := cancelPending - {u};
      verdict := Terminalize(u);
    }

    method OverflowTerminal(e: Event, expected: Uuid) returns (verdict: Verdict)
      modifies this
      ensures Checked(View(), verdict) == V.OverflowTerminal(old(View()), e, expected)
    {
      hide V.Terminalize;
      if !e.UtteranceFinal? || e.utterance != expected || e.outcome != Dropped
          || e.finalAudio != Lookup(playable, e.utterance) {
        return Rejected(ExpectedOverflowTerminal);
      }
      pendingOverflow := None;
      verdict := Terminalize(e.utterance);
    }

    method NoSpeechTerminal(e: Event, expected: Uuid) returns (verdict: Verdict)
      modifies this
      ensures Checked(View(), verdict) == V.NoSpeechTerminal(old(View()), e, expected)
    {
      hide V.Terminalize;
      if !e.UtteranceFinal? || e.utterance != expected || e.outcome != Dropped || e.finalAudio.Some? {
        return Rejected(ExpectedNoSpeechTerminal);
      }
      pendingNoSpeech := None;
      verdict := Terminalize(e.utterance);
    }

    // ---- One event ----

    /** Audio that arrived in order is on the wire, whatever becomes of it. */
    method ReceiveWireAudio(e: Event) returns (error: Option<ValidationError>)
      requires e.AudioDelta?
      modifies this`wire
      ensures error == WireAudioError(old(View()), e)
      ensures View() == if error.None? then Received(old(View()), e) else old(View())
    {
      hide WireAudioError;
      error := WireAudioError(View(), e);
      if error.None? {
        wire := wire[e.utterance := e.audioSequence];
      }
    }

    method CheckAfterCancel(e: Event, u: Uuid) returns (verdict: Verdict)
      modifies this
      ensures Checked(View(), verdict) == V.CheckAfterCancel(old(View()), e, u)
    {
      hide V.CancelledTerminal, WireAudioError;
      if e.AudioDelta? {
        var error := ReceiveWireAudio(e);
        return Rejected(if error.Some? then error.value else CancelledAudio);
      }
      verdict := CancelledTerminal(e, u);
    }

    method CheckAudio(e: Event, now: nat) returns (verdict: Verdict)
      requires e.AudioDelta?
      modifies this`wire, this`playable
      ensures Checked(View(), verdict) == V.CheckAudio(old(View()), e, now)
    {
      hide WireAudioError, Harmless;
      var u := e.utterance;
      var inactive := ActiveError(View(), u);
      if inactive.Some? { return Rejected(inactive.value); }
      var error := ReceiveWireAudio(e);
      if error.Some? { return Rejected(error.value); }
      if u !in playable && u in complete && now - complete[u] > MaxAgeNs(contract.mode) {
        return Rejected(ExpiredAudio);
      }
      playable := playable[u := e.audioSequence];
      return Accepted;
    }

    method CheckError(e: Event) returns (verdict: Verdict)
      requires e.Error?
      modifies this`pendingOverflow, this`pendingNoSpeech, this`pendingNoSpeechLatency
      ensures Checked(View(), verdict) == V.CheckError(old(View()), e)
    {
      hide Harmless, SameNumbers, Late;
      if e.code.UnspecifiedError? { return Rejected(UnsafeErrorMessage); }
      if e.about.Some? {
        var inactive := ActiveError(View(), e.about.value);
        if inactive.Some? { return Rejected(inactive.value); }
      }
      if e.code.QueueOverflow? {
        if e.about.None? { return Rejected(ExpectedOverflowTerminal); }
        pendingOverflow := e.about;
      }
      if e.code.NoSpeech? {
        if e.about.None? { return Rejected(ExpectedNoSpeechTerminal); }
        if pendingNoSpeechLatency != e.about { return Rejected(ExpectedNoSpeechLatency); }
        pendingNoSpeechLatency := None;
        pendingNoSpeech := e.about;
      }
      return Accepted;
    }

    method CheckFinal(e: Event) returns (verdict: Verdict)
      requires e.UtteranceFinal?
      modifies this
      ensures Checked(View(), verdict) == V.CheckFinal(old(View()), e)
    {
      hide V.Terminalize;
      var inactive := ActiveError(View(), e.utterance);
      if inactive.Some? { return Rejected(inactive.value); }
      if e.outcome.Unspecified? { return Rejected(InvalidOutcome); }
      if e.outcome.Cancelled? { return Rejected(ExpectedCancelledTerminal); }
      if e.finalAudio != Lookup(playable, e.utterance) { return Rejected(FinalAudioSequenceMismatch); }
      verdict := Terminalize(e.utterance);
    }

    method CheckOpened(e: Event) returns (verdict: Verdict)
      requires e.SessionOpened?
      modifies this`isOpen
      ensures Checked(View(), verdict) == V.CheckOpened(old(View()), e)
    {
      hide Harmless, SameNumbers, Late;
      if e.inputFormat != contract.inputFormat || e.outputFormat != contract.outputFormat {
        return Rejected(NegotiatedFormatMismatch);
      }
      if !e.capabilities.audioOutput || !e.capabilities.cancellation { return Rejected(NegotiatedFormatMismatch); }
      if e.capabilities.cloudEgress != contract.provider.OpenAi? { return Rejected(NegotiatedFormatMismatch); }
      isOpen := true;
      return Accepted;
    }

    method CheckLatency(e: Event) returns (verdict: Verdict)
      requires e.Latency?
      modifies this`pendingNoSpeechLatency
      ensures Checked(View(), verdict) == V.CheckLatency(old(View()), e)
    {
      hide Harmless, SameNumbers, Late;
      if e.about.Some? {
        var inactive := ActiveError(View(), e.about.value);
        if inactive.Some? { return Rejected(inactive.value); }
      }
      var heardNothing := e.asrFirstMs.Some? && e.asrFinalMs.Some? && e.mtFirstMs.None? && e.ttsFirstMs.None?;
      pendingNoSpeechLatency := if heardNothing then e.about else None;
      return Accepted;
    }

    /** An event read for what it says. */
    method CheckSaid(e: Event, now: nat) returns (verdict: Verdict)
      modifies this
      ensures Checked(View(), verdict) == V.CheckSaid(old(View()), e, now)
    {
      hide V.CheckOpened, V.CheckAudio, V.CheckText, V.CheckLatency, V.CheckHealth, V.CheckError, V.CheckFinal,
           Harmless, SameNumbers, Late;
      match e
      case SessionOpened(_, _, _, _) => verdict := CheckOpened(e);
      case AudioDelta(_, _, _, _, _, _, _) => verdict := CheckAudio(e, now);
      case TranscriptDelta(_, _, u, _) => verdict := V.CheckText(View(), u).verdict; TextKeeps(View(), u);
      case TranslationDelta(_, _, u, _) => verdict := V.CheckText(View(), u).verdict; TextKeeps(View(), u);
      case Latency(_, _, _, _, _, _, _, _) => verdict := CheckLatency(e);
      case Health(_, _, _) => verdict := V.CheckHealth(View(), e).verdict; HealthKeeps(View(), e);
      case Error(_, _, _, _) => verdict := CheckError(e);
      case UtteranceFinal(_, _, _, _, _) => verdict := CheckFinal(e);
      case SessionClosed(_) => closed := true; verdict := Accepted;
    }

    method CheckKind(e: Event, now: nat) returns (verdict: Verdict)
      modifies this
      ensures Checked(View(), verdict) == V.CheckKind(old(View()), e, now)
    {
      hide V.CheckAfterCancel, V.OverflowTerminal, V.NoSpeechTerminal, V.CheckSaid;
      if e.Subject().Some? && e.Subject().value in cancelPending {
        verdict := CheckAfterCancel(e, e.Subject().value);
      } else if pendingOverflow.Some? {
        verdict := OverflowTerminal(e, pendingOverflow.value);
      } else if pendingNoSpeech.Some? {
        verdict := NoSpeechTerminal(e, pendingNoSpeech.value);
      } else {
        if !e.Latency? && !(e.Error? && e.code.NoSpeech?) {
          pendingNoSpeechLatency := None;
        }
        verdict := CheckSaid(e, now);
      }
    }

    method Validate(e: Event, now: nat) returns (verdict: Verdict)
      modifies this
      ensures Checked(View(), verdict) == V.Validate(old(View()), e, now)
    {
      hide V.CheckKind, EnvelopeError;
      var error := EnvelopeError(View(), e);
      if error.Some? { return Rejected(error.value); }
      verdict := CheckKind(e, now);
      if verdict in {Accepted, Rejected(ExpiredAudio), Rejected(CancelledAudio)} {
        lastSequence := Some(e.header.sequence);
      }
    }
  }

  lemma TextKeeps(v: Validator, u: Uuid)
    ensures V.CheckText(v, u).validator == v
  {}

  lemma HealthKeeps(v: Validator, e: Event)
    requires e.Health?
    ensures V.CheckHealth(v, e).validator == v
  {}
}

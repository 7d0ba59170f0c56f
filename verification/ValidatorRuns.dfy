/** The validator on its own, over whole runs: what it takes for it to accept two finals of
    one utterance. */
module ValidatorRuns {
  import opened Wire
  import K = Coupling
  import N = PlaybackRuns
  import V = ValidatorModel
  import opened ValidatorModel

  datatype Call =
    | Input(utterance: Uuid, captureNs: nat)
    | EndOfUtterance(utterance: Uuid, captureNs: nat)
    | CancelRequested(utterance: Uuid)
    | DebugText(enabled: bool)
    | Receive(event: Event, now: nat)

  function After(v: Validator, c: Call): Checked {
    match c
    case Input(u, captureNs) => RecordInput(v, u, captureNs)
    case EndOfUtterance(u, captureNs) => RecordEndOfUtterance(v, u, captureNs)
    case CancelRequested(u) => RecordCancelRequested(v, u)
    case DebugText(enabled) => Accept(SetDebugText(v, enabled))
    case Receive(e, now) => Validate(v, e, now)
  }

  function Run(contract: Contract, calls: seq<Call>): Validator {
    if calls == [] then Fresh(contract) else After(Run(contract, calls[..|calls| - 1]), calls[|calls| - 1]).validator
  }

  /** Only open utterances are played or being cancelled, and at most one ending is awaited. */
  ghost predicate Tidy(v: Validator) {
    && K.Sound(v)
    && v.playable.Keys <= v.capture.Keys && v.cancelPending <= v.capture.Keys
    && (v.pendingOverflow.None? || v.pendingNoSpeech.None?)
  }

  /** The utterance's end is awaited after an overflow or after no speech. */
  predicate Awaits(v: Validator, u: Uuid) {
    v.pendingOverflow == Some(u) || v.pendingNoSpeech == Some(u)
  }

  // ---- What one event does to an awaited end ----

  /** An end comes to be awaited only of an open utterance that is not being cancelled, and an
      utterance that ends with its end still awaited was being cancelled. */
  ghost predicate AwaitsFairly(v: Validator, v': Validator) {
    && (v'.pendingOverflow.None? || v'.pendingNoSpeech.None?)
    && forall u :: Awaits(v', u) ==>
         if Awaits(v, u) then u in v'.terminal ==> u in v.terminal || u in v.cancelPending
         else u in v.capture && u !in v.cancelPending && v'.terminal == v.terminal
  }

  lemma TerminalizeAwaits(v: Validator, v': Validator, u: Uuid)
    requires v'.terminal == v.terminal && (v'.pendingOverflow.None? || v'.pendingNoSpeech.None?)
    requires forall x :: Awaits(v', x) ==> Awaits(v, x)
    requires Awaits(v', u) ==> u in v.cancelPending
    ensures AwaitsFairly(v, V.Terminalize(v', u).validator)
  {
    var v'' := V.Terminalize(v', u).validator;
    assert forall x :: Awaits(v'', x) <==> Awaits(v', x);
  }

  lemma CancelledAwaits(v: Validator, e: Event, u: Uuid)
    requires v.pendingOverflow.None? || v.pendingNoSpeech.None?
    requires u in v.cancelPending
    ensures AwaitsFairly(v, V.CheckAfterCancel(v, e, u).validator)
  {
    hide WireAudioError, V.Terminalize;
    var v1 := v.(cancelPending := v.cancelPending - {u});
    assert forall x :: Awaits(v1, x) <==> Awaits(v, x);
    TerminalizeAwaits(v, v1, u);
  }

  lemma PendingAwaits(v: Validator, e: Event)
    requires v.pendingOverflow.None? || v.pendingNoSpeech.None?
    ensures v.pendingOverflow.Some? ==> AwaitsFairly(v, V.OverflowTerminal(v, e, v.pendingOverflow.value).validator)
    ensures v.pendingNoSpeech.Some? ==> AwaitsFairly(v, V.NoSpeechTerminal(v, e, v.pendingNoSpeech.value).validator)
  {
    hide V.Terminalize;
    if e.UtteranceFinal? && v.pendingOverflow.Some? {
      TerminalizeAwaits(v, v.(pendingOverflow := None), e.utterance);
    }
    if e.UtteranceFinal? && v.pendingNoSpeech.Some? {
      TerminalizeAwaits(v, v.(pendingNoSpeech := None), e.utterance);
    }
  }

  /** Nothing but an error makes an end awaited. */
  lemma SaidPending(v: Validator, e: Event, now: nat)
    requires !e.Error?
    ensures var v' := V.CheckSaid(v, e, now).validator;
            v'.pendingOverflow == v.pendingOverflow && v'.pendingNoSpeech == v.pendingNoSpeech
  {
    hide WireAudioError, TooLate, ActiveError;
  }

  lemma ErrorAwaits(v: Validator, e: Event)
    requires e.Error? && v.pendingOverflow.None? && v.pendingNoSpeech.None?
    requires e.Subject().Some? ==> e.Subject().value !in v.cancelPending
    ensures AwaitsFairly(v, V.CheckError(v, e).validator)
  {
    hide Harmless, SameNumbers, Late;
  }

  lemma SaidAwaits(v: Validator, v1: Validator, e: Event, now: nat)
    requires v.pendingOverflow.None? && v.pendingNoSpeech.None?
    requires v1 == v.(pendingNoSpeechLatency := v1.pendingNoSpeechLatency)
    requires e.Subject().Some? ==> e.Subject().value !in v.cancelPending
    ensures AwaitsFairly(v, V.CheckSaid(v1, e, now).validator)
  {
    if e.Error? {
      ErrorAwaits(v1, e);
      hide V.CheckError;
      LatencyApart(v, v1, V.CheckError(v1, e).validator);
    } else {
      SaidPending(v1, e, now);
      hide V.CheckSaid;
    }
  }

  lemma LatencyApart(v: Validator, v1: Validator, v': Validator)
    requires v1 == v.(pendingNoSpeechLatency := v1.pendingNoSpeechLatency) && AwaitsFairly(v1, v')
    ensures AwaitsFairly(v, v')
  {
    assert forall u :: Awaits(v1, u) <==> Awaits(v, u);
  }

  lemma ValidateAwaits(v: Validator, e: Event, now: nat)
    requires v.pendingOverflow.None? || v.pendingNoSpeech.None?
    ensures AwaitsFairly(v, V.Validate(v, e, now).validator)
  {
    hide V.CheckAfterCancel, V.OverflowTerminal, V.NoSpeechTerminal, V.CheckSaid, EnvelopeError;
    if EnvelopeError(v, e).None? {
      var c := V.CheckKind(v, e, now);
      if e.Subject().Some? && e.Subject().value in v.cancelPending {
        CancelledAwaits(v, e, e.Subject().value);
      } else if v.pendingOverflow.Some? || v.pendingNoSpeech.Some? {
        PendingAwaits(v, e);
      } else {
        SaidAwaits(v, v, e, now);
        SaidAwaits(v, v.(pendingNoSpeechLatency := None), e, now);
      }
      NumberApart(v, c.validator, e);
    }
  }

  lemma NumberApart(v: Validator, v': Validator, e: Event)
    requires AwaitsFairly(v, v')
    ensures AwaitsFairly(v, v'.(lastSequence := Some(e.header.sequence)))
  {
    assert forall u :: Awaits(v'.(lastSequence := Some(e.header.sequence)), u) <==> Awaits(v', u);
  }

  // ---- Every call keeps the validator tidy ----

  lemma ReceiveTidy(v: Validator, e: Event, now: nat)
    requires Tidy(v)
    ensures Tidy(V.Validate(v, e, now).validator)
  {
    hide V.Validate;
    K.ValidateBooked(v, e, now);
    ValidateAwaits(v, e, now);
    hide AwaitsFairly, Awaits;
    AwaitsAtMostOne(v, V.Validate(v, e, now).validator);
    if e.AudioDelta? {
      N.AudioNumbers(v, e, now);
      PlayableOpen(v, e, V.Validate(v, e, now));
    } else if e.UtteranceFinal? {
      N.FinalNumbers(v, e, now);
    } else {
      N.RemarkNumbers(v, e, now);
    }
  }

  lemma AwaitsAtMostOne(v: Validator, v': Validator)
    requires AwaitsFairly(v, v')
    ensures v'.pendingOverflow.None? || v'.pendingNoSpeech.None?
  {}

  lemma PlayableOpen(v: Validator, e: Event, r: Checked)
    requires e.AudioDelta? && N.AudioJudged(v, e, r) && v.playable.Keys <= v.capture.Keys
    ensures r.validator.playable.Keys <= v.capture.Keys
  {
    hide PcmFormat.FrameBytes;
    forall u <- r.validator.playable ensures u in v.capture {
      assert u != e.utterance ==> Lookup(r.validator.playable, u) == Lookup(v.playable, u);
    }
  }

  lemma AfterTidy(v: Validator, c: Call)
    requires Tidy(v)
    ensures Tidy(After(v, c).validator)
  {
    hide V.Validate;
    if c.Receive? {
      ReceiveTidy(v, c.event, c.now);
    }
  }

  lemma {:induction false} RunTidy(contract: Contract, calls: seq<Call>)
    ensures Tidy(Run(contract, calls))
  {
    if calls != [] {
      hide After, Tidy;
      RunTidy(contract, calls[..|calls| - 1]);
      AfterTidy(Run(contract, calls[..|calls| - 1]), calls[|calls| - 1]);
    }
  }

  // ---- Two finals ----

  /** The call records a cancellation of the utterance while its end is awaited. */
  predicate CancelsAwaited(v: Validator, c: Call, u: Uuid) {
    c == CancelRequested(u) && After(v, c).verdict.Accepted? && Awaits(v, u)
  }

  /** Exactly when the validator, in a run of its own, takes a final for an utterance that has
      already ended: it still awaits that utterance's end. */
  lemma EndsAgainIff(contract: Contract, calls: seq<Call>, e: Event, now: nat)
    requires e.UtteranceFinal? && e.utterance in Run(contract, calls).terminal
    requires EnvelopeError(Run(contract, calls), e).None?
    ensures var v := Run(contract, calls);
            V.Validate(v, e, now).verdict.Accepted? <==>
              && Awaits(v, e.utterance)
              && e.outcome.Dropped? && e.finalAudio.None? && |v.terminal| < MAX_TERMINAL_UTTERANCES
  {
    hide Run, V.Validate, EnvelopeError;
    RunTidy(contract, calls);
    K.SecondFinalIff(Run(contract, calls), e, now);
  }

  ghost predicate CancelledAwaited(contract: Contract, calls: seq<Call>, u: Uuid) {
    exists k :: 0 <= k < |calls| && CancelsAwaited(Run(contract, calls[..k]), calls[k], u)
  }

  lemma CancelledStill(contract: Contract, calls: seq<Call>, c: Call, u: Uuid)
    requires CancelledAwaited(contract, calls, u) || CancelsAwaited(Run(contract, calls), c, u)
    ensures CancelledAwaited(contract, calls + [c], u)
  {
    hide Run, CancelsAwaited;
    var more := calls + [c];
    assert more[..|calls|] == calls;
    if CancelledAwaited(contract, calls, u) {
      var k :| 0 <= k < |calls| && CancelsAwaited(Run(contract, calls[..k]), calls[k], u);
      assert more[..k] == calls[..k] && more[k] == calls[k];
    } else {
      assert more[|calls|] == c;
    }
  }

  /** An utterance whose end is awaited though it has ended, or is being cancelled, was
      cancelled while its end was awaited. */
  lemma {:induction false} AwaitedAfterCancel(contract: Contract, calls: seq<Call>, u: Uuid)
    ensures var v := Run(contract, calls);
            Awaits(v, u) && (u in v.terminal || u in v.cancelPending) ==> CancelledAwaited(contract, calls, u)
  {
    if calls != [] {
      var (earlier, c) := (calls[..|calls| - 1], calls[|calls| - 1]);
      assert earlier + [c] == calls;
      AwaitedAfterCancel(contract, earlier, u);
      RunTidy(contract, earlier);
      var v := Run(contract, earlier);
      StepAwaits(v, c, u);
      hide Run, After, CancelsAwaited, CancelledAwaited;
      if CancelledAwaited(contract, earlier, u) || CancelsAwaited(v, c, u) {
        CancelledStill(contract, earlier, c, u);
      }
    }
  }

  lemma StepAwaits(v: Validator, c: Call, u: Uuid)
    requires Tidy(v)
    ensures var v' := After(v, c).validator;
            Awaits(v', u) && (u in v'.terminal || u in v'.cancelPending) ==>
              (Awaits(v, u) && (u in v.terminal || u in v.cancelPending)) || CancelsAwaited(v, c, u)
  {
    hide V.Validate;
    if c.Receive? {
      ValidateAwaits(v, c.event, c.now);
      K.ValidateBooked(v, c.event, c.now);
    }
  }

  /** So the validator takes two finals of one utterance only if a cancellation was recorded
      while the overflow or no-speech final of that very utterance was awaited. */
  lemma TwiceOnlyAfterCancel(contract: Contract, calls: seq<Call>, e: Event, now: nat)
    requires e.UtteranceFinal? && e.utterance in Run(contract, calls).terminal
    requires V.Validate(Run(contract, calls), e, now).verdict.Accepted?
    ensures exists k :: 0 <= k < |calls| && CancelsAwaited(Run(contract, calls[..k]), calls[k], e.utterance)
  {
    AcceptedIsAddressed(Run(contract, calls), e, now);
    hide Run, V.Validate, EnvelopeError, CancelsAwaited;
    EndsAgainIff(contract, calls, e, now);
    AwaitedAfterCancel(contract, calls, e.utterance);
  }

  lemma AcceptedIsAddressed(v: Validator, e: Event, now: nat)
    requires V.Validate(v, e, now).verdict.Accepted?
    ensures EnvelopeError(v, e).None?
  {
    hide V.CheckKind, EnvelopeError;
  }
}

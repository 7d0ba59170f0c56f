/** The validator and the watchdog are updated separately and never disagree: over every
    run of a provider stream they watch the same utterances and await the same
    cancellations, and no utterance ends or is cancelled twice. */
module Coupling {
  import opened Wire
  import W = WatchdogModel
  import V = ValidatorModel
  import opened CoordinatorModel

  ghost function Cancelling(w: W.Watchdog): set<Uuid> {
    set u <- w.utterances | w.utterances[u].phase.CancelPending?
  }

  /** The coupling itself: stated while the session is active and the validator open. */
  ghost predicate Coupled(c: Coordinator) {
    c.watchdog.phase.Active? && !c.validator.closed ==>
      && c.watchdog.utterances.Keys == c.validator.capture.Keys
      && Cancelling(c.watchdog) == c.validator.cancelPending
  }

  /** What holds besides, whatever the phase. */
  ghost predicate Sound(v: V.Validator) {
    && v.complete.Keys == v.capture.Keys
    && v.capture.Keys !! v.terminal
    && (!v.isOpen ==> v.capture.Keys == {})
  }

  ghost predicate Inv(c: Coordinator) {
    && c.watchdog.session == c.validator.contract.session
    && Sound(c.validator)
    && (c.watchdog.phase.Active? ==> c.watchdog.utterances.Keys !! c.validator.terminal)
    && Coupled(c)
  }

  // ---- What one event does to the validator's books ----

  ghost predicate EndedIn(v: V.Validator, v': V.Validator, u: Uuid) {
    && v'.contract == v.contract
    && v'.capture.Keys == v.capture.Keys - {u}
    && v'.complete.Keys == v.complete.Keys - {u}
    && v'.terminal == v.terminal + {u}
    && v'.cancelPending == v.cancelPending - {u}
    && v'.closed == v.closed
    && v'.isOpen == v.isOpen
  }

  /** The utterance books after a check: an accepted final ends its utterance, anything
      else leaves them alone, unless the validator closed for want of room. */
  ghost predicate Booked(v: V.Validator, e: Event, r: V.Checked) {
    if r.verdict.Accepted? && e.UtteranceFinal? then EndedIn(v, r.validator, e.utterance)
    else if r.verdict == V.Rejected(V.TerminalCapacityExceeded)
    then r.validator.closed && r.validator.cancelPending <= v.cancelPending
         && r.validator == v.(closed := true, cancelPending := r.validator.cancelPending,
                              pendingOverflow := r.validator.pendingOverflow,
                              pendingNoSpeech := r.validator.pendingNoSpeech,
                              pendingNoSpeechLatency := r.validator.pendingNoSpeechLatency)
    else V.SameBooks(v.(closed := r.validator.closed), r.validator)
         && (r.validator.closed == (v.closed || (r.verdict.Accepted? && e.SessionClosed?)))
  }

  lemma TerminalizeBooked(v: V.Validator, v': V.Validator, e: Event)
    requires e.UtteranceFinal? && !v.closed
    requires v' == v.(cancelPending := v'.cancelPending, pendingOverflow := v'.pendingOverflow,
                      pendingNoSpeech := v'.pendingNoSpeech, pendingNoSpeechLatency := v'.pendingNoSpeechLatency)
    requires v'.cancelPending <= v.cancelPending && v'.cancelPending - {e.utterance} == v.cancelPending - {e.utterance}
    ensures Booked(v, e, V.Terminalize(v', e.utterance))
  {
    var u := e.utterance;
    assert (v.capture - {u}).Keys == v.capture.Keys - {u};
    assert (v.complete - {u}).Keys == v.complete.Keys - {u};
  }

  lemma PendingEndBooked(v: V.Validator, e: Event, x: Uuid)
    requires e.UtteranceFinal? && !v.closed
    ensures Booked(v, e, V.OverflowTerminal(v, e, x)) && Booked(v, e, V.NoSpeechTerminal(v, e, x))
  {
    hide V.Terminalize;
    TerminalizeBooked(v, v.(pendingOverflow := None), e);
    TerminalizeBooked(v, v.(pendingNoSpeech := None), e);
  }

  lemma PlainEndBooked(v: V.Validator, e: Event)
    requires e.UtteranceFinal? && !v.closed
    ensures Booked(v, e, V.CancelledTerminal(v, e, e.utterance))
    ensures Booked(v, e, V.CheckFinal(v.(pendingNoSpeechLatency := None), e))
  {
    hide V.Terminalize;
    TerminalizeBooked(v, v.(cancelPending := v.cancelPending - {e.utterance}), e);
    TerminalizeBooked(v, v.(pendingNoSpeechLatency := None), e);
  }

  lemma FinalBooked(v: V.Validator, e: Event, now: nat)
    requires e.UtteranceFinal? && !v.closed
    ensures Booked(v, e, V.CheckKind(v, e, now))
  {
    PlainEndBooked(v, e);
    if v.pendingOverflow.Some? {
      PendingEndBooked(v, e, v.pendingOverflow.value);
    } else if v.pendingNoSpeech.Some? {
      PendingEndBooked(v, e, v.pendingNoSpeech.value);
    }
    hide V.CheckFinal, V.CancelledTerminal, V.OverflowTerminal, V.NoSpeechTerminal, Booked;
  }

  /** An event that ends nothing, read for what it says. */
  lemma SaidBooked(v: V.Validator, v1: V.Validator, e: Event, now: nat)
    requires !e.UtteranceFinal? && !v.closed && v1 == v.(pendingNoSpeechLatency := v1.pendingNoSpeechLatency)
    ensures Booked(v, e, V.CheckSaid(v1, e, now))
  {
    hide V.CheckAudio, V.CheckOpened, V.CheckLatency, V.CheckHealth, V.CheckError, V.CheckText;
  }

  /** An event that should have ended an utterance and does not is refused. */
  lemma NotEndingBooked(v: V.Validator, e: Event, x: Uuid)
    requires !e.UtteranceFinal? && !v.closed
    ensures Booked(v, e, V.CheckAfterCancel(v, e, x))
    ensures Booked(v, e, V.OverflowTerminal(v, e, x)) && Booked(v, e, V.NoSpeechTerminal(v, e, x))
  {
    hide V.WireAudioError, V.Terminalize;
    if e.AudioDelta? { WireErrorPlain(v, e); }
  }

  lemma WireErrorPlain(v: V.Validator, e: Event)
    requires e.AudioDelta?
    ensures V.WireAudioError(v, e) != Some(V.TerminalCapacityExceeded)
  {
    hide PcmFormat.FrameBytes;
  }

  lemma OtherBooked(v: V.Validator, e: Event, now: nat)
    requires !e.UtteranceFinal? && !v.closed
    ensures Booked(v, e, V.CheckKind(v, e, now))
  {
    hide V.CheckSaid, V.CheckAfterCancel, V.OverflowTerminal, V.NoSpeechTerminal, Booked;
    if e.Subject().Some? && e.Subject().value in v.cancelPending {
      NotEndingBooked(v, e, e.Subject().value);
    } else if v.pendingOverflow.Some? {
      NotEndingBooked(v, e, v.pendingOverflow.value);
    } else if v.pendingNoSpeech.Some? {
      NotEndingBooked(v, e, v.pendingNoSpeech.value);
    } else {
      SaidBooked(v, v, e, now);
      SaidBooked(v, v.(pendingNoSpeechLatency := None), e, now);
    }
  }

  lemma ValidateBooked(v: V.Validator, e: Event, now: nat)
    ensures Booked(v, e, V.Validate(v, e, now))
  {
    hide V.CheckKind;
    if V.EnvelopeError(v, e).None? {
      if e.UtteranceFinal? {
        FinalBooked(v, e, now);
      } else {
        OtherBooked(v, e, now);
      }
    }
  }

  // ---- Every operation keeps the coupling ----

  lemma StartKeepsInv(c: Coordinator, stream: Uuid, u: Uuid, captureNs: W.Ns)
    requires Inv(c)
    ensures Inv(StartUtterance(c, stream, u, captureNs).coordinator)
  {
    var d := W.StartUtterance(c.watchdog, stream, u, captureNs);
    var r := V.RecordInput(c.validator, u, captureNs);
    if d.error.None? && r.verdict.Accepted? {
      assert r.validator.capture.Keys == c.validator.capture.Keys + {u};
      assert Cancelling(d.watchdog) == Cancelling(c.watchdog);
    } else if d.error.None? {
      assert W.DisarmUtterance(d.watchdog, stream, u).watchdog.utterances == c.watchdog.utterances;
    }
  }

  lemma EndKeepsInv(c: Coordinator, stream: Uuid, u: Uuid, now: W.Ns)
    requires Inv(c)
    ensures Inv(RecordEndOfUtterance(c, stream, u, now).coordinator)
  {
    var d := W.RecordEndOfUtterance(c.watchdog, stream, u, now);
    assert Cancelling(d.watchdog) == Cancelling(c.watchdog);
    assert d.watchdog.utterances.Keys == c.watchdog.utterances.Keys;
  }

  /** The validator's verdict alone, on anything but an accepted final or close. */
  lemma VerdictKeepsInv(c: Coordinator, e: Event, now: W.Ns)
    requires Inv(c)
    requires Verdict(c, e, now).error.None? ==> !e.UtteranceFinal?
    ensures Inv(Verdict(c, e, now).coordinator)
  {
    hide V.Validate;
    ValidateBooked(c.validator, e, now);
  }

  lemma AudioKeepsInv(c: Coordinator, e: Event, now: W.Ns)
    requires Inv(c) && e.AudioDelta?
    ensures Inv(ReceiveAudio(c, e, now).coordinator)
  {
    VerdictKeepsInv(c, e, now);
    var a := W.RecordAudio(c.watchdog, e.stream, e.utterance, now);
    assert Cancelling(a.watchdog) == Cancelling(c.watchdog);
    assert a.watchdog.utterances.Keys == c.watchdog.utterances.Keys;
    hide V.Validate;
  }

  lemma FinalKeepsInv(c: Coordinator, e: Event, now: W.Ns)
    requires Inv(c) && e.UtteranceFinal?
    ensures Inv(ReceiveFinal(c, e, now).coordinator)
    ensures ReceiveFinal(c, e, now).error.None? ==>
              && e.utterance in c.watchdog.utterances && !c.validator.closed && c.watchdog.phase.Active?
              && e.utterance in ReceiveFinal(c, e, now).coordinator.validator.terminal
  {
    hide V.Validate;
    ValidateBooked(c.validator, e, now);
    var d := Verdict(c, e, now);
    if d.error.Some? {
      VerdictKeepsInv(c, e, now);
    } else if W.FinalError(c.watchdog, e.stream, e.utterance, e.outcome, now).None? {
      ClosedAcceptsNothing(c.validator, e, now);
      var f := W.FinishUtterance(c.watchdog, e.stream, e.utterance, e.outcome.Cancelled?);
      assert f.watchdog.utterances.Keys == c.watchdog.utterances.Keys - {e.utterance};
      assert Cancelling(f.watchdog) == Cancelling(c.watchdog) - {e.utterance};
    }
  }

  lemma ClosedAcceptsNothing(v: V.Validator, e: Event, now: nat)
    requires V.Validate(v, e, now).verdict.Accepted?
    ensures !v.closed && e.header.session == v.contract.session
  {}

  lemma ClosedSaysSo(v: V.Validator, e: Event, now: nat)
    ensures v.closed ==> V.Validate(v, e, now) == V.Reject(v, V.SessionTerminal)
  {}

  lemma ClosedKeepsInv(c: Coordinator, e: Event, now: W.Ns)
    requires Inv(c) && e.SessionClosed?
    ensures Inv(ReceiveClosed(c, e, now).coordinator)
  {
    VerdictKeepsInv(c, e, now);
    hide V.Validate;
  }

  lemma EventKeepsInv(c: Coordinator, e: Event, now: W.Ns)
    requires Inv(c)
    ensures Inv(ValidateEvent(c, e, now).coordinator)
  {
    hide Inv, ReceiveAudio, ReceiveFinal, ReceiveClosed;
    match e
    case AudioDelta(_, _, _, _, _, _, _) => AudioKeepsInv(c, e, now);
    case UtteranceFinal(_, _, _, _, _) => FinalKeepsInv(c, e, now);
    case SessionClosed(_) => ClosedKeepsInv(c, e, now);
    case _ => VerdictKeepsInv(c, e, now);
  }

  lemma PollKeepsInv(c: Coordinator, now: W.Ns)
    requires Inv(c)
    ensures Inv(Poll(c, now).coordinator)
  {
    var w := W.Poll(c.watchdog, now).watchdog;
    if c.watchdog.phase.Active? && !W.CloseDue(c.watchdog, now) {
      assert w.utterances.Keys == c.watchdog.utterances.Keys;
      assert Cancelling(w) == Cancelling(c.watchdog) + W.Overdue(c.watchdog, now);
    }
  }

  lemma CancelExpiredKeepsInv(c: Coordinator, stream: Uuid, u: Uuid, now: W.Ns)
    requires Inv(c)
    ensures Inv(CancelExpiredUtterance(c, stream, u, now).coordinator)
  {
    var d := W.CancelUtterance(c.watchdog, stream, u, now);
    if d.error.None? {
      assert d.watchdog.utterances.Keys == c.watchdog.utterances.Keys;
      assert Cancelling(d.watchdog) == Cancelling(c.watchdog) + {u};
    }
  }

  // ---- Runs ----

  datatype Op =
    | Start(stream: Uuid, utterance: Uuid, at: W.Ns)
    | EndOfUtterance(stream: Uuid, utterance: Uuid, at: W.Ns)
    | Receive(event: Event, at: W.Ns)
    | PollAt(at: W.Ns)
    | CancelExpired(stream: Uuid, utterance: Uuid, at: W.Ns)
    | Consume(stream: Uuid, utterance: Uuid)

  function After(c: Coordinator, op: Op): Coordinator {
    match op
    case Start(s, u, at) => StartUtterance(c, s, u, at).coordinator
    case EndOfUtterance(s, u, at) => RecordEndOfUtterance(c, s, u, at).coordinator
    case Receive(e, at) => ValidateEvent(c, e, at).coordinator
    case PollAt(at) => Poll(c, at).coordinator
    case CancelExpired(s, u, at) => CancelExpiredUtterance(c, s, u, at).coordinator
    case Consume(s, u) => ConsumeReceiveAudio(c, s, u).coordinator
  }

  function Run(contract: Contract, ops: seq<Op>): Coordinator {
    if ops == [] then Fresh(contract) else After(Run(contract, ops[..|ops| - 1]), ops[|ops| - 1])
  }

  lemma AfterKeepsInv(c: Coordinator, op: Op)
    requires Inv(c)
    ensures Inv(After(c, op))
  {
    hide Inv, StartUtterance, RecordEndOfUtterance, ValidateEvent, Poll, CancelExpiredUtterance;
    match op
    case Start(s, u, at) => StartKeepsInv(c, s, u, at);
    case EndOfUtterance(s, u, at) => EndKeepsInv(c, s, u, at);
    case Receive(e, at) => EventKeepsInv(c, e, at);
    case PollAt(at) => PollKeepsInv(c, at);
    case CancelExpired(s, u, at) => CancelExpiredKeepsInv(c, s, u, at);
    case Consume(s, u) => BuffersApart(c, ConsumeReceiveAudio(c, s, u).coordinator);
  }

  lemma BuffersApart(c: Coordinator, c': Coordinator)
    requires Inv(c) && c'.watchdog == c.watchdog && c'.validator == c.validator
    ensures Inv(c')
  {}

  lemma {:induction false} RunKeepsInv(contract: Contract, ops: seq<Op>)
    ensures Inv(Run(contract, ops))
  {
    if ops != [] {
      RunKeepsInv(contract, ops[..|ops| - 1]);
      AfterKeepsInv(Run(contract, ops[..|ops| - 1]), ops[|ops| - 1]);
    }
  }

  // ---- The theorems, for every run ----

  /** In every reachable state with the session active and the validator open, both sides
      watch the same utterances and await the same cancellations. */
  lemma CouplingHolds(contract: Contract, ops: seq<Op>)
    ensures var c := Run(contract, ops);
            c.watchdog.phase.Active? && !c.validator.closed ==>
              && (forall u :: u in c.watchdog.utterances <==> u in c.validator.capture)
              && (forall u :: u in c.validator.cancelPending <==>
                    u in c.watchdog.utterances && c.watchdog.utterances[u].phase.CancelPending?)
  {
    hide Run;
    RunKeepsInv(contract, ops);
    var c := Run(contract, ops);
    if c.watchdog.phase.Active? && !c.validator.closed {
      forall u ensures u in c.watchdog.utterances <==> u in c.validator.capture {
        assert u in c.watchdog.utterances.Keys <==> u in c.validator.capture.Keys;
      }
      forall u ensures u in c.validator.cancelPending <==>
                         u in c.watchdog.utterances && c.watchdog.utterances[u].phase.CancelPending? {
        assert u in Cancelling(c.watchdog) <==> u in c.validator.cancelPending;
      }
    }
  }

  /** A validator step that succeeds commits on both sides: once the validator has spoken,
      no watchdog or buffer step can fail, so an event refused by either changed nothing,
      and an event refused by the validator left the other two alone. */
  lemma AcceptedCommits(c: Coordinator, e: Event, now: W.Ns)
    requires Inv(c)
    ensures var r := ValidateEvent(c, e, now);
            && (r.error.Some? && !r.error.value.Validation? ==> r.coordinator == c)
            && (r.error.Some? ==> r.coordinator.watchdog == c.watchdog && r.coordinator.buffers == c.buffers)
            && (r.error.None? ==> V.Validate(c.validator, e, now).verdict.Accepted?
                                  && r.coordinator.validator == V.Validate(c.validator, e, now).validator)
  {
    hide V.Validate;
    if V.Validate(c.validator, e, now).verdict.Accepted? {
      ClosedAcceptsNothing(c.validator, e, now);
    }
  }

  /** Audio for an utterance being cancelled is never taken. */
  lemma CancelledAudioRefused(c: Coordinator, e: Event, now: W.Ns)
    requires Inv(c) && e.AudioDelta? && c.watchdog.phase.Active? && W.IsCancelPending(c.watchdog, e.stream, e.utterance)
    ensures ValidateEvent(c, e, now).error.Some?
  {
    if !c.validator.closed {
      assert e.utterance in Cancelling(c.watchdog);
    }
  }

  lemma CancelPendingAgrees(c: Coordinator, stream: Uuid, u: Uuid)
    requires Inv(c) && c.watchdog.phase.Active? && !c.validator.closed && W.IsCancelPending(c.watchdog, stream, u)
    ensures u in c.validator.cancelPending
  {
    assert u in Cancelling(c.watchdog);
  }

  /** While both sides are open, deadlines are never refused by the validator. */
  lemma DeadlinesNeverRefused(c: Coordinator, stream: Uuid, u: Uuid, now: W.Ns)
    requires Inv(c) && c.watchdog.phase.Active? && !c.validator.closed
    ensures Poll(c, now).outcome.Rang?
    ensures CancelExpiredUtterance(c, stream, u, now).error.Some? ==>
              CancelExpiredUtterance(c, stream, u, now).error.value.Watchdog?
    ensures RecordEndOfUtterance(c, stream, u, now).error.Some? ==>
              RecordEndOfUtterance(c, stream, u, now).error.value.Watchdog?
  {
    assert forall x <- c.watchdog.utterances :: x in c.watchdog.utterances.Keys;
  }

  // ---- Once is enough ----

  /** The utterance has ended, or is being cancelled, or the session is past caring. */
  ghost predicate Over(c: Coordinator, u: Uuid) {
    || u in c.validator.terminal
    || !c.watchdog.phase.Active?
    || (u in c.watchdog.utterances && c.watchdog.utterances[u].phase.CancelPending?)
  }

  lemma ValidatorAfter(c: Coordinator, e: Event, now: W.Ns)
    ensures ValidateEvent(c, e, now).coordinator.validator in {c.validator, V.Validate(c.validator, e, now).validator}
  {
    hide V.Validate, W.FinishUtterance, W.RecordAudio, W.AudioError, W.FinalError, CanBuffer, W.RecordSessionClosed;
  }

  lemma ReceiveTerminalStays(c: Coordinator, e: Event, now: W.Ns, u: Uuid)
    requires u in c.validator.terminal
    ensures u in ValidateEvent(c, e, now).coordinator.validator.terminal
  {
    hide V.Validate, ValidateEvent;
    ValidatorAfter(c, e, now);
    ValidateBooked(c.validator, e, now);
  }

  lemma TerminalStays(c: Coordinator, op: Op, u: Uuid)
    requires Inv(c) && u in c.validator.terminal
    ensures u in After(c, op).validator.terminal
  {
    hide Inv;
    if op.Receive? {
      hide ValidateEvent;
      ReceiveTerminalStays(c, op.event, op.at, u);
    }
  }

  lemma OverStays(c: Coordinator, op: Op, u: Uuid)
    requires Inv(c) && Over(c, u)
    ensures Over(After(c, op), u)
  {
    if u in c.validator.terminal {
      TerminalStays(c, op, u);
    } else if op.Receive? {
      ReceiveOverStays(c, op.event, op.at, u);
    }
  }

  lemma ReceiveOverStays(c: Coordinator, e: Event, now: W.Ns, u: Uuid)
    requires Inv(c) && Over(c, u) && u !in c.validator.terminal
    ensures Over(ValidateEvent(c, e, now).coordinator, u)
  {
    hide V.Validate, Inv;
    if e.UtteranceFinal? {
      FinalKeepsInv(c, e, now);
    }
  }

  /** The operation ends the utterance: its final is accepted. */
  predicate Ends(c: Coordinator, op: Op, u: Uuid) {
    op.Receive? && op.event.UtteranceFinal? && op.event.utterance == u && ValidateEvent(c, op.event, op.at).error.None?
  }

  /** The operation asks for the utterance to be cancelled. */
  predicate Cancels(c: Coordinator, op: Op, u: Uuid) {
    || (op.PollAt? && Poll(c, op.at).outcome.Rang? && Poll(c, op.at).outcome.alarm.Cancel?
        && u in Poll(c, op.at).outcome.alarm.utterances)
    || (op.CancelExpired? && op.utterance == u && CancelExpiredUtterance(c, op.stream, u, op.at).error.None?)
  }

  lemma EndsOnce(c: Coordinator, op: Op, u: Uuid)
    requires Inv(c)
    ensures Ends(c, op, u) ==> u !in c.validator.terminal && u in After(c, op).validator.terminal
    ensures Cancels(c, op, u) ==> !Over(c, u) && Over(After(c, op), u)
  {
    if Ends(c, op, u) {
      FinalKeepsInv(c, op.event, op.at);
      assert u in c.watchdog.utterances.Keys;
      hide V.Validate;
    }
    if Cancels(c, op, u) {
      assert u in c.watchdog.utterances.Keys;
    }
  }

  lemma StepStaysOver(c: Coordinator, op: Op, u: Uuid)
    requires Inv(c)
    ensures u in c.validator.terminal ==> u in After(c, op).validator.terminal
    ensures Over(c, u) ==> Over(After(c, op), u)
  {
    hide Inv, Over, After;
    if u in c.validator.terminal {
      TerminalStays(c, op, u);
    }
    if Over(c, u) {
      OverStays(c, op, u);
    }
  }

  lemma {:induction false} StaysOver(contract: Contract, ops: seq<Op>, i: nat, j: nat, u: Uuid)
    requires i <= j <= |ops|
    ensures u in Run(contract, ops[..i]).validator.terminal ==> u in Run(contract, ops[..j]).validator.terminal
    ensures Over(Run(contract, ops[..i]), u) ==> Over(Run(contract, ops[..j]), u)
    decreases j
  {
    hide Inv, Over, After;
    if i < j {
      StaysOver(contract, ops, i, j - 1, u);
      RunMore(contract, ops, j);
      hide Run;
      RunKeepsInv(contract, ops[..j - 1]);
      StepStaysOver(Run(contract, ops[..j - 1]), ops[j - 1], u);
    }
  }

  lemma RunMore(contract: Contract, ops: seq<Op>, j: nat)
    requires 0 < j <= |ops|
    ensures Run(contract, ops[..j]) == After(Run(contract, ops[..j - 1]), ops[j - 1])
  {
    hide After;
    assert ops[..j][..j - 1] == ops[..j - 1];
  }

  /** Over every run, an utterance has at most one accepted final. */
  lemma OneTerminal(contract: Contract, ops: seq<Op>, i: nat, j: nat, u: Uuid)
    requires i < j < |ops| && Ends(Run(contract, ops[..i]), ops[i], u)
    ensures !Ends(Run(contract, ops[..j]), ops[j], u)
  {
    hide Inv, Ends, After, Over;
    RunKeepsInv(contract, ops[..i]);
    RunKeepsInv(contract, ops[..j]);
    assert ops[..i + 1][..i] == ops[..i];
    EndsOnce(Run(contract, ops[..i]), ops[i], u);
    StaysOver(contract, ops, i + 1, j, u);
    EndsOnce(Run(contract, ops[..j]), ops[j], u);
  }

  /** Over every run, an utterance is asked to cancel at most once. */
  lemma OneCancellation(contract: Contract, ops: seq<Op>, i: nat, j: nat, u: Uuid)
    requires i < j < |ops| && Cancels(Run(contract, ops[..i]), ops[i], u)
    ensures !Cancels(Run(contract, ops[..j]), ops[j], u)
  {
    hide Inv, Cancels, After, Over;
    RunKeepsInv(contract, ops[..i]);
    RunKeepsInv(contract, ops[..j]);
    assert ops[..i + 1][..i] == ops[..i];
    EndsOnce(Run(contract, ops[..i]), ops[i], u);
    StaysOver(contract, ops, i + 1, j, u);
    EndsOnce(Run(contract, ops[..j]), ops[j], u);
  }

  // ---- The validator alone is not enough ----

  /** If a cancellation is recorded while an overflow final is pending, the validator on its
      own accepts a cancelled final and then a dropped final for the same utterance. */
  lemma ValidatorAloneEndsTwice(v: V.Validator, u: Uuid, n: nat, now: nat)
    requires v.isOpen && !v.closed && v.lastSequence == Some(n) && u in v.capture && u !in v.terminal
    requires v.pendingOverflow == v.pendingNoSpeech == None && u !in v.cancelPending
             && |v.terminal| + 1 < MAX_TERMINAL_UTTERANCES
    ensures var head := Header(v.contract.session, v.contract.direction, n + 1);
            var r1 := V.Validate(v, Error(head, Some(v.contract.stream), Some(u), QueueOverflow), now);
            var r2 := V.RecordCancelRequested(r1.validator, u);
            var head2 := head.(sequence := n + 2);
            var cancelled := UtteranceFinal(head2, v.contract.stream, u, Lookup(v.wire, u), Cancelled);
            var r3 := V.Validate(r2.validator, cancelled, now);
            var dropped := UtteranceFinal(head.(sequence := n + 3), v.contract.stream, u, None, Dropped);
            var r4 := V.Validate(r3.validator, dropped, now);
            r1.verdict.Accepted? && r2.verdict.Accepted? && r3.verdict.Accepted? && r4.verdict.Accepted?
  {
    var head := Header(v.contract.session, v.contract.direction, n + 1);
    OverflowTaken(v, u, n, head, now);
    var v1 := v.(pendingNoSpeechLatency := None, pendingOverflow := Some(u), lastSequence := Some(n + 1));
    var v2 := v1.(cancelPending := v.cancelPending + {u});
    assert V.RecordCancelRequested(v1, u) == V.Accept(v2);
    CancelledTaken(v2, u, n + 1, head.(sequence := n + 2), now);
    var cancelled := UtteranceFinal(head.(sequence := n + 2), v.contract.stream, u, Lookup(v.wire, u), Cancelled);
    var v3 := V.Validate(v2, cancelled, now).validator;
    DroppedTaken(v3, u, n + 2, head.(sequence := n + 3), now);
    hide V.Validate;
  }

  lemma OverflowTaken(v: V.Validator, u: Uuid, n: nat, head: Header, now: nat)
    requires v.isOpen && !v.closed && v.lastSequence == Some(n) && u in v.capture && u !in v.terminal
             && u !in v.cancelPending
    requires v.pendingOverflow == v.pendingNoSpeech == None
    requires head == Header(v.contract.session, v.contract.direction, n + 1)
    ensures V.Validate(v, Error(head, Some(v.contract.stream), Some(u), QueueOverflow), now) ==
            V.Accept(v.(pendingNoSpeechLatency := None, pendingOverflow := Some(u), lastSequence := Some(n + 1)))
  {}

  lemma CancelledTaken(v: V.Validator, u: Uuid, n: nat, head: Header, now: nat)
    requires v.isOpen && !v.closed && v.lastSequence == Some(n) && u in v.cancelPending
             && |v.terminal| + 1 < MAX_TERMINAL_UTTERANCES
    requires head == Header(v.contract.session, v.contract.direction, n + 1) && v.pendingOverflow == Some(u)
    ensures var r := V.Validate(v, UtteranceFinal(head, v.contract.stream, u, Lookup(v.wire, u), Cancelled), now);
            && r.verdict.Accepted? && u !in r.validator.cancelPending && r.validator.pendingOverflow == Some(u)
            && r.validator.isOpen && !r.validator.closed && r.validator.lastSequence == Some(n + 1)
               && u !in r.validator.playable
            && r.validator.contract == v.contract && |r.validator.terminal| < MAX_TERMINAL_UTTERANCES
  {
    assert |v.terminal + {u}| <= |v.terminal| + 1;
  }

  lemma DroppedTaken(v: V.Validator, u: Uuid, n: nat, head: Header, now: nat)
    requires v.isOpen && !v.closed && v.lastSequence == Some(n) && u !in v.cancelPending && u !in v.playable
    requires |v.terminal| < MAX_TERMINAL_UTTERANCES
    requires head == Header(v.contract.session, v.contract.direction, n + 1) && v.pendingOverflow == Some(u)
    ensures V.Validate(v, UtteranceFinal(head, v.contract.stream, u, None, Dropped), now).verdict.Accepted?
  {}

  /** Exactly when the validator takes a final for an utterance that has already ended. */
  lemma SecondFinalIff(v: V.Validator, e: Event, now: nat)
    requires e.UtteranceFinal? && e.utterance in v.terminal && V.EnvelopeError(v, e).None?
    requires e.utterance !in v.cancelPending && e.utterance !in v.playable
    ensures V.Validate(v, e, now).verdict.Accepted? <==>
              && (v.pendingOverflow == Some(e.utterance) || (v.pendingOverflow.None?
                 && v.pendingNoSpeech == Some(e.utterance)))
              && e.outcome.Dropped? && e.finalAudio.None? && |v.terminal| < MAX_TERMINAL_UTTERANCES
  {}
}

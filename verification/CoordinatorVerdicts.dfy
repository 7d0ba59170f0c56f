/** What the coordinator takes is what both the validator and the watchdog take, with room in the
    buffer; and what it refuses leaves no trace beyond audio that came in order but too late. */
module CoordinatorVerdicts {
  import opened Wire
  import W = WatchdogModel
  import V = ValidatorModel
  import opened CoordinatorModel
  import K = Coupling

  /** The watchdog lets the event through. */
  predicate InTime(c: Coordinator, e: Event, now: W.Ns) {
    && (c.watchdog.phase.Active? || e.SessionClosed?)
    && (e.AudioDelta? ==> W.AudioError(c.watchdog, e.stream, e.utterance, now).None?)
    && (e.UtteranceFinal? ==> W.FinalError(c.watchdog, e.stream, e.utterance, e.outcome, now).None?)
  }

  predicate HasRoom(c: Coordinator, e: Event) {
    e.AudioDelta? ==> BufferAt(c, e.stream, e.utterance).ms + e.format.frameDurationMs <= 400
  }

  /** In every reachable state, an event is taken exactly when the validator accepts it, the
      watchdog lets it through and there is room. */
  lemma EventTakenIff(contract: Contract, ops: seq<K.Op>, e: Event, now: W.Ns)
    ensures var c := K.Run(contract, ops);
            ValidateEvent(c, e, now).error.None? <==>
              V.Validate(c.validator, e, now).verdict.Accepted? && InTime(c, e, now) && HasRoom(c, e)
  {
    K.RunKeepsInv(contract, ops);
    hide K.Run;
    TakenIff(K.Run(contract, ops), e, now);
  }

  lemma TakenIff(c: Coordinator, e: Event, now: W.Ns)
    requires K.Inv(c)
    ensures ValidateEvent(c, e, now).error.None? <==>
              V.Validate(c.validator, e, now).verdict.Accepted? && InTime(c, e, now) && HasRoom(c, e)
  {
    K.AcceptedCommits(c, e, now);
    if V.Validate(c.validator, e, now).verdict.Accepted? {
      K.ClosedAcceptsNothing(c.validator, e, now);
      if e.UtteranceFinal? {
        DecidedEnd(c.validator, e, now);
      }
    }
    if e.AudioDelta? && c.watchdog.phase.Active? && W.IsCancelPending(c.watchdog, e.stream, e.utterance) {
      K.CancelledAudioRefused(c, e, now);
    }
    hide V.Validate;
  }

  lemma DecidedEnd(v: V.Validator, e: Event, now: nat)
    requires e.UtteranceFinal? && V.Validate(v, e, now).verdict.Accepted?
    ensures !e.outcome.Unspecified?
  {
    hide V.Terminalize;
  }

  /** An event is refused with the watchdog and the buffers as they were; and unless the validator
      refused it, with nothing changed at all. Audio of an utterance being cancelled always goes
      to the validator. */
  lemma RefusedLeaves(contract: Contract, ops: seq<K.Op>, e: Event, now: W.Ns)
    ensures var (c, v) := (K.Run(contract, ops), V.Validate(K.Run(contract, ops).validator, e, now));
            var d := ValidateEvent(c, e, now);
            d.error.Some? ==>
              && d.coordinator.watchdog == c.watchdog && d.coordinator.buffers == c.buffers
              && (if d.error.value.Validation?
                  then v.verdict == V.Rejected(d.error.value.validation) && d.coordinator.validator == v.validator
                  else d.coordinator == c)
              && (e.AudioDelta? && c.watchdog.phase.Active? && W.IsCancelPending(c.watchdog, e.stream, e.utterance) ==>
                    d.error.value.Validation?)
  {
    K.RunKeepsInv(contract, ops);
    hide K.Run;
    K.AcceptedCommits(K.Run(contract, ops), e, now);
    hide V.Validate, K.Inv;
  }

  /** What is told is taken exactly when both sides take it, and otherwise nothing is changed. */
  lemma ToldTakenIff(contract: Contract, ops: seq<K.Op>, stream: Uuid, u: Uuid, at: W.Ns)
    requires K.Run(contract, ops).watchdog.phase.Active? && !K.Run(contract, ops).validator.closed
    ensures var c := K.Run(contract, ops);
            && (StartUtterance(c, stream, u, at).error.None? <==>
                  && W.StartUtterance(c.watchdog, stream, u, at).error.None?
                  && V.RecordInput(c.validator, u, at).verdict.Accepted?)
            && (StartUtterance(c, stream, u, at).error.Some? ==> StartUtterance(c, stream, u, at).coordinator == c)
            && (RecordEndOfUtterance(c, stream, u, at).error.None? <==>
                  W.RecordEndOfUtterance(c.watchdog, stream, u, at).error.None?)
            && (RecordEndOfUtterance(c, stream, u, at).error.Some? ==>
                  RecordEndOfUtterance(c, stream, u, at).coordinator == c)
            && (CancelExpiredUtterance(c, stream, u, at).error.None? <==>
                  W.CancelUtterance(c.watchdog, stream, u, at).error.None?)
            && (CancelExpiredUtterance(c, stream, u, at).error.Some? ==>
                  CancelExpiredUtterance(c, stream, u, at).coordinator == c)
  {
    K.RunKeepsInv(contract, ops);
    var c := K.Run(contract, ops);
    hide K.Run;
    K.DeadlinesNeverRefused(c, stream, u, at);
    Undone(c, stream, u, at);
    hide K.Inv, V.RecordInput, V.RecordEndOfUtterance, V.RecordCancelRequested, W.StartUtterance,
         W.RecordEndOfUtterance, W.CancelUtterance;
  }

  lemma Undone(c: Coordinator, stream: Uuid, u: Uuid, at: W.Ns)
    ensures var d := W.StartUtterance(c.watchdog, stream, u, at);
            d.error.None? ==> W.DisarmUtterance(d.watchdog, stream, u) == W.Done(c.watchdog, None)
  {
    var d := W.StartUtterance(c.watchdog, stream, u, at);
    if d.error.None? {
      assert d.watchdog.utterances - {u} == c.watchdog.utterances;
    }
  }

  /** What is taken is told to both sides. */
  lemma ToldBoth(c: Coordinator, stream: Uuid, u: Uuid, at: W.Ns)
    ensures var d := StartUtterance(c, stream, u, at);
            d.error.None? ==> && d.coordinator.watchdog == W.StartUtterance(c.watchdog, stream, u, at).watchdog
                              && d.coordinator.validator == V.RecordInput(c.validator, u, at).validator
                              && d.coordinator.buffers == c.buffers
    ensures var d := RecordEndOfUtterance(c, stream, u, at);
            d.error.None? ==> && d.coordinator.watchdog == W.RecordEndOfUtterance(c.watchdog, stream, u, at).watchdog
                              && d.coordinator.validator == V.RecordEndOfUtterance(c.validator, u, at).validator
                              && d.coordinator.buffers == c.buffers
    ensures var d := CancelExpiredUtterance(c, stream, u, at);
            d.error.None? ==> && d.coordinator.watchdog == W.CancelUtterance(c.watchdog, stream, u, at).watchdog
                              && d.coordinator.validator == V.RecordCancelRequested(c.validator, u).validator
                              && d.coordinator.buffers == c.buffers - {(stream, u)}
  {
    hide V.RecordInput, V.RecordEndOfUtterance, V.RecordCancelRequested, W.StartUtterance, W.RecordEndOfUtterance,
         W.CancelUtterance;
  }

  /** An event that is taken is noted on both sides: audio restarts the clock, an end forgets the
      utterance, a close ends everything. */
  lemma TakenBoth(contract: Contract, ops: seq<K.Op>, e: Event, now: W.Ns)
    requires ValidateEvent(K.Run(contract, ops), e, now).error.None?
    ensures var c := K.Run(contract, ops);
            var c' := ValidateEvent(c, e, now).coordinator;
            && c'.validator == V.Validate(c.validator, e, now).validator
            && c'.watchdog ==
                 (match e
                  case AudioDelta(_, s, u, _, _, _, _) => W.RecordAudio(c.watchdog, s, u, now).watchdog
                  case UtteranceFinal(_, s, u, _, outcome) =>
                    W.FinishUtterance(c.watchdog, s, u, outcome == Cancelled).watchdog
                  case SessionClosed(head) => W.RecordSessionClosed(c.watchdog, head.session).watchdog
                  case _ => c.watchdog)
  {
    K.RunKeepsInv(contract, ops);
    var c := K.Run(contract, ops);
    hide K.Run;
    K.AcceptedCommits(c, e, now);
    if e.UtteranceFinal? {
      DecidedEnd(c.validator, e, now);
    }
    if e.AudioDelta? && c.watchdog.phase.Active? && W.IsCancelPending(c.watchdog, e.stream, e.utterance) {
      K.CancelledAudioRefused(c, e, now);
    }
    hide V.Validate, K.Inv;
  }
}

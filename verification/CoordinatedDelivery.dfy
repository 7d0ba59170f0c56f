/** Provider events through the coordinator: the validator's verdict, and on top of it exactly
    what the watchdog asks for. */
module CoordinatedDelivery {
  import opened Wire
  import W = WatchdogModel
  import V = ValidatorModel
  import K = Coupling
  import S = Simulation
  import opened CoordinatorModel

  /** The utterance the watchdog must be ready to hear about, if the event is audio or an end. */
  predicate Weighty(e: Event) {
    e.AudioDelta? || e.UtteranceFinal?
  }

  /** The watchdog is ready for the event: the end of the input was recorded, or for a
      cancelled end the cancellation was, and the deadline has not passed. */
  predicate Ready(w: W.Watchdog, e: Event, now: W.Ns) {
    Weighty(e) ==>
      && e.utterance in w.utterances
      && var phase := w.utterances[e.utterance].phase;
         && now <= phase.deadline
         && (if e.UtteranceFinal? && e.outcome.Cancelled? then phase.CancelPending?
             else phase.AwaitingFirstAudio? || phase.StreamingAudio?)
  }

  /** A stream in use: one stream, active, nothing left in the buffers. */
  ghost predicate InUse(c: Coordinator) {
    && K.Inv(c) && c.watchdog.phase.Active? && !c.validator.closed && c.buffers == map[]
    && forall u <- c.watchdog.utterances :: c.watchdog.utterances[u].stream == c.validator.contract.stream
  }

  /** Audio that was accepted is taken out of its buffer at once, as a direction session does. */
  function Take(c: Coordinator, e: Event, now: W.Ns): Done {
    var d := ValidateEvent(c, e, now);
    if d.error.None? && e.AudioDelta? then Ok(ConsumeReceiveAudio(d.coordinator, e.stream, e.utterance).coordinator)
        else d
  }

  /** Events delivered one after the other at one reading of the clock. */
  function Deliver(c: Coordinator, es: seq<Event>, now: W.Ns): Option<Coordinator>
    decreases |es|
  {
    if es == [] then Some(c)
    else
      var d := Take(c, es[0], now);
      if d.error.None? then Deliver(d.coordinator, es[1..], now) else None
  }

  // ---- One event ----

  lemma AcceptedOnStream(v: V.Validator, e: Event, now: nat)
    requires V.Validate(v, e, now).verdict.Accepted?
    ensures Weighty(e) ==> e.stream == v.contract.stream
    ensures e.AudioDelta? ==>
              e.format == v.contract.outputFormat && e.utterance !in v.cancelPending && e.utterance in v.capture
    ensures e.UtteranceFinal? ==> !e.outcome.Unspecified?
  {
    hide PcmFormat.FrameBytes, V.Terminalize, V.TooLate;
  }

  /** An event is taken if and only if the validator accepts it and the watchdog is ready for
      it: audio in short frames always finds room. */
  lemma TakenIff(c: Coordinator, e: Event, now: W.Ns)
    requires InUse(c) && c.validator.contract.outputFormat.frameDurationMs <= MAX_RECEIVE_BUFFERED_MS
    ensures Take(c, e, now).error.None? <==>
              V.Validate(c.validator, e, now).verdict.Accepted? && Ready(c.watchdog, e, now)
  {
    hide V.Validate;
    if V.Validate(c.validator, e, now).verdict.Accepted? {
      AcceptedOnStream(c.validator, e, now);
      K.ClosedAcceptsNothing(c.validator, e, now);
    }
  }

  /** What was watched and is still, is watched as before: collecting or not, and nothing is
      being cancelled that was not. */
  ghost predicate WatchedOn(w: W.Watchdog, w': W.Watchdog) {
    forall u <- w'.utterances ::
      && u in w.utterances
      && (w'.utterances[u].phase.CollectingInput? <==> w.utterances[u].phase.CollectingInput?)
      && (w'.utterances[u].phase.CancelPending? ==> w.utterances[u].phase.CancelPending?)
  }

  /** The watched utterances after an event was taken. */
  function WatchedAfter(w: W.Watchdog, e: Event, now: W.Ns): map<Uuid, W.Watched> {
    if e.AudioDelta? && e.utterance in w.utterances
    then
      var phase := W.StreamingAudio(W.SaturatingAdd(now, W.INTER_AUDIO_NS));
      w.utterances[e.utterance := w.utterances[e.utterance].(phase := phase)]
    else if e.UtteranceFinal? then w.utterances - {e.utterance}
    else w.utterances
  }

  lemma TakenIs(c: Coordinator, e: Event, now: W.Ns)
    requires InUse(c) && !e.SessionClosed? && Take(c, e, now).error.None?
    ensures var c' := Take(c, e, now).coordinator;
            && c'.validator == V.Validate(c.validator, e, now).validator
            && c'.watchdog == c.watchdog.(utterances := WatchedAfter(c.watchdog, e, now))
            && c'.buffers == map[]
  {
    hide V.Validate;
    AcceptedOnStream(c.validator, e, now);
    var key := if Weighty(e) then (e.stream, e.utterance) else (c.watchdog.session, c.watchdog.session);
    assert c.buffers - {key} == map[];
    forall b: ReceiveBuffer ensures map[key := b] - {key} == map[] {}
  }

  lemma TakenInUse(c: Coordinator, e: Event, now: W.Ns)
    requires InUse(c) && !e.SessionClosed? && Take(c, e, now).error.None?
    ensures InUse(Take(c, e, now).coordinator)
    ensures Take(c, e, now).coordinator.validator.contract == c.validator.contract
  {
    TakenIs(c, e, now);
    K.EventKeepsInv(c, e, now);
    K.ValidateBooked(c.validator, e, now);
    AcceptedHere(c, e, now);
    hide V.Validate, K.Inv, ValidateEvent;
    K.BuffersApart(ValidateEvent(c, e, now).coordinator, Take(c, e, now).coordinator);
  }

  lemma AcceptedHere(c: Coordinator, e: Event, now: W.Ns)
    requires InUse(c) && Take(c, e, now).error.None?
    ensures V.Validate(c.validator, e, now).verdict.Accepted?
  {
    hide V.Validate;
    K.AcceptedCommits(c, e, now);
  }

  /** Taking an event leaves the watchdog as ready for later ones as it was. */
  lemma ReadyStays(w: W.Watchdog, w': W.Watchdog, e: Event, later: Event, now: W.Ns)
    requires Ready(w, e, now) && w'.utterances == WatchedAfter(w, e, now)
    requires e.UtteranceFinal? && Weighty(later) ==> later.utterance != e.utterance
    ensures Ready(w', later, now) <==> Ready(w, later, now)
  {}

  lemma WatchedStays(w: W.Watchdog, w': W.Watchdog, e: Event, now: W.Ns)
    requires Ready(w, e, now) && w'.utterances == WatchedAfter(w, e, now)
    ensures WatchedOn(w, w')
  {}

  // ---- All events of a call ----

  /** Nothing is played for an utterance, nor does it end again, after it ended. */
  ghost predicate OneEnd(es: seq<Event>) {
    forall i, j :: 0 <= i < j < |es| && es[i].UtteranceFinal? && Weighty(es[j]) ==> es[j].utterance != es[i].utterance
  }

  ghost predicate AllReady(w: W.Watchdog, es: seq<Event>, now: W.Ns) {
    forall i :: 0 <= i < |es| ==> Ready(w, es[i], now)
  }

  ghost predicate Open(es: seq<Event>) {
    forall i :: 0 <= i < |es| ==> !es[i].SessionClosed?
  }

  lemma OneEndRest(es: seq<Event>)
    requires es != [] && OneEnd(es) && Open(es)
    ensures OneEnd(es[1..]) && Open(es[1..]) && !es[0].SessionClosed?
    ensures forall k :: 0 <= k < |es[1..]| && es[0].UtteranceFinal? && Weighty(es[1..][k]) ==>
              es[1..][k].utterance != es[0].utterance
  {
    var rest := es[1..];
    assert forall k :: 0 <= k < |rest| ==> rest[k] == es[k + 1];
  }

  lemma AllReadyRest(w: W.Watchdog, w': W.Watchdog, es: seq<Event>, now: W.Ns)
    requires es != [] && OneEnd(es) && Open(es) && Ready(w, es[0], now) && w'.utterances == WatchedAfter(w, es[0], now)
    ensures AllReady(w, es, now) <==> AllReady(w', es[1..], now)
  {
    hide Ready, WatchedAfter;
    OneEndRest(es);
    var rest := es[1..];
    forall k | 0 <= k < |rest| ensures Ready(w', rest[k], now) <==> Ready(w, rest[k], now) {
      ReadyStays(w, w', es[0], rest[k], now);
    }
    assert forall k :: 0 <= k < |rest| ==> rest[k] == es[k + 1];
    if AllReady(w', rest, now) {
      forall i | 0 <= i < |es| ensures Ready(w, es[i], now) {
        assert i > 0 ==> es[i] == rest[i - 1];
      }
    }
  }

  /** Events of one call are all taken if and only if the validator alone would accept them and
      the watchdog was ready for each when the call was made. */
  lemma {:induction false} DeliveredIff(c: Coordinator, es: seq<Event>, now: W.Ns)
    requires InUse(c) && c.validator.contract.outputFormat.frameDurationMs <= MAX_RECEIVE_BUFFERED_MS
    requires OneEnd(es) && Open(es)
    ensures var (all, v) := (Deliver(c, es, now), S.Deliver(c.validator, es, now));
            && (all.Some? <==> v.Some? && AllReady(c.watchdog, es, now))
            && (all.Some? ==> && InUse(all.value) && all.value.validator == v.value
                              && all.value.validator.contract == c.validator.contract
                              && WatchedOn(c.watchdog, all.value.watchdog))
    decreases |es|
  {
    hide V.Validate, InUse, Ready, WatchedAfter, Take, AllReady, OneEnd, Open, WatchedOn;
    if es != [] {
      OneEndRest(es);
      TakenIff(c, es[0], now);
      if Take(c, es[0], now).error.None? {
        var c' := Take(c, es[0], now).coordinator;
        TakenIs(c, es[0], now);
        TakenInUse(c, es[0], now);
        AllReadyRest(c.watchdog, c'.watchdog, es, now);
        WatchedStays(c.watchdog, c'.watchdog, es[0], now);
        DeliveredIff(c', es[1..], now);
        if Deliver(c', es[1..], now).Some? {
          WatchedThrough(c.watchdog, c'.watchdog, Deliver(c', es[1..], now).value.watchdog);
        }
      } else {
        FirstReady(c.watchdog, es, now);
      }
    } else {
      NothingToTake(c.watchdog, now);
    }
  }

  lemma FirstReady(w: W.Watchdog, es: seq<Event>, now: W.Ns)
    requires es != []
    ensures AllReady(w, es, now) ==> Ready(w, es[0], now)
  {}

  lemma NothingToTake(w: W.Watchdog, now: W.Ns)
    ensures AllReady(w, [], now) && WatchedOn(w, w)
  {}

  lemma WatchedThrough(w: W.Watchdog, w': W.Watchdog, w'': W.Watchdog)
    requires WatchedOn(w, w') && WatchedOn(w', w'')
    ensures WatchedOn(w, w'')
  {}
}

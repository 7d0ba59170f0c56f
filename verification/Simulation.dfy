/** The two ends of the provider protocol agree: whatever calls are made on a provider
    session, the daemon's validator accepts every event the session returns. */
module Simulation {
  import opened Wire
  import opened EngineModel
  import opened EngineRuns
  import V = ValidatorModel

  // ---- The two ends, run together ----

  /** The contract the daemon holds is the request it opened the session with. */
  predicate SameContract(request: OpenRequest, c: Contract) {
    && c.session == request.session
    && c.direction == request.direction
    && c.source == request.source
    && c.target == request.target
    && c.mode == request.mode
    && c.inputFormat == request.inputFormat
    && c.outputFormat == request.outputFormat
    && c.debugText == request.debugText
    && c.provider == Local
  }

  /** Events delivered one after the other, all at one reading of the clock. */
  function Deliver(v: V.Validator, es: seq<Event>, now: nat): Option<V.Validator>
    decreases |es|
  {
    if es == [] then Some(v)
    else
      var c := V.Validate(v, es[0], now);
      if c.verdict.Accepted? then Deliver(c.validator, es[1..], now) else None
  }

  /** What the daemon records as it sends a request. */
  function Tell(v: V.Validator, op: Op): V.Checked {
    match op
    case Enqueue(f, _) =>
      var first := if f.utterance in v.capture then V.Accept(v) else V.RecordInput(v, f.utterance, f.captureNs);
      if first.verdict.Accepted? && f.endOfUtterance
      then V.RecordEndOfUtterance(first.validator, f.utterance, f.captureNs)
      else first
    case Cancel(_, u) => V.RecordCancelRequested(v, u)
    case SetDebug(enabled) => V.Accept(V.SetDebugText(v, enabled))
    case _ => V.Accept(v)
  }

  function Clock(op: Op): nat {
    if op.Enqueue? || op.Process? || op.Drain? then op.now else 0
  }

  /** Both ends: running, ended by a raise of the engine, or with an event refused. */
  datatype Joint =
    | Running(session: Session, validator: V.Validator)
    | Raising
    | Refused

  ghost function Step(inj: Injection, j: Joint, op: Op): Joint
    requires j.Running? ==> Inv(j.session)
  {
    if !j.Running? then j
    else
      var r := Apply(inj, j.session, op);
      if r.answer.Raised? then Raising
      else
        var told := Tell(j.validator, op);
        if told.verdict.Rejected? then Refused
        else
          match Deliver(told.validator, r.answer.events, Clock(op))
          case None => Refused
          case Some(v) => Running(r.session, v)
  }

  ghost function Together(inj: Injection, request: OpenRequest, contract: Contract, ops: seq<Op>): (j: Joint)
    requires Openable(request)
    ensures j.Running? ==> Inv(j.session)
  {
    if ops == [] then
      match Deliver(V.Fresh(contract), [OpenedEvent(request)], 0)
      case None => Refused
      case Some(v) => assert Inv(Opened(request)); Running(Opened(request), v)
    else
      var j := Together(inj, request, contract, ops[..|ops| - 1]);
      if j.Running? then ApplyKeepsInv(inj, j.session, ops[|ops| - 1]); Step(inj, j, ops[|ops| - 1])
      else j
  }

  // ---- The agreement between the two ends ----

  ghost function Waiting(s: Session, u: Uuid): seq<Frame> {
    FramesIn(s.output, u) + FramesIn(s.input, u)
  }

  /** An utterance that has played nothing has its first frame queued, and the validator
      heard of that frame's capture time. */
  ghost predicate FirstHeard(s: Session, v: V.Validator, u: Uuid) {
    u in v.capture && u !in s.lastAudio ==> Waiting(s, u) != [] && Waiting(s, u)[0].captureNs == v.capture[u]
  }

  ghost predicate SameBooks(s: Session, v: V.Validator) {
    && SameContract(s.request, v.contract.(debugText := s.request.debugText))
    && v.isOpen && !v.closed && !s.closed
    && v.lastSequence == Some(s.eventSequence)
    && v.debugText == s.debugText
    && v.terminal == s.terminal
    && v.capture.Keys == v.complete.Keys == s.streams.Keys
    && v.wire == v.playable == s.lastAudio
    && v.cancelPending == {}
    && v.pendingNoSpeech == v.pendingNoSpeechLatency == None
    && (forall u <- s.streams :: s.streams[u] == v.contract.stream)
  }

  /** The utterance has played nothing, and the time recorded for its end is too old. */
  predicate TooLateFor(s: Session, v: V.Validator, u: Uuid, now: nat) {
    u !in s.lastAudio && u in v.complete && V.TooLate(v, v.complete[u], now)
  }

  /** No utterance ends before it begins. */
  ghost predicate Timely(v: V.Validator) {
    forall u <- v.capture :: u in v.complete ==> v.capture[u] <= v.complete[u]
  }

  ghost predicate AgreeBut(s: Session, v: V.Validator, moving: Option<Uuid>) {
    && SameBooks(s, v)
    && v.pendingOverflow == None
    && forall u :: moving != Some(u) ==> FirstHeard(s, v, u)
  }

  ghost predicate Agree(s: Session, v: V.Validator) {
    if s.closed then v.closed else AgreeBut(s, v, None)
  }

  // ---- One event at a time ----

  /** The validator once an utterance's final is accepted. */
  function Ended(v: V.Validator, u: Uuid, sequence: nat): V.Validator {
    v.(lastSequence := Some(sequence), pendingOverflow := None, pendingNoSpeechLatency := None,
       terminal := v.terminal + {u}, capture := v.capture - {u}, complete := v.complete - {u},
       wire := v.wire - {u}, playable := v.playable - {u}, cancelPending := v.cancelPending - {u})
  }

  lemma FinalVerdict(s: Session, v: V.Validator, x: Uuid, outcome: Outcome, now: nat)
    requires SameBooks(s, v) && x in s.streams && outcome in {Completed, Dropped}
    requires v.pendingOverflow == None || (v.pendingOverflow == Some(x) && outcome == Dropped)
    requires |s.terminal| < MAX_TERMINAL_UTTERANCES && x !in s.terminal
    ensures V.Validate(v, FinalOf(s, v.contract.stream, x, outcome), now) == V.Accept(Ended(v, x, s.eventSequence + 1))
  {}

  lemma CancelVerdict(s: Session, v: V.Validator, x: Uuid, now: nat)
    requires SameBooks(s, v.(cancelPending := {})) && x in v.cancelPending && x in s.streams
    requires v.pendingOverflow == None
    requires |s.terminal| < MAX_TERMINAL_UTTERANCES && x !in s.terminal
    ensures V.Validate(v, FinalOf(s, v.contract.stream, x, Cancelled), now) ==
            V.Accept(Ended(v, x, s.eventSequence + 1))
  {}

  /** The engine forgetting an utterance and the validator forgetting it stay in step. */
  lemma EndedBooks(s: Session, v: V.Validator, x: Uuid)
    requires SameBooks(s, v.(cancelPending := {}))
    ensures var s' := Forget(s, x).(terminal := s.terminal + {x}, eventSequence := s.eventSequence + 1);
            SameBooks(s', Ended(v, x, s.eventSequence + 1).(cancelPending := {}))
  {
    hide Without, MsOf;
    assert (v.capture - {x}).Keys == v.capture.Keys - {x};
    assert (v.complete - {x}).Keys == v.complete.Keys - {x};
    assert (s.streams - {x}).Keys == s.streams.Keys - {x};
  }

  lemma EndedHeard(s: Session, v: V.Validator, x: Uuid, u: Uuid)
    requires u != x ==> FirstHeard(s, v, u)
    ensures var s' := Forget(s, x).(terminal := s.terminal + {x}, eventSequence := s.eventSequence + 1);
            FirstHeard(s', Ended(v, x, s.eventSequence + 1), u)
  {
    hide FramesIn, Without, MsOf;
    FramesInWithout(s.input, x, u);
    FramesInWithout(s.output, x, u);
  }

  /** The final of an utterance that was not cancelled. */
  lemma FinalAccepted(s: Session, v: V.Validator, x: Uuid, outcome: Outcome, now: nat)
    requires SameBooks(s, v) && x in s.streams && outcome in {Completed, Dropped}
    requires v.pendingOverflow == None || (v.pendingOverflow == Some(x) && outcome == Dropped)
    requires forall u :: u != x ==> FirstHeard(s, v, u)
    requires Terminate(s, v.contract.stream, x, outcome).answer.Events?
    ensures var r := Terminate(s, v.contract.stream, x, outcome);
            var after := Deliver(v, r.answer.events, now);
            after.Some? && AgreeBut(r.session, after.value, None)
  {
    hide SameBooks, FirstHeard, V.Validate, Forget;
    FinalVerdict(s, v, x, outcome, now);
    BooksPlain(s, v);
    EndedBooks(s, v, x);
    var (s', v') := (Terminate(s, v.contract.stream, x, outcome).session, Ended(v, x, s.eventSequence + 1));
    assert v' == v'.(cancelPending := {});
    forall u ensures FirstHeard(s', v', u) {
      EndedHeard(s, v, x, u);
    }
  }

  lemma BooksPlain(s: Session, v: V.Validator)
    requires SameBooks(s, v)
    ensures v.cancelPending == {} && SameBooks(s, v.(cancelPending := {}))
  {
    assert v == v.(cancelPending := {});
  }

  /** An error about an utterance and the dropped final after it. */
  lemma FailureAccepted(s: Session, v: V.Validator, f: Frame, code: ErrorCode, now: nat)
    requires AgreeBut(s, v, Some(f.utterance)) && f.utterance in s.streams && f.stream == v.contract.stream
    requires code in {QueueOverflow, ProviderUnavailable}
    requires FailUtterance(s, f, code).answer.Events?
    ensures var r := FailUtterance(s, f, code);
            var after := Deliver(v, r.answer.events, now);
            after.Some? && AgreeBut(r.session, after.value, None)
  {
    hide SameBooks, V.Validate, Terminate, FirstHeard, Deliver;
    var e := Error(NextHeader(s), Some(f.stream), Some(f.utterance), code);
    var s1 := s.(eventSequence := s.eventSequence + 1);
    var v1 := v.(lastSequence := Some(s.eventSequence + 1),
                 pendingOverflow := if code == QueueOverflow then Some(f.utterance) else None);
    FailureBooks(s, v, v1, f, code);
    ErrorVerdict(s, v, e, now);
    FinalAccepted(s1, v1, f.utterance, Dropped, now);
    var r := Terminate(s1, f.stream, f.utterance, Dropped);
    DeliverFirst(v, e, r.answer.events, v1, now);
  }

  lemma FailureBooks(s: Session, v: V.Validator, v1: V.Validator, f: Frame, code: ErrorCode)
    requires AgreeBut(s, v, Some(f.utterance)) && FailUtterance(s, f, code).answer.Events?
    requires v1 == v.(lastSequence := Some(s.eventSequence + 1), pendingOverflow := v1.pendingOverflow)
    ensures var s1 := s.(eventSequence := s.eventSequence + 1);
            SameBooks(s1, v1) && f.utterance !in s.terminal && forall u :: u != f.utterance ==> FirstHeard(s1, v1, u)
  {
    hide Forget, FramesIn;
    var s1 := s.(eventSequence := s.eventSequence + 1);
    forall u ensures u != f.utterance ==> FirstHeard(s1, v1, u) {
      assert u != f.utterance ==> FirstHeard(s, v, u);
    }
  }

  lemma ErrorVerdict(s: Session, v: V.Validator, e: Event, now: nat)
    requires SameBooks(s, v) && v.pendingOverflow == None
    requires e.Error? && e.header == NextHeader(s) && e.errorStream == Some(v.contract.stream)
    requires e.about.Some? && e.about.value in s.streams && e.about.value !in s.terminal
    requires e.code in {QueueOverflow, ProviderUnavailable}
    ensures V.Validate(v, e, now) ==
            V.Accept(v.(lastSequence := Some(s.eventSequence + 1),
                        pendingOverflow := if e.code == QueueOverflow then e.about else None))
  {}

  /** The validator once audio is accepted. */
  function Played(v: V.Validator, u: Uuid, number: nat, sequence: nat): V.Validator {
    v.(lastSequence := Some(sequence), wire := v.wire[u := number], playable := v.playable[u := number])
  }

  /** Audio right in every other way is accepted if and only if it is not the first audio of
      an utterance whose recorded end is too old. */
  lemma AudioVerdict(s: Session, v: V.Validator, q: Queued, now: nat)
    requires SameBooks(s, v) && v.pendingOverflow == None && NumbersOk(s.streams, s.nextAudio, s.lastAudio)
    requires q.QueuedOutput? && q.frame.utterance in s.streams && q.frame.utterance !in s.terminal
    requires q.frame.stream == v.contract.stream && q.frame.format == s.request.inputFormat == s.request.outputFormat
    requires |q.pcm| == q.frame.format.FrameBytes()
    ensures var number := if q.frame.utterance in s.nextAudio then s.nextAudio[q.frame.utterance] else 0;
            var r := V.Validate(v, AudioEvents(s, q, now)[0], now);
            if TooLateFor(s, v, q.frame.utterance, now) then r.verdict == V.Rejected(V.ExpiredAudio)
            else r == V.Accept(Played(v, q.frame.utterance, number, s.eventSequence + 1))
  {
    hide PcmFormat.FrameBytes, V.TooLate;
  }

  lemma LatencyVerdict(s: Session, v: V.Validator, e: Event, now: nat)
    requires SameBooks(s, v) && v.pendingOverflow == None
    requires e.Latency? && e.header == NextHeader(s) && e.stream == v.contract.stream && e.asrFirstMs.None?
    requires e.about.Some? && e.about.value in s.streams && e.about.value !in s.terminal
    ensures V.Validate(v, e, now) == V.Accept(v.(lastSequence := Some(s.eventSequence + 1)))
  {}

  lemma TextVerdict(s: Session, v: V.Validator, e: Event, now: nat)
    requires SameBooks(s, v) && v.pendingOverflow == None && s.debugText
    requires (e.TranscriptDelta? || e.TranslationDelta?) && e.header == NextHeader(s) && e.stream == v.contract.stream
    requires e.utterance in s.streams && e.utterance !in s.terminal
    ensures V.Validate(v, e, now) == V.Accept(v.(lastSequence := Some(s.eventSequence + 1)))
  {}

  // ---- One call at a time ----

  lemma {:induction false} DeliverBoth(v: V.Validator, a: seq<Event>, b: seq<Event>, now: nat)
    requires Deliver(v, a, now).Some?
    ensures Deliver(v, a + b, now) == Deliver(Deliver(v, a, now).value, b, now)
    decreases |a|
  {
    hide V.Validate;
    if a == [] {
      assert a + b == b;
    } else {
      assert (a + b)[1..] == a[1..] + b;
      DeliverBoth(V.Validate(v, a[0], now).validator, a[1..], b, now);
    }
  }

  lemma BooksSequence(s: Session, v: V.Validator)
    requires SameBooks(s, v)
    ensures SameBooks(s.(eventSequence := s.eventSequence + 1), v.(lastSequence := Some(s.eventSequence + 1)))
  {}

  /** The queue of an utterance whose frame was just popped off the output. */
  lemma PoppedHeard(s: Session, v: V.Validator)
    requires AgreeBut(s, v, None) && s.output != []
    ensures var (s1, f) := (PopOutput(s), s.output[0].frame);
            && AgreeBut(s1, v, Some(f.utterance))
            && (f.utterance in s.streams && f.utterance !in s.lastAudio ==> f.captureNs == v.capture[f.utterance])
  {
    var (s1, f) := (PopOutput(s), s.output[0].frame);
    forall u ensures u != f.utterance ==> FirstHeard(s1, v, u) {
      assert FirstHeard(s, v, u);
    }
    assert FirstHeard(s, v, f.utterance);
    assert FramesIn(s.output, f.utterance) == [f] + FramesIn(s1.output, f.utterance);
  }

  lemma PlayedAgrees(s: Session, v: V.Validator, x: Uuid, number: nat)
    requires AgreeBut(s, v, Some(x)) && x in s.streams
    requires number == if x in s.nextAudio then s.nextAudio[x] else 0
    ensures AgreeBut(AudioEmitted(s, x), Played(v, x, number, s.eventSequence + 2), None)
  {
    hide FramesIn;
    var (s', v') := (AudioEmitted(s, x), Played(v, x, number, s.eventSequence + 2));
    forall u ensures FirstHeard(s', v', u) {
      assert u != x ==> FirstHeard(s, v, u);
    }
  }

  /** The audio of one frame and its latency. */
  lemma AudioPairAccepted(s: Session, v: V.Validator, q: Queued, now: nat)
    requires AgreeBut(s, v, Some(q.frame.utterance)) && NumbersOk(s.streams, s.nextAudio, s.lastAudio)
    requires q.QueuedOutput? && q.frame.utterance in s.streams && q.frame.utterance !in s.terminal
    requires q.frame.stream == v.contract.stream && q.frame.format == s.request.inputFormat == s.request.outputFormat
    requires |q.pcm| == q.frame.format.FrameBytes()
    requires !TooLateFor(s, v, q.frame.utterance, now)
    ensures var after := Deliver(v, AudioEvents(s, q, now), now);
            && after.Some? && AgreeBut(AudioEmitted(s, q.frame.utterance), after.value, None)
            && after.value.contract == v.contract
  {
    hide SameBooks, FirstHeard, V.Validate, PcmFormat.FrameBytes, NumbersOk, Deliver, TooLateFor, AudioEmitted;
    var (x, es) := (q.frame.utterance, AudioEvents(s, q, now));
    var number := if x in s.nextAudio then s.nextAudio[x] else 0;
    AudioVerdict(s, v, q, now);
    PlayedAgrees(s, v, x, number);
    var v1 := Played(v, x, number, s.eventSequence + 1);
    AudioLatencyVerdict(s, v, x, number, es[1], now);
    DeliverTwo(v, es[0], es[1], v1, Played(v, x, number, s.eventSequence + 2), now);
    assert es == [es[0], es[1]];
  }

  lemma AudioLatencyVerdict(s: Session, v: V.Validator, x: Uuid, number: nat, e: Event, now: nat)
    requires AgreeBut(AudioEmitted(s, x), Played(v, x, number, s.eventSequence + 2), None)
    requires e.Latency? && e.header == NextHeader(s).(sequence := s.eventSequence + 2) && e.stream == v.contract.stream
    requires e.asrFirstMs.None? && e.about == Some(x) && x in s.streams && x !in s.terminal
    ensures V.Validate(Played(v, x, number, s.eventSequence + 1), e, now) ==
            V.Accept(Played(v, x, number, s.eventSequence + 2))
  {
    hide FirstHeard, V.Validate, SameBooks;
    var v1 := Played(v, x, number, s.eventSequence + 1);
    BooksBack(AudioEmitted(s, x), v1);
    LatencyVerdict(AudioEmitted(s, x).(eventSequence := s.eventSequence + 1), v1, e, now);
  }

  lemma DeliverTwo(v: V.Validator, a: Event, b: Event, v1: V.Validator, v2: V.Validator, now: nat)
    requires V.Validate(v, a, now) == V.Accept(v1) && V.Validate(v1, b, now) == V.Accept(v2)
    ensures Deliver(v, [a, b], now) == Some(v2)
  {
    hide V.Validate;
    assert [a, b][1..] == [b] && [b][1..] == [];
    assert Deliver(v2, [], now) == Some(v2);
    assert Deliver(v1, [b], now) == Some(v2);
  }

  lemma DeliverNone(v: V.Validator, now: nat)
    ensures Deliver(v, [], now) == Some(v)
  {}

  lemma DeliverFirst(v: V.Validator, a: Event, rest: seq<Event>, v1: V.Validator, now: nat)
    requires V.Validate(v, a, now) == V.Accept(v1)
    ensures Deliver(v, [a] + rest, now) == Deliver(v1, rest, now)
  {
    hide V.Validate;
    assert ([a] + rest)[1..] == rest;
  }

  /** One turn of the drain loop is refused if and only if it plays the first audio of an
      utterance whose recorded end is too old; that takes an end recorded before the beginning. */
  lemma DrainOneJudged(s: Session, v: V.Validator, now: nat)
    requires Inv(s) && AgreeBut(s, v, None) && s.output != []
    requires DrainOne(PopOutput(s), s.output[0], now).answer.Events?
    ensures var r := DrainOne(PopOutput(s), s.output[0], now);
            var after := Deliver(v, r.answer.events, now);
            if HeadTooLate(s, v, now) then after.None? && !Timely(v)
            else after.Some? && AgreeBut(r.session, after.value, None)
  {
    hide FirstHeard, Deliver, V.Validate, Terminate, PcmFormat.FrameBytes, PcmFormat.Supported, ReverseSamples,
         FramesIn,
         InputOk, V.TooLate;
    var (s1, q) := (PopOutput(s), s.output[0]);
    var (f, x) := (q.frame, q.frame.utterance);
    PoppedHeard(s, v);
    BooksStream(s, v);
    if Expired(s.request.mode, f.captureNs, now) {
      FinalAccepted(s1, v, x, Dropped, now);
    } else if TooLateFor(s, v, x, now) {
      AudioVerdict(s1, v, q, now);
      LateIsUntimely(s, v, f, now);
      DrainsAudioFirst(s, now);
      DeliverRefused(v, DrainOne(s1, q, now).answer.events, now);
    } else {
      AudioPairAccepted(s1, v, q, now);
      if f.endOfUtterance {
        var v2 := Deliver(v, AudioEvents(s1, q, now), now).value;
        FinalAccepted(AudioEmitted(s1, x), v2, x, Completed, now);
        var end := Terminate(AudioEmitted(s1, x), f.stream, x, Completed).answer.events;
        DeliverBoth(v, AudioEvents(s1, q, now), end, now);
      }
    }
  }

  /** The frame at the head of the output is fresh, yet too late to be the first audio. */
  predicate HeadTooLate(s: Session, v: V.Validator, now: nat)
    requires s.output != []
  {
    var f := s.output[0].frame;
    !Expired(s.request.mode, f.captureNs, now) && TooLateFor(s, v, f.utterance, now)
  }

  lemma LateIsUntimely(s: Session, v: V.Validator, f: Frame, now: nat)
    requires SameBooks(s, v) && f.utterance in s.streams && TooLateFor(s, v, f.utterance, now)
    requires !Expired(s.request.mode, f.captureNs, now)
    requires f.utterance in v.capture && f.captureNs == v.capture[f.utterance]
    ensures !Timely(v)
  {}

  lemma DrainsAudioFirst(s: Session, now: nat)
    requires s.output != [] && s.output[0].QueuedOutput? && !Expired(s.request.mode, s.output[0].frame.captureNs, now)
    ensures var r := DrainOne(PopOutput(s), s.output[0], now);
            r.answer.Events? ==>
              r.answer.events != [] && r.answer.events[0] == AudioEvents(PopOutput(s), s.output[0], now)[0]
  {
    hide Terminate;
  }

  lemma DeliverRefused(v: V.Validator, es: seq<Event>, now: nat)
    requires es != [] && V.Validate(v, es[0], now).verdict.Rejected?
    ensures Deliver(v, es, now).None?
  {
    hide V.Validate;
  }

  lemma BooksBack(s: Session, v: V.Validator)
    requires s.eventSequence > 0 && SameBooks(s, v.(lastSequence := Some(s.eventSequence)))
    ensures SameBooks(s.(eventSequence := s.eventSequence - 1), v.(lastSequence := Some(s.eventSequence - 1)))
  {}

  lemma BooksStream(s: Session, v: V.Validator)
    requires SameBooks(s, v)
    ensures forall u <- s.streams :: s.streams[u] == v.contract.stream
  {}

  /** The event is the first audio of an utterance whose recorded end is too old. */
  predicate FirstTooLate(v: V.Validator, e: Event, now: nat) {
    e.AudioDelta? && e.audioSequence == 0 && e.utterance in v.complete && V.TooLate(v, v.complete[e.utterance], now)
  }

  ghost predicate AnyTooLate(v: V.Validator, es: seq<Event>, now: nat) {
    exists e <- es :: FirstTooLate(v, e, now)
  }

  /** What one turn of the drain loop says is too late exactly when its audio is. */
  lemma DrainOneLate(s: Session, v: V.Validator, now: nat)
    requires Inv(s) && s.output != [] && DrainOne(PopOutput(s), s.output[0], now).answer.Events?
    ensures AnyTooLate(v, DrainOne(PopOutput(s), s.output[0], now).answer.events, now) <==> HeadTooLate(s, v, now)
  {
    hide Inv, EntryOk, PcmFormat.FrameBytes, V.TooLate, DrainOne, Expired;
    PopOutputKeepsInv(s);
    NumbersOf(s);
    var (s1, q) := (PopOutput(s), s.output[0]);
    var es := DrainOne(s1, q, now).answer.events;
    DrainOneSays(s, now);
    FirstAudioLate(s, v, now);
    hide TooLateFor, AudioEvents, NumbersOk;
    if !Expired(s.request.mode, q.frame.captureNs, now) {
      assert es[0] in es;
    }
    assert forall i :: 0 < i < |es| ==> !es[i].AudioDelta?;
  }

  lemma FirstAudioLate(s: Session, v: V.Validator, now: nat)
    requires NumbersOk(s.streams, s.nextAudio, s.lastAudio) && s.output != [] && s.output[0].QueuedOutput?
    ensures var (q, e) := (s.output[0], AudioEvents(PopOutput(s), s.output[0], now)[0]);
            FirstTooLate(v, e, now) <==> TooLateFor(s, v, q.frame.utterance, now)
  {
    hide V.TooLate;
  }

  lemma NumbersOf(s: Session)
    requires Inv(s)
    ensures NumbersOk(s.streams, s.nextAudio, s.lastAudio)
  {}

  /** What one turn of the drain loop says: a final, or audio and its latency and perhaps a final. */
  lemma DrainOneSays(s: Session, now: nat)
    requires s.output != [] && s.output[0].QueuedOutput? && DrainOne(PopOutput(s), s.output[0], now).answer.Events?
    ensures var (es, f) := (DrainOne(PopOutput(s), s.output[0], now).answer.events, s.output[0].frame);
            if Expired(s.request.mode, f.captureNs, now)
            then |es| == 1 && es[0].UtteranceFinal? && es[0].utterance == f.utterance
            else
              && 2 <= |es| <= 3 && es[0] == AudioEvents(PopOutput(s), s.output[0], now)[0] && es[1].Latency?
              && (|es| == 3 ==> es[2].UtteranceFinal? && es[2].utterance == f.utterance)
  {
    hide Forget, Expired;
  }

  /** Draining plays and ends open utterances only. */
  lemma DrainPlaysOpen(s: Session, now: nat)
    requires Inv(s) && DrainFrom(s, now).answer.Events?
    ensures forall e <- DrainFrom(s, now).answer.events :: e.AudioDelta? || e.UtteranceFinal? ==>
            e.utterance in s.streams
    decreases |s.output|
  {
    hide V.Validate, DrainOne, InputOk, IdsOk, NumbersOk, PcmFormat.FrameBytes, Openable;
    if s.output != [] {
      DrainOneKeepsInv(s, now);
      DrainOnePlaysOpen(s, now);
      DrainPlaysOpen(DrainOne(PopOutput(s), s.output[0], now).session, now);
    }
  }

  lemma DrainOnePlaysOpen(s: Session, now: nat)
    requires Inv(s) && s.output != [] && s.output[0].QueuedOutput?
    requires DrainOne(PopOutput(s), s.output[0], now).answer.Events?
    ensures var r := DrainOne(PopOutput(s), s.output[0], now);
            && (forall e <- r.answer.events :: e.AudioDelta? || e.UtteranceFinal? ==> e.utterance in s.streams)
            && r.session.streams.Keys <= s.streams.Keys
  {
    hide Inv, PcmFormat.FrameBytes, DrainOne, Expired;
    PopOutputKeepsInv(s);
    DrainOneSays(s, now);
    DrainOneStreams(s, now);
  }

  lemma DrainOneStreams(s: Session, now: nat)
    requires s.output != [] && s.output[0].QueuedOutput?
    ensures DrainOne(PopOutput(s), s.output[0], now).session.streams.Keys <= s.streams.Keys
  {
    hide PurgeQueues, Expired;
    PurgedStreams(AudioEmitted(PopOutput(s), s.output[0].frame.utterance), s.output[0].frame.utterance);
    PurgedStreams(PopOutput(s), s.output[0].frame.utterance);
  }

  lemma PurgedStreams(s: Session, u: Uuid)
    ensures PurgeQueues(s, u).streams == s.streams
  {
    hide Without, MsOf;
  }

  /** What is too late does not change while others are drained. */
  lemma LateStays(v: V.Validator, v1: V.Validator, es: seq<Event>, open: set<Uuid>, now: nat)
    requires Forgets(v, v1) && v1.complete.Keys == open && forall e <- es :: e.AudioDelta? ==> e.utterance in open
    ensures AnyTooLate(v1, es, now) <==> AnyTooLate(v, es, now)
  {
    hide V.TooLate;
    forall e <- es ensures FirstTooLate(v1, e, now) <==> FirstTooLate(v, e, now) {
      LateSame(v, v1, e, open, now);
    }
  }

  lemma LateSame(v: V.Validator, v1: V.Validator, e: Event, open: set<Uuid>, now: nat)
    requires Forgets(v, v1) && v1.complete.Keys == open && (e.AudioDelta? ==> e.utterance in open)
    ensures FirstTooLate(v1, e, now) <==> FirstTooLate(v, e, now)
  {}

  lemma AnyOfBoth(v: V.Validator, a: seq<Event>, b: seq<Event>, now: nat)
    ensures AnyTooLate(v, a + b, now) <==> AnyTooLate(v, a, now) || AnyTooLate(v, b, now)
  {
    hide FirstTooLate;
  }

  /** A drain is refused if and only if it plays the first audio of an utterance whose
      recorded end is too old; otherwise the two ends stay in agreement. */
  lemma DrainJudged(s: Session, v: V.Validator, now: nat)
    requires Inv(s) && AgreeBut(s, v, None) && DrainFrom(s, now).answer.Events?
    ensures var r := DrainFrom(s, now);
            var after := Deliver(v, r.answer.events, now);
            && (after.None? <==> AnyTooLate(v, r.answer.events, now))
            && (after.Some? ==> AgreeBut(r.session, after.value, None))
            && (Timely(v) ==> after.Some?)
    decreases |s.output|
  {
    hide AgreeBut, V.Validate, DrainOne, Inv, AnyTooLate, HeadTooLate, Timely;
    if s.output != [] {
      PopOutputKeepsInv(s);
      OutputsOf(s);
      DrainOneJudged(s, v, now);
      DrainOneLate(s, v, now);
      DrainOneKeepsInv(s, now);
      var one := DrainOne(PopOutput(s), s.output[0], now);
      OutputsOf(one.session);
      var rest := DrainFrom(one.session, now).answer.events;
      AnyOfBoth(v, one.answer.events, rest, now);
      if HeadTooLate(s, v, now) {
        DeliverNever(v, one.answer.events, rest, now);
      } else {
        var v1 := Deliver(v, one.answer.events, now).value;
        DeliverBoth(v, one.answer.events, rest, now);
        DeliverForgets(v, one.answer.events, now);
        DrainPlaysOpen(one.session, now);
        CompleteIsOpen(one.session, v1);
        LateStays(v, v1, rest, one.session.streams.Keys, now);
        if Timely(v) {
          TimelyStays(v, v1);
        }
        DrainJudged(one.session, v1, now);
      }
    } else {
      NothingLate(v, now);
    }
  }

  lemma OutputsOf(s: Session)
    requires Inv(s)
    ensures forall q <- s.output :: q.QueuedOutput?
  {}

  lemma CompleteIsOpen(s: Session, v: V.Validator)
    requires AgreeBut(s, v, None)
    ensures v.complete.Keys == s.streams.Keys
  {}

  lemma NothingLate(v: V.Validator, now: nat)
    ensures !AnyTooLate(v, [], now)
  {}

  lemma TimelyStays(v: V.Validator, v1: V.Validator)
    requires Timely(v) && Forgets(v, v1)
    ensures Timely(v1)
  {}

  lemma {:induction false} DeliverNever(v: V.Validator, a: seq<Event>, b: seq<Event>, now: nat)
    requires Deliver(v, a, now).None?
    ensures Deliver(v, a + b, now).None?
    decreases |a|
  {
    hide V.Validate;
    assert (a + b)[1..] == a[1..] + b;
    if V.Validate(v, a[0], now).verdict.Accepted? {
      DeliverNever(V.Validate(v, a[0], now).validator, a[1..], b, now);
    }
  }

  /** What the daemon tells the validator about a frame is heard. */
  lemma TellHeard(v: V.Validator, f: Frame, now: nat)
    requires v.isOpen && !v.closed && f.utterance !in v.terminal && v.capture.Keys == v.complete.Keys
    requires f.utterance in v.capture || |v.capture| < MAX_ACTIVE_UTTERANCES
    ensures var (told, u) := (Tell(v, Enqueue(f, now)), f.utterance);
            && told.verdict.Accepted?
            && told.validator == v.(capture := told.validator.capture, complete := told.validator.complete)
            && told.validator.capture == (if u in v.capture then v.capture else v.capture[u := f.captureNs])
            && told.validator.complete ==
                 (if f.endOfUtterance || u !in v.capture then v.complete[u := f.captureNs] else v.complete)
  {
    if f.utterance !in v.capture {
      assert v.complete[f.utterance := f.captureNs][f.utterance := f.captureNs] ==
             v.complete[f.utterance := f.captureNs];
    }
  }

  /** Admitting a frame at one end is what the daemon told the other. */
  lemma AdmittedBooks(s: Session, v: V.Validator, f: Frame, now: nat)
    requires SameBooks(s, v) && f.utterance !in s.terminal && f.stream == v.contract.stream
    requires f.utterance in s.streams || |s.streams| < MAX_ACTIVE_UTTERANCES
    ensures var told := Tell(v, Enqueue(f, now));
            && told.verdict.Accepted? && SameBooks(Admitted(s, f), told.validator)
            && told.validator == v.(capture := told.validator.capture, complete := told.validator.complete)
            && told.validator.capture == (if f.utterance in v.capture then v.capture
               else v.capture[f.utterance := f.captureNs])
  {
    assert |v.capture.Keys| == |v.capture| && |s.streams.Keys| == |s.streams|;
    TellHeard(v, f, now);
    hide Tell;
  }

  lemma QueuedHeard(s: Session, v: V.Validator, s': Session, v': V.Validator, q: Queued)
    requires q.QueuedInput? && forall u :: FirstHeard(s, v, u)
    requires s'.output == s.output && s'.input == s.input + [q] && s'.lastAudio == s.lastAudio
    requires var x := q.frame.utterance;
             v'.capture == if x in v.capture then v.capture else v.capture[x := q.frame.captureNs]
    requires q.frame.utterance !in v.capture ==> Waiting(s, q.frame.utterance) == []
    ensures forall u :: FirstHeard(s', v', u)
  {
    hide FramesIn;
    forall u ensures FirstHeard(s', v', u) {
      FramesInAppend(s.input, q, u);
      assert FirstHeard(s, v, u);
      assert Waiting(s', u) == if q.frame.utterance == u then Waiting(s, u) + [q.frame] else Waiting(s, u);
    }
  }

  lemma NoneWaiting(s: Session, u: Uuid)
    requires Inv(s) && u !in s.streams
    ensures Waiting(s, u) == []
  {
    hide PcmFormat.FrameBytes;
    assert forall q <- s.input + s.output :: q.frame.utterance != u;
    NoneIn(s.input, u);
    NoneIn(s.output, u);
  }

  lemma NoneIn(q: seq<Queued>, u: Uuid)
    requires forall x <- q :: x.frame.utterance != u
    ensures FramesIn(q, u) == []
  {}

  lemma EnqueueAccepted(s: Session, v: V.Validator, f: Frame, now: nat)
    requires Inv(s) && AgreeBut(s, v, None) && EnqueueFrame(s, f, now).answer.Events?
    requires f.stream == v.contract.stream
    ensures var r := EnqueueFrame(s, f, now);
            var told := Tell(v, Enqueue(f, now));
            && told.verdict.Accepted?
            && var after := Deliver(told.validator, r.answer.events, now);
               after.Some? && AgreeBut(r.session, after.value, None)
  {
    hide Inv, V.Validate, Terminate, FailUtterance, FramesIn;
    AdmittedBooks(s, v, f, now);
    var (s1, v1, x) := (Admitted(s, f), Tell(v, Enqueue(f, now)).validator, f.utterance);
    BooksKeys(s, v);
    if x !in s.streams {
      NoneWaiting(s, x);
    }
    hide SameBooks, Tell;
    forall u ensures u != x ==> FirstHeard(s1, v1, u) {
      assert FirstHeard(s, v, u);
    }
    if Expired(s.request.mode, f.captureNs, now) {
      FinalAccepted(s1, v1, x, Dropped, now);
    } else if s.inputMs + f.format.frameDurationMs > INPUT_LIMIT_MS {
      FailureAccepted(s1, v1, f, QueueOverflow, now);
    } else {
      var s2 := EnqueueFrame(s, f, now).session;
      QueuedHeard(s, v, s2, v1, QueuedInput(f, now));
      BooksApart(s1, v1, s2);
    }
  }

  lemma BooksKeys(s: Session, v: V.Validator)
    requires SameBooks(s, v)
    ensures v.capture.Keys == s.streams.Keys
  {}

  /** Queues are no part of the books. */
  lemma BooksApart(s: Session, v: V.Validator, s': Session)
    requires SameBooks(s, v)
    requires s' == s.(input := s'.input, inputMs := s'.inputMs, output := s'.output, outputMs := s'.outputMs,
                      ended := s'.ended, processed := s'.processed)
    ensures SameBooks(s', v)
  {}

  lemma HeadInput(s: Session)
    requires Inv(s)
    ensures forall q <- s.input :: q.QueuedInput? && |q.frame.pcm| % 2 == 0
    ensures s.input != [] ==> s.input[0].frame.utterance in s.streams && s.input[0].frame.utterance !in s.terminal
    ensures s.input != [] ==> s.streams[s.input[0].frame.utterance] == s.input[0].frame.stream
  {
    hide PcmFormat.FrameBytes, PcmFormat.Supported, OutputOk, NumbersOk, Openable;
  }

  lemma ProcessAccepted(inj: Injection, s: Session, v: V.Validator, now: nat)
    requires Inv(s) && AgreeBut(s, v, None) && ProcessNext(inj, s, now).answer.Events?
    ensures var r := ProcessNext(inj, s, now);
            var after := Deliver(v, r.answer.events, now);
            after.Some? && AgreeBut(r.session, after.value, None)
  {
    hide Inv, FirstHeard, V.Validate, Terminate, Processed, Expired, SameBooks, Deliver;
    HeadInput(s);
    DeliverNone(v, now);
    if s.input != [] {
      var (f, s1) := (s.input[0].frame, PopInput(s));
      BooksStream(s, v);
      BooksApart(s, v, s1);
      PoppedInputHeard(s, v);
      if Expired(s.request.mode, f.captureNs, now) {
        FinalAccepted(s1, v, f.utterance, Dropped, now);
      } else if now >= ReadyNs(inj, s.input[0]) {
        HeadProcessed(inj, s, v, now);
      }
    }
  }

  lemma HeadProcessed(inj: Injection, s: Session, v: V.Validator, now: nat)
    requires AgreeBut(s, v, None) && s.input != [] && |s.input[0].frame.pcm| % 2 == 0
    requires var f := s.input[0].frame;
             f.utterance in s.streams && f.utterance !in s.terminal && f.stream == v.contract.stream
    requires Processed(inj, PopInput(s), s.input[0].frame).answer.Events?
    ensures var r := Processed(inj, PopInput(s), s.input[0].frame);
            var after := Deliver(v, r.answer.events, now);
            after.Some? && AgreeBut(r.session, after.value, None)
  {
    hide FirstHeard, V.Validate, FailUtterance, ReverseSamples, SameBooks, Deliver;
    var (f, s2) := (s.input[0].frame, PopInput(s).(processed := s.processed + 1));
    BooksApart(s, v, s2);
    PoppedInputHeard(s, v);
    if inj.failAfterFrames.Some? && s.processed >= inj.failAfterFrames.value {
      FailureAccepted(s2, v, f, ProviderUnavailable, now);
    } else if s.outputMs + f.format.frameDurationMs > OUTPUT_LIMIT_MS {
      FailureAccepted(s2, v, f, QueueOverflow, now);
    } else {
      ProcessedAccepted(s, v, QueuedOutput(f, ReverseSamples(f.pcm)), Processed(inj, PopInput(s), f), now);
    }
  }

  lemma PoppedInputHeard(s: Session, v: V.Validator)
    requires AgreeBut(s, v, None) && s.input != []
    ensures var s2 := PopInput(s).(processed := s.processed + 1);
            forall u :: u != s.input[0].frame.utterance ==> FirstHeard(PopInput(s), v, u) && FirstHeard(s2, v, u)
  {
    var (s1, x) := (PopInput(s), s.input[0].frame.utterance);
    forall u ensures u != x ==> FirstHeard(s1, v, u) && FirstHeard(s1.(processed := s.processed + 1), v, u) {
      assert FirstHeard(s, v, u);
    }
  }

  /** A processed frame keeps its place among the waiting frames of its utterance. */
  lemma ProcessedWaiting(s: Session, q: Queued, s': Session, u: Uuid)
    requires s.input != [] && q.frame == s.input[0].frame
    requires s'.input == s.input[1..] && s'.output == s.output + [q]
    ensures Waiting(s', u) == Waiting(s, u)
  {
    FramesInAppend(s.output, q, u);
    assert FramesIn(s.input, u) ==
           if q.frame.utterance == u then [q.frame] + FramesIn(s'.input, u) else FramesIn(s'.input, u);
  }

  lemma TextAccepted(s: Session, v: V.Validator, f: Frame, now: nat)
    requires SameBooks(s, v) && v.pendingOverflow == None && s.debugText
    requires f.utterance in s.streams && f.utterance !in s.terminal && f.stream == v.contract.stream
    ensures Deliver(v, TextEvents(s, f), now) == Some(v.(lastSequence := Some(s.eventSequence + 2)))
  {
    hide V.Validate, SameBooks;
    var es := TextEvents(s, f);
    TextVerdict(s, v, es[0], now);
    var v1 := v.(lastSequence := Some(s.eventSequence + 1));
    BooksSequence(s, v);
    TextVerdict(s.(eventSequence := s.eventSequence + 1), v1, es[1], now);
    assert es[1..][0] == es[1] && es[1..][1..] == [];
    assert Deliver(v1, es[1..], now) == Some(v.(lastSequence := Some(s.eventSequence + 2)));
  }

  lemma ProcessedAccepted(s: Session, v: V.Validator, q: Queued, r: Reply, now: nat)
    requires AgreeBut(s, v, None) && s.input != [] && q.frame == s.input[0].frame
    requires q.frame.utterance in s.streams && q.frame.utterance !in s.terminal && q.frame.stream == v.contract.stream
    requires var s1 := s.(input := s.input[1..], inputMs := r.session.inputMs, processed := s.processed + 1,
                          output := s.output + [q], outputMs := r.session.outputMs);
             r == if s.debugText then Reply(s1.(eventSequence := s.eventSequence + 2), Events(TextEvents(s, q.frame)))
                  else Reply(s1, Events([]))
    ensures var after := Deliver(v, r.answer.events, now);
            after.Some? && AgreeBut(r.session, after.value, None)
  {
    hide FramesIn, V.Validate;
    var v' := if s.debugText then v.(lastSequence := Some(s.eventSequence + 2)) else v;
    forall u ensures FirstHeard(r.session, v', u) {
      ProcessedWaiting(s, q, r.session, u);
      assert FirstHeard(s, v, u);
    }
    if s.debugText {
      TextAccepted(s, v, q.frame, now);
    }
  }

  /** The answer to a requested cancellation is accepted, whatever else is being cancelled. */
  lemma CancelAnswered(s: Session, v: V.Validator, d: Direction, x: Uuid, now: nat)
    requires Inv(s) && AgreeBut(s, v.(cancelPending := {}), None) && x in v.cancelPending
    requires CancelUtterance(s, d, x).answer.Events?
    ensures var r := CancelUtterance(s, d, x);
            var after := Deliver(v, r.answer.events, now);
            && after.Some? && after.value.cancelPending == v.cancelPending - {x}
            && AgreeBut(r.session, after.value.(cancelPending := {}), None)
  {
    hide Inv, FirstHeard, V.Validate, Without, MsOf, Forget, Deliver;
    var (v0, s1) := (v.(cancelPending := {}), PurgeQueues(s, x));
    BooksApart(s, v0, s1);
    CancelVerdict(s1, v, x, now);
    hide SameBooks;
    var r := CancelUtterance(s, d, x);
    EndedBooks(s1, v, x);
    var v2 := Ended(v, x, s.eventSequence + 1);
    DeliverFirst(v, r.answer.events[0], [], v2, now);
    DeliverNone(v2, now);
    assert r.answer.events == [r.answer.events[0]] + [];
    forall u ensures FirstHeard(r.session, v2.(cancelPending := {}), u) {
      PurgedHeard(s, v, x, u);
      EndedHeard(s1, v, x, u);
      CancelsUnheard(r.session, v2, u);
    }
  }

  /** What is being cancelled does not matter to what was heard. */
  lemma CancelsUnheard(s: Session, v: V.Validator, u: Uuid)
    ensures FirstHeard(s, v.(cancelPending := {}), u) <==> FirstHeard(s, v, u)
  {}

  lemma CancelAccepted(s: Session, v: V.Validator, d: Direction, x: Uuid)
    requires Inv(s) && AgreeBut(s, v, None) && CancelUtterance(s, d, x).answer.Events?
    ensures var r := CancelUtterance(s, d, x);
            var told := Tell(v, Cancel(d, x));
            && told.verdict.Accepted?
            && var after := Deliver(told.validator, r.answer.events, 0);
               after.Some? && AgreeBut(r.session, after.value, None)
  {
    hide Inv, FirstHeard, V.Validate, PurgeQueues, Terminate, Deliver;
    var v1 := v.(cancelPending := {x});
    assert v.cancelPending + {x} == {x} && v1.(cancelPending := {}) == v;
    assert Tell(v, Cancel(d, x)) == V.Accept(v1);
    CancelAnswered(s, v1, d, x, 0);
    var after := Deliver(v1, CancelUtterance(s, d, x).answer.events, 0);
    assert after.value == after.value.(cancelPending := {});
  }

  lemma PurgedHeard(s: Session, v: V.Validator, x: Uuid, u: Uuid)
    requires AgreeBut(s, v.(cancelPending := {}), None)
    ensures u != x ==> FirstHeard(PurgeQueues(s, x), v, u)
  {
    hide FramesIn, Without, MsOf, SameBooks;
    FramesInWithout(s.input, x, u);
    FramesInWithout(s.output, x, u);
    assert FirstHeard(s, v.(cancelPending := {}), u);
  }

  lemma HealthAccepted(s: Session, v: V.Validator)
    requires AgreeBut(s, v, None) && !s.closed
    ensures var r := ReportHealth(s);
            var after := Deliver(v, r.answer.events, 0);
            r.answer.Events? && after.Some? && AgreeBut(r.session, after.value, None)
  {
    hide FramesIn, FirstHeard;
    var (s1, v1) := (s.(eventSequence := s.eventSequence + 1), v.(lastSequence := Some(s.eventSequence + 1)));
    var e := ReportHealth(s).answer.events[0];
    assert V.Validate(v, e, 0) == V.Accept(v1);
    assert [e][1..] == [] && Deliver(v1, [], 0) == Some(v1);
    hide V.Validate;
    forall u ensures FirstHeard(s1, v1, u) {
      HeardApart(s, v, s1, v1, u);
    }
  }

  /** Numbers and the debug switch do not matter to what was heard. */
  lemma HeardApart(s: Session, v: V.Validator, s': Session, v': V.Validator, u: Uuid)
    requires FirstHeard(s, v, u) && s' == s.(eventSequence := s'.eventSequence, debugText := s'.debugText)
    requires v' == v.(lastSequence := v'.lastSequence, debugText := v'.debugText)
    ensures FirstHeard(s', v', u)
  {}

  lemma DebugAccepted(s: Session, v: V.Validator, b: bool)
    requires AgreeBut(s, v, None) && !s.closed
    ensures var r := UpdateDebugText(s, b);
            var after := Deliver(v.(debugText := b), r.answer.events, 0);
            r.answer.Events? && after.Some? && AgreeBut(r.session, after.value, None)
  {
    hide FramesIn, FirstHeard, V.Validate;
    forall u ensures FirstHeard(s.(debugText := b), v.(debugText := b), u) {
      HeardApart(s, v, s.(debugText := b), v.(debugText := b), u);
    }
  }

  lemma CloseAccepted(s: Session, v: V.Validator)
    requires AgreeBut(s, v, None) && !s.closed
    ensures var r := CloseSession(s);
            var after := Deliver(v, r.answer.events, 0);
            r.answer.Events? && after.Some? && r.session.closed && after.value.closed
  {
    hide FramesIn, FirstHeard;
    var e := CloseSession(s).answer.events[0];
    assert V.Validate(v, e, 0).verdict.Accepted? && V.Validate(v, e, 0).validator.closed;
    hide V.Validate;
    assert [e][1..] == [];
    assert Deliver(V.Validate(v, e, 0).validator, [], 0) == Some(V.Validate(v, e, 0).validator);
  }

  /** The call is a drain that plays the first audio of an utterance whose recorded end is
      too old. */
  ghost predicate DrainsLate(v: V.Validator, op: Op, es: seq<Event>) {
    op.Drain? && AnyTooLate(v, es, op.now)
  }

  /** A call that returns is told to the validator's satisfaction, and answered to it unless
      it is a drain that comes too late. */
  lemma CallJudged(inj: Injection, s: Session, v: V.Validator, op: Op)
    requires Inv(s) && AgreeBut(s, v, None) && !s.closed && Apply(inj, s, op).answer.Events?
    requires op.Enqueue? ==> op.frame.stream == v.contract.stream
    ensures var (r, told) := (Apply(inj, s, op), Tell(v, op));
            && told.verdict.Accepted?
            && var after := Deliver(told.validator, r.answer.events, Clock(op));
               && (after.None? <==> DrainsLate(v, op, r.answer.events))
               && (after.Some? ==> Agree(r.session, after.value))
               && (Timely(v) ==> after.Some?)
  {
    hide Inv, AgreeBut, Deliver, EnqueueFrame, ProcessNext, DrainFrom, CancelUtterance, CloseSession, UpdateDebugText,
         ReportHealth, AnyTooLate, Timely;
    match op {
      case Enqueue(f, now) => EnqueueAccepted(s, v, f, now); hide Tell;
      case Process(now) => ProcessAccepted(inj, s, v, now);
      case Drain(now) => DrainJudged(s, v, now);
      case Cancel(d, x) => CancelAccepted(s, v, d, x); hide Tell;
      case Close => CloseAccepted(s, v);
      case SetDebug(b) => DebugAccepted(s, v, b);
      case AskHealth => HealthAccepted(s, v);
    }
    AgreeIsOpen();
  }

  lemma AgreeIsOpen()
    ensures forall s, v {:trigger AgreeBut(s, v, None)} :: AgreeBut(s, v, None) ==> !s.closed
  {}

  // ---- Whole runs ----

  /** Frames come from the contract's stream. */
  ghost predicate OnStream(contract: Contract, ops: seq<Op>) {
    forall i :: 0 <= i < |ops| && ops[i].Enqueue? ==> ops[i].frame.stream == contract.stream
  }

  /** Captures do not go back in time within an utterance. */
  ghost predicate Forward(ops: seq<Op>) {
    forall i, j :: 0 <= i < j < |ops| && ops[i].Enqueue? && ops[j].Enqueue?
                   && ops[i].frame.utterance == ops[j].frame.utterance ==>
                   ops[i].frame.captureNs <= ops[j].frame.captureNs
  }

  /** The capture times the validator holds were told to it by frames of the run. */
  ghost predicate FromFrames(ops: seq<Op>, v: V.Validator) {
    forall u <- v.capture :: Reported(ops, u, v.capture[u])
  }

  ghost predicate Reported(ops: seq<Op>, u: Uuid, captureNs: nat) {
    exists i :: 0 <= i < |ops| && ops[i].Enqueue? && ops[i].frame.utterance == u && ops[i].frame.captureNs == captureNs
  }

  /** No capture time is made up or changed. */
  ghost predicate Forgets(v: V.Validator, v': V.Validator) {
    && v'.contract == v.contract
    && (forall u <- v'.capture :: u in v.capture && v'.capture[u] == v.capture[u])
    && (forall u <- v'.complete :: u in v.complete && v'.complete[u] == v.complete[u])
  }

  lemma TerminalizeForgets(v: V.Validator, v': V.Validator, u: Uuid)
    requires v'.contract == v.contract && v'.capture == v.capture && v'.complete == v.complete
    ensures Forgets(v, V.Terminalize(v', u).validator)
  {}

  lemma EndingForgets(v: V.Validator, e: Event, u: Uuid)
    ensures Forgets(v, V.CheckAfterCancel(v, e, u).validator)
    ensures Forgets(v, V.OverflowTerminal(v, e, u).validator)
    ensures Forgets(v, V.NoSpeechTerminal(v, e, u).validator)
    ensures e.UtteranceFinal? ==> Forgets(v, V.CheckFinal(v, e).validator)
  {
    hide V.WireAudioError, V.ActiveError, V.Terminalize;
    TerminalizeForgets(v, v.(cancelPending := v.cancelPending - {u}), u);
    if e.UtteranceFinal? {
      TerminalizeForgets(v, v.(pendingOverflow := None), e.utterance);
      TerminalizeForgets(v, v.(pendingNoSpeech := None), e.utterance);
      TerminalizeForgets(v, v, e.utterance);
    }
  }

  lemma KindForgets(v: V.Validator, e: Event, now: nat)
    ensures Forgets(v, V.CheckKind(v, e, now).validator)
  {
    hide V.CheckAfterCancel, V.OverflowTerminal, V.NoSpeechTerminal, V.CheckFinal, V.WireAudioError, V.TooLate,
         V.ActiveError;
    if e.Subject().Some? {
      EndingForgets(v, e, e.Subject().value);
      EndingForgets(v.(pendingNoSpeechLatency := None), e, e.Subject().value);
    }
    if v.pendingOverflow.Some? {
      EndingForgets(v, e, v.pendingOverflow.value);
    } else if v.pendingNoSpeech.Some? {
      EndingForgets(v, e, v.pendingNoSpeech.value);
    }
  }

  lemma ValidateForgets(v: V.Validator, e: Event, now: nat)
    ensures Forgets(v, V.Validate(v, e, now).validator)
  {
    hide V.CheckKind, V.EnvelopeError;
    KindForgets(v, e, now);
  }

  lemma {:induction false} DeliverForgets(v: V.Validator, es: seq<Event>, now: nat)
    requires Deliver(v, es, now).Some?
    ensures Forgets(v, Deliver(v, es, now).value)
    decreases |es|
  {
    hide V.Validate;
    if es != [] {
      ValidateForgets(v, es[0], now);
      DeliverForgets(V.Validate(v, es[0], now).validator, es[1..], now);
    }
  }

  lemma ReportedStill(ops: seq<Op>, op: Op, u: Uuid, captureNs: nat)
    requires Reported(ops, u, captureNs)
    ensures Reported(ops + [op], u, captureNs)
  {
    var i :| 0 <= i < |ops| && ops[i].Enqueue? && ops[i].frame.utterance == u && ops[i].frame.captureNs == captureNs;
    assert (ops + [op])[i] == ops[i];
  }

  lemma TellFromFrames(ops: seq<Op>, v: V.Validator, op: Op)
    requires FromFrames(ops, v)
    ensures FromFrames(ops + [op], Tell(v, op).validator) && Tell(v, op).validator.contract == v.contract
  {
    TellAdds(v, op);
    hide Tell;
    var (more, v') := (ops + [op], Tell(v, op).validator);
    assert more[|ops|] == op;
    forall u <- v'.capture ensures Reported(more, u, v'.capture[u]) {
      if u in v.capture {
        ReportedStill(ops, op, u, v.capture[u]);
      }
    }
  }

  lemma TellAdds(v: V.Validator, op: Op)
    ensures var v' := Tell(v, op).validator;
            && v'.contract == v.contract
            && v'.capture == if op.Enqueue? && op.frame.utterance in v'.capture && op.frame.utterance !in v.capture
                             then v.capture[op.frame.utterance := op.frame.captureNs] else v.capture
  {}

  /** A frame captured no earlier than its utterance's first keeps the ends after the beginnings. */
  lemma TellTimely(v: V.Validator, op: Op)
    requires Timely(v) && v.capture.Keys == v.complete.Keys
    requires op.Enqueue? && op.frame.utterance in v.capture ==> v.capture[op.frame.utterance] <= op.frame.captureNs
    ensures Timely(Tell(v, op).validator)
  {
    assert op.Enqueue? ==> (op.frame.utterance in v.capture <==> op.frame.utterance in v.complete);
  }

  ghost predicate Sound(contract: Contract, j: Joint) {
    j.Running? ==> Agree(j.session, j.validator) && j.validator.contract == contract
  }

  /** The step is a drain that returns, and plays the first audio of an utterance whose
      recorded end is too old. */
  ghost predicate LateDrain(inj: Injection, j: Joint, op: Op)
    requires j.Running? ==> Inv(j.session)
  {
    && j.Running? && op.Drain?
    && var answer := Apply(inj, j.session, op).answer;
       answer.Events? && AnyTooLate(j.validator, answer.events, op.now)
  }

  /** One more call is refused if and only if it is such a drain; otherwise the two ends stay
      in agreement. */
  lemma StepJudged(inj: Injection, contract: Contract, j: Joint, op: Op)
    requires j.Running? && Inv(j.session) && Sound(contract, j)
    requires op.Enqueue? ==> op.frame.stream == contract.stream
    ensures Step(inj, j, op).Refused? <==> LateDrain(inj, j, op)
    ensures Sound(contract, Step(inj, j, op))
    ensures Timely(j.validator) ==> !Step(inj, j, op).Refused?
  {
    hide Inv, AgreeBut, Tell, Deliver, Apply, AnyTooLate, Timely;
    var (s, v) := (j.session, j.validator);
    var r := Apply(inj, s, op);
    if r.answer.Events? {
      ReturningIsOpen(inj, s, op);
      CallJudged(inj, s, v, op);
      var told := Tell(v, op).validator;
      TellAdds(v, op);
      if Deliver(told, r.answer.events, Clock(op)).Some? {
        DeliverForgets(told, r.answer.events, Clock(op));
      }
    }
  }

  lemma ReturningIsOpen(inj: Injection, s: Session, op: Op)
    requires Inv(s) && Apply(inj, s, op).answer.Events?
    ensures !s.closed
  {}

  lemma OpeningAccepted(request: OpenRequest, contract: Contract)
    requires Openable(request) && SameContract(request, contract)
    ensures var after := Deliver(V.Fresh(contract), [OpenedEvent(request)], 0);
            after.Some? && Agree(Opened(request), after.value) && after.value.contract == contract
            && after.value.capture == map[]
  {
    hide PcmFormat.Supported;
    var v := V.Validate(V.Fresh(contract), OpenedEvent(request), 0).validator;
    assert Deliver(v, [], 0) == Some(v);
    assert [OpenedEvent(request)][1..] == [];
  }

  /** The two ends stay in agreement for as long as nothing is refused. */
  lemma {:induction false} TogetherSound(inj: Injection, request: OpenRequest, contract: Contract, ops: seq<Op>)
    requires Openable(request) && SameContract(request, contract) && OnStream(contract, ops)
    ensures Sound(contract, Together(inj, request, contract, ops))
  {
    if ops == [] {
      OpeningAccepted(request, contract);
    } else {
      var (before, op) := (ops[..|ops| - 1], ops[|ops| - 1]);
      TogetherSound(inj, request, contract, before);
      var j := Together(inj, request, contract, before);
      if j.Running? {
        StepJudged(inj, contract, j, op);
      }
    }
  }

  /** The call at `k` is made on a running session and is a drain that comes too late. */
  ghost predicate RefusedAt(inj: Injection, request: OpenRequest, contract: Contract, ops: seq<Op>, k: nat)
    requires Openable(request) && k < |ops|
  {
    LateDrain(inj, Together(inj, request, contract, ops[..k]), ops[k])
  }

  /** The exact condition, for every run on the contract's stream: something is refused if and
      only if some drain plays the first audio of an utterance whose recorded end is then older
      than the mode allows. */
  lemma {:induction false} RefusedIff(inj: Injection, request: OpenRequest, contract: Contract, ops: seq<Op>)
    requires Openable(request) && SameContract(request, contract) && OnStream(contract, ops)
    ensures Together(inj, request, contract, ops).Refused? <==>
              exists k :: 0 <= k < |ops| && RefusedAt(inj, request, contract, ops, k)
  {
    hide Sound, LateDrain, Step;
    if ops == [] {
      OpeningAccepted(request, contract);
    } else {
      var (n, before) := (|ops| - 1, ops[..|ops| - 1]);
      RefusedIff(inj, request, contract, before);
      TogetherSound(inj, request, contract, before);
      forall k | 0 <= k < n
        ensures RefusedAt(inj, request, contract, ops, k) <==> RefusedAt(inj, request, contract, before, k)
      {
        assert before[..k] == ops[..k];
      }
      var j := Together(inj, request, contract, before);
      if j.Running? {
        StepJudged(inj, contract, j, ops[n]);
      } else {
        LateNeedsRunning(inj, j, ops[n]);
      }
      assert RefusedAt(inj, request, contract, ops, n) <==> LateDrain(inj, j, ops[n]);
    }
  }

  lemma LateNeedsRunning(inj: Injection, j: Joint, op: Op)
    requires !j.Running?
    ensures !LateDrain(inj, j, op)
  {}

  // ---- Captures that do not go back in time ----

  ghost predicate Punctual(ops: seq<Op>, j: Joint) {
    !j.Refused? && (j.Running? ==> FromFrames(ops, j.validator) && Timely(j.validator))
  }

  lemma ForwardNow(ops: seq<Op>, v: V.Validator, op: Op)
    requires Forward(ops + [op]) && FromFrames(ops, v)
    ensures op.Enqueue? && op.frame.utterance in v.capture ==> v.capture[op.frame.utterance] <= op.frame.captureNs
  {
    assert (ops + [op])[|ops|] == op;
    if op.Enqueue? && op.frame.utterance in v.capture {
      var u := op.frame.utterance;
      assert Reported(ops, u, v.capture[u]);
      var i :| 0 <= i < |ops| && ops[i].Enqueue? && ops[i].frame.utterance == u
          && ops[i].frame.captureNs == v.capture[u];
      assert (ops + [op])[i] == ops[i];
    }
  }

  lemma StepPunctual(inj: Injection, contract: Contract, ops: seq<Op>, j: Joint, op: Op)
    requires j.Running? && Inv(j.session) && Sound(contract, j) && Punctual(ops, j) && Forward(ops + [op])
    requires op.Enqueue? ==> op.frame.stream == contract.stream
    ensures Punctual(ops + [op], Step(inj, j, op))
  {
    StepJudged(inj, contract, j, op);
    hide Inv, FromFrames, AgreeBut, Tell, Deliver, Apply, Forward, Timely;
    var (s, v) := (j.session, j.validator);
    var r := Apply(inj, s, op);
    if r.answer.Events? {
      ReturningIsOpen(inj, s, op);
      AgreeKeys(s, v);
      ForwardNow(ops, v, op);
      TellTimely(v, op);
      TellFromFrames(ops, v, op);
      var told := Tell(v, op).validator;
      DeliverForgets(told, r.answer.events, Clock(op));
      var v' := Deliver(told, r.answer.events, Clock(op)).value;
      StillFromFrames(ops + [op], told, v');
      TimelyStays(told, v');
    }
  }

  lemma AgreeKeys(s: Session, v: V.Validator)
    requires AgreeBut(s, v, None)
    ensures v.capture.Keys == v.complete.Keys
  {}

  lemma StillFromFrames(ops: seq<Op>, v: V.Validator, v': V.Validator)
    requires FromFrames(ops, v) && Forgets(v, v')
    ensures FromFrames(ops, v')
  {}

  lemma {:induction false} TogetherPunctual(inj: Injection, request: OpenRequest, contract: Contract, ops: seq<Op>)
    requires Openable(request) && SameContract(request, contract) && OnStream(contract, ops) && Forward(ops)
    ensures Punctual(ops, Together(inj, request, contract, ops))
  {
    if ops == [] {
      OpeningAccepted(request, contract);
    } else {
      hide Step, Sound;
      var (before, op) := (ops[..|ops| - 1], ops[|ops| - 1]);
      assert before + [op] == ops;
      TogetherPunctual(inj, request, contract, before);
      TogetherSound(inj, request, contract, before);
      var j := Together(inj, request, contract, before);
      if j.Running? {
        StepPunctual(inj, contract, before, j, op);
      }
    }
  }

  /** The simulation: in no run of calls whose captures do not go back in time within an
      utterance does the validator refuse an event the engine returned, nor anything the
      daemon told it on the way. */
  lemma EngineSatisfiesValidator(inj: Injection, request: OpenRequest, contract: Contract, ops: seq<Op>)
    requires Openable(request) && SameContract(request, contract) && OnStream(contract, ops) && Forward(ops)
    ensures !Together(inj, request, contract, ops).Refused?
  {
    TogetherPunctual(inj, request, contract, ops);
  }
}

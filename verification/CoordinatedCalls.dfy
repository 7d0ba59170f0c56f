/** One call on a provider session, recorded and answered through the daemon's coordinator:
    exactly when the coordinator refuses something. */
module CoordinatedCalls {
  import opened Wire
  import opened EngineModel
  import opened EngineRuns
  import W = WatchdogModel
  import V = ValidatorModel
  import C = CoordinatorModel
  import K = Coupling
  import S = Simulation
  import opened CoordinatedDelivery

  /** A call on the session, and the daemon's clock when it is made and answered. */
  datatype Move = Move(op: Op, at: W.Ns)

  /** Both clocks agree, and frames come from the contract's stream. */
  predicate Fits(contract: Contract, m: Move) {
    && (m.op.Enqueue? || m.op.Process? || m.op.Drain? ==> m.op.now == m.at)
    && (m.op.Enqueue? ==> m.op.frame.stream == contract.stream && m.op.frame.captureNs <= W.U64_MAX)
  }

  /** What the daemon records as it sends a request. */
  function Tell(c: C.Coordinator, m: Move): C.Done
    requires m.op.Enqueue? ==> m.op.frame.captureNs <= W.U64_MAX
  {
    match m.op
    case Enqueue(f, _) =>
      var first := if f.utterance in c.validator.capture then C.Ok(c)
                   else C.StartUtterance(c, f.stream, f.utterance, f.captureNs);
      if first.error.None? && f.endOfUtterance
      then C.RecordEndOfUtterance(first.coordinator, f.stream, f.utterance, f.captureNs)
      else first
    case Cancel(_, u) => C.CancelExpiredUtterance(c, c.validator.contract.stream, u, m.at)
    case SetDebug(enabled) => C.Ok(c.(validator := V.SetDebugText(c.validator, enabled)))
    case _ => C.Ok(c)
  }

  datatype Joint =
    | Running(session: Session, coordinator: C.Coordinator)
    | Raising
    | Refused

  ghost function Step(inj: Injection, j: Joint, m: Move): Joint
    requires j.Running? ==> Inv(j.session)
    requires m.op.Enqueue? ==> m.op.frame.captureNs <= W.U64_MAX
  {
    if !j.Running? then j
    else
      var r := Apply(inj, j.session, m.op);
      if r.answer.Raised? then Raising
      else
        var told := Tell(j.coordinator, m);
        if told.error.Some? then Refused
        else
          match Deliver(told.coordinator, r.answer.events, m.at)
          case None => Refused
          case Some(c) => Running(r.session, c)
  }

  // ---- The agreement ----

  /** The watchdog collects exactly the utterances whose end the session has not heard. */
  ghost predicate EndsAgree(s: Session, w: W.Watchdog) {
    forall u <- s.streams ::
      && u in w.utterances && !w.utterances[u].phase.CancelPending?
      && (w.utterances[u].phase.CollectingInput? <==> u !in s.ended)
  }

  ghost predicate Agree(contract: Contract, s: Session, c: C.Coordinator) {
    if s.closed then c.watchdog.phase.Terminal?
    else
      && InUse(c) && c.validator.contract == contract
      && S.AgreeBut(s, c.validator, None) && EndsAgree(s, c.watchdog)
  }

  // ---- What the session says in one call ----

  /** An utterance still open after a call has had its end heard exactly if it had before, or
      the call was its last frame. */
  ghost predicate EndsAfter(s: Session, s': Session, op: Op) {
    forall u <- s'.streams ::
      && (u in s.streams || (op.Enqueue? && op.frame.utterance == u))
      && (u in s'.ended <==> u in s.ended || (op.Enqueue? && op.frame.utterance == u && op.frame.endOfUtterance))
  }

  /** The books without one utterance. */
  ghost predicate Ends(s: Session, s': Session, u: Uuid) {
    s'.streams == s.streams - {u} && s'.ended == s.ended - {u} && s'.closed == s.closed
  }

  lemma TerminateEnds(s: Session, stream: Uuid, u: Uuid, outcome: Outcome)
    requires Terminate(s, stream, u, outcome).answer.Events?
    ensures Ends(s, Terminate(s, stream, u, outcome).session, u)
  {
    hide Without, MsOf;
  }

  lemma FailEnds(s: Session, f: Frame, code: ErrorCode)
    requires FailUtterance(s, f, code).answer.Events?
    ensures Ends(s, FailUtterance(s, f, code).session, f.utterance)
  {
    hide Terminate;
    TerminateEnds(s.(eventSequence := s.eventSequence + 1), f.stream, f.utterance, Dropped);
  }

  lemma TakeFrameEnds(s: Session, f: Frame, now: nat)
    requires TakeFrame(s, f, now).answer.Events?
    ensures EndsAfter(s, TakeFrame(s, f, now).session, Enqueue(f, now))
            && TakeFrame(s, f, now).session.closed == s.closed
  {
    hide Terminate, FailUtterance, Expired;
    var s1 := Admitted(s, f);
    if Expired(s.request.mode, f.captureNs, now) {
      TerminateEnds(s1, f.stream, f.utterance, Dropped);
    } else if s.inputMs + f.format.frameDurationMs > INPUT_LIMIT_MS {
      FailEnds(s1, f, QueueOverflow);
    }
  }

  lemma EnqueueEnds(s: Session, f: Frame, now: nat)
    requires EnqueueFrame(s, f, now).answer.Events? && f.utterance !in s.ended
    ensures EndsAfter(s, EnqueueFrame(s, f, now).session, Enqueue(f, now)) && !EnqueueFrame(s, f, now).session.closed
  {
    hide TakeFrame, FrameError;
    TakeFrameEnds(s, f, now);
  }

  lemma Admits(s: Session, f: Frame, now: nat)
    requires EnqueueFrame(s, f, now).answer.Events?
    ensures f.utterance !in s.ended && f.utterance !in s.terminal
    ensures f.utterance in s.streams || |s.streams| < MAX_ACTIVE_UTTERANCES
  {
    hide TakeFrame, PcmFormat.FrameBytes;
  }

  lemma ProcessEnds(inj: Injection, s: Session, now: nat)
    requires Inv(s) && ProcessNext(inj, s, now).answer.Events?
    ensures EndsAfter(s, ProcessNext(inj, s, now).session, Process(now)) && !ProcessNext(inj, s, now).session.closed
  {
    hide Terminate, FailUtterance, Expired, ReverseSamples, PcmFormat.FrameBytes, OutputOk, IdsOk, NumbersOk, Openable;
    if s.input != [] {
      PopInputKeepsInv(s);
      var (f, s1) := (s.input[0].frame, PopInput(s));
      var s2 := s1.(processed := s.processed + 1);
      if Expired(s.request.mode, f.captureNs, now) {
        TerminateEnds(s1, f.stream, f.utterance, Dropped);
      } else if now >= ReadyNs(inj, s.input[0]) {
        if FailUtterance(s2, f, ProviderUnavailable).answer.Events? { FailEnds(s2, f, ProviderUnavailable); }
        if FailUtterance(s2, f, QueueOverflow).answer.Events? { FailEnds(s2, f, QueueOverflow); }
      }
    }
  }

  /** What a turn of the drain loop, or a whole drain, leaves of the books. */
  ghost predicate Fewer(s: Session, s': Session) {
    && s'.closed == s.closed && s'.streams.Keys <= s.streams.Keys
    && forall u <- s'.streams :: u in s'.ended <==> u in s.ended
  }

  lemma DrainOneEnds(s: Session, now: nat)
    requires Inv(s) && s.output != [] && s.output[0].QueuedOutput?
    requires DrainOne(PopOutput(s), s.output[0], now).answer.Events?
    ensures Fewer(s, DrainOne(PopOutput(s), s.output[0], now).session)
    ensures forall e <- DrainOne(PopOutput(s), s.output[0], now).answer.events ::
              e.UtteranceFinal? ==> e.utterance !in DrainOne(PopOutput(s), s.output[0], now).session.streams
  {
    hide Terminate, Expired, Inv;
    var (f, s1) := (s.output[0].frame, PopOutput(s));
    if Expired(s.request.mode, f.captureNs, now) {
      TerminateEnds(s1, f.stream, f.utterance, Dropped);
      TerminateSays(s1, f.stream, f.utterance, Dropped);
    } else if f.endOfUtterance {
      TerminateEnds(AudioEmitted(s1, f.utterance), f.stream, f.utterance, Completed);
      TerminateSays(AudioEmitted(s1, f.utterance), f.stream, f.utterance, Completed);
    }
  }

  lemma TerminateSays(s: Session, stream: Uuid, u: Uuid, outcome: Outcome)
    requires Terminate(s, stream, u, outcome).answer.Events?
    ensures Terminate(s, stream, u, outcome).answer.events == [FinalOf(s, stream, u, outcome)]
  {
    hide Forget;
  }

  lemma OneEndBoth(a: seq<Event>, b: seq<Event>, open: set<Uuid>)
    requires OneEnd(a) && OneEnd(b) && Open(a) && Open(b)
    requires forall e <- a :: e.UtteranceFinal? ==> e.utterance !in open
    requires forall e <- b :: Weighty(e) ==> e.utterance in open
    ensures OneEnd(a + b) && Open(a + b)
  {
    var es := a + b;
    forall i, j | 0 <= i < j < |es| && es[i].UtteranceFinal? && Weighty(es[j])
      ensures es[j].utterance != es[i].utterance
    {
      if i < |a| <= j {
        assert a[i] in a && b[j - |a|] in b;
      } else if i >= |a| {
        assert es[i] == b[i - |a|] && es[j] == b[j - |a|];
      }
    }
  }

  lemma DrainOneSays(s: Session, now: nat)
    requires s.output != [] && s.output[0].QueuedOutput?
    requires DrainOne(PopOutput(s), s.output[0], now).answer.Events?
    ensures var es := DrainOne(PopOutput(s), s.output[0], now).answer.events; OneEnd(es) && Open(es)
  {
    hide Terminate, Expired;
    var (f, s1) := (s.output[0].frame, PopOutput(s));
    if Expired(s.request.mode, f.captureNs, now) {
      TerminateSays(s1, f.stream, f.utterance, Dropped);
    } else if f.endOfUtterance {
      TerminateSays(AudioEmitted(s1, f.utterance), f.stream, f.utterance, Completed);
    }
  }

  lemma DrainEnds(s: Session, now: nat)
    requires Inv(s) && DrainFrom(s, now).answer.Events?
    ensures Fewer(s, DrainFrom(s, now).session)
    ensures OneEnd(DrainFrom(s, now).answer.events) && Open(DrainFrom(s, now).answer.events)
    decreases |s.output|
  {
    hide DrainOne, Inv, OneEnd, Open, Weighty;
    S.OutputsOf(s);
    if s.output != [] {
      DrainOneKeepsInv(s, now);
      S.OutputsOf(DrainOne(PopOutput(s), s.output[0], now).session);
      DrainOneEnds(s, now);
      DrainOneSays(s, now);
      var one := DrainOne(PopOutput(s), s.output[0], now);
      DrainEnds(one.session, now);
      S.DrainPlaysOpen(one.session, now);
      var rest := DrainFrom(one.session, now).answer.events;
      WeightyOpen(rest, one.session.streams.Keys);
      OneEndBoth(one.answer.events, rest, one.session.streams.Keys);
    } else {
      NothingSaid();
    }
  }

  lemma WeightyOpen(es: seq<Event>, open: set<Uuid>)
    requires forall e <- es :: e.AudioDelta? || e.UtteranceFinal? ==> e.utterance in open
    ensures forall e <- es :: Weighty(e) ==> e.utterance in open
  {}

  lemma NothingSaid()
    ensures OneEnd([]) && Open([])
  {}

  lemma EnqueueSays(s: Session, f: Frame, now: nat)
    requires EnqueueFrame(s, f, now).answer.Events?
    ensures var es := EnqueueFrame(s, f, now).answer.events; OneEnd(es) && Open(es)
  {
    hide Forget, FrameError, Expired;
  }

  lemma ProcessSays(inj: Injection, s: Session, now: nat)
    requires Inv(s) && ProcessNext(inj, s, now).answer.Events?
    ensures var es := ProcessNext(inj, s, now).answer.events; OneEnd(es) && Open(es)
  {
    hide Forget, Expired, ReverseSamples, PcmFormat.FrameBytes, OutputOk, IdsOk, NumbersOk, Openable;
  }

  lemma CancelSays(s: Session, d: Direction, u: Uuid)
    requires CancelUtterance(s, d, u).answer.Events?
    ensures var r := CancelUtterance(s, d, u);
            && OneEnd(r.answer.events) && Open(r.answer.events) && EndsAfter(s, r.session, Cancel(d, u))
               && !r.session.closed
            && u in s.streams && u !in r.session.streams
  {
    hide Terminate;
    var s1 := PurgeQueues(s, u);
    S.PurgedStreams(s, u);
    PurgedEnds(s, u);
    TerminateEnds(s1, s.streams[u], u, Cancelled);
    TerminateSays(s1, s.streams[u], u, Cancelled);
    hide PurgeQueues;
  }

  lemma PurgedEnds(s: Session, u: Uuid)
    ensures PurgeQueues(s, u).ended == s.ended && PurgeQueues(s, u).closed == s.closed
  {
    hide Without, MsOf;
  }

  /** Any call but a close: who is still open, and in what order things are said. */
  lemma CallSays(inj: Injection, s: Session, op: Op)
    requires Inv(s) && Apply(inj, s, op).answer.Events? && !op.Close?
    ensures var r := Apply(inj, s, op);
            && OneEnd(r.answer.events) && Open(r.answer.events) && EndsAfter(s, r.session, op) && !r.session.closed
  {
    hide Inv, OneEnd, Open, EnqueueFrame, ProcessNext, DrainFrom, CancelUtterance;
    match op
    case Enqueue(f, now) => Admits(s, f, now); EnqueueEnds(s, f, now); EnqueueSays(s, f, now);
    case Process(now) => ProcessEnds(inj, s, now); ProcessSays(inj, s, now);
    case Drain(now) => S.OutputsOf(s); DrainEnds(s, now);
    case Cancel(d, u) => CancelSays(s, d, u);
    case SetDebug(b) => NothingSaid();
    case AskHealth => HealthSays(s);
  }

  lemma HealthSays(s: Session)
    requires ReportHealth(s).answer.Events?
    ensures OneEnd(ReportHealth(s).answer.events) && Open(ReportHealth(s).answer.events)
  {}

  // ---- What the daemon records ----

  /** The daemon itself refuses to record: an end of input after the collecting deadline, or
      the cancellation of an utterance whose input has not ended. */
  predicate ToldAmiss(s: Session, w: W.Watchdog, op: Op) {
    || (op.Enqueue? && op.frame.endOfUtterance && op.frame.utterance in w.utterances
        && op.frame.captureNs > w.utterances[op.frame.utterance].phase.deadline)
    || (op.Cancel? && op.utterance !in s.ended)
  }

  /** What the watchdog collects and cancels once the daemon has recorded a request. */
  ghost predicate WatchedTold(w: W.Watchdog, w': W.Watchdog, op: Op) {
    forall u <- w'.utterances ::
      && (u in w.utterances || (op.Enqueue? && op.frame.utterance == u))
      && (w'.utterances[u].phase.CollectingInput? <==>
            (u in w.utterances ==> w.utterances[u].phase.CollectingInput?)
            && !(op.Enqueue? && op.frame.utterance == u && op.frame.endOfUtterance))
      && (w'.utterances[u].phase.CancelPending? ==>
            (u in w.utterances && w.utterances[u].phase.CancelPending?) || (op.Cancel? && op.utterance == u))
  }

  /** Recorded as the validator alone would, with the stream still in use. */
  ghost predicate ToldWell(c: C.Coordinator, c': C.Coordinator, op: Op) {
    && InUse(c') && c'.validator == S.Tell(c.validator, op).validator && c'.validator.contract == c.validator.contract
    && WatchedTold(c.watchdog, c'.watchdog, op)
  }

  lemma StartTold(c: C.Coordinator, f: Frame)
    requires InUse(c) && f.stream == c.validator.contract.stream && f.captureNs <= W.U64_MAX
    requires c.validator.isOpen && f.utterance !in c.validator.terminal && f.utterance !in c.validator.capture
    requires |c.validator.capture| < MAX_ACTIVE_UTTERANCES
    ensures var d := C.StartUtterance(c, f.stream, f.utterance, f.captureNs);
            var phase := W.CollectingInput(W.SaturatingAdd(f.captureNs, W.COLLECTING_INPUT_NS));
            && d.error.None? && InUse(d.coordinator)
            && d.coordinator.validator == V.RecordInput(c.validator, f.utterance, f.captureNs).validator
            && d.coordinator.watchdog == c.watchdog.(utterances := d.coordinator.watchdog.utterances)
            && d.coordinator.watchdog.utterances ==
               c.watchdog.utterances[f.utterance := W.Watched(f.stream, phase)]
  {
    K.StartKeepsInv(c, f.stream, f.utterance, f.captureNs);
    assert f.utterance !in c.watchdog.utterances.Keys;
  }

  lemma EndTold(c: C.Coordinator, f: Frame)
    requires InUse(c) && f.stream == c.validator.contract.stream && f.captureNs <= W.U64_MAX && c.validator.isOpen
    requires f.utterance in c.watchdog.utterances && c.watchdog.utterances[f.utterance].phase.CollectingInput?
    ensures var d := C.RecordEndOfUtterance(c, f.stream, f.utterance, f.captureNs);
            var phase := W.AwaitingFirstAudio(W.SaturatingAdd(f.captureNs, W.FIRST_AUDIO_NS));
            && (d.error.None? <==> f.captureNs <= c.watchdog.utterances[f.utterance].phase.deadline)
            && (d.error.None? ==>
                  && InUse(d.coordinator)
                  && d.coordinator.validator == V.RecordEndOfUtterance(c.validator, f.utterance, f.captureNs).validator
                  && d.coordinator.watchdog.utterances ==
                     c.watchdog.utterances[f.utterance := W.Watched(f.stream, phase)])
  {
    K.EndKeepsInv(c, f.stream, f.utterance, f.captureNs);
    assert f.utterance in c.validator.capture.Keys;
  }

  lemma WatchedFrame(w: W.Watchdog, w': W.Watchdog, f: Frame, x: W.Watched, at: nat)
    requires w'.utterances == w.utterances[f.utterance := x]
    requires x.phase.CollectingInput? <==> !f.endOfUtterance
    requires !x.phase.CancelPending? && (f.utterance in w.utterances ==>
             w.utterances[f.utterance].phase.CollectingInput?)
    ensures WatchedTold(w, w', Enqueue(f, at))
  {}

  lemma TellsFirst(v: V.Validator, f: Frame, at: nat)
    requires f.utterance !in v.capture && V.RecordInput(v, f.utterance, f.captureNs).verdict.Accepted?
    ensures var v1 := V.RecordInput(v, f.utterance, f.captureNs).validator;
            S.Tell(v, Enqueue(f, at)).validator ==
            if f.endOfUtterance then V.RecordEndOfUtterance(v1, f.utterance, f.captureNs).validator else v1
  {}

  lemma NewTold(c: C.Coordinator, f: Frame, at: W.Ns)
    requires InUse(c) && f.stream == c.validator.contract.stream && f.captureNs <= W.U64_MAX
    requires c.validator.isOpen && f.utterance !in c.validator.terminal && f.utterance !in c.validator.capture
    requires |c.validator.capture| < MAX_ACTIVE_UTTERANCES && f.utterance !in c.watchdog.utterances
    ensures var d := Tell(c, Move(Enqueue(f, at), at)); d.error.None? && ToldWell(c, d.coordinator, Enqueue(f, at))
  {
    RecordsInput(c.validator, f);
    hide C.StartUtterance, C.RecordEndOfUtterance, WatchedTold, S.Tell, InUse, V.RecordInput, V.RecordEndOfUtterance;
    StartTold(c, f);
    TellsFirst(c.validator, f, at);
    var c1 := C.StartUtterance(c, f.stream, f.utterance, f.captureNs).coordinator;
    if f.endOfUtterance {
      EndTold(c1, f);
      RecordsEnd(c1.validator, f);
      var c2 := C.RecordEndOfUtterance(c1, f.stream, f.utterance, f.captureNs).coordinator;
      var x := W.Watched(f.stream, W.AwaitingFirstAudio(W.SaturatingAdd(f.captureNs, W.FIRST_AUDIO_NS)));
      assert c2.watchdog.utterances == c.watchdog.utterances[f.utterance := x];
      WatchedFrame(c.watchdog, c2.watchdog, f, x, at);
    } else {
      WatchedFrame(c.watchdog, c1.watchdog, f, c1.watchdog.utterances[f.utterance], at);
    }
  }

  lemma RecordsInput(v: V.Validator, f: Frame)
    requires v.isOpen && !v.closed && f.utterance !in v.terminal && |v.capture| < MAX_ACTIVE_UTTERANCES
    ensures var r := V.RecordInput(v, f.utterance, f.captureNs);
            r.verdict.Accepted? && r.validator.contract == v.contract && r.validator.isOpen
  {}

  lemma RecordsEnd(v: V.Validator, f: Frame)
    ensures V.RecordEndOfUtterance(v, f.utterance, f.captureNs).validator.contract == v.contract
  {}

  lemma KnownTold(c: C.Coordinator, f: Frame, at: W.Ns)
    requires InUse(c) && f.stream == c.validator.contract.stream && f.captureNs <= W.U64_MAX && c.validator.isOpen
    requires f.utterance in c.validator.capture && f.utterance in c.watchdog.utterances
    requires c.watchdog.utterances[f.utterance].phase.CollectingInput?
    ensures var d := Tell(c, Move(Enqueue(f, at), at));
            && (d.error.None? <==>
                  !f.endOfUtterance || f.captureNs <= c.watchdog.utterances[f.utterance].phase.deadline)
            && (d.error.None? ==> ToldWell(c, d.coordinator, Enqueue(f, at)))
  {
    if f.endOfUtterance {
      EndTold(c, f);
      RecordsEnd(c.validator, f);
      hide C.RecordEndOfUtterance, InUse, WatchedTold, V.RecordEndOfUtterance;
      var c1 := C.RecordEndOfUtterance(c, f.stream, f.utterance, f.captureNs).coordinator;
      if C.RecordEndOfUtterance(c, f.stream, f.utterance, f.captureNs).error.None? {
        WatchedFrame(c.watchdog, c1.watchdog, f, c1.watchdog.utterances[f.utterance], at);
      }
    }
  }

  lemma EnqueueTold(s: Session, c: C.Coordinator, f: Frame, at: W.Ns)
    requires Inv(s) && InUse(c) && S.AgreeBut(s, c.validator, None) && EndsAgree(s, c.watchdog)
    requires EnqueueFrame(s, f, at).answer.Events? && Fits(c.validator.contract, Move(Enqueue(f, at), at))
    ensures var d := Tell(c, Move(Enqueue(f, at), at));
            && (d.error.None? <==> !ToldAmiss(s, c.watchdog, Enqueue(f, at)))
            && (d.error.None? ==> ToldWell(c, d.coordinator, Enqueue(f, at)))
  {
    Admits(s, f, at);
    BooksOf(s, c);
    hide Inv, EnqueueFrame, S.AgreeBut, InUse, Tell, ToldWell;
    if f.utterance in c.validator.capture {
      KnownTold(c, f, at);
    } else {
      NewTold(c, f, at);
    }
  }

  /** The two books hold the same utterances. */
  lemma BooksOf(s: Session, c: C.Coordinator)
    requires InUse(c) && S.AgreeBut(s, c.validator, None)
    ensures c.validator.isOpen && c.validator.terminal == s.terminal
    ensures
      forall u :: (u in c.validator.capture <==> u in s.streams) && (u in c.watchdog.utterances <==> u in s.streams)
    ensures |c.validator.capture| == |s.streams|
  {
    assert |c.validator.capture.Keys| == |c.validator.capture| && |s.streams.Keys| == |s.streams|;
    assert c.watchdog.utterances.Keys == s.streams.Keys;
    forall u ensures u in c.watchdog.utterances <==> u in s.streams {
      assert u in c.watchdog.utterances.Keys <==> u in s.streams.Keys;
    }
    forall u ensures u in c.validator.capture <==> u in s.streams {
      assert u in c.validator.capture.Keys <==> u in s.streams.Keys;
    }
  }

  lemma CancelMarks(c: C.Coordinator, u: Uuid, at: W.Ns)
    requires InUse(c) && u in c.watchdog.utterances && u in c.validator.capture && c.validator.isOpen
    requires u !in c.validator.terminal && !c.watchdog.utterances[u].phase.CancelPending?
    ensures var r := C.CancelExpiredUtterance(c, c.validator.contract.stream, u, at);
            && (r.error.None? <==> !c.watchdog.utterances[u].phase.CollectingInput?)
            && (r.error.None? ==>
                  && r.coordinator.validator == V.RecordCancelRequested(c.validator, u).validator
                  && r.coordinator.buffers == map[]
                  && r.coordinator.watchdog ==
                     W.Enter(c.watchdog, u, W.CancelPending(W.SaturatingAdd(at, W.CANCEL_FINAL_NS))))
  {
    assert c.buffers - {(c.validator.contract.stream, u)} == map[];
    hide K.Inv;
  }

  lemma CancelTold(s: Session, c: C.Coordinator, d: Direction, u: Uuid, at: W.Ns)
    requires InUse(c) && S.AgreeBut(s, c.validator, None) && EndsAgree(s, c.watchdog)
    requires CancelUtterance(s, d, u).answer.Events?
    ensures var r := Tell(c, Move(Cancel(d, u), at));
            && (r.error.None? <==> !ToldAmiss(s, c.watchdog, Cancel(d, u)))
            && (r.error.None? ==> ToldWell(c, r.coordinator, Cancel(d, u)))
            && (r.error.None? ==> u in r.coordinator.watchdog.utterances
                                  && r.coordinator.watchdog.utterances[u].phase ==
                                     W.CancelPending(W.SaturatingAdd(at, W.CANCEL_FINAL_NS)))
  {
    hide S.AgreeBut, S.Tell, CancelUtterance, C.CancelExpiredUtterance, InUse, WatchedTold, V.RecordCancelRequested;
    BooksOf(s, c);
    CancelKnown(s, d, u);
    CancelMarks(c, u, at);
    TellsCancel(c.validator, d, u);
    var r := C.CancelExpiredUtterance(c, c.validator.contract.stream, u, at);
    if r.error.None? {
      CancelledInUse(c, u, at);
      WatchedCancel(c.watchdog, d, u, W.CancelPending(W.SaturatingAdd(at, W.CANCEL_FINAL_NS)));
    }
  }

  lemma TellsCancel(v: V.Validator, d: Direction, u: Uuid)
    ensures S.Tell(v, Cancel(d, u)) == V.RecordCancelRequested(v, u)
  {}

  lemma WatchedCancel(w: W.Watchdog, d: Direction, u: Uuid, phase: W.Phase)
    requires u in w.utterances && phase.CancelPending? && !w.utterances[u].phase.CollectingInput?
    ensures WatchedTold(w, W.Enter(w, u, phase), Cancel(d, u))
  {}

  lemma CancelledInUse(c: C.Coordinator, u: Uuid, at: W.Ns)
    requires InUse(c) && u in c.watchdog.utterances && u in c.validator.capture && c.validator.isOpen
    requires u !in c.validator.terminal && !c.watchdog.utterances[u].phase.CancelPending?
    requires C.CancelExpiredUtterance(c, c.validator.contract.stream, u, at).error.None?
    ensures var c' := C.CancelExpiredUtterance(c, c.validator.contract.stream, u, at).coordinator;
            InUse(c') && c'.validator.contract == c.validator.contract
  {
    CancelMarks(c, u, at);
    K.CancelExpiredKeepsInv(c, c.validator.contract.stream, u, at);
    hide C.CancelExpiredUtterance, K.Inv;
  }

  lemma CancelKnown(s: Session, d: Direction, u: Uuid)
    requires CancelUtterance(s, d, u).answer.Events?
    ensures u in s.streams && u !in s.terminal && !s.closed
  {
    hide Terminate, PurgeQueues;
  }

  lemma OtherTold(s: Session, c: C.Coordinator, m: Move)
    requires InUse(c) && !m.op.Enqueue? && !m.op.Cancel?
    ensures Tell(c, m).error.None? && ToldWell(c, Tell(c, m).coordinator, m.op) && !ToldAmiss(s, c.watchdog, m.op)
  {}

  lemma MoveTold(inj: Injection, s: Session, c: C.Coordinator, m: Move)
    requires Inv(s) && InUse(c) && S.AgreeBut(s, c.validator, None) && EndsAgree(s, c.watchdog)
    requires Fits(c.validator.contract, m) && Apply(inj, s, m.op).answer.Events?
    ensures (Tell(c, m).error.None? <==> !ToldAmiss(s, c.watchdog, m.op))
    ensures Tell(c, m).error.None? ==> ToldWell(c, Tell(c, m).coordinator, m.op)
  {
    hide Inv, InUse, S.AgreeBut, Tell, ToldWell, EnqueueFrame, CancelUtterance, EndsAgree;
    match m.op
    case Enqueue(f, now) => EnqueueTold(s, c, f, m.at);
    case Cancel(d, u) => CancelTold(s, c, d, u, m.at);
    case _ => OtherTold(s, c, m);
  }

  // ---- One move ----

  /** The clock matters to audio only. */
  lemma {:induction false} Clockless(v: V.Validator, es: seq<Event>, a: nat, b: nat)
    requires forall i :: 0 <= i < |es| ==> !es[i].AudioDelta?
    ensures S.Deliver(v, es, a) == S.Deliver(v, es, b)
    decreases |es|
  {
    if es != [] {
      ClocklessOne(v, es[0], a, b);
      hide V.Validate;
      Clockless(V.Validate(v, es[0], a).validator, es[1..], a, b);
    }
  }

  lemma ClocklessOne(v: V.Validator, e: Event, a: nat, b: nat)
    requires !e.AudioDelta?
    ensures V.Validate(v, e, a) == V.Validate(v, e, b)
  {
    hide V.EnvelopeError;
  }

  lemma NoAudio(inj: Injection, s: Session, op: Op)
    requires Inv(s) && Apply(inj, s, op).answer.Events? && (op.Cancel? || op.Close? || op.SetDebug? || op.AskHealth?)
    ensures forall i :: 0 <= i < |Apply(inj, s, op).answer.events| ==> !Apply(inj, s, op).answer.events[i].AudioDelta?
  {
    hide Forget, PurgeQueues;
  }

  lemma SameDelivery(inj: Injection, s: Session, v: V.Validator, m: Move)
    requires Inv(s) && Apply(inj, s, m.op).answer.Events?
    requires m.op.Enqueue? || m.op.Process? || m.op.Drain? ==> m.op.now == m.at
    ensures S.Deliver(v, Apply(inj, s, m.op).answer.events, m.at) ==
            S.Deliver(v, Apply(inj, s, m.op).answer.events, S.Clock(m.op))
  {
    hide Inv, Apply, S.Deliver;
    if m.op.Cancel? || m.op.Close? || m.op.SetDebug? || m.op.AskHealth? {
      NoAudio(inj, s, m.op);
      Clockless(v, Apply(inj, s, m.op).answer.events, m.at, S.Clock(m.op));
    }
  }

  /** The exact condition: the daemon could not record the request, or the watchdog is not
      ready for something the session says, or the session plays the first audio of an
      utterance whose recorded end is too old. */
  ghost predicate Amiss(inj: Injection, j: Joint, m: Move)
    requires j.Running? ==> Inv(j.session)
    requires m.op.Enqueue? ==> m.op.frame.captureNs <= W.U64_MAX
  {
    && j.Running?
    && var (r, c) := (Apply(inj, j.session, m.op), j.coordinator);
       && r.answer.Events?
       && (|| ToldAmiss(j.session, c.watchdog, m.op)
           || !AllReady(Tell(c, m).coordinator.watchdog, r.answer.events, m.at)
           || S.DrainsLate(c.validator, m.op, r.answer.events))
  }

  lemma EndsAgreeAfter(s: Session, s': Session, w: W.Watchdog, told: W.Watchdog, w': W.Watchdog, op: Op)
    requires EndsAgree(s, w) && EndsAfter(s, s', op) && WatchedTold(w, told, op) && WatchedOn(told, w')
    requires s'.streams.Keys == w'.utterances.Keys && w.utterances.Keys == s.streams.Keys
    requires op.Cancel? ==> op.utterance !in s'.streams
    requires op.Enqueue? ==> op.frame.utterance !in s.ended
    ensures EndsAgree(s', w')
  {
    forall u <- s'.streams
      ensures u in w'.utterances && !w'.utterances[u].phase.CancelPending?
              && (w'.utterances[u].phase.CollectingInput? <==> u !in s'.ended)
    {
      assert u in w'.utterances.Keys;
      assert u in told.utterances;
      assert u in w.utterances <==> u in w.utterances.Keys;
    }
  }

  lemma CloseMoves(inj: Injection, s: Session, c: C.Coordinator, at: W.Ns)
    requires Inv(s) && InUse(c) && S.AgreeBut(s, c.validator, None) && Apply(inj, s, Close).answer.Events?
    ensures var es := Apply(inj, s, Close).answer.events;
            && AllReady(c.watchdog, es, at) && Apply(inj, s, Close).session.closed
            && Deliver(c, es, at).Some? && Deliver(c, es, at).value.watchdog.phase.Terminal?
  {
    var e := SessionClosed(NextHeader(s));
    S.CloseAccepted(s, c.validator);
    ClocklessOne(c.validator, e, 0, at);
    hide Inv, K.Inv, S.AgreeBut;
    assert [e][1..] == [];
    assert S.Deliver(c.validator, [e], 0).Some? ==> V.Validate(c.validator, e, 0).verdict.Accepted?;
    hide V.Validate;
    CloseTaken(c, e, at);
    assert Deliver(Take(c, e, at).coordinator, [], at) == Some(Take(c, e, at).coordinator);
  }

  lemma CloseTaken(c: C.Coordinator, e: Event, at: W.Ns)
    requires InUse(c) && e.SessionClosed? && V.Validate(c.validator, e, at).verdict.Accepted?
    ensures Take(c, e, at).error.None? && Take(c, e, at).coordinator.watchdog.phase.Terminal?
  {
    hide V.Validate;
    K.ClosedAcceptsNothing(c.validator, e, at);
  }

  /** What the session says, once the request was recorded, is taken unless something is amiss. */
  lemma SaidTakenIff(inj: Injection, s: Session, c: C.Coordinator, m: Move)
    requires Inv(s) && !s.closed && InUse(c) && S.AgreeBut(s, c.validator, None) && EndsAgree(s, c.watchdog)
    requires Fits(c.validator.contract, m) && Apply(inj, s, m.op).answer.Events? && !m.op.Close?
    requires Tell(c, m).error.None? && ToldWell(c, Tell(c, m).coordinator, m.op)
    requires c.validator.contract.outputFormat.frameDurationMs <= C.MAX_RECEIVE_BUFFERED_MS
    ensures var (r, told) := (Apply(inj, s, m.op), Tell(c, m).coordinator);
            var all := Deliver(told, r.answer.events, m.at);
            && (all.None? <==>
                  !AllReady(told.watchdog, r.answer.events, m.at)
                  || S.DrainsLate(c.validator, m.op, r.answer.events))
            && (all.Some? ==>
                  && InUse(all.value) && !r.session.closed && S.AgreeBut(r.session, all.value.validator, None)
                  && all.value.validator.contract == c.validator.contract
                  && WatchedOn(told.watchdog, all.value.watchdog) && EndsAfter(s, r.session, m.op))
  {
    hide Inv, Apply, Deliver, S.Deliver, S.DrainsLate, S.AgreeBut, InUse, AllReady, EndsAgree, Tell, OneEnd, Open,
         EndsAfter, WatchedOn, WatchedTold;
    var (r, told) := (Apply(inj, s, m.op), Tell(c, m).coordinator);
    CallSays(inj, s, m.op);
    DeliveredIff(told, r.answer.events, m.at);
    SameDelivery(inj, s, told.validator, m);
    S.CallJudged(inj, s, c.validator, m.op);
  }

  lemma StillAgree(inj: Injection, s: Session, c: C.Coordinator, told: C.Coordinator, s': Session, c': C.Coordinator,
        op: Op)
    requires InUse(c) && S.AgreeBut(s, c.validator, None) && EndsAgree(s, c.watchdog) && ToldWell(c, told, op)
    requires InUse(c') && S.AgreeBut(s', c'.validator, None) && WatchedOn(told.watchdog, c'.watchdog)
             && EndsAfter(s, s', op)
    requires op.Cancel? ==> op.utterance !in s'.streams
    requires op.Enqueue? ==> op.frame.utterance !in s.ended
    ensures EndsAgree(s', c'.watchdog)
  {
    BooksOf(s, c);
    BooksOf(s', c');
    hide InUse, S.AgreeBut, EndsAgree, WatchedTold, WatchedOn, EndsAfter;
    assert s'.streams.Keys == c'.watchdog.utterances.Keys && c.watchdog.utterances.Keys == s.streams.Keys;
    EndsAgreeAfter(s, s', c.watchdog, told.watchdog, c'.watchdog, op);
  }

  lemma CallLeaves(inj: Injection, s: Session, op: Op)
    requires Inv(s) && Apply(inj, s, op).answer.Events?
    ensures op.Cancel? ==> op.utterance !in Apply(inj, s, op).session.streams
    ensures op.Enqueue? ==> op.frame.utterance !in s.ended
  {
    hide Inv, EnqueueFrame, CancelUtterance, ProcessNext, DrainFrom;
    if op.Cancel? {
      CancelSays(s, op.direction, op.utterance);
    } else if op.Enqueue? {
      Admits(s, op.frame, op.now);
    }
  }

  lemma OpenMove(inj: Injection, s: Session, c: C.Coordinator, m: Move)
    requires Inv(s) && !s.closed && InUse(c) && S.AgreeBut(s, c.validator, None) && EndsAgree(s, c.watchdog)
    requires Fits(c.validator.contract, m) && Apply(inj, s, m.op).answer.Events? && !m.op.Close?
    requires Tell(c, m).error.None? && ToldWell(c, Tell(c, m).coordinator, m.op)
    requires c.validator.contract.outputFormat.frameDurationMs <= C.MAX_RECEIVE_BUFFERED_MS
    ensures var (r, told) := (Apply(inj, s, m.op), Tell(c, m).coordinator);
            var all := Deliver(told, r.answer.events, m.at);
            && (all.None? <==>
                  !AllReady(told.watchdog, r.answer.events, m.at)
                  || S.DrainsLate(c.validator, m.op, r.answer.events))
            && (all.Some? ==> Agree(c.validator.contract, r.session, all.value))
  {
    hide Inv, Apply, Deliver, S.DrainsLate, S.AgreeBut, InUse, AllReady, EndsAgree, Tell, EndsAfter, WatchedOn;
    var (r, told) := (Apply(inj, s, m.op), Tell(c, m).coordinator);
    SaidTakenIff(inj, s, c, m);
    CallLeaves(inj, s, m.op);
    var all := Deliver(told, r.answer.events, m.at);
    if all.Some? {
      StillAgree(inj, s, c, told, r.session, all.value, m.op);
    }
  }

  /** One more call is refused exactly when something is amiss; otherwise all agree again. */
  lemma StepRefusedIff(inj: Injection, contract: Contract, j: Joint, m: Move)
    requires j.Running? && Inv(j.session) && Agree(contract, j.session, j.coordinator)
    requires Fits(contract, m) && contract.outputFormat.frameDurationMs <= C.MAX_RECEIVE_BUFFERED_MS
    ensures Step(inj, j, m).Refused? <==> Amiss(inj, j, m)
    ensures var n := Step(inj, j, m); n.Running? ==> Agree(contract, n.session, n.coordinator)
  {
    hide Inv, Apply, Deliver, S.DrainsLate, S.AgreeBut, InUse, AllReady, EndsAgree, ToldAmiss, Tell, ToldWell, Fits;
    FitsNs(contract, m);
    var (s, c) := (j.session, j.coordinator);
    if Apply(inj, s, m.op).answer.Events? {
      S.ReturningIsOpen(inj, s, m.op);
      MoveTold(inj, s, c, m);
      if m.op.Close? {
        CloseMoves(inj, s, c, m.at);
        CloseTellsNothing(c, m);
      } else if Tell(c, m).error.None? {
        OpenMove(inj, s, c, m);
      }
    }
  }

  lemma FitsNs(contract: Contract, m: Move)
    requires Fits(contract, m)
    ensures m.op.Enqueue? ==> m.op.frame.captureNs <= W.U64_MAX
  {}

  lemma CloseTellsNothing(c: C.Coordinator, m: Move)
    requires m.op.Close?
    ensures Tell(c, m).coordinator == c
    ensures forall es :: !S.DrainsLate(c.validator, m.op, es)
  {}

  /** So a session drained while input is still being collected is refused as soon as it plays
      or ends an utterance whose last frame has not come. */
  lemma EarlyAudioRefused(inj: Injection, contract: Contract, j: Joint, at: W.Ns, i: nat)
    requires j.Running? && Inv(j.session) && Agree(contract, j.session, j.coordinator)
    requires contract.outputFormat.frameDurationMs <= C.MAX_RECEIVE_BUFFERED_MS
    requires var r := Apply(inj, j.session, Drain(at));
             && r.answer.Events? && i < |r.answer.events| && Weighty(r.answer.events[i])
             && r.answer.events[i].utterance !in j.session.ended
    ensures Step(inj, j, Move(Drain(at), at)).Refused?
  {
    var (s, m, e) := (j.session, Move(Drain(at), at), Apply(inj, j.session, Drain(at)).answer.events[i]);
    S.ReturningIsOpen(inj, s, Drain(at));
    S.OutputsOf(s);
    S.DrainPlaysOpen(s, at);
    StepRefusedIff(inj, contract, j, m);
    hide Inv, DrainFrom, InUse, S.AgreeBut, S.DrainsLate;
    assert e.utterance in s.streams;
    assert !Ready(j.coordinator.watchdog, e, at);
  }
}

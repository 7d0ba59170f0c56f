/** Runs whose captures do not go back in time: what is left of the conditions under which the
    coordinator refuses something is haste, read off the state before the call. */
module PatientRuns {
  import opened Wire
  import opened EngineModel
  import opened EngineRuns
  import W = WatchdogModel
  import V = ValidatorModel
  import C = CoordinatorModel
  import K = Coupling
  import S = Simulation
  import opened CoordinatedDelivery
  import opened CoordinatedCalls
  import opened CoordinatedPolls
  import opened CoordinatedRuns

  // ---- Haste ----

  /** The input of the utterance has ended, at the latest with this call, and the deadline this
      set has not passed. */
  predicate InTime(s: Session, w: W.Watchdog, m: Move, u: Uuid)
    requires m.op.Enqueue? ==> m.op.frame.captureNs <= W.U64_MAX
  {
    if m.op.Enqueue? && m.op.frame.utterance == u && m.op.frame.endOfUtterance
    then m.at <= m.op.frame.captureNs + 6_000_000_000
    else u in s.ended && u in w.utterances && m.at <= w.utterances[u].phase.deadline
  }

  /** The daemon could not record the request, or the session plays or ends an utterance out of
      time without being asked to cancel it. */
  ghost predicate Hasty(inj: Injection, j: Joint, m: Move)
    requires j.Running? ==> Inv(j.session)
    requires m.op.Enqueue? ==> m.op.frame.captureNs <= W.U64_MAX
  {
    && j.Running?
    && var (answer, w) := (Apply(inj, j.session, m.op).answer, j.coordinator.watchdog);
       && answer.Events?
       && (|| ToldAmiss(j.session, w, m.op)
           || (!m.op.Cancel?
               && exists i :: 0 <= i < |answer.events| && Weighty(answer.events[i])
                              && !InTime(j.session, w, m, answer.events[i].utterance)))
  }

  // ---- What the session says, and what the watchdog was told ----

  predicate Cancels(e: Event) {
    e.UtteranceFinal? && e.outcome.Cancelled?
  }

  lemma DrainOneCancelsNothing(s: Session, now: nat)
    requires s.output != [] && s.output[0].QueuedOutput?
    requires DrainOne(PopOutput(s), s.output[0], now).answer.Events?
    ensures forall e <- DrainOne(PopOutput(s), s.output[0], now).answer.events :: !Cancels(e)
  {
    hide Terminate, Expired;
    var (f, s1) := (s.output[0].frame, PopOutput(s));
    if Expired(s.request.mode, f.captureNs, now) {
      TerminateSays(s1, f.stream, f.utterance, Dropped);
    } else if f.endOfUtterance {
      TerminateSays(AudioEmitted(s1, f.utterance), f.stream, f.utterance, Completed);
    }
  }

  lemma {:induction false} DrainCancelsNothing(s: Session, now: nat)
    requires Inv(s) && DrainFrom(s, now).answer.Events?
    ensures forall e <- DrainFrom(s, now).answer.events :: !Cancels(e)
    decreases |s.output|
  {
    hide DrainOne, Inv, Cancels;
    S.OutputsOf(s);
    if s.output != [] {
      DrainOneKeepsInv(s, now);
      var one := DrainOne(PopOutput(s), s.output[0], now);
      S.OutputsOf(one.session);
      DrainOneCancelsNothing(s, now);
      DrainCancelsNothing(one.session, now);
    }
  }

  lemma EnqueueCancelsNothing(s: Session, f: Frame, now: nat)
    requires EnqueueFrame(s, f, now).answer.Events?
    ensures forall e <- EnqueueFrame(s, f, now).answer.events :: !Cancels(e)
  {
    hide Forget, FrameError, Expired;
  }

  lemma ProcessCancelsNothing(inj: Injection, s: Session, now: nat)
    requires Inv(s) && ProcessNext(inj, s, now).answer.Events?
    ensures forall e <- ProcessNext(inj, s, now).answer.events :: !Cancels(e)
  {
    hide Forget, Expired, ReverseSamples, PcmFormat.FrameBytes, OutputOk, IdsOk, NumbersOk, Openable;
  }

  /** Only a call to cancel makes the session report an utterance cancelled. */
  lemma CancelsOnlyIfAsked(inj: Injection, s: Session, op: Op)
    requires Inv(s) && Apply(inj, s, op).answer.Events? && !op.Cancel?
    ensures forall e <- Apply(inj, s, op).answer.events :: !Cancels(e)
  {
    hide Inv, EnqueueFrame, ProcessNext, DrainFrom;
    match op
    case Enqueue(f, now) => EnqueueCancelsNothing(s, f, now);
    case Process(now) => ProcessCancelsNothing(inj, s, now);
    case Drain(now) => S.OutputsOf(s); DrainCancelsNothing(s, now);
    case _ =>
  }

  /** Telling the watchdog touches the one utterance the request is about. */
  lemma ToldPhases(s: Session, c: C.Coordinator, m: Move)
    requires InUse(c) && S.AgreeBut(s, c.validator, None) && EndsAgree(s, c.watchdog) && Fits(c.validator.contract, m)
    requires !m.op.Cancel? && Tell(c, m).error.None?
    requires m.op.Enqueue? ==> EnqueueFrame(s, m.op.frame, m.at).answer.Events?
    ensures var (w, told) := (c.watchdog.utterances, Tell(c, m).coordinator.watchdog.utterances);
            if !m.op.Enqueue? then told == w
            else
              var f := m.op.frame;
              && f.utterance in told && (forall u :: u != f.utterance ==> (u in told <==> u in w))
              && (forall u <- w :: u != f.utterance ==> told[u] == w[u])
              && (if f.endOfUtterance
                  then told[f.utterance].phase ==
                         W.AwaitingFirstAudio(W.SaturatingAdd(f.captureNs, W.FIRST_AUDIO_NS))
                  else told[f.utterance].phase.CollectingInput?)
  {
    hide S.AgreeBut, EnqueueFrame, InUse, C.StartUtterance, C.RecordEndOfUtterance;
    if m.op.Enqueue? {
      var f := m.op.frame;
      Admits(s, f, m.at);
      BooksOf(s, c);
      if f.utterance !in c.validator.capture {
        StartTold(c, f);
        if f.endOfUtterance {
          RecordsInput(c.validator, f);
          EndTold(C.StartUtterance(c, f.stream, f.utterance, f.captureNs).coordinator, f);
        }
      } else if f.endOfUtterance {
        EndTold(c, f);
      }
    }
  }

  /** So the watchdog, once told, is ready exactly for what is said in time. */
  lemma ReadyIffInTime(inj: Injection, s: Session, c: C.Coordinator, m: Move, e: Event)
    requires InUse(c) && S.AgreeBut(s, c.validator, None) && EndsAgree(s, c.watchdog) && Fits(c.validator.contract, m)
    requires !m.op.Cancel? && Tell(c, m).error.None? && Weighty(e) && !Cancels(e)
    requires m.op.Enqueue? ==> EnqueueFrame(s, m.op.frame, m.at).answer.Events?
    ensures Ready(Tell(c, m).coordinator.watchdog, e, m.at) <==> InTime(s, c.watchdog, m, e.utterance)
  {
    hide InUse, S.AgreeBut, Tell, EnqueueFrame;
    ToldPhases(s, c, m);
    BooksOf(s, c);
    if m.op.Enqueue? {
      Admits(s, m.op.frame, m.at);
    }
  }

  /** A cancellation, once recorded, is answered in time. */
  lemma CancelAnswerReady(s: Session, c: C.Coordinator, d: Direction, u: Uuid, at: W.Ns)
    requires InUse(c) && S.AgreeBut(s, c.validator, None) && EndsAgree(s, c.watchdog)
    requires CancelUtterance(s, d, u).answer.Events? && Tell(c, Move(Cancel(d, u), at)).error.None?
    ensures AllReady(Tell(c, Move(Cancel(d, u), at)).coordinator.watchdog, CancelUtterance(s, d, u).answer.events, at)
  {
    hide InUse, S.AgreeBut, EndsAgree, Tell, CancelUtterance;
    CancelTold(s, c, d, u, at);
    CancelEnds(s, d, u);
  }

  // ---- Captures that do not go back in time ----

  /** The calls of a run. */
  function Asked(turns: seq<Turn>): seq<Op> {
    if turns == [] then []
    else Asked(turns[..|turns| - 1]) + if turns[|turns| - 1].Ask? then [turns[|turns| - 1].move.op] else []
  }

  lemma {:induction false} AskedBefore(turns: seq<Turn>, k: nat)
    requires k <= |turns|
    ensures Asked(turns[..k]) <= Asked(turns)
  {
    if k < |turns| {
      AskedBefore(turns[..|turns| - 1], k);
      assert turns[..|turns| - 1][..k] == turns[..k];
    } else {
      assert turns[..k] == turns;
    }
  }

  lemma ForwardBefore(a: seq<Op>, b: seq<Op>)
    requires a <= b && S.Forward(b)
    ensures S.Forward(a)
  {
    assert forall i :: 0 <= i < |a| ==> a[i] == b[i];
  }

  /** The validator's capture times come from frames, and no end is recorded before its beginning. */
  ghost predicate Punctual(ops: seq<Op>, j: Joint) {
    j.Running? ==> S.FromFrames(ops, j.coordinator.validator) && S.Timely(j.coordinator.validator)
  }

  lemma TakeForgets(c: C.Coordinator, e: Event, now: W.Ns)
    ensures S.Forgets(c.validator, Take(c, e, now).coordinator.validator)
  {
    S.ValidateForgets(c.validator, e, now);
    hide V.Validate;
  }

  lemma {:induction false} DeliverForgets(c: C.Coordinator, es: seq<Event>, now: W.Ns)
    requires Deliver(c, es, now).Some?
    ensures S.Forgets(c.validator, Deliver(c, es, now).value.validator)
    decreases |es|
  {
    hide Take;
    if es != [] {
      TakeForgets(c, es[0], now);
      DeliverForgets(Take(c, es[0], now).coordinator, es[1..], now);
    }
  }

  lemma {:induction false} CancelEachForgets(inj: Injection, s: Session, c: C.Coordinator, us: seq<Uuid>, at: W.Ns)
    requires Inv(s)
    ensures var n := CancelEach(inj, s, c, us, at);
            n.Running? ==> S.Forgets(c.validator, n.coordinator.validator)
    decreases |us|
  {
    hide Inv, Apply, Deliver;
    if us != [] {
      var cancel := Cancel(c.validator.contract.direction, us[0]);
      var r := Apply(inj, s, cancel);
      if r.answer.Events? && Deliver(c, r.answer.events, at).Some? {
        ApplyKeepsInv(inj, s, cancel);
        DeliverForgets(c, r.answer.events, at);
        CancelEachForgets(inj, r.session, Deliver(c, r.answer.events, at).value, us[1..], at);
      }
    }
  }

  lemma PolledForgets(inj: Injection, j: Joint, at: W.Ns, order: seq<Uuid>)
    requires j.Running? && Inv(j.session)
    ensures var n := Polled(inj, j, at, order);
            n.Running? ==> S.Forgets(j.coordinator.validator, n.coordinator.validator)
  {
    hide Inv, CancelEach, Apply, Deliver;
    var c := C.Poll(j.coordinator, at).coordinator;
    assert S.Forgets(j.coordinator.validator, c.validator);
    CancelEachForgets(inj, j.session, c, order, at);
    var r := Apply(inj, j.session, Close);
    if r.answer.Events? && Deliver(c, r.answer.events, at).Some? {
      DeliverForgets(c, r.answer.events, at);
    }
  }

  lemma PunctualStays(ops: seq<Op>, v: V.Validator, v': V.Validator)
    requires S.FromFrames(ops, v) && S.Timely(v) && S.Forgets(v, v')
    ensures S.FromFrames(ops, v') && S.Timely(v')
  {}

  lemma StepPunctual(inj: Injection, contract: Contract, ops: seq<Op>, j: Joint, m: Move)
    requires j.Running? && Inv(j.session) && Agree(contract, j.session, j.coordinator) && Fits(contract, m)
    requires Punctual(ops, j) && S.Forward(ops + [m.op])
    ensures Punctual(ops + [m.op], Step(inj, j, m))
  {
    hide Inv, Apply, Tell, S.Tell, Deliver, InUse, S.AgreeBut, EndsAgree, S.FromFrames, S.Timely, S.Forgets,
         WatchedTold, S.Forward;
    var (s, c) := (j.session, j.coordinator);
    var r := Apply(inj, s, m.op);
    if r.answer.Events? && Step(inj, j, m).Running? {
      S.ReturningIsOpen(inj, s, m.op);
      MoveTold(inj, s, c, m);
      S.AgreeKeys(s, c.validator);
      S.ForwardNow(ops, c.validator, m.op);
      S.TellTimely(c.validator, m.op);
      S.TellFromFrames(ops, c.validator, m.op);
      var told := Tell(c, m).coordinator;
      DeliverForgets(told, r.answer.events, m.at);
      PunctualStays(ops + [m.op], told.validator, Deliver(told, r.answer.events, m.at).value.validator);
    }
  }

  lemma {:induction false} TogetherPunctual(inj: Injection, request: OpenRequest, contract: Contract,
        turns: seq<Turn>)
    requires Openable(request) && S.SameContract(request, contract) && AllFit(contract, turns)
    requires S.Forward(Asked(turns))
    ensures Punctual(Asked(turns), Together(inj, request, contract, turns))
  {
    hide Inv, Agree, Step, Polled, S.Forward, S.Forgets;
    if turns == [] {
      BeginningPunctual(request, contract);
    } else {
      var (before, t) := (turns[..|turns| - 1], turns[|turns| - 1]);
      ForwardBefore(Asked(before), Asked(turns));
      TogetherPunctual(inj, request, contract, before);
      TogetherAgrees(inj, request, contract, before);
      var j := Together(inj, request, contract, before);
      if j.Running? && t.Ask? {
        StepPunctual(inj, contract, Asked(before), j, t.move);
      } else if j.Running? {
        PolledForgets(inj, j, t.at, t.order);
        var n := Polled(inj, j, t.at, t.order);
        if n.Running? {
          PunctualStays(Asked(before), j.coordinator.validator, n.coordinator.validator);
        }
      } else if t.Poll? {
        PollNeedsRunning(inj, j, t.at, t.order);
      }
    }
  }

  lemma BeginningPunctual(request: OpenRequest, contract: Contract)
    requires Openable(request) && S.SameContract(request, contract)
    ensures Punctual([], Beginning(request, contract))
  {
    hide Take;
    var (c, e) := (C.Fresh(contract), OpenedEvent(request));
    if Deliver(c, [e], 0).Some? {
      DeliverForgets(c, [e], 0);
    }
  }

  // ---- The theorem ----

  /** With the captures in order, a call is amiss exactly when it is hasty. */
  lemma AmissIffHasty(inj: Injection, contract: Contract, j: Joint, m: Move)
    requires j.Running? && Inv(j.session) && Agree(contract, j.session, j.coordinator) && Fits(contract, m)
    requires S.Timely(j.coordinator.validator)
    ensures Amiss(inj, j, m) <==> Hasty(inj, j, m)
  {
    hide Inv, Tell, Deliver, S.Deliver, InUse, S.AgreeBut, EndsAgree, S.DrainsLate, S.Timely, ToldAmiss, InTime, Ready,
         Cancels, EnqueueFrame, ProcessNext, DrainFrom, CancelUtterance, CloseSession, UpdateDebugText,
         ReportHealth;
    var (s, c) := (j.session, j.coordinator);
    if Apply(inj, s, m.op).answer.Events? {
      S.ReturningIsOpen(inj, s, m.op);
      S.CallJudged(inj, s, c.validator, m.op);
      MoveTold(inj, s, c, m);
      var es := Apply(inj, s, m.op).answer.events;
      if !ToldAmiss(s, c.watchdog, m.op) {
        if m.op.Cancel? {
          CancelAnswerReady(s, c, m.op.direction, m.op.utterance, m.at);
        } else {
          CancelsOnlyIfAsked(inj, s, m.op);
          forall i | 0 <= i < |es|
            ensures Ready(Tell(c, m).coordinator.watchdog, es[i], m.at) <==>
                      (Weighty(es[i]) ==> InTime(s, c.watchdog, m, es[i].utterance))
          {
            if Weighty(es[i]) {
              ReadyIffInTime(inj, s, c, m, es[i]);
            } else {
              ReadyForOthers(Tell(c, m).coordinator.watchdog, es[i], m.at);
            }
          }
        }
      }
    }
  }

  lemma ReadyForOthers(w: W.Watchdog, e: Event, now: W.Ns)
    requires !Weighty(e)
    ensures Ready(w, e, now)
  {}

  ghost predicate HastyAt(inj: Injection, request: OpenRequest, contract: Contract, turns: seq<Turn>, k: nat)
    requires Openable(request) && AllFit(contract, turns) && k < |turns|
  {
    turns[k].Ask? && Hasty(inj, Together(inj, request, contract, turns[..k]), turns[k].move)
  }

  /** Over every run whose captures do not go back in time within an utterance, with polls
      anywhere, something is refused if and only if some call is hasty. */
  lemma ForwardRefusedIff(inj: Injection, request: OpenRequest, contract: Contract, turns: seq<Turn>)
    requires Openable(request) && S.SameContract(request, contract) && AllFit(contract, turns)
    requires S.Forward(Asked(turns))
    ensures Together(inj, request, contract, turns).Refused? <==>
              exists k :: 0 <= k < |turns| && HastyAt(inj, request, contract, turns, k)
  {
    CoordinatorRefusesIff(inj, request, contract, turns);
    hide Together, Agree, Amiss, Hasty, Inv, S.Forward, Asked, S.FromFrames, S.Timely, Fits;
    forall k | 0 <= k < |turns|
      ensures AmissAt(inj, request, contract, turns, k) <==> HastyAt(inj, request, contract, turns, k)
    {
      var before := turns[..k];
      AskedBefore(turns, k);
      ForwardBefore(Asked(before), Asked(turns));
      TogetherAgrees(inj, request, contract, before);
      TogetherPunctual(inj, request, contract, before);
      var j := Together(inj, request, contract, before);
      if turns[k].Ask? && j.Running? {
        AmissIffHasty(inj, contract, j, turns[k].move);
      } else if turns[k].Ask? {
        AmissNeedsRunning(inj, j, turns[k].move);
        HasteNeedsRunning(inj, j, turns[k].move);
      }
    }
  }

  lemma HasteNeedsRunning(inj: Injection, j: Joint, m: Move)
    requires !j.Running? && (m.op.Enqueue? ==> m.op.frame.captureNs <= W.U64_MAX)
    ensures !Hasty(inj, j, m)
  {}
}

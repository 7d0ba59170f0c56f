/** Why a session must not be drained before the input has ended: a run of three calls in
    which the coordinator refuses the audio the session plays. */
module EarlyDrain {
  import opened Wire
  import opened EngineModel
  import opened EngineRuns
  import W = WatchdogModel
  import C = CoordinatorModel
  import S = Simulation
  import CaptureOrder
  import opened CoordinatedDelivery
  import opened CoordinatedCalls
  import opened CoordinatedRuns

  /** A fresh frame that does not end its utterance. */
  predicate Begins(request: OpenRequest, contract: Contract, f: Frame, now: W.Ns) {
    && CaptureOrder.Fits(request, contract, f) && !f.endOfUtterance && f.captureNs <= W.U64_MAX
    && !Expired(request.mode, f.captureNs, now)
  }

  /** The frame is heard, processed and played at once. */
  function EarlyRun(f: Frame, now: W.Ns): seq<Turn> {
    [Ask(Move(Enqueue(f, now), now)), Ask(Move(Process(now), now)), Ask(Move(Drain(now), now))]
  }

  function Heard(request: OpenRequest, f: Frame): Session
    requires |f.pcm| % 2 == 0
  {
    Opened(request).(lastFrameSequence := Some(f.sequence), streamId := Some(f.stream),
                     streams := map[f.utterance := f.stream], processed := 1,
                     output := [QueuedOutput(f, ReverseSamples(f.pcm))], outputMs := f.format.frameDurationMs)
  }

  lemma FrameProcessed(request: OpenRequest, contract: Contract, f: Frame, now: W.Ns)
    requires Openable(request) && !request.debugText && Begins(request, contract, f, now)
    requires Inv(CaptureOrder.FirstQueued(request, f, now))
    ensures |f.pcm| % 2 == 0
    ensures Apply(CaptureOrder.AT_ONCE, CaptureOrder.FirstQueued(request, f, now), Process(now)) ==
            Reply(Heard(request, f), Events([]))
  {
    var s := CaptureOrder.FirstQueued(request, f, now);
    PopInputKeepsInv(s);
    hide PcmFormat.FrameBytes, ReverseSamples, InputOk, OutputOk, IdsOk, NumbersOk;
    assert s.input[1..] == [];
    assert [] + [QueuedOutput(f, ReverseSamples(f.pcm))] == [QueuedOutput(f, ReverseSamples(f.pcm))];
  }

  lemma FramePlayed(request: OpenRequest, contract: Contract, f: Frame, now: W.Ns)
    requires Openable(request) && Begins(request, contract, f, now) && |f.pcm| % 2 == 0
    ensures var (s, q) := (Heard(request, f), QueuedOutput(f, ReverseSamples(f.pcm)));
            DrainOutput(s, now).answer == Events(AudioEvents(PopOutput(s), q, now))
  {
    hide PcmFormat.FrameBytes, ReverseSamples;
    var (s, q) := (Heard(request, f), QueuedOutput(f, ReverseSamples(f.pcm)));
    var r := DrainOne(PopOutput(s), q, now);
    assert r == Reply(AudioEmitted(PopOutput(s), f.utterance), Events(AudioEvents(PopOutput(s), q, now)));
    assert DrainFrom(r.session, now).answer == Events([]);
    assert AudioEvents(PopOutput(s), q, now) + [] == AudioEvents(PopOutput(s), q, now);
  }

  /** A call answered with nothing, and nothing amiss in recording it, goes well. */
  lemma QuietCall(contract: Contract, j: Joint, m: Move, s': Session)
    requires j.Running? && Inv(j.session) && Agree(contract, j.session, j.coordinator) && Fits(contract, m)
    requires contract.outputFormat.frameDurationMs <= C.MAX_RECEIVE_BUFFERED_MS && !m.op.Drain?
    requires Apply(CaptureOrder.AT_ONCE, j.session, m.op) == Reply(s', Events([]))
    requires !ToldAmiss(j.session, j.coordinator.watchdog, m.op)
    ensures var n := Step(CaptureOrder.AT_ONCE, j, m);
            n.Running? && n.session == s' && Agree(contract, s', n.coordinator)
  {
    hide Inv, Agree, Apply, Tell, ToldAmiss;
    StepRefusedIff(CaptureOrder.AT_ONCE, contract, j, m);
  }

  /** Both ends after two of the three calls. */
  lemma TwoCalls(request: OpenRequest, contract: Contract, f: Frame, now: W.Ns)
    requires Openable(request) && S.SameContract(request, contract) && !request.debugText
    requires Begins(request, contract, f, now)
    ensures AllFit(contract, EarlyRun(f, now)) && |f.pcm| % 2 == 0
    ensures var j := Together(CaptureOrder.AT_ONCE, request, contract, EarlyRun(f, now)[..2]);
            j.Running? && j.session == Heard(request, f) && Agree(contract, j.session, j.coordinator)
  {
    hide Agree, Step, Beginning, EnqueueFrame, Expired, PcmFormat.FrameBytes;
    var (turns, inj) := (EarlyRun(f, now), CaptureOrder.AT_ONCE);
    BeginningAgrees(request, contract);
    assert turns[..1][..0] == [] && turns[..2][..1] == turns[..1];
    var j0 := Together(inj, request, contract, turns[..0]);
    CaptureOrder.FirstFrame(request, contract, f, now);
    QuietCall(contract, j0, turns[0].move, CaptureOrder.FirstQueued(request, f, now));
    var j1 := Together(inj, request, contract, turns[..1]);
    assert j1 == Step(inj, j0, turns[0].move);
    FrameProcessed(request, contract, f, now);
    QuietCall(contract, j1, turns[1].move, Heard(request, f));
  }

  /** Whenever the first frame of an utterance is played before the input has ended, the
      coordinator refuses what the session plays. */
  lemma EarlyRunRefused(request: OpenRequest, contract: Contract, f: Frame, now: W.Ns)
    requires Openable(request) && S.SameContract(request, contract) && !request.debugText
    requires Begins(request, contract, f, now)
    ensures AllFit(contract, EarlyRun(f, now))
    ensures Together(CaptureOrder.AT_ONCE, request, contract, EarlyRun(f, now)).Refused?
  {
    hide Agree, Step, ReverseSamples, DrainOutput, Begins, PcmFormat.FrameBytes, Inv;
    var (turns, inj) := (EarlyRun(f, now), CaptureOrder.AT_ONCE);
    TwoCalls(request, contract, f, now);
    BeginningAgrees(request, contract);
    FramePlayed(request, contract, f, now);
    var j := Together(inj, request, contract, turns[..2]);
    assert turns[..|turns| - 1] == turns[..2];
    EarlyAudioRefused(inj, contract, j, now, 0);
  }

  /** And there are such runs in every mode: a frame captured, heard and played at zero. */
  lemma EarlyExample(request: OpenRequest, contract: Contract, u: Uuid, pcm: Pcm)
    requires Openable(request) && S.SameContract(request, contract) && !request.debugText
    requires |pcm| == request.inputFormat.FrameBytes()
    ensures var f := Frame(request.session, request.direction, contract.stream, u, 0, 0, request.inputFormat,
                           request.source, request.target, request.mode, pcm, false);
            AllFit(contract, EarlyRun(f, 0))
            && Together(CaptureOrder.AT_ONCE, request, contract, EarlyRun(f, 0)).Refused?
  {
    hide PcmFormat.FrameBytes, Together;
    var f := Frame(request.session, request.direction, contract.stream, u, 0, 0, request.inputFormat,
                   request.source, request.target, request.mode, pcm, false);
    EarlyRunRefused(request, contract, f, 0);
  }
}
